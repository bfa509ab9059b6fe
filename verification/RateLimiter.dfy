/**
 The sliding-window rate limiter: a Redis sorted set of admitted requests per client,
 trimmed, counted and extended by one atomic script.
 */
module RateLimiter {
  import opened Common

  /** The sorted-set member `now:salt`; its score is `now`. */
  datatype Member = Member(now: int, salt: int)

  /** A Redis key holding a sorted set; a key that is past its expiry no longer exists. */
  datatype Key = Missing | SortedSet(scores: map<Member, int>, expireAt: int)

  const WINDOW_MS := 1000
  const LIMIT := 20

  // ---------------------------------------------------------------- the sorted-set commands

  /** What a command finds under the key at time `now`. */
  function Lookup(key: Key, now: int): map<Member, int> {
    if key.Missing? || key.expireAt <= now then map[] else key.scores
  }

  /** ZREMRANGEBYSCORE key -inf max */
  function RemoveUpTo(scores: map<Member, int>, max: int): map<Member, int> {
    map m | m in scores && scores[m] > max :: scores[m]
  }

  /** An empty sorted set is a missing key; trimming keeps the expiry. */
  function Trimmed(key: Key, now: int, window: int): Key {
    var kept := RemoveUpTo(Lookup(key, now), now - window);
    if kept == map[] then Missing else SortedSet(kept, key.expireAt)
  }

  /** The whole script: the new key and whether the request is admitted. */
  function Script(key: Key, req: Member, window: int, limit: int): (Key, bool) {
    var kept := RemoveUpTo(Lookup(key, req.now), req.now - window);
    if |kept| < limit then (SortedSet(kept[req := req.now], req.now + window), true)
    else (Trimmed(key, req.now, window), false)
  }

  // ---------------------------------------------------------------- runs

  /** The key after a sequence of requests, and the requests that were admitted. */
  function Run(reqs: seq<Member>, window: int, limit: int): (Key, seq<Member>) {
    if reqs == [] then (Missing, [])
    else
      var (key, admitted) := Run(reqs[..|reqs| - 1], window, limit);
      var req := reqs[|reqs| - 1];
      var (key', ok) := Script(key, req, window, limit);
      (key', if ok then admitted + [req] else admitted)
  }

  predicate Chronological(reqs: seq<Member>) {
    forall i, j | 0 <= i < j < |reqs| :: reqs[i].now <= reqs[j].now
  }

  predicate Distinct(reqs: seq<Member>) {
    forall i, j | 0 <= i < j < |reqs| :: reqs[i] != reqs[j]
  }

  /** The members of `log` whose time lies in the half-open window (after, upTo]. */
  function InWindow(log: seq<Member>, after: int, upTo: int): set<Member> {
    set m | m in log && after < m.now <= upTo
  }

  /** How many requests of `log` lie in (after, upTo]. */
  function CountInWindow(log: seq<Member>, after: int, upTo: int): nat {
    if log == [] then 0
    else CountInWindow(log[..|log| - 1], after, upTo) + if after < log[|log| - 1].now <= upTo then 1 else 0
  }

  /** At any later moment the key shows exactly the admitted requests of the last window; the stored expiry only
      ever hides members that the script would have trimmed anyway. */
  ghost predicate Mirrors(key: Key, admitted: seq<Member>, last: int, window: int) {
    && (forall m | m in admitted :: m.now <= last)
    && forall t | t >= last ::
         RemoveUpTo(Lookup(key, t), t - window) == map m | m in InWindow(admitted, t - window, t) :: m.now
  }

  lemma ScriptMirrors(key: Key, admitted: seq<Member>, last: int, req: Member, window: int, limit: int)
    requires window > 0 && Mirrors(key, admitted, last, window) && last <= req.now
    ensures var (key', ok) := Script(key, req, window, limit);
            && Mirrors(key', if ok then admitted + [req] else admitted, req.now, window)
            && ok == (|InWindow(admitted, req.now - window, req.now)| < limit)
  {
    var (key', ok) := Script(key, req, window, limit);
    var kept := RemoveUpTo(Lookup(key, req.now), req.now - window);
    var admitted' := if ok then admitted + [req] else admitted;
    assert kept.Keys == InWindow(admitted, req.now - window, req.now);
    assert |kept| == |kept.Keys|;
    forall t | t >= req.now
      ensures RemoveUpTo(Lookup(key', t), t - window) == map m | m in InWindow(admitted', t - window, t) :: m.now
    {
      var shown := RemoveUpTo(Lookup(key', t), t - window);
      var before := RemoveUpTo(Lookup(key, t), t - window);
      assert before.Keys == InWindow(admitted, t - window, t);
      forall m ensures m in shown <==> m in InWindow(admitted', t - window, t) {
        assert m in before <==> m in InWindow(admitted, t - window, t);
        assert m in kept <==> m in InWindow(admitted, req.now - window, req.now);
      }
    }
  }

  /** A bound on the times seen so far, usable as the `last` of `Mirrors`. */
  predicate UpTo(reqs: seq<Member>, last: int) {
    forall i | 0 <= i < |reqs| :: reqs[i].now <= last
  }

  /** After any requests on a non-decreasing clock the stored set is the admission history cut to the window,
      at the present and at every later moment. */
  lemma {:induction false} RunMirrors(reqs: seq<Member>, last: int, window: int, limit: int)
    requires window > 0 && Chronological(reqs) && UpTo(reqs, last)
    ensures var (key, admitted) := Run(reqs, window, limit); Mirrors(key, admitted, last, window)
  {
    if reqs != [] {
      var before, req := reqs[..|reqs| - 1], reqs[|reqs| - 1];
      RunMirrors(before, req.now, window, limit);
      var (key, admitted) := Run(before, window, limit);
      ScriptMirrors(key, admitted, req.now, req, window, limit);
    }
  }

  /** The key expires at `last + window` and holds one to `limit` members. */
  predicate Kept(key: Key, last: int, window: int, limit: nat) {
    key.SortedSet? ==> key.expireAt == last + window && 0 < |key.scores| <= limit
  }

  lemma TrimmedSize(scores: map<Member, int>, max: int)
    ensures |RemoveUpTo(scores, max)| <= |scores|
  {
    var kept := RemoveUpTo(scores, max);
    assert |kept.Keys| == |kept| && |scores.Keys| == |scores|;
    SubsetSize(kept.Keys, scores.Keys);
  }

  lemma AddedSize(scores: map<Member, int>, m: Member, score: int)
    ensures 0 < |scores[m := score]| <= |scores| + 1
  {
    assert scores[m := score].Keys == scores.Keys + {m};
    assert |scores[m := score].Keys| == |scores[m := score]| && |scores.Keys| == |scores|;
  }

  lemma ScriptKeeps(key: Key, last: int, req: Member, window: int, limit: nat)
    requires Kept(key, last, window, limit)
    ensures var (key', ok) := Script(key, req, window, limit);
            Kept(key', if ok then req.now else last, window, limit) && (ok ==> key'.SortedSet?)
            && (key'.SortedSet? ==> ok || key.SortedSet?)
  {
    var kept := RemoveUpTo(Lookup(key, req.now), req.now - window);
    TrimmedSize(Lookup(key, req.now), req.now - window);
    AddedSize(kept, req, req.now);
  }

  /** The key is kept for exactly one window after the last admitted request, and never holds more than `limit`
      members; both on any clock. */
  lemma {:induction false} KeyIsBounded(reqs: seq<Member>, window: int, limit: nat)
    ensures var (key, admitted) := Run(reqs, window, limit);
            key.SortedSet? ==> admitted != [] && Kept(key, admitted[|admitted| - 1].now, window, limit)
  {
    if reqs != [] {
      var before, req := reqs[..|reqs| - 1], reqs[|reqs| - 1];
      KeyIsBounded(before, window, limit);
      var (key, admitted) := Run(before, window, limit);
      ScriptKeeps(key, if admitted == [] then 0 else admitted[|admitted| - 1].now, req, window, limit);
    }
  }

  // ---------------------------------------------------------------- the reference limiter

  function LogStep(log: seq<Member>, req: Member, window: int, limit: int): seq<Member> {
    if CountInWindow(log, req.now - window, req.now) < limit then log + [req] else log
  }

  /** The textbook sliding log: nothing is ever trimmed, nothing expires. */
  function SlidingLog(reqs: seq<Member>, window: int, limit: int): seq<Member> {
    if reqs == [] then []
    else
      var log, req := SlidingLog(reqs[..|reqs| - 1], window, limit), reqs[|reqs| - 1];
      LogStep(log, req, window, limit)
  }

  lemma PrefixOf(reqs: seq<Member>)
    requires reqs != [] && Chronological(reqs)
    ensures Chronological(reqs[..|reqs| - 1]) && UpTo(reqs[..|reqs| - 1], reqs[|reqs| - 1].now)
    ensures Distinct(reqs) ==> Distinct(reqs[..|reqs| - 1]) && reqs[|reqs| - 1] !in reqs[..|reqs| - 1]
  {
  }

  lemma LogStepIsSubsequence(front: seq<Member>, log: seq<Member>, req: Member, last: int, window: int, limit: int)
    requires UpTo(log, last) && req.now <= last && forall m | m in log :: m in front
    ensures var log' := LogStep(log, req, window, limit);
            && UpTo(log', last)
            && (forall m | m in log' :: m in front || m == req)
            && (Distinct(log) && req !in front ==> Distinct(log'))
  {
  }

  lemma {:induction false} SlidingLogIsSubsequence(reqs: seq<Member>, last: int, window: int, limit: int)
    requires Chronological(reqs) && UpTo(reqs, last)
    ensures forall m | m in SlidingLog(reqs, window, limit) :: m in reqs
    ensures Distinct(reqs) ==> Distinct(SlidingLog(reqs, window, limit))
    ensures UpTo(SlidingLog(reqs, window, limit), last)
  {
    if reqs != [] {
      var front, req := reqs[..|reqs| - 1], reqs[|reqs| - 1];
      PrefixOf(reqs);
      SlidingLogIsSubsequence(front, last, window, limit);
      LogStepIsSubsequence(front, SlidingLog(front, window, limit), req, last, window, limit);
      assert forall m | m in front || m == req :: m in reqs;
    }
  }

  lemma {:induction false} CountIsCardinality(log: seq<Member>, after: int, upTo: int)
    requires Distinct(log)
    ensures CountInWindow(log, after, upTo) == |InWindow(log, after, upTo)|
  {
    if log != [] {
      var before, m := log[..|log| - 1], log[|log| - 1];
      CountIsCardinality(before, after, upTo);
      WindowSnoc(before, m, after, upTo);
      assert before + [m] == log;
    }
  }

  lemma WindowSnoc(log: seq<Member>, m: Member, after: int, upTo: int)
    requires m !in log
    ensures |InWindow(log + [m], after, upTo)| == |InWindow(log, after, upTo)| + if after < m.now <= upTo then 1 else 0
  {
    var before := InWindow(log, after, upTo);
    assert m !in before;
    assert InWindow(log + [m], after, upTo) == before + if after < m.now <= upTo then {m} else {};
  }

  /** On distinct members the script compares the number of admitted requests in the window with the limit. */
  lemma ScriptCounts(key: Key, admitted: seq<Member>, req: Member, window: int, limit: int)
    requires window > 0 && Mirrors(key, admitted, req.now, window) && Distinct(admitted)
    ensures Script(key, req, window, limit).1 == (CountInWindow(admitted, req.now - window, req.now) < limit)
  {
    ScriptMirrors(key, admitted, req.now, req, window, limit);
    CountIsCardinality(admitted, req.now - window, req.now);
  }

  /** The Redis script with its trimming and key expiry takes exactly the decisions of the sliding log. */
  lemma {:induction false} ScriptRefinesSlidingLog(reqs: seq<Member>, window: int, limit: int)
    requires window > 0 && Chronological(reqs) && Distinct(reqs)
    ensures Run(reqs, window, limit).1 == SlidingLog(reqs, window, limit)
  {
    if reqs != [] {
      PrefixOf(reqs);
      ScriptRefinesSlidingLog(reqs[..|reqs| - 1], window, limit);
      ScriptDecidesLikeLog(reqs[..|reqs| - 1], reqs[|reqs| - 1], window, limit);
    }
  }

  lemma ScriptDecidesLikeLog(reqs: seq<Member>, req: Member, window: int, limit: int)
    requires window > 0 && Chronological(reqs) && Distinct(reqs) && UpTo(reqs, req.now)
    requires Run(reqs, window, limit).1 == SlidingLog(reqs, window, limit)
    ensures var (key, admitted) := Run(reqs, window, limit);
            Script(key, req, window, limit).1 == (CountInWindow(admitted, req.now - window, req.now) < limit)
  {
    RunMirrors(reqs, req.now, window, limit);
    SlidingLogIsSubsequence(reqs, req.now, window, limit);
    var (key, admitted) := Run(reqs, window, limit);
    ScriptCounts(key, admitted, req, window, limit);
  }

  lemma {:induction false} CountMonotone(log: seq<Member>, after1: int, upTo1: int, after2: int, upTo2: int)
    requires forall m | m in log && after1 < m.now <= upTo1 :: after2 < m.now <= upTo2
    ensures CountInWindow(log, after1, upTo1) <= CountInWindow(log, after2, upTo2)
  {
    if log != [] {
      CountMonotone(log[..|log| - 1], after1, upTo1, after2, upTo2);
    }
  }

  lemma LogStepBounded(log: seq<Member>, req: Member, window: int, limit: nat, end: int)
    requires UpTo(log, req.now) && CountInWindow(log, end - window, end) <= limit
    ensures CountInWindow(LogStep(log, req, window, limit), end - window, end) <= limit
  {
    assert (log + [req])[..|log|] == log;
    if end - window < req.now <= end {
      CountMonotone(log, end - window, end, req.now - window, req.now);
    }
  }

  lemma {:induction false} SlidingLogBounded(reqs: seq<Member>, window: int, limit: nat, end: int)
    requires window > 0 && Chronological(reqs)
    ensures CountInWindow(SlidingLog(reqs, window, limit), end - window, end) <= limit
  {
    if reqs != [] {
      PrefixOf(reqs);
      var before, req := reqs[..|reqs| - 1], reqs[|reqs| - 1];
      SlidingLogBounded(before, window, limit, end);
      SlidingLogIsSubsequence(before, req.now, window, limit);
      LogStepBounded(SlidingLog(before, window, limit), req, window, limit, end);
    }
  }

  /** At most `limit` requests are admitted in any half-open window of the given length, wherever it ends. */
  lemma {:induction false} AtMostLimitPerWindow(reqs: seq<Member>, window: int, limit: nat, end: int)
    requires window > 0 && Chronological(reqs) && Distinct(reqs)
    ensures CountInWindow(Run(reqs, window, limit).1, end - window, end) <= limit
  {
    ScriptRefinesSlidingLog(reqs, window, limit);
    SlidingLogBounded(reqs, window, limit, end);
  }

  /** A request is refused exactly when `limit` requests were admitted in the window that ends with it. */
  lemma {:induction false} RefusedIffWindowFull(reqs: seq<Member>, req: Member, window: int, limit: nat)
    requires window > 0 && Chronological(reqs) && Distinct(reqs) && UpTo(reqs, req.now)
    ensures var (key, admitted) := Run(reqs, window, limit);
            !Script(key, req, window, limit).1 <==> CountInWindow(admitted, req.now - window, req.now) == limit
  {
    ScriptRefinesSlidingLog(reqs, window, limit);
    SlidingLogBounded(reqs, window, limit, req.now);
    ScriptDecidesLikeLog(reqs, req, window, limit);
  }

  /** With the program's constants: at most 20 requests are admitted in any 1000 milliseconds, and one is refused
      exactly when 20 were admitted in the 1000 milliseconds that end with it. */
  lemma TwentyPerSecond(reqs: seq<Member>, req: Member, end: int)
    requires Chronological(reqs) && Distinct(reqs) && UpTo(reqs, req.now)
    ensures var (key, admitted) := Run(reqs, WINDOW_MS, LIMIT);
            && CountInWindow(admitted, end - 1000, end) <= 20
            && (!Script(key, req, WINDOW_MS, LIMIT).1 <==> CountInWindow(admitted, req.now - 1000, req.now) == 20)
  {
    AtMostLimitPerWindow(reqs, WINDOW_MS, LIMIT, end);
    RefusedIffWindowFull(reqs, req, WINDOW_MS, LIMIT);
  }

  // ---------------------------------------------------------------- equal members

  /** The members in any window, as a set, never exceed the limit, also when requests draw equal members. */
  lemma {:induction false} MembersBounded(reqs: seq<Member>, window: int, limit: nat, end: int)
    requires window > 0 && Chronological(reqs)
    ensures |InWindow(Run(reqs, window, limit).1, end - window, end)| <= limit
  {
    if reqs != [] {
      var before, req := reqs[..|reqs| - 1], reqs[|reqs| - 1];
      PrefixOf(reqs);
      MembersBounded(before, window, limit, end);
      RunMirrors(before, req.now, window, limit);
      var (key, admitted) := Run(before, window, limit);
      ScriptMirrors(key, admitted, req.now, req, window, limit);
      MemberAdded(admitted, req, window, limit, end);
    }
  }

  lemma MemberAdded(admitted: seq<Member>, req: Member, window: int, limit: nat, end: int)
    requires forall m | m in admitted :: m.now <= req.now
    requires |InWindow(admitted, end - window, end)| <= limit
    ensures |InWindow(admitted, req.now - window, req.now)| < limit ==>
        |InWindow(admitted + [req], end - window, end)| <= limit
  {
    var was, now := InWindow(admitted, end - window, end), InWindow(admitted, req.now - window, req.now);
    var new_ := InWindow(admitted + [req], end - window, end);
    if end - window < req.now <= end {
      assert new_ == was + {req};
      assert was <= now;
      SubsetSize(was, now);
    } else {
      assert new_ == was;
    }
  }

  /** The window (after, upTo] holds two equal requests. */
  ghost predicate TwoEqual(log: seq<Member>, after: int, upTo: int) {
    exists i, j | 0 <= i < j < |log| :: log[i] == log[j] && after < log[i].now <= upTo
  }

  lemma TwoEqualSnoc(log: seq<Member>, m: Member, after: int, upTo: int)
    ensures TwoEqual(log + [m], after, upTo) <==> TwoEqual(log, after, upTo) || m in InWindow(log, after, upTo)
  {
    var all := log + [m];
    if TwoEqual(all, after, upTo) {
      var i, j :| 0 <= i < j < |all| && all[i] == all[j] && after < all[i].now <= upTo;
      if j < |log| { assert log[i] == log[j]; } else { assert log[i] == m; }
    }
    if TwoEqual(log, after, upTo) {
      var i, j :| 0 <= i < j < |log| && log[i] == log[j] && after < log[i].now <= upTo;
      assert all[i] == all[j];
    } else if m in InWindow(log, after, upTo) {
      var i :| 0 <= i < |log| && log[i] == m;
      assert all[i] == all[|log|];
    }
  }

  /** Requests are counted with repetition, members without, and the two differ exactly by equal requests. */
  lemma {:induction false} CountVersusMembers(log: seq<Member>, after: int, upTo: int)
    ensures |InWindow(log, after, upTo)| <= CountInWindow(log, after, upTo)
    ensures |InWindow(log, after, upTo)| == CountInWindow(log, after, upTo) <==> !TwoEqual(log, after, upTo)
  {
    if log != [] {
      var before, m := log[..|log| - 1], log[|log| - 1];
      CountVersusMembers(before, after, upTo);
      TwoEqualSnoc(before, m, after, upTo);
      assert before + [m] == log;
      if m in before {
        assert InWindow(log, after, upTo) == InWindow(before, after, upTo);
      } else {
        WindowSnoc(before, m, after, upTo);
      }
    }
  }

  /** The window that ends with request `req` is full, and two of the requests in it are equal. */
  ghost predicate Overfills(admitted: seq<Member>, req: Member, window: int, limit: nat) {
    && CountInWindow(admitted, req.now - window, req.now) == limit
    && TwoEqual(admitted, req.now - window, req.now)
  }

  ghost predicate OverfillsAt(reqs: seq<Member>, i: nat, window: int, limit: nat)
    requires i < |reqs|
  {
    Overfills(Run(reqs[..i], window, limit).1, reqs[i], window, limit)
  }

  ghost predicate NeverOverfilled(reqs: seq<Member>, window: int, limit: nat) {
    forall i | 0 <= i < |reqs| :: !OverfillsAt(reqs, i, window, limit)
  }

  /** How many requests the window of the given length that ends at `end` holds. */
  function CountEnding(log: seq<Member>, end: int, window: int): nat {
    CountInWindow(log, end - window, end)
  }

  /** Every window of the given length holds at most `limit` admitted requests. */
  ghost predicate WithinLimit(admitted: seq<Member>, window: int, limit: nat) {
    forall end :: CountEnding(admitted, end, window) <= limit
  }

  lemma CountSnoc(log: seq<Member>, m: Member, after: int, upTo: int)
    ensures CountInWindow(log + [m], after, upTo) == CountInWindow(log, after, upTo) + if after < m.now <= upTo then 1
        else 0
  {
    assert (log + [m])[..|log|] == log;
  }

  lemma AdmittedWithin(admitted: seq<Member>, req: Member, window: int, limit: nat)
    requires window > 0 && (forall m | m in admitted :: m.now <= req.now) && WithinLimit(admitted, window, limit)
    requires CountEnding(admitted, req.now, window) < limit
    ensures WithinLimit(admitted + [req], window, limit)
  {
    forall end: int ensures CountEnding(admitted + [req], end, window) <= limit {
      assert CountEnding(admitted, end, window) <= limit;
      CountSnoc(admitted, req, end - window, end);
      if end - window < req.now <= end {
        CountMonotone(admitted, end - window, end, req.now - window, req.now);
      }
    }
  }

  lemma OverfilledBreaks(admitted: seq<Member>, req: Member, window: int, limit: nat)
    requires window > 0 && CountInWindow(admitted, req.now - window, req.now) == limit
    ensures !WithinLimit(admitted + [req], window, limit)
  {
    CountSnoc(admitted, req, req.now - window, req.now);
    assert CountEnding(admitted + [req], req.now, window) == limit + 1;
  }

  /** One request, admitted or not, keeps every window within the limit if and only if it does not overfill its own. */
  lemma OverfillStep(admitted: seq<Member>, req: Member, ok: bool, window: int, limit: nat)
    requires window > 0 && (forall m | m in admitted :: m.now <= req.now) && WithinLimit(admitted, window, limit)
    requires ok <==> |InWindow(admitted, req.now - window, req.now)| < limit
    ensures WithinLimit(if ok then admitted + [req] else admitted, window, limit) <==>
        !Overfills(admitted, req, window, limit)
  {
    CountVersusMembers(admitted, req.now - window, req.now);
    assert CountEnding(admitted, req.now, window) <= limit;
    if Overfills(admitted, req, window, limit) {
      OverfilledBreaks(admitted, req, window, limit);
    } else if ok {
      AdmittedWithin(admitted, req, window, limit);
    }
  }

  lemma {:induction false} OverfilledPrefix(reqs: seq<Member>, window: int, limit: nat)
    requires reqs != []
    ensures var n := |reqs| - 1;
            NeverOverfilled(reqs, window, limit) <==>
              NeverOverfilled(reqs[..n], window, limit)
                  && !Overfills(Run(reqs[..n], window, limit).1, reqs[n], window, limit)
  {
    var n := |reqs| - 1;
    forall i | 0 <= i < n ensures OverfillsAt(reqs[..n], i, window, limit) <==> OverfillsAt(reqs, i, window, limit) {
      assert reqs[..n][..i] == reqs[..i];
    }
    assert OverfillsAt(reqs, n, window, limit) <==> Overfills(Run(reqs[..n], window, limit).1, reqs[n], window, limit);
  }

  lemma ExceededStaysExceeded(admitted: seq<Member>, req: Member, window: int, limit: nat)
    requires !WithinLimit(admitted, window, limit)
    ensures !WithinLimit(admitted + [req], window, limit)
  {
    var end :| CountEnding(admitted, end, window) > limit;
    CountSnoc(admitted, req, end - window, end);
    assert CountEnding(admitted + [req], end, window) > limit;
  }

  /** Without any premise on the members: every window stays within the limit if and only if no request ever met a full
      window with two equal requests in it. */
  lemma {:induction false} LimitKeptIffNeverOverfilled(reqs: seq<Member>, window: int, limit: nat)
    requires window > 0 && Chronological(reqs)
    ensures WithinLimit(Run(reqs, window, limit).1, window, limit) <==> NeverOverfilled(reqs, window, limit)
  {
    if reqs != [] {
      var before, req := reqs[..|reqs| - 1], reqs[|reqs| - 1];
      PrefixOf(reqs);
      LimitKeptIffNeverOverfilled(before, window, limit);
      OverfilledPrefix(reqs, window, limit);
      RunMirrors(before, req.now, window, limit);
      var (key, admitted) := Run(before, window, limit);
      ScriptMirrors(key, admitted, req.now, req, window, limit);
      if WithinLimit(admitted, window, limit) {
        OverfillStep(admitted, req, Script(key, req, window, limit).1, window, limit);
      } else {
        ExceededStaysExceeded(admitted, req, window, limit);
      }
    }
  }

  lemma RunSnoc(reqs: seq<Member>, req: Member, window: int, limit: int)
    ensures var (key, admitted) := Run(reqs, window, limit);
            var (key', ok) := Script(key, req, window, limit);
            Run(reqs + [req], window, limit) == (key', if ok then admitted + [req] else admitted)
  {
    assert (reqs + [req])[..|reqs|] == reqs;
  }

  function Repeated(n: nat, m: Member): seq<Member> {
    seq(n, _ => m)
  }

  /** With the program's window and limit: requests that draw the same time and salt are one member, and any number of
      them is admitted. */
  lemma {:induction false} EqualMembersEvadeTheLimit(n: nat, m: Member)
    ensures Run(Repeated(n, m), WINDOW_MS, LIMIT).1 == Repeated(n, m)
    ensures n > 0 ==> Run(Repeated(n, m), WINDOW_MS, LIMIT).0 == SortedSet(map[m := m.now], m.now + WINDOW_MS)
  {
    if n > 0 {
      EqualMembersEvadeTheLimit(n - 1, m);
      var (key, admitted) := Run(Repeated(n - 1, m), WINDOW_MS, LIMIT);
      assert n == 1 ==> Repeated(0, m) == [] && key == Missing;
      OneMemberStays(key, m);
      RunSnoc(Repeated(n - 1, m), m, WINDOW_MS, LIMIT);
      assert Repeated(n - 1, m) + [m] == Repeated(n, m);
    }
  }

  lemma OneMemberStays(key: Key, m: Member)
    requires key == Missing || key == SortedSet(map[m := m.now], m.now + WINDOW_MS)
    ensures Script(key, m, WINDOW_MS, LIMIT) == (SortedSet(map[m := m.now], m.now + WINDOW_MS), true)
  {
    var kept := RemoveUpTo(Lookup(key, m.now), m.now - WINDOW_MS);
    assert kept == map[] || kept == map[m := m.now];
    assert kept[m := m.now] == map[m := m.now];
  }

  // ---------------------------------------------------------------- the middleware

  class Limiter {
    var keys: map<string, Key>

    constructor ()
      ensures keys == map[]
    {
      keys := map[];
    }

    function Of(ip: string): Key
      reads this
    {
      if ip in keys then keys[ip] else Missing
    }

    /** One request: the script runs against the client's own key; when Redis is unreachable the request passes. */
    method RateLimit(ip: string, now: int, salt: int, redisOk: bool) returns (pass: bool)
      modifies this
      ensures !redisOk ==> pass && keys == old(keys)
      ensures redisOk ==> (Of(ip), pass) == Script(old(Of(ip)), Member(now, salt), 1000, 20)
      ensures forall other | other != ip :: Of(other) == old(Of(other))
    {
      if !redisOk {
        return true;
      }
      var kept := RemoveUpTo(Lookup(Of(ip), now), now - WINDOW_MS);
      var expireAt := if Of(ip).Missing? then 0 else Of(ip).expireAt;
      if kept == map[] {
        keys := keys - {ip};
      } else {
        keys := keys[ip := SortedSet(kept, expireAt)];
      }
      var count := |kept|;
      if count < LIMIT {
        keys := keys[ip := SortedSet(kept[Member(now, salt) := now], now + WINDOW_MS)];
        return true;
      }
      return false;
    }
  }
}
