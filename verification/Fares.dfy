/** Fare quotes, the billed amount of a shortened trip, and the split between platform and driver. */
module Fares {

  /** Rounds half away from zero. */
  function Round(x: real): int {
    if x >= 0.0 then (x + 0.5).Floor else -((-x + 0.5).Floor)
  }

  /** Conversion to an integer and SQL integer division both truncate toward zero. */
  function Trunc(x: real): int {
    if x >= 0.0 then x.Floor else -((-x).Floor)
  }

  function TruncDiv(a: int, b: int): int
    requires b > 0
  {
    if a >= 0 then a / b else -((-a) / b)
  }

  /** Both truncate toward zero for either sign: the rest has the sign of the dividend and is smaller than one unit. */
  lemma DivisionTruncates(a: int, b: int, x: real)
    requires b > 0
    ensures var rest := a - b * TruncDiv(a, b); if a >= 0 then 0 <= rest < b else -b < rest <= 0
    ensures var rest := x - Trunc(x) as real; if x >= 0.0 then 0.0 <= rest < 1.0 else -1.0 < rest <= 0.0
  {
    assert a == b * (a / b) + a % b && -a == b * ((-a) / b) + (-a) % b;
  }

  // ---------------------------------------------------------------- quotes

  datatype Fare = Fare(packageSlug: string, totalPriceInCents: int)

  /** Metres and seconds of the first route, and the number of points of its geometry. */
  datatype Route = Route(distance: real, duration: real, points: nat)

  const PRICE_PER_KM := 150.0
  const PRICE_PER_MINUTE := 30.0

  function GetBaseFares(): seq<Fare> {
    [Fare("economy", 500), Fare("comfort", 800), Fare("van", 1000), Fare("business", 1500)]
  }

  function Total(base: int, route: Route): real {
    base as real + route.distance / 1000.0 * PRICE_PER_KM + route.duration / 60.0 * PRICE_PER_MINUTE
  }

  function EstimateFareRoute(f: Fare, route: Route): Fare {
    Fare(f.packageSlug, Round(Total(f.totalPriceInCents, route)))
  }

  /** One quote per package, in the order of the base fares; a response without a route is a crash in the program. */
  method EstimatePackagesPriceWithRoute(routes: seq<Route>) returns (fares: seq<Fare>)
    requires |routes| > 0
    ensures |fares| == 4
    ensures forall i | 0 <= i < 4 :: fares[i] == EstimateFareRoute(GetBaseFares()[i], routes[0])
    ensures fares[0].packageSlug == "economy" && fares[1].packageSlug == "comfort"
    ensures fares[2].packageSlug == "van" && fares[3].packageSlug == "business"
    ensures forall i | 0 <= i < 4 :: PricedAt(fares[i].totalPriceInCents, BaseCents(i), routes[0])
  {
    var baseFares := GetBaseFares();
    fares := [];
    for i := 0 to |baseFares|
      invariant |fares| == i
      invariant forall k | 0 <= k < i :: fares[k] == EstimateFareRoute(baseFares[k], routes[0])
      invariant forall k | 0 <= k < i :: PricedAt(fares[k].totalPriceInCents, BaseCents(k), routes[0])
    {
      QuoteIsPriced(i, routes[0]);
      fares := fares + [EstimateFareRoute(baseFares[i], routes[0])];
    }
  }

  lemma FloorShift(x: real, n: int)
    ensures (x + n as real).Floor == x.Floor + n
  {
  }

  /** The quote for package number `i`. */
  function Quote(i: nat, route: Route): int
    requires i < 4
  {
    EstimateFareRoute(GetBaseFares()[i], route).totalPriceInCents
  }

  // ---------------------------------------------------------------- the tariff

  /** What a package costs before the first metre, in cents. */
  function BaseCents(i: nat): int
    requires i < 4
  {
    match i case 0 => 500 case 1 => 800 case 2 => 1000 case 3 => 1500
  }

  /** The quote is nearest to the base price plus 15 cents for every 100 metres and half a cent for every second; half a
      cent is rounded away from zero. */
  predicate PricedAt(quote: int, base: int, route: Route) {
    var exact := base as real + 0.15 * route.distance + 0.5 * route.duration;
    if exact >= 0.0 then quote as real - 0.5 <= exact < quote as real + 0.5
    else quote as real - 0.5 < exact <= quote as real + 0.5
  }

  lemma RoundNearest(x: real)
    ensures x >= 0.0 ==> Round(x) as real - 0.5 <= x < Round(x) as real + 0.5
    ensures x < 0.0 ==> Round(x) as real - 0.5 < x <= Round(x) as real + 0.5
  {
  }

  lemma TotalInMetres(base: int, route: Route)
    ensures Total(base, route) == base as real + 0.15 * route.distance + 0.5 * route.duration
  {
  }

  /** Every quote follows the tariff. */
  lemma QuoteIsPriced(i: nat, route: Route)
    requires i < 4
    ensures PricedAt(Quote(i, route), BaseCents(i), route)
  {
    TotalInMetres(BaseCents(i), route);
    RoundNearest(Total(BaseCents(i), route));
  }

  /** The tariff in whole units: kilometres at 150 cents and minutes at 30, on top of 500, 800, 1000 or 1500. */
  lemma QuoteInWholeUnits(i: nat, km: nat, minutes: nat, points: nat)
    requires i < 4
    ensures Quote(i, Route(1000.0 * km as real, 60.0 * minutes as real, points)) ==
              (if i == 0 then 500 else if i == 1 then 800 else if i == 2 then 1000 else 1500) + 150 * km + 30 * minutes
  {
    var route := Route(1000.0 * km as real, 60.0 * minutes as real, points);
    QuoteIsPriced(i, route);
    var whole := BaseCents(i) + 150 * km + 30 * minutes;
    assert whole as real == BaseCents(i) as real + 0.15 * route.distance + 0.5 * route.duration;
    NearestWhole(Quote(i, route), whole);
  }

  lemma NearestWhole(quote: int, whole: int)
    requires quote as real - 0.5 <= whole as real < quote as real + 0.5
    ensures quote == whole
  {
  }

  /** One kilometre more costs exactly 150 cents more, one minute more exactly 30, on every route. */
  lemma OneMore(i: nat, route: Route)
    requires i < 4 && route.distance >= 0.0 && route.duration >= 0.0
    ensures Quote(i, route.(distance := route.distance + 1000.0)) == Quote(i, route) + 150
    ensures Quote(i, route.(duration := route.duration + 60.0)) == Quote(i, route) + 30
  {
    var exact := Total(BaseCents(i), route);
    TotalInMetres(BaseCents(i), route);
    TotalInMetres(BaseCents(i), route.(distance := route.distance + 1000.0));
    TotalInMetres(BaseCents(i), route.(duration := route.duration + 60.0));
    FloorShift(exact + 0.5, 150);
    FloorShift(exact + 0.5, 30);
  }

  /** The four quotes of a route differ by 300, 200 and 500 cents, and each follows the tariff. */
  lemma QuotesStrictlyOrdered(route: Route)
    requires route.distance >= 0.0 && route.duration >= 0.0
    ensures Quote(1, route) == Quote(0, route) + 300
    ensures Quote(2, route) == Quote(1, route) + 200
    ensures Quote(3, route) == Quote(2, route) + 500
    ensures forall i: nat | i < 4 :: PricedAt(Quote(i, route), BaseCents(i), route)
  {
    forall i: nat | i < 4 ensures PricedAt(Quote(i, route), BaseCents(i), route) { QuoteIsPriced(i, route); }
    var extra := Total(0, route);
    assert extra >= 0.0 by {
      assert route.distance / 1000.0 * PRICE_PER_KM >= 0.0 && route.duration / 60.0 * PRICE_PER_MINUTE >= 0.0;
    }
    FloorShift(extra + 0.5, 500);
    FloorShift(extra + 0.5, 800);
    FloorShift(extra + 0.5, 1000);
    FloorShift(extra + 0.5, 1500);
    forall base | base in {500, 800, 1000, 1500} ensures Round(Total(base, route)) == (extra + 0.5).Floor + base {}
  }

  lemma RoundMonotone(x: real, y: real)
    requires x <= y
    ensures Round(x) <= Round(y)
  {
  }

  /** A longer or slower route never gets a lower quote. */
  lemma QuoteMonotone(f: Fare, r1: Route, r2: Route)
    requires r1.distance <= r2.distance && r1.duration <= r2.duration
    ensures EstimateFareRoute(f, r1).totalPriceInCents <= EstimateFareRoute(f, r2).totalPriceInCents
  {
    RoundMonotone(Total(f.totalPriceInCents, r1), Total(f.totalPriceInCents, r2));
  }

  // ---------------------------------------------------------------- the billed amount

  /** The completed event: where the trip really ended (zero when unknown), and the great-circle distance from the
      pickup to that point, in kilometres. */
  datatype Completed = Completed(actualLat: real, actualLng: real, actualKm: real)

  /** Whether the end point is known and the fare carries a planned route to compare with. */
  predicate Comparable(data: Completed, routes: seq<Route>) {
    data.actualLat != 0.0 && data.actualLng != 0.0 && |routes| > 0 && routes[0].points > 0
        && routes[0].distance / 1000.0 > 0.0
  }

  /** The handler's computation of the amount to bill for a quote. */
  method BillTrip(quote: int, data: Completed, routes: seq<Route>) returns (amount: int)
    ensures amount == Billed(quote, data, routes)
  {
    amount := quote;
    if data.actualLat != 0.0 && data.actualLng != 0.0 && |routes| > 0 {
      var r := routes[0];
      if r.points > 0 {
        var plannedKm := r.distance / 1000.0;
        if plannedKm > 0.0 && data.actualKm < plannedKm * 0.95 {
          var ratio := data.actualKm / plannedKm;
          if ratio < 0.1 {
            ratio := 0.1;
          }
          amount := Trunc(quote as real * ratio);
        }
      }
    }
  }

  /** The share of the planned distance that is charged: at least a tenth, and all of it from 95 percent on. */
  function ChargedShare(actualKm: real, plannedKm: real): real
    requires plannedKm > 0.0
  {
    if actualKm >= plannedKm * 0.95 then 1.0
    else if actualKm / plannedKm < 0.1 then 0.1
    else actualKm / plannedKm
  }

  function Billed(quote: int, data: Completed, routes: seq<Route>): int {
    if Comparable(data, routes) then Trunc(quote as real * ChargedShare(data.actualKm, routes[0].distance / 1000.0))
        else quote
  }

  lemma ProductOrder(q: real, x: real, y: real)
    requires q >= 0.0 && x <= y
    ensures q * x <= q * y
  {
    assert q * (y - x) >= 0.0;
    assert q * (y - x) == q * y - q * x;
  }

  lemma FactorOrder(p: real, x: real, y: real)
    requires p > 0.0 && p * x <= p * y
    ensures x <= y
  {
    assert p * (y - x) == p * y - p * x;
    assert x > y ==> p * (y - x) < 0.0;
  }

  lemma QuotientOrder(a: real, b: real, p: real)
    requires p > 0.0 && a <= b
    ensures a / p <= b / p
  {
    assert p * (a / p) == a && p * (b / p) == b;
    FactorOrder(p, a / p, b / p);
  }

  lemma ShareBounds(actualKm: real, plannedKm: real)
    requires plannedKm > 0.0
    ensures 0.1 <= ChargedShare(actualKm, plannedKm) <= 1.0
  {
    if actualKm < plannedKm * 0.95 {
      QuotientOrder(actualKm, plannedKm, plannedKm);
    }
  }

  lemma TruncBetween(lo: nat, x: real, hi: nat)
    requires lo as real <= x <= hi as real
    ensures lo <= Trunc(x) <= hi
  {
  }

  lemma TruncOrder(x: real, y: real)
    requires 0.0 <= x <= y
    ensures Trunc(x) <= Trunc(y)
  {
  }

  lemma TenthBelow(quote: nat)
    ensures (quote / 10) as real <= quote as real * 0.1
  {
    var tenth := quote / 10;
    assert (tenth * 10) as real == tenth as real * 10.0;
  }

  lemma ShareOfQuote(quote: nat, share: real)
    requires 0.1 <= share <= 1.0
    ensures (quote / 10) as real <= quote as real * share <= quote as real
  {
    TenthBelow(quote);
    ProductOrder(quote as real, 0.1, share);
    ProductOrder(quote as real, share, 1.0);
  }

  /** The rider pays at most the quote and at least a tenth of it, rounded down. */
  lemma BilledBetweenTenthAndQuote(quote: nat, data: Completed, routes: seq<Route>)
    ensures quote / 10 <= Billed(quote, data, routes) <= quote
  {
    if Comparable(data, routes) {
      var plannedKm := routes[0].distance / 1000.0;
      var share := ChargedShare(data.actualKm, plannedKm);
      ShareBounds(data.actualKm, plannedKm);
      ShareOfQuote(quote, share);
      TruncBetween(quote / 10, quote as real * share, quote);
    }
  }

  lemma ShareMonotone(km1: real, km2: real, plannedKm: real)
    requires plannedKm > 0.0 && km1 <= km2
    ensures ChargedShare(km1, plannedKm) <= ChargedShare(km2, plannedKm)
  {
    ShareBounds(km1, plannedKm);
    ShareBounds(km2, plannedKm);
    QuotientOrder(km1, km2, plannedKm);
  }

  lemma BillOrder(quote: nat, share1: real, share2: real)
    requires 0.0 <= share1 <= share2
    ensures Trunc(quote as real * share1) <= Trunc(quote as real * share2)
  {
    ProductOrder(quote as real, 0.0, share1);
    ProductOrder(quote as real, share1, share2);
    TruncOrder(quote as real * share1, quote as real * share2);
  }

  lemma BilledFromShare(quote: nat, data: Completed, routes: seq<Route>) returns (share: real, bill: int)
    requires Comparable(data, routes)
    ensures share == ChargedShare(data.actualKm, routes[0].distance / 1000.0) && share >= 0.1
    ensures bill == Billed(quote, data, routes) == Trunc(quote as real * share)
  {
    share := ChargedShare(data.actualKm, routes[0].distance / 1000.0);
    bill := Billed(quote, data, routes);
    ShareBounds(data.actualKm, routes[0].distance / 1000.0);
  }

  /** Driving further never lowers the bill, also across the 10 and 95 percent thresholds. */
  lemma BilledMonotoneInDistance(quote: nat, d1: Completed, d2: Completed, routes: seq<Route>)
    requires d1.actualKm <= d2.actualKm && Comparable(d1, routes) && Comparable(d2, routes)
    ensures Billed(quote, d1, routes) <= Billed(quote, d2, routes)
  {
    var share1, bill1 := BilledFromShare(quote, d1, routes);
    var share2, bill2 := BilledFromShare(quote, d2, routes);
    assert share1 <= share2 by {
      ShareMonotone(d1.actualKm, d2.actualKm, routes[0].distance / 1000.0);
    }
    assert bill1 <= bill2 by {
      BillOrder(quote, share1, share2);
    }
  }

  lemma SignOfProduct(p: real, x: real)
    requires p > 0.0
    ensures p * x >= 0.0 <==> x >= 0.0
  {
  }

  lemma RatioAboveTenth(ratio: real, km: real, plannedKm: real)
    requires plannedKm > 0.0 && ratio * plannedKm == km
    ensures ratio < 0.1 <==> 10.0 * km < plannedKm
  {
    SignOfProduct(plannedKm, ratio - 0.1);
    assert plannedKm * (ratio - 0.1) == ratio * plannedKm - 0.1 * plannedKm;
  }

  /** The quotient as a number of its own, known only by its product. */
  lemma Ratio(km: real, plannedKm: real) returns (ratio: real)
    requires plannedKm > 0.0
    ensures ratio == km / plannedKm && ratio * plannedKm == km && (ratio < 0.1 <==> 10.0 * km < plannedKm)
  {
    ratio := km / plannedKm;
    RatioAboveTenth(ratio, km, plannedKm);
  }

  lemma FullBill(quote: nat)
    ensures Trunc(quote as real * 1.0) == quote
  {
  }

  lemma TenthBill(quote: nat)
    ensures 10 * Trunc(quote as real * 0.1) <= quote < 10 * Trunc(quote as real * 0.1) + 10
  {
    var bill := Trunc(quote as real * 0.1);
    TenTimes(bill, quote);
    TenTimes(bill + 1, quote);
  }

  lemma TenTimes(n: int, quote: int)
    ensures n as real <= quote as real * 0.1 <==> 10 * n <= quote
  {
    var ten := n * 10;
    assert ten as real == n as real * 10.0;
  }

  lemma PartBill(quote: nat, share: real, km: real, plannedKm: real)
    requires plannedKm > 0.0 && share >= 0.0 && share * plannedKm == km
    ensures PartOfQuote(Trunc(quote as real * share), quote, km, plannedKm)
  {
    var x := quote as real * share;
    ProductOrder(quote as real, 0.0, share);
    var lower, upper := Trunc(x) as real, (Trunc(x) + 1) as real;
    assert x * plannedKm == quote as real * (share * plannedKm);
    SignOfProduct(plannedKm, x - lower);
    SignOfProduct(plannedKm, x - upper);
    assert plannedKm * (x - lower) == x * plannedKm - lower * plannedKm;
    assert plannedKm * (x - upper) == x * plannedKm - upper * plannedKm;
  }

  /** The end point or the plan is unknown. */
  predicate NoComparison(data: Completed, routes: seq<Route>) {
    data.actualLat == 0.0 || data.actualLng == 0.0 || routes == [] || routes[0].points == 0 || routes[0].distance <= 0.0
  }

  /** The bill for a share of the quote that is known by its product with the plan. */
  ghost predicate PartOfQuote(bill: int, quote: nat, km: real, plannedKm: real) {
    bill as real * plannedKm <= quote as real * km < (bill + 1) as real * plannedKm
  }

  /** What the charged share is, and what it makes of the plan. */
  lemma ShareFacts(km: real, plannedKm: real) returns (share: real)
    requires plannedKm > 0.0
    ensures share == ChargedShare(km, plannedKm)
    ensures if 100.0 * km >= 95.0 * plannedKm then share == 1.0
            else if 10.0 * km >= plannedKm then share >= 0.1 && share * plannedKm == km
            else share == 0.1
  {
    var ratio := Ratio(km, plannedKm);
    share := if km >= plannedKm * 0.95 then 1.0 else if ratio < 0.1 then 0.1 else ratio;
    ShareIs(km, plannedKm, ratio);
  }

  lemma ShareIs(km: real, plannedKm: real, ratio: real)
    requires plannedKm > 0.0 && ratio == km / plannedKm
    ensures ChargedShare(km, plannedKm) ==
              if km >= plannedKm * 0.95 then 1.0 else if ratio < 0.1 then 0.1 else ratio
  {
  }

  /** The bill, without a division: the quote when there is nothing to compare and from 95 percent of the planned
      distance on; from a tenth on the driven part of the quote, rounded down; below that a tenth of it, rounded
      down. */
  lemma BilledByDistance(quote: nat, data: Completed, routes: seq<Route>)
    ensures NoComparison(data, routes) ==> Billed(quote, data, routes) == quote
    ensures !NoComparison(data, routes) ==>
              var km, plannedKm, bill := data.actualKm, routes[0].distance / 1000.0, Billed(quote, data, routes);
              if 100.0 * km >= 95.0 * plannedKm then bill == quote
              else if 10.0 * km >= plannedKm then PartOfQuote(bill, quote, km, plannedKm)
              else 10 * bill <= quote < 10 * bill + 10
  {
    if !NoComparison(data, routes) {
      var km, plannedKm := data.actualKm, routes[0].distance / 1000.0;
      var share := ShareFacts(km, plannedKm);
      assert Billed(quote, data, routes) == Trunc(quote as real * share);
      if share * plannedKm == km && share >= 0.1 { PartBill(quote, share, km, plannedKm); }
      FullBill(quote);
      TenthBill(quote);
    }
  }

  // ---------------------------------------------------------------- fee and payout

  const PLATFORM_FEE_PERCENT := 20

  datatype Payment = Payment(tripId: string, sessionId: string, amountCents: int, success: bool, paidAt: int,
      feeCents: int, payoutCents: int)

  function Fee(amount: int): int {
    TruncDiv(amount * PLATFORM_FEE_PERCENT, 100)
  }

  function Payout(amount: int): int {
    TruncDiv(amount * (100 - PLATFORM_FEE_PERCENT), 100)
  }

  /** Nothing is paid out twice: the two shares miss at most one cent, and miss none exactly when 5 divides the
      amount. */
  lemma FeeAndPayout(amount: nat)
    ensures Fee(amount) + Payout(amount) == if amount % 5 == 0 then amount else amount - 1
    ensures 5 * Fee(amount) <= amount < 5 * Fee(amount) + 5
    ensures 0 <= Fee(amount) <= Payout(amount) <= amount
  {
    var q, r := amount / 5, amount % 5;
    assert amount == 5 * q + r;
    assert amount * 20 / 100 == q;
    assert amount * 80 / 100 == 4 * q + (4 * r) / 5;
  }

  /** A settled payment carries the shares of its own amount. */
  predicate Settled(p: Payment) {
    p.success ==> p.feeCents == Fee(p.amountCents) && p.payoutCents == Payout(p.amountCents)
  }

  function Settle(p: Payment, sessionId: string, paidAt: int): Payment {
    if p.sessionId == sessionId
    then p.(success := true, paidAt := paidAt, feeCents := Fee(p.amountCents), payoutCents := Payout(p.amountCents))
    else p
  }

  function SettleAll(rows: seq<Payment>, sessionId: string, paidAt: int): (r: seq<Payment>)
    ensures |r| == |rows| && forall i | 0 <= i < |rows| :: r[i] == Settle(rows[i], sessionId, paidAt)
  {
    seq(|rows|, i requires 0 <= i < |rows| => Settle(rows[i], sessionId, paidAt))
  }

  /** A repeated success event changes nothing but the time of payment, and never the money. */
  lemma SettleTwice(rows: seq<Payment>, sessionId: string, t1: int, t2: int)
    ensures SettleAll(SettleAll(rows, sessionId, t1), sessionId, t2) == SettleAll(rows, sessionId, t2)
    ensures forall i | 0 <= i < |rows| && Settled(rows[i]) && rows[i].success ::
              var r := SettleAll(rows, sessionId, t1)[i];
              r.feeCents == rows[i].feeCents && r.payoutCents == rows[i].payoutCents && r.success
  {
  }

  /** A saved payment, once its session succeeds, is settled with the two shares of its own amount; until then, and by
      the success of any other session, it is not touched, and neither is a row of another session. */
  lemma SavedThenSettled(rows: seq<Payment>, p: Payment, sessionId: string, paidAt: int)
    requires p.amountCents >= 0
    ensures var r := SettleAll(rows + [p], sessionId, paidAt);
            var row := r[|rows|];
            && (if sessionId == p.sessionId then
                  && row.success && row.paidAt == paidAt && Settled(row)
                  && row.amountCents == p.amountCents && 5 * row.feeCents <= p.amountCents < 5 * row.feeCents + 5
                  && row.feeCents + row.payoutCents
                      == (if p.amountCents % 5 == 0 then p.amountCents else p.amountCents - 1)
                else row == p)
            && forall i | 0 <= i < |rows| && rows[i].sessionId != sessionId :: r[i] == rows[i]
  {
    FeeAndPayout(p.amountCents);
  }

  class PaymentStore {
    var rows: seq<Payment>

    constructor ()
      ensures rows == []
    {
      rows := [];
    }

    method Save(p: Payment)
      modifies this
      ensures rows == old(rows) + [p]
    {
      rows := rows + [p];
    }

    method MarkSuccess(sessionId: string, paidAt: int)
      modifies this
      ensures rows == SettleAll(old(rows), sessionId, paidAt)
      ensures forall i | 0 <= i < |rows| && rows[i].sessionId == sessionId ::
            rows[i].success
            && rows[i].paidAt == paidAt && Settled(rows[i])
      ensures forall i | 0 <= i < |rows| && Settled(old(rows)[i]) :: Settled(rows[i])
    {
      var i := 0;
      while i < |rows|
        invariant 0 <= i <= |rows| == |old(rows)|
        invariant forall k | 0 <= k < i :: rows[k] == Settle(old(rows)[k], sessionId, paidAt)
        invariant forall k | i <= k < |rows| :: rows[k] == old(rows)[k]
      {
        if rows[i].sessionId == sessionId {
          var amount := rows[i].amountCents;
          rows := rows[i := rows[i].(success := true, paidAt := paidAt,
                                     feeCents := TruncDiv(amount * PLATFORM_FEE_PERCENT, 100),
                                     payoutCents := TruncDiv(amount * (100 - PLATFORM_FEE_PERCENT), 100))];
        }
        i := i + 1;
      }
    }
  }
}
