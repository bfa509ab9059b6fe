/** Datatypes and a counting lemma that several parts of the model share. */
module Common {
  datatype Option<T> = None | Some(value: T)

  /** What a publish to the broker did: a lost acknowledgement appends the record but reports an error. */
  datatype PublishOutcome = Acked | Failed | LostAck

  lemma {:induction false} SubsetSize<T>(a: set<T>, b: set<T>)
    requires a <= b
    ensures |a| <= |b|
  {
    assert b == a + (b - a);
  }
}
