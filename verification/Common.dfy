/** What several parts of the server share: session keys, optional values, and one fact on sets. */
module Common {
  import opened Bytes

  datatype Option<T> = None | Some(value: T)

  /** The identity of one protocol session. */
  datatype Key = Key(authKey: Uint64, session: Int64)

  lemma {:induction false} SubsetCard<T>(a: set<T>, b: set<T>)
    requires a <= b
    ensures |a| <= |b|
  {
    if a != {} {
      var x :| x in a;
      SubsetCard(a - {x}, b - {x});
    }
  }
}
