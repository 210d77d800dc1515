/** The option type and a few facts about sequences that several modules share. */
module Common {

  datatype Option<+T> = None | Some(value: T)

  predicate StartsWith(s: string, prefix: string) {
    prefix <= s
  }

  /** Regrouping a concatenation; an empty front adds nothing. */
  lemma Assoc<T>(a: seq<T>, b: seq<T>, c: seq<T>)
    ensures a + (b + c) == (a + b) + c
    ensures a == [] ==> a + b == b
  {
  }
}
