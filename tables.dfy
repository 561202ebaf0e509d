/**
 * Vocabulary for the memoised variable tables of `Party` and `Wing`: dicts
 * from a key to a solver variable. A dict of dicts (`d[k][m]`) is modelled
 * by the dict it amounts to, keyed by the pair `(k, m)`: the accessors only
 * create an inner dict together with its first entry.
 */
module Tables {

  /** `after` keeps every entry of `before`, with the same value. */
  ghost predicate Extends<K, V>(before: map<K, V>, after: map<K, V>) {
    forall k :: k in before ==> k in after && after[k] == before[k]
  }
}
