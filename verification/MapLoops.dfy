/** Loops over a map's keys in an arbitrary order: what has been rebuilt so far. */
module MapLoops {

  /** The part of the map whose keys are not among `rest`. */
  function Outside<V>(whole: map<string, V>, rest: set<string>): map<string, V> {
    map k | k in whole && k !in rest :: whole[k]
  }

  lemma {:induction false} OutsideAll<V>(whole: map<string, V>)
    ensures Outside(whole, whole.Keys) == map[]
  {
  }

  lemma {:induction false} OutsideNone<V>(whole: map<string, V>)
    ensures Outside(whole, {}) == whole
  {
  }

  lemma {:induction false} OutsideStep<V>(whole: map<string, V>, rest: set<string>, k: string, v: V)
    requires k in rest && k in whole && v == whole[k]
    ensures Outside(whole, rest - {k}) == Outside(whole, rest)[k := v]
  {
  }

  /** The map that sends each key to what `f` says. */
  function Table<V>(keys: set<string>, f: string -> V): map<string, V> {
    map k | k in keys :: f(k)
  }

  /** When `f` changes at one key only, so does the table. */
  lemma {:induction false} TableStep<V>(keys: set<string>, f: string -> V, f': string -> V, k: string)
    requires forall l :: l != k ==> f'(l) == f(l)
    ensures Table(keys + {k}, f') == Table(keys, f)[k := f'(k)]
    ensures f'(k) == f(k) ==> Table(keys, f') == Table(keys, f)
  {
  }
}
