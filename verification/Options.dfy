/** The optional values shared by the other modules (`null` and `None` in the sources). */
module Options {
  datatype Option<+T> = None | Some(value: T)

  /** The last value there is, or `first` if there is none. */
  function Latest<T>(first: T, vs: seq<Option<T>>): T {
    if vs == [] then first
    else if vs[|vs| - 1].Some? then vs[|vs| - 1].value
    else Latest(first, vs[..|vs| - 1])
  }

  lemma {:induction false} LatestIs<T>(first: T, vs: seq<Option<T>>)
    ensures forall i :: 0 <= i < |vs| && vs[i].Some? && (forall j :: i < j < |vs| ==> vs[j] == None) ==>
      Latest(first, vs) == vs[i].value
    ensures (forall j :: 0 <= j < |vs| ==> vs[j] == None) ==> Latest(first, vs) == first
  {
    if vs != [] && vs[|vs| - 1] == None {
      LatestIs(first, vs[..|vs| - 1]);
    }
  }

  lemma LatestAppend<T>(first: T, vs: seq<Option<T>>, v: Option<T>)
    ensures Latest(first, vs + [v]) == if v.Some? then v.value else Latest(first, vs)
  {
    assert (vs + [v])[..|vs|] == vs;
  }
}
