/** Selecting from a list, which several of the sources do with a filter. */
module Lists {
  /** The places of the elements that are kept, in order. */
  function Places<T>(s: seq<T>, keep: T -> bool): (ps: seq<nat>)
    ensures forall k :: 0 <= k < |ps| ==> ps[k] < |s| && keep(s[ps[k]])
    ensures forall j, k :: 0 <= j < k < |ps| ==> ps[j] < ps[k]
    ensures forall i: nat :: i < |s| && keep(s[i]) ==> i in ps
  {
    if s == [] then [] else
    var n := |s| - 1;
    var ps := Places(s[..n], keep);
    assert forall k :: 0 <= k < |ps| ==> s[..n][ps[k]] == s[ps[k]];
    assert forall i: nat :: i < n && keep(s[i]) ==> s[..n][i] == s[i] && i in ps;
    ps + if keep(s[n]) then [n] else []
  }

  lemma {:induction false} PlacesAgree<T>(s: seq<T>, f: T -> bool, g: T -> bool)
    requires forall i :: 0 <= i < |s| ==> f(s[i]) == g(s[i])
    ensures Places(s, f) == Places(s, g)
  {
    if s != [] {
      PlacesAgree(s[..|s| - 1], f, g);
    }
  }
}
