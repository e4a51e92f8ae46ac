/**
 The latency percentiles of the mock voice pipeline (benchmarks/voice-latency/mock_pipeline.py) over exact reals.
 The sampled latencies are inputs; the rejection sampler that draws them only supplies their ranges.
 */
module Percentile {
  import opened Options
  import opened Rounding

  // ---------- Sorting ----------

  predicate Sorted(s: seq<real>) {
    forall i, j :: 0 <= i < j < |s| ==> s[i] <= s[j]
  }

  function Insert(x: real, s: seq<real>): (r: seq<real>)
    ensures |r| == |s| + 1 && multiset(r) == multiset{x} + multiset(s)
  {
    if s == [] || x <= s[0] then [x] + s
    else
      assert s == [s[0]] + s[1..];
      [s[0]] + Insert(x, s[1..])
  }

  /** Python's `sorted`; the lemmas use only that the result is a sorted permutation. */
  function Sort(s: seq<real>): (r: seq<real>)
    ensures |r| == |s| && multiset(r) == multiset(s)
  {
    if s == [] then []
    else
      assert s == [s[0]] + s[1..];
      Insert(s[0], Sort(s[1..]))
  }

  lemma {:induction false} InsertIsSorted(x: real, s: seq<real>)
    requires Sorted(s)
    ensures Sorted(Insert(x, s))
  {
    if s != [] && x > s[0] {
      InsertIsSorted(x, s[1..]);
      var r := Insert(x, s[1..]);
      forall i | 0 <= i < |r|
        ensures s[0] <= r[i]
      {
        assert r[i] in multiset(r);
        assert r[i] == x || r[i] in multiset(s[1..]);
      }
    }
  }

  lemma {:induction false} SortIsSorted(s: seq<real>)
    ensures Sorted(Sort(s))
  {
    if s != [] {
      SortIsSorted(s[1..]);
      InsertIsSorted(s[0], Sort(s[1..]));
    }
  }

  // ---------- The code ----------

  /** The index of the selected sample; `int(len * p / 100)`, clamped to the last one. */
  function Index(n: nat, p: nat): (i: nat)
    requires n > 0
    ensures i < n
  {
    var idx := n * p / 100;
    if idx <= n - 1 then idx else n - 1
  }

  /** The selected sample before rounding. */
  function Selected(values: seq<real>, p: nat): real
    requires values != []
  {
    Sort(values)[Index(|values|, p)]
  }

  /** `percentile`; the source raises IndexError on an empty list. */
  function Percentile(values: seq<real>, p: nat): Option<int> {
    if values == [] then None else Some(Round(Selected(values, p)))
  }

  // ---------- Order statistics ----------

  function CountAtMost(s: seq<real>, v: real): nat {
    if s == [] then 0 else (if s[0] <= v then 1 else 0) + CountAtMost(s[1..], v)
  }

  function CountBelow(s: seq<real>, v: real): nat {
    if s == [] then 0 else (if s[0] < v then 1 else 0) + CountBelow(s[1..], v)
  }

  lemma {:induction false} CountInsert(x: real, s: seq<real>, v: real)
    ensures CountAtMost(Insert(x, s), v) == CountAtMost([x] + s, v)
    ensures CountBelow(Insert(x, s), v) == CountBelow([x] + s, v)
  {
    assert ([x] + s)[1..] == s;
    if s != [] && x > s[0] {
      CountInsert(x, s[1..], v);
      assert ([x] + s[1..])[1..] == s[1..];
    }
  }

  lemma {:induction false} CountSort(s: seq<real>, v: real)
    ensures CountAtMost(Sort(s), v) == CountAtMost(s, v)
    ensures CountBelow(Sort(s), v) == CountBelow(s, v)
  {
    if s != [] {
      CountSort(s[1..], v);
      CountInsert(s[0], Sort(s[1..]), v);
      assert ([s[0]] + Sort(s[1..]))[1..] == Sort(s[1..]);
    }
  }

  /** In a sorted list the elements at most `v` come first. */
  lemma {:induction false} CountSorted(s: seq<real>, v: real, k: nat)
    requires Sorted(s) && k < |s|
    ensures s[k] <= v <==> CountAtMost(s, v) > k
    ensures s[k] < v <==> CountBelow(s, v) > k
  {
    if k == 0 {
      if s[0] > v {
        NoneCounted(s, v);
      }
      if s[0] >= v {
        NoneBelow(s, v);
      }
    } else {
      CountSorted(s[1..], v, k - 1);
      assert s[0] <= s[k];
    }
  }

  lemma {:induction false} NoneCounted(s: seq<real>, v: real)
    requires forall i :: 0 <= i < |s| ==> s[i] > v
    ensures CountAtMost(s, v) == 0
  {
    if s != [] {
      NoneCounted(s[1..], v);
    }
  }

  lemma {:induction false} NoneBelow(s: seq<real>, v: real)
    requires forall i :: 0 <= i < |s| ==> s[i] >= v
    ensures CountBelow(s, v) == 0
  {
    if s != [] {
      NoneBelow(s[1..], v);
    }
  }

  /**
   What is selected, said without sorting: the one value with at most `idx` samples below it
   and more than `idx` samples at or below it.
   */
  lemma SelectedIff(values: seq<real>, p: nat, v: real)
    requires values != []
    ensures v == Selected(values, p) <==>
      CountBelow(values, v) <= Index(|values|, p) < CountAtMost(values, v)
  {
    var s, k := Sort(values), Index(|values|, p);
    SortIsSorted(values);
    CountSort(values, v);
    CountSorted(s, v, k);
  }

  /** At most p percent of the samples are below the selected one; more than p percent, or all, are at or below it. */
  lemma IsPercentile(values: seq<real>, p: nat)
    requires values != []
    ensures var v, n := Selected(values, p), |values|;
      && CountBelow(values, v) * 100 <= n * p
      && (CountAtMost(values, v) * 100 > n * p || CountAtMost(values, v) == n)
  {
    SelectedIff(values, p, Selected(values, p));
    CountBounded(values, Selected(values, p));
  }

  lemma {:induction false} CountBounded(s: seq<real>, v: real)
    ensures CountAtMost(s, v) <= |s|
  {
    if s != [] {
      CountBounded(s[1..], v);
    }
  }

  // ---------- Order and permutation ----------

  lemma RemoveOne(s: seq<real>, t: seq<real>, i: nat)
    requires multiset(s) == multiset(t) && s != [] && i < |t| && t[i] == s[0]
    ensures multiset(s[1..]) == multiset(t[..i] + t[i + 1..])
  {
    assert s == [s[0]] + s[1..];
    assert t == t[..i] + ([t[i]] + t[i + 1..]);
    assert multiset(s) == multiset{s[0]} + multiset(s[1..]);
    assert multiset(t) == multiset(t[..i]) + (multiset{t[i]} + multiset(t[i + 1..]));
    assert multiset(s[1..]) == multiset(s) - multiset{s[0]};
  }

  lemma {:induction false} CountPermuted(s: seq<real>, t: seq<real>, v: real)
    requires multiset(s) == multiset(t)
    ensures CountAtMost(s, v) == CountAtMost(t, v)
  {
    if s == [] {
      assert |t| == |multiset(t)|;
    } else {
      assert s[0] in multiset(t);
      var i :| 0 <= i < |t| && t[i] == s[0];
      RemoveOne(s, t, i);
      CountPermuted(s[1..], t[..i] + t[i + 1..], v);
      CountWithout(t, i, v);
    }
  }

  lemma {:induction false} CountWithout(s: seq<real>, i: nat, v: real)
    requires i < |s|
    ensures CountAtMost(s, v) == CountAtMost(s[..i] + s[i + 1..], v) + if s[i] <= v then 1 else 0
  {
    if i == 0 {
      assert s[..0] + s[1..] == s[1..];
    } else {
      CountWithout(s[1..], i - 1, v);
      var rest := s[..i] + s[i + 1..];
      assert rest[1..] == s[1..][..i - 1] + s[1..][i..];
      assert rest[0] == s[0];
    }
  }

  /** A list with no more samples than another at or below its own selected one has the larger selected one. */
  lemma Dominates(s: seq<real>, t: seq<real>, p: nat)
    requires |s| == |t| > 0 && CountAtMost(t, Selected(t, p)) <= CountAtMost(s, Selected(t, p))
    ensures Selected(s, p) <= Selected(t, p)
  {
    var v := Selected(t, p);
    SelectedIff(t, p, v);
    SortIsSorted(s);
    CountSort(s, v);
    CountSorted(Sort(s), v, Index(|s|, p));
  }

  /** The order of the samples makes no difference. */
  lemma PermutationInvariant(s: seq<real>, t: seq<real>, p: nat)
    requires multiset(s) == multiset(t)
    ensures Percentile(s, p) == Percentile(t, p)
  {
    assert |s| == |multiset(s)| == |multiset(t)| == |t|;
    if s != [] {
      CountPermuted(s, t, Selected(t, p));
      CountPermuted(s, t, Selected(s, p));
      Dominates(s, t, p);
      Dominates(t, s, p);
    }
  }

  lemma {:induction false} CountMonotone(s: seq<real>, t: seq<real>, v: real)
    requires |s| == |t| && forall i :: 0 <= i < |s| ==> s[i] <= t[i]
    ensures CountAtMost(t, v) <= CountAtMost(s, v)
  {
    if s != [] {
      CountMonotone(s[1..], t[1..], v);
    }
  }

  /** Samples that are pointwise no larger have a selected sample that is no larger. */
  lemma SelectedMonotone(s: seq<real>, t: seq<real>, p: nat)
    requires |s| == |t| > 0 && forall i :: 0 <= i < |s| ==> s[i] <= t[i]
    ensures Selected(s, p) <= Selected(t, p)
  {
    CountMonotone(s, t, Selected(t, p));
    Dominates(s, t, p);
  }

  /** What is reported is the selected sample to the nearest whole number, of two the even one. */
  lemma ReportedIsNearest(s: seq<real>, p: nat)
    requires s != []
    ensures var v, r := Selected(s, p), Percentile(s, p).value as real;
      && v - 0.5 <= r <= v + 0.5
      && (r == v - 0.5 || r == v + 0.5 ==> Percentile(s, p).value % 2 == 0)
  {
    hide Selected, Round;
    RoundIsNearest(Selected(s, p));
  }

  /** Without samples, and only then, there is none. */
  lemma NoneIff(s: seq<real>, p: nat)
    ensures Percentile(s, p) == None <==> s == []
  {
    hide Selected, Round;
  }

  /** So have they the smaller reported percentile. */
  lemma PercentileMonotone(s: seq<real>, t: seq<real>, p: nat)
    requires |s| == |t| > 0 && forall i :: 0 <= i < |s| ==> s[i] <= t[i]
    ensures Percentile(s, p).value <= Percentile(t, p).value
  {
    hide Selected, Round;
    SelectedMonotone(s, t, p);
    RoundIsMonotone(Selected(s, p), Selected(t, p));
  }

  lemma IndexMonotone(n: nat, p: nat, q: nat)
    requires n > 0 && p <= q
    ensures Index(n, p) <= Index(n, q)
  {
    MultiplyMonotone(n, p, q);
    DivideMonotone(n * p, n * q);
  }

  lemma MultiplyMonotone(n: nat, p: nat, q: nat)
    requires p <= q
    ensures n * p <= n * q
  {
    assert n * (q - p) >= 0;
  }

  lemma DivideMonotone(a: nat, b: nat)
    requires a <= b
    ensures a / 100 <= b / 100
  {
  }

  /** A higher percentile is no smaller. */
  lemma MonotoneInP(values: seq<real>, p: nat, q: nat)
    requires values != [] && p <= q
    ensures Percentile(values, p).value <= Percentile(values, q).value
  {
    hide Index, Round;
    SortIsSorted(values);
    IndexMonotone(|values|, p, q);
    RoundIsMonotone(Selected(values, p), Selected(values, q));
  }

  function Shift(s: seq<real>, d: real): (t: seq<real>)
    ensures |t| == |s|
  {
    seq(|s|, i requires 0 <= i < |s| => s[i] + d)
  }

  lemma {:induction false} CountShift(s: seq<real>, d: real, v: real)
    ensures CountAtMost(Shift(s, d), v + d) == CountAtMost(s, v)
    ensures CountBelow(Shift(s, d), v + d) == CountBelow(s, v)
  {
    if s != [] {
      CountShift(s[1..], d, v);
      assert Shift(s, d)[1..] == Shift(s[1..], d);
    }
  }

  lemma SelectedShift(s: seq<real>, d: real, p: nat)
    requires s != []
    ensures Selected(Shift(s, d), p) == Selected(s, p) + d
  {
    var v := Selected(s, p);
    SelectedIff(s, p, v);
    CountShift(s, d, v);
    SelectedIff(Shift(s, d), p, v + d);
  }

  // ---------- The two pipelines ----------

  /** The three latencies of one turn, in the ranges the sampler enforces. */
  datatype Draw = Draw(stt: real, llmTtft: real, tts: real)

  predicate InRange(d: Draw) {
    80.0 <= d.stt <= 400.0 && 120.0 <= d.llmTtft <= 700.0 && 150.0 <= d.tts <= 750.0
  }

  datatype Turn = Turn(draw: Draw, naive: real, optimized: real)

  /** simulate_turns: the naive sum, and the sum in which synthesis starts at 60% of the model's first token. */
  method SimulateTurns(draws: seq<Draw>) returns (turns: seq<Turn>)
    ensures |turns| == |draws|
    ensures forall i :: 0 <= i < |draws| ==> turns[i].draw == draws[i]
    ensures forall i :: 0 <= i < |draws| ==> turns[i].naive == draws[i].stt + draws[i].llmTtft + draws[i].tts
    ensures forall i :: 0 <= i < |draws| ==> turns[i].naive - turns[i].optimized == draws[i].llmTtft * 0.4
  {
    turns := [];
    for i := 0 to |draws|
      invariant |turns| == i
      invariant forall j :: 0 <= j < i ==> turns[j].draw == draws[j]
      invariant forall j :: 0 <= j < i ==> turns[j].naive == draws[j].stt + draws[j].llmTtft + draws[j].tts
      invariant forall j :: 0 <= j < i ==> turns[j].naive - turns[j].optimized == draws[j].llmTtft * 0.4
    {
      var d := draws[i];
      var naive := d.stt + d.llmTtft + d.tts;
      var firstSentence := d.llmTtft * 0.6;
      var optimized := d.stt + firstSentence + d.tts;
      turns := turns + [Turn(d, naive, optimized)];
    }
  }

  function Naive(turns: seq<Turn>): seq<real> {
    seq(|turns|, i requires 0 <= i < |turns| => turns[i].naive)
  }

  function Optimized(turns: seq<Turn>): seq<real> {
    seq(|turns|, i requires 0 <= i < |turns| => turns[i].optimized)
  }

  /**
   At every percentile the reported naive latency exceeds the optimized one by at least 48 and at most 280 ms:
   the overlap saves 40% of a first-token latency between 120 and 700 ms, and even shifts survive rounding.
   */
  lemma OverlapSaves(turns: seq<Turn>, p: nat)
    requires turns != []
    requires forall i :: 0 <= i < |turns| ==>
      InRange(turns[i].draw) && turns[i].naive - turns[i].optimized == turns[i].draw.llmTtft * 0.4
    ensures var naive, optimized := Percentile(Naive(turns), p).value, Percentile(Optimized(turns), p).value;
      optimized + 48 <= naive <= optimized + 280
  {
    hide Selected, Round;
    var s, t := Optimized(turns), Naive(turns);
    SelectedMonotone(Shift(s, 48.0), t, p);
    SelectedMonotone(t, Shift(s, 280.0), p);
    SelectedShift(s, 48.0, p);
    SelectedShift(s, 280.0, p);
    RoundIsMonotone(Selected(s, p) + 48.0, Selected(t, p));
    RoundIsMonotone(Selected(t, p), Selected(s, p) + 280.0);
    RoundShifts(Selected(s, p), 48);
    RoundShifts(Selected(s, p), 280);
  }
}
