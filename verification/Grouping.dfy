/**
 Group-by aggregation, which the two benchmarks share, and the aggregates of the scoring benchmark
 (benchmarks/scoring-quality/run.py): rule precision and recall, and the break-down by question type.
 The break-down is before rounding; the rule metrics are as reported.
 */
module Grouping {
  import opened Fractions
  import opened Integers
  import opened Lists
  import opened Rounding

  // ---------- Groups of a list ----------

  function Group<T>(es: seq<T>, key: T -> string, k: string): seq<T> {
    if es == [] then [] else
    var init := Group(es[..|es| - 1], key, k);
    if key(es[|es| - 1]) == k then init + [es[|es| - 1]] else init
  }

  function Total<T>(es: seq<T>, weight: T -> real): real {
    if es == [] then 0.0 else Total(es[..|es| - 1], weight) + weight(es[|es| - 1])
  }

  function TotalOfGroups<T>(es: seq<T>, key: T -> string, ks: seq<string>, weight: T -> real): real {
    if ks == [] then 0.0
    else TotalOfGroups(es, key, ks[..|ks| - 1], weight) + Total(Group(es, key, ks[|ks| - 1]), weight)
  }

  predicate Distinct(ks: seq<string>) {
    forall i, j :: 0 <= i < j < |ks| ==> ks[i] != ks[j]
  }

  lemma {:induction false} TotalAppend<T>(es: seq<T>, e: T, weight: T -> real)
    ensures Total(es + [e], weight) == Total(es, weight) + weight(e)
  {
    assert (es + [e])[..|es|] == es;
  }

  lemma {:induction false} LastJoinsItsGroup<T>(es: seq<T>, key: T -> string, ks: seq<string>, weight: T -> real)
    requires es != [] && Distinct(ks)
    ensures TotalOfGroups(es, key, ks, weight) == TotalOfGroups(es[..|es| - 1], key, ks, weight) +
      if key(es[|es| - 1]) in ks then weight(es[|es| - 1]) else 0.0
  {
    if ks != [] {
      var init, e, k := es[..|es| - 1], es[|es| - 1], ks[|ks| - 1];
      LastJoinsItsGroup(es, key, ks[..|ks| - 1], weight);
      TotalAppend(Group(init, key, k), e, weight);
      assert ks == ks[..|ks| - 1] + [k];
      assert key(e) == k ==> key(e) !in ks[..|ks| - 1];
    }
  }

  /** Whatever is added up, the groups add up to the whole, if their keys are distinct and cover it. */
  lemma {:induction false} GroupsPartition<T>(es: seq<T>, key: T -> string, ks: seq<string>, weight: T -> real)
    requires Distinct(ks) && forall i :: 0 <= i < |es| ==> key(es[i]) in ks
    ensures TotalOfGroups(es, key, ks, weight) == Total(es, weight)
  {
    if es == [] {
      EmptyGroups(key, ks, weight);
    } else {
      LastJoinsItsGroup(es, key, ks, weight);
      GroupsPartition(es[..|es| - 1], key, ks, weight);
    }
  }

  lemma {:induction false} EmptyGroups<T>(key: T -> string, ks: seq<string>, weight: T -> real)
    ensures TotalOfGroups([], key, ks, weight) == 0.0
  {
    if ks != [] {
      EmptyGroups(key, ks[..|ks| - 1], weight);
    }
  }

  /** Adds up a metric over the values of a dictionary, key by key. */
  function OverKeys<V>(keys: seq<string>, table: map<string, V>, metric: V --> real): real
    requires forall i :: 0 <= i < |keys| ==> keys[i] in table && metric.requires(table[keys[i]])
  {
    if keys == [] then 0.0
    else OverKeys(keys[..|keys| - 1], table, metric) + metric(table[keys[|keys| - 1]])
  }

  /** A metric that is a total within every group is, over all keys, the total of the whole list. */
  lemma {:induction false} OverKeysIsTotal<T, V>(es: seq<T>, key: T -> string, keys: seq<string>, table: map<string, V>,
                                                 metric: V --> real, weight: T -> real)
    requires forall i :: 0 <= i < |keys| ==> keys[i] in table && metric.requires(table[keys[i]])
    requires forall i :: 0 <= i < |keys| ==> metric(table[keys[i]]) == Total(Group(es, key, keys[i]), weight)
    ensures OverKeys(keys, table, metric) == TotalOfGroups(es, key, keys, weight)
  {
    if keys != [] {
      OverKeysIsTotal(es, key, keys[..|keys| - 1], table, metric, weight);
    }
  }

  function HasKey<T>(key: T -> string, k: string): T -> bool {
    (e: T) => key(e) == k
  }

  /** A group holds exactly the elements with its key, in order. */
  lemma {:induction false} GroupIs<T>(es: seq<T>, key: T -> string, k: string)
    ensures var ps, group := Places(es, HasKey(key, k)), Group(es, key, k);
      |group| == |ps| && forall i :: 0 <= i < |ps| ==> group[i] == es[ps[i]]
  {
    if es != [] {
      GroupIs(es[..|es| - 1], key, k);
    }
  }

  lemma GroupAppend<T>(es: seq<T>, key: T -> string, k: string, e: T)
    ensures Group(es + [e], key, k) == if key(e) == k then Group(es, key, k) + [e] else Group(es, key, k)
  {
    assert (es + [e])[..|es + [e]| - 1] == es;
  }

  // ---------- The scoring benchmark ----------

  datatype Entry = Entry(id: string, questionType: string, human: real, model: real, lo: int, hi: int)

  /** What scoring one dataset entry gave: an error is reported but not counted. */
  datatype Outcome = Failed(id: string) | Scored(entry: Entry)

  /** Three of the parallel lists of the benchmark, over all entries or over those of one type. */
  datatype Bucket = Bucket(human: seq<real>, model: seq<real>, ranges: seq<(int, int)>) {
    function Add(e: Entry): Bucket {
      Bucket(human + [e.human], model + [e.model], ranges + [(e.lo, e.hi)])
    }
  }

  function TypeOf(e: Entry): string {
    e.questionType
  }

  function Successes(os: seq<Outcome>): seq<Entry> {
    if os == [] then [] else
    Successes(os[..|os| - 1]) + if os[|os| - 1].Scored? then [os[|os| - 1].entry] else []
  }

  predicate WasScored(o: Outcome) {
    o.Scored?
  }

  /** Exactly the scored entries are kept, in order. */
  lemma {:induction false} SuccessesAre(os: seq<Outcome>)
    ensures var ps, es := Places(os, WasScored), Successes(os);
      |es| == |ps| && forall i :: 0 <= i < |ps| ==> os[ps[i]] == Scored(es[i])
  {
    if os != [] {
      SuccessesAre(os[..|os| - 1]);
    }
  }

  function Columns(es: seq<Entry>): Bucket {
    Bucket(seq(|es|, i requires 0 <= i < |es| => es[i].human),
           seq(|es|, i requires 0 <= i < |es| => es[i].model),
           seq(|es|, i requires 0 <= i < |es| => (es[i].lo, es[i].hi)))
  }

  lemma ColumnsAppend(es: seq<Entry>, e: Entry)
    ensures Columns(es + [e]) == Columns(es).Add(e)
  {
    var all, less := Columns(es + [e]), Columns(es);
    assert all.human == less.human + [e.human];
    assert all.model == less.model + [e.model];
    assert all.ranges == less.ranges + [(e.lo, e.hi)];
  }

  /** The dictionary groups the entries by type, and `order` is its insertion order. */
  ghost predicate GroupedByType(es: seq<Entry>, order: seq<string>, byType: map<string, Bucket>) {
    && Distinct(order) && (forall k :: k in order <==> k in byType)
    && (forall i :: 0 <= i < |es| ==> es[i].questionType in byType)
    && (forall k :: k in byType ==> byType[k] == Columns(Group(es, TypeOf, k)))
    && (forall k :: k !in byType ==> Group(es, TypeOf, k) == [])
  }

  lemma EmptyColumns()
    ensures Columns([]) == Bucket([], [], [])
  {
  }

  /** What one turn of the by-type loop has to do. */
  lemma GroupedAppend(es: seq<Entry>, e: Entry, order: seq<string>, byType: map<string, Bucket>,
                      order': seq<string>, byType': map<string, Bucket>)
    requires GroupedByType(es, order, byType)
    requires order' == if e.questionType in byType then order else order + [e.questionType]
    requires var before := if e.questionType in byType then byType[e.questionType] else Bucket([], [], []);
      byType' == byType[e.questionType := before.Add(e)]
    ensures GroupedByType(es + [e], order', byType')
  {
    hide Group, Columns;
    var k := e.questionType;
    EmptyColumns();
    ColumnsAppend(Group(es, TypeOf, k), e);
    forall q
      ensures Group(es + [e], TypeOf, q) == if k == q then Group(es, TypeOf, q) + [e] else Group(es, TypeOf, q)
    {
      GroupAppend(es, TypeOf, q, e);
    }
  }

  /** The accumulation and by-type loops of run_benchmark. */
  method Accumulate(os: seq<Outcome>) returns (all: Bucket, order: seq<string>, byType: map<string, Bucket>)
    ensures all == Columns(Successes(os))
    ensures GroupedByType(Successes(os), order, byType)
  {
    all, order, byType := Bucket([], [], []), [], map[];
    assert os[..0] == [];
    for i := 0 to |os|
      invariant all == Columns(Successes(os[..i]))
      invariant GroupedByType(Successes(os[..i]), order, byType)
    {
      assert os[..i + 1][..i] == os[..i];
      if os[i].Scored? {
        var e := os[i].entry;
        ColumnsAppend(Successes(os[..i]), e);
        all := all.Add(e);
        ghost var order0, byType0 := order, byType;
        if e.questionType !in byType {
          byType := byType[e.questionType := Bucket([], [], [])];
          order := order + [e.questionType];
        }
        byType := byType[e.questionType := byType[e.questionType].Add(e)];
        GroupedAppend(Successes(os[..i]), e, order0, byType0, order, byType);
      } else {
        assert Successes(os[..i + 1]) == Successes(os[..i]);
      }
    }
    assert os[..|os|] == os;
  }

  // The metrics of a bucket, before they are divided by its size and rounded.

  /** The sum in _mae. */
  function AbsoluteErrors(b: Bucket): real
    requires |b.model| == |b.human|
    decreases |b.model|
  {
    if b.model == [] then 0.0 else
    var n := |b.model| - 1;
    var d := b.model[n] - b.human[n];
    AbsoluteErrors(Bucket(b.human[..n], b.model[..n], [])) + if d >= 0.0 then d else -d
  }

  /** The count in _within_range_pct. */
  function Hits(b: Bucket): real
    requires |b.model| == |b.ranges|
    decreases |b.model|
  {
    if b.model == [] then 0.0 else
    var n := |b.model| - 1;
    var (lo, hi) := b.ranges[n];
    Hits(Bucket([], b.model[..n], b.ranges[..n])) + if lo as real <= b.model[n] <= hi as real then 1.0 else 0.0
  }

  function ErrorOf(e: Entry): real {
    if e.model >= e.human then e.model - e.human else -(e.model - e.human)
  }

  function HitOf(e: Entry): real {
    if e.lo as real <= e.model <= e.hi as real then 1.0 else 0.0
  }

  function CountOf(e: Entry): real {
    1.0
  }

  lemma {:induction false} MetricsOfColumns(es: seq<Entry>)
    ensures var b := Columns(es);
      |b.human| as real == Total(es, CountOf) && AbsoluteErrors(b) == Total(es, ErrorOf) && Hits(b) == Total(es, HitOf)
  {
    if es != [] {
      var n := |es| - 1;
      var b, init := Columns(es), Columns(es[..n]);
      MetricsOfColumns(es[..n]);
      assert b.human[..n] == init.human && b.model[..n] == init.model && b.ranges[..n] == init.ranges;
      AbsoluteErrorsIgnoreRanges(init);
      HitsIgnoreHuman(init);
    }
  }

  lemma {:induction false} AbsoluteErrorsIgnoreRanges(b: Bucket)
    requires |b.model| == |b.human|
    ensures AbsoluteErrors(b) == AbsoluteErrors(Bucket(b.human, b.model, []))
  {
  }

  lemma {:induction false} HitsIgnoreHuman(b: Bucket)
    requires |b.model| == |b.ranges|
    ensures Hits(b) == Hits(Bucket([], b.model, b.ranges))
  {
  }

  function Size(b: Bucket): real {
    |b.human| as real
  }

  /**
   The break-down by type loses and invents nothing: the counts, the absolute errors and the hits of the buckets
   add up to those of all scored entries.
   */
  lemma ByTypeConserves(es: seq<Entry>, order: seq<string>, byType: map<string, Bucket>)
    requires GroupedByType(es, order, byType)
    ensures forall i :: 0 <= i < |order| ==> order[i] in byType
    ensures forall k :: k in byType ==> |byType[k].model| == |byType[k].human| == |byType[k].ranges|
    ensures OverKeys(order, byType, Size) == |es| as real
    ensures OverKeys(order, byType, AbsoluteErrors) == AbsoluteErrors(Columns(es))
    ensures OverKeys(order, byType, Hits) == Hits(Columns(es))
  {
    hide Group, AbsoluteErrors, Hits, Total;
    forall i | 0 <= i < |order|
      ensures order[i] in byType
      ensures Size(byType[order[i]]) == Total(Group(es, TypeOf, order[i]), CountOf)
      ensures AbsoluteErrors(byType[order[i]]) == Total(Group(es, TypeOf, order[i]), ErrorOf)
      ensures Hits(byType[order[i]]) == Total(Group(es, TypeOf, order[i]), HitOf)
    {
      MetricsOfColumns(Group(es, TypeOf, order[i]));
    }
    OverKeysIsTotal(es, TypeOf, order, byType, Size, CountOf);
    OverKeysIsTotal(es, TypeOf, order, byType, AbsoluteErrors, ErrorOf);
    OverKeysIsTotal(es, TypeOf, order, byType, Hits, HitOf);
    GroupsPartition(es, TypeOf, order, CountOf);
    GroupsPartition(es, TypeOf, order, ErrorOf);
    GroupsPartition(es, TypeOf, order, HitOf);
    MetricsOfColumns(es);
  }

  // ---------- Rule precision and recall ----------

  function AsSet(rules: seq<string>): set<string> {
    set r | r in rules
  }

  /** The sizes of the sets of one list of lists, added up over the first n. */
  function SetSizes(lists: seq<seq<string>>, n: nat): nat
    requires n <= |lists|
  {
    if n == 0 then 0 else SetSizes(lists, n - 1) + |AsSet(lists[n - 1])|
  }

  /** The rules that were both triggered and expected, entry by entry. */
  function Agreed(triggered: seq<seq<string>>, expected: seq<seq<string>>, n: nat): nat
    requires n <= |triggered| && n <= |expected|
  {
    if n == 0 then 0
    else
      var t, e := triggered[n - 1], expected[n - 1];
      Agreed(triggered, expected, n - 1) + |set r | r in t && r in e|
  }

  lemma SplitSize(a: set<string>, b: set<string>)
    ensures |a * b| + |a - b| == |a|
  {
    assert a == (a * b) + (a - b);
  }

  lemma EmptyDifferenceIff(a: set<string>, b: set<string>)
    ensures |a - b| == 0 <==> a <= b
  {
    if a - b == {} {
      assert forall x :: x in a ==> x in b || x in a - b;
    } else {
      var x :| x in a - b;
      assert x in a && x !in b;
    }
  }

  /** hits / (hits + misses), and 1 when there is nothing to divide by. */
  function Share(hits: nat, misses: nat): (r: real)
    ensures 0.0 <= r <= 1.0 && (r == 1.0 <==> misses == 0) && r * (hits + misses) as real == hits as real
  {
    var all := (hits + misses) as real;
    if all > 0.0 then
      PartOfWhole(hits as real, all);
      hits as real / all
    else 1.0
  }

  /** A share as it is reported, to three digits: 1 exactly when at most one in two thousand was missed. */
  function ReportedShare(hits: nat, misses: nat): (r: real)
    ensures 0.0 <= r <= 1.0 && (r == 1.0 <==> 2000 * misses <= hits + misses)
    ensures NearShare(hits, hits + misses, r)
  {
    RoundedShare(Share(hits, misses));
    ShareIsRoundedUpIff(hits, misses);
    ShareIsNear(hits, misses);
    Round3(Share(hits, misses))
  }

  /** `r` is the share of `hits` in `all` up to half a thousandth. */
  predicate NearShare(hits: nat, all: nat, r: real) {
    hits as real - 0.0005 * all as real <= r * all as real <= hits as real + 0.0005 * all as real
  }

  lemma RoundedShare(q: real)
    requires 0.0 <= q <= 1.0
    ensures 0.0 <= Round3(q) <= 1.0
  {
    RoundIsMonotone(0.0, q * 1000.0);
    RoundIsMonotone(q * 1000.0, 1000.0);
  }

  lemma ShareIsRoundedUpIff(hits: nat, misses: nat)
    ensures Round3(Share(hits, misses)) == 1.0 <==> 2000 * misses <= hits + misses
  {
    var q := Share(hits, misses);
    hide Round3, Share;
    Round3IsOneIff(q);
    Threshold(q, (hits + misses) as real, misses as real);
    assert 2000.0 * misses as real <= (hits + misses) as real <==> 2000 * misses <= hits + misses;
  }

  lemma ShareIsNear(hits: nat, misses: nat)
    ensures NearShare(hits, hits + misses, Round3(Share(hits, misses)))
  {
    var q := Share(hits, misses);
    hide Round3, Share;
    Round3IsNear(q);
    NearProduct(q, Round3(q), hits as real, (hits + misses) as real);
  }

  lemma NearProduct(q: real, r: real, h: real, all: real)
    requires q - 0.0005 <= r <= q + 0.0005 && q * all == h && all >= 0.0
    ensures h - 0.0005 * all <= r * all <= h + 0.0005 * all
  {
    var d := r - q;
    assert r * all == h + d * all;
    Scaled(d, all);
    Scaled(-d, all);
  }

  lemma Scaled(d: real, w: real)
    requires d <= 0.0005 && w >= 0.0
    ensures d * w <= 0.0005 * w
  {
    var gap := 0.0005 - d;
    assert gap * w >= 0.0;
  }

  lemma Threshold(q: real, all: real, misses: real)
    requires all >= 0.0 && q * all == all - misses && (q == 1.0 <==> misses == 0.0) && (all == 0.0 ==> misses == 0.0)
    ensures q >= 0.9995 <==> 2000.0 * misses <= all
  {
    if all > 0.0 {
      var d := q - 0.9995;
      assert d * all == 0.0005 * all - misses;
      if d > 0.0 {
        Positive(d, all, d * all);
      } else if d < 0.0 {
        Positive(-d, all, -(d * all));
      }
    }
  }

  /** How the sets of one entry split: what they share, and what either has beyond that. */
  lemma SplitEntry(t: set<string>, e: set<string>)
    ensures |t * e| + |t - e| == |t| && |t * e| + |e - t| == |e|
    ensures (|t - e| == 0 <==> t <= e) && (|e - t| == 0 <==> e <= t)
  {
    SplitSize(t, e);
    SplitSize(e, t);
    assert t * e == e * t;
    EmptyDifferenceIff(t, e);
    EmptyDifferenceIff(e, t);
  }

  lemma BothIs(a: seq<string>, b: seq<string>)
    ensures (set r | r in a && r in b) == AsSet(a) * AsSet(b)
  {
  }

  predicate Covers(whole: seq<seq<string>>, bs: seq<seq<string>>, n: nat)
    requires n <= |whole| && n <= |bs|
  {
    forall i :: 0 <= i < n ==> AsSet(bs[i]) <= AsSet(whole[i])
  }

  /**
   _rule_metrics: the hits and misses account for every triggered and every expected rule. The reported precision is 1
   exactly when at most one triggered rule in two thousand was not expected; with fewer rules than that, exactly when all
   were expected. Likewise for the recall.
   */
  method RuleMetrics(triggered: seq<seq<string>>, expected: seq<seq<string>>)
    returns (tp: nat, fp: nat, fn: nat, precision: real, recall: real)
    ensures var n := Min(|triggered|, |expected|);
      && tp == Agreed(triggered, expected, n)
      && tp + fp == SetSizes(triggered, n) && tp + fn == SetSizes(expected, n)
      && (fp == 0 <==> Covers(expected, triggered, n)) && (fn == 0 <==> Covers(triggered, expected, n))
      && (precision == 1.0 <==> 2000 * fp <= tp + fp) && (recall == 1.0 <==> 2000 * fn <= tp + fn)
      && (tp + fp < 2000 ==> (precision == 1.0 <==> Covers(expected, triggered, n)))
      && (tp + fn < 2000 ==> (recall == 1.0 <==> Covers(triggered, expected, n)))
    ensures 0.0 <= precision <= 1.0 && 0.0 <= recall <= 1.0
    ensures NearShare(tp, tp + fp, precision) && NearShare(tp, tp + fn, recall)
  {
    hide AsSet, ReportedShare, NearShare;
    tp, fp, fn := 0, 0, 0;
    var n := Min(|triggered|, |expected|);
    for i := 0 to n
      invariant tp == Agreed(triggered, expected, i)
      invariant tp + fp == SetSizes(triggered, i) && tp + fn == SetSizes(expected, i)
      invariant fp == 0 <==> Covers(expected, triggered, i)
      invariant fn == 0 <==> Covers(triggered, expected, i)
    {
      var t, e := AsSet(triggered[i]), AsSet(expected[i]);
      SplitEntry(t, e);
      BothIs(triggered[i], expected[i]);
      tp := tp + |t * e|;
      fp := fp + |t - e|;
      fn := fn + |e - t|;
    }
    precision := ReportedShare(tp, fp);
    recall := ReportedShare(tp, fn);
  }
}
