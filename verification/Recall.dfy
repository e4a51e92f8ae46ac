/**
 The memory recall benchmark (benchmarks/memory-recall/run.py): scoring an answer, and the summary of all scores by user
 and by category.
 */
module Recall {
  import opened Grouping
  import opened Options
  import opened Rounding
  import opened Strings

  // ---------- Scoring an answer ----------

  /** What Python knows about characters. The theorems hold for any such tables. */
  datatype Chars = Chars(lower: string -> string, isSpace: char -> bool, isDigit: char -> bool)

  datatype Question = Question(user: string, category: string, mustContain: seq<string>, expectNotInContext: bool)

  const NOT_IN_CONTEXT_PHRASES := [
    "not in context", "not mentioned", "not provided", "no information",
    "not specified", "not recorded", "no stories", "no recurring mistakes",
    "no target", "no communication notes", "does not have", "no mention",
    "no such", "is not listed", "are not listed", "is not included", "are not included"
  ]

  predicate SaidNotInContext(py: Chars, answer: string) {
    exists k :: 0 <= k < |NOT_IN_CONTEXT_PHRASES| && Includes(py.lower(answer), NOT_IN_CONTEXT_PHRASES[k])
  }

  predicate HasDigit(py: Chars, s: string) {
    exists i :: 0 <= i < |s| && py.isDigit(s[i])
  }

  predicate IsPunctuation(c: char) {
    c in ".,;:()"
  }

  /** A token of the answer that has a digit and does not occur in the memory block. */
  predicate Invented(py: Chars, token: string, block: string) {
    var clean := py.lower(Trim(token, IsPunctuation));
    HasDigit(py, clean) && !Includes(py.lower(block), clean)
  }

  predicate InventsNumber(py: Chars, a: string, block: string) {
    exists k :: 0 <= k < |Split(a, py.isSpace)| && Invented(py, Split(a, py.isSpace)[k], block)
  }

  function Normal(py: Chars, answer: string): string {
    Trim(py.lower(answer), py.isSpace)
  }

  predicate Mentions(py: Chars, a: string, keyword: string) {
    Includes(a, py.lower(keyword))
  }

  predicate MentionsAll(py: Chars, a: string, keywords: seq<string>) {
    forall k :: 0 <= k < |keywords| ==> Mentions(py, a, keywords[k])
  }

  predicate MentionsNone(py: Chars, a: string, keywords: seq<string>) {
    forall k :: 0 <= k < |keywords| ==> !Mentions(py, a, keywords[k])
  }

  /** What each answer deserves on the scale of -1 to 2. */
  function Score(py: Chars, q: Question, answer: string, block: string): (score: int)
    ensures -1 <= score <= 2
  {
    var a := Normal(py, answer);
    if q.expectNotInContext then
      if SaidNotInContext(py, a) then 2 else if InventsNumber(py, a, block) then -1 else 0
    else if MentionsNone(py, a, q.mustContain) then
      if !SaidNotInContext(py, a) && |a| > 10 && HasDigit(py, a) then -1 else 0
    else if MentionsAll(py, a, q.mustContain) then 2
    else 1
  }

  /** score_answer with its two loops and its count of hits. */
  method ScoreAnswer(py: Chars, q: Question, answer: string, block: string) returns (score: int)
    ensures score == Score(py, q, answer, block)
  {
    hide SaidNotInContext, HasDigit, Invented, Mentions;
    var a := Trim(py.lower(answer), py.isSpace);
    if q.expectNotInContext {
      if SaidNotInContext(py, a) {
        return 2;
      }
      var tokens := Split(a, py.isSpace);
      for i := 0 to |tokens|
        invariant forall j :: 0 <= j < i ==> !Invented(py, tokens[j], block)
      {
        if Invented(py, tokens[i], block) {
          return -1;
        }
      }
      return 0;
    }
    var hits := 0;
    for i := 0 to |q.mustContain|
      invariant 0 <= hits <= i
      invariant hits == 0 <==> forall j :: 0 <= j < i ==> !Mentions(py, a, q.mustContain[j])
      invariant hits == i <==> forall j :: 0 <= j < i ==> Mentions(py, a, q.mustContain[j])
    {
      if Mentions(py, a, q.mustContain[i]) {
        hits := hits + 1;
      }
    }
    if hits == 0 {
      if SaidNotInContext(py, a) {
        return 0;
      }
      return if |a| > 10 && HasDigit(py, a) then -1 else 0;
    }
    return if hits == |q.mustContain| then 2 else 1;
  }

  // ---------- What the marks mean ----------

  /** The answer says that the context has no answer, in one of seventeen ways. */
  ghost predicate Admits(py: Chars, a: string) {
    var text := py.lower(a);
    || Says(text, "not in context") || Says(text, "not mentioned") || Says(text, "not provided")
    || Says(text, "no information") || Says(text, "not specified") || Says(text, "not recorded")
    || Says(text, "no stories") || Says(text, "no recurring mistakes") || Says(text, "no target")
    || Says(text, "no communication notes") || Says(text, "does not have") || Says(text, "no mention")
    || Says(text, "no such") || Says(text, "is not listed") || Says(text, "are not listed")
    || Says(text, "is not included") || Says(text, "are not included")
  }

  /** The answer has a number that the memory block does not have, apart from punctuation around it. */
  ghost predicate MakesUp(py: Chars, a: string, block: string) {
    exists token :: token in Split(a, py.isSpace) && Foreign(py, token, block)
  }

  ghost predicate Foreign(py: Chars, token: string, block: string) {
    exists pre: string, core: string, post: string ::
      token == pre + core + post && IsMiddle(pre, core, post, (c: char) => c in ".,;:()")
      && (exists c :: c in py.lower(core) && py.isDigit(c)) && !Says(py.lower(block), py.lower(core))
  }

  lemma AdmitsIff(py: Chars, a: string)
    ensures SaidNotInContext(py, a) <==> Admits(py, a)
  {
    var text := py.lower(a);
    hide Includes, Says;
    forall k | 0 <= k < |NOT_IN_CONTEXT_PHRASES|
      ensures Includes(text, NOT_IN_CONTEXT_PHRASES[k]) <==> Says(text, NOT_IN_CONTEXT_PHRASES[k])
    {
      IncludesIff(text, NOT_IN_CONTEXT_PHRASES[k]);
    }
    Seventeen(text);
  }

  lemma Seventeen(text: string)
    ensures (exists k :: 0 <= k < |NOT_IN_CONTEXT_PHRASES| && Says(text, NOT_IN_CONTEXT_PHRASES[k])) <==> (
      || Says(text, "not in context") || Says(text, "not mentioned") || Says(text, "not provided")
      || Says(text, "no information") || Says(text, "not specified") || Says(text, "not recorded")
      || Says(text, "no stories") || Says(text, "no recurring mistakes") || Says(text, "no target")
      || Says(text, "no communication notes") || Says(text, "does not have") || Says(text, "no mention")
      || Says(text, "no such") || Says(text, "is not listed") || Says(text, "are not listed")
      || Says(text, "is not included") || Says(text, "are not included"))
  {
    hide Says;
    var ps := NOT_IN_CONTEXT_PHRASES;
    assert |ps| == 17;
    assert ps[0] == "not in context" && ps[1] == "not mentioned" && ps[2] == "not provided" && ps[3] == "no information";
    assert ps[4] == "not specified" && ps[5] == "not recorded" && ps[6] == "no stories";
    assert ps[7] == "no recurring mistakes" && ps[8] == "no target" && ps[9] == "no communication notes";
    assert ps[10] == "does not have" && ps[11] == "no mention" && ps[12] == "no such" && ps[13] == "is not listed";
    assert ps[14] == "are not listed" && ps[15] == "is not included" && ps[16] == "are not included";
  }

  lemma NormalIs(py: Chars, answer: string, pre: string, a: string, post: string)
    requires py.lower(answer) == pre + a + post && IsMiddle(pre, a, post, py.isSpace)
    ensures Normal(py, answer) == a
  {
    TrimIs(pre, a, post, py.isSpace);
  }

  lemma HasDigitIff(py: Chars, s: string)
    ensures HasDigit(py, s) <==> exists c :: c in s && py.isDigit(c)
  {
    if HasDigit(py, s) {
      var i :| 0 <= i < |s| && py.isDigit(s[i]);
      assert s[i] in s;
    }
  }

  lemma ForeignIff(py: Chars, token: string, block: string)
    ensures Invented(py, token, block) <==> Foreign(py, token, block)
  {
    var drop := (c: char) => c in ".,;:()";
    var core := Trim(token, IsPunctuation);
    var pre, post := TrimIsMiddle(token, IsPunctuation);
    assert IsMiddle(pre, core, post, drop);
    IncludesIff(py.lower(block), py.lower(core));
    HasDigitIff(py, py.lower(core));
    hide Includes, Says, Trim, HasDigit;
    if Foreign(py, token, block) {
      var pre', core', post' :| token == pre' + core' + post' && IsMiddle(pre', core', post', drop)
        && (exists c :: c in py.lower(core') && py.isDigit(c)) && !Says(py.lower(block), py.lower(core'));
      MiddleIsUnique(pre, core, post, pre', core', post', drop);
    }
  }

  lemma MakesUpIff(py: Chars, a: string, block: string)
    ensures InventsNumber(py, a, block) <==> MakesUp(py, a, block)
  {
    hide Invented, Foreign, Split;
    forall token {
      ForeignIff(py, token, block);
    }
    if InventsNumber(py, a, block) {
      var k :| 0 <= k < |Split(a, py.isSpace)| && Invented(py, Split(a, py.isSpace)[k], block);
      assert Split(a, py.isSpace)[k] in Split(a, py.isSpace);
    }
  }

  /**
   Which answers get which mark; `a` is the answer in lower case without white space around it. Full marks go to an admission
   where the context has no answer, and to an answer that says every required keyword; a question without keywords can never
   earn them. Partial marks go to some keywords but not all. The penalty goes to answers that admit nothing: to a made-up
   number, or to a number in an answer of more than ten characters that misses every keyword.
   */
  lemma MarksMean(py: Chars, q: Question, answer: string, block: string, pre: string, a: string, post: string)
    requires py.lower(answer) == pre + a + post && IsMiddle(pre, a, post, py.isSpace)
    ensures var n := |q.mustContain|;
      var said := (k: int) => 0 <= k < n && Includes(a, py.lower(q.mustContain[k]));
      && (forall k :: 0 <= k < n ==> (said(k) <==> Says(a, py.lower(q.mustContain[k]))))
      && (Score(py, q, answer, block) == 2 <==>
           if q.expectNotInContext then Admits(py, a) else n > 0 && forall k :: 0 <= k < n ==> said(k))
      && (Score(py, q, answer, block) == 1 <==>
           && !q.expectNotInContext && (exists k :: 0 <= k < n && said(k)) && (exists k :: 0 <= k < n && !said(k)))
      && (Score(py, q, answer, block) == -1 <==>
           && !Admits(py, a)
           && if q.expectNotInContext then MakesUp(py, a, block)
              else (forall k :: 0 <= k < n ==> !said(k)) && |a| > 10 && exists c :: c in a && py.isDigit(c))
  {
    hide SaidNotInContext, HasDigit, InventsNumber, Normal, Score, Admits, MakesUp, Includes, Says, IsMiddle;
    NormalIs(py, answer, pre, a, post);
    AdmitsIff(py, a);
    MakesUpIff(py, a, block);
    HasDigitIff(py, a);
    MarksIff(py, q, answer, block);
    forall k | 0 <= k < |q.mustContain|
      ensures Includes(a, py.lower(q.mustContain[k])) <==> Says(a, py.lower(q.mustContain[k]))
    {
      IncludesIff(a, py.lower(q.mustContain[k]));
    }
  }

  lemma MarksIff(py: Chars, q: Question, answer: string, block: string)
    ensures Score(py, q, answer, block) == 2 <==> (
      var a := Normal(py, answer);
      if q.expectNotInContext then SaidNotInContext(py, a)
      else q.mustContain != [] && MentionsAll(py, a, q.mustContain))
    ensures Score(py, q, answer, block) == 1 <==> (
      var a := Normal(py, answer);
      !q.expectNotInContext && !MentionsNone(py, a, q.mustContain) && !MentionsAll(py, a, q.mustContain))
    ensures Score(py, q, answer, block) == -1 <==> (
      var a := Normal(py, answer);
      && !SaidNotInContext(py, a)
      && if q.expectNotInContext then InventsNumber(py, a, block)
         else MentionsNone(py, a, q.mustContain) && |a| > 10 && HasDigit(py, a))
  {
    hide SaidNotInContext, HasDigit, InventsNumber, Mentions, Normal;
    if q.mustContain != [] && MentionsAll(py, Normal(py, answer), q.mustContain) {
      assert Mentions(py, Normal(py, answer), q.mustContain[0]);
    }
  }

  /** Only the set of required keywords counts: neither their order nor a repetition changes the mark. */
  lemma KeywordSetDecides(py: Chars, q: Question, keywords: seq<string>, answer: string, block: string)
    requires forall w :: w in q.mustContain <==> w in keywords
    ensures Score(py, q.(mustContain := keywords), answer, block) == Score(py, q, answer, block)
  {
    var a := Normal(py, answer);
    var same := q.(mustContain := keywords);
    forall k | 0 <= k < |keywords|
      ensures keywords[k] in q.mustContain
    {
      assert keywords[k] in keywords;
    }
    hide SaidNotInContext, HasDigit, InventsNumber, Mentions, Normal;
    assert MentionsAll(py, a, q.mustContain) <==> forall w :: w in q.mustContain ==> Mentions(py, a, w);
    assert MentionsAll(py, a, keywords) <==> forall w :: w in keywords ==> Mentions(py, a, w);
    assert MentionsNone(py, a, q.mustContain) <==> forall w :: w in q.mustContain ==> !Mentions(py, a, w);
    assert MentionsNone(py, a, keywords) <==> forall w :: w in keywords ==> !Mentions(py, a, w);
    MarksIff(py, q, answer, block);
    MarksIff(py, same, answer, block);
  }

  /** A token between two separators is found, whatever is around it. */
  lemma TokenIsFound(u: string, c: char, token: string, d: char, v: string, separator: char -> bool)
    requires separator(c) && separator(d) && token != ""
    requires forall i :: 0 <= i < |token| ==> !separator(token[i])
    ensures token in Split(u + [c] + token + [d] + v, separator)
  {
    hide Split;
    SplitWord(token, separator);
    SplitAtSeparator(token, d, v, separator);
    SplitAtSeparator(u, c, token + [d] + v, separator);
    assert u + [c] + (token + [d] + v) == u + [c] + token + [d] + v;
  }

  /**
   Where the context has no answer, one invented token anywhere in an answer that does not admit it is penalised, whatever
   else the answer says.
   */
  lemma InventionIsPenalised(py: Chars, q: Question, answer: string, block: string, u: string, c: char, token: string,
                             d: char, v: string)
    requires q.expectNotInContext && !SaidNotInContext(py, Normal(py, answer))
    requires Normal(py, answer) == u + [c] + token + [d] + v && py.isSpace(c) && py.isSpace(d) && token != ""
    requires (forall i :: 0 <= i < |token| ==> !py.isSpace(token[i])) && Invented(py, token, block)
    ensures Score(py, q, answer, block) == -1
  {
    hide SaidNotInContext, Invented, Split, Normal;
    TokenIsFound(u, c, token, d, v, py.isSpace);
    var a := Normal(py, answer);
    var k :| 0 <= k < |Split(a, py.isSpace)| && Split(a, py.isSpace)[k] == token;
    assert Invented(py, Split(a, py.isSpace)[k], block);
    MarksIff(py, q, answer, block);
  }

  // ---------- The benchmark run ----------

  datatype Result = Result(user: string, category: string, score: int)

  /** The result of one question; a call to the model that failed scores 0. */
  function ResultOf(py: Chars, q: Question, reply: Option<string>, block: string): Result {
    Result(q.user, q.category, if reply.Some? then Score(py, q, reply.value, block) else 0)
  }

  /** Every question has a reply or a failure, and every user a memory block. */
  predicate Answerable(qs: seq<Question>, replies: seq<Option<string>>, blocks: map<string, string>) {
    |replies| == |qs| && forall i :: 0 <= i < |qs| ==> qs[i].user in blocks
  }

  function Results(py: Chars, qs: seq<Question>, replies: seq<Option<string>>, blocks: map<string, string>): seq<Result>
    requires Answerable(qs, replies, blocks)
  {
    seq(|qs|, i requires 0 <= i < |qs| => ResultOf(py, qs[i], replies[i], blocks[qs[i].user]))
  }

  /** run_benchmark with the replies of the model as input. */
  method RunBenchmark(py: Chars, qs: seq<Question>, replies: seq<Option<string>>, blocks: map<string, string>)
    returns (results: seq<Result>)
    requires Answerable(qs, replies, blocks)
    ensures results == Results(py, qs, replies, blocks)
    ensures |results| == |qs| && forall i :: 0 <= i < |qs| ==>
      && results[i].user == qs[i].user && results[i].category == qs[i].category
      && results[i].score == match replies[i]
           case None => 0
           case Some(reply) => Score(py, qs[i], reply, blocks[qs[i].user])
  {
    hide Score;
    results := [];
    for i := 0 to |qs|
      invariant results == Results(py, qs, replies, blocks)[..i]
    {
      var q, score := qs[i], 0;
      if replies[i].Some? {
        score := ScoreAnswer(py, q, replies[i].value, blocks[q.user]);
      }
      results := results + [Result(q.user, q.category, score)];
    }
  }

  /** A question whose call failed counts as missed, so a run without the model recalls and invents nothing. */
  lemma NoModelNoMarks(py: Chars, qs: seq<Question>, replies: seq<Option<string>>, blocks: map<string, string>)
    requires Answerable(qs, replies, blocks) && forall i :: 0 <= i < |qs| ==> replies[i] == None
    ensures RowOf(Results(py, qs, replies, blocks)) == Row(|qs|, 0, 0, |qs|, 0, 0)
  {
    AllMissed(Results(py, qs, replies, blocks));
  }

  lemma {:induction false} AllMissed(rs: seq<Result>)
    requires forall i :: 0 <= i < |rs| ==> rs[i].score == 0
    ensures RowOf(rs) == Row(|rs|, 0, 0, |rs|, 0, 0)
  {
    if rs != [] {
      AllMissed(rs[..|rs| - 1]);
    }
  }

  // ---------- The summary ----------

  function UserOf(r: Result): string {
    r.user
  }

  function CategoryOf(r: Result): string {
    r.category
  }

  function CountScore(rs: seq<Result>, score: int): nat {
    if rs == [] then 0 else CountScore(rs[..|rs| - 1], score) + if rs[|rs| - 1].score == score then 1 else 0
  }

  function Points(rs: seq<Result>): int {
    if rs == [] then 0 else Points(rs[..|rs| - 1]) + rs[|rs| - 1].score
  }

  /** How many answers, how many of each class, and their points: the totals, or one row of a table. */
  datatype Row = Row(total: nat, correct: nat, partial: nat, missed: nat, hallucinated: nat, points: int)

  function RowOf(rs: seq<Result>): Row {
    Row(|rs|, CountScore(rs, 2), CountScore(rs, 1), CountScore(rs, 0), CountScore(rs, -1), Points(rs))
  }

  /** The keys that occur, each once. */
  function Keys(rs: seq<Result>, key: Result -> string): (ks: seq<string>)
    ensures Distinct(ks)
    ensures forall i :: 0 <= i < |rs| ==> key(rs[i]) in ks
    ensures forall k :: k in ks ==> exists i :: 0 <= i < |rs| && key(rs[i]) == k
  {
    if rs == [] then [] else
    var n := |rs| - 1;
    var ks := Keys(rs[..n], key);
    assert forall k :: k in ks ==> exists i :: 0 <= i < n && key(rs[..n][i]) == k && key(rs[i]) == k;
    assert forall i :: 0 <= i < n ==> key(rs[..n][i]) in ks && rs[..n][i] == rs[i];
    if key(rs[n]) in ks then ks else ks + [key(rs[n])]
  }

  /** What is reported of a row: the rate of each class and the average score, to three digits; zero of no answers. */
  datatype Rates = Rates(total: nat, recall: real, partial: real, miss: real, hallucination: real, average: real)

  function Rate(n: int, total: nat): real {
    if total == 0 then 0.0 else Round3(n as real / total as real)
  }

  function RatesOf(r: Row): Rates {
    Rates(r.total, Rate(r.correct, r.total), Rate(r.partial, r.total), Rate(r.missed, r.total),
          Rate(r.hallucinated, r.total), Rate(r.points, r.total))
  }

  function TableOf(rs: seq<Result>, key: Result -> string): map<string, Row> {
    map k | k in Keys(rs, key) :: RowOf(Group(rs, key, k))
  }

  /** The rates of a table. */
  function Reported(table: map<string, Row>): map<string, Rates> {
    map k | k in table :: RatesOf(table[k])
  }

  /** One of the two loops of summarize: collects the keys and makes an entry for each. */
  method Tabulate(rs: seq<Result>, key: Result -> string) returns (table: map<string, Rates>)
    ensures table == Reported(TableOf(rs, key))
  {
    hide RowOf, Group, RatesOf;
    var keys := Keys(rs, key);
    table := map[];
    for i := 0 to |keys|
      invariant forall k :: k in table <==> k in keys[..i]
      invariant forall k :: k in table ==> table[k] == RatesOf(RowOf(Group(rs, key, k)))
    {
      var items := Group(rs, key, keys[i]);
      table := table[keys[i] := RatesOf(RowOf(items))];
    }
    assert keys[..|keys|] == keys;
  }

  /** summarize. */
  method Summarize(rs: seq<Result>)
    returns (totals: Row, rates: Rates, perUser: map<string, Rates>, perCategory: map<string, Rates>)
    ensures totals == RowOf(rs) && rates == RatesOf(totals)
    ensures perUser == Reported(TableOf(rs, UserOf)) && perCategory == Reported(TableOf(rs, CategoryOf))
  {
    totals := RowOf(rs);
    rates := RatesOf(totals);
    perUser := Tabulate(rs, UserOf);
    perCategory := Tabulate(rs, CategoryOf);
  }

  // The columns of a table, as numbers that can be added up.

  function AnswersIn(r: Row): real { r.total as real }

  function CorrectIn(r: Row): real { r.correct as real }

  function PartialIn(r: Row): real { r.partial as real }

  function MissedIn(r: Row): real { r.missed as real }

  function HallucinatedIn(r: Row): real { r.hallucinated as real }

  function PointsIn(r: Row): real { r.points as real }

  function One(r: Result): real { 1.0 }

  function Mark(r: Result): real { r.score as real }

  function Is(score: int): Result -> real {
    (r: Result) => if r.score == score then 1.0 else 0.0
  }

  lemma {:induction false} RowIsTotals(rs: seq<Result>)
    ensures var r := RowOf(rs);
      && AnswersIn(r) == Total(rs, One) && PointsIn(r) == Total(rs, Mark)
      && CorrectIn(r) == Total(rs, Is(2)) && PartialIn(r) == Total(rs, Is(1))
      && MissedIn(r) == Total(rs, Is(0)) && HallucinatedIn(r) == Total(rs, Is(-1))
  {
    if rs != [] {
      RowIsTotals(rs[..|rs| - 1]);
    }
  }

  /** A column of a table, added up over its keys. */
  function ColumnSum(rs: seq<Result>, key: Result -> string, column: Row -> real): real {
    OverKeys(Keys(rs, key), TableOf(rs, key), column)
  }

  lemma ColumnAddsUp(rs: seq<Result>, key: Result -> string, column: Row -> real, weight: Result -> real)
    requires forall k :: k in Keys(rs, key) ==> column(RowOf(Group(rs, key, k))) == Total(Group(rs, key, k), weight)
    requires column(RowOf(rs)) == Total(rs, weight)
    ensures ColumnSum(rs, key, column) == column(RowOf(rs))
  {
    hide Group, Total, RowOf;
    OverKeysIsTotal(rs, key, Keys(rs, key), TableOf(rs, key), column, weight);
    GroupsPartition(rs, key, Keys(rs, key), weight);
  }

  /** Every column of a table adds up to the overall figure: no answer and no point is lost or counted twice. */
  ghost predicate AddsUp(rs: seq<Result>, key: Result -> string) {
    var r := RowOf(rs);
    && ColumnSum(rs, key, AnswersIn) == AnswersIn(r) && ColumnSum(rs, key, PointsIn) == PointsIn(r)
    && ColumnSum(rs, key, CorrectIn) == CorrectIn(r) && ColumnSum(rs, key, PartialIn) == PartialIn(r)
    && ColumnSum(rs, key, MissedIn) == MissedIn(r) && ColumnSum(rs, key, HallucinatedIn) == HallucinatedIn(r)
  }

  lemma TableAddsUp(rs: seq<Result>, key: Result -> string)
    ensures AddsUp(rs, key)
  {
    hide Group, Total, RowOf, OverKeys, Keys;
    forall k | k in Keys(rs, key) {
      RowIsTotals(Group(rs, key, k));
    }
    RowIsTotals(rs);
    ColumnAddsUp(rs, key, AnswersIn, One);
    ColumnAddsUp(rs, key, PointsIn, Mark);
    ColumnAddsUp(rs, key, CorrectIn, Is(2));
    ColumnAddsUp(rs, key, PartialIn, Is(1));
    ColumnAddsUp(rs, key, MissedIn, Is(0));
    ColumnAddsUp(rs, key, HallucinatedIn, Is(-1));
  }

  lemma {:induction false} ClassesPartition(rs: seq<Result>)
    requires forall i :: 0 <= i < |rs| ==> -1 <= rs[i].score <= 2
    ensures var r := RowOf(rs);
      && r.correct + r.partial + r.missed + r.hallucinated == r.total
      && r.points == 2 * r.correct + r.partial - r.hallucinated
  {
    if rs != [] {
      ClassesPartition(rs[..|rs| - 1]);
    }
  }

  predicate Near(r: real, x: real) {
    x - 0.0005 <= r <= x + 0.0005
  }

  /** The quotient before rounding. */
  lemma Unrounded(n: int, total: nat) returns (x: real)
    requires total > 0
    ensures x * total as real == n as real && Near(Rate(n, total), x)
  {
    x := n as real / total as real;
    Round3IsNear(x);
  }

  lemma Distribute(n: real, w: real, x: real, y: real, z: real, wn: real, xn: real, yn: real, zn: real) returns (sum: real)
    requires wn == w * n && xn == x * n && yn == y * n && zn == z * n
    ensures sum == w + x + y + z && sum * n == wn + xn + yn + zn
  {
    sum := w + x + y + z;
  }

  lemma CancelFactor(x: real, y: real, n: real, xn: real)
    requires n > 0.0 && xn == x * n && xn == y * n
    ensures x == y
  {
    assert xn / n == x && xn / n == y;
  }

  /** Quotients by the same number add up as what was divided does. */
  lemma QuotientsAdd(n: real, c: real, p: real, m: real, h: real, cn: real, pn: real, mn: real, hn: real)
    requires n > 0.0 && cn == c * n && pn == p * n && mn == m * n && hn == h * n && cn + pn + mn + hn == n
    ensures c + p + m + h == 1.0
  {
    var sum := Distribute(n, c, p, m, h, cn, pn, mn, hn);
    CancelFactor(sum, 1.0, n, n);
  }

  lemma PointsQuotient(n: real, a: real, c: real, p: real, h: real, an: real, cn: real, pn: real, hn: real)
    requires n > 0.0 && an == a * n && cn == c * n && pn == p * n && hn == h * n && an == cn + cn + pn - hn
    ensures a == c + c + p - h
  {
    var sum := Distribute(n, c, c, p, -h, cn, cn, pn, -hn);
    CancelFactor(a, sum, n, an);
  }

  /** Without results every rate is reported as zero. */
  lemma NoResultsNoRates()
    ensures RatesOf(RowOf([])) == Rates(0, 0.0, 0.0, 0.0, 0.0, 0.0)
  {
  }

  /**
   The four reported rates add up to 1 up to 0.002, and the reported average is twice the recall plus the partial rate
   minus the hallucination rate up to 0.0025.
   */
  lemma RatesAddUp(rs: seq<Result>)
    requires rs != [] && forall i :: 0 <= i < |rs| ==> -1 <= rs[i].score <= 2
    ensures var r := RatesOf(RowOf(rs));
      && 0.998 <= r.recall + r.partial + r.miss + r.hallucination <= 1.002
      && -0.0025 <= r.average - (2.0 * r.recall + r.partial - r.hallucination) <= 0.0025
  {
    ClassesPartition(rs);
    RatesAreNear(RowOf(rs));
  }

  lemma RatesAreNear(r: Row)
    requires r.total > 0 && r.correct + r.partial + r.missed + r.hallucinated == r.total
    requires r.points == 2 * r.correct + r.partial - r.hallucinated
    ensures var s := RatesOf(r);
      && 0.998 <= s.recall + s.partial + s.miss + s.hallucination <= 1.002
      && -0.0025 <= s.average - (2.0 * s.recall + s.partial - s.hallucination) <= 0.0025
  {
    hide Rate, Near;
    var c := Unrounded(r.correct, r.total);
    var p := Unrounded(r.partial, r.total);
    var m := Unrounded(r.missed, r.total);
    var h := Unrounded(r.hallucinated, r.total);
    var a := Unrounded(r.points, r.total);
    QuotientsAdd(r.total as real, c, p, m, h, r.correct as real, r.partial as real, r.missed as real,
                 r.hallucinated as real);
    PointsQuotient(r.total as real, a, c, p, h, r.points as real, r.correct as real, r.partial as real,
                   r.hallucinated as real);
    NearSums(RatesOf(r), c, p, m, h, a);
  }

  lemma NearSums(s: Rates, c: real, p: real, m: real, h: real, a: real)
    requires Near(s.recall, c) && Near(s.partial, p) && Near(s.miss, m) && Near(s.hallucination, h) && Near(s.average, a)
    requires c + p + m + h == 1.0 && a == c + c + p - h
    ensures 0.998 <= s.recall + s.partial + s.miss + s.hallucination <= 1.002
    ensures -0.0025 <= s.average - (2.0 * s.recall + s.partial - s.hallucination) <= 0.0025
  {
  }

  /**
   Whatever the questions, the replies and the memory blocks: the four classes make up all answers, the scores add up to
   2 * correct + partial - hallucinated, and both tables account for every answer and every point.
   */
  lemma SummaryConserves(py: Chars, qs: seq<Question>, replies: seq<Option<string>>, blocks: map<string, string>)
    requires Answerable(qs, replies, blocks)
    ensures var rs := Results(py, qs, replies, blocks); var r := RowOf(rs);
      && r.total == |qs|
      && r.correct + r.partial + r.missed + r.hallucinated == r.total
      && r.points == 2 * r.correct + r.partial - r.hallucinated
      && AddsUp(rs, UserOf) && AddsUp(rs, CategoryOf)
  {
    hide Score, AddsUp;
    var rs := Results(py, qs, replies, blocks);
    ClassesPartition(rs);
    TableAddsUp(rs, UserOf);
    TableAddsUp(rs, CategoryOf);
  }
}
