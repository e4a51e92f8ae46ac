/**
 The log processor that redacts provider keys (backend/app/logging.py).

 The pattern is an ordered alternation, matched leftmost and greedily with case ignored. `MatchLength` is that
 matcher, written as the scan it performs; `IsSecret` says independently which whole strings the pattern describes.
 Python's IGNORECASE lets four non-ASCII letters match too, so the theorems hold for every string.
 */
module Scrub {
  // ---------- The pattern ----------

  /** Letters that count as `lower` when case is ignored: K and s have one more spelling each (Kelvin sign, long s). */
  predicate SameLetter(c: char, lower: char)
    requires 'a' <= lower <= 'z'
  {
    || c == lower
    || c as int == lower as int - 32
    || (lower == 'k' && c == '\U{212A}')
    || (lower == 's' && c == '\U{17F}')
  }

  predicate MatchesLiteral(c: char, p: char) {
    if 'a' <= p <= 'z' then SameLetter(c, p) else c == p
  }

  /** [a-zA-Z0-9] with case ignored. */
  predicate Alphanumeric(c: char) {
    'a' <= c <= 'z' || 'A' <= c <= 'Z' || '0' <= c <= '9' || c in {'\U{130}', '\U{131}', '\U{17F}', '\U{212A}'}
  }

  /** [a-zA-Z0-9\-_] with case ignored. */
  predicate Word(c: char) {
    Alphanumeric(c) || c == '-' || c == '_'
  }

  /** One alternative: a literal prefix, then at least `least` characters of a class. */
  datatype Alternative = Alternative(prefix: string, hyphens: bool, least: nat)

  const ALTERNATIVES := [
    Alternative("sk-ant-", true, 1),
    Alternative("sk-proj-", true, 1),
    Alternative("sk-", false, 20),
    Alternative("dg_", true, 1),
    Alternative("el_", true, 1)
  ]

  predicate InClass(a: Alternative, c: char) {
    if a.hyphens then Word(c) else Alphanumeric(c)
  }

  predicate MatchesPrefix(prefix: string, s: string) {
    |prefix| <= |s| && forall i :: 0 <= i < |prefix| ==> MatchesLiteral(s[i], prefix[i])
  }

  /** The strings an alternative describes. */
  predicate Describes(a: Alternative, w: string) {
    && MatchesPrefix(a.prefix, w)
    && |w| >= |a.prefix| + a.least
    && forall i :: |a.prefix| <= i < |w| ==> InClass(a, w[i])
  }

  /** The strings the pattern describes. */
  predicate IsSecret(w: string) {
    exists k :: 0 <= k < |ALTERNATIVES| && Describes(ALTERNATIVES[k], w)
  }

  // ---------- The scan ----------

  /** How many characters a greedy class repetition takes. */
  function Greedy(a: Alternative, s: string): nat {
    if s != [] && InClass(a, s[0]) then 1 + Greedy(a, s[1..]) else 0
  }

  /** The length matched by one alternative at the start of `s`, 0 if it fails. */
  function TryAlternative(a: Alternative, s: string): nat {
    if !MatchesPrefix(a.prefix, s) then 0 else
    var n := Greedy(a, s[|a.prefix|..]);
    if n >= a.least then |a.prefix| + n else 0
  }

  /** The first alternative that matches wins. */
  function TryFrom(k: nat, s: string): nat
    decreases |ALTERNATIVES| - k
  {
    if k >= |ALTERNATIVES| then 0 else
    var n := TryAlternative(ALTERNATIVES[k], s);
    if n > 0 then n else TryFrom(k + 1, s)
  }

  function MatchLength(s: string): nat {
    TryFrom(0, s)
  }

  const REDACTED := "[REDACTED]"

  /** What a scan leaves: characters kept as they are and stretches that were matched. */
  datatype Piece = Kept(c: char) | Matched(text: string)

  lemma {:induction false} GreedyFits(a: Alternative, s: string)
    ensures Greedy(a, s) <= |s|
    ensures forall i :: 0 <= i < Greedy(a, s) ==> InClass(a, s[i])
    ensures Greedy(a, s) < |s| ==> !InClass(a, s[Greedy(a, s)])
  {
    if s != [] && InClass(a, s[0]) {
      GreedyFits(a, s[1..]);
    }
  }

  lemma {:induction false} MatchFits(k: nat, s: string)
    ensures TryFrom(k, s) <= |s|
    decreases |ALTERNATIVES| - k
  {
    if k < |ALTERNATIVES| {
      var a := ALTERNATIVES[k];
      if MatchesPrefix(a.prefix, s) {
        GreedyFits(a, s[|a.prefix|..]);
      }
      MatchFits(k + 1, s);
    }
  }

  /** Left to right: a match is taken whole and the scan goes on after it. */
  function Scan(s: string): seq<Piece>
    decreases |s|
  {
    if s == [] then [] else
    var n := MatchLength(s);
    MatchFits(0, s);
    if n > 0 then [Matched(s[..n])] + Scan(s[n..]) else [Kept(s[0])] + Scan(s[1..])
  }

  function Render(ps: seq<Piece>): string {
    if ps == [] then "" else
    (match ps[0] case Kept(c) => [c] case Matched(_) => REDACTED) + Render(ps[1..])
  }

  /** `_SECRET_PATTERNS.sub("[REDACTED]", s)`. */
  function Sub(s: string): string {
    Render(Scan(s))
  }

  // ---------- The matcher finds the longest secret ----------

  /** The matcher is right for one alternative: it finds the longest prefix the alternative describes. */
  lemma AlternativeIsLongest(a: Alternative, s: string)
    requires |a.prefix| > 0
    ensures var n := TryAlternative(a, s);
      && n <= |s| && (n > 0 ==> Describes(a, s[..n]))
      && forall m :: n < m <= |s| ==> !Describes(a, s[..m])
  {
    var n, p := TryAlternative(a, s), |a.prefix|;
    if MatchesPrefix(a.prefix, s) {
      var g := Greedy(a, s[p..]);
      GreedyFits(a, s[p..]);
      if n > 0 {
        forall i | p <= i < n
          ensures InClass(a, s[..n][i])
        {
          assert s[i] == s[p..][i - p];
        }
      }
      forall m | n < m <= |s|
        ensures !Describes(a, s[..m])
      {
        if m > p + g {
          assert s[..m][p + g] == s[p..][g];
        }
      }
    } else {
      forall m | n < m <= |s|
        ensures !Describes(a, s[..m])
      {
        assert forall i :: 0 <= i < p && i < m ==> s[..m][i] == s[i];
      }
    }
  }

  /** No string starts with something two different alternatives describe. */
  lemma AlternativesExclude(j: nat, k: nat, v: string, w: string)
    requires j < k < |ALTERNATIVES|
    requires Describes(ALTERNATIVES[j], v) && (v <= w || w <= v)
    ensures !Describes(ALTERNATIVES[k], w)
  {
    var a, b := ALTERNATIVES[j], ALTERNATIVES[k];
    forall i | 0 <= i < |v| && i < |w|
      ensures v[i] == w[i]
    {
    }
    assert MatchesLiteral(v[0], a.prefix[0]) && MatchesLiteral(v[1], a.prefix[1]);
    assert |a.prefix| > 3 ==> MatchesLiteral(v[3], a.prefix[3]);
    assert MatchesLiteral(v[|a.prefix| - 1], a.prefix[|a.prefix| - 1]);
  }

  lemma {:induction false} TryFromIsLongest(k: nat, s: string)
    requires k <= |ALTERNATIVES|
    ensures var n := TryFrom(k, s);
      && n <= |s|
      && (n > 0 ==> exists j :: k <= j < |ALTERNATIVES| && Describes(ALTERNATIVES[j], s[..n]))
      && forall m, j :: n < m <= |s| && k <= j < |ALTERNATIVES| ==> !Describes(ALTERNATIVES[j], s[..m])
    decreases |ALTERNATIVES| - k
  {
    if k < |ALTERNATIVES| {
      var n := TryAlternative(ALTERNATIVES[k], s);
      AlternativeIsLongest(ALTERNATIVES[k], s);
      TryFromIsLongest(k + 1, s);
      if n > 0 {
        forall m, j | n < m <= |s| && k < j < |ALTERNATIVES|
          ensures !Describes(ALTERNATIVES[j], s[..m])
        {
          assert s[..n] <= s[..m];
          AlternativesExclude(k, j, s[..n], s[..m]);
        }
      }
    }
  }

  /** The pattern matches the longest prefix that is a secret, and fails only if no prefix is. */
  lemma MatchIsLongest(s: string)
    ensures var n := MatchLength(s);
      && n <= |s| && (n > 0 ==> IsSecret(s[..n]))
      && (forall m :: n < m <= |s| ==> !IsSecret(s[..m]))
    ensures !IsSecret("")
  {
    TryFromIsLongest(0, s);
  }

  // ---------- What the substitution does ----------

  /** A division of `s` where every matched stretch is the longest secret there and no secret starts at a kept character. */
  ghost predicate IsScan(ps: seq<Piece>, s: string)
    decreases |ps|
  {
    if ps == [] then s == "" else
    match ps[0]
    case Kept(c) =>
      && s != "" && s[0] == c && IsScan(ps[1..], s[1..])
      && (forall m :: 0 <= m <= |s| ==> !IsSecret(s[..m]))
    case Matched(text) =>
      && text <= s && IsSecret(text) && IsScan(ps[1..], s[|text|..])
      && (forall m :: |text| < m <= |s| ==> !IsSecret(s[..m]))
  }

  /** The scan is the one such division of its input. */
  lemma {:induction false} ScanIsTheScan(s: string, ps: seq<Piece>)
    ensures IsScan(ps, s) <==> ps == Scan(s)
    decreases |ps|
  {
    hide IsSecret, MatchLength;
    MatchIsLongest(s);
    var n := MatchLength(s);
    if ps != [] && s != "" {
      assert ps == [ps[0]] + ps[1..];
      match ps[0]
      case Kept(_) =>
        ScanIsTheScan(s[1..], ps[1..]);
        assert n > 0 ==> IsSecret(s[..n]);
        assert s[..0] == "";
      case Matched(text) =>
        if text <= s {
          assert s[..|text|] == text;
          ScanIsTheScan(s[|text|..], ps[1..]);
        }
    }
  }

  // ---------- Nothing is left ----------

  /** No secret starts at the beginning of `s`. */
  ghost predicate CleanStart(s: string) {
    forall m :: 0 <= m <= |s| ==> !IsSecret(s[..m])
  }

  /** No secret occurs anywhere in `s`. */
  ghost predicate Clean(s: string) {
    forall i :: 0 <= i <= |s| ==> CleanStart(s[i..])
  }

  lemma SecretsAreWords(w: string)
    requires IsSecret(w)
    ensures w != "" && forall i :: 0 <= i < |w| ==> Word(w[i])
  {
    var k :| 0 <= k < |ALTERNATIVES| && Describes(ALTERNATIVES[k], w);
    var a := ALTERNATIVES[k];
    forall i | 0 <= i < |w|
      ensures Word(w[i])
    {
      if i < |a.prefix| {
        assert MatchesLiteral(w[i], a.prefix[i]);
      } else {
        assert InClass(a, w[i]);
      }
    }
  }

  lemma MatchIsReplaced(s: string)
    requires MatchLength(s) > 0
    ensures Sub(s) != "" && Sub(s)[0] == '['
  {
    MatchFits(0, s);
    assert Sub(s) == REDACTED + Sub(s[MatchLength(s)..]);
  }

  /** A word at the start of the output was at the start of the input. */
  lemma {:induction false} WordsComeFromTheInput(s: string, w: string)
    requires w <= Sub(s) && forall i :: 0 <= i < |w| ==> Word(w[i])
    ensures |w| <= |s| && w == s[..|w|]
    decreases |s|
  {
    if w != "" {
      if MatchLength(s) > 0 {
        MatchIsReplaced(s);
        assert false;
      }
      assert Sub(s) == [s[0]] + Sub(s[1..]);
      WordsComeFromTheInput(s[1..], w[1..]);
      assert w == [w[0]] + w[1..];
    }
  }

  lemma StartIsClean(s: string)
    ensures CleanStart(Sub(s))
  {
    var t := Sub(s);
    MatchIsLongest(s);
    if MatchLength(s) > 0 {
      MatchIsReplaced(s);
    }
    forall m | 0 <= m <= |t|
      ensures !IsSecret(t[..m])
    {
      if IsSecret(t[..m]) {
        SecretsAreWords(t[..m]);
        WordsComeFromTheInput(s, t[..m]);
        assert false;
      }
    }
  }

  lemma RedactedIsClean(rest: string, p: nat)
    requires p < |REDACTED|
    ensures CleanStart((REDACTED + rest)[p..])
  {
    var t := (REDACTED + rest)[p..];
    forall m | 0 <= m <= |t|
      ensures !IsSecret(t[..m])
    {
      if m >= 2 {
        assert t[..m][0] == REDACTED[p];
        assert p < 9 ==> t[..m][1] == REDACTED[p + 1];
        forall k | 0 <= k < |ALTERNATIVES|
          ensures !MatchesPrefix(ALTERNATIVES[k].prefix, t[..m])
        {
          var q := ALTERNATIVES[k].prefix;
          assert !MatchesLiteral(t[..m][0], q[0]) || !MatchesLiteral(t[..m][1], q[1]);
        }
      }
    }
  }

  /** No alternative matches anywhere in the output. */
  lemma {:induction false} OutputIsClean(s: string)
    ensures Clean(Sub(s))
    decreases |s|
  {
    var t := Sub(s);
    forall i | 0 <= i <= |t|
      ensures CleanStart(t[i..])
    {
      if s == "" || i == 0 {
        assert t[0..] == t;
        StartIsClean(s);
      } else {
        MatchFits(0, s);
        var n := MatchLength(s);
        var skip := if n > 0 then |REDACTED| else 1;
        var rest := s[if n > 0 then n else 1..];
        OutputIsClean(rest);
        if i < skip {
          RedactedIsClean(Sub(rest), i);
        } else {
          assert t[i..] == Sub(rest)[i - skip..];
        }
      }
    }
  }

  /** The substitution leaves a string alone exactly when no secret occurs in it. */
  lemma {:induction false} UnchangedIff(s: string)
    ensures Sub(s) == s <==> Clean(s)
    decreases |s|
  {
    if Clean(s) {
      CleanIsUnchanged(s);
    }
    OutputIsClean(s);
  }

  lemma {:induction false} CleanIsUnchanged(s: string)
    requires Clean(s)
    ensures Sub(s) == s
    decreases |s|
  {
    if s != "" {
      MatchIsLongest(s);
      assert s[0..] == s;
      forall i | 0 <= i <= |s[1..]|
        ensures CleanStart(s[1..][i..])
      {
        assert s[1..][i..] == s[i + 1..];
      }
      CleanIsUnchanged(s[1..]);
      assert s == [s[0]] + s[1..];
    }
  }

  /** A second pass changes nothing. */
  lemma Idempotent(s: string)
    ensures Sub(Sub(s)) == Sub(s)
  {
    OutputIsClean(s);
    CleanIsUnchanged(Sub(s));
  }

  /** Every secret contains a hyphen or an underscore, so a string without either is left alone. */
  lemma PlainIsUnchanged(s: string)
    requires forall i :: 0 <= i < |s| ==> s[i] != '-' && s[i] != '_'
    ensures Sub(s) == s
  {
    forall i, m | 0 <= i <= |s| && 0 <= m <= |s[i..]|
      ensures !IsSecret(s[i..][..m])
    {
      var w := s[i..][..m];
      assert forall j :: 0 <= j < |w| ==> w[j] == s[i + j];
      forall k | 0 <= k < |ALTERNATIVES|
        ensures !Describes(ALTERNATIVES[k], w)
      {
        var q := ALTERNATIVES[k].prefix;
        assert |q| <= |w| ==> !MatchesLiteral(w[|q| - 1], q[|q| - 1]);
      }
    }
    CleanIsUnchanged(s);
  }

  /** In particular a bearer token of letters and digits is logged as it is. */
  lemma BearerIsKept()
    ensures Sub("Bearer eyJhbGciOi.e30") == "Bearer eyJhbGciOi.e30"
  {
    hide Sub;
    PlainIsUnchanged("Bearer eyJhbGciOi.e30");
  }

  // ---------- Which keys are redacted, character by character ----------

  predicate InAnyCase(text: string, lower: string) {
    |text| == |lower| && forall i :: 0 <= i < |text| ==>
      text[i] == lower[i] || ('a' <= lower[i] <= 'z' && text[i] as int + 32 == lower[i] as int)
  }

  predicate LetterOrDigit(c: char) {
    'a' <= c <= 'z' || 'A' <= c <= 'Z' || '0' <= c <= '9'
  }

  predicate Ascii(c: char) {
    c as int < 128
  }

  lemma NoLongerSecret(k: nat, s: string, n: nat, m: nat)
    requires k < |ALTERNATIVES| && n < m <= |s| && Describes(ALTERNATIVES[k], s[..n]) && !InClass(ALTERNATIVES[k], s[n])
    ensures !IsSecret(s[..m])
  {
    assert s[..m][n] == s[n] && s[..n] <= s[..m];
    forall j | 0 <= j < |ALTERNATIVES|
      ensures !Describes(ALTERNATIVES[j], s[..m])
    {
      if k < j {
        AlternativesExclude(k, j, s[..n], s[..m]);
      } else if j < k && Describes(ALTERNATIVES[j], s[..m]) {
        AlternativesExclude(j, k, s[..m], s[..n]);
      }
    }
  }

  /** A secret that cannot be continued is what the scan takes. */
  lemma MatchesExactly(k: nat, s: string, n: nat)
    requires k < |ALTERNATIVES| && 0 < n <= |s| && Describes(ALTERNATIVES[k], s[..n])
    requires n < |s| ==> !InClass(ALTERNATIVES[k], s[n])
    ensures Sub(s) == "[REDACTED]" + Sub(s[n..])
  {
    var m := MatchLength(s);
    MatchIsLongest(s);
    assert IsSecret(s[..n]);
    hide IsSecret, MatchLength, Describes;
    if n < m {
      NoLongerSecret(k, s, n, m);
    }
    SubOfMatch(s);
  }

  lemma SubOfMatch(s: string)
    requires s != "" && MatchLength(s) > 0
    ensures MatchLength(s) <= |s| && Sub(s) == REDACTED + Sub(s[MatchLength(s)..])
  {
    MatchFits(0, s);
    hide MatchLength;
    assert Scan(s) == [Matched(s[..MatchLength(s)])] + Scan(s[MatchLength(s)..]);
  }

  lemma DescribedKey(k: nat, prefix: string, w: string, rest: string)
    requires k < |ALTERNATIVES| && InAnyCase(prefix, ALTERNATIVES[k].prefix) && |w| >= ALTERNATIVES[k].least
    requires forall i :: 0 <= i < |w| ==> InClass(ALTERNATIVES[k], w[i])
    ensures var s := prefix + w + rest;
      |prefix| == |ALTERNATIVES[k].prefix| && Describes(ALTERNATIVES[k], s[..|prefix| + |w|]) && s[|prefix| + |w|..] == rest
  {
    var a := ALTERNATIVES[k];
    var s := prefix + w + rest;
    assert s[..|prefix| + |w|] == prefix + w;
    forall i | 0 <= i < |prefix|
      ensures MatchesLiteral(prefix[i], a.prefix[i])
    {
    }
  }

  /**
   A key of one of the four providers, in any case, is redacted to its last letter, digit, hyphen and underscore, and the
   scan goes on behind it.
   */
  lemma ProviderKeyIsRedacted(lower: string, prefix: string, w: string, rest: string)
    requires lower in {"sk-ant-", "sk-proj-", "dg_", "el_"} && InAnyCase(prefix, lower)
    requires w != "" && forall i :: 0 <= i < |w| ==> LetterOrDigit(w[i]) || w[i] == '-' || w[i] == '_'
    requires rest != "" ==> Ascii(rest[0]) && !LetterOrDigit(rest[0]) && rest[0] != '-' && rest[0] != '_'
    ensures Sub(prefix + w + rest) == "[REDACTED]" + Sub(rest)
  {
    var k: nat := if lower == "sk-ant-" then 0 else if lower == "sk-proj-" then 1 else if lower == "dg_" then 3 else 4;
    assert ALTERNATIVES[k].prefix == lower && ALTERNATIVES[k].hyphens && ALTERNATIVES[k].least == 1;
    hide Sub, ALTERNATIVES, Describes;
    DescribedKey(k, prefix, w, rest);
    MatchesExactly(k, prefix + w + rest, |prefix| + |w|);
  }

  /** So is `sk-` with twenty or more letters and digits, to the last of them. */
  lemma LongKeyIsRedacted(prefix: string, w: string, rest: string)
    requires InAnyCase(prefix, "sk-") && |w| >= 20 && forall i :: 0 <= i < |w| ==> LetterOrDigit(w[i])
    requires rest != "" ==> Ascii(rest[0]) && !LetterOrDigit(rest[0])
    ensures Sub(prefix + w + rest) == "[REDACTED]" + Sub(rest)
  {
    assert ALTERNATIVES[2].prefix == "sk-" && !ALTERNATIVES[2].hyphens && ALTERNATIVES[2].least == 20;
    hide Sub, ALTERNATIVES, Describes;
    DescribedKey(2, prefix, w, rest);
    MatchesExactly(2, prefix + w + rest, |prefix| + |w|);
  }

  /** With fewer than twenty it is left as it is. */
  lemma ShortKeyIsKept(prefix: string, w: string)
    requires InAnyCase(prefix, "sk-") && |w| < 20 && forall i :: 0 <= i < |w| ==> LetterOrDigit(w[i])
    ensures Sub(prefix + w) == prefix + w
  {
    var s := prefix + w;
    forall i, m | 0 <= i <= |s| && 0 <= m <= |s[i..]|
      ensures !IsSecret(s[i..][..m])
    {
      var v := s[i..][..m];
      assert forall j :: 0 <= j < |v| ==> v[j] == s[i + j];
      forall k | 0 <= k < |ALTERNATIVES|
        ensures !Describes(ALTERNATIVES[k], v)
      {
        ShortIsNoSecret(s, i, v, k);
      }
    }
    CleanIsUnchanged(s);
  }

  lemma ShortIsNoSecret(s: string, i: nat, v: string, k: nat)
    requires 3 <= |s| < 23 && s[2] == '-' && (forall j :: 0 <= j < |s| && j != 2 ==> LetterOrDigit(s[j]))
    requires i + |v| <= |s| && (forall j :: 0 <= j < |v| ==> v[j] == s[i + j]) && k < |ALTERNATIVES|
    ensures !Describes(ALTERNATIVES[k], v)
  {
    var q := ALTERNATIVES[k].prefix;
    if k == 2 {
      assert |v| < 23;
    } else if |q| <= |v| {
      assert v[|q| - 1] == s[i + |q| - 1];
      assert !MatchesLiteral(v[|q| - 1], q[|q| - 1]);
    }
  }

  /** Ignoring case, four letters beyond ASCII count as well. */
  lemma FoldedLettersMatch()
    ensures Sub("\U{17F}\U{212A}-ant-\U{130}\U{131}") == "[REDACTED]"
  {
    var s := "\U{17F}\U{212A}-ant-\U{130}\U{131}";
    assert s[..|s|] == s && s[|s|..] == "";
    assert MatchesPrefix(ALTERNATIVES[0].prefix, s);
    MatchesExactly(0, s, |s|);
    assert Sub("") == "";
  }

  // ---------- The event dictionary ----------

  /** A value of the event dictionary: a string, or anything else, which the processor does not look into. */
  datatype Value = Text(text: string) | Other(id: int)

  class EventDict {
    var keys: seq<string>
    var entries: map<string, Value>

    ghost predicate Valid()
      reads this
    {
      && (forall k :: k in keys <==> k in entries)
      && (forall i, j :: 0 <= i < j < |keys| ==> keys[i] != keys[j])
    }

    constructor (keys: seq<string>, entries: map<string, Value>)
      requires (forall k :: k in keys <==> k in entries)
      requires forall i, j :: 0 <= i < j < |keys| ==> keys[i] != keys[j]
      ensures Valid() && this.keys == keys && this.entries == entries
    {
      this.keys, this.entries := keys, entries;
    }

    /** scrub_secrets: overwrites the values of the dictionary while going through it. */
    method ScrubSecrets()
      requires Valid()
      modifies this
      ensures Valid() && keys == old(keys) && entries.Keys == old(entries.Keys)
      ensures forall k :: k in entries ==>
        match old(entries)[k]
        case Text(text) => entries[k] == Text(Sub(text))
        case Other(_) => entries[k] == old(entries)[k]
    {
      ghost var before := entries;
      for i := 0 to |keys|
        invariant keys == old(keys) && entries.Keys == old(entries.Keys)
        invariant forall j :: 0 <= j < |keys| ==>
          entries[keys[j]] == if j < i && before[keys[j]].Text? then Text(Sub(before[keys[j]].text)) else before[keys[j]]
      {
        var key := keys[i];
        var value := entries[key];
        if value.Text? {
          entries := entries[key := Text(Sub(value.text))];
        }
      }
    }
  }
}
