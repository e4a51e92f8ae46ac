/** String operations that several of the sources use. */
module Strings {
  /** `word in s` and `s.includes(word)`. */
  predicate Includes(s: string, word: string) {
    |word| <= |s| && (s[..|word|] == word || Includes(s[1..], word))
  }

  /** Without the leading characters of a class. */
  function TrimStart(s: string, drop: char -> bool): string {
    if s != "" && drop(s[0]) then TrimStart(s[1..], drop) else s
  }

  function TrimEnd(s: string, drop: char -> bool): string {
    if s != "" && drop(s[|s| - 1]) then TrimEnd(s[..|s| - 1], drop) else s
  }

  function Trim(s: string, drop: char -> bool): string {
    TrimEnd(TrimStart(s, drop), drop)
  }

  /** The maximal stretches without a separator; Python's `split()`. */
  function Split(s: string, separator: char -> bool): seq<string> {
    if s == "" then []
    else
      var rest := Split(s[1..], separator);
      if separator(s[0]) then rest
      else if |s| == 1 || separator(s[1]) || rest == [] then [[s[0]]] + rest
      else [[s[0]] + rest[0]] + rest[1..]
  }

  /** What ECMAScript's `trim` removes. */
  predicate IsSpace(c: char) {
    || c in {'\t', '\n', '\U{0B}', '\U{0C}', '\r', ' ', '\U{A0}', '\U{1680}'}
    || '\U{2000}' <= c <= '\U{200A}'
    || c in {'\U{2028}', '\U{2029}', '\U{202F}', '\U{205F}', '\U{3000}', '\U{FEFF}'}
  }

  /** The text is some text, the word, and some text. */
  ghost predicate Says(s: string, word: string) {
    exists pre: string, post: string :: s == pre + word + post
  }

  lemma IncludesIff(s: string, word: string)
    ensures Includes(s, word) <==> Says(s, word)
  {
    if Includes(s, word) {
      var pre, post := Surroundings(s, word);
    }
    forall pre: string, post: string | s == pre + word + post
      ensures Includes(s, word)
    {
      SurroundedIsIncluded(pre, word, post);
    }
  }

  lemma {:induction false} Surroundings(s: string, word: string) returns (pre: string, post: string)
    requires Includes(s, word)
    ensures s == pre + word + post
  {
    if s[..|word|] == word {
      pre, post := "", s[|word|..];
    } else {
      pre, post := Surroundings(s[1..], word);
      pre := [s[0]] + pre;
    }
  }

  lemma {:induction false} SurroundedIsIncluded(pre: string, word: string, post: string)
    ensures Includes(pre + word + post, word)
  {
    var s := pre + word + post;
    if pre == "" {
      assert s[..|word|] == word;
    } else {
      SurroundedIsIncluded(pre[1..], word, post);
      assert s[1..] == pre[1..] + word + post;
    }
  }

  predicate All(s: string, drop: char -> bool) {
    forall i :: 0 <= i < |s| ==> drop(s[i])
  }

  /** `core` is what is left between two stretches of dropped characters; it does not start or end with another. */
  predicate IsMiddle(pre: string, core: string, post: string, drop: char -> bool) {
    All(pre, drop) && All(post, drop) && (core != "" ==> !drop(core[0]) && !drop(core[|core| - 1]))
  }

  lemma TrimIsMiddle(s: string, drop: char -> bool) returns (pre: string, post: string)
    ensures s == pre + Trim(s, drop) + post && IsMiddle(pre, Trim(s, drop), post, drop)
  {
    pre := StartIsDropped(s, drop);
    post := EndIsDropped(TrimStart(s, drop), drop);
    TrimStartKeeps(s, drop);
    assert s == pre + (Trim(s, drop) + post);
    var t := Trim(s, drop);
    assert t != "" ==> TrimStart(s, drop)[0] == t[0];
  }

  lemma MiddleIsUnique(pre: string, core: string, post: string, pre': string, core': string, post': string,
                       drop: char -> bool)
    requires pre + core + post == pre' + core' + post'
    requires IsMiddle(pre, core, post, drop) && IsMiddle(pre', core', post', drop)
    ensures core == core'
  {
    var s := pre + core + post;
    assert forall i :: 0 <= i < |pre| ==> s[i] == pre[i];
    assert forall i :: 0 <= i < |pre'| ==> s[i] == pre'[i];
    assert forall i :: 0 <= i < |core| ==> s[|pre| + i] == core[i];
    assert forall i :: 0 <= i < |core'| ==> s[|pre'| + i] == core'[i];
    assert forall i :: 0 <= i < |post| ==> s[|pre| + |core| + i] == post[i];
    assert forall i :: 0 <= i < |post'| ==> s[|pre'| + |core'| + i] == post'[i];
    if core != "" && core' != "" {
      assert !drop(s[|pre|]) && !drop(s[|pre'|]);
      assert |pre| == |pre'|;
      var last, last' := |pre| + |core| - 1, |pre'| + |core'| - 1;
      assert !drop(s[last]) && !drop(s[last']);
      assert last == last';
      assert core == s[|pre|..last + 1] == core';
    }
  }

  /** Trimming leaves exactly the middle of a text. */
  lemma TrimIs(pre: string, core: string, post: string, drop: char -> bool)
    requires IsMiddle(pre, core, post, drop)
    ensures Trim(pre + core + post, drop) == core
  {
    var pre', post' := TrimIsMiddle(pre + core + post, drop);
    MiddleIsUnique(pre, core, post, pre', Trim(pre + core + post, drop), post', drop);
  }

  lemma {:induction false} StartIsDropped(s: string, drop: char -> bool) returns (pre: string)
    ensures s == pre + TrimStart(s, drop) && All(pre, drop)
  {
    pre := "";
    if s != "" && drop(s[0]) {
      var rest := StartIsDropped(s[1..], drop);
      pre := [s[0]] + rest;
    }
  }

  lemma {:induction false} EndIsDropped(s: string, drop: char -> bool) returns (post: string)
    ensures s == TrimEnd(s, drop) + post && All(post, drop)
    ensures var t := TrimEnd(s, drop); t != "" ==> !drop(t[|t| - 1])
  {
    post := "";
    if s != "" && drop(s[|s| - 1]) {
      var rest := EndIsDropped(s[..|s| - 1], drop);
      post := rest + [s[|s| - 1]];
    }
  }

  /** Nothing is left exactly of a text that consists of dropped characters. */
  lemma TrimmedAwayIff(s: string, drop: char -> bool)
    ensures Trim(s, drop) == "" <==> forall i :: 0 <= i < |s| ==> drop(s[i])
  {
    TrimStartKeeps(s, drop);
    TrimEndKeeps(TrimStart(s, drop), drop);
  }

  lemma {:induction false} TrimStartKeeps(s: string, drop: char -> bool)
    ensures var t := TrimStart(s, drop);
      && (t != "" ==> !drop(t[0]))
      && (t == "" <==> forall i :: 0 <= i < |s| ==> drop(s[i]))
  {
    if s != "" && drop(s[0]) {
      TrimStartKeeps(s[1..], drop);
      assert forall i :: 1 <= i < |s| ==> s[i] == s[1..][i - 1];
    }
  }

  lemma {:induction false} TrimEndKeeps(s: string, drop: char -> bool)
    ensures s != "" && !drop(s[0]) ==> TrimEnd(s, drop) != ""
  {
    if s != "" && drop(s[|s| - 1]) {
      TrimEndKeeps(s[..|s| - 1], drop);
    }
  }

  /** A word by itself is one stretch. */
  lemma {:induction false} SplitWord(w: string, separator: char -> bool)
    requires w != "" && forall i :: 0 <= i < |w| ==> !separator(w[i])
    ensures Split(w, separator) == [w]
  {
    assert w == [w[0]] + w[1..];
    if |w| > 1 {
      SplitWord(w[1..], separator);
    } else {
      assert w[1..] == "" && Split(w[1..], separator) == [];
      assert [w[0]] == w;
    }
  }

  lemma SplitStep(s: string, separator: char -> bool)
    requires s != ""
    ensures var rest := Split(s[1..], separator);
      Split(s, separator) ==
        if separator(s[0]) then rest
        else if |s| == 1 || separator(s[1]) || rest == [] then [[s[0]]] + rest
        else [[s[0]] + rest[0]] + rest[1..]
  {
  }

  /** A separator ends one stretch and begins the next. */
  lemma {:induction false} SplitAtSeparator(u: string, c: char, v: string, separator: char -> bool)
    requires separator(c)
    ensures Split(u + [c] + v, separator) == Split(u, separator) + Split(v, separator)
  {
    hide Split;
    var s := u + [c] + v;
    SplitStep(s, separator);
    if u == "" {
      assert s[1..] == v;
      SplitNothing(separator);
    } else {
      SplitStep(u, separator);
      SplitAtSeparator(u[1..], c, v, separator);
      assert s[1..] == u[1..] + [c] + v;
      if |u| == 1 {
        SplitNothing(separator);
      } else if !separator(u[1]) {
        SplitNonEmpty(u[1..], separator);
      }
    }
  }

  lemma SplitNothing(separator: char -> bool)
    ensures Split("", separator) == []
  {
  }

  lemma SplitNonEmpty(s: string, separator: char -> bool)
    requires s != "" && !separator(s[0])
    ensures Split(s, separator) != []
  {
  }
}
