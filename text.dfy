/** Python string behaviour that the backend relies on, stated over `string`
    (a sequence of Unicode code points, as a Python `str` is), together with
    the Option/Result wrappers that stand for `None` and for raised errors. */
module Text {

  datatype Option<+T> = None | Some(value: T)

  datatype Result<+T, +E> = Ok(value: T) | Err(error: E)

  function Min(a: int, b: int): int { if a <= b then a else b }

  /** `c.isspace()`: the characters Python's `str.split()` and `str.strip()` treat as whitespace. */
  predicate IsSpace(c: char) {
    c == ' ' || ('\t' <= c <= '\r') || ('\U{1C}' <= c <= '\U{1F}') || c == '\U{85}' || c == '\U{A0}'
    || c == '\U{1680}' || ('\U{2000}' <= c <= '\U{200A}') || c == '\U{2028}' || c == '\U{2029}'
    || c == '\U{202F}' || c == '\U{205F}' || c == '\U{3000}'
  }

  predicate AllSpace(s: string) {
    forall i :: 0 <= i < |s| ==> IsSpace(s[i])
  }

  predicate NoSpace(s: string) {
    forall i :: 0 <= i < |s| ==> !IsSpace(s[i])
  }

  /** A token of `str.split()`: non-empty and free of whitespace. */
  predicate IsWord(w: string) {
    w != [] && NoSpace(w)
  }

  /** `s[:n]` for a non-negative `n`. */
  function Take(s: string, n: nat): (r: string)
    ensures |r| == Min(n, |s|) && r == s[..|r|]
  {
    if n <= |s| then s[..n] else s
  }

  function StartsWith(s: string, prefix: string): bool {
    |prefix| <= |s| && s[..|prefix|] == prefix
  }

  /** `"".join(parts)` */
  function Concat(parts: seq<string>): (r: string)
  {
    if parts == [] then [] else parts[0] + Concat(parts[1..])
  }

  lemma {:induction false} ConcatAppend(parts: seq<string>, last: string)
    ensures Concat(parts + [last]) == Concat(parts) + last
  {
    if parts == [] {
      assert parts + [last] == [last];
    } else {
      assert (parts + [last])[1..] == parts[1..] + [last];
      ConcatAppend(parts[1..], last);
    }
  }

  /** `sep.join(parts)` */
  function Join(parts: seq<string>, sep: string): string
  {
    if parts == [] then []
    else if |parts| == 1 then parts[0]
    else parts[0] + sep + Join(parts[1..], sep)
  }

  // ---------------------------------------------------------------------
  // Whitespace runs, str.split() and str.strip()

  function SpanSpaces(s: string): (n: nat)
    ensures n <= |s|
    ensures AllSpace(s[..n])
    ensures n < |s| ==> !IsSpace(s[n])
  {
    if s == [] || !IsSpace(s[0]) then 0 else 1 + SpanSpaces(s[1..])
  }

  function SpanSpacesBack(s: string): (n: nat)
    ensures n <= |s|
    ensures AllSpace(s[|s| - n..])
    ensures n < |s| ==> !IsSpace(s[|s| - 1 - n])
  {
    if s == [] || !IsSpace(s[|s| - 1]) then 0 else 1 + SpanSpacesBack(s[..|s| - 1])
  }

  /** The first index at or after `i` that does not hold whitespace (or `|s|`). */
  function SkipSpaces(s: string, i: nat): (j: nat)
    requires i <= |s|
    ensures i <= j <= |s|
    ensures forall k :: i <= k < j ==> IsSpace(s[k])
    ensures j < |s| ==> !IsSpace(s[j])
    decreases |s| - i
  {
    if i == |s| || !IsSpace(s[i]) then i else SkipSpaces(s, i + 1)
  }

  /** The first index at or after `i` that holds whitespace (or `|s|`). */
  function SkipWord(s: string, i: nat): (j: nat)
    requires i <= |s|
    ensures i <= j <= |s|
    ensures forall k :: i <= k < j ==> !IsSpace(s[k])
    ensures j < |s| ==> IsSpace(s[j])
    decreases |s| - i
  {
    if i == |s| || IsSpace(s[i]) then i else SkipWord(s, i + 1)
  }

  /** The tokens of `s[i:].split()`. */
  function WordsFrom(s: string, i: nat): seq<string>
    requires i <= |s|
    decreases |s| - i
  {
    var a := SkipSpaces(s, i);
    if a == |s| then []
    else
      var b := SkipWord(s, a);
      [s[a..b]] + WordsFrom(s, b)
  }

  /** `s.split()`: the maximal runs of non-whitespace characters, in order. */
  function Words(s: string): seq<string>
  {
    WordsFrom(s, 0)
  }

  /** Every token of `s[i:].split()` is a word. */
  lemma {:induction false} WordsFromAreWords(s: string, i: nat)
    requires i <= |s|
    ensures forall w :: w in WordsFrom(s, i) ==> IsWord(w)
    decreases |s| - i
  {
    var a := SkipSpaces(s, i);
    if a < |s| {
      var b := SkipWord(s, a);
      assert IsWord(s[a..b]);
      WordsFromAreWords(s, b);
    }
  }

  lemma WordsAreWords(s: string)
    ensures forall w :: w in Words(s) ==> IsWord(w)
  {
    WordsFromAreWords(s, 0);
  }

  /** `" ".join(s.split())`: whitespace runs collapsed to one space, ends trimmed. */
  function Normalize(s: string): string
  {
    Join(Words(s), " ")
  }

  /** `s.strip()` */
  function Strip(s: string): (r: string)
    ensures r == [] || (!IsSpace(r[0]) && !IsSpace(r[|r| - 1]))
    ensures SpanSpaces(s) + |r| <= |s| && r == s[SpanSpaces(s)..SpanSpaces(s) + |r|]
    ensures forall i :: SpanSpaces(s) + |r| <= i < |s| ==> IsSpace(s[i])
  {
    var t := s[SpanSpaces(s)..];
    t[..|t| - SpanSpacesBack(t)]
  }

  /** Stripping drops only whitespace, so a character absent from `s` is absent from `s.strip()`. */
  lemma StripInside(s: string, c: char)
    requires c !in s
    ensures c !in Strip(s)
  {
    var a := SpanSpaces(s);
    var r := Strip(s);
    assert r == s[a..a + |r|];
  }

  lemma StripIdempotent(s: string)
    ensures Strip(Strip(s)) == Strip(s)
  {
    var r := Strip(s);
    if r != [] {
      assert SpanSpaces(r) == 0;
      assert SpanSpacesBack(r) == 0;
    }
  }

  lemma {:induction false} SpanSpacesAllSpace(s: string)
    requires forall i :: 0 <= i < |s| ==> IsSpace(s[i])
    ensures SpanSpaces(s) == |s|
  {
    if s != [] {
      SpanSpacesAllSpace(s[1..]);
    }
  }

  /** `s.strip()` is empty exactly when `s` holds whitespace only. */
  lemma StripEmptyIff(s: string)
    ensures Strip(s) == [] <==> forall i :: 0 <= i < |s| ==> IsSpace(s[i])
  {
    if forall i :: 0 <= i < |s| ==> IsSpace(s[i]) {
      SpanSpacesAllSpace(s);
    } else {
      var a := SpanSpaces(s);
      assert a < |s|;
      var t := s[a..];
      assert !IsSpace(t[0]);
      assert SpanSpacesBack(t) < |t|;
    }
  }

  // ---------------------------------------------------------------------
  // Lower-casing

  function LowerChar(c: char): char
  {
    if 'A' <= c <= 'Z' then (c as int + 32) as char else c
  }

  /** `s.lower()`, restricted to the ASCII letters. */
  function Lower(s: string): (r: string)
    ensures |r| == |s|
    ensures forall i :: 0 <= i < |s| ==> r[i] == LowerChar(s[i])
  {
    seq(|s|, i requires 0 <= i < |s| => LowerChar(s[i]))
  }

  lemma LowerIdempotent(s: string)
    ensures Lower(Lower(s)) == Lower(s)
  {
  }

  // ---------------------------------------------------------------------
  // str.split(sep) for a one-character separator

  /** The first index at or after `i` holding `d` (or `|s|`). */
  function NextIndex(s: string, d: char, i: nat): (j: nat)
    requires i <= |s|
    ensures i <= j <= |s|
    ensures forall k :: i <= k < j ==> s[k] != d
    ensures j < |s| ==> s[j] == d
    decreases |s| - i
  {
    if i == |s| || s[i] == d then i else NextIndex(s, d, i + 1)
  }

  /** The pieces of `s[i:].split(d)`. */
  function SplitFrom(s: string, d: char, i: nat): (parts: seq<string>)
    requires i <= |s|
    ensures |parts| >= 1
    ensures forall p :: p in parts ==> d !in p
    decreases |s| - i
  {
    var j := NextIndex(s, d, i);
    if j == |s| then [s[i..]] else [s[i..j]] + SplitFrom(s, d, j + 1)
  }

  /** `s.split(d)`: always at least one piece, none containing `d`. */
  function SplitOn(s: string, d: char): (parts: seq<string>)
    ensures |parts| >= 1
    ensures forall p :: p in parts ==> d !in p
  {
    SplitFrom(s, d, 0)
  }

  lemma JoinCons(head: string, rest: seq<string>, sep: string)
    requires |rest| >= 1
    ensures Join([head] + rest, sep) == head + sep + Join(rest, sep)
  {
    assert ([head] + rest)[1..] == rest;
  }

  /** One piece, the separator at `j`, and the join of the pieces after it. */
  lemma JoinPieces(s: string, d: char, i: nat, j: nat, rest: seq<string>)
    requires i <= j < |s| && s[j] == d && |rest| >= 1 && Join(rest, [d]) == s[j + 1..]
    ensures Join([s[i..j]] + rest, [d]) == s[i..]
  {
    JoinCons(s[i..j], rest, [d]);
    SliceAround(s, i, j);
  }

  lemma SliceAround(s: string, i: nat, j: nat)
    requires i <= j < |s|
    ensures s[i..j] + [s[j]] + s[j + 1..] == s[i..]
  {
    assert s[i..] == s[i..j] + s[j..];
  }

  lemma {:induction false} JoinSplitFrom(s: string, d: char, i: nat)
    requires i <= |s|
    ensures Join(SplitFrom(s, d, i), [d]) == s[i..]
    decreases |s| - i
  {
    var j := NextIndex(s, d, i);
    if j < |s| {
      var rest := SplitFrom(s, d, j + 1);
      JoinSplitFrom(s, d, j + 1);
      JoinPieces(s, d, i, j, rest);
    }
  }

  /** Splitting on `d` and joining with `d` gives back the original string. */
  lemma JoinSplitOn(s: string, d: char)
    ensures Join(SplitOn(s, d), [d]) == s
  {
    JoinSplitFrom(s, d, 0);
    assert s[0..] == s;
  }

  // ---------------------------------------------------------------------
  // str.find and the `in` operator on strings

  /** `t` occurs in `s` at index `j`. */
  predicate OccursAt(s: string, t: string, j: int) {
    0 <= j && j + |t| <= |s| && s[j..j + |t|] == t
  }

  lemma OccursAtShift(s: string, t: string, j: int)
    requires |s| > 0 && j >= 1
    ensures OccursAt(s, t, j) <==> OccursAt(s[1..], t, j - 1)
  {
    if j + |t| <= |s| {
      assert s[j..j + |t|] == s[1..][j - 1..j - 1 + |t|];
    }
  }

  /** `s.find(t)`: the first index where `t` occurs in `s`, or -1. */
  function Find(s: string, t: string): (r: int)
    ensures r >= -1
    ensures r >= 0 ==> OccursAt(s, t, r)
    ensures forall j :: 0 <= j && (r < 0 || j < r) ==> !OccursAt(s, t, j)
    decreases |s|
  {
    if |t| > |s| then -1
    else if s[..|t|] == t then 0
    else
      var k := Find(s[1..], t);
      assert forall j :: 1 <= j ==> (OccursAt(s, t, j) <==> OccursAt(s[1..], t, j - 1)) by {
        forall j | 1 <= j { OccursAtShift(s, t, j); }
      }
      if k < 0 then -1 else k + 1
  }

  /** `t in s` for strings */
  predicate Contains(s: string, t: string) {
    Find(s, t) >= 0
  }

  /** The index of the last `c` in `s`, or -1. */
  function LastIndexOf(s: string, c: char): (i: int)
    ensures -1 <= i < |s|
    ensures i >= 0 ==> s[i] == c
    ensures forall j :: i < j < |s| ==> s[j] != c
  {
    if s == [] then -1
    else if s[|s| - 1] == c then |s| - 1
    else LastIndexOf(s[..|s| - 1], c)
  }

  // ---------------------------------------------------------------------
  // str(n) for integers

  function DigitChar(d: nat): char
    requires d < 10
  {
    "0123456789"[d]
  }

  function NatToString(n: nat): (r: string)
    ensures |r| >= 1
    ensures forall i :: 0 <= i < |r| ==> '0' <= r[i] <= '9'
    decreases n
  {
    if n < 10 then [DigitChar(n)] else NatToString(n / 10) + [DigitChar(n % 10)]
  }

  function IntToString(i: int): string
  {
    if i < 0 then "-" + NatToString(-i) else NatToString(i)
  }

  // ---------------------------------------------------------------------
  // Facts about str.split() and " ".join

  /** `s[k:]` and `t[i:]` are the same string. */
  predicate Agree(s: string, k: nat, t: string, i: nat) {
    k <= |s| && i <= |t| && |s| - k == |t| - i &&
    forall j :: k <= j < |s| ==> s[j] == t[j - k + i]
  }

  lemma {:induction false} SkipSpacesAgree(s: string, k: nat, t: string, i: nat)
    requires Agree(s, k, t, i)
    ensures SkipSpaces(s, k) == k + SkipSpaces(t, i) - i
    decreases |t| - i
  {
    if i < |t| {
      assert s[k] == t[i];
      if IsSpace(t[i]) {
        SkipSpacesAgree(s, k + 1, t, i + 1);
      }
    }
  }

  lemma {:induction false} SkipWordAgree(s: string, k: nat, t: string, i: nat)
    requires Agree(s, k, t, i)
    ensures SkipWord(s, k) == k + SkipWord(t, i) - i
    decreases |t| - i
  {
    if i < |t| {
      assert s[k] == t[i];
      if !IsSpace(t[i]) {
        SkipWordAgree(s, k + 1, t, i + 1);
      }
    }
  }

  lemma WordsFromCons(s: string, i: nat, a: nat, b: nat)
    requires i <= |s| && a == SkipSpaces(s, i) < |s| && b == SkipWord(s, a)
    ensures WordsFrom(s, i) == [s[a..b]] + WordsFrom(s, b)
  {
  }

  lemma WordsFromNil(s: string, i: nat)
    requires i <= |s| && SkipSpaces(s, i) == |s|
    ensures WordsFrom(s, i) == []
  {
  }

  /** Tokenising equal suffixes gives equal tokens. */
  lemma {:induction false} WordsFromAgree(s: string, k: nat, t: string, i: nat)
    requires Agree(s, k, t, i)
    ensures WordsFrom(s, k) == WordsFrom(t, i)
    decreases |t| - i
  {
    SkipSpacesAgree(s, k, t, i);
    var a := SkipSpaces(t, i);
    var a' := k + a - i;
    if a < |t| {
      SkipWordAgree(s, a', t, a);
      var b := SkipWord(t, a);
      var b' := a' + b - a;
      assert s[a'..b'] == t[a..b];
      WordsFromAgree(s, b', t, b);
      WordsFromCons(s, k, a', b');
      WordsFromCons(t, i, a, b);
    } else {
      WordsFromNil(s, k);
      WordsFromNil(t, i);
    }
  }

  /** Tokenising a suffix of `p + q` that starts inside `q` only looks at `q`. */
  lemma WordsFromShift(p: string, q: string, i: nat)
    requires i <= |q|
    ensures WordsFrom(p + q, |p| + i) == WordsFrom(q, i)
  {
    WordsFromAgree(p + q, |p| + i, q, i);
  }

  lemma {:induction false} SkipWordOfWord(w: string, rest: string, i: nat)
    requires IsWord(w) && i <= |w|
    requires rest == [] || IsSpace(rest[0])
    ensures SkipWord(w + rest, i) == |w|
    decreases |w| - i
  {
    if i < |w| {
      SkipWordOfWord(w, rest, i + 1);
    }
  }

  /** A word followed by a string that starts with whitespace tokenises as that word first. */
  lemma WordsOfWordThen(w: string, rest: string)
    requires IsWord(w)
    requires rest == [] || IsSpace(rest[0])
    ensures Words(w + rest) == [w] + Words(rest)
  {
    var s := w + rest;
    assert SkipSpaces(s, 0) == 0;
    SkipWordOfWord(w, rest, 0);
    assert s[0..|w|] == w;
    WordsFromShift(w, rest, 0);
  }

  /** A leading space does not change the tokens. */
  lemma WordsOfSpaceThen(t: string)
    ensures Words(" " + t) == Words(t)
  {
    assert SkipSpaces(" " + t, 0) == SkipSpaces(" " + t, 1);
    WordsFromShift(" ", t, 0);
  }

  /** Splitting words joined by single spaces gives the words back. */
  lemma {:induction false} WordsOfJoin(ws: seq<string>)
    requires forall w :: w in ws ==> IsWord(w)
    ensures Words(Join(ws, " ")) == ws
    decreases |ws|
  {
    if ws == [] {
    } else if |ws| == 1 {
      assert ws[0] in ws;
      WordsOfWordThen(ws[0], []);
      assert ws[0] + [] == ws[0];
    } else {
      assert ws[0] in ws;
      var tail := Join(ws[1..], " ");
      assert Join(ws, " ") == ws[0] + (" " + tail);
      WordsOfWordThen(ws[0], " " + tail);
      WordsOfSpaceThen(tail);
      WordsOfJoin(ws[1..]);
    }
  }

  /** Normalising whitespace twice is the same as once. */
  lemma NormalizeIdempotent(s: string)
    ensures Normalize(Normalize(s)) == Normalize(s)
    ensures Words(Normalize(s)) == Words(s)
  {
    WordsAreWords(s);
    WordsOfJoin(Words(s));
  }
}
