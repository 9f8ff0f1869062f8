/**
 * The Python string primitives the classification service relies on, over `seq<char>`:
 * `str.isspace`, `str.lower`, `str.split()`, `str.strip()`, `str.isalnum`, the substring
 * test `key in text`, and list comprehensions that filter (`[x for x in xs if keep(x)]`).
 */
module Strings {

  /** Python's `Optional[...]`. */
  datatype Option<+T> = None | Some(value: T)

  function Min(a: real, b: real): real { if a <= b then a else b }

  /**
   * Whitespace as `str.isspace`, `str.split()`, `str.strip()` and the regex class `\s`
   * see it: the ASCII controls 9-13 and 28-31, the space, and the Unicode separators.
   */
  predicate IsSpace(c: char) {
    var n := c as int;
    (9 <= n <= 13) || (28 <= n <= 32) || n == 0x85 || n == 0xA0 || n == 0x1680 ||
    (0x2000 <= n <= 0x200A) || n == 0x2028 || n == 0x2029 || n == 0x202F ||
    n == 0x205F || n == 0x3000
  }

  predicate IsUpper(c: char) { 'A' <= c <= 'Z' }

  predicate IsAlnum(c: char) { 'a' <= c <= 'z' || 'A' <= c <= 'Z' || '0' <= c <= '9' }

  /** `str.isalnum()`: at least one character, and every character a letter or a digit. */
  predicate IsAlnumString(s: string) {
    |s| > 0 && forall i :: 0 <= i < |s| ==> IsAlnum(s[i])
  }

  predicate NoUpper(s: string) { forall i :: 0 <= i < |s| ==> !IsUpper(s[i]) }

  function LowerChar(c: char): (r: char)
    ensures !IsUpper(r)
    ensures IsSpace(r) <==> IsSpace(c)
  {
    if IsUpper(c) then (c as int + 32) as char else c
  }

  /** `str.lower()`, on the ASCII letters. */
  function Lower(s: string): (r: string)
    ensures |r| == |s| && NoUpper(r)
    ensures forall i :: 0 <= i < |s| ==> (IsSpace(r[i]) <==> IsSpace(s[i]))
    ensures forall i :: 0 <= i < |s| && !IsUpper(s[i]) ==> r[i] == s[i]
    ensures forall i :: 0 <= i < |s| && IsUpper(s[i]) ==> r[i] as int == s[i] as int + 32
    ensures NoUpper(s) ==> r == s
  {
    seq(|s|, i requires 0 <= i < |s| => LowerChar(s[i]))
  }

  function LowerWords(ws: seq<string>): (r: seq<string>)
    ensures |r| == |ws|
  {
    seq(|ws|, i requires 0 <= i < |ws| => Lower(ws[i]))
  }

  /** Python's `key in text` on strings: `key` occurs as a contiguous piece of `text`. */
  predicate Contains(text: string, key: string) {
    exists i :: 0 <= i <= |text| && OccursAt(text, key, i)
  }

  predicate OccursAt(text: string, key: string, i: nat) {
    i + |key| <= |text| && text[i..i + |key|] == key
  }

  /** A piece of a text that holds a non-space character makes the text hold one too. */
  lemma ContainsVisible(text: string, key: string, j: nat)
    requires Contains(text, key) && j < |key| && !IsSpace(key[j])
    ensures exists k :: 0 <= k < |text| && !IsSpace(text[k])
  {
    var i :| 0 <= i <= |text| && OccursAt(text, key, i);
    assert text[i + j] == key[j];
  }

  /** The number of `keys` that occur in `text`: `sum(1 for k in keys if k in text)`. */
  function CountMatches(keys: seq<string>, text: string): (n: nat)
    ensures n <= |keys|
    ensures n == 0 <==> forall i :: 0 <= i < |keys| ==> !Contains(text, keys[i])
  {
    if keys == [] then 0
    else (if Contains(text, keys[0]) then 1 else 0) + CountMatches(keys[1..], text)
  }

  /** Lowercasing twice is lowercasing once. */
  lemma LowerIdempotent(s: string)
    ensures Lower(Lower(s)) == Lower(s)
  {
  }

  /** `CountMatches` counts the keys that occur: it is the length of the keys kept by `k in text`. */
  lemma {:induction false} CountMatchesIsFilter(keys: seq<string>, text: string)
    ensures CountMatches(keys, text) == |Filter(keys, k => Contains(text, k))|
  {
    if keys != [] {
      CountMatchesIsFilter(keys[1..], text);
      assert keys == [keys[0]] + keys[1..];
    }
  }

  /** The fraction `m / n` of a positive count `n` with `m <= n` lies in [0, 1], and is 0 only for `m == 0`. */
  lemma FractionBounds(m: nat, n: nat)
    requires 0 < n && m <= n
    ensures 0.0 <= m as real / n as real <= 1.0
    ensures m as real / n as real == 0.0 <==> m == 0
  {
    assert (m as real / n as real) * n as real == m as real;
  }

  // ---------------------------------------------------------------------------
  // Words: `str.split()` and its inverse
  // ---------------------------------------------------------------------------

  predicate IsWord(w: string) {
    |w| > 0 && forall i :: 0 <= i < |w| ==> !IsSpace(w[i])
  }

  predicate IsWordList(ws: seq<string>) {
    forall i :: 0 <= i < |ws| ==> IsWord(ws[i])
  }

  /** The leading whitespace removed: `str.lstrip()`. */
  function StripLeft(s: string): (r: string)
    ensures |r| <= |s| && r == s[|s| - |r|..]
    ensures r == [] || !IsSpace(r[0])
  {
    if s != [] && IsSpace(s[0]) then StripLeft(s[1..]) else s
  }

  /** The trailing whitespace removed: `str.rstrip()`. */
  function StripRight(s: string): (r: string)
    ensures |r| <= |s| && r == s[..|r|]
    ensures r == [] || !IsSpace(r[|r| - 1])
  {
    if s != [] && IsSpace(s[|s| - 1]) then StripRight(s[..|s| - 1]) else s
  }

  /** `str.strip()`. */
  function Strip(s: string): string {
    StripRight(StripLeft(s))
  }

  /** The longest prefix without whitespace. */
  function TakeWord(s: string): (w: string)
    ensures |w| <= |s| && w == s[..|w|]
    ensures forall i :: 0 <= i < |w| ==> !IsSpace(w[i])
    ensures |w| < |s| ==> IsSpace(s[|w|])
  {
    if s != [] && !IsSpace(s[0]) then [s[0]] + TakeWord(s[1..]) else []
  }

  function DropWord(s: string): string {
    s[|TakeWord(s)|..]
  }

  /** `str.split()` with no separator: the maximal runs of non-whitespace, in order. */
  function Split(s: string): (ws: seq<string>)
    ensures IsWordList(ws)
    decreases |s|
  {
    if s == [] then []
    else if IsSpace(s[0]) then Split(s[1..])
    else [TakeWord(s)] + Split(DropWord(s))
  }

  /** `" ".join(ws)`. */
  function Join(ws: seq<string>): string {
    if ws == [] then []
    else if |ws| == 1 then ws[0]
    else ws[0] + " " + Join(ws[1..])
  }

  /** No whitespace at either end. */
  predicate NoOuterSpace(s: string) {
    s == [] || (!IsSpace(s[0]) && !IsSpace(s[|s| - 1]))
  }

  /** No two whitespace characters side by side. */
  predicate NoSpaceRun(s: string) {
    forall i :: 0 <= i < |s| - 1 ==> !IsSpace(s[i]) || !IsSpace(s[i + 1])
  }

  /** Every whitespace character is a plain space. */
  predicate SpacesArePlain(s: string) {
    forall i :: 0 <= i < |s| && IsSpace(s[i]) ==> s[i] == ' '
  }

  lemma {:induction false} TakeWordOf(w: string, rest: string)
    requires forall i :: 0 <= i < |w| ==> !IsSpace(w[i])
    requires rest == [] || IsSpace(rest[0])
    ensures TakeWord(w + rest) == w
    decreases |w|
  {
    if w != [] {
      assert (w + rest)[1..] == w[1..] + rest;
      TakeWordOf(w[1..], rest);
    }
  }

  lemma {:induction false} SplitLeadingSpaces(s: string)
    ensures Split(StripLeft(s)) == Split(s)
    decreases |s|
  {
    if s != [] && IsSpace(s[0]) {
      SplitLeadingSpaces(s[1..]);
    }
  }

  /** Splitting a word followed by a space and more text yields the word first. */
  lemma SplitWordThen(w: string, rest: string)
    requires IsWord(w)
    ensures Split(w + " " + rest) == [w] + Split(rest)
  {
    var s := w + " " + rest;
    assert s == w + (" " + rest);
    TakeWordOf(w, " " + rest);
    assert DropWord(s) == " " + rest;
    assert (" " + rest)[1..] == rest;
  }

  lemma SplitWord(w: string)
    requires IsWord(w)
    ensures Split(w) == [w]
  {
    assert w == w + [];
    TakeWordOf(w, []);
  }

  /** Round trip: splitting the space-joined words gives the words back. */
  lemma {:induction false} SplitJoin(ws: seq<string>)
    requires IsWordList(ws)
    ensures Split(Join(ws)) == ws
    decreases |ws|
  {
    if |ws| == 1 {
      SplitWord(ws[0]);
    } else if |ws| > 1 {
      SplitWordThen(ws[0], Join(ws[1..]));
      SplitJoin(ws[1..]);
    }
  }

  lemma {:induction false} JoinEnds(ws: seq<string>)
    requires IsWordList(ws) && ws != []
    ensures |Join(ws)| >= |ws[0]|
    ensures Join(ws)[..|ws[0]|] == ws[0]
    ensures Join(ws)[|Join(ws)| - 1] == ws[|ws| - 1][|ws[|ws| - 1]| - 1]
    decreases |ws|
  {
    if |ws| > 1 {
      var w, rest := ws[0], ws[1..];
      var j := Join(rest);
      JoinEnds(rest);
      assert Join(ws) == w + (" " + j);
      assert (w + (" " + j))[..|w|] == w;
      assert rest[|rest| - 1] == ws[|ws| - 1];
      assert (w + (" " + j))[|w| + 1 + |j| - 1] == j[|j| - 1];
    }
  }

  /** The space-joined words have the shape `clean_text` promises. */
  lemma {:induction false} JoinShape(ws: seq<string>)
    requires IsWordList(ws)
    ensures NoOuterSpace(Join(ws)) && NoSpaceRun(Join(ws)) && SpacesArePlain(Join(ws))
    decreases |ws|
  {
    if |ws| > 1 {
      JoinShape(ws[1..]);
      JoinEnds(ws[1..]);
      GlueShape(ws[0], Join(ws[1..]));
    }
  }

  /** A word, a space and a well-shaped non-empty text make a well-shaped text. */
  lemma GlueShape(w: string, j: string)
    requires IsWord(w) && j != []
    requires NoOuterSpace(j) && NoSpaceRun(j) && SpacesArePlain(j)
    ensures NoOuterSpace(w + " " + j) && NoSpaceRun(w + " " + j) && SpacesArePlain(w + " " + j)
  {
    var s := w + " " + j;
    forall i | 0 <= i < |s| && IsSpace(s[i]) ensures s[i] == ' ' {
      if i > |w| { assert s[i] == j[i - |w| - 1]; }
    }
    forall i | 0 <= i < |s| - 1 ensures !IsSpace(s[i]) || !IsSpace(s[i + 1]) {
      if i > |w| { assert s[i] == j[i - |w| - 1] && s[i + 1] == j[i - |w|]; }
      else if i == |w| { assert s[i + 1] == j[0]; }
      else if i + 1 < |w| { assert s[i] == w[i]; }
    }
    assert s[0] == w[0] && s[|s| - 1] == j[|j| - 1];
  }

  lemma {:induction false} LowerJoin(ws: seq<string>)
    ensures Lower(Join(ws)) == Join(LowerWords(ws))
    decreases |ws|
  {
    if |ws| > 1 {
      LowerJoin(ws[1..]);
      assert LowerWords(ws)[1..] == LowerWords(ws[1..]);
      LowerConcat(ws[0] + " ", Join(ws[1..]));
      LowerConcat(ws[0], " ");
      assert Lower(" ") == " ";
    }
  }

  /** Lowercasing works character by character, so it distributes over concatenation. */
  lemma LowerConcat(a: string, b: string)
    ensures Lower(a + b) == Lower(a) + Lower(b)
  {
    assert forall i :: 0 <= i < |a + b| ==> Lower(a + b)[i] == (Lower(a) + Lower(b))[i];
  }

  lemma LowerWordList(ws: seq<string>)
    requires IsWordList(ws)
    ensures IsWordList(LowerWords(ws))
  {
  }

  lemma {:induction false} StripLeftDropsSpaces(s: string)
    ensures forall i :: 0 <= i < |s| - |StripLeft(s)| ==> IsSpace(s[i])
    decreases |s|
  {
    if s != [] && IsSpace(s[0]) {
      StripLeftDropsSpaces(s[1..]);
    }
  }

  lemma {:induction false} StripRightDropsSpaces(s: string)
    ensures forall i :: |StripRight(s)| <= i < |s| ==> IsSpace(s[i])
    decreases |s|
  {
    if s != [] && IsSpace(s[|s| - 1]) {
      StripRightDropsSpaces(s[..|s| - 1]);
    }
  }

  /** A text is empty after `strip()` exactly when it holds nothing but whitespace. */
  lemma StripEmpty(s: string)
    ensures Strip(s) == [] <==> forall i :: 0 <= i < |s| ==> IsSpace(s[i])
  {
    StripLeftDropsSpaces(s);
    StripRightDropsSpaces(StripLeft(s));
  }

  // ---------------------------------------------------------------------------
  // List comprehensions that filter
  // ---------------------------------------------------------------------------

  /** `[x for x in s if keep(x)]`. */
  function Filter<T(==,!new)>(s: seq<T>, keep: T -> bool): (r: seq<T>)
    ensures |r| <= |s|
    ensures forall i :: 0 <= i < |r| ==> keep(r[i])
    ensures forall x :: multiset(r)[x] == if keep(x) then multiset(s)[x] else 0
  {
    if s == [] then []
    else
      assert s == [s[0]] + s[1..];
      if keep(s[0]) then [s[0]] + Filter(s[1..], keep) else Filter(s[1..], keep)
  }

  /** Filtering keeps relative order: it distributes over concatenation. */
  lemma {:induction false} FilterConcat<T(!new)>(a: seq<T>, b: seq<T>, keep: T -> bool)
    ensures Filter(a + b, keep) == Filter(a, keep) + Filter(b, keep)
    decreases |a|
  {
    if a == [] {
      assert a + b == b;
    } else {
      assert (a + b)[1..] == a[1..] + b;
      FilterConcat(a[1..], b, keep);
    }
  }
}
