/**
  Models of the Go standard-library string helpers that the OVF builder
  relies on: strings.ToLower, strings.Fields (with unicode.IsSpace),
  filepath.Base on a Unix host, and the `%d` verb of fmt.Sprintf.
*/
module Text {

  /** unicode.IsSpace: the Latin-1 white space plus the other Unicode White_Space characters. */
  predicate IsSpace(c: char) {
    || c == ' ' || c == '\t' || c == '\n' || c == '\r' || c == '\U{0B}' || c == '\U{0C}'
    || c == '\U{85}' || c == '\U{A0}' || c == '\U{1680}'
    || ('\U{2000}' <= c <= '\U{200A}')
    || c == '\U{2028}' || c == '\U{2029}' || c == '\U{202F}' || c == '\U{205F}' || c == '\U{3000}'
  }

  predicate IsUpper(c: char) {
    'A' <= c <= 'Z'
  }

  function LowerChar(c: char): (d: char)
    ensures !IsUpper(d)
    ensures IsUpper(c) ==> d as int == c as int + 32
    ensures !IsUpper(c) ==> d == c
  {
    if IsUpper(c) then (c as int + 32) as char else c
  }

  /**
    strings.ToLower, restricted to the ASCII letters: every `A`..`Z` becomes
    its lower-case letter and every other character is kept.
  */
  function Lower(s: string): (r: string)
    ensures |r| == |s|
    ensures forall i :: 0 <= i < |s| ==> r[i] == LowerChar(s[i])
  {
    if s == [] then [] else [LowerChar(s[0])] + Lower(s[1..])
  }

  /** Text without upper-case letters is its own lower-case form. */
  lemma LowerOfLowerCase(s: string)
    requires forall i :: 0 <= i < |s| ==> !IsUpper(s[i])
    ensures Lower(s) == s
  {
  }

  /** A field as strings.Fields yields it: non-empty and free of white space. */
  predicate IsWord(w: string) {
    w != [] && forall i :: 0 <= i < |w| ==> !IsSpace(w[i])
  }

  /** Length of the run of non-space characters at the front of `s`. */
  function WordLen(s: string): (n: nat)
    ensures n <= |s|
    ensures forall i :: 0 <= i < n ==> !IsSpace(s[i])
    ensures n < |s| ==> IsSpace(s[n])
  {
    if s == [] || IsSpace(s[0]) then 0 else 1 + WordLen(s[1..])
  }

  /** strings.Fields: the maximal runs of non-space characters, in order. */
  function Fields(s: string): (r: seq<string>)
    ensures forall k :: 0 <= k < |r| ==> IsWord(r[k])
    decreases |s|
  {
    if s == [] then []
    else if IsSpace(s[0]) then Fields(s[1..])
    else
      var n := WordLen(s);
      [s[..n]] + Fields(s[n..])
  }

  /** Words joined by single spaces: the text whose fields are exactly those words. */
  function Join(ws: seq<string>): string {
    if ws == [] then []
    else if |ws| == 1 then ws[0]
    else ws[0] + " " + Join(ws[1..])
  }

  lemma {:induction false} WordLenOfWord(w: string, s: string)
    requires IsWord(w)
    requires s == [] || IsSpace(s[0])
    ensures WordLen(w + s) == |w|
    decreases |w|
  {
    if |w| > 1 {
      assert (w + s)[1..] == w[1..] + s;
      WordLenOfWord(w[1..], s);
    } else {
      assert (w + s)[1..] == s;
    }
  }

  /** A word followed by white space (or nothing) is the first field. */
  lemma FieldsOfWord(w: string, s: string)
    requires IsWord(w)
    requires s == [] || IsSpace(s[0])
    ensures Fields(w + s) == [w] + Fields(s)
  {
    WordLenOfWord(w, s);
    assert (w + s)[..|w|] == w;
    assert (w + s)[|w|..] == s;
  }

  /** A word and a space in front of the rest of the text: the word is the first field. */
  lemma FieldsOfSpaced(w: string, s: string)
    requires IsWord(w)
    ensures Fields(w + " " + s) == [w] + Fields(s)
  {
    assert w + " " + s == w + (" " + s);
    FieldsOfWord(w, " " + s);
    assert (" " + s)[1..] == s;
  }

  /** A word that ends its line is the last field. */
  lemma FieldsOfLastWord(w: string)
    requires IsWord(w)
    ensures Fields(w + "\n") == [w]
  {
    FieldsOfWord(w, "\n");
    assert "\n"[1..] == [];
  }

  /** Fields and Join are inverse on sequences of words. */
  lemma {:induction false} FieldsOfJoin(ws: seq<string>)
    requires forall k :: 0 <= k < |ws| ==> IsWord(ws[k])
    ensures Fields(Join(ws)) == ws
  {
    if |ws| == 1 {
      FieldsOfWord(ws[0], []);
      assert ws[0] + [] == ws[0];
    } else if |ws| > 1 {
      var rest := " " + Join(ws[1..]);
      assert Join(ws) == ws[0] + rest;
      FieldsOfWord(ws[0], rest);
      assert rest[1..] == Join(ws[1..]);
      FieldsOfJoin(ws[1..]);
      assert ws == [ws[0]] + ws[1..];
    }
  }

  lemma {:induction false} WordLenAppendSpace(s: string, c: char)
    requires IsSpace(c)
    ensures WordLen(s + [c]) == WordLen(s)
    decreases |s|
  {
    if s != [] && !IsSpace(s[0]) {
      assert (s + [c])[1..] == s[1..] + [c];
      WordLenAppendSpace(s[1..], c);
    }
  }

  /** Trailing white space adds no field (a line keeps its fields without its newline). */
  lemma {:induction false} FieldsAppendSpace(s: string, c: char)
    requires IsSpace(c)
    ensures Fields(s + [c]) == Fields(s)
    decreases |s|
  {
    if s == [] {
      assert Fields([c]) == Fields([c][1..]);
      assert [c][1..] == [];
    } else if IsSpace(s[0]) {
      assert (s + [c])[1..] == s[1..] + [c];
      FieldsAppendSpace(s[1..], c);
    } else {
      var n := WordLen(s);
      WordLenAppendSpace(s, c);
      assert (s + [c])[..n] == s[..n];
      assert (s + [c])[n..] == s[n..] + [c];
      FieldsAppendSpace(s[n..], c);
    }
  }

  /** `p` with every trailing `/` removed. */
  function TrimTrailingSlashes(p: string): (r: string)
    ensures |r| <= |p| && r == p[..|r|]
    ensures r == [] || r[|r| - 1] != '/'
    ensures forall i :: |r| <= i < |p| ==> p[i] == '/'
  {
    if p != [] && p[|p| - 1] == '/' then TrimTrailingSlashes(p[..|p| - 1]) else p
  }

  /** Index of the last `/` in `p`, or -1 when there is none. */
  function LastSlash(p: string): (i: int)
    ensures -1 <= i < |p|
    ensures 0 <= i ==> p[i] == '/'
    ensures forall j :: i < j < |p| ==> p[j] != '/'
  {
    if p == [] then -1
    else if p[|p| - 1] == '/' then |p| - 1
    else LastSlash(p[..|p| - 1])
  }

  /**
    filepath.Base on a Unix host: "." for the empty path, "/" for a path of
    slashes only, otherwise the last element once trailing slashes are gone.
  */
  function Base(path: string): (r: string)
    ensures r != []
    ensures r == "/" || '/' !in r
    ensures path == [] ==> r == "."
  {
    if path == [] then "."
    else
      var p := TrimTrailingSlashes(path);
      if p == [] then "/" else p[LastSlash(p) + 1..]
  }

  /** The base of `dir/name` is `name`, whatever `dir` holds. */
  lemma BaseOfPath(dir: string, name: string)
    requires name != [] && '/' !in name
    ensures Base(dir + "/" + name) == name
  {
    var p := dir + "/" + name;
    assert p[|p| - 1] == name[|name| - 1];
    assert TrimTrailingSlashes(p) == p;
    var i := LastSlash(p);
    assert p[|dir|] == '/';
    assert forall j :: |dir| < j < |p| ==> p[j] == name[j - |dir| - 1];
    assert i == |dir|;
    assert p[i + 1..] == name;
  }

  function DigitChar(d: nat): (c: char)
    requires d < 10
    ensures '0' <= c <= '9'
  {
    ('0' as int + d) as char
  }

  /** Decimal digits of `n`, most significant first, without leading zeros. */
  function NatString(n: nat): (r: string)
    ensures r != []
    ensures forall i :: 0 <= i < |r| ==> '0' <= r[i] <= '9'
    decreases n
  {
    if n < 10 then [DigitChar(n)] else NatString(n / 10) + [DigitChar(n % 10)]
  }

  /** The `%d` rendering of an integer: a `-` sign before the digits of a negative one. */
  function IntString(n: int): (r: string)
    ensures r != []
  {
    if n < 0 then "-" + NatString(-n) else NatString(n)
  }

  /** Value of a string of decimal digits (the inverse of NatString). */
  function DigitsValue(s: string): nat
    requires forall i :: 0 <= i < |s| ==> '0' <= s[i] <= '9'
  {
    if s == [] then 0 else DigitsValue(s[..|s| - 1]) * 10 + (s[|s| - 1] as int - '0' as int)
  }

  /** Value of an optionally signed decimal string (the inverse of IntString). */
  function IntValue(s: string): int
    requires s != []
    requires (s[0] == '-' || '0' <= s[0] <= '9') && forall i :: 1 <= i < |s| ==> '0' <= s[i] <= '9'
  {
    if s[0] == '-' then -(DigitsValue(s[1..]) as int) else DigitsValue(s)
  }

  lemma {:induction false} NatStringRoundTrip(n: nat)
    ensures DigitsValue(NatString(n)) == n
    decreases n
  {
    if n >= 10 {
      var s := NatString(n / 10);
      NatStringRoundTrip(n / 10);
      assert (s + [DigitChar(n % 10)])[..|s|] == s;
    }
  }

  /** Reading back the `%d` rendering of `n` gives `n`. */
  lemma IntStringRoundTrip(n: int)
    ensures IntValue(IntString(n)) == n
  {
    if n < 0 {
      NatStringRoundTrip(-n);
      assert IntString(n)[1..] == NatString(-n);
    } else {
      NatStringRoundTrip(n);
    }
  }
}
