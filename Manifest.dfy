/**
  The checksum manifest scan of OVFConfig.parseCheckSumFile: the manifest is
  read line by line as bufio.Reader.ReadString('\n') delivers it, each line
  is split into fields, and the first line that names the source file in
  the BSD dialect (`TYPE (name) = hash`) or the GNU dialect
  (`hash [*]name`) decides the result.
*/
module Manifest {
  import opened Text
  import opened Errors

  /** What one line, or a whole manifest, decides. */
  datatype Verdict =
    | NoMatch                // the line does not name the file; scanning goes on
    | Match(hash: string)    // the hash, exactly as written in the manifest
    | Crash(panic: Panic)    // the Go code indexes past the fields of the line

  /**
    Length of what ReadString('\n') returns at the front of `text`: up to
    and including the first newline, or all of `text` when it has none.
  */
  function LineLen(text: string): (n: nat)
    ensures n <= |text|
    ensures text != [] ==> 0 < n
    ensures forall i :: 0 <= i < n - 1 ==> text[i] != '\n'
    ensures 0 < n < |text| ==> text[n - 1] == '\n'
  {
    if text == [] then 0 else if text[0] == '\n' then 1 else 1 + LineLen(text[1..])
  }

  /** The successive non-empty strings ReadString('\n') returns, up to end of input. */
  function Lines(text: string): (r: seq<string>)
    decreases |text|
  {
    if text == [] then [] else
      var n := LineLen(text);
      [text[..n]] + Lines(text[n..])
  }

  function Concat(lines: seq<string>): string {
    if lines == [] then [] else lines[0] + Concat(lines[1..])
  }

  /** Reading the lines loses nothing: they make up the text again. */
  lemma {:induction false} LinesCoverText(text: string)
    ensures Concat(Lines(text)) == text
    decreases |text|
  {
    if text != [] {
      var n := LineLen(text);
      LinesCoverText(text[n..]);
      assert text[..n] + text[n..] == text;
    }
  }

  /** A line ending in its only newline is read as one line, and reading resumes after it. */
  lemma LinesCons(line: string, rest: string)
    requires IsLine(line)
    ensures Lines(line + rest) == [line] + Lines(rest)
  {
    var t := line + rest;
    assert LineLen(t) == |line| by {
      LineLenOfLine(line, rest);
    }
    assert t[..|line|] == line;
    assert t[|line|..] == rest;
  }

  lemma {:induction false} LineLenOfLine(line: string, rest: string)
    requires IsLine(line)
    ensures LineLen(line + rest) == |line|
    decreases |line|
  {
    if |line| > 1 {
      assert (line + rest)[1..] == line[1..] + rest;
      LineLenOfLine(line[1..], rest);
    }
  }

  /**
    One iteration of the scan loop. A line of fewer than two fields is
    skipped. When the first field, lower-cased, is the checksum type the
    line is read as BSD: it matches only if the second field is the base
    name in parentheses, and then its hash is the fourth field, which the
    Go code reads without checking that the line has one. Otherwise the line
    is read as GNU: one leading `*` is dropped from the second field, which
    must then equal the base name exactly, and the hash is the first field.
  */
  function MatchLine(line: string, checksumType: string, base: string): (v: Verdict)
    ensures |Fields(line)| < 2 ==> v == NoMatch
    ensures v.Match? ==> v.hash == Fields(line)[0] || (3 < |Fields(line)| && v.hash == Fields(line)[3])
    ensures v.Crash? ==> v.panic == IndexOutOfRange(3, |Fields(line)|) && |Fields(line)| < 4
  {
    var parts := Fields(line);
    if |parts| < 2 then NoMatch
    else if Lower(parts[0]) == checksumType then
      if parts[1] == "(" + base + ")" then
        if 3 < |parts| then Match(parts[3]) else Crash(IndexOutOfRange(3, |parts|))
      else NoMatch
    else
      var name := if parts[1][0] == '*' then parts[1][1..] else parts[1];
      if name == base then Match(parts[0]) else NoMatch
  }

  /** The scan over a sequence of lines: the first line that decides, decides. */
  function Scan(lines: seq<string>, checksumType: string, base: string): (v: Verdict)
    ensures v.Match? ==> IsWord(v.hash)
    ensures v.Crash? ==> v.panic.IndexOutOfRange? && v.panic.index == 3 && v.panic.length < 4
  {
    if lines == [] then NoMatch
    else
      var v := MatchLine(lines[0], checksumType, base);
      if v.NoMatch? then Scan(lines[1..], checksumType, base) else v
  }

  /** The manifest scan over the raw text of a manifest. */
  function ParseManifest(text: string, checksumType: string, base: string): Verdict {
    Scan(Lines(text), checksumType, base)
  }

  /** Lines after the first deciding line are never looked at. */
  lemma {:induction false} ScanAppend(a: seq<string>, b: seq<string>, checksumType: string, base: string)
    ensures Scan(a + b, checksumType, base)
         == if Scan(a, checksumType, base).NoMatch? then Scan(b, checksumType, base) else Scan(a, checksumType, base)
  {
    if a != [] {
      assert (a + b)[0] == a[0];
      assert (a + b)[1..] == a[1..] + b;
      ScanAppend(a[1..], b, checksumType, base);
    } else {
      assert a + b == b;
    }
  }

  /** Nothing is found exactly when no line decides. */
  lemma {:induction false} ScanNoMatch(lines: seq<string>, checksumType: string, base: string)
    ensures Scan(lines, checksumType, base).NoMatch?
        <==> forall i :: 0 <= i < |lines| ==> MatchLine(lines[i], checksumType, base).NoMatch?
  {
    if lines != [] {
      ScanNoMatch(lines[1..], checksumType, base);
      assert forall i :: 1 <= i < |lines| ==> lines[i] == lines[1..][i - 1];
    }
  }

  /** The scan's verdict is that of the first line that decides. */
  lemma {:induction false} ScanFirstDecisive(lines: seq<string>, checksumType: string, base: string, k: nat)
    requires k < |lines|
    requires !MatchLine(lines[k], checksumType, base).NoMatch?
    requires forall i :: 0 <= i < k ==> MatchLine(lines[i], checksumType, base).NoMatch?
    ensures Scan(lines, checksumType, base) == MatchLine(lines[k], checksumType, base)
  {
    if k > 0 {
      assert forall i :: 0 <= i < k - 1 ==> lines[1..][i] == lines[i + 1];
      ScanFirstDecisive(lines[1..], checksumType, base, k - 1);
    }
  }

  /** The BSD dialect line `TYPE (name) = hash`. */
  function BsdLine(typeToken: string, name: string, hash: string): string {
    typeToken + " (" + name + ") = " + hash + "\n"
  }

  /** The GNU dialect line `hash  name`, or `hash *name` in binary mode. */
  function GnuLine(hash: string, name: string, binary: bool): string {
    hash + (if binary then " *" else "  ") + name + "\n"
  }

  /** A parenthesised name is one field. */
  lemma ParenthesisedIsWord(name: string)
    requires IsWord(name)
    ensures IsWord("(" + name + ")")
  {
    assert forall i :: 1 <= i < |name| + 1 ==> ("(" + name + ")")[i] == name[i - 1];
  }

  lemma BsdLineShape(typeToken: string, name: string, hash: string)
    ensures BsdLine(typeToken, name, hash)
         == typeToken + " " + (("(" + name + ")") + " " + ("=" + " " + (hash + "\n")))
  {
  }

  lemma BsdLineFields(typeToken: string, name: string, hash: string)
    requires IsWord(typeToken) && IsWord(name) && IsWord(hash)
    ensures Fields(BsdLine(typeToken, name, hash)) == [typeToken, "(" + name + ")", "=", hash]
  {
    var paren := "(" + name + ")";
    ParenthesisedIsWord(name);
    FieldsOfLastWord(hash);
    FieldsOfSpaced("=", hash + "\n");
    FieldsOfSpaced(paren, "=" + " " + (hash + "\n"));
    FieldsOfSpaced(typeToken, paren + " " + ("=" + " " + (hash + "\n")));
    BsdLineShape(typeToken, name, hash);
  }

  lemma GnuLineShape(hash: string, name: string, binary: bool)
    ensures binary ==> GnuLine(hash, name, binary) == hash + " " + ("*" + name + "\n")
    ensures !binary ==> GnuLine(hash, name, binary) == hash + " " + (" " + (name + "\n"))
  {
  }

  lemma GnuLineFields(hash: string, name: string, binary: bool)
    requires IsWord(hash) && IsWord(name)
    ensures Fields(GnuLine(hash, name, binary)) == [hash, if binary then "*" + name else name]
  {
    GnuLineShape(hash, name, binary);
    if binary {
      assert IsWord("*" + name) by {
        assert forall i :: 1 <= i < |name| + 1 ==> ("*" + name)[i] == name[i - 1];
      }
      FieldsOfLastWord("*" + name);
      FieldsOfSpaced(hash, "*" + name + "\n");
    } else {
      var tail := " " + (name + "\n");
      FieldsOfLastWord(name);
      assert tail[1..] == name + "\n";
      assert Fields(tail) == Fields(name + "\n");
      FieldsOfSpaced(hash, tail);
    }
  }

  /** A BSD line for the file yields its hash, whatever the case of the type token. */
  lemma BsdLineMatches(typeToken: string, name: string, hash: string)
    requires IsWord(typeToken) && IsWord(name) && IsWord(hash)
    ensures MatchLine(BsdLine(typeToken, name, hash), Lower(typeToken), name) == Match(hash)
  {
    BsdLineFields(typeToken, name, hash);
  }

  /**
    A BSD line for another file is skipped even when the GNU reading of its
    fields would match: the GNU check is not tried once the type token matched.
  */
  lemma BsdLineOtherFile(typeToken: string, other: string, hash: string, name: string)
    requires IsWord(typeToken) && IsWord(other) && IsWord(hash)
    requires other != name
    ensures MatchLine(BsdLine(typeToken, other, hash), Lower(typeToken), name) == NoMatch
  {
    BsdLineFields(typeToken, other, hash);
    assert ("(" + other + ")")[1..|other| + 1] == other;
    assert ("(" + name + ")")[1..|name| + 1] == name;
  }

  /** A GNU line for the file yields its hash, unless the hash itself reads as the checksum type. */
  lemma GnuLineMatches(hash: string, name: string, binary: bool, checksumType: string)
    requires IsWord(hash) && IsWord(name)
    requires binary || name[0] != '*'
    requires Lower(hash) != checksumType
    ensures MatchLine(GnuLine(hash, name, binary), checksumType, name) == Match(hash)
  {
    GnuLineFields(hash, name, binary);
    if binary {
      assert ("*" + name)[0] == '*' && ("*" + name)[1..] == name;
    }
  }

  /** A GNU line whose hash field equals the checksum type is taken as BSD, and skipped. */
  lemma GnuLineShadowedByType(hash: string, name: string, binary: bool)
    requires IsWord(hash) && IsWord(name)
    ensures MatchLine(GnuLine(hash, name, binary), Lower(hash), name) == NoMatch
  {
    GnuLineFields(hash, name, binary);
  }

  /**
    A BSD line that names the file but stops after `=` makes the Go code
    index a fourth field that is not there.
  */
  lemma TruncatedBsdLineCrashes(typeToken: string, name: string)
    requires IsWord(typeToken) && IsWord(name)
    ensures MatchLine(typeToken + " (" + name + ") =\n", Lower(typeToken), name) == Crash(IndexOutOfRange(3, 3))
  {
    var paren := "(" + name + ")";
    ParenthesisedIsWord(name);
    FieldsOfLastWord("=");
    FieldsOfSpaced(paren, "=" + "\n");
    FieldsOfSpaced(typeToken, paren + " " + ("=" + "\n"));
    TruncatedShape(typeToken, name);
  }

  lemma TruncatedShape(typeToken: string, name: string)
    ensures typeToken + " (" + name + ") =\n" == typeToken + " " + (("(" + name + ")") + " " + ("=" + "\n"))
  {
  }

  /** Scanning a line in front of others. */
  lemma ScanCons(line: string, lines: seq<string>, checksumType: string, base: string)
    ensures Scan([line] + lines, checksumType, base)
         == var v := MatchLine(line, checksumType, base);
            if v.NoMatch? then Scan(lines, checksumType, base) else v
  {
    assert ([line] + lines)[1..] == lines;
  }

  /** A text without newline is one line; with a newline added it is still one line. */
  lemma UnterminatedLine(text: string)
    requires text != [] && forall i :: 0 <= i < |text| ==> text[i] != '\n'
    ensures Lines(text) == [text]
    ensures Lines(text + "\n") == [text + "\n"]
  {
    LinesOfUnterminated(text);
    LinesOfTerminated(text);
  }

  lemma LinesOfUnterminated(text: string)
    requires text != [] && forall i :: 0 <= i < |text| ==> text[i] != '\n'
    ensures Lines(text) == [text]
  {
    var n := LineLen(text);
    assert n == |text|;
    assert text[..n] == text && text[n..] == [];
  }

  lemma LinesOfTerminated(text: string)
    requires forall i :: 0 <= i < |text| ==> text[i] != '\n'
    ensures Lines(text + "\n") == [text + "\n"]
  {
    var t := text + "\n";
    assert IsLine(t) by {
      assert forall i :: 0 <= i < |t| - 1 ==> t[i] == text[i];
    }
    LinesCons(t, []);
    assert t + [] == t;
  }

  /** A lone newline is an empty line, which decides nothing. */
  lemma NewlineOnly(checksumType: string, base: string)
    ensures ParseManifest("\n", checksumType, base) == NoMatch
  {
    LinesCons("\n", []);
    assert "\n" + [] == "\n";
    assert "\n"[1..] == [];
    assert Fields("\n") == [];
    ScanCons("\n", [], checksumType, base);
  }

  /** When the first line of `text` is complete, adding a newline only changes what follows it. */
  lemma CompleteFirstLine(text: string)
    requires text != []
    requires LineLen(text) < |text| || text[LineLen(text) - 1] == '\n'
    ensures Lines(text + "\n") == [text[..LineLen(text)]] + Lines(text[LineLen(text)..] + "\n")
  {
    var n := LineLen(text);
    var line, rest := text[..n], text[n..];
    assert line[|line| - 1] == '\n';
    assert forall i :: 0 <= i < |line| - 1 ==> line[i] != '\n';
    LinesCons(line, rest + "\n");
    SplitAppend(text, n, "\n");
  }

  lemma SplitAppend(text: string, n: nat, tail: string)
    requires n <= |text|
    ensures text + tail == text[..n] + (text[n..] + tail)
  {
  }

  /** The last line without its newline has the same fields, so the same verdict. */
  lemma UnterminatedVerdict(text: string, checksumType: string, base: string)
    requires text != [] && forall i :: 0 <= i < |text| ==> text[i] != '\n'
    ensures ParseManifest(text + "\n", checksumType, base) == ParseManifest(text, checksumType, base)
  {
    UnterminatedLine(text);
    FieldsAppendSpace(text, '\n');
    assert text + "\n" == text + ['\n'];
    ScanCons(text, [], checksumType, base);
    ScanCons(text + "\n", [], checksumType, base);
  }

  /**
    A final line without a newline is still examined: a manifest and the
    same manifest with a newline added resolve alike.
  */
  lemma {:induction false} TrailingNewlineIrrelevant(text: string, checksumType: string, base: string)
    ensures ParseManifest(text + "\n", checksumType, base) == ParseManifest(text, checksumType, base)
    decreases |text|
  {
    if text == [] {
      NewlineOnly(checksumType, base);
      assert text + "\n" == "\n";
    } else {
      var n := LineLen(text);
      if n < |text| || text[n - 1] == '\n' {
        CompleteFirstLine(text);
        ScanCons(text[..n], Lines(text[n..]), checksumType, base);
        ScanCons(text[..n], Lines(text[n..] + "\n"), checksumType, base);
        TrailingNewlineIrrelevant(text[n..], checksumType, base);
      } else {
        UnterminatedVerdict(text, checksumType, base);
      }
    }
  }

  /** A complete line: it ends in its only newline. */
  predicate IsLine(line: string) {
    line != [] && line[|line| - 1] == '\n' && forall i :: 0 <= i < |line| - 1 ==> line[i] != '\n'
  }

  /**
    The shape of the manifests in the package's tests: an empty first line
    and two entries; the second decides when the first does not.
  */
  lemma TwoEntryManifest(first: string, second: string, checksumType: string, base: string)
    requires IsLine(first) && IsLine(second)
    ensures ParseManifest("\n" + first + second, checksumType, base)
         == var v := MatchLine(first, checksumType, base);
            if v.NoMatch? then MatchLine(second, checksumType, base) else v
  {
    TwoEntryLines(first, second);
    TwoEntryScan(first, second, checksumType, base);
  }

  lemma TwoEntryLines(first: string, second: string)
    requires IsLine(first) && IsLine(second)
    ensures Lines("\n" + first + second) == ["\n", first, second]
  {
    LeadingEmptyLine(first + second);
    assert "\n" + (first + second) == "\n" + first + second;
    TwoLines(first, second);
  }

  lemma TwoEntryScan(first: string, second: string, checksumType: string, base: string)
    ensures Scan(["\n", first, second], checksumType, base)
         == var v := MatchLine(first, checksumType, base);
            if v.NoMatch? then MatchLine(second, checksumType, base) else v
  {
    EmptyLineNoMatch(checksumType, base);
    ScanCons("\n", [first, second], checksumType, base);
    ScanCons(first, [second], checksumType, base);
    ScanCons(second, [], checksumType, base);
  }

  lemma LeadingEmptyLine(rest: string)
    ensures Lines("\n" + rest) == ["\n"] + Lines(rest)
  {
    LinesCons("\n", rest);
  }

  lemma TwoLines(first: string, second: string)
    requires IsLine(first) && IsLine(second)
    ensures Lines(first + second) == [first, second]
  {
    LinesCons(first, second);
    LinesCons(second, []);
    assert second + [] == second;
  }

  lemma EmptyLineNoMatch(checksumType: string, base: string)
    ensures MatchLine("\n", checksumType, base) == NoMatch
  {
    assert "\n"[1..] == [];
    assert Fields("\n") == [];
  }

  /**
    The BSD-dialect manifest of the package's tests, for any tokens: an
    empty line, an entry for another file, then the entry for the file.
    The scan yields the second hash (`baZ` for `the-OS.ova` in the tests),
    with or without the final newline.
  */
  lemma BsdManifestResolves(typeToken: string, other: string, name: string, otherHash: string, hash: string)
    requires IsWord(typeToken) && IsWord(other) && IsWord(name) && IsWord(otherHash) && IsWord(hash)
    requires other != name
    ensures ParseManifest("\n" + BsdLine(typeToken, other, otherHash) + BsdLine(typeToken, name, hash), Lower(typeToken), name)
         == Match(hash)
    ensures ParseManifest("\n" + BsdLine(typeToken, other, otherHash) + BsdUnterminated(typeToken, name, hash), Lower(typeToken), name)
         == Match(hash)
  {
    var first, second := BsdLine(typeToken, other, otherHash), BsdLine(typeToken, name, hash);
    BsdLineIsLine(typeToken, other, otherHash);
    BsdLineIsLine(typeToken, name, hash);
    BsdLineOtherFile(typeToken, other, otherHash, name);
    BsdLineMatches(typeToken, name, hash);
    TwoEntryManifest(first, second, Lower(typeToken), name);
    var short := "\n" + first + BsdUnterminated(typeToken, name, hash);
    assert short + "\n" == "\n" + first + second;
    TrailingNewlineIrrelevant(short, Lower(typeToken), name);
  }

  /**
    The GNU-dialect manifest of the package's tests, for any tokens: an
    empty line, the binary-mode entry for the file, then a text-mode entry
    for another file. The scan yields the first hash (`bAr0` for
    `the-OS.ova` in the tests), with or without the final newline.
  */
  lemma GnuManifestResolves(hash: string, name: string, otherHash: string, other: string, checksumType: string)
    requires IsWord(hash) && IsWord(name) && IsWord(otherHash) && IsWord(other)
    requires Lower(hash) != checksumType
    ensures ParseManifest("\n" + GnuLine(hash, name, true) + GnuLine(otherHash, other, false), checksumType, name)
         == Match(hash)
    ensures ParseManifest("\n" + GnuLine(hash, name, true) + GnuUnterminated(otherHash, other, false), checksumType, name)
         == Match(hash)
  {
    var first, second := GnuLine(hash, name, true), GnuLine(otherHash, other, false);
    GnuLineIsLine(hash, name, true);
    GnuLineIsLine(otherHash, other, false);
    GnuLineMatches(hash, name, true, checksumType);
    TwoEntryManifest(first, second, checksumType, name);
    var short := "\n" + first + GnuUnterminated(otherHash, other, false);
    assert short + "\n" == "\n" + first + second;
    TrailingNewlineIrrelevant(short, checksumType, name);
  }

  /** A BSD entry with no newline after it, as the last line of a manifest. */
  function BsdUnterminated(typeToken: string, name: string, hash: string): string {
    typeToken + " (" + name + ") = " + hash
  }

  /** A GNU entry with no newline after it, as the last line of a manifest. */
  function GnuUnterminated(hash: string, name: string, binary: bool): string {
    hash + (if binary then " *" else "  ") + name
  }

  lemma BsdLineIsLine(typeToken: string, name: string, hash: string)
    requires IsWord(typeToken) && IsWord(name) && IsWord(hash)
    ensures IsLine(BsdLine(typeToken, name, hash))
  {
    var line := BsdLine(typeToken, name, hash);
    assert line == BsdUnterminated(typeToken, name, hash) + "\n";
    var body := BsdUnterminated(typeToken, name, hash);
    assert forall i :: 0 <= i < |body| ==> !IsSpace(body[i]) || body[i] == ' ';
    assert forall i :: 0 <= i < |line| - 1 ==> line[i] == body[i];
  }

  lemma GnuLineIsLine(hash: string, name: string, binary: bool)
    requires IsWord(hash) && IsWord(name)
    ensures IsLine(GnuLine(hash, name, binary))
  {
    var line := GnuLine(hash, name, binary);
    var body := GnuUnterminated(hash, name, binary);
    assert line == body + "\n";
    assert forall i :: 0 <= i < |body| ==> !IsSpace(body[i]) || body[i] == ' ';
    assert forall i :: 0 <= i < |line| - 1 ==> line[i] == body[i];
  }
}
