/** Publication trailers in commit messages: what `publish` writes and `reconcile` reads back. */
module Trailers {
  /** The characters `str.splitlines` ends a line at. */
  predicate LineBreak(c: char) {
    c in {'\n', '\r', '\U{0B}', '\U{0C}', '\U{1C}', '\U{1D}', '\U{1E}', '\U{85}', '\U{2028}', '\U{2029}'}
  }

  predicate Space(c: char) {
    LineBreak(c) || c in {' ', '\t', '\U{1F}', '\U{A0}', '\U{1680}', '\U{202F}', '\U{205F}', '\U{3000}'}
    || '\U{2000}' <= c <= '\U{200A}'
  }

  predicate OneLine(text: string) {
    forall i :: 0 <= i < |text| ==> !LineBreak(text[i])
  }

  /** The length of the break a text starts with. */
  function BreakLength(text: string): nat
    requires text != ""
  {
    if text[0] == '\r' && |text| > 1 && text[1] == '\n' then 2 else 1
  }

  /** The lines of a text whose current line has already begun with `begun`. */
  function LinesFrom(begun: string, text: string): seq<string>
    decreases |text|
  {
    if text == "" then (if begun == "" then [] else [begun])
    else if LineBreak(text[0]) then [begun] + LinesFrom("", text[BreakLength(text)..])
    else LinesFrom(begun + [text[0]], text[1..])
  }

  function Lines(text: string): seq<string> {
    LinesFrom("", text)
  }

  function Count(lines: seq<string>, line: string): nat {
    if lines == [] then 0 else (if lines[0] == line then 1 else 0) + Count(lines[1..], line)
  }

  const OPERATION: string := "Hamsterdan-Operation: "
  const DIGEST: string := "Hamsterdan-Payload-Digest: "

  function OperationLine(operation: string): string {
    OPERATION + operation
  }

  function DigestLine(digest: string): string {
    DIGEST + digest
  }

  function Trailer(operation: string, digest: string): string {
    OperationLine(operation) + "\n" + (DigestLine(digest) + "\n")
  }

  function CommitMessage(proposed: string, operation: string, digest: string): string {
    proposed + "\n\n" + Trailer(operation, digest)
  }

  // ---------------------------------------------------------------- admission of the proposed part

  function StripLeft(text: string): string {
    if text != "" && Space(text[0]) then StripLeft(text[1..]) else text
  }

  function StripRight(text: string): string {
    if text != "" && Space(text[|text| - 1]) then StripRight(text[..|text| - 1]) else text
  }

  function Lower(c: char): char {
    if 'A' <= c <= 'Z' then (c as int + 32) as char else c
  }

  /** Full case folding, character by character; `exotic` folds what is not ASCII. */
  function Fold(exotic: char -> string, text: string): string {
    if text == "" then ""
    else (if text[0] < '\U{80}' then [Lower(text[0])] else exotic(text[0])) + Fold(exotic, text[1..])
  }

  function Normal(exotic: char -> string, line: string): string {
    Fold(exotic, StripRight(StripLeft(line)))
  }

  predicate Reserved(exotic: char -> string, line: string) {
    "hamsterdan-operation:" <= Normal(exotic, line) || "hamsterdan-payload-digest:" <= Normal(exotic, line)
  }

  predicate ValidMessage(exotic: char -> string, proposed: string) {
    forall line :: line in Lines(proposed) ==> !Reserved(exotic, line)
  }

  // ---------------------------------------------------------------- reading back

  lemma CountJoin(a: seq<string>, b: seq<string>, line: string)
    ensures Count(a + b, line) == Count(a, line) + Count(b, line)
  {
    if a == [] {
      assert a + b == b;
    } else {
      assert (a + b)[1..] == a[1..] + b;
      CountJoin(a[1..], b, line);
    }
  }

  lemma {:induction false} CountAbsent(lines: seq<string>, line: string)
    ensures Count(lines, line) > 0 <==> line in lines
  {
    if lines != [] { CountAbsent(lines[1..], line); }
  }

  /** A text without breaks only extends the line that has begun. */
  lemma {:induction false} LinesThrough(begun: string, plain: string, rest: string)
    requires OneLine(plain)
    ensures LinesFrom(begun, plain + rest) == LinesFrom(begun + plain, rest)
    decreases |plain|
  {
    if plain == "" {
      assert plain + rest == rest && begun + plain == begun;
    } else {
      assert (plain + rest)[1..] == plain[1..] + rest;
      LinesThrough(begun + [plain[0]], plain[1..], rest);
      assert begun + [plain[0]] + plain[1..] == begun + plain;
    }
  }

  lemma LineThenRest(plain: string, rest: string)
    requires OneLine(plain)
    ensures Lines(plain + "\n" + rest) == [plain] + Lines(rest)
  {
    LinesThrough("", plain, "\n" + rest);
    assert plain + "\n" + rest == plain + ("\n" + rest) && "" + plain == plain;
    assert ("\n" + rest)[1..] == rest;
  }

  lemma BlankLine(begun: string, rest: string)
    ensures LinesFrom(begun, "\n\n" + rest) == [begun, ""] + Lines(rest)
  {
    var text := "\n\n" + rest;
    assert text[1..] == "\n" + rest && text[1..][1..] == rest;
    assert LinesFrom("", "\n" + rest) == [""] + LinesFrom("", rest);
  }

  /** Whatever precedes a blank line, the lines after it read the same: a non-empty line occurs as
      often as in both parts together. */
  lemma {:induction false} LinesAcrossBlank(begun: string, text: string, rest: string, line: string)
    requires line != ""
    ensures Count(LinesFrom(begun, text + "\n\n" + rest), line)
            == Count(LinesFrom(begun, text), line) + Count(Lines(rest), line)
    decreases |text|
  {
    var whole := text + "\n\n" + rest;
    if text == "" {
      assert whole == "\n\n" + rest;
      BlankLine(begun, rest);
      CountJoin([begun, ""], Lines(rest), line);
      assert Count([begun, ""], line) == Count(LinesFrom(begun, text), line);
    } else if text == "\r" {
      assert whole[2..] == "\n" + rest && ("\n" + rest)[1..] == rest;
      assert LinesFrom("", "\n" + rest) == [""] + Lines(rest);
      assert LinesFrom(begun, whole) == [begun, ""] + Lines(rest);
      CountJoin([begun, ""], Lines(rest), line);
      assert text[1..] == "";
      assert LinesFrom(begun, text) == [begun];
    } else if LineBreak(text[0]) {
      var n := BreakLength(text);
      assert BreakLength(whole) == n && whole[n..] == text[n..] + "\n\n" + rest;
      LinesAcrossBlank("", text[n..], rest, line);
      CountJoin([begun], LinesFrom("", text[n..]), line);
      CountJoin([begun], LinesFrom("", whole[n..]), line);
    } else {
      assert whole[1..] == text[1..] + "\n\n" + rest;
      LinesAcrossBlank(begun + [text[0]], text[1..], rest, line);
    }
  }

  lemma {:induction false} StripRightKeeps(text: string, n: nat)
    requires 0 < n <= |text| && !Space(text[n - 1])
    ensures n <= |StripRight(text)| && StripRight(text)[..n] == text[..n]
  {
    if Space(text[|text| - 1]) {
      StripRightKeeps(text[..|text| - 1], n);
    }
  }

  lemma {:induction false} FoldJoin(exotic: char -> string, a: string, b: string)
    ensures Fold(exotic, a + b) == Fold(exotic, a) + Fold(exotic, b)
  {
    if a == "" {
      assert a + b == b;
    } else {
      assert (a + b)[1..] == a[1..] + b;
      FoldJoin(exotic, a[1..], b);
    }
  }

  lemma PrefixFolds(exotic: char -> string, line: string, prefix: string, reserved: string)
    requires prefix <= line && |prefix| > 0 && !Space(prefix[0]) && !Space(prefix[|prefix| - 1])
    requires Fold(exotic, prefix) == reserved
    ensures reserved <= Normal(exotic, line)
  {
    assert StripLeft(line) == line;
    var kept := StripRight(line);
    assert kept == prefix + kept[|prefix|..] by { StripRightKeeps(line, |prefix|); }
    FoldJoin(exotic, prefix, kept[|prefix|..]);
  }

  lemma {:induction false} FoldsTo(exotic: char -> string, text: string, lower: string)
    requires LowersTo(text, lower)
    ensures Fold(exotic, text) == lower
  {
    if text != "" { FoldsTo(exotic, text[1..], lower[1..]); }
  }

  predicate LowersTo(text: string, lower: string) {
    |text| == |lower| && forall i :: 0 <= i < |text| ==> text[i] < '\U{80}' && Lower(text[i]) == lower[i]
  }

  lemma ReservedLowers()
    ensures LowersTo("Hamsterdan-Operation:", "hamsterdan-operation:")
    ensures LowersTo("Hamsterdan-Payload-Digest:", "hamsterdan-payload-digest:")
  {
  }

  lemma OperationLineStart(value: string)
    ensures "Hamsterdan-Operation:" <= OperationLine(value)
  {
    assert OPERATION == "Hamsterdan-Operation:" + " ";
    assert OperationLine(value) == "Hamsterdan-Operation:" + (" " + value);
  }

  lemma DigestLineStart(value: string)
    ensures "Hamsterdan-Payload-Digest:" <= DigestLine(value)
  {
    assert DIGEST == "Hamsterdan-Payload-Digest:" + " ";
    assert DigestLine(value) == "Hamsterdan-Payload-Digest:" + (" " + value);
  }

  lemma StartIsReserved(exotic: char -> string, line: string, prefix: string, reserved: string)
    requires prefix <= line && |prefix| > 0 && prefix[0] == 'H' && prefix[|prefix| - 1] == ':'
    requires LowersTo(prefix, reserved)
    ensures reserved <= Normal(exotic, line)
  {
    FoldsTo(exotic, prefix, reserved);
    PrefixFolds(exotic, line, prefix, reserved);
  }

  lemma TrailerLinesAreReserved(exotic: char -> string, value: string)
    ensures Reserved(exotic, OperationLine(value)) && Reserved(exotic, DigestLine(value))
  {
    ReservedLowers();
    OperationLineStart(value);
    DigestLineStart(value);
    StartIsReserved(exotic, OperationLine(value), "Hamsterdan-Operation:", "hamsterdan-operation:");
    StartIsReserved(exotic, DigestLine(value), "Hamsterdan-Payload-Digest:", "hamsterdan-payload-digest:");
  }

  lemma TrailerLines(operation: string, digest: string)
    requires OneLine(operation) && OneLine(digest)
    ensures Lines(Trailer(operation, digest)) == [OperationLine(operation), DigestLine(digest)]
  {
    LineThenRest(OperationLine(operation), DigestLine(digest) + "\n");
    LineThenRest(DigestLine(digest), "");
    assert DigestLine(digest) + "\n" + "" == DigestLine(digest) + "\n";
  }

  lemma LinesDiffer(operation: string, digest: string, operation': string)
    ensures OperationLine(operation) != DigestLine(digest)
    ensures OperationLine(operation) == OperationLine(operation') ==> operation == operation'
  {
    assert OperationLine(operation)[11] == 'O' && DigestLine(digest)[11] == 'P';
    assert OperationLine(operation)[|OPERATION|..] == operation;
    assert OperationLine(operation')[|OPERATION|..] == operation';
  }

  /** A reserved line occurs in an admitted message only as one of the two trailer lines. */
  lemma OwnLine(exotic: char -> string, proposed: string, operation: string, digest: string, line: string)
    requires ValidMessage(exotic, proposed) && OneLine(operation) && OneLine(digest)
    ensures Reserved(exotic, line) && line != "" ==>
              Count(Lines(CommitMessage(proposed, operation, digest)), line)
              == (if OperationLine(operation) == line then 1 else 0) + (if DigestLine(digest) == line then 1 else 0)
  {
    if Reserved(exotic, line) && line != "" {
      CountAbsent(Lines(proposed), line);
      LinesAcrossBlank("", proposed, Trailer(operation, digest), line);
      TrailerLines(operation, digest);
      var lines := [OperationLine(operation), DigestLine(digest)];
      assert lines[1..] == [DigestLine(digest)] && lines[1..][1..] == [];
      assert Count(lines[1..], line) == if DigestLine(digest) == line then 1 else 0;
    }
  }

  /** Write/read: an admitted message carries the line of its own operation and its own digest
      exactly once each, and of no other operation or digest, whatever the proposed text says. */
  lemma MessageCarriesOwnTrailer(exotic: char -> string, proposed: string, operation: string, digest: string,
                                 operation': string, digest': string)
    requires ValidMessage(exotic, proposed) && OneLine(operation) && OneLine(digest)
    ensures var lines := Lines(CommitMessage(proposed, operation, digest));
            && Count(lines, OperationLine(operation')) == (if operation' == operation then 1 else 0)
            && Count(lines, DigestLine(digest')) == (if digest' == digest then 1 else 0)
  {
    OwnLine(exotic, proposed, operation, digest, OperationLine(operation'));
    OwnLine(exotic, proposed, operation, digest, DigestLine(digest'));
    TrailerLinesAreReserved(exotic, operation');
    TrailerLinesAreReserved(exotic, digest');
    LinesDiffer(operation, digest, operation');
    LinesDiffer(operation', digest, operation);
    LinesDiffer(operation, digest', operation);
    assert DigestLine(digest)[|DIGEST|..] == digest && DigestLine(digest')[|DIGEST|..] == digest';
  }

  lemma {:induction false} LinesAreSingle(begun: string, text: string)
    requires OneLine(begun)
    ensures forall line :: line in LinesFrom(begun, text) ==> OneLine(line)
    decreases |text|
  {
    if text != "" {
      if LineBreak(text[0]) {
        LinesAreSingle("", text[BreakLength(text)..]);
      } else {
        LinesAreSingle(begun + [text[0]], text[1..]);
      }
    }
  }
}
