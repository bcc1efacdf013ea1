/** Publication markers: the hidden final line that gives a comment its stable identity. */
module Markers {
  import opened Outcomes

  const KINDS: set<string> := {"conversation", "finding", "readiness", "reminder"}
  const BREAK: string := "\n\n"

  predicate Alphanumeric(c: char) {
    'A' <= c <= 'Z' || 'a' <= c <= 'z' || '0' <= c <= '9'
  }

  predicate OperationChar(c: char) {
    Alphanumeric(c) || c == '.' || c == '_' || c == ':' || c == '-'
  }

  predicate IsOperation(text: string) {
    1 <= |text| <= 128 && Alphanumeric(text[0]) && forall i :: 0 <= i < |text| ==> OperationChar(text[i])
  }

  predicate HexChar(c: char) {
    '0' <= c <= '9' || 'a' <= c <= 'f'
  }

  predicate IsHead(text: string) {
    |text| == 40 && forall i :: 0 <= i < |text| ==> HexChar(text[i])
  }

  predicate Admitted(kind: string, operation: string, head: string) {
    kind in KINDS && IsOperation(operation) && IsHead(head)
  }

  function Opening(kind: string, operation: string): string {
    "<!-- hamsterdan:" + kind + " operation=" + operation + " head="
  }

  function Marker(kind: string, operation: string, head: string): string {
    Opening(kind, operation) + head + " -->"
  }

  /** What is published: any body text, a blank line, the marker. */
  function Payload(body: string, marker: string): string {
    body + BREAK + marker
  }

  predicate EndsWith(text: string, suffix: string) {
    |suffix| <= |text| && text[|text| - |suffix|..] == suffix
  }

  predicate FinalMarker(body: string, marker: string) {
    body == marker || EndsWith(body, BREAK + marker)
  }

  // ---------------------------------------------------------------- recovering the head

  /** The position of the last blank line at or before `bound`. */
  function LastBreak(text: string, bound: nat): (r: Option<nat>)
    requires bound + 2 <= |text| || bound == 0
    ensures r.Some? ==> r.value + 2 <= |text| && text[r.value] == '\n' && text[r.value + 1] == '\n'
    ensures r.Some? ==> forall i :: r.value < i <= bound && i + 2 <= |text| ==>
              !(text[i] == '\n' && text[i + 1] == '\n')
    ensures r.None? ==> forall i :: 0 <= i <= bound && i + 2 <= |text| ==> !(text[i] == '\n' && text[i + 1] == '\n')
  {
    if bound + 2 <= |text| && text[bound] == '\n' && text[bound + 1] == '\n' then Some(bound)
    else if bound == 0 then None
    else LastBreak(text, bound - 1)
  }

  /** `text.rsplit` on the blank line, last part. */
  function Tail(text: string): string {
    if |text| < 2 then text
    else
      match LastBreak(text, |text| - 2)
      case None => text
      case Some(i) => text[i + 2..]
  }

  /** Full match of a tail against the marker pattern of (kind, operation) with any head. */
  function MatchOperation(kind: string, operation: string, tail: string): Option<string> {
    var opening := Opening(kind, operation);
    if |tail| == |opening| + 44 && tail[..|opening|] == opening
       && IsHead(tail[|opening|..|opening| + 40]) && tail[|opening| + 40..] == " -->"
    then Some(tail[|opening|..|opening| + 40])
    else None
  }

  function FindOperation(kind: string, operation: string, body: string): Option<string> {
    MatchOperation(kind, operation, Tail(body))
  }

  // ---------------------------------------------------------------- lemmas

  predicate Lacks(text: string, c: char) {
    forall i :: 0 <= i < |text| ==> text[i] != c
  }

  lemma AdmittedHasNoBreak(kind: string, operation: string, head: string)
    requires Admitted(kind, operation, head)
    ensures Lacks(kind, ' ') && Lacks(operation, ' ') && Lacks(head, ' ')
    ensures Lacks(Marker(kind, operation, head), '\n')
  {
    assert Lacks(kind, ' ') && Lacks(kind, '\n');
    assert Lacks(operation, '\n') && Lacks(head, '\n');
    LacksJoin("<!-- hamsterdan:", kind, '\n');
    LacksJoin("<!-- hamsterdan:" + kind, " operation=", '\n');
    LacksJoin("<!-- hamsterdan:" + kind + " operation=", operation, '\n');
    LacksJoin("<!-- hamsterdan:" + kind + " operation=" + operation, " head=", '\n');
    LacksJoin(Opening(kind, operation), head, '\n');
    LacksJoin(Opening(kind, operation) + head, " -->", '\n');
  }

  lemma LacksJoin(a: string, b: string, c: char)
    requires Lacks(a, c) && Lacks(b, c)
    ensures Lacks(a + b, c)
  {
  }

  /** A separator splits two equal texts at the same place when neither first part contains it. */
  lemma SplitsAlike(a: string, rest: string, a': string, rest': string)
    requires a + " " + rest == a' + " " + rest'
    requires Lacks(a, ' ') && Lacks(a', ' ')
    ensures a == a' && rest == rest'
  {
    var s := a + " " + rest;
    assert s[|a|] == ' ';
    assert (a' + " " + rest')[|a'|] == ' ';
    assert forall i :: 0 <= i < |a| ==> s[i] == a[i];
    assert forall i :: 0 <= i < |a'| ==> s[i] == a'[i];
    assert |a| == |a'|;
    assert s[..|a|] == a && s[..|a'|] == a';
    assert s[|a| + 1..] == rest && s[|a'| + 1..] == rest';
  }

  function AfterKind(operation: string, head: string): string {
    "operation=" + operation + " " + AfterOperation(head)
  }

  function AfterOperation(head: string): string {
    "head=" + head + " -->"
  }

  lemma MarkerUnfolds(kind: string, operation: string, head: string)
    ensures Marker(kind, operation, head) == "<!-- hamsterdan:" + (kind + " " + AfterKind(operation, head))
  {
    calc {
      Marker(kind, operation, head);
      "<!-- hamsterdan:" + kind + " operation=" + operation + " head=" + head + " -->";
      "<!-- hamsterdan:" + (kind + " " + ("operation=" + operation + " " + ("head=" + head + " -->")));
    }
  }

  lemma AfterKindIsInjective(operation: string, head: string, operation': string, head': string)
    requires AfterKind(operation, head) == AfterKind(operation', head')
    requires Lacks(operation, ' ') && Lacks(operation', ' ')
    ensures operation == operation' && AfterOperation(head) == AfterOperation(head')
  {
    var n := |"operation="|;
    assert AfterKind(operation, head)[n..] == operation + " " + AfterOperation(head);
    assert AfterKind(operation', head')[n..] == operation' + " " + AfterOperation(head');
    SplitsAlike(operation, AfterOperation(head), operation', AfterOperation(head'));
  }

  lemma MarkerIsInjective(kind: string, operation: string, head: string, kind': string, operation': string,
                          head': string)
    requires Admitted(kind, operation, head) && Admitted(kind', operation', head')
    requires Marker(kind, operation, head) == Marker(kind', operation', head')
    ensures kind == kind' && operation == operation' && head == head'
  {
    AdmittedHasNoBreak(kind, operation, head);
    AdmittedHasNoBreak(kind', operation', head');
    MarkerUnfolds(kind, operation, head);
    MarkerUnfolds(kind', operation', head');
    var n := |"<!-- hamsterdan:"|;
    assert Marker(kind, operation, head)[n..] == kind + " " + AfterKind(operation, head);
    assert Marker(kind', operation', head')[n..] == kind' + " " + AfterKind(operation', head');
    SplitsAlike(kind, AfterKind(operation, head), kind', AfterKind(operation', head'));
    AfterKindIsInjective(operation, head, operation', head');
    assert AfterOperation(head)[|"head="|..|"head="| + 40] == head;
    assert AfterOperation(head')[|"head="|..|"head="| + 40] == head';
  }

  lemma TailAfterBreak(body: string, marker: string)
    requires Lacks(marker, '\n') && |marker| >= 1 && EndsWith(body, BREAK + marker)
    ensures Tail(body) == marker
  {
    var at := |body| - |marker| - 2;
    var suffix := BREAK + marker;
    assert forall i :: 0 <= i < |suffix| ==> body[at + i] == suffix[i];
    assert body[at] == '\n' && body[at + 1] == '\n';
    assert forall i :: at + 2 <= i < |body| ==> body[i] == marker[i - at - 2];
    assert LastBreak(body, |body| - 2) == Some(at);
  }

  /** A marker is final exactly when it is what follows the last blank line. */
  lemma TailOfFinalMarker(body: string, marker: string)
    requires Lacks(marker, '\n') && |marker| >= 1
    ensures FinalMarker(body, marker) <==> Tail(body) == marker
  {
    if body != marker && Tail(body) == marker {
      var at := LastBreak(body, |body| - 2).value;
      assert body[at..] == BREAK + marker;
    }
    if body == marker {
      assert |body| >= 2 ==> LastBreak(body, |body| - 2).None?;
    } else if EndsWith(body, BREAK + marker) {
      TailAfterBreak(body, marker);
    }
  }

  /** A payload ends in its own marker and in no other, whatever its body says. */
  lemma PayloadHoldsOneMarker(body: string, marker: string, other: string)
    requires Lacks(marker, '\n') && Lacks(other, '\n') && |marker| >= 1 && |other| >= 1
    ensures FinalMarker(Payload(body, marker), other) <==> marker == other
  {
    var text := Payload(body, marker);
    assert text[|text| - |marker| - 2..] == BREAK + marker;
    TailOfFinalMarker(text, marker);
    TailOfFinalMarker(text, other);
  }

  /** Print/parse: a rendered payload is matched as final marker by its own triple only. */
  lemma PayloadMatchesOwnTriple(body: string, kind: string, operation: string, head: string,
                                kind': string, operation': string, head': string)
    requires Admitted(kind, operation, head) && Admitted(kind', operation', head')
    ensures FinalMarker(Payload(body, Marker(kind, operation, head)), Marker(kind', operation', head'))
            <==> kind == kind' && operation == operation' && head == head'
  {
    AdmittedHasNoBreak(kind, operation, head);
    AdmittedHasNoBreak(kind', operation', head');
    PayloadHoldsOneMarker(body, Marker(kind, operation, head), Marker(kind', operation', head'));
    if Marker(kind, operation, head) == Marker(kind', operation', head') {
      MarkerIsInjective(kind, operation, head, kind', operation', head');
    }
  }

  lemma MatchIsMarker(kind: string, operation: string, tail: string, head: string)
    requires IsHead(head)
    ensures MatchOperation(kind, operation, tail) == Some(head) <==> tail == Marker(kind, operation, head)
  {
    var opening := Opening(kind, operation);
    if MatchOperation(kind, operation, tail) == Some(head) {
      assert tail == tail[..|opening|] + tail[|opening|..|opening| + 40] + tail[|opening| + 40..];
    }
    if tail == Marker(kind, operation, head) {
      assert tail[..|opening|] == opening;
      assert tail[|opening|..|opening| + 40] == head;
      assert tail[|opening| + 40..] == " -->";
    }
  }

  /** The lookup by operation and the lookup by exact marker agree on every body text: the head
      it recovers is the head of the final marker. */
  lemma FindOperationIsFinalMarker(kind: string, operation: string, head: string, body: string)
    requires Admitted(kind, operation, head)
    ensures FindOperation(kind, operation, body) == Some(head)
            <==> FinalMarker(body, Marker(kind, operation, head))
  {
    AdmittedHasNoBreak(kind, operation, head);
    TailOfFinalMarker(body, Marker(kind, operation, head));
    MatchIsMarker(kind, operation, Tail(body), head);
  }

  /** Print/parse: the rendered head comes back, for its own kind and operation only. */
  lemma FindOperationRecoversHead(body: string, kind: string, operation: string, head: string,
                                  kind': string, operation': string)
    requires Admitted(kind, operation, head) && Admitted(kind', operation', head)
    ensures FindOperation(kind', operation', Payload(body, Marker(kind, operation, head)))
            == if kind == kind' && operation == operation' then Some(head) else None
  {
    var text := Payload(body, Marker(kind, operation, head));
    var found := FindOperation(kind', operation', text);
    PayloadMatchesOwnTriple(body, kind, operation, head, kind, operation, head);
    FindOperationIsFinalMarker(kind, operation, head, text);
    if found.Some? {
      FindOperationIsFinalMarker(kind', operation', found.value, text);
      PayloadMatchesOwnTriple(body, kind, operation, head, kind', operation', found.value);
    }
  }
}
