/** Lookup-first publication of comments and findings: bounded retries against a provider that
    may apply a write and lose the answer. */
module Findings {
  import opened Outcomes
  import opened Markers
  import opened Comments
  import opened CodeHost

  datatype Status = Created | Existing | InlineUnavailable | CapabilityUnavailable

  datatype PublicationResult = PublicationResult(
    status: Status, reference: Option<nat>, available: bool, inline: bool)

  datatype Finding = Finding(
    operation: string, text: string, path: string, line: int, related: seq<(string, int)>,
    suggestion: string, link: string)

  /** How a finding reads inline, in the issue fallback and in the retired issue form. */
  datatype Rendering = Rendering(
    inlined: (Finding, string) -> string, fallback: (Finding, string) -> string, legacy: (Finding, string) -> string)

  const ATTEMPTS := 3

  predicate Located(f: Finding) {
    f.path != "" && f.line > 0
  }

  predicate Mentions(text: string, part: string) {
    |part| <= |text| && (text[..|part|] == part || Mentions(text[1..], part))
  }

  /** The line cannot carry a review comment (messages are compared in normal form). */
  predicate LineUnavailable(answer: Answer) {
    && answer.Answered? && answer.status == 422 && answer.body.Fields?
    && answer.body.message in {"line is not in diff", "pull request review thread line must be part of the diff"}
  }

  predicate Transient(answer: Answer) {
    && answer.Answered?
    && (|| answer.status == 429 || answer.status >= 500
        || (&& answer.body.Fields?
            && if answer.status == 403
               then || Mentions(answer.body.message, "secondary rate limit")
                    || Mentions(answer.body.message, "abuse detection")
               else answer.status == 422 && answer.body.message == "validation failed" && !answer.body.errors))
  }

  /** The result names the one comment that holds the marker, in the list its flag says. */
  ghost predicate Settled(r: PublicationResult, review: seq<Comment>, issue: seq<Comment>, bot: string, marker: string)
  {
    var list := if r.inline then review else issue;
    && r.available && r.status in {Created, Existing}
    && Holders(list, bot, marker) == 1
    && Holders(review, bot, marker) + Holders(issue, bot, marker) == 1
    && (r.status == Existing ==> exists c :: c in list && Holds(c, bot, marker) && r.reference == Some(c.id))
  }

  lemma SettledStays(r: PublicationResult, review: seq<Comment>, issue: seq<Comment>, review': seq<Comment>,
                     issue': seq<Comment>, bot: string, operation: string, head: string)
    requires Admitted("finding", operation, head)
    requires Settled(r, review, issue, bot, Marker("finding", operation, head))
    requires review <= review' && issue <= issue' && AtMostOnce(review', issue', bot)
    ensures Settled(r, review', issue', bot, Marker("finding", operation, head))
  {
    HoldersGrow(review, review', bot, Marker("finding", operation, head));
    HoldersGrow(issue, issue', bot, Marker("finding", operation, head));
  }

  /** A found comment settles its marker. */
  lemma FoundSettles(c: Comment, inlined: bool, review: seq<Comment>, issue: seq<Comment>, bot: string,
                     kind: string, operation: string, head: string)
    requires Admitted(kind, operation, head) && AtMostOnce(review, issue, bot)
    requires FindMarked(if inlined then review else issue, bot, Marker(kind, operation, head)) == Some(c)
    ensures Settled(PublicationResult(Existing, Some(c.id), true, inlined), review, issue, bot,
                    Marker(kind, operation, head))
  {
    FoundIffHeld(if inlined then review else issue, bot, Marker(kind, operation, head));
  }

  /** What one reading of both lists says of a finding: its held result, nothing, or a collision. */
  function Look(rendering: Rendering, f: Finding, head: string, bot: string, review: seq<Comment>, issue: seq<Comment>)
    : Result<Option<PublicationResult>, Failure>
  {
    var marker := Marker("finding", f.operation, head);
    var fallback := Payload(rendering.fallback(f, head), marker);
    match FindMarked(review, bot, marker)
    case Some(c) =>
      if c.body != Payload(rendering.inlined(f, head), marker) && c.body != fallback then Err(Invalid)
      else Ok(Some(PublicationResult(Existing, Some(c.id), true, true)))
    case None =>
      match FindMarked(issue, bot, marker)
      case Some(c) =>
        if c.body != fallback then Err(Invalid) else Ok(Some(PublicationResult(Existing, Some(c.id), true, false)))
      case None => Ok(None)
  }

  lemma LookIsSound(rendering: Rendering, f: Finding, head: string, bot: string, review: seq<Comment>,
                    issue: seq<Comment>)
    requires Admitted("finding", f.operation, head) && AtMostOnce(review, issue, bot)
    ensures var found := Look(rendering, f, head, bot, review, issue);
            var marker := Marker("finding", f.operation, head);
            && (found.Err? ==> found.error == Invalid)
            && (found.Ok? && found.value.Some? ==> Settled(found.value.value, review, issue, bot, marker))
            && (found.Ok? && found.value.None? ==>
                  Holders(review, bot, marker) == 0 && Holders(issue, bot, marker) == 0)
  {
    var marker := Marker("finding", f.operation, head);
    FoundIffHeld(review, bot, marker);
    FoundIffHeld(issue, bot, marker);
  }

  /** Whatever holds the finding's marker reads as the finding does. */
  ghost predicate Clean(rendering: Rendering, f: Finding, head: string, bot: string, review: seq<Comment>,
                        issue: seq<Comment>)
  {
    var marker := Marker("finding", f.operation, head);
    && (forall c :: c in review && Holds(c, bot, marker) ==>
          || c.body == Payload(rendering.inlined(f, head), marker)
          || c.body == Payload(rendering.fallback(f, head), marker))
    && (forall c :: c in issue && Holds(c, bot, marker) ==> c.body == Payload(rendering.fallback(f, head), marker))
  }

  lemma CleanIffLook(rendering: Rendering, f: Finding, head: string, bot: string, review: seq<Comment>,
                     issue: seq<Comment>)
    requires Admitted("finding", f.operation, head) && AtMostOnce(review, issue, bot)
    ensures Look(rendering, f, head, bot, review, issue).Ok? <==> Clean(rendering, f, head, bot, review, issue)
  {
    var marker := Marker("finding", f.operation, head);
    FoundIffHeld(review, bot, marker);
    FoundIffHeld(issue, bot, marker);
    forall c, d | c in review && d in review && Holds(c, bot, marker) && Holds(d, bot, marker) ensures c == d {
      OneHolder(review, bot, marker, c, d);
    }
    forall c, d | c in issue && d in issue && Holds(c, bot, marker) && Holds(d, bot, marker) ensures c == d {
      OneHolder(issue, bot, marker, c, d);
    }
  }

  /** Other people's comments neither cause nor hide a collision. */
  lemma OthersKeepLook(rendering: Rendering, f: Finding, head: string, bot: string, review: seq<Comment>,
                       issue: seq<Comment>, review': seq<Comment>, issue': seq<Comment>)
    requires Admitted("finding", f.operation, head)
    requires AtMostOnce(review, issue, bot) && AtMostOnce(review', issue', bot)
    requires ByOthers(review, review', bot) && ByOthers(issue, issue', bot)
    ensures Look(rendering, f, head, bot, review, issue).Ok? <==> Look(rendering, f, head, bot, review', issue').Ok?
  {
    CleanIffLook(rendering, f, head, bot, review, issue);
    CleanIffLook(rendering, f, head, bot, review', issue');
    forall c | c in review ensures c in review' { Kept(review, review', c); }
    forall c | c in issue ensures c in issue' { Kept(issue, issue', c); }
  }

  lemma Kept(before: seq<Comment>, after: seq<Comment>, c: Comment)
    requires before <= after && c in before
    ensures c in after
  {
    var i :| 0 <= i < |before| && before[i] == c;
    assert after[i] == c;
  }

  // ---------------------------------------------------------------- batches

  /** Some finding's marker is held with a text that is not the finding's. */
  ghost predicate Collides(rendering: Rendering, findings: seq<Finding>, head: string, bot: string,
                           review: seq<Comment>, issue: seq<Comment>)
  {
    exists f :: f in findings && Look(rendering, f, head, bot, review, issue).Err?
  }

  lemma OthersKeepCollisions(rendering: Rendering, findings: seq<Finding>, head: string, bot: string,
                             review: seq<Comment>, issue: seq<Comment>, review': seq<Comment>, issue': seq<Comment>)
    requires Batch(findings, head) && AtMostOnce(review, issue, bot) && AtMostOnce(review', issue', bot)
    requires ByOthers(review, review', bot) && ByOthers(issue, issue', bot)
    ensures Collides(rendering, findings, head, bot, review, issue)
            <==> Collides(rendering, findings, head, bot, review', issue')
  {
    forall f | f in findings
      ensures Look(rendering, f, head, bot, review, issue).Err? <==> Look(rendering, f, head, bot, review', issue').Err?
    {
      OthersKeepLook(rendering, f, head, bot, review, issue, review', issue');
    }
  }

  /** The bot's own batch causes no collision either. */
  lemma BatchKeepsClean(rendering: Rendering, findings: seq<Finding>, pending: seq<Finding>, drafts: seq<Draft>,
                        head: string, bot: string, review: seq<Comment>, issue: seq<Comment>, review': seq<Comment>,
                        issue': seq<Comment>)
    requires Batch(findings, head) && Within(pending, findings) && |drafts| == |pending|
    requires forall i :: 0 <= i < |drafts| ==>
               drafts[i] == Draft(pending[i].operation, rendering.inlined(pending[i], head))
    requires AtMostOnce(review, issue, bot) && AtMostOnce(review', issue', bot)
    requires ByBatch(review, review', bot, drafts, head) && ByOthers(issue, issue', bot)
    requires !Collides(rendering, findings, head, bot, review, issue)
    ensures !Collides(rendering, findings, head, bot, review', issue')
  {
    forall f | f in findings ensures Look(rendering, f, head, bot, review', issue').Ok? {
      CleanIffLook(rendering, f, head, bot, review, issue);
      forall c | c in review' && c !in review && Holds(c, bot, Marker("finding", f.operation, head))
        ensures c.body == Payload(rendering.inlined(f, head), Marker("finding", f.operation, head))
      {
        var i :| 0 <= i < |drafts| && c.body == Payload(drafts[i].body, Marker("finding", drafts[i].operation, head));
        assert pending[i] in pending && pending[i] in findings;
        PayloadMatchesOwnTriple(drafts[i].body, "finding", drafts[i].operation, head, "finding", f.operation, head);
        SameOperation(findings, head, f, pending[i]);
      }
      CleanIffLook(rendering, f, head, bot, review', issue');
    }
  }

  /** One result per finding, created for exactly these. */
  predicate CreatedExactly(findings: seq<Finding>, all: seq<PublicationResult>, pending: seq<Finding>) {
    && |all| == |findings|
    && forall i :: 0 <= i < |findings| ==> (all[i].status == Created <==> findings[i] in pending)
  }

  /** What leaves a batch unproved: an answer that settles nothing and may not be tried again, or
      the last of three attempts without one that does. */
  predicate Unproved(answers: seq<Answer>) {
    && answers != []
    && var last := answers[|answers| - 1];
       && !(last.Answered? && last.status == 200)
       && (if last.Lost? || Transient(last) then |answers| == ATTEMPTS else |answers| <= ATTEMPTS)
  }

  /** What leaves an issue comment unproved: two lost answers, or a status that may hide success. */
  predicate UnprovedComment(answers: seq<Answer>) {
    && answers != []
    && var last := answers[|answers| - 1];
       if last.Lost? then |answers| == 2 else last.status == 201 || last.status == 429 || last.status >= 500
  }

  lemma ExhaustedIsUnproved(answers: seq<Answer>)
    requires 0 < |answers| <= ATTEMPTS
    requires var last := answers[|answers| - 1];
             && !(last.Answered? && last.status == 200)
             && (last.Lost? || Transient(last) ==> |answers| == ATTEMPTS)
    ensures Unproved(answers)
  {
  }

  predicate CapabilityRefused(answers: seq<Answer>) {
    answers != [] && answers[|answers| - 1].Answered? && answers[|answers| - 1].status in {403, 404}
  }

  lemma LaterAnswers(before: seq<Answer>, middle: seq<Answer>, after: seq<Answer>)
    requires before <= middle <= after && CapabilityRefused(after[|middle|..])
    ensures CapabilityRefused(after[|before|..])
  {
  }

  predicate LineRefused(answers: seq<Answer>) {
    answers != [] && LineUnavailable(answers[|answers| - 1])
  }

  /** A final refusal of an issue comment. */
  predicate RefusedComment(answers: seq<Answer>) {
    && answers != []
    && var last := answers[|answers| - 1];
       && last.Answered? && last.status !in {201, 403, 404, 429} && last.status < 500
  }

  /** What leaves a review comment unproved. */
  predicate UnprovedInline(answers: seq<Answer>) {
    && answers != []
    && var last := answers[|answers| - 1];
       && !(last.Answered? && last.status == 201 && last.body.Fields?) && !LineUnavailable(last)
       && (if last.Lost? || Transient(last) then |answers| == ATTEMPTS else |answers| <= ATTEMPTS)
  }

  /** The comment a lookup finds where only this payload was added is that payload. */
  lemma OwnIsFound(before: seq<Comment>, after: seq<Comment>, bot: string, kind: string, operation: string,
                   head: string, body: string, c: Comment)
    requires Holders(before, bot, Marker(kind, operation, head)) == 0 && c in after
    requires Holds(c, bot, Marker(kind, operation, head))
    requires ByPost(before, after, bot, Payload(body, Marker(kind, operation, head)))
    ensures c.body == Payload(body, Marker(kind, operation, head))
  {
    FoundIffHeld(before, bot, Marker(kind, operation, head));
  }

  predicate Batch(findings: seq<Finding>, head: string) {
    && (forall i :: 0 <= i < |findings| ==> Located(findings[i]) && Admitted("finding", findings[i].operation, head))
    && (forall i, j :: 0 <= i < j < |findings| ==> findings[i].operation != findings[j].operation)
  }

  /** A finding that a result settles. */
  ghost predicate Answers(results: map<string, PublicationResult>, f: Finding, head: string, bot: string,
                          review: seq<Comment>, issue: seq<Comment>)
  {
    && f.operation in results
    && Settled(results[f.operation], review, issue, bot, Marker("finding", f.operation, head))
  }

  ghost predicate Absent(f: Finding, head: string, bot: string, review: seq<Comment>, issue: seq<Comment>) {
    && Holders(review, bot, Marker("finding", f.operation, head)) == 0
    && Holders(issue, bot, Marker("finding", f.operation, head)) == 0
  }

  predicate Within(pending: seq<Finding>, findings: seq<Finding>) {
    forall f :: f in pending ==> f in findings
  }

  /** Every finding is pending or settled by a result. */
  ghost predicate Accounted(findings: seq<Finding>, pending: seq<Finding>, results: map<string, PublicationResult>,
                            head: string, bot: string, review: seq<Comment>, issue: seq<Comment>)
  {
    && Within(pending, findings)
    && forall f :: f in findings ==> f in pending || Answers(results, f, head, bot, review, issue)
  }

  lemma EarlierDiffers(findings: seq<Finding>, head: string, i: nat, f: Finding)
    requires Batch(findings, head) && i < |findings| && f in findings[..i]
    ensures f.operation != findings[i].operation
  {
    var j :| 0 <= j < i && findings[..i][j] == f;
    assert findings[j] == f;
  }

  lemma PendingGrows(findings: seq<Finding>, i: nat, pending: seq<Finding>, head: string)
    requires i < |findings| && Batch(findings, head) && Batch(pending, head) && Within(pending, findings[..i])
    ensures Batch(pending + [findings[i]], head) && Within(pending + [findings[i]], findings[..i + 1])
  {
    forall k | 0 <= k < |pending| ensures pending[k].operation != findings[i].operation {
      assert pending[k] in findings[..i];
      EarlierDiffers(findings, head, i, pending[k]);
    }
  }

  /** One finding joins the accounted prefix, by a result of its own or as pending. */
  lemma AccountedGrows(findings: seq<Finding>, i: nat, pending: seq<Finding>, results: map<string, PublicationResult>,
                       pending': seq<Finding>, results': map<string, PublicationResult>, head: string, bot: string,
                       review: seq<Comment>, issue: seq<Comment>)
    requires i < |findings| && Batch(findings, head)
    requires Accounted(findings[..i], pending, results, head, bot, review, issue)
    requires || (pending' == pending + [findings[i]] && results' == results)
             || (&& pending' == pending && Answers(results', findings[i], head, bot, review, issue)
                 && forall o :: o in results && o != findings[i].operation ==>
                      o in results' && results'[o] == results[o])
    ensures Accounted(findings[..i + 1], pending', results', head, bot, review, issue)
  {
    assert findings[..i + 1] == findings[..i] + [findings[i]];
    forall f | f in findings[..i + 1] ensures f in pending' || Answers(results', f, head, bot, review, issue) {
      if f in findings[..i] {
        EarlierDiffers(findings, head, i, f);
      }
    }
  }

  /** One pass over a batch against one reading of both lists. */
  method SortOut(rendering: Rendering, findings: seq<Finding>, results: map<string, PublicationResult>, head: string,
                 bot: string, review: seq<Comment>, issue: seq<Comment>)
    returns (r: Result<seq<Finding>, Failure>, results': map<string, PublicationResult>)
    requires Batch(findings, head) && AtMostOnce(review, issue, bot)
    ensures r.Ok? ==> Batch(r.value, head) && Accounted(findings, r.value, results', head, bot, review, issue)
    ensures r.Ok? ==> forall f :: f in r.value ==> Absent(f, head, bot, review, issue)
    ensures r.Ok? ==> forall o :: o in results && (forall f :: f in findings ==> f.operation != o) ==>
                        o in results' && results'[o] == results[o]
    ensures r.Err? ==> r.error == Invalid
    ensures r.Err? <==> Collides(rendering, findings, head, bot, review, issue)
    ensures r.Ok? ==> forall o :: o in results' ==>
                        (o in results && results'[o] == results[o]) || results'[o].status == Existing
  {
    results' := results;
    var pending: seq<Finding> := [];
    for i := 0 to |findings|
      invariant Batch(pending, head) && Accounted(findings[..i], pending, results', head, bot, review, issue)
      invariant forall f :: f in pending ==> Absent(f, head, bot, review, issue)
      invariant forall o :: o in results && (forall f :: f in findings ==> f.operation != o) ==>
                  o in results' && results'[o] == results[o]
      invariant forall f :: f in findings[..i] ==> Look(rendering, f, head, bot, review, issue).Ok?
      invariant forall o :: o in results' ==>
                  (o in results && results'[o] == results[o]) || results'[o].status == Existing
    {
      assert findings[..i + 1] == findings[..i] + [findings[i]];
      var found := Look(rendering, findings[i], head, bot, review, issue);
      LookIsSound(rendering, findings[i], head, bot, review, issue);
      if found.Err? { return Err(Invalid), results'; }
      ghost var pending0, results0 := pending, results';
      if found.value.Some? {
        results' := results'[findings[i].operation := found.value.value];
      } else {
        PendingGrows(findings, i, pending, head);
        pending := pending + [findings[i]];
      }
      AccountedGrows(findings, i, pending0, results0, pending, results', head, bot, review, issue);
    }
    assert findings[..|findings|] == findings;
    r := Ok(pending);
  }

  class CommentPublisher {
    const provider: Provider
    const rendering: Rendering

    constructor (provider: Provider, rendering: Rendering)
      ensures this.provider == provider && this.rendering == rendering
    {
      this.provider := provider;
      this.rendering := rendering;
    }

    ghost predicate Done(r: PublicationResult, kind: string, operation: string, head: string)
      reads this, provider
    {
      Settled(r, provider.review, provider.issue, provider.bot, Marker(kind, operation, head))
    }

    /** The result is one held comment, if its text is known, and otherwise a collision. */
    ghost predicate Resumes(r: Result<PublicationResult, Failure>, list: seq<Comment>, marker: string, inlined: bool,
                            known: string -> bool)
    {
      exists c :: && c in list && Holds(c, provider.bot, marker)
                  && r == if known(c.body) then Ok(PublicationResult(Existing, Some(c.id), true, inlined))
                          else Err(Invalid)
    }

    /** The texts under which a finding may be held in the issue list. */
    predicate KnownInIssue(f: Finding, head: string, body: string) {
      var marker := Marker("finding", f.operation, head);
      || body == Payload(rendering.fallback(f, head), marker)
      || (f.suggestion == "" && f.related == [] && body == Payload(rendering.legacy(f, head), marker))
    }

    predicate KnownInReview(f: Finding, head: string, body: string) {
      var marker := Marker("finding", f.operation, head);
      body == Payload(rendering.inlined(f, head), marker) || body == Payload(rendering.fallback(f, head), marker)
    }

    predicate KnownText(marker: string, body: string, compatible: seq<string>, text: string) {
      || text == Payload(body, marker)
      || exists i :: 0 <= i < |compatible| && text == Payload(compatible[i], marker)
    }

    /** The bot's issue comment holding the marker, or a boundary failure. */
    method Find(kind: string, operation: string, head: string) returns (found: Result<Option<Comment>, Failure>)
      modifies provider
      ensures old(provider.review) <= provider.review && old(provider.issue) <= provider.issue
      ensures old(provider.Sound()) ==> provider.Sound()
      ensures forall marker ::
                Holders(provider.review, provider.bot, marker) == old(Holders(provider.review, provider.bot, marker))
      ensures forall marker ::
                Holders(provider.issue, provider.bot, marker) == old(Holders(provider.issue, provider.bot, marker))
      ensures found.Ok? ==> found.value == FindMarked(provider.issue, provider.bot, Marker(kind, operation, head))
      ensures found.Ok? ==> (found.value.None? <==> provider.InIssue(kind, operation, head) == 0)
      ensures found.Err? ==> found.error == Boundary
      ensures provider.Kindly() ==> found.Ok?
      ensures ByOthers(old(provider.review), provider.review, provider.bot)
      ensures ByOthers(old(provider.issue), provider.issue, provider.bot)
      ensures provider.answers == old(provider.answers) && provider.refusals == old(provider.refusals)
      ensures provider.unread == old(provider.unread) + if found.Err? then 1 else 0
    {
      var listed := provider.ListIssue();
      if listed.Err? { return Err(Boundary); }
      found := Ok(FindMarked(listed.value, provider.bot, Marker(kind, operation, head)));
      FoundIffHeld(listed.value, provider.bot, Marker(kind, operation, head));
    }

    method FindReview(operation: string, head: string) returns (found: Result<Option<Comment>, Failure>)
      modifies provider
      ensures old(provider.review) <= provider.review && old(provider.issue) <= provider.issue
      ensures old(provider.Sound()) ==> provider.Sound()
      ensures forall marker ::
                Holders(provider.review, provider.bot, marker) == old(Holders(provider.review, provider.bot, marker))
      ensures forall marker ::
                Holders(provider.issue, provider.bot, marker) == old(Holders(provider.issue, provider.bot, marker))
      ensures found.Ok? ==> found.value == FindMarked(provider.review, provider.bot, Marker("finding", operation, head))
      ensures found.Ok? ==> (found.value.None? <==> provider.InReview("finding", operation, head) == 0)
      ensures found.Err? ==> found.error == Boundary
      ensures provider.Kindly() ==> found.Ok?
      ensures ByOthers(old(provider.review), provider.review, provider.bot)
      ensures ByOthers(old(provider.issue), provider.issue, provider.bot)
      ensures provider.answers == old(provider.answers) && provider.refusals == old(provider.refusals)
      ensures provider.unread == old(provider.unread) + if found.Err? then 1 else 0
    {
      var listed := provider.ListReview();
      if listed.Err? { return Err(Boundary); }
      found := Ok(FindMarked(listed.value, provider.bot, Marker("finding", operation, head)));
      FoundIffHeld(listed.value, provider.bot, Marker("finding", operation, head));
    }

    /** One issue comment per marker, two attempts. Only the issue list is read: what is unique stays
        so exactly when no review comment holds the marker. */
    method Immutable(kind: string, operation: string, head: string, body: string, compatible: seq<string>)
      returns (r: Result<PublicationResult, Failure>)
      requires provider.Sound()
      modifies provider
      ensures old(provider.review) <= provider.review && old(provider.issue) <= provider.issue
      ensures !Admitted(kind, operation, head) ==> r == Err(Invalid) && provider.Sound()
      ensures OnlyChanged(old(provider.review), old(provider.issue), provider.review, provider.issue, provider.bot,
                          kind, operation, head)
      ensures provider.InReview(kind, operation, head) == old(provider.InReview(kind, operation, head))
      ensures Admitted(kind, operation, head) ==> provider.InIssue(kind, operation, head) <= 1
      ensures old(provider.InReview(kind, operation, head)) == 0 ==> provider.Sound()
      ensures kind != "finding" ==> provider.Sound()
      ensures r.Ok? && r.value.available ==> !r.value.inline && provider.InIssue(kind, operation, head) == 1
      ensures r.Ok? && r.value.available && old(provider.InReview(kind, operation, head)) == 0 ==>
                Done(r.value, kind, operation, head)
      ensures r.Ok? && !r.value.available ==>
                && r.value.status == CapabilityUnavailable && !r.value.inline
                && provider.InIssue(kind, operation, head) == 0
      ensures provider.Kindly() && Admitted(kind, operation, head) ==> provider.InIssue(kind, operation, head) == 1
      ensures (&& provider.Kindly() && Admitted(kind, operation, head)
               && old(provider.InIssue(kind, operation, head)) == 0) ==>
                r.Ok? && r.value.available && r.value.status == Created
      ensures provider.refusals == old(provider.refusals) + if r == Err(Fenced) then 1 else 0
      ensures old(provider.answers) <= provider.answers && provider.unread >= old(provider.unread)
      ensures r.Ok? && !r.value.available ==> CapabilityRefused(provider.answers[|old(provider.answers)|..])
      ensures r.Err? ==>
                || r.error == Fenced
                || (r.error == Boundary
                    && (|| provider.unread > old(provider.unread)
                        || UnprovedComment(provider.answers[|old(provider.answers)|..])))
                || (r.error == Invalid
                    && (|| !Admitted(kind, operation, head) || old(provider.InIssue(kind, operation, head)) > 0
                        || RefusedComment(provider.answers[|old(provider.answers)|..])))
      ensures (&& r.Err? && Admitted(kind, operation, head) && provider.unread == old(provider.unread)
               && old(provider.InIssue(kind, operation, head)) == 0) ==> provider.InIssue(kind, operation, head) == 0
      ensures (&& provider.Kindly() && Admitted(kind, operation, head)
               && old(provider.InIssue(kind, operation, head)) > 0) ==>
                var marker := Marker(kind, operation, head);
                Resumes(r, provider.issue, marker, false, text => KnownText(marker, body, compatible, text))
    {
      if !Admitted(kind, operation, head) { return Err(Invalid); }
      var existing := Find(kind, operation, head);
      if existing.Err? { return Err(Boundary); }
      if existing.value.Some? {
        var c := existing.value.value;
        FoundIffHeld(provider.issue, provider.bot, Marker(kind, operation, head));
        FoundSettles(c, false, provider.review, provider.issue, provider.bot, kind, operation, head);
        var payload := Payload(body, Marker(kind, operation, head));
        var marker := Marker(kind, operation, head);
        if c.body != payload && !exists i :: 0 <= i < |compatible| && c.body == Payload(compatible[i], marker) {
          return Err(Invalid);
        }
        return Ok(PublicationResult(Existing, Some(c.id), true, false));
      }
      ghost var review, issue := provider.review, provider.issue;
      r := PostUnheld(kind, operation, head, body);
      OwnCountDecides(review, issue, provider.review, provider.issue, provider.bot, kind, operation, head);
    }

    /** The two attempts of a comment that the issue list does not hold. */
    method PostUnheld(kind: string, operation: string, head: string, body: string)
      returns (r: Result<PublicationResult, Failure>)
      requires Admitted(kind, operation, head) && provider.InIssue(kind, operation, head) == 0
      modifies provider
      ensures old(provider.review) <= provider.review && old(provider.issue) <= provider.issue
      ensures OnlyChanged(old(provider.review), old(provider.issue), provider.review, provider.issue, provider.bot,
                          kind, operation, head)
      ensures provider.InReview(kind, operation, head) == old(provider.InReview(kind, operation, head))
      ensures provider.InIssue(kind, operation, head) <= 1
      ensures r.Ok? && r.value.available ==> !r.value.inline && provider.InIssue(kind, operation, head) == 1
      ensures r.Ok? && r.value.available && old(provider.InReview(kind, operation, head)) == 0 ==>
                Done(r.value, kind, operation, head)
      ensures r.Ok? && !r.value.available ==>
                && r.value.status == CapabilityUnavailable && !r.value.inline
                && provider.InIssue(kind, operation, head) == 0
      ensures provider.Kindly() ==>
                provider.InIssue(kind, operation, head) == 1 && r.Ok? && r.value.available && r.value.status == Created
      ensures provider.refusals == old(provider.refusals) + if r == Err(Fenced) then 1 else 0
      ensures old(provider.answers) <= provider.answers && provider.unread >= old(provider.unread)
      ensures r.Ok? && !r.value.available ==> CapabilityRefused(provider.answers[|old(provider.answers)|..])
      ensures r.Err? ==>
                || r.error == Fenced
                || (r.error == Boundary
                    && (|| provider.unread > old(provider.unread)
                        || UnprovedComment(provider.answers[|old(provider.answers)|..])))
                || (r.error == Invalid && RefusedComment(provider.answers[|old(provider.answers)|..]))
      ensures r.Err? && provider.unread == old(provider.unread) ==> provider.InIssue(kind, operation, head) == 0
    {
      ghost var more: seq<Answer> := [];
      var attempt := 0;
      while true
        invariant 0 <= attempt < 2 && (provider.Kindly() ==> attempt == 0)
        invariant old(provider.review) <= provider.review && old(provider.issue) <= provider.issue
        invariant OnlyChanged(old(provider.review), old(provider.issue), provider.review, provider.issue, provider.bot,
                              kind, operation, head)
        invariant provider.InReview(kind, operation, head) == old(provider.InReview(kind, operation, head))
        invariant provider.InIssue(kind, operation, head) == 0
        invariant provider.refusals == old(provider.refusals) && provider.unread == old(provider.unread)
        invariant provider.answers == old(provider.answers) + more && |more| == attempt
        decreases 2 - attempt
      {
        var verdict;
        ghost var given;
        verdict, given := PostOnce(kind, operation, head, body);
        more := more + given;
        assert provider.answers[|old(provider.answers)|..] == more;
        assert given != [] ==> more[|more| - 1] == given[0];
        if verdict.Some? { return verdict.value; }
        if attempt == 1 { return Err(Boundary); }
        attempt := attempt + 1;
      }
    }

    /** One fenced attempt: a verdict, or nothing after a lost answer that left nothing. */
    method PostOnce(kind: string, operation: string, head: string, body: string)
      returns (verdict: Option<Result<PublicationResult, Failure>>, ghost given: seq<Answer>)
      requires Admitted(kind, operation, head) && provider.InIssue(kind, operation, head) == 0
      modifies provider
      ensures old(provider.review) <= provider.review && old(provider.issue) <= provider.issue
      ensures OnlyChanged(old(provider.review), old(provider.issue), provider.review, provider.issue, provider.bot,
                          kind, operation, head)
      ensures provider.InReview(kind, operation, head) == old(provider.InReview(kind, operation, head))
      ensures provider.InIssue(kind, operation, head) <= 1
      ensures provider.answers == old(provider.answers) + given
      ensures if verdict == Some(Err(Fenced)) then given == [] && provider.refusals == old(provider.refusals) + 1
              else |given| == 1 && provider.refusals == old(provider.refusals)
      ensures provider.unread >= old(provider.unread)
      ensures verdict.None? ==>
                && given[0].Lost? && provider.unread == old(provider.unread)
                && provider.InIssue(kind, operation, head) == 0
      ensures verdict.Some? && verdict.value.Ok? ==>
                CommentPosted(verdict.value.value, kind, operation, head)
                && (!verdict.value.value.available ==> CapabilityRefused(given))
      ensures verdict.Some? && verdict.value.Err? ==>
                || verdict.value.error == Fenced
                || (verdict.value.error == Boundary
                    && (provider.unread > old(provider.unread) || (given[0].Answered? && UnprovedComment(given))))
                || (verdict.value.error == Invalid && RefusedComment(given))
      ensures verdict.Some? && verdict.value.Err? && provider.unread == old(provider.unread) ==>
                provider.InIssue(kind, operation, head) == 0
      ensures provider.Kindly() ==> verdict.Some? && verdict.value.Ok? && verdict.value.value.status == Created
    {
      given := [];
      var granted := provider.Fence();
      if !granted { return Some(Err(Fenced)), given; }
      ghost var before := provider.issue;
      var answer := provider.PostIssue(kind, operation, head, body);
      given := [answer];
      if answer.Answered? && answer.status == 201 && answer.body.Fields? && answer.body.id.Some? {
        return Some(Ok(PublicationResult(Created, answer.body.id, true, false))), given;
      }
      var recovered := Find(kind, operation, head);
      if recovered.Err? { return Some(Err(Boundary)), given; }
      if recovered.value.Some? {
        var c := recovered.value.value;
        OwnIsFound(before, provider.issue, provider.bot, kind, operation, head, body, c);
        if c.body != Payload(body, Marker(kind, operation, head)) { return Some(Err(Invalid)), given; }
        return Some(Ok(PublicationResult(Existing, Some(c.id), true, false))), given;
      }
      if answer.Lost? { return None, given; }
      if answer.status in {403, 404} {
        return Some(Ok(PublicationResult(CapabilityUnavailable, None, false, false))), given;
      }
      var unproved := answer.status == 201 || answer.status == 429 || answer.status >= 500;
      return Some(Err(if unproved then Boundary else Invalid)), given;
    }

    /** A result of posting an issue comment that nobody held before. */
    ghost predicate CommentPosted(r: PublicationResult, kind: string, operation: string, head: string)
      reads this, provider
    {
      && !r.inline
      && if r.available
         then && provider.InIssue(kind, operation, head) == 1 && r.reference.Some?
              && (provider.InReview(kind, operation, head) == 0 ==> Done(r, kind, operation, head))
         else r.status == CapabilityUnavailable && provider.InIssue(kind, operation, head) == 0
    }

    /** One review comment for an unheld finding, three attempts. */
    method InlineFinding(operation: string, head: string, body: string) returns (r: Result<PublicationResult, Failure>)
      requires provider.Sound() && Admitted("finding", operation, head) && provider.Unheld(operation, head)
      modifies provider
      ensures provider.Sound() && old(provider.review) <= provider.review && old(provider.issue) <= provider.issue
      ensures OnlyChanged(old(provider.review), old(provider.issue), provider.review, provider.issue, provider.bot,
                          "finding", operation, head)
      ensures r.Ok? && r.value.available ==> r.value.inline && Done(r.value, "finding", operation, head)
      ensures r.Ok? && !r.value.available ==> r.value.status == InlineUnavailable && provider.Unheld(operation, head)
      ensures provider.Kindly() ==>
                && r.Ok? && r.value.available && r.value.status == Created
                && provider.InReview("finding", operation, head) == 1
      ensures provider.refusals == old(provider.refusals) + if r == Err(Fenced) then 1 else 0
      ensures old(provider.answers) <= provider.answers && provider.unread >= old(provider.unread)
      ensures r.Ok? && !r.value.available ==> LineRefused(provider.answers[|old(provider.answers)|..])
      ensures r.Err? ==>
                || r.error == Fenced
                || (r.error == Boundary
                    && (|| provider.unread > old(provider.unread)
                        || UnprovedInline(provider.answers[|old(provider.answers)|..])))
                || (r.error == Malformed && provider.InReview("finding", operation, head) == 1)
      ensures r.Err? && r.error != Malformed && provider.unread == old(provider.unread) ==>
                provider.Unheld(operation, head)
    {
      ghost var review, issue := provider.review, provider.issue;
      r := InlineAttempts(operation, head, body);
      OwnCountDecides(review, issue, provider.review, provider.issue, provider.bot, "finding", operation, head);
    }

    method InlineAttempts(operation: string, head: string, body: string) returns (r: Result<PublicationResult, Failure>)
      requires Admitted("finding", operation, head) && provider.Unheld(operation, head)
      modifies provider
      ensures old(provider.review) <= provider.review && old(provider.issue) <= provider.issue
      ensures OnlyChanged(old(provider.review), old(provider.issue), provider.review, provider.issue, provider.bot,
                          "finding", operation, head)
      ensures provider.InIssue("finding", operation, head) == 0 && provider.InReview("finding", operation, head) <= 1
      ensures r.Ok? ==> InlinePosted(r.value, operation, head)
      ensures provider.Kindly() ==> r.Ok? && r.value.available && r.value.status == Created
      ensures provider.refusals == old(provider.refusals) + if r == Err(Fenced) then 1 else 0
      ensures old(provider.answers) <= provider.answers && provider.unread >= old(provider.unread)
      ensures r.Ok? && !r.value.available ==> LineRefused(provider.answers[|old(provider.answers)|..])
      ensures r.Err? ==>
                || r.error == Fenced
                || (r.error == Boundary
                    && (|| provider.unread > old(provider.unread)
                        || UnprovedInline(provider.answers[|old(provider.answers)|..])))
                || (r.error == Malformed && provider.InReview("finding", operation, head) == 1)
      ensures r.Err? && r.error != Malformed && provider.unread == old(provider.unread) ==>
                provider.Unheld(operation, head)
    {
      ghost var more: seq<Answer> := [];
      var attempt := 0;
      while true
        invariant 0 <= attempt < ATTEMPTS && (provider.Kindly() ==> attempt == 0)
        invariant provider.Unheld(operation, head)
        invariant provider.refusals == old(provider.refusals) && provider.unread == old(provider.unread)
        invariant provider.answers == old(provider.answers) + more && |more| == attempt
        invariant old(provider.review) <= provider.review && old(provider.issue) <= provider.issue
        invariant OnlyChanged(old(provider.review), old(provider.issue), provider.review, provider.issue, provider.bot,
                              "finding", operation, head)
        decreases ATTEMPTS - attempt
      {
        var verdict, again;
        ghost var given;
        verdict, again, given := InlineOnce(operation, head, body);
        more := more + given;
        assert provider.answers[|old(provider.answers)|..] == more;
        assert given != [] ==> more[|more| - 1] == given[0];
        if verdict.Some? { return verdict.value; }
        if !again || attempt + 1 == ATTEMPTS { return Err(Boundary); }
        attempt := attempt + 1;
      }
    }

    /** One fenced attempt: a verdict, or whether it may be tried again. */
    method InlineOnce(operation: string, head: string, body: string)
      returns (verdict: Option<Result<PublicationResult, Failure>>, again: bool, ghost given: seq<Answer>)
      requires Admitted("finding", operation, head) && provider.Unheld(operation, head)
      modifies provider
      ensures old(provider.review) <= provider.review && old(provider.issue) <= provider.issue
      ensures OnlyChanged(old(provider.review), old(provider.issue), provider.review, provider.issue, provider.bot,
                          "finding", operation, head)
      ensures provider.InIssue("finding", operation, head) == 0 && provider.InReview("finding", operation, head) <= 1
      ensures provider.answers == old(provider.answers) + given
      ensures if verdict == Some(Err(Fenced)) then given == [] && provider.refusals == old(provider.refusals) + 1
              else |given| == 1 && provider.refusals == old(provider.refusals)
      ensures provider.unread >= old(provider.unread)
      ensures verdict.None? ==>
                && provider.unread == old(provider.unread) && provider.Unheld(operation, head)
                && !LineUnavailable(given[0]) && again == (given[0].Lost? || Transient(given[0]))
                && !(given[0].Answered? && given[0].status == 201 && given[0].body.Fields?)
      ensures verdict.Some? && verdict.value.Ok? ==>
                && InlinePosted(verdict.value.value, operation, head)
                && (!verdict.value.value.available ==> LineUnavailable(given[0]))
      ensures verdict.Some? && verdict.value.Err? ==>
                || (verdict.value.error == Fenced && provider.Unheld(operation, head))
                || (verdict.value.error == Boundary && provider.unread > old(provider.unread))
                || (verdict.value.error == Malformed && provider.InReview("finding", operation, head) == 1)
      ensures provider.Kindly() ==> verdict.Some? && verdict.value.Ok? && verdict.value.value.status == Created
    {
      given, again := [], false;
      var granted := provider.Fence();
      if !granted { return Some(Err(Fenced)), false, given; }
      ghost var before := provider.review;
      var answer := provider.PostReview(operation, head, body);
      given := [answer];
      if answer.Answered? && answer.status == 201 && answer.body.Fields? {
        if answer.body.id.None? { return Some(Err(Malformed)), false, given; }
        return Some(Ok(PublicationResult(Created, answer.body.id, true, true))), false, given;
      }
      var recovered := FindReview(operation, head);
      if recovered.Err? { return Some(Err(Boundary)), false, given; }
      if recovered.value.Some? {
        var c := recovered.value.value;
        OwnIsFound(before, provider.review, provider.bot, "finding", operation, head, body, c);
        if c.body != Payload(body, Marker("finding", operation, head)) { return Some(Err(Invalid)), false, given; }
        return Some(Ok(PublicationResult(Existing, Some(c.id), true, true))), false, given;
      }
      if LineUnavailable(answer) {
        return Some(Ok(PublicationResult(InlineUnavailable, None, false, false))), false, given;
      }
      return None, answer.Lost? || Transient(answer), given;
    }

    /** A result of posting a review comment that nobody held before. */
    ghost predicate InlinePosted(r: PublicationResult, operation: string, head: string)
      reads this, provider
    {
      if r.available then r.inline && r.reference.Some? && Done(r, "finding", operation, head)
      else r.status == InlineUnavailable && provider.Unheld(operation, head)
    }

    /** A finding with a line is looked up in both lists. */
    predicate Guarded(f: Finding, inReview: nat) {
      Located(f) || inReview == 0
    }

    /** One finding, inline where its line can carry it and otherwise in the issue. Uniqueness is kept
        under every plan if and only if the finding is located or no review comment holds its marker:
        without a location the review list is never read, and an obliging provider takes a second
        holder. */
    method Publish(f: Finding, head: string) returns (r: Result<PublicationResult, Failure>)
      requires provider.Sound()
      modifies provider
      ensures old(provider.review) <= provider.review && old(provider.issue) <= provider.issue
      ensures !Admitted("finding", f.operation, head) ==> r == Err(Invalid) && provider.Sound()
      ensures OnlyChanged(old(provider.review), old(provider.issue), provider.review, provider.issue, provider.bot,
                          "finding", f.operation, head)
      ensures Guarded(f, old(provider.InReview("finding", f.operation, head))) ==> provider.Sound()
      ensures (&& provider.Kindly() && Admitted("finding", f.operation, head)
               && !Guarded(f, old(provider.InReview("finding", f.operation, head)))) ==>
                !provider.Sound() && provider.InReview("finding", f.operation, head) == 1
                && provider.InIssue("finding", f.operation, head) == 1
      ensures r.Ok? && r.value.available && Guarded(f, old(provider.InReview("finding", f.operation, head))) ==>
                Done(r.value, "finding", f.operation, head)
      ensures r.Ok? && !r.value.available ==>
                r.value.status == CapabilityUnavailable && provider.InIssue("finding", f.operation, head) == 0
      ensures r.Ok? && r.value.inline ==> Located(f)
      ensures (&& provider.Kindly() && Admitted("finding", f.operation, head) && Located(f)
               && old(provider.Unheld(f.operation, head))) ==>
                && provider.InReview("finding", f.operation, head) == 1
                && r.Ok? && r.value.inline && r.value.status == Created
      ensures (&& provider.Kindly() && Admitted("finding", f.operation, head) && !Located(f)
               && old(provider.InIssue("finding", f.operation, head)) == 0) ==>
                r.Ok? && r.value.available && !r.value.inline && r.value.status == Created
      ensures provider.refusals == old(provider.refusals) + if r == Err(Fenced) then 1 else 0
      ensures old(provider.answers) <= provider.answers
      ensures r.Ok? && !r.value.available ==> CapabilityRefused(provider.answers[|old(provider.answers)|..])
      ensures r == Err(Boundary) ==>
                provider.unread > old(provider.unread) || provider.answers != old(provider.answers)
      ensures r == Err(Invalid) && provider.answers == old(provider.answers) ==>
                !Admitted("finding", f.operation, head) || !old(provider.Unheld(f.operation, head))
      ensures (&& provider.Kindly() && Admitted("finding", f.operation, head) && Located(f)
               && old(provider.InReview("finding", f.operation, head)) > 0) ==>
                Resumes(r, provider.review, Marker("finding", f.operation, head), true,
                        text => KnownInReview(f, head, text))
      ensures (&& provider.Kindly() && Admitted("finding", f.operation, head)
               && old(provider.InIssue("finding", f.operation, head)) > 0) ==>
                Resumes(r, provider.issue, Marker("finding", f.operation, head), false,
                        text => KnownInIssue(f, head, text))
    {
      if !Admitted("finding", f.operation, head) { return Err(Invalid); }
      if Located(f) {
        r := PublishLocated(f, head);
      } else {
        r := PublishUnlocated(f, head);
        OwnCountDecides(old(provider.review), old(provider.issue), provider.review, provider.issue, provider.bot,
                        "finding", f.operation, head);
      }
    }

    /** Both lists are read, then the line is tried, then the issue. */
    method PublishLocated(f: Finding, head: string) returns (r: Result<PublicationResult, Failure>)
      requires provider.Sound() && Admitted("finding", f.operation, head)
      modifies provider
      ensures provider.Sound() && old(provider.review) <= provider.review && old(provider.issue) <= provider.issue
      ensures OnlyChanged(old(provider.review), old(provider.issue), provider.review, provider.issue, provider.bot,
                          "finding", f.operation, head)
      ensures r.Ok? && r.value.available ==> Done(r.value, "finding", f.operation, head)
      ensures r.Ok? && !r.value.available ==>
                r.value.status == CapabilityUnavailable && provider.InIssue("finding", f.operation, head) == 0
      ensures provider.Kindly() && old(provider.Unheld(f.operation, head)) ==>
                && provider.InReview("finding", f.operation, head) == 1
                && r.Ok? && r.value.available && r.value.inline && r.value.status == Created
      ensures provider.refusals == old(provider.refusals) + if r == Err(Fenced) then 1 else 0
      ensures old(provider.answers) <= provider.answers
      ensures r.Ok? && !r.value.available ==> CapabilityRefused(provider.answers[|old(provider.answers)|..])
      ensures r == Err(Boundary) ==>
                provider.unread > old(provider.unread) || provider.answers != old(provider.answers)
      ensures r == Err(Invalid) && provider.answers == old(provider.answers) ==>
                !old(provider.Unheld(f.operation, head))
      ensures provider.Kindly() && old(provider.InReview("finding", f.operation, head)) > 0 ==>
                Resumes(r, provider.review, Marker("finding", f.operation, head), true,
                        text => KnownInReview(f, head, text))
      ensures provider.Kindly() && old(provider.InIssue("finding", f.operation, head)) > 0 ==>
                Resumes(r, provider.issue, Marker("finding", f.operation, head), false,
                        text => KnownInIssue(f, head, text))
    {
      var marker := Marker("finding", f.operation, head);
      var inlined := FindReview(f.operation, head);
      if inlined.Err? { return Err(Boundary); }
      if inlined.value.Some? {
        var c := inlined.value.value;
        FoundSettles(c, true, provider.review, provider.issue, provider.bot, "finding", f.operation, head);
        if && c.body != Payload(rendering.inlined(f, head), marker)
           && c.body != Payload(rendering.fallback(f, head), marker) {
          return Err(Invalid);
        }
        return Ok(PublicationResult(Existing, Some(c.id), true, true));
      }
      var done;
      done, r := FindHeld(f, head);
      if done { return; }
      r := PublishNew(f, head);
    }

    /** A located finding nobody holds: on its line, or in the issue where the line cannot carry it. */
    method PublishNew(f: Finding, head: string) returns (r: Result<PublicationResult, Failure>)
      requires provider.Sound() && Admitted("finding", f.operation, head) && provider.Unheld(f.operation, head)
      modifies provider
      ensures provider.Sound() && old(provider.review) <= provider.review && old(provider.issue) <= provider.issue
      ensures OnlyChanged(old(provider.review), old(provider.issue), provider.review, provider.issue, provider.bot,
                          "finding", f.operation, head)
      ensures r.Ok? && r.value.available ==> Done(r.value, "finding", f.operation, head)
      ensures r.Ok? && !r.value.available ==>
                r.value.status == CapabilityUnavailable && provider.InIssue("finding", f.operation, head) == 0
      ensures provider.Kindly() ==>
                && provider.InReview("finding", f.operation, head) == 1
                && r.Ok? && r.value.available && r.value.inline && r.value.status == Created
      ensures provider.refusals == old(provider.refusals) + if r == Err(Fenced) then 1 else 0
      ensures old(provider.answers) <= provider.answers && provider.unread >= old(provider.unread)
      ensures r.Ok? && !r.value.available ==> CapabilityRefused(provider.answers[|old(provider.answers)|..])
      ensures r == Err(Boundary) ==>
                provider.unread > old(provider.unread) || provider.answers != old(provider.answers)
      ensures r == Err(Invalid) ==> provider.answers != old(provider.answers)
    {
      ghost var before := provider.answers;
      r := InlineFinding(f.operation, head, rendering.inlined(f, head));
      if r.Err? || r.value.available { return; }
      ghost var middle := provider.answers;
      r := Immutable("finding", f.operation, head, rendering.fallback(f, head), []);
      if r.Ok? && !r.value.available { LaterAnswers(before, middle, provider.answers); }
    }

    method PublishUnlocated(f: Finding, head: string) returns (r: Result<PublicationResult, Failure>)
      requires provider.Sound() && Admitted("finding", f.operation, head)
      modifies provider
      ensures old(provider.review) <= provider.review && old(provider.issue) <= provider.issue
      ensures OnlyChanged(old(provider.review), old(provider.issue), provider.review, provider.issue, provider.bot,
                          "finding", f.operation, head)
      ensures provider.InReview("finding", f.operation, head) == old(provider.InReview("finding", f.operation, head))
      ensures old(provider.InReview("finding", f.operation, head)) == 0 ==> provider.Sound()
      ensures r.Ok? && r.value.available ==> !r.value.inline
      ensures r.Ok? && r.value.available && old(provider.InReview("finding", f.operation, head)) == 0 ==>
                Done(r.value, "finding", f.operation, head)
      ensures r.Ok? && !r.value.available ==>
                && r.value.status == CapabilityUnavailable && !r.value.inline
                && provider.InIssue("finding", f.operation, head) == 0
      ensures provider.Kindly() ==> provider.InIssue("finding", f.operation, head) == 1
      ensures provider.Kindly() && old(provider.InIssue("finding", f.operation, head)) == 0 ==>
                r.Ok? && r.value.available && r.value.status == Created
      ensures provider.refusals == old(provider.refusals) + if r == Err(Fenced) then 1 else 0
      ensures old(provider.answers) <= provider.answers
      ensures r.Ok? && !r.value.available ==> CapabilityRefused(provider.answers[|old(provider.answers)|..])
      ensures r == Err(Boundary) ==>
                provider.unread > old(provider.unread) || provider.answers != old(provider.answers)
      ensures r == Err(Invalid) && provider.answers == old(provider.answers) ==>
                !old(provider.Unheld(f.operation, head))
      ensures provider.Kindly() && old(provider.InIssue("finding", f.operation, head)) > 0 ==>
                Resumes(r, provider.issue, Marker("finding", f.operation, head), false,
                        text => KnownInIssue(f, head, text))
    {
      var done;
      done, r := FindHeld(f, head);
      if done { return; }
      r := Immutable("finding", f.operation, head, rendering.fallback(f, head), []);
    }

    /** The issue list: a held fallback or retired text is the result, anything else a collision. */
    method FindHeld(f: Finding, head: string) returns (done: bool, r: Result<PublicationResult, Failure>)
      requires provider.Sound() && Admitted("finding", f.operation, head)
      modifies provider
      ensures provider.Sound() && old(provider.review) <= provider.review && old(provider.issue) <= provider.issue
      ensures forall marker ::
                Holders(provider.review, provider.bot, marker) == old(Holders(provider.review, provider.bot, marker))
      ensures forall marker ::
                Holders(provider.issue, provider.bot, marker) == old(Holders(provider.issue, provider.bot, marker))
      ensures !done ==> provider.InIssue("finding", f.operation, head) == 0
      ensures provider.answers == old(provider.answers) && provider.refusals == old(provider.refusals)
      ensures done && r.Err? ==>
                || (r.error == Boundary && provider.unread == old(provider.unread) + 1)
                || (r.error == Invalid && provider.InIssue("finding", f.operation, head) > 0)
      ensures !(done && r == Err(Boundary)) ==> provider.unread == old(provider.unread)
      ensures done && r.Ok? ==> r.value.available && !r.value.inline && Done(r.value, "finding", f.operation, head)
      ensures done && provider.Kindly() ==>
                && provider.InIssue("finding", f.operation, head) == 1
                && Resumes(r, provider.issue, Marker("finding", f.operation, head), false,
                           text => KnownInIssue(f, head, text))
    {
      var marker := Marker("finding", f.operation, head);
      var existing := Find("finding", f.operation, head);
      if existing.Err? { return true, Err(Boundary); }
      if existing.value.None? { return false, Err(Boundary); }
      var c := existing.value.value;
      FoundSettles(c, false, provider.review, provider.issue, provider.bot, "finding", f.operation, head);
      var retired := f.suggestion == "" && f.related == [] && c.body == Payload(rendering.legacy(f, head), marker);
      if c.body != Payload(rendering.fallback(f, head), marker) && !retired { return true, Err(Invalid); }
      return true, Ok(PublicationResult(Existing, Some(c.id), true, false));
    }

    ghost predicate Covers(findings: seq<Finding>, pending: seq<Finding>, results: map<string, PublicationResult>,
                           head: string)
      reads this, provider
    {
      Accounted(findings, pending, results, head, provider.bot, provider.review, provider.issue)
    }

    /** Take what is already held out of a batch, with one reading of each list. */
    method ReconcileBatch(findings: seq<Finding>, results: map<string, PublicationResult>, head: string)
      returns (r: Result<seq<Finding>, Failure>, results': map<string, PublicationResult>)
      requires provider.Sound() && Batch(findings, head)
      modifies provider
      ensures provider.Sound() && old(provider.review) <= provider.review && old(provider.issue) <= provider.issue
      ensures r.Ok? ==> Batch(r.value, head) && Covers(findings, r.value, results', head)
      ensures r.Ok? ==> forall f :: f in r.value ==> provider.Unheld(f.operation, head)
      ensures r.Ok? ==> forall o :: o in results && (forall f :: f in findings ==> f.operation != o) ==>
                          o in results' && results'[o] == results[o]
      ensures r.Err? ==> r.error in {Boundary, Invalid}
      ensures r == Err(Boundary) ==> results' == results
      ensures ByOthers(old(provider.review), provider.review, provider.bot)
      ensures ByOthers(old(provider.issue), provider.issue, provider.bot)
      ensures provider.answers == old(provider.answers) && provider.refusals == old(provider.refusals)
      ensures forall marker ::
                Holders(provider.review, provider.bot, marker) == old(Holders(provider.review, provider.bot, marker))
      ensures forall marker ::
                Holders(provider.issue, provider.bot, marker) == old(Holders(provider.issue, provider.bot, marker))
      ensures provider.unread == old(provider.unread) + if r == Err(Boundary) then 1 else 0
      ensures r == Err(Boundary) <==>
                provider.plan(old(provider.turn)).reviewFails || provider.plan(old(provider.turn)).issueFails
      ensures r != Err(Boundary) ==>
                (r.Err? <==> Collides(rendering, findings, head, provider.bot, provider.review, provider.issue))
      ensures r.Ok? ==> forall o :: o in results' ==>
                          (o in results && results'[o] == results[o]) || results'[o].status == Existing
    {
      var reviews, issues := provider.List();
      if reviews.Err? || issues.Err? { return Err(Boundary), results; }
      r, results' := SortOut(rendering, findings, results, head, provider.bot, reviews.value, issues.value);
      if r.Ok? {
        forall f | f in r.value ensures provider.Unheld(f.operation, head) {
          assert Absent(f, head, provider.bot, provider.review, provider.issue);
        }
      }
    }

    /** Results for findings that are no longer pending survive whatever else lands. */
    lemma CoversStays(findings: seq<Finding>, pending: seq<Finding>, results: map<string, PublicationResult>,
                      head: string, review: seq<Comment>, issue: seq<Comment>)
      requires Batch(findings, head) && Accounted(findings, pending, results, head, provider.bot, review, issue)
      requires review <= provider.review && issue <= provider.issue && provider.Sound()
      ensures Covers(findings, pending, results, head)
    {
      forall f | f in findings && f !in pending
        ensures Answers(results, f, head, provider.bot, provider.review, provider.issue)
      {
        assert Answers(results, f, head, provider.bot, review, issue);
        SettledStays(results[f.operation], review, issue, provider.review, provider.issue, provider.bot,
                     f.operation, head);
      }
    }

    /** A second pass over what was pending still accounts for the whole batch. */
    lemma CoversThrough(findings: seq<Finding>, pending: seq<Finding>, pending': seq<Finding>,
                        results: map<string, PublicationResult>, results': map<string, PublicationResult>, head: string)
      requires Batch(findings, head) && Covers(findings, pending, results, head)
      requires Covers(pending, pending', results', head)
      requires forall o :: o in results && (forall f :: f in pending ==> f.operation != o) ==>
                 o in results' && results'[o] == results[o]
      ensures Covers(findings, pending', results', head)
    {
      forall f | f in findings && f !in pending'
        ensures Answers(results', f, head, provider.bot, provider.review, provider.issue)
      {
        if f !in pending {
          assert Answers(results, f, head, provider.bot, provider.review, provider.issue);
          forall g | g in pending ensures g.operation != f.operation {
            if g.operation == f.operation { SameOperation(findings, head, f, g); }
          }
        }
      }
    }

    method ReconcilePending(ghost findings: seq<Finding>, pending: seq<Finding>,
                            results: map<string, PublicationResult>, head: string)
      returns (r: Result<seq<Finding>, Failure>, results': map<string, PublicationResult>)
      requires provider.Sound() && Batch(findings, head) && Batch(pending, head)
      requires Covers(findings, pending, results, head)
      requires !Collides(rendering, findings, head, provider.bot, provider.review, provider.issue)
      requires forall o :: o in results ==> results[o].status == Existing
      modifies provider
      ensures provider.Sound() && old(provider.review) <= provider.review && old(provider.issue) <= provider.issue
      ensures !Collides(rendering, findings, head, provider.bot, provider.review, provider.issue)
      ensures r.Ok? ==> Batch(r.value, head) && Covers(findings, r.value, results', head)
      ensures r.Ok? ==> forall f :: f in r.value ==> provider.Unheld(f.operation, head)
      ensures forall o :: o in results' ==> results'[o].status == Existing
      ensures r.Err? ==> r.error == Boundary && results' == results && Covers(findings, pending, results, head)
      ensures provider.answers == old(provider.answers) && provider.refusals == old(provider.refusals)
      ensures provider.unread == old(provider.unread) + if r.Err? then 1 else 0
    {
      ghost var review, issue := provider.review, provider.issue;
      r, results' := ReconcileBatch(pending, results, head);
      OthersKeepCollisions(rendering, findings, head, provider.bot, review, issue, provider.review, provider.issue);
      CoversStays(findings, pending, results, head, review, issue);
      if r.Ok? { CoversThrough(findings, pending, r.value, results, results', head); }
    }

    /** A batch whose every draft landed settles all that was pending. */
    method SettleAll(findings: seq<Finding>, pending: seq<Finding>, results: map<string, PublicationResult>,
                     head: string, reference: Option<nat>)
      returns (results': map<string, PublicationResult>)
      requires provider.Sound() && Batch(findings, head) && Covers(findings, pending, results, head)
      requires forall f :: f in pending ==> provider.InReview("finding", f.operation, head) == 1
      ensures Covers(findings, [], results', head)
      ensures forall f :: f in pending ==>
                f.operation in results' && results'[f.operation] == PublicationResult(Created, reference, true, true)
      ensures forall o :: o in results && (forall f :: f in pending ==> f.operation != o) ==>
                o in results' && results'[o] == results[o]
    {
      var created := PublicationResult(Created, reference, true, true);
      results' := results;
      for i := 0 to |pending|
        invariant forall k :: 0 <= k < i ==>
                    pending[k].operation in results' && results'[pending[k].operation] == created
        invariant forall o :: o in results && (forall f :: f in pending ==> f.operation != o) ==>
                    o in results' && results'[o] == results[o]
      {
        assert pending[i] in pending;
        results' := results'[pending[i].operation := created];
      }
      LandedIsCovered(findings, pending, results, results', head, created);
    }

    lemma LandedIsCovered(findings: seq<Finding>, pending: seq<Finding>, results: map<string, PublicationResult>,
                          results': map<string, PublicationResult>, head: string, created: PublicationResult)
      requires provider.Sound() && Batch(findings, head) && Covers(findings, pending, results, head)
      requires forall f :: f in pending ==> provider.InReview("finding", f.operation, head) == 1
      requires created.status == Created && created.available && created.inline
      requires forall f :: f in pending ==> f.operation in results' && results'[f.operation] == created
      requires forall o :: o in results && (forall f :: f in pending ==> f.operation != o) ==>
                 o in results' && results'[o] == results[o]
      ensures Covers(findings, [], results', head)
    {
      forall f | f in findings ensures Answers(results', f, head, provider.bot, provider.review, provider.issue) {
        assert Admitted("finding", f.operation, head);
        if f !in pending {
          assert Answers(results, f, head, provider.bot, provider.review, provider.issue);
          forall g | g in pending ensures g.operation != f.operation {
            if g.operation == f.operation { SameOperation(findings, head, f, g); }
          }
        }
      }
    }

    method Collect(findings: seq<Finding>, results: map<string, PublicationResult>, head: string)
      returns (all: seq<PublicationResult>)
      requires Covers(findings, [], results, head)
      ensures Final(findings, all, head)
      ensures forall i :: 0 <= i < |findings| ==>
                findings[i].operation in results && all[i] == results[findings[i].operation]
    {
      assert forall i :: 0 <= i < |findings| ==> findings[i] in findings;
      assert forall f :: f in findings ==> Answers(results, f, head, provider.bot, provider.review, provider.issue);
      all := seq(|findings|, i requires 0 <= i < |findings| => results[findings[i].operation]);
    }

    method Drafts(pending: seq<Finding>, head: string) returns (drafts: seq<Draft>)
      requires Batch(pending, head)
      ensures |drafts| == |pending| && DistinctOperations(drafts)
      ensures forall i :: 0 <= i < |drafts| ==>
                drafts[i] == Draft(pending[i].operation, rendering.inlined(pending[i], head))
    {
      drafts := seq(|pending|, i requires 0 <= i < |pending| =>
                      Draft(pending[i].operation, rendering.inlined(pending[i], head)));
    }

    /** One fenced POST of everything still pending. */
    method Attempt(ghost findings: seq<Finding>, pending: seq<Finding>, ghost results: map<string, PublicationResult>,
                   head: string)
      returns (granted: bool, answer: Answer)
      requires provider.Sound() && Batch(findings, head) && Batch(pending, head) && pending != []
      requires Covers(findings, pending, results, head)
      requires forall f :: f in pending ==> provider.Unheld(f.operation, head)
      modifies provider
      ensures provider.Sound() && old(provider.review) <= provider.review && old(provider.issue) <= provider.issue
      ensures Covers(findings, pending, results, head)
      ensures granted && answer.Answered? && answer.status == 200 ==>
                forall f :: f in pending ==> provider.InReview("finding", f.operation, head) == 1
      ensures !granted ==> forall f :: f in pending ==> provider.Unheld(f.operation, head)
      ensures provider.unread == old(provider.unread)
      ensures provider.refusals == old(provider.refusals) + if granted then 0 else 1
      ensures provider.answers == old(provider.answers) + if granted then [answer] else []
      ensures provider.KindlyBatch() ==> granted && answer.Answered? && answer.status == 200
      ensures !old(Collides(rendering, findings, head, provider.bot, provider.review, provider.issue)) ==>
                !Collides(rendering, findings, head, provider.bot, provider.review, provider.issue)
    {
      answer := Lost;
      ghost var review, issue := provider.review, provider.issue;
      granted := provider.Fence();
      OthersKeepCollisions(rendering, findings, head, provider.bot, review, issue, provider.review, provider.issue);
      if granted {
        ghost var review1, issue1 := provider.review, provider.issue;
        var drafts := Drafts(pending, head);
        assert Admitted("finding", pending[0].operation, head);
        assert forall i :: 0 <= i < |pending| ==> pending[i] in pending;
        answer := provider.PostBatch(drafts, head);
        if !Collides(rendering, findings, head, provider.bot, review1, issue1) {
          BatchKeepsClean(rendering, findings, pending, drafts, head, provider.bot, review1, issue1, provider.review,
                          provider.issue);
        }
        if answer.Answered? && answer.status == 200 {
          forall f | f in pending ensures provider.InReview("finding", f.operation, head) == 1 {
            var i :| 0 <= i < |pending| && pending[i] == f;
            assert drafts[i].operation == f.operation;
          }
        }
      }
      CoversStays(findings, pending, results, head, review, issue);
    }

    /** A native review batch: three attempts, each only for what no earlier one landed. A held text
        that is not the finding's is an error if and only if it was there before; the other errors
        need a refusal, an unreadable list, or attempts that proved nothing. */
    method PublishBatch(findings: seq<Finding>, head: string) returns (r: Result<seq<PublicationResult>, Failure>)
      requires provider.Sound()
      modifies provider
      ensures provider.Sound() && old(provider.review) <= provider.review && old(provider.issue) <= provider.issue
      ensures findings == [] || !Batch(findings, head) ==> r == Err(Invalid)
      ensures r.Ok? ==> Final(findings, r.value, head)
      ensures findings != [] && Batch(findings, head) ==>
                (r == Err(Invalid) <==>
                 && !provider.plan(old(provider.turn)).reviewFails && !provider.plan(old(provider.turn)).issueFails
                 && old(Collides(rendering, findings, head, provider.bot, provider.review, provider.issue)))
      ensures provider.refusals == old(provider.refusals) + if r == Err(Fenced) then 1 else 0
      ensures r in {Err(Fenced), Err(Boundary)} && provider.unread == old(provider.unread) ==>
                Missing(findings, head)
      ensures old(provider.answers) <= provider.answers
      ensures r == Err(Boundary) ==>
                provider.unread > old(provider.unread) || Unproved(provider.answers[|old(provider.answers)|..])
      ensures r != Err(Malformed) && (r == Err(Invalid) ==> provider.answers == old(provider.answers))
      ensures (&& provider.KindlyBatch() && findings != [] && Batch(findings, head)
               && !old(Collides(rendering, findings, head, provider.bot, provider.review, provider.issue))) ==>
                && r.Ok?
                && forall i :: 0 <= i < |findings| ==>
                     (r.value[i].status == Created <==> old(provider.Unheld(findings[i].operation, head)))
    {
      if findings == [] || !Batch(findings, head) { return Err(Invalid); }
      ghost var review, issue := provider.review, provider.issue;
      var step, results := ReconcileBatch(findings, map[], head);
      OthersKeepCollisions(rendering, findings, head, provider.bot, review, issue, provider.review, provider.issue);
      if step.Err? { return Err(if step.error == Boundary then Boundary else Invalid); }
      var pending := step.value;
      FirstSorted(findings, pending, results, head);
      ghost var before, more := provider.answers, [];
      r, more := Attempts(findings, pending, results, head);
      assert provider.answers[|before|..] == more;
    }

    lemma CreatedIffPending(findings: seq<Finding>, pending: seq<Finding>, results: map<string, PublicationResult>,
                            results': map<string, PublicationResult>, head: string)
      requires Batch(findings, head) && Covers(findings, pending, results, head)
      requires forall o :: o in results ==> results[o].status == Existing
      requires forall f :: f in pending ==> f.operation in results' && results'[f.operation].status == Created
      requires forall o :: o in results && (forall f :: f in pending ==> f.operation != o) ==>
                 o in results' && results'[o] == results[o]
      ensures forall f :: f in findings ==>
                f.operation in results' && (results'[f.operation].status == Created <==> f in pending)
    {
      forall f | f in findings && f !in pending
        ensures f.operation in results' && results'[f.operation].status == Existing
      {
        assert Answers(results, f, head, provider.bot, provider.review, provider.issue);
        forall g | g in pending ensures g.operation != f.operation {
          if g.operation == f.operation { SameOperation(findings, head, f, g); }
        }
      }
    }

    /** What the first reading leaves pending is what nobody holds. */
    lemma FirstSorted(findings: seq<Finding>, pending: seq<Finding>, results: map<string, PublicationResult>,
                      head: string)
      requires provider.Sound() && Covers(findings, pending, results, head)
      requires forall f :: f in pending ==> provider.Unheld(f.operation, head)
      ensures forall f :: f in findings ==> (f in pending <==> provider.Unheld(f.operation, head))
    {
    }

    /** One attempt: a verdict, or what is still pending and whether the lists must be read again. */
    method Round(findings: seq<Finding>, pending: seq<Finding>, results: map<string, PublicationResult>, head: string)
      returns (verdict: Option<Result<seq<PublicationResult>, Failure>>, answer: Answer, pending': seq<Finding>,
               results': map<string, PublicationResult>, stale: bool)
      requires provider.Sound() && Batch(findings, head) && Batch(pending, head) && pending != []
      requires Covers(findings, pending, results, head)
      requires forall f :: f in pending ==> provider.Unheld(f.operation, head)
      requires !Collides(rendering, findings, head, provider.bot, provider.review, provider.issue)
      requires forall o :: o in results ==> results[o].status == Existing
      modifies provider
      ensures provider.Sound() && old(provider.review) <= provider.review && old(provider.issue) <= provider.issue
      ensures !Collides(rendering, findings, head, provider.bot, provider.review, provider.issue)
      ensures provider.refusals == old(provider.refusals) + if verdict == Some(Err(Fenced)) then 1 else 0
      ensures provider.unread >= old(provider.unread)
      ensures provider.answers == old(provider.answers) + if verdict == Some(Err(Fenced)) then [] else [answer]
      ensures verdict.None? ==>
                && Batch(pending', head) && Covers(findings, pending', results', head)
                && (forall o :: o in results' ==> results'[o].status == Existing)
                && (!stale ==> forall f :: f in pending' ==> provider.Unheld(f.operation, head))
                && !(answer.Answered? && answer.status == 200) && pending' != []
                && (stale ==> provider.unread > old(provider.unread))
      ensures verdict.Some? && verdict.value.Ok? ==> Final(findings, verdict.value.value, head)
      ensures verdict == Some(Err(Fenced)) ==> Missing(findings, head)
      ensures verdict.None? && !stale ==> Missing(findings, head)
      ensures verdict.Some? && verdict.value.Err? ==>
                || verdict.value.error == Fenced
                || (verdict.value.error == Boundary && provider.unread > old(provider.unread))
      ensures provider.KindlyBatch() ==>
                && verdict.Some? && verdict.value.Ok?
                && forall i :: 0 <= i < |findings| ==>
                     (verdict.value.value[i].status == Created <==> findings[i] in pending)
    {
      verdict, pending', results', stale := None, pending, results, false;
      var granted;
      granted, answer := Attempt(findings, pending, results, head);
      if !granted {
        PendingIsMissing(findings, pending, head);
        return Some(Err(Fenced)), answer, pending, results, false;
      }
      if answer.Answered? && answer.status == 200 {
        var reference := if answer.body.Fields? then answer.body.id else None;
        results' := SettleAll(findings, pending, results, head, reference);
        CreatedIffPending(findings, pending, results, results', head);
        var all := Collect(findings, results', head);
        return Some(Ok(all)), answer, pending, results', false;
      }
      var step;
      step, results' := ReconcilePending(findings, pending, results, head);
      if step.Err? {
        return if answer.Answered? then Some(Err(Boundary)) else None, answer, pending, results', true;
      }
      pending' := step.value;
      if pending' == [] {
        var all := Collect(findings, results', head);
        return Some(Ok(all)), answer, pending', results', false;
      }
      PendingIsMissing(findings, pending', head);
    }

    /** Read the lists again where the last attempt could not. */
    method Renew(ghost findings: seq<Finding>, pending: seq<Finding>, results: map<string, PublicationResult>,
                 stale: bool, head: string)
      returns (readable: bool, pending': seq<Finding>, results': map<string, PublicationResult>)
      requires provider.Sound() && Batch(findings, head) && Batch(pending, head)
      requires Covers(findings, pending, results, head)
      requires !stale ==> forall f :: f in pending ==> provider.Unheld(f.operation, head)
      requires !Collides(rendering, findings, head, provider.bot, provider.review, provider.issue)
      requires forall o :: o in results ==> results[o].status == Existing
      modifies provider
      ensures provider.Sound() && old(provider.review) <= provider.review && old(provider.issue) <= provider.issue
      ensures !Collides(rendering, findings, head, provider.bot, provider.review, provider.issue)
      ensures Batch(pending', head) && Covers(findings, pending', results', head)
      ensures readable ==> forall f :: f in pending' ==> provider.Unheld(f.operation, head)
      ensures forall o :: o in results' ==> results'[o].status == Existing
      ensures provider.answers == old(provider.answers) && provider.refusals == old(provider.refusals)
      ensures provider.unread == old(provider.unread) + if readable then 0 else 1
      ensures !stale ==> readable && pending' == pending && results' == results
    {
      readable, pending', results' := true, pending, results;
      if stale {
        var step;
        step, results' := ReconcilePending(findings, pending, results, head);
        readable := step.Ok?;
        if readable { pending' := step.value; }
      }
    }

    /** A round on renewed readings, unless nothing is pending any more. */
    method RenewedRound(findings: seq<Finding>, pending: seq<Finding>, results: map<string, PublicationResult>,
                        stale: bool, head: string)
      returns (verdict: Option<Result<seq<PublicationResult>, Failure>>, answer: Answer, pending': seq<Finding>,
               results': map<string, PublicationResult>, stale': bool, ghost given: seq<Answer>)
      requires Underway(findings, pending, results, stale, head)
      modifies provider
      ensures provider.Sound() && old(provider.review) <= provider.review && old(provider.issue) <= provider.issue
      ensures provider.refusals == old(provider.refusals) + if verdict == Some(Err(Fenced)) then 1 else 0
      ensures provider.unread >= old(provider.unread) && provider.answers == old(provider.answers) + given
      ensures verdict.None? ==>
                && given == [answer]
                && Underway(findings, pending', results', stale', head) && (!stale' ==> Missing(findings, head))
                && !(answer.Answered? && answer.status == 200)
                && (stale' ==> provider.unread > old(provider.unread))
      ensures verdict.Some? ==> Concludes(findings, verdict.value, provider.unread > old(provider.unread), head)
      ensures verdict.Some? && verdict.value.Err? ==>
                || verdict.value.error == Fenced
                || (verdict.value.error == Boundary && provider.unread > old(provider.unread))
      ensures provider.KindlyBatch() && !stale ==>
                verdict.Some? && verdict.value.Ok? && CreatedExactly(findings, verdict.value.value, pending)
    {
      answer, stale', given := Lost, stale, [];
      var readable;
      readable, pending', results' := Renew(findings, pending, results, stale, head);
      if !readable { return Some(Err(Boundary)), answer, pending', results', true, []; }
      if pending' == [] {
        var all := Collect(findings, results', head);
        assert forall i :: 0 <= i < |findings| ==> findings[i].operation in results';
        return Some(Ok(all)), answer, pending', results', false, [];
      }
      verdict, answer, pending', results', stale' := Round(findings, pending', results', head);
      given := if verdict == Some(Err(Fenced)) then [] else [answer];
    }

    /** A result names every finding's one holder; an error means some finding is held nowhere, unless
        a list was unreadable. */
    ghost predicate Concludes(findings: seq<Finding>, r: Result<seq<PublicationResult>, Failure>, unreadable: bool,
                              head: string)
      reads this, provider
    {
      if r.Ok? then Final(findings, r.value, head) else unreadable || Missing(findings, head)
    }

    /** Between attempts: every finding is settled by a result or pending, and what is pending is
        held nowhere unless the lists must be read again. */
    ghost predicate Underway(findings: seq<Finding>, pending: seq<Finding>, results: map<string, PublicationResult>,
                             stale: bool, head: string)
      reads this, provider
    {
      && provider.Sound() && Batch(findings, head) && Batch(pending, head) && Covers(findings, pending, results, head)
      && (!stale ==> forall f :: f in pending ==> provider.Unheld(f.operation, head))
      && !Collides(rendering, findings, head, provider.bot, provider.review, provider.issue)
      && forall o :: o in results ==> results[o].status == Existing
    }

    /** Some finding of the batch is held nowhere. */
    ghost predicate Missing(findings: seq<Finding>, head: string)
      reads this, provider
    {
      exists f :: f in findings && provider.Unheld(f.operation, head)
    }

    lemma PendingIsMissing(findings: seq<Finding>, pending: seq<Finding>, head: string)
      requires Within(pending, findings) && pending != []
      requires forall f :: f in pending ==> provider.Unheld(f.operation, head)
      ensures Missing(findings, head)
    {
      assert pending[0] in pending;
    }

    ghost predicate Final(findings: seq<Finding>, all: seq<PublicationResult>, head: string)
      reads this, provider
    {
      |all| == |findings| && forall i :: 0 <= i < |findings| ==> Done(all[i], "finding", findings[i].operation, head)
    }

    /** The attempts at what the first reading left pending. */
    method Attempts(findings: seq<Finding>, unheld: seq<Finding>, settled: map<string, PublicationResult>,
                    head: string)
      returns (r: Result<seq<PublicationResult>, Failure>, ghost more: seq<Answer>)
      requires Underway(findings, unheld, settled, false, head)
      modifies provider
      ensures provider.Sound() && old(provider.review) <= provider.review && old(provider.issue) <= provider.issue
      ensures Concludes(findings, r, provider.unread > old(provider.unread), head)
      ensures r.Err? ==> r.error in {Fenced, Boundary}
      ensures provider.refusals == old(provider.refusals) + if r == Err(Fenced) then 1 else 0
      ensures provider.answers == old(provider.answers) + more
      ensures r == Err(Boundary) ==> provider.unread > old(provider.unread) || Unproved(more)
      ensures provider.KindlyBatch() ==>
                r.Ok? && CreatedExactly(findings, r.value, unheld)
    {
      var pending, results, stale, attempt := unheld, settled, false, 0;
      more := [];
      while true
        invariant 0 <= attempt < ATTEMPTS && Underway(findings, pending, results, stale, head)
        invariant old(provider.review) <= provider.review && old(provider.issue) <= provider.issue
        invariant provider.refusals == old(provider.refusals) && provider.unread >= old(provider.unread)
        invariant provider.answers == old(provider.answers) + more && |more| == attempt
        invariant provider.KindlyBatch() ==> attempt == 0 && !stale && pending == unheld && results == settled
        decreases ATTEMPTS - attempt
      {
        var verdict, answer;
        ghost var given;
        verdict, answer, pending, results, stale, given := RenewedRound(findings, pending, results, stale, head);
        more := more + given;
        if verdict.Some? { return verdict.value, more; }
        if !(answer.Lost? || Transient(answer)) || attempt + 1 == ATTEMPTS {
          ExhaustedIsUnproved(more);
          return Err(Boundary), more;
        }
        attempt := attempt + 1;
      }
    }
  }

  /** A run of the failing kind: an operation published with its line, then again without it, on a
      provider where everything works. Its marker ends up held twice. */
  method RelocatedFindingRepeats(bot: string, plan: nat -> Choice, rendering: Rendering, f: Finding, head: string)
    returns (review: seq<Comment>, issue: seq<Comment>)
    requires (forall n :: Obliging(plan(n))) && Located(f) && Admitted("finding", f.operation, head)
    ensures Holders(review, bot, Marker("finding", f.operation, head)) == 1
    ensures Holders(issue, bot, Marker("finding", f.operation, head)) == 1
    ensures !AtMostOnce(review, issue, bot)
  {
    var provider := new Provider(bot, plan);
    var publisher := new CommentPublisher(provider, rendering);
    var first := publisher.Publish(f, head);
    var second := publisher.Publish(f.(path := "", line := 0), head);
    review, issue := provider.review, provider.issue;
  }

  lemma SameOperation(findings: seq<Finding>, head: string, f: Finding, g: Finding)
    requires Batch(findings, head) && f in findings && g in findings && f.operation == g.operation
    ensures f == g
  {
    var i :| 0 <= i < |findings| && findings[i] == f;
    var j :| 0 <= j < |findings| && findings[j] == g;
    assert i == j;
  }
}
