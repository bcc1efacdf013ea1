/** The provider's two comment lists for one pull request, and how often a marker is held. */
module Comments {
  import opened Outcomes
  import opened Markers

  datatype Comment = Comment(login: string, id: nat, body: string)

  predicate Holds(c: Comment, bot: string, marker: string) {
    c.login == bot && FinalMarker(c.body, marker)
  }

  /** How many of the bot's comments hold the marker. */
  function Holders(comments: seq<Comment>, bot: string, marker: string): nat {
    if comments == [] then 0
    else
      var n := |comments| - 1;
      Holders(comments[..n], bot, marker) + if Holds(comments[n], bot, marker) then 1 else 0
  }

  /** The first of the bot's comments that holds the marker. */
  function FindMarked(comments: seq<Comment>, bot: string, marker: string): (r: Option<Comment>)
    ensures r.Some? ==> r.value in comments && Holds(r.value, bot, marker)
    ensures r.None? ==> forall c :: c in comments ==> !Holds(c, bot, marker)
  {
    if comments == [] then None
    else if Holds(comments[0], bot, marker) then Some(comments[0])
    else FindMarked(comments[1..], bot, marker)
  }

  lemma HoldersAppend(comments: seq<Comment>, c: Comment, bot: string, marker: string)
    ensures Holders(comments + [c], bot, marker)
            == Holders(comments, bot, marker) + if Holds(c, bot, marker) then 1 else 0
  {
    assert (comments + [c])[..|comments|] == comments;
  }

  lemma {:induction false} HoldersJoin(a: seq<Comment>, b: seq<Comment>, bot: string, marker: string)
    ensures Holders(a + b, bot, marker) == Holders(a, bot, marker) + Holders(b, bot, marker)
  {
    if b == [] {
      assert a + b == a;
    } else {
      var n := |b| - 1;
      HoldersJoin(a, b[..n], bot, marker);
      assert b == b[..n] + [b[n]];
      assert a + b == a + b[..n] + [b[n]];
      HoldersAppend(a + b[..n], b[n], bot, marker);
    }
  }

  lemma {:induction false} FoundIffHeld(comments: seq<Comment>, bot: string, marker: string)
    ensures FindMarked(comments, bot, marker).Some? <==> Holders(comments, bot, marker) > 0
  {
    if comments != [] {
      var n := |comments| - 1;
      FoundIffHeld(comments[..n], bot, marker);
      assert comments[..n] + [comments[n]] == comments;
      if FindMarked(comments, bot, marker).Some? && !Holds(comments[n], bot, marker) {
        var c := FindMarked(comments, bot, marker).value;
        assert c in comments[..n];
      }
      if Holders(comments, bot, marker) > 0 {
        assert Holds(comments[n], bot, marker) || FindMarked(comments[..n], bot, marker).value in comments;
      }
    }
  }

  /** No marker is held twice, and only findings are held among review comments. */
  ghost predicate AtMostOnce(review: seq<Comment>, issue: seq<Comment>, bot: string) {
    forall kind, operation, head :: Admitted(kind, operation, head) ==>
      var marker := Marker(kind, operation, head);
      && Holders(review, bot, marker) + Holders(issue, bot, marker) <= 1
      && (Holders(review, bot, marker) > 0 ==> kind == "finding")
  }

  /** Every marker but this one is held as often as before. */
  ghost predicate OnlyChanged(review: seq<Comment>, issue: seq<Comment>, review': seq<Comment>, issue': seq<Comment>,
                              bot: string, kind: string, operation: string, head: string)
  {
    forall k, o, h :: Admitted(k, o, h) && !(k == kind && o == operation && h == head) ==>
      && Holders(review', bot, Marker(k, o, h)) == Holders(review, bot, Marker(k, o, h))
      && Holders(issue', bot, Marker(k, o, h)) == Holders(issue, bot, Marker(k, o, h))
  }

  /** When only one marker changed, the rest follows from its own count. */
  lemma OwnCountDecides(review: seq<Comment>, issue: seq<Comment>, review': seq<Comment>, issue': seq<Comment>,
                        bot: string, kind: string, operation: string, head: string)
    requires AtMostOnce(review, issue, bot) && Admitted(kind, operation, head)
    requires OnlyChanged(review, issue, review', issue', bot, kind, operation, head)
    ensures var marker := Marker(kind, operation, head);
            AtMostOnce(review', issue', bot)
            <==> && Holders(review', bot, marker) + Holders(issue', bot, marker) <= 1
                 && (Holders(review', bot, marker) > 0 ==> kind == "finding")
  {
  }

  predicate Posted(c: Comment, bot: string, kind: string, operation: string, head: string, body: string) {
    c.login == bot && c.body == Payload(body, Marker(kind, operation, head))
  }

  /** Posting one comment adds one holder of its own marker and touches no other. */
  lemma PostCounts(comments: seq<Comment>, bot: string, c: Comment, kind: string, operation: string, head: string,
                   body: string)
    requires Admitted(kind, operation, head) && Posted(c, bot, kind, operation, head, body)
    ensures forall k, o, h :: Admitted(k, o, h) ==>
              Holders(comments + [c], bot, Marker(k, o, h))
              == Holders(comments, bot, Marker(k, o, h)) + if k == kind && o == operation && h == head then 1 else 0
  {
    forall k, o, h | Admitted(k, o, h)
      ensures Holders(comments + [c], bot, Marker(k, o, h))
              == Holders(comments, bot, Marker(k, o, h)) + if k == kind && o == operation && h == head then 1 else 0
    {
      PayloadMatchesOwnTriple(body, kind, operation, head, k, o, h);
      HoldersAppend(comments, c, bot, Marker(k, o, h));
    }
  }

  /** Comments by anyone else hold nothing. */
  lemma {:induction false} ForeignHoldNothing(comments: seq<Comment>, bot: string, marker: string)
    requires forall c :: c in comments ==> c.login != bot
    ensures Holders(comments, bot, marker) == 0
  {
    if comments != [] {
      ForeignHoldNothing(comments[..|comments| - 1], bot, marker);
    }
  }

  lemma ForeignCounts(comments: seq<Comment>, more: seq<Comment>, bot: string)
    requires forall c :: c in more ==> c.login != bot
    ensures forall marker :: Holders(comments + more, bot, marker) == Holders(comments, bot, marker)
  {
    forall marker ensures Holders(comments + more, bot, marker) == Holders(comments, bot, marker) {
      HoldersJoin(comments, more, bot, marker);
      ForeignHoldNothing(more, bot, marker);
    }
  }

  /** Of any comments, those by other people. */
  function Strangers(comments: seq<Comment>, bot: string): (r: seq<Comment>)
    ensures forall c :: c in r ==> c.login != bot
  {
    if comments == [] then []
    else (if comments[0].login != bot then [comments[0]] else []) + Strangers(comments[1..], bot)
  }

  /** Only other people's comments were added. */
  ghost predicate ByOthers(before: seq<Comment>, after: seq<Comment>, bot: string) {
    before <= after && forall c :: c in after ==> c in before || c.login != bot
  }

  /** Whatever else was added is this one comment. */
  ghost predicate ByPost(before: seq<Comment>, after: seq<Comment>, bot: string, payload: string) {
    forall c :: c in after ==> c in before || c.login != bot || c.body == payload
  }

  /** Two comments that hold a marker held once are one. */
  lemma {:induction false} OneHolder(comments: seq<Comment>, bot: string, marker: string, c: Comment, d: Comment)
    requires Holders(comments, bot, marker) <= 1 && c in comments && d in comments
    requires Holds(c, bot, marker) && Holds(d, bot, marker)
    ensures c == d
  {
    var n := |comments| - 1;
    FoundIffHeld(comments[..n], bot, marker);
    if c in comments[..n] && d in comments[..n] { OneHolder(comments[..n], bot, marker, c, d); }
  }

  // ---------------------------------------------------------------- batches

  datatype Draft = Draft(operation: string, body: string)

  /** The part of a batch that landed: any subset, in batch order. */
  function Landed(drafts: seq<Draft>, mask: seq<bool>, bot: string, head: string, id: nat): seq<Comment>
    requires |mask| == |drafts|
  {
    if drafts == [] then []
    else
      var n := |drafts| - 1;
      Landed(drafts[..n], mask[..n], bot, head, id)
      + if mask[n]
        then [Comment(bot, id, Payload(drafts[n].body, Marker("finding", drafts[n].operation, head)))]
        else []
  }

  /** Whatever else was added is a draft of the batch. */
  ghost predicate ByBatch(before: seq<Comment>, after: seq<Comment>, bot: string, drafts: seq<Draft>, head: string) {
    forall c :: c in after ==>
      || c in before || c.login != bot
      || exists i :: 0 <= i < |drafts|
                     && c.body == Payload(drafts[i].body, Marker("finding", drafts[i].operation, head))
  }

  lemma {:induction false} LandedAreDrafts(drafts: seq<Draft>, mask: seq<bool>, bot: string, head: string, id: nat,
                                           c: Comment)
    requires |mask| == |drafts| && c in Landed(drafts, mask, bot, head, id)
    ensures exists i :: 0 <= i < |drafts|
                        && c.body == Payload(drafts[i].body, Marker("finding", drafts[i].operation, head))
  {
    var n := |drafts| - 1;
    if c in Landed(drafts[..n], mask[..n], bot, head, id) {
      LandedAreDrafts(drafts[..n], mask[..n], bot, head, id, c);
      var i :| 0 <= i < n && c.body == Payload(drafts[..n][i].body, Marker("finding", drafts[..n][i].operation, head));
      assert drafts[i] == drafts[..n][i];
    } else {
      assert c.body == Payload(drafts[n].body, Marker("finding", drafts[n].operation, head));
    }
  }

  lemma LandedByBatch(review: seq<Comment>, bot: string, drafts: seq<Draft>, mask: seq<bool>, head: string, id: nat)
    requires |mask| == |drafts|
    ensures ByBatch(review, review + Landed(drafts, mask, bot, head, id), bot, drafts, head)
  {
    forall c | c in Landed(drafts, mask, bot, head, id)
      ensures exists i :: 0 <= i < |drafts|
                          && c.body == Payload(drafts[i].body, Marker("finding", drafts[i].operation, head))
    {
      LandedAreDrafts(drafts, mask, bot, head, id, c);
    }
  }

  predicate DistinctOperations(drafts: seq<Draft>) {
    forall i, j :: 0 <= i < j < |drafts| ==> drafts[i].operation != drafts[j].operation
  }

  /** How many landed drafts carry the operation. */
  function Chosen(drafts: seq<Draft>, mask: seq<bool>, operation: string): nat
    requires |mask| == |drafts|
  {
    if drafts == [] then 0
    else
      var n := |drafts| - 1;
      Chosen(drafts[..n], mask[..n], operation) + if mask[n] && drafts[n].operation == operation then 1 else 0
  }

  lemma {:induction false} LandedHolds(drafts: seq<Draft>, mask: seq<bool>, bot: string, head: string, id: nat,
                                       kind: string, operation: string, head': string)
    requires |mask| == |drafts| && IsHead(head) && Admitted(kind, operation, head')
    requires forall i :: 0 <= i < |drafts| ==> IsOperation(drafts[i].operation)
    ensures Holders(Landed(drafts, mask, bot, head, id), bot, Marker(kind, operation, head'))
            == if kind == "finding" && head' == head then Chosen(drafts, mask, operation) else 0
  {
    if drafts != [] {
      var n := |drafts| - 1;
      LandedHolds(drafts[..n], mask[..n], bot, head, id, kind, operation, head');
      PayloadMatchesOwnTriple(drafts[n].body, "finding", drafts[n].operation, head, kind, operation, head');
      if mask[n] {
        HoldersAppend(Landed(drafts[..n], mask[..n], bot, head, id),
                      Comment(bot, id, Payload(drafts[n].body, Marker("finding", drafts[n].operation, head))), bot,
                      Marker(kind, operation, head'));
      } else {
        assert Landed(drafts, mask, bot, head, id) == Landed(drafts[..n], mask[..n], bot, head, id);
      }
    }
  }

  lemma {:induction false} ChosenOnce(drafts: seq<Draft>, mask: seq<bool>, operation: string)
    requires |mask| == |drafts| && DistinctOperations(drafts)
    ensures Chosen(drafts, mask, operation) <= 1
    ensures forall i :: 0 <= i < |drafts| && drafts[i].operation == operation ==>
              Chosen(drafts, mask, operation) == if mask[i] then 1 else 0
    ensures Chosen(drafts, mask, operation) > 0 ==> exists i :: 0 <= i < |drafts| && drafts[i].operation == operation
  {
    if drafts != [] {
      var n := |drafts| - 1;
      ChosenOnce(drafts[..n], mask[..n], operation);
      if drafts[n].operation == operation {
        assert Chosen(drafts[..n], mask[..n], operation) == 0;
      } else if Chosen(drafts[..n], mask[..n], operation) > 0 {
        var i :| 0 <= i < n && drafts[..n][i].operation == operation;
        assert drafts[i].operation == operation;
      }
    }
  }

  /** A batch that landed whole is held, each finding once. */
  lemma WholeBatchLands(review: seq<Comment>, issue: seq<Comment>, bot: string, drafts: seq<Draft>, mask: seq<bool>,
                        head: string, id: nat)
    requires |mask| == |drafts| && IsHead(head) && DistinctOperations(drafts) && AtMostOnce(review, issue, bot)
    requires forall i :: 0 <= i < |drafts| ==> IsOperation(drafts[i].operation)
    requires forall i :: 0 <= i < |drafts| ==>
               Holders(review, bot, Marker("finding", drafts[i].operation, head)) == 0
               && Holders(issue, bot, Marker("finding", drafts[i].operation, head)) == 0
    ensures (forall i :: 0 <= i < |mask| ==> mask[i]) ==>
              forall i :: 0 <= i < |drafts| ==>
                Holders(review + Landed(drafts, mask, bot, head, id), bot,
                        Marker("finding", drafts[i].operation, head)) == 1
  {
    LandingKeeps(review, issue, bot, drafts, mask, head, id);
    if forall i :: 0 <= i < |mask| ==> mask[i] {
      forall i | 0 <= i < |drafts|
        ensures Holders(review + Landed(drafts, mask, bot, head, id), bot,
                        Marker("finding", drafts[i].operation, head)) == 1
      {
        ChosenOnce(drafts, mask, drafts[i].operation);
        assert Admitted("finding", drafts[i].operation, head);
      }
    }
  }

  /** Landing any subset of a batch of unheld findings keeps every marker held at most once, and
      holds exactly the landed ones. */
  lemma LandingKeeps(review: seq<Comment>, issue: seq<Comment>, bot: string,
                     drafts: seq<Draft>, mask: seq<bool>, head: string, id: nat)
    requires |mask| == |drafts| && IsHead(head) && DistinctOperations(drafts)
    requires AtMostOnce(review, issue, bot)
    requires forall i :: 0 <= i < |drafts| ==> IsOperation(drafts[i].operation)
    requires forall i :: 0 <= i < |drafts| ==>
               Holders(review, bot, Marker("finding", drafts[i].operation, head)) == 0
               && Holders(issue, bot, Marker("finding", drafts[i].operation, head)) == 0
    ensures AtMostOnce(review + Landed(drafts, mask, bot, head, id), issue, bot)
    ensures forall kind, operation, head' :: Admitted(kind, operation, head') ==>
              Holders(review + Landed(drafts, mask, bot, head, id), bot, Marker(kind, operation, head'))
              == Holders(review, bot, Marker(kind, operation, head'))
                 + if kind == "finding" && head' == head then Chosen(drafts, mask, operation) else 0
  {
    forall kind, operation, head' | Admitted(kind, operation, head')
      ensures Holders(review + Landed(drafts, mask, bot, head, id), bot, Marker(kind, operation, head'))
              == Holders(review, bot, Marker(kind, operation, head'))
                 + if kind == "finding" && head' == head then Chosen(drafts, mask, operation) else 0
    {
      HoldersJoin(review, Landed(drafts, mask, bot, head, id), bot, Marker(kind, operation, head'));
      LandedHolds(drafts, mask, bot, head, id, kind, operation, head');
    }
    forall operation ensures Chosen(drafts, mask, operation) <= 1
                             && (Chosen(drafts, mask, operation) > 0 ==>
                                   exists i :: 0 <= i < |drafts| && drafts[i].operation == operation)
    {
      ChosenOnce(drafts, mask, operation);
    }
  }
}
