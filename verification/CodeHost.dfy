/** The code host as publication sees it: two comment lists that only grow, where a write may
    land and lose its answer. A write is visible to listings once its answer or error is seen. */
module CodeHost {
  import opened Outcomes
  import opened Markers
  import opened Comments

  datatype Body = Fields(id: Option<nat>, message: string, errors: bool) | Opaque

  datatype Answer = Lost | Answered(status: nat, body: Body)

  datatype Failure =
    | Boundary          // the provider did not prove an outcome
    | Invalid           // a value error: malformed request or a payload collision
    | Fenced            // the stale fence refused the effect
    | Malformed         // a proven answer whose reference could not be read

  lemma HoldersGrow(before: seq<Comment>, after: seq<Comment>, bot: string, marker: string)
    requires before <= after
    ensures Holders(before, bot, marker) <= Holders(after, bot, marker)
  {
    assert after == before + after[|before|..];
    HoldersJoin(before, after[|before|..], bot, marker);
  }

  /** One turn of the provider and of everyone else on the pull request. */
  datatype Choice = Choice(
    more: seq<Comment>, others: seq<Comment>, granted: bool, reviewFails: bool, issueFails: bool,
    landed: bool, mask: seq<bool>, lost: bool, status: nat, reply: Body, id: nat)

  /** A turn in which everything works: what is written lands and is acknowledged. */
  predicate Obliging(c: Choice) {
    && c.granted && !c.reviewFails && !c.issueFails && c.landed && !c.lost && c.status == 201
    && c.reply.Fields? && c.reply.id.Some?
  }

  /** Likewise for batches. */
  predicate ObligingBatch(c: Choice) {
    c.granted && !c.reviewFails && !c.issueFails && c.landed && c.mask == [] && !c.lost && c.status == 200
  }

  function AnswerTo(c: Choice, proof: nat, landed: bool): Answer {
    if c.lost || (c.status == proof && !landed) then Lost else Answered(c.status, c.reply)
  }

  /** The provider follows a plan; everything proved holds for every plan. */
  class Provider {
    const bot: string
    const plan: nat -> Choice
    var turn: nat
    var review: seq<Comment>
    var issue: seq<Comment>
    /** The answers to posts so far, how often the fence refused, and how often a list was unreadable. */
    ghost var answers: seq<Answer>
    ghost var refusals: nat
    /** A granted fence clears one post. */
    ghost var cleared: bool
    ghost var unread: nat

    constructor (bot: string, plan: nat -> Choice)
      ensures this.bot == bot && this.plan == plan && turn == 0 && review == [] && issue == [] && Sound()
    {
      this.bot, this.plan := bot, plan;
      turn, review, issue := 0, [], [];
      answers, refusals, unread, cleared := [], 0, 0, false;
    }

    ghost predicate Sound()
      reads this
    {
      AtMostOnce(review, issue, bot)
    }

    ghost predicate Kindly() {
      forall n :: Obliging(plan(n))
    }

    ghost predicate KindlyBatch() {
      forall n :: ObligingBatch(plan(n))
    }

    ghost function InReview(kind: string, operation: string, head: string): nat
      reads this
    {
      Holders(review, bot, Marker(kind, operation, head))
    }

    ghost function InIssue(kind: string, operation: string, head: string): nat
      reads this
    {
      Holders(issue, bot, Marker(kind, operation, head))
    }

    ghost predicate Unheld(operation: string, head: string)
      reads this
    {
      InReview("finding", operation, head) == 0 && InIssue("finding", operation, head) == 0
    }

    /** Take the next turn; other people comment at any time. */
    method Turn() returns (c: Choice)
      modifies this`turn, this`review, this`issue
      ensures c == plan(old(turn)) && turn == old(turn) + 1
      ensures ByOthers(old(review), review, bot) && ByOthers(old(issue), issue, bot) && (old(Sound()) ==> Sound())
      ensures forall marker :: Holders(review, bot, marker) == old(Holders(review, bot, marker))
      ensures forall marker :: Holders(issue, bot, marker) == old(Holders(issue, bot, marker))
    {
      c := plan(turn);
      turn := turn + 1;
      ForeignCounts(review, Strangers(c.more, bot), bot);
      ForeignCounts(issue, Strangers(c.others, bot), bot);
      review, issue := review + Strangers(c.more, bot), issue + Strangers(c.others, bot);
    }

    method Fence() returns (granted: bool)
      modifies this`turn, this`review, this`issue, this`refusals, this`cleared
      ensures ByOthers(old(review), review, bot) && ByOthers(old(issue), issue, bot) && (old(Sound()) ==> Sound())
      ensures forall marker :: Holders(review, bot, marker) == old(Holders(review, bot, marker))
      ensures forall marker :: Holders(issue, bot, marker) == old(Holders(issue, bot, marker))
      ensures granted == plan(old(turn)).granted && turn == old(turn) + 1
      ensures refusals == old(refusals) + (if granted then 0 else 1) && cleared == granted
    {
      var c := Turn();
      granted := c.granted;
      if !granted { refusals := refusals + 1; }
      cleared := granted;
    }

    method List() returns (review': Result<seq<Comment>, Failure>, issue': Result<seq<Comment>, Failure>)
      modifies this`turn, this`review, this`issue, this`unread
      ensures ByOthers(old(review), review, bot) && ByOthers(old(issue), issue, bot) && (old(Sound()) ==> Sound())
      ensures forall marker :: Holders(review, bot, marker) == old(Holders(review, bot, marker))
      ensures forall marker :: Holders(issue, bot, marker) == old(Holders(issue, bot, marker))
      ensures review'.Ok? ==> review'.value == review
      ensures issue'.Ok? ==> issue'.value == issue
      ensures review'.Err? ==> review'.error == Boundary
      ensures issue'.Err? ==> issue'.error == Boundary
      ensures (review'.Err? <==> plan(old(turn)).reviewFails) && (issue'.Err? <==> plan(old(turn)).issueFails)
      ensures turn == old(turn) + 1 && unread == old(unread) + if review'.Err? || issue'.Err? then 1 else 0
    {
      var c := Turn();
      review' := if c.reviewFails then Err(Boundary) else Ok(review);
      issue' := if c.issueFails then Err(Boundary) else Ok(issue);
      if c.reviewFails || c.issueFails { unread := unread + 1; }
    }

    method ListReview() returns (listed: Result<seq<Comment>, Failure>)
      modifies this`turn, this`review, this`issue, this`unread
      ensures ByOthers(old(review), review, bot) && ByOthers(old(issue), issue, bot) && (old(Sound()) ==> Sound())
      ensures forall marker :: Holders(review, bot, marker) == old(Holders(review, bot, marker))
      ensures forall marker :: Holders(issue, bot, marker) == old(Holders(issue, bot, marker))
      ensures listed == if plan(old(turn)).reviewFails then Err(Boundary) else Ok(review)
      ensures turn == old(turn) + 1 && unread == old(unread) + if listed.Err? then 1 else 0
    {
      var c := Turn();
      listed := if c.reviewFails then Err(Boundary) else Ok(review);
      if c.reviewFails { unread := unread + 1; }
    }

    method ListIssue() returns (listed: Result<seq<Comment>, Failure>)
      modifies this`turn, this`review, this`issue, this`unread
      ensures ByOthers(old(review), review, bot) && ByOthers(old(issue), issue, bot) && (old(Sound()) ==> Sound())
      ensures forall marker :: Holders(review, bot, marker) == old(Holders(review, bot, marker))
      ensures forall marker :: Holders(issue, bot, marker) == old(Holders(issue, bot, marker))
      ensures listed == if plan(old(turn)).issueFails then Err(Boundary) else Ok(issue)
      ensures turn == old(turn) + 1 && unread == old(unread) + if listed.Err? then 1 else 0
    {
      var c := Turn();
      listed := if c.issueFails then Err(Boundary) else Ok(issue);
      if c.issueFails { unread := unread + 1; }
    }

    /** An issue comment lands or not, whatever is held already. */
    method PostIssue(kind: string, operation: string, head: string, body: string) returns (answer: Answer)
      requires Admitted(kind, operation, head) && cleared
      modifies this`turn, this`review, this`issue, this`answers, this`cleared
      ensures old(review) <= review && old(issue) <= issue && !cleared
      ensures ByOthers(old(review), review, bot)
      ensures ByPost(old(issue), issue, bot, Payload(body, Marker(kind, operation, head)))
      ensures turn == old(turn) + 1 && answers == old(answers) + [answer]
      ensures OnlyChanged(old(review), old(issue), review, issue, bot, kind, operation, head)
      ensures InReview(kind, operation, head) == old(InReview(kind, operation, head))
      ensures InIssue(kind, operation, head)
              == old(InIssue(kind, operation, head)) + if plan(old(turn)).landed then 1 else 0
      ensures answer == AnswerTo(plan(old(turn)), 201, plan(old(turn)).landed)
    {
      var turned := Turn();
      if turned.landed {
        var c := Comment(bot, turned.id, Payload(body, Marker(kind, operation, head)));
        PostCounts(issue, bot, c, kind, operation, head, body);
        issue := issue + [c];
      }
      answer := AnswerTo(turned, 201, turned.landed);
      answers, cleared := answers + [answer], false;
    }

    /** A review comment likewise. */
    method PostReview(operation: string, head: string, body: string) returns (answer: Answer)
      requires Admitted("finding", operation, head) && cleared
      modifies this`turn, this`review, this`issue, this`answers, this`cleared
      ensures old(review) <= review && old(issue) <= issue && !cleared
      ensures ByOthers(old(issue), issue, bot)
      ensures ByPost(old(review), review, bot, Payload(body, Marker("finding", operation, head)))
      ensures turn == old(turn) + 1 && answers == old(answers) + [answer]
      ensures OnlyChanged(old(review), old(issue), review, issue, bot, "finding", operation, head)
      ensures InIssue("finding", operation, head) == old(InIssue("finding", operation, head))
      ensures InReview("finding", operation, head)
              == old(InReview("finding", operation, head)) + if plan(old(turn)).landed then 1 else 0
      ensures answer == AnswerTo(plan(old(turn)), 201, plan(old(turn)).landed)
    {
      var turned := Turn();
      if turned.landed {
        var c := Comment(bot, turned.id, Payload(body, Marker("finding", operation, head)));
        PostCounts(review, bot, c, "finding", operation, head, body);
        review := review + [c];
      }
      answer := AnswerTo(turned, 201, turned.landed);
      answers, cleared := answers + [answer], false;
    }

    /** A batch may land in part; status 200 means all of it landed. */
    method PostBatch(drafts: seq<Draft>, head: string) returns (answer: Answer)
      requires Sound() && IsHead(head) && DistinctOperations(drafts) && cleared
      requires forall i :: 0 <= i < |drafts| ==> IsOperation(drafts[i].operation) && Unheld(drafts[i].operation, head)
      modifies this`turn, this`review, this`issue, this`answers, this`cleared
      ensures !cleared
      ensures Sound() && old(review) <= review && ByOthers(old(issue), issue, bot)
      ensures ByBatch(old(review), review, bot, drafts, head)
      ensures turn == old(turn) + 1 && answers == old(answers) + [answer]
      ensures drafts != [] && ObligingBatch(plan(old(turn))) ==> answer == Answered(200, plan(old(turn)).reply)
      ensures answer.Answered? && answer.status == 200 ==>
                forall i :: 0 <= i < |drafts| ==> InReview("finding", drafts[i].operation, head) == 1
    {
      var turned := Turn();
      var mask := if |turned.mask| == |drafts| then turned.mask else seq(|drafts|, _ => turned.landed);
      LandingKeeps(review, issue, bot, drafts, mask, head, turned.id);
      LandedByBatch(review, bot, drafts, mask, head, turned.id);
      WholeBatchLands(review, issue, bot, drafts, mask, head, turned.id);
      review := review + Landed(drafts, mask, bot, head, turned.id);
      var complete := forall i :: 0 <= i < |mask| ==> mask[i];
      answer := AnswerTo(turned, 200, complete);
      answers, cleared := answers + [answer], false;
    }
  }
}
