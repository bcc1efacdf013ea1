/** Publishing one operation as one commit: lookup in the first-parent history, a compare-and-swap
    of the branch, and recovery, against concurrent publishers and foreign pushes. */
module GitPublish {
  import opened Outcomes
  import opened Trailers

  /** A commit names older commits only; identities are positions in the append-only store. */
  datatype Commit = Commit(parents: seq<nat>, body: string)

  datatype Repository = Repository(commits: seq<Commit>, tip: nat)

  predicate Carries(c: Commit, operation: string) {
    OperationLine(operation) in Lines(c.body)
  }

  /** Exactly one operation line and exactly one line of this digest. */
  predicate Exact(c: Commit, operation: string, digest: string) {
    Count(Lines(c.body), OperationLine(operation)) == 1 && Count(Lines(c.body), DigestLine(digest)) == 1
  }

  predicate Graph(commits: seq<Commit>) {
    forall i, k :: 0 <= i < |commits| && 0 <= k < |commits[i].parents| ==> commits[i].parents[k] < i
  }

  /** `git log --first-parent`: identities from `c` back to a root. */
  function FirstParents(commits: seq<Commit>, c: nat): (h: seq<nat>)
    requires Graph(commits) && c < |commits|
    ensures |h| > 0 && h[0] == c && forall i :: 0 <= i < |h| ==> h[i] <= c
    decreases c
  {
    if commits[c].parents == [] then [c] else [c] + FirstParents(commits, commits[c].parents[0])
  }

  /** Every commit of the operation sits directly on the expected head. */
  predicate Lawful(commits: seq<Commit>, operation: string, expected: nat) {
    && Graph(commits)
    && forall i :: 0 <= i < |commits| && Carries(commits[i], operation) ==>
         commits[i].parents != [] && commits[i].parents[0] == expected
  }

  lemma {:induction false} HistoryDescends(commits: seq<Commit>, c: nat, i: nat, j: nat)
    requires Graph(commits) && c < |commits| && i < j < |FirstParents(commits, c)|
    ensures var h := FirstParents(commits, c);
            h[j] < h[i] && commits[h[i]].parents != [] && h[j] <= commits[h[i]].parents[0]
    decreases c
  {
    var p := commits[c].parents[0];
    if i > 0 {
      HistoryDescends(commits, p, i - 1, j - 1);
    } else {
      assert FirstParents(commits, p)[j - 1] <= p;
    }
  }

  /** A history holds the operation at most once, whichever commit it starts from. */
  lemma SingleCommit(commits: seq<Commit>, operation: string, expected: nat, c: nat, i: nat, j: nat)
    requires Lawful(commits, operation, expected) && c < |commits|
    requires i < |FirstParents(commits, c)| && j < |FirstParents(commits, c)|
    requires Carries(commits[FirstParents(commits, c)[i]], operation)
    requires Carries(commits[FirstParents(commits, c)[j]], operation)
    ensures i == j
  {
    if i < j {
      HistoryDescends(commits, c, i, j);
    } else if j < i {
      HistoryDescends(commits, c, j, i);
    }
  }

  ghost predicate HeldOnce(commits: seq<Commit>, operation: string, c: nat)
    requires Graph(commits) && c < |commits|
  {
    var h := FirstParents(commits, c);
    forall i, j :: (&& 0 <= i < |h| && 0 <= j < |h|
                    && Carries(commits[h[i]], operation) && Carries(commits[h[j]], operation)) ==> i == j
  }

  // ---------------------------------------------------------------- every run of publishers and strangers

  datatype Act =
    | Push(commit: Commit)                                              // anyone adds a commit object
    | Move(to: nat)                                                     // anyone moves the branch, forced or not
    | Create(proposed: string, digest: string, others: seq<nat>)        // a publisher adds the operation's commit

  predicate Known(commits: seq<Commit>, ids: seq<nat>) {
    forall k :: 0 <= k < |ids| ==> ids[k] < |commits|
  }

  /** Strangers use no reserved trailer of this operation; publishers commit on the expected head. */
  predicate Permitted(repo: Repository, act: Act, exotic: char -> string, operation: string, expected: nat) {
    match act
    case Push(c) => Known(repo.commits, c.parents) && !Carries(c, operation)
    case Move(to) => to < |repo.commits|
    case Create(proposed, digest, others) =>
      ValidMessage(exotic, proposed) && Known(repo.commits, [expected] + others)
  }

  function Perform(repo: Repository, act: Act, operation: string, expected: nat): Repository {
    match act
    case Push(c) => repo.(commits := repo.commits + [c])
    case Move(to) => repo.(tip := to)
    case Create(proposed, digest, others) =>
      repo.(commits := repo.commits + [Commit([expected] + others, CommitMessage(proposed, operation, digest))])
  }

  function PerformAll(repo: Repository, acts: seq<Act>, operation: string, expected: nat): Repository {
    if acts == [] then repo
    else Perform(PerformAll(repo, acts[..|acts| - 1], operation, expected), acts[|acts| - 1], operation, expected)
  }

  predicate PermittedAll(repo: Repository, acts: seq<Act>, exotic: char -> string, operation: string, expected: nat) {
    acts != [] ==>
      var before := acts[..|acts| - 1];
      && PermittedAll(repo, before, exotic, operation, expected)
      && Permitted(PerformAll(repo, before, operation, expected), acts[|acts| - 1], exotic, operation, expected)
  }

  predicate Sound(repo: Repository, operation: string, expected: nat) {
    repo.tip < |repo.commits| && Lawful(repo.commits, operation, expected)
  }

  lemma PerformKeeps(repo: Repository, act: Act, exotic: char -> string, operation: string, expected: nat)
    requires Sound(repo, operation, expected) && Permitted(repo, act, exotic, operation, expected)
    ensures Sound(Perform(repo, act, operation, expected), operation, expected)
    ensures repo.commits <= Perform(repo, act, operation, expected).commits
  {
    if act.Create? {
      assert Known(repo.commits, [expected] + act.others);
    }
  }

  lemma {:induction false} RunKeeps(repo: Repository, acts: seq<Act>, exotic: char -> string, operation: string,
                                    expected: nat)
    requires Sound(repo, operation, expected) && PermittedAll(repo, acts, exotic, operation, expected)
    ensures Sound(PerformAll(repo, acts, operation, expected), operation, expected)
    ensures repo.commits <= PerformAll(repo, acts, operation, expected).commits
  {
    if acts != [] {
      var before := acts[..|acts| - 1];
      RunKeeps(repo, before, exotic, operation, expected);
      PerformKeeps(PerformAll(repo, before, operation, expected), acts[|acts| - 1], exotic, operation, expected);
    }
  }

  /** However publishers of one operation and strangers interleave, and wherever the branch is
      forced, no first-parent history holds two commits of the operation. */
  lemma OneCommitPerOperation(repo: Repository, acts: seq<Act>, exotic: char -> string, operation: string,
                              expected: nat, c: nat)
    requires repo.tip < |repo.commits| && Graph(repo.commits)
    requires forall i :: 0 <= i < |repo.commits| ==> !Carries(repo.commits[i], operation)
    requires PermittedAll(repo, acts, exotic, operation, expected)
    requires c < |PerformAll(repo, acts, operation, expected).commits|
    ensures Graph(PerformAll(repo, acts, operation, expected).commits)
    ensures HeldOnce(PerformAll(repo, acts, operation, expected).commits, operation, c)
  {
    RunKeeps(repo, acts, exotic, operation, expected);
    var commits := PerformAll(repo, acts, operation, expected).commits;
    var h := FirstParents(commits, c);
    forall i, j | 0 <= i < |h| && 0 <= j < |h| && Carries(commits[h[i]], operation) && Carries(commits[h[j]], operation)
      ensures i == j
    {
      SingleCommit(commits, operation, expected, c, i, j);
    }
  }

  lemma FirstParentsStable(commits: seq<Commit>, more: seq<Commit>, c: nat)
    requires Graph(commits) && Graph(more) && commits <= more && c < |commits|
    ensures FirstParents(more, c) == FirstParents(commits, c)
    decreases c
  {
    assert more[c] == commits[c];
    if commits[c].parents != [] { FirstParentsStable(commits, more, commits[c].parents[0]); }
  }

  /** The exact condition when publications of one operation do not share their expected head: a
      commit of the operation on `expected` is the only one in its history if and only if the
      history of `expected` holds none. */
  lemma SecondCommitIff(commits: seq<Commit>, operation: string, expected: nat, c: Commit)
    requires Graph(commits) && Known(commits, c.parents) && c.parents != [] && c.parents[0] == expected
    requires Carries(c, operation) && HeldOnce(commits, operation, expected)
    ensures Graph(commits + [c])
    ensures HeldOnce(commits + [c], operation, |commits|)
            <==> forall i :: 0 <= i < |FirstParents(commits, expected)| ==>
                   !Carries(commits[FirstParents(commits, expected)[i]], operation)
  {
    var more := commits + [c];
    var h := FirstParents(commits, expected);
    assert Graph(more);
    FirstParentsStable(commits, more, expected);
    assert more[|commits|] == c;
    var h' := FirstParents(more, |commits|);
    assert h' == [|commits|] + h;
    assert forall i :: 0 <= i < |h| ==> h'[i + 1] == h[i] && more[h[i]] == commits[h[i]];
    if i :| 0 <= i < |h| && Carries(commits[h[i]], operation) {
      assert Carries(more[h'[0]], operation) && Carries(more[h'[i + 1]], operation);
      assert !HeldOnce(more, operation, |commits|);
    } else {
      assert forall i :: 1 <= i < |h'| ==> h'[i] == h[i - 1];
    }
  }
}
