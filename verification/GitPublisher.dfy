/** The host's publisher: reconcile, prepare, compare-and-swap, reconcile again. Between any two
    of its reads and writes other publishers and strangers may act. */
module GitPublisher {
  import opened Outcomes
  import opened Trailers
  import opened GitPublish

  datatype Category =
    | Correlation | RepositoryRef | PatchAdmission | GitOperation | Idempotency
    | CurrentAuthority | ObjectWrite | RefCas | BoundaryUnavailable

  /** The code host's projection of the pull request; it may lag behind the branch. */
  datatype Pull = Pull(sameRepository: bool, safeBranch: bool, head: nat, base: nat, rest: string)

  datatype Reconciliation = Reconciliation(observed: nat, commit: Option<nat>)

  /** One turn of the code host and of everyone else: what they do first, what the pull request
      shows, and whether the step fails, is refused, or loses its answer. */
  datatype Choice = Choice(others: seq<Act>, pull: Pull, fails: bool, refused: bool, lost: bool)

  /** A turn in which nobody else acts and nothing goes wrong. */
  predicate Quiet(c: Choice) {
    c.others == [] && c.pull.sameRepository && c.pull.safeBranch && !c.fails && !c.refused && !c.lost
  }

  datatype Published = Published(head: nat, recovered: bool)

  function ExpectedParents(expected: nat, base: nat, merge: bool): seq<nat> {
    [expected] + if merge then [base] else []
  }

  /** `c` is the operation's only commit in a history, with this digest and these parents. */
  ghost predicate TheOne(commits: seq<Commit>, observed: nat, operation: string, digest: string, parents: seq<nat>,
                         c: nat)
    requires Graph(commits) && observed < |commits|
  {
    var h := FirstParents(commits, observed);
    && c in h && Carries(commits[c], operation) && Exact(commits[c], operation, digest) && commits[c].parents == parents
    && forall k :: k in h && Carries(commits[k], operation) ==> k == c
  }

  ghost predicate NoneIn(commits: seq<Commit>, observed: nat, operation: string)
    requires Graph(commits) && observed < |commits|
  {
    forall k :: k in FirstParents(commits, observed) ==> !Carries(commits[k], operation)
  }

  lemma HistoryDistinct(commits: seq<Commit>, observed: nat, i: nat)
    requires Graph(commits) && observed < |commits| && i < |FirstParents(commits, observed)|
    ensures FirstParents(commits, observed)[i] !in FirstParents(commits, observed)[..i]
  {
    var h := FirstParents(commits, observed);
    forall j | 0 <= j < i ensures h[j] != h[i] {
      HistoryDescends(commits, observed, j, i);
    }
  }

  /** The commits of the operation in a history, newest first, unless one of them is not exact. */
  method Matches(commits: seq<Commit>, observed: nat, operation: string, digest: string)
    returns (exact: bool, matches: seq<nat>)
    requires Graph(commits) && observed < |commits|
    ensures forall k :: k in matches ==> k in FirstParents(commits, observed)
    ensures forall a, b :: 0 <= a < b < |matches| ==> matches[a] != matches[b]
    ensures exact ==> forall k :: k in FirstParents(commits, observed) && Carries(commits[k], operation) ==>
              k in matches
    ensures exact ==> forall k :: k in matches ==>
              Carries(commits[k], operation) && Exact(commits[k], operation, digest)
    ensures !exact ==> exists k :: k in FirstParents(commits, observed) && Carries(commits[k], operation)
                                   && !Exact(commits[k], operation, digest)
  {
    var h := FirstParents(commits, observed);
    matches := [];
    for i := 0 to |h|
      invariant forall k :: k in matches <==> k in h[..i] && Carries(commits[k], operation)
      invariant forall k :: k in matches ==> Exact(commits[k], operation, digest)
      invariant forall a, b :: 0 <= a < b < |matches| ==> matches[a] != matches[b]
    {
      HistoryDistinct(commits, observed, i);
      assert h[..i + 1] == h[..i] + [h[i]];
      if Carries(commits[h[i]], operation) {
        if !Exact(commits[h[i]], operation, digest) {
          assert h[i] in h;
          return false, matches;
        }
        matches := matches + [h[i]];
      }
    }
    assert h[..|h|] == h;
    exact := true;
  }

  /** The lookup: found if and only if exactly one commit of the operation is there and it is
      exact; absent if and only if there is none. */
  method Search(commits: seq<Commit>, observed: nat, operation: string, digest: string, parents: seq<nat>)
    returns (r: Result<Option<nat>, Category>)
    requires Graph(commits) && observed < |commits|
    ensures r == Ok(None) <==> NoneIn(commits, observed, operation)
    ensures forall c: nat :: r == Ok(Some(c)) <==> TheOne(commits, observed, operation, digest, parents, c)
    ensures r.Err? ==> r.error == Idempotency
  {
    var exact, matches := Matches(commits, observed, operation, digest);
    if !exact { return Err(Idempotency); }
    if |matches| > 1 {
      assert matches[0] in matches && matches[1] in matches && matches[0] != matches[1];
      return Err(Idempotency);
    }
    if matches == [] { return Ok(None); }
    var c := matches[0];
    assert c in matches && forall k :: k in matches ==> k == c;
    if commits[c].parents != parents { return Err(Idempotency); }
    r := Ok(Some(c));
  }

  /** Write/read: the commit a publisher creates is the one a reconcile finds, from any branch
      position whose first-parent history reaches it. */
  lemma CreatedIsFound(commits: seq<Commit>, exotic: char -> string, proposed: string, operation: string,
                       digest: string, expected: nat, base: nat, merge: bool, observed: nat, c: nat)
    requires Lawful(commits, operation, expected) && observed < |commits| && c in FirstParents(commits, observed)
    requires ValidMessage(exotic, proposed) && OneLine(operation) && OneLine(digest)
    requires commits[c] == Commit(ExpectedParents(expected, base, merge), CommitMessage(proposed, operation, digest))
    ensures TheOne(commits, observed, operation, digest, ExpectedParents(expected, base, merge), c)
  {
    MessageCarriesOwnTrailer(exotic, proposed, operation, digest, operation, digest);
    CountAbsent(Lines(commits[c].body), OperationLine(operation));
    var h := FirstParents(commits, observed);
    var i :| 0 <= i < |h| && h[i] == c;
    forall k | k in h && Carries(commits[k], operation) ensures k == c {
      var j :| 0 <= j < |h| && h[j] == k;
      SingleCommit(commits, operation, expected, observed, i, j);
    }
  }

  /** A publisher's commit speaks for its own operation only. */
  lemma CreatedIsForeignElsewhere(exotic: char -> string, proposed: string, operation: string, digest: string,
                                  parents: seq<nat>, operation': string)
    requires ValidMessage(exotic, proposed) && OneLine(operation) && OneLine(digest)
    ensures Carries(Commit(parents, CommitMessage(proposed, operation, digest)), operation')
            <==> operation' == operation
  {
    MessageCarriesOwnTrailer(exotic, proposed, operation, digest, operation', digest);
    CountAbsent(Lines(CommitMessage(proposed, operation, digest)), OperationLine(operation'));
  }

  /** An operation with a line break in it is never found again, whatever was committed. */
  lemma BrokenOperationIsNeverFound(c: Commit, operation: string)
    requires !OneLine(operation)
    ensures !Carries(c, operation)
  {
    LinesAreSingle("", c.body);
    var i :| 0 <= i < |operation| && LineBreak(operation[i]);
    assert OperationLine(operation)[|OPERATION| + i] == operation[i];
  }

  /** A digest with a line break in it is not exact in any commit: a lookup of its operation ends in
      the idempotency error. */
  lemma BrokenDigestIsNeverExact(c: Commit, operation: string, digest: string)
    requires !OneLine(digest)
    ensures !Exact(c, operation, digest)
  {
    LinesAreSingle("", c.body);
    CountAbsent(Lines(c.body), DigestLine(digest));
    var i :| 0 <= i < |digest| && LineBreak(digest[i]);
    assert DigestLine(digest)[|DIGEST| + i] == digest[i];
  }

  /** The exact condition: the commit a publisher creates is the one a reconcile finds if and only
      if operation and digest are single lines. */
  lemma CreatedIsFoundIff(commits: seq<Commit>, exotic: char -> string, proposed: string, operation: string,
                          digest: string, expected: nat, base: nat, merge: bool, observed: nat, c: nat)
    requires Lawful(commits, operation, expected) && observed < |commits| && c in FirstParents(commits, observed)
    requires ValidMessage(exotic, proposed)
    requires commits[c] == Commit(ExpectedParents(expected, base, merge), CommitMessage(proposed, operation, digest))
    ensures TheOne(commits, observed, operation, digest, ExpectedParents(expected, base, merge), c)
            <==> OneLine(operation) && OneLine(digest)
  {
    if !OneLine(operation) {
      BrokenOperationIsNeverFound(commits[c], operation);
    } else if !OneLine(digest) {
      BrokenDigestIsNeverExact(commits[c], operation, digest);
    } else {
      CreatedIsFound(commits, exotic, proposed, operation, digest, expected, base, merge, observed, c);
    }
  }

  /** What a lookup answers otherwise: absent for a broken operation, and for a broken digest alone
      the idempotency error, since the operation is there and no commit can be exact. */
  lemma CreatedOtherwise(commits: seq<Commit>, exotic: char -> string, proposed: string, operation: string,
                         digest: string, expected: nat, base: nat, merge: bool, observed: nat, c: nat)
    requires Graph(commits) && observed < |commits| && c in FirstParents(commits, observed)
    requires ValidMessage(exotic, proposed)
    requires commits[c] == Commit(ExpectedParents(expected, base, merge), CommitMessage(proposed, operation, digest))
    ensures !OneLine(operation) ==> NoneIn(commits, observed, operation)
    ensures OneLine(operation) && !OneLine(digest) ==>
              && !NoneIn(commits, observed, operation)
              && forall k: nat :: !TheOne(commits, observed, operation, digest,
                                          ExpectedParents(expected, base, merge), k)
  {
    if !OneLine(operation) {
      forall k | k in FirstParents(commits, observed) ensures !Carries(commits[k], operation) {
        BrokenOperationIsNeverFound(commits[k], operation);
      }
    } else if !OneLine(digest) {
      OperationIsCarried(exotic, proposed, operation, digest, commits[c].parents);
      forall k | k in FirstParents(commits, observed) ensures !Exact(commits[k], operation, digest) {
        BrokenDigestIsNeverExact(commits[k], operation, digest);
      }
    }
  }

  /** The operation line is carried whatever the digest. */
  lemma OperationIsCarried(exotic: char -> string, proposed: string, operation: string, digest: string,
                           parents: seq<nat>)
    requires ValidMessage(exotic, proposed) && OneLine(operation)
    ensures Carries(Commit(parents, CommitMessage(proposed, operation, digest)), operation)
  {
    var line, rest := OperationLine(operation), DigestLine(digest) + "\n";
    LineThenRest(line, rest);
    assert Lines(Trailer(operation, digest))[0] == line;
    CountAbsent(Lines(Trailer(operation, digest)), line);
    LinesAcrossBlank("", proposed, Trailer(operation, digest), line);
    CountAbsent(Lines(CommitMessage(proposed, operation, digest)), line);
  }

  lemma {:induction false} RunsJoin(repo: Repository, a: seq<Act>, b: seq<Act>, exotic: char -> string,
                                    operation: string, expected: nat)
    requires PermittedAll(repo, a, exotic, operation, expected)
    requires PermittedAll(PerformAll(repo, a, operation, expected), b, exotic, operation, expected)
    ensures PermittedAll(repo, a + b, exotic, operation, expected)
    ensures PerformAll(repo, a + b, operation, expected)
            == PerformAll(PerformAll(repo, a, operation, expected), b, operation, expected)
  {
    if b == [] {
      assert a + b == a;
    } else {
      var n := |b| - 1;
      RunsJoin(repo, a, b[..n], exotic, operation, expected);
      assert (a + b)[..|a + b| - 1] == a + b[..n] && (a + b)[|a + b| - 1] == b[n];
    }
  }

  lemma OneAct(repo: Repository, act: Act, exotic: char -> string, operation: string, expected: nat)
    requires Permitted(repo, act, exotic, operation, expected)
    ensures PermittedAll(repo, [act], exotic, operation, expected)
    ensures PerformAll(repo, [act], operation, expected) == Perform(repo, act, operation, expected)
  {
    assert [act][..0] == [];
    assert PerformAll(repo, [], operation, expected) == repo;
  }

  /** What a complete search of one history answers. */
  ghost predicate Looked(commits: seq<Commit>, observed: nat, operation: string, digest: string, parents: seq<nat>,
                         r: Result<Reconciliation, Category>)
    requires Graph(commits) && observed < |commits|
  {
    && (r == Ok(Reconciliation(observed, None)) <==> NoneIn(commits, observed, operation))
    && (forall c: nat :: r == Ok(Reconciliation(observed, Some(c))) <==>
          TheOne(commits, observed, operation, digest, parents, c))
    && (r.Ok? ==> r.value.observed == observed) && (r.Err? ==> r.error == Idempotency)
  }

  method LookUp(commits: seq<Commit>, observed: nat, operation: string, digest: string, parents: seq<nat>)
    returns (r: Result<Reconciliation, Category>)
    requires Graph(commits) && observed < |commits|
    ensures Looked(commits, observed, operation, digest, parents, r)
  {
    var found := Search(commits, observed, operation, digest, parents);
    if found.Err? { return Err(Idempotency); }
    r := Ok(Reconciliation(observed, found.value));
  }

  /** What the last lookup makes of a publication whose swap was proved or not. */
  function Verdict(r: Result<Reconciliation, Category>, proved: bool): Result<Published, Category> {
    match r
    case Err(e) => Err(e)
    case Ok(Reconciliation(_, None)) => Err(RefCas)
    case Ok(Reconciliation(_, Some(c))) => Ok(Published(c, !proved))
  }

  /** The code host follows a plan; everything proved holds for every plan. */
  class HostGitPublisher {
    var repo: Repository
    var turn: nat
    /** Everything done to the remote so far, by anyone, and the swaps that were proved. */
    ghost var acts: seq<Act>
    ghost var swaps: seq<nat>
    ghost const origin: Repository
    const exotic: char -> string
    const operation: string
    const expected: nat
    const plan: nat -> Choice

    constructor (repo: Repository, exotic: char -> string, operation: string, expected: nat, plan: nat -> Choice)
      requires repo.tip < |repo.commits| && Graph(repo.commits)
      requires forall i :: 0 <= i < |repo.commits| ==> !Carries(repo.commits[i], operation)
      ensures Valid() && this.repo == repo && acts == [] && turn == 0 && swaps == []
      ensures this.exotic == exotic && this.operation == operation && this.expected == expected && this.plan == plan
    {
      this.repo, origin, acts, turn, swaps := repo, repo, [], 0, [];
      this.exotic, this.operation, this.expected, this.plan := exotic, operation, expected, plan;
    }

    /** The remote is the result of a permitted run from a state without the operation. */
    ghost predicate Valid()
      reads this
    {
      && Sound(origin, operation, expected) && Sound(repo, operation, expected)
      && (forall i :: 0 <= i < |origin.commits| ==> !Carries(origin.commits[i], operation))
      && PermittedAll(origin, acts, exotic, operation, expected)
      && repo == PerformAll(origin, acts, operation, expected)
    }

    /** The branch stood there at some moment of a run, since its first `since` acts. */
    ghost predicate TipSince(run: seq<Act>, since: nat, tip: nat) {
      exists n: nat :: since <= n <= |run| && TipAfter(run[..n]) == tip
    }

    ghost function TipAfter(run: seq<Act>): nat {
      PerformAll(origin, run, operation, expected).tip
    }

    /** The branch showed this commit, at some moment since then, as the operation's only one. */
    ghost predicate Proven(run: seq<Act>, commits: seq<Commit>, since: nat, c: nat, digest: string, base: nat,
                           merge: bool)
      requires Graph(commits)
    {
      exists observed: nat ::
        && TipSince(run, since, observed) && observed < |commits|
        && TheOne(commits, observed, operation, digest, ExpectedParents(expected, base, merge), c)
    }

    // -------------------------------------------------------------- what the plan makes of each step

    /** The remote once everyone else has had this turn; what is not permitted does not happen. */
    ghost function After(before: Repository, n: nat): (after: Repository)
      requires Sound(before, operation, expected)
      ensures Sound(after, operation, expected) && before.commits <= after.commits
    {
      var others := plan(n).others;
      if PermittedAll(before, others, exotic, operation, expected) then
        RunKeeps(before, others, exotic, operation, expected);
        PerformAll(before, others, operation, expected)
      else before
    }

    ghost function AfterReading(before: Repository, n: nat): (after: Repository)
      requires Sound(before, operation, expected)
      ensures Sound(after, operation, expected) && before.commits <= after.commits
    {
      After(After(After(before, n), n + 1), n + 2)
    }

    /** A lookup that starts at this turn: it reads the pull request, then the branch, then the
        history of where the branch stood. */
    ghost predicate Reconciled(before: Repository, n: nat, digest: string, base: nat, merge: bool,
                               selfCaused: Option<nat>, r: Result<Reconciliation, Category>)
      requires Sound(before, operation, expected)
    {
      var pull, then1 := plan(n).pull, After(After(before, n), n + 1);
      var lagging := selfCaused == Some(then1.tip) && pull.head == expected;
      if plan(n).fails then r == Err(BoundaryUnavailable)
      else if !pull.sameRepository || !pull.safeBranch then r == Err(RepositoryRef)
      else if then1.tip != pull.head && !lagging then r == Err(BoundaryUnavailable)
      else if plan(n + 2).fails then r == Err(GitOperation)
      else
        Looked(AfterReading(before, n).commits, then1.tip, operation, digest, ExpectedParents(expected, base, merge), r)
    }

    /** The swap to `c` at this turn and the lookup after it. */
    ghost predicate Swapped(before: Repository, n: nat, c: nat, digest: string, base: nat, merge: bool,
                            r: Result<Published, Category>)
      requires Sound(before, operation, expected) && c < |before.commits|
    {
      var then0 := After(before, n);
      var moves := !plan(n).refused && then0.tip == expected;
      Concluded(if moves then then0.(tip := c) else then0, n + 1, c, digest, base, merge, moves && !plan(n).lost, r)
    }

    ghost predicate Concluded(before: Repository, n: nat, c: nat, digest: string, base: nat, merge: bool, proved: bool,
                              r: Result<Published, Category>)
      requires Sound(before, operation, expected)
    {
      exists answer :: Reconciled(before, n, digest, base, merge, Some(c), answer) && r == Verdict(answer, proved)
    }

    /** The pull request showed the expected head and base before the commit was made and again just
        before the swap, and nothing else of it had changed. */
    ghost predicate Authorized(n: nat, base: nat) {
      && plan(n).pull.sameRepository && plan(n).pull.safeBranch && plan(n).pull.head == expected
      && plan(n).pull.base == base && plan(n + 2).pull == plan(n).pull
    }

    /** Up to the swap nobody interferes and the pull request shows the expected head and base. */
    ghost predicate Ready(n: nat, base: nat) {
      && (forall k :: n <= k < n + 6 ==> Quiet(plan(k)))
      && plan(n).pull.head == expected && plan(n + 3).pull == plan(n + 5).pull
      && plan(n + 3).pull.head == expected && plan(n + 3).pull.base == base
    }

    /** After the swap nobody interferes either; the pull request may lag behind. */
    ghost predicate Follows(n: nat, c: nat) {
      && (forall k :: n <= k < n + 3 ==> Quiet(plan(k)))
      && (plan(n).pull.head == expected || plan(n).pull.head == c)
    }

    /** The remote with one more commit: this publication's. */
    ghost function WithCommit(before: Repository, proposed: string, digest: string, base: nat, merge: bool)
      : (after: Repository)
      requires Sound(before, operation, expected) && Known(before.commits, ExpectedParents(expected, base, merge))
      ensures Sound(after, operation, expected) && |after.commits| == |before.commits| + 1
    {
      var c := Commit(ExpectedParents(expected, base, merge), CommitMessage(proposed, operation, digest));
      assert c.parents[0] == expected;
      before.(commits := before.commits + [c])
    }

    /** Nobody interferes: the branch moves to the new commit, and the lookup finds it. */
    lemma SwapIsFound(before: Repository, n: nat, proposed: string, digest: string, base: nat, merge: bool,
                      r: Result<Published, Category>)
      requires Sound(before, operation, expected) && Known(before.commits, ExpectedParents(expected, base, merge))
      requires ValidMessage(exotic, proposed) && OneLine(operation) && OneLine(digest) && before.tip == expected
      requires plan(n).others == [] && !plan(n).refused && Follows(n + 1, |before.commits|)
      requires Swapped(WithCommit(before, proposed, digest, base, merge), n, |before.commits|, digest, base, merge, r)
      ensures r == Ok(Published(|before.commits|, plan(n).lost))
    {
      var c, made := |before.commits|, WithCommit(before, proposed, digest, base, merge);
      assert Quiet(plan(n + 1)) && Quiet(plan(n + 2)) && Quiet(plan(n + 3));
      var moved := made.(tip := c);
      assert After(made, n) == made;
      assert After(moved, n + 1) == moved && After(moved, n + 2) == moved && After(moved, n + 3) == moved;
      CreatedIsFound(made.commits, exotic, proposed, operation, digest, expected, base, merge, c, c);
      var answer :| && Reconciled(moved, n + 1, digest, base, merge, Some(c), answer)
                    && r == Verdict(answer, !plan(n).lost);
    }

    // -------------------------------------------------------------- the steps

    method Act(act: Act)
      requires Valid() && Permitted(repo, act, exotic, operation, expected)
      modifies this`repo, this`acts
      ensures Valid() && acts == old(acts) + [act]
      ensures repo == Perform(old(repo), act, operation, expected) && old(repo.commits) <= repo.commits
    {
      PerformKeeps(repo, act, exotic, operation, expected);
      OneAct(repo, act, exotic, operation, expected);
      RunsJoin(origin, acts, [act], exotic, operation, expected);
      repo := Perform(repo, act, operation, expected);
      acts := acts + [act];
    }

    /** Take the next turn; everyone else acts first. */
    method Turn() returns (c: Choice)
      requires Valid()
      modifies this`repo, this`acts, this`turn
      ensures Valid() && old(acts) <= acts && old(repo.commits) <= repo.commits
      ensures c == plan(old(turn)) && turn == old(turn) + 1 && repo == After(old(repo), old(turn))
    {
      c := plan(turn);
      turn := turn + 1;
      if PermittedAll(repo, c.others, exotic, operation, expected) {
        RunKeeps(repo, c.others, exotic, operation, expected);
        RunsJoin(origin, acts, c.others, exotic, operation, expected);
        repo := PerformAll(repo, c.others, operation, expected);
        acts := acts + c.others;
      }
    }

    method Reconcile(digest: string, base: nat, merge: bool, selfCaused: Option<nat>, ghost since: nat)
      returns (r: Result<Reconciliation, Category>)
      requires Valid() && since <= |acts|
      modifies this`repo, this`acts, this`turn
      ensures Valid() && old(acts) <= acts && old(repo.commits) <= repo.commits
      ensures Reconciled(old(repo), old(turn), digest, base, merge, selfCaused, r) && turn <= old(turn) + 3
      ensures r.Ok? ==>
                && turn == old(turn) + 3 && TipSince(acts, since, r.value.observed)
                && r.value.observed == After(After(old(repo), old(turn)), old(turn) + 1).tip
                && repo == AfterReading(old(repo), old(turn))
    {
      var first := Turn();
      if first.fails { return Err(BoundaryUnavailable); }
      if !first.pull.sameRepository || !first.pull.safeBranch { return Err(RepositoryRef); }
      var second := Turn();
      var observed := repo.tip;
      ghost var moment := acts;
      assert TipAfter(moment) == observed;
      var lagging := selfCaused == Some(observed) && first.pull.head == expected;
      if observed != first.pull.head && !lagging { return Err(BoundaryUnavailable); }
      var third := Turn();
      if third.fails { return Err(GitOperation); }
      r := LookUp(repo.commits, observed, operation, digest, ExpectedParents(expected, base, merge));
      assert acts[..|moment|] == moment;
    }

    /** The object write: it may be refused, or land and lose its answer. */
    method CreateCommit(proposed: string, digest: string, base: nat, merge: bool) returns (r: Result<nat, Category>)
      requires Valid() && ValidMessage(exotic, proposed)
      requires Known(repo.commits, ExpectedParents(expected, base, merge))
      modifies this`repo, this`acts, this`turn
      ensures Valid() && old(acts) <= acts && old(repo.commits) <= repo.commits && turn == old(turn) + 1
      ensures r.Ok? <==> !plan(old(turn)).refused && !plan(old(turn)).lost
      ensures r.Err? ==> r.error == ObjectWrite
      ensures repo == if plan(old(turn)).refused then After(old(repo), old(turn))
                      else WithCommit(After(old(repo), old(turn)), proposed, digest, base, merge)
      ensures r.Ok? ==> |repo.commits| == r.value + 1
    {
      var c := Turn();
      if c.refused { return Err(ObjectWrite); }
      var others := if merge then [base] else [];
      assert ExpectedParents(expected, base, merge) == [expected] + others;
      var commit := |repo.commits|;
      Act(Create(proposed, digest, others));
      if c.lost { return Err(ObjectWrite); }
      r := Ok(commit);
    }

    /** The exact compare-and-swap: it may be refused, or land and lose its answer. */
    method AdvanceRef(commit: nat, ghost since: nat) returns (proved: bool)
      requires Valid() && commit < |repo.commits| && since <= |acts|
      modifies this`repo, this`acts, this`turn, this`swaps
      ensures Valid() && old(acts) <= acts && old(repo.commits) <= repo.commits && turn == old(turn) + 1
      ensures var then0 := After(old(repo), old(turn));
              var moves := !plan(old(turn)).refused && then0.tip == expected;
              repo == (if moves then then0.(tip := commit) else then0) && proved == (moves && !plan(old(turn)).lost)
      ensures swaps == old(swaps) + if proved then [commit] else []
      ensures proved ==> TipSince(acts, since, commit)
    {
      var c := Turn();
      if c.refused || repo.tip != expected { return false; }
      Act(Move(commit));
      proved := !c.lost;
      if proved {
        swaps := swaps + [commit];
        assert acts[..|acts|] == acts && TipAfter(acts) == commit;
      }
    }

    /** The branch stood at a commit this publication made, since the first `since` acts. */
    ghost predicate Moved(run: seq<Act>, commits: seq<Commit>, since: nat, from: nat, c: nat, proposed: string,
                          digest: string, base: nat, merge: bool)
    {
      && from <= c < |commits| && TipSince(run, since, c)
      && commits[c] == Commit(ExpectedParents(expected, base, merge), CommitMessage(proposed, operation, digest))
    }

    /** What a publication that is admitted answers. A history that holds the operation already is
        the result. Without it, an unchanged patch is refused and otherwise the branch moves to a new
        commit; nobody interfering, that commit is the result, recovered exactly when the swap's
        answer was lost. */
    ghost predicate Answered(before: Repository, n: nat, after: Repository, proposed: string, changed: bool,
                             digest: string, base: nat, merge: bool, r: Result<Published, Category>)
      requires Sound(before, operation, expected) && Graph(after.commits)
    {
      && (Found(before, n, digest, base, merge) ==>
            && r.Ok? && r.value.recovered && after == before
            && TheOne(before.commits, before.tip, operation, digest, ExpectedParents(expected, base, merge),
                      r.value.head))
      && (!changed && Begins(before, n, base, merge) ==> r == Err(PatchAdmission) && after == before)
      && (changed && Begins(before, n, base, merge) ==>
            && Swapped(WithCommit(before, proposed, digest, base, merge), n + 6, |before.commits|, digest, base,
                       merge, r)
            && (Succeeds(n + 6, |before.commits|, digest) ==>
                  && r == Ok(Published(|before.commits|, plan(n + 6).lost))
                  && after == WithCommit(before, proposed, digest, base, merge).(tip := |before.commits|)))
    }

    /** One publication. Whatever the plan, the operation stays one commit in every history, a
        result is proven by a history the branch showed since, and it is recovered if and only if
        no swap of this publication was proved. The swap is tried only under fresh authority. */
    method Publish(proposed: string, declared: bool, changed: bool, head: nat, resultBase: nat, digest: string,
                   base: nat, merge: bool)
      returns (r: Result<Published, Category>)
      requires Valid()
      modifies this
      ensures Valid() && old(acts) <= acts && old(repo.commits) <= repo.commits
      ensures !declared || !ValidMessage(exotic, proposed) ==> r == Err(PatchAdmission) && repo == old(repo)
      ensures declared && ValidMessage(exotic, proposed) && (head != expected || resultBase != base) ==>
                r == Err(Correlation) && repo == old(repo)
      ensures r.Ok? ==>
                && r.value.head < |repo.commits|
                && Exact(repo.commits[r.value.head], operation, digest)
                && repo.commits[r.value.head].parents == ExpectedParents(expected, base, merge)
      ensures r.Ok? ==> Proven(acts, repo.commits, old(|acts|), r.value.head, digest, base, merge)
      ensures forall c :: 0 <= c < |repo.commits| ==> HeldOnce(repo.commits, operation, c)
      ensures SwappedOwn(old(swaps), swaps, acts, repo.commits, old(|acts|), old(|repo.commits|), proposed, digest,
                         base, merge)
      ensures r.Ok? ==> (r.value.recovered <==> swaps == old(swaps))
      ensures turn > old(turn) + 6 ==> changed && Authorized(old(turn) + 3, base)
      ensures declared && ValidMessage(exotic, proposed) && head == expected && resultBase == base ==>
                Answered(old(repo), old(turn), repo, proposed, changed, digest, base, merge, r)
    {
      if !declared || !ValidMessage(exotic, proposed) {
        r := Err(PatchAdmission);
      } else if head != expected || resultBase != base {
        r := Err(Correlation);
      } else {
        r := Prepare(proposed, changed, digest, base, merge, |acts|, |repo.commits|);
        if r.Ok? { ProvenIsExact(acts, repo.commits, old(|acts|), r.value.head, digest, base, merge); }
      }
      AllHeldOnce();
    }

    lemma ProvenIsExact(run: seq<Act>, commits: seq<Commit>, since: nat, c: nat, digest: string, base: nat,
                        merge: bool)
      requires Graph(commits) && Proven(run, commits, since, c, digest, base, merge)
      ensures c < |commits| && Exact(commits[c], operation, digest)
      ensures commits[c].parents == ExpectedParents(expected, base, merge)
    {
    }

    lemma AllHeldOnce()
      requires Valid()
      ensures forall c :: 0 <= c < |repo.commits| ==> HeldOnce(repo.commits, operation, c)
    {
      forall c | 0 <= c < |repo.commits| ensures HeldOnce(repo.commits, operation, c) {
        OneCommitPerOperation(origin, acts, exotic, operation, expected, c);
      }
    }

    /** Lookup first, then the commit, then the swap with its recovery. */
    method Prepare(proposed: string, changed: bool, digest: string, base: nat, merge: bool, ghost since: nat,
                   ghost from: nat)
      returns (r: Result<Published, Category>)
      requires Valid() && ValidMessage(exotic, proposed) && since <= |acts| && from <= |repo.commits|
      modifies this
      ensures Valid() && old(acts) <= acts && old(repo.commits) <= repo.commits
      ensures r.Ok? ==> Proven(acts, repo.commits, since, r.value.head, digest, base, merge)
      ensures SwappedOwn(old(swaps), swaps, acts, repo.commits, since, from, proposed, digest, base, merge)
      ensures r.Ok? ==> (r.value.recovered <==> swaps == old(swaps))
      ensures turn > old(turn) + 6 ==> changed && Authorized(old(turn) + 3, base)
      ensures Answered(old(repo), old(turn), repo, proposed, changed, digest, base, merge, r)
    {
      ghost var n, before := turn, repo;
      var reconciled := Reconcile(digest, base, merge, None, since);
      if reconciled.Ok? && reconciled.value.commit.None? {
        r := ProceedFrom(before, n, reconciled, proposed, changed, digest, base, merge, since, from);
      } else {
        r := Verdict(reconciled, false);
        if r.Ok? { LookedIsProven(acts, before, n, since, digest, base, merge, None, reconciled); }
        AnsweredByLookup(before, n, repo, proposed, changed, digest, base, merge, reconciled);
      }
    }

    lemma AnsweredByLookup(before: Repository, n: nat, after: Repository, proposed: string, changed: bool,
                           digest: string, base: nat, merge: bool, looked: Result<Reconciliation, Category>)
      requires Sound(before, operation, expected) && Graph(after.commits)
      requires Reconciled(before, n, digest, base, merge, None, looked)
      requires looked.Ok? ==> looked.value.commit.Some? && after == AfterReading(before, n)
      ensures Answered(before, n, after, proposed, changed, digest, base, merge, Verdict(looked, false))
    {
      if Found(before, n, digest, base, merge) { FoundIsAnswered(before, n, digest, base, merge, looked); }
      if Begins(before, n, base, merge) { BeginsUnheld(before, n, digest, base, merge, looked); }
    }

    lemma AnsweredBySwap(before: Repository, n: nat, middle: Repository, after: Repository, proposed: string,
                         changed: bool, digest: string, base: nat, merge: bool,
                         looked: Result<Reconciliation, Category>, r: Result<Published, Category>)
      requires Sound(before, operation, expected) && Sound(middle, operation, expected) && Graph(after.commits)
      requires ValidMessage(exotic, proposed)
      requires Reconciled(before, n, digest, base, merge, None, looked) && looked.Ok? && looked.value.commit.None?
      requires middle == AfterReading(before, n)
      requires !changed && Quiet(plan(n + 3)) ==> r == Err(PatchAdmission) && after == middle
      requires changed && Proceeds(middle, n + 3, base, merge) ==>
                 Swapped(WithCommit(middle, proposed, digest, base, merge), n + 6, |middle.commits|, digest, base,
                         merge, r)
      requires (&& changed && Proceeds(middle, n + 3, base, merge) && middle.tip == expected
                && Undisturbed(n + 6) && r.Ok?) ==>
                 after == WithCommit(middle, proposed, digest, base, merge).(tip := |middle.commits|)
      ensures Answered(before, n, after, proposed, changed, digest, base, merge, r)
    {
      if Found(before, n, digest, base, merge) { FoundIsAnswered(before, n, digest, base, merge, looked); }
      if Begins(before, n, base, merge) {
        BeginsUnheld(before, n, digest, base, merge, looked);
        if changed && Succeeds(n + 6, |before.commits|, digest) {
          SwapIsFound(before, n + 6, proposed, digest, base, merge, r);
          FollowsAlone(n + 7, |before.commits|);
        }
      }
    }

    lemma FollowsAlone(n: nat, c: nat)
      requires Follows(n, c)
      ensures Alone(n)
    {
      assert Quiet(plan(n)) && Quiet(plan(n + 1)) && Quiet(plan(n + 2));
    }

    /** Proceed, as `Prepare` sees it. */
    method ProceedFrom(ghost before: Repository, ghost n: nat, ghost looked: Result<Reconciliation, Category>,
                       proposed: string, changed: bool, digest: string, base: nat, merge: bool, ghost since: nat,
                       ghost from: nat)
      returns (r: Result<Published, Category>)
      requires Valid() && ValidMessage(exotic, proposed) && since <= |acts| && from <= |repo.commits|
      requires Sound(before, operation, expected) && Reconciled(before, n, digest, base, merge, None, looked)
      requires looked.Ok? && looked.value.commit.None? && turn == n + 3 && repo == AfterReading(before, n)
      modifies this
      ensures Valid() && old(acts) <= acts && old(repo.commits) <= repo.commits
      ensures r.Ok? ==> Proven(acts, repo.commits, since, r.value.head, digest, base, merge)
      ensures SwappedOwn(old(swaps), swaps, acts, repo.commits, since, from, proposed, digest, base, merge)
      ensures r.Ok? ==> (r.value.recovered <==> swaps == old(swaps))
      ensures turn > n + 6 ==> changed && Authorized(n + 3, base)
      ensures Answered(before, n, repo, proposed, changed, digest, base, merge, r)
    {
      ghost var middle := repo;
      r := Proceed(proposed, changed, digest, base, merge, since, from);
      AnsweredBySwap(before, n, middle, repo, proposed, changed, digest, base, merge, looked, r);
    }

    /** No commit of the operation was found. */
    method Proceed(proposed: string, changed: bool, digest: string, base: nat, merge: bool, ghost since: nat,
                   ghost from: nat)
      returns (r: Result<Published, Category>)
      requires Valid() && ValidMessage(exotic, proposed) && since <= |acts| && from <= |repo.commits|
      modifies this
      ensures Valid() && old(acts) <= acts && old(repo.commits) <= repo.commits
      ensures r.Ok? ==> Proven(acts, repo.commits, since, r.value.head, digest, base, merge)
      ensures SwappedOwn(old(swaps), swaps, acts, repo.commits, since, from, proposed, digest, base, merge)
      ensures r.Ok? ==> (r.value.recovered <==> swaps == old(swaps))
      ensures turn > old(turn) + 3 ==> changed && Authorized(old(turn), base)
      ensures !changed && Quiet(plan(old(turn))) ==> r == Err(PatchAdmission) && repo == old(repo)
      ensures changed && Proceeds(old(repo), old(turn), base, merge) ==>
                Swapped(WithCommit(old(repo), proposed, digest, base, merge), old(turn) + 3, |old(repo.commits)|,
                        digest, base, merge, r)
      ensures (&& changed && Proceeds(old(repo), old(turn), base, merge) && old(repo.tip) == expected
               && Undisturbed(old(turn) + 3) && r.Ok?) ==>
                repo == WithCommit(old(repo), proposed, digest, base, merge).(tip := |old(repo.commits)|)
    {
      var pull := Authority(changed, base, merge);
      if pull.Err? { return Err(pull.error); }
      r := Advance(proposed, digest, base, merge, pull.value, since, from);
    }

    /** The pull request to prepare the commit for, if it may be prepared. */
    method Authority(changed: bool, base: nat, merge: bool) returns (r: Result<Pull, Category>)
      requires Valid()
      modifies this`repo, this`acts, this`turn
      ensures Valid() && old(acts) <= acts && old(repo.commits) <= repo.commits && turn == old(turn) + 1
      ensures r.Ok? ==>
                && changed && r.value == plan(old(turn)).pull && r.value.sameRepository && r.value.safeBranch
                && r.value.head == expected && r.value.base == base
                && Known(repo.commits, ExpectedParents(expected, base, merge))
      ensures r.Err? ==> Some(r.error) == Unprepared(plan(old(turn)).pull, changed, plan(old(turn)).fails,
                                                     |repo.commits|, base, merge)
      ensures Quiet(plan(old(turn))) ==> repo == old(repo)
      ensures !changed && Quiet(plan(old(turn))) ==> r == Err(PatchAdmission)
      ensures changed && Proceeds(old(repo), old(turn), base, merge) ==> r.Ok?
    {
      ghost var n, before := turn, repo;
      var c := Turn();
      QuietReading(before, n);
      ParentsKnown(repo.commits, base, merge);
      var refusal := Unprepared(c.pull, changed, c.fails, |repo.commits|, base, merge);
      r := if refusal.Some? then Err(refusal.value) else Ok(c.pull);
    }

    /** Why the commit is not prepared: the branch, the patch, the checkout, the authority or the base. */
    function Unprepared(pull: Pull, changed: bool, fails: bool, known: nat, base: nat, merge: bool): Option<Category> {
      if !pull.sameRepository || !pull.safeBranch then Some(RepositoryRef)
      else if !changed then Some(PatchAdmission)
      else if fails || expected >= known then Some(GitOperation)
      else if pull.head != expected || pull.base != base then Some(CurrentAuthority)
      else if merge && base >= known then Some(GitOperation)
      else None
    }

    ghost predicate Proceeds(before: Repository, n: nat, base: nat, merge: bool)
      requires Sound(before, operation, expected)
    {
      && Quiet(plan(n)) && Prompt(n + 1, plan(n).pull, base)
      && Known(before.commits, ExpectedParents(expected, base, merge))
    }

    lemma FoundIsAnswered(before: Repository, n: nat, digest: string, base: nat, merge: bool,
                          r: Result<Reconciliation, Category>)
      requires Sound(before, operation, expected) && Found(before, n, digest, base, merge)
      requires Reconciled(before, n, digest, base, merge, None, r)
      ensures r.Ok? && r.value.commit.Some?
      ensures TheOne(before.commits, before.tip, operation, digest, ExpectedParents(expected, base, merge),
                     r.value.commit.value)
      ensures AfterReading(before, n) == before
    {
      QuietReading(before, n);
    }

    lemma BeginsUnheld(before: Repository, n: nat, digest: string, base: nat, merge: bool,
                       r: Result<Reconciliation, Category>)
      requires Sound(before, operation, expected) && Begins(before, n, base, merge)
      requires Reconciled(before, n, digest, base, merge, None, r)
      ensures r.Ok? && r.value.commit.None?
      ensures AfterReading(before, n) == before
      ensures Proceeds(before, n + 3, base, merge)
    {
      QuietReading(before, n);
    }

    lemma ParentsKnown(commits: seq<Commit>, base: nat, merge: bool)
      ensures Known(commits, ExpectedParents(expected, base, merge))
              <==> expected < |commits| && (merge ==> base < |commits|)
    {
      var parents := ExpectedParents(expected, base, merge);
      assert parents[0] == expected && (merge ==> parents[1] == base);
    }

    /** Turns in which nobody interferes leave the remote as it is. */
    lemma QuietReading(before: Repository, n: nat)
      requires Sound(before, operation, expected)
      ensures Quiet(plan(n)) ==> After(before, n) == before
      ensures Quiet(plan(n)) && Quiet(plan(n + 1)) && Quiet(plan(n + 2)) ==>
                AfterReading(before, n) == before && After(After(before, n), n + 1) == before
    {
    }

    /** Create the commit, read the pull request afresh, swap the branch, and prove the result. */
    method Advance(proposed: string, digest: string, base: nat, merge: bool, pull: Pull, ghost since: nat,
                   ghost from: nat)
      returns (r: Result<Published, Category>)
      requires Valid() && ValidMessage(exotic, proposed) && since <= |acts| && from <= |repo.commits|
      requires Known(repo.commits, ExpectedParents(expected, base, merge))
      modifies this
      ensures Valid() && old(acts) <= acts && old(repo.commits) <= repo.commits
      ensures r.Ok? ==> Proven(acts, repo.commits, since, r.value.head, digest, base, merge)
      ensures SwappedOwn(old(swaps), swaps, acts, repo.commits, since, from, proposed, digest, base, merge)
      ensures r.Ok? ==> (r.value.recovered <==> swaps == old(swaps))
      ensures turn > old(turn) + 2 ==> plan(old(turn) + 1).pull == pull.(head := expected) && pull.base == base
      ensures Prompt(old(turn), pull, base) ==>
                Swapped(WithCommit(old(repo), proposed, digest, base, merge), old(turn) + 2, |old(repo.commits)|,
                        digest, base, merge, r)
      ensures (&& Prompt(old(turn), pull, base) && old(repo.tip) == expected && Undisturbed(old(turn) + 2)
               && r.Ok?) ==>
                repo == WithCommit(old(repo), proposed, digest, base, merge).(tip := |old(repo.commits)|)
    {
      ghost var n := turn;
      assert Prompt(n, pull, base) ==> After(repo, n) == repo;
      var commit := CreateAndCheck(proposed, digest, base, merge, pull);
      if commit.Err? { return Err(commit.error); }
      r := SwapAndProve(commit.value, digest, base, merge, since);
      if swaps != old(swaps) {
        assert Moved(acts, repo.commits, since, from, commit.value, proposed, digest, base, merge);
      }
    }

    /** The commit, then the pull request as it is now. */
    method CreateAndCheck(proposed: string, digest: string, base: nat, merge: bool, pull: Pull)
      returns (commit: Result<nat, Category>)
      requires Valid() && ValidMessage(exotic, proposed)
      requires Known(repo.commits, ExpectedParents(expected, base, merge))
      modifies this`repo, this`acts, this`turn
      ensures Valid() && old(acts) <= acts && old(repo.commits) <= repo.commits
      ensures commit.Ok? ==>
                && |old(repo.commits)| <= commit.value < |repo.commits|
                && repo.commits[commit.value]
                   == Commit(ExpectedParents(expected, base, merge), CommitMessage(proposed, operation, digest))
      ensures commit.Err? ==> commit.error in {ObjectWrite, CurrentAuthority} && turn <= old(turn) + 2
      ensures commit == Err(ObjectWrite) <==> plan(old(turn)).refused || plan(old(turn)).lost
      ensures commit == Err(ObjectWrite) ==> turn == old(turn) + 1
      ensures commit.Ok? ==>
                && turn == old(turn) + 2
                && plan(old(turn) + 1).pull == pull.(head := expected) && pull.base == base
      ensures Prompt(old(turn), pull, base) ==>
                && commit == Ok(|old(repo.commits)|) && turn == old(turn) + 2
                && repo == WithCommit(old(repo), proposed, digest, base, merge)
    {
      commit := CreateCommit(proposed, digest, base, merge);
      if commit.Err? { return; }
      var c := Turn();
      var current := c.pull;
      if current.(head := pull.head) != pull || current.head != expected || current.base != base {
        return Err(CurrentAuthority);
      }
    }

    /** The swap, and the lookup that proves it. */
    method SwapAndProve(commit: nat, digest: string, base: nat, merge: bool, ghost since: nat)
      returns (r: Result<Published, Category>)
      requires Valid() && commit < |repo.commits| && since <= |acts|
      modifies this`repo, this`acts, this`turn, this`swaps
      ensures Valid() && old(acts) <= acts && old(repo.commits) <= repo.commits
      ensures r.Ok? ==> Proven(acts, repo.commits, since, r.value.head, digest, base, merge)
      ensures swaps == old(swaps) || (swaps == old(swaps) + [commit] && TipSince(acts, since, commit))
      ensures r.Ok? ==> (r.value.recovered <==> swaps == old(swaps))
      ensures Swapped(old(repo), old(turn), commit, digest, base, merge, r)
      ensures old(repo.tip) == expected && Undisturbed(old(turn)) && r.Ok? ==> repo == old(repo).(tip := commit)
    {
      var proved := AdvanceRef(commit, since);
      ghost var moved := acts;
      r := Confirm(commit, proved, digest, base, merge, since);
      if proved { TipSinceStays(moved, acts, since, commit); }
    }

    /** The lookup after a swap that was proved or not. */
    method Confirm(commit: nat, proved: bool, digest: string, base: nat, merge: bool, ghost since: nat)
      returns (r: Result<Published, Category>)
      requires Valid() && commit < |repo.commits| && since <= |acts|
      modifies this`repo, this`acts, this`turn
      ensures Valid() && old(acts) <= acts && old(repo.commits) <= repo.commits
      ensures r.Ok? ==> Proven(acts, repo.commits, since, r.value.head, digest, base, merge)
      ensures r.Ok? ==> r.value.recovered == !proved
      ensures Concluded(old(repo), old(turn), commit, digest, base, merge, proved, r)
      ensures r.Ok? && Alone(old(turn)) ==> repo == old(repo)
    {
      ghost var before, n := repo, turn;
      var answer := Reconcile(digest, base, merge, Some(commit), since);
      r := Verdict(answer, proved);
      AloneKeeps(before, n);
      if r.Ok? { LookedIsProven(acts, before, n, since, digest, base, merge, Some(commit), answer); }
    }

    /** Nobody else acts during a lookup. */
    ghost predicate Alone(n: nat) {
      plan(n).others == [] && plan(n + 1).others == [] && plan(n + 2).others == []
    }

    lemma AloneKeeps(before: Repository, n: nat)
      requires Sound(before, operation, expected)
      ensures Alone(n) ==> AfterReading(before, n) == before
    {
    }

    lemma LookedIsProven(run: seq<Act>, before: Repository, n: nat, since: nat, digest: string, base: nat, merge: bool,
                         selfCaused: Option<nat>, r: Result<Reconciliation, Category>)
      requires Sound(before, operation, expected) && Reconciled(before, n, digest, base, merge, selfCaused, r)
      requires r.Ok? && r.value.commit.Some? && TipSince(run, since, r.value.observed)
      ensures Proven(run, AfterReading(before, n).commits, since, r.value.commit.value, digest, base, merge)
    {
      assert TheOne(AfterReading(before, n).commits, r.value.observed, operation, digest,
                    ExpectedParents(expected, base, merge), r.value.commit.value);
    }

    /** A swap since then was of a commit made since then, by this publication. */
    ghost predicate SwappedOwn(before: seq<nat>, after: seq<nat>, run: seq<Act>, commits: seq<Commit>, since: nat,
                               from: nat, proposed: string, digest: string, base: nat, merge: bool)
    {
      || after == before
      || exists c: nat :: after == before + [c]
                          && Moved(run, commits, since, from, c, proposed, digest, base, merge)
    }

    lemma TipSinceStays(run: seq<Act>, more: seq<Act>, since: nat, tip: nat)
      requires run <= more && TipSince(run, since, tip)
      ensures TipSince(more, since, tip)
    {
      var n: nat :| since <= n <= |run| && TipAfter(run[..n]) == tip;
      assert more[..n] == run[..n];
    }

    /** From the swap on nobody else acts, and the swap is not refused. */
    ghost predicate Undisturbed(n: nat) {
      !plan(n).refused && plan(n).others == [] && Alone(n + 1)
    }

    /** Creating the commit and the fresh reading of the pull request meet no interference. */
    ghost predicate Prompt(n: nat, pull: Pull, base: nat) {
      Quiet(plan(n)) && Quiet(plan(n + 1)) && plan(n + 1).pull == pull && pull.head == expected && pull.base == base
    }

    /** The swap at this turn is made and can be read back, though its answer may be lost. */
    ghost predicate Succeeds(n: nat, c: nat, digest: string) {
      OneLine(operation) && OneLine(digest) && plan(n).others == [] && !plan(n).refused && Follows(n + 1, c)
    }

    /** The branch stands at a history that holds the operation already, and can be read. */
    ghost predicate Found(before: Repository, n: nat, digest: string, base: nat, merge: bool)
      requires Sound(before, operation, expected)
    {
      && (forall k :: n <= k < n + 3 ==> Quiet(plan(k))) && plan(n).pull.head == before.tip
      && exists c: nat ::
           TheOne(before.commits, before.tip, operation, digest, ExpectedParents(expected, base, merge), c)
    }

    /** The branch stands at the expected head, without the operation, and nobody interferes before
        the swap. */
    ghost predicate Begins(before: Repository, n: nat, base: nat, merge: bool)
      requires Sound(before, operation, expected)
    {
      && Ready(n, base) && before.tip == expected && Known(before.commits, ExpectedParents(expected, base, merge))
      && NoneIn(before.commits, expected, operation)
    }
  }
}
