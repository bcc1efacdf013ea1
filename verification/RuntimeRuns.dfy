/** What every run of the runtime keeps: completion order, draining, the record bound and
    stable replay by identity. */
module RuntimeRuns {
  import opened Outcomes
  import opened Intake
  import opened History
  import opened Runtime

  /** The deliveries completed by a run, in the order the run completed them. */
  function Completions(replies: seq<Reply>): seq<(string, int)> {
    if replies == [] then []
    else
      var n := |replies| - 1;
      Completions(replies[..n])
      + match replies[n]
        case CompleteReply(Ok(Completion(identity, occurrence, CompletedNow))) => [(identity, occurrence)]
        case _ => []
  }

  function Labels(q: Queue): (r: seq<(string, int)>)
    ensures |r| == |q| && forall k :: 0 <= k < |q| ==> r[k] == (q[k].bridged.identity, q[k].occurrence)
  {
    seq(|q|, k requires 0 <= k < |q| => (q[k].bridged.identity, q[k].occurrence))
  }

  ghost predicate FinishedPrefix(q: Queue, done: nat) {
    done <= |q| && forall k :: 0 <= k < |q| ==> (q[k].finished <==> k < done)
  }

  lemma {:induction false} FirstUnfinishedEndsPrefix(q: Queue, from: nat, done: nat)
    requires FinishedPrefix(q, done) && from <= done
    ensures FirstUnfinished(q, from) == done
    decreases done - from
  {
    if from < done {
      FirstUnfinishedEndsPrefix(q, from + 1, done);
    }
  }

  /** One call either completes the first unfinished entry or leaves the finished prefix alone. */
  lemma StepCompletesNext(m: Model, call: Call, done: nat)
    requires FinishedPrefix(m.queue, done)
    ensures var (m', reply) := ModelStep(m, call);
            match reply
            case CompleteReply(Ok(Completion(identity, occurrence, CompletedNow))) =>
              && done < |m.queue| && FinishedPrefix(m'.queue, done + 1) && |m'.queue| == |m.queue|
              && (identity, occurrence) == Labels(m.queue)[done] && Labels(m'.queue) == Labels(m.queue)
            case _ => FinishedPrefix(m'.queue, done) && Labels(m.queue) <= Labels(m'.queue)
  {
    FirstUnfinishedEndsPrefix(m.queue, 0, done);
  }

  lemma {:induction false} ModelCompletesInOrder(size: nat, calls: seq<Call>) returns (done: nat)
    ensures FinishedPrefix(ModelRun(Model([], size), calls).0.queue, done)
    ensures Completions(ModelRun(Model([], size), calls).1)
            == Labels(ModelRun(Model([], size), calls).0.queue)[..done]
  {
    if calls == [] {
      done := 0;
    } else {
      var n := |calls| - 1;
      done := ModelCompletesInOrder(size, calls[..n]);
      var (m, replies) := ModelRun(Model([], size), calls[..n]);
      var (m', reply) := ModelStep(m, calls[n]);
      assert (replies + [reply])[..|replies|] == replies;
      StepCompletesNext(m, calls[n], done);
      match reply
      case CompleteReply(Ok(Completion(identity, occurrence, CompletedNow))) =>
        assert Labels(m.queue)[..done + 1] == Labels(m.queue)[..done] + [Labels(m.queue)[done]];
        done := done + 1;
      case _ =>
        assert Labels(m'.queue)[..done] == Labels(m.queue)[..done];
    }
  }

  /** In-order completion: the deliveries a run completes are exactly the finished ones, in
      strictly increasing occurrence order and acceptance order, each once. */
  lemma CompletesInOrder(log: Log, calls: seq<Call>)
    requires Opening(log) && AdmissibleRun(log, calls)
    ensures var completions := Completions(Run(log, calls).1);
            var parsed := ParseLog(Run(log, calls).0);
            && parsed.Ok? && |completions| <= |parsed.value|
            && (forall k :: 0 <= k < |parsed.value| ==> (parsed.value[k].finished <==> k < |completions|))
            && (forall k :: 0 <= k < |completions| ==>
                  completions[k] == (parsed.value[k].bridged.identity, parsed.value[k].occurrence))
            && (forall j, k :: 0 <= j < k < |completions| ==>
                  completions[j].1 < completions[k].1 && completions[j].0 != completions[k].0)
  {
    LogRefinement(log, calls);
    var at := RunSimulates(log, calls);
    var done := ModelCompletesInOrder(|log|, calls);
    var q := ModelRun(Model([], |log|), calls).0.queue;
    assert OrderedQueue(q);
    assert Completions(Run(log, calls).1) == Labels(q)[..done];
  }

  // ---------------------------------------------------------------- draining

  function Repeated(call: Call, n: nat): (calls: seq<Call>)
    ensures |calls| == n && forall k :: 0 <= k < n ==> calls[k] == call
  {
    seq(n, _ => call)
  }

  lemma CompletesOne(m: Model, done: nat, used: nat)
    requires FinishedPrefix(m.queue, done) && done < |m.queue|
    requires m.size + 2 <= MAX_RECORDS && used + HEADROOM <= MAX_BYTES
    ensures var (m', reply) := ModelStep(m, Complete(used));
            && FinishedPrefix(m'.queue, done + 1) && Labels(m'.queue) == Labels(m.queue) && m'.size == m.size + 2
            && reply == CompleteReply(Ok(Completion(Labels(m.queue)[done].0, Labels(m.queue)[done].1, CompletedNow)))
  {
    FirstUnfinishedEndsPrefix(m.queue, 0, done);
  }

  lemma {:induction false} ModelDrains(m: Model, done: nat, used: nat, n: nat)
    requires FinishedPrefix(m.queue, done) && n <= |m.queue| - done
    requires m.size + 2 * n <= MAX_RECORDS && used + HEADROOM <= MAX_BYTES
    ensures var (m', replies) := ModelRun(m, Repeated(Complete(used), n));
            && FinishedPrefix(m'.queue, done + n) && Labels(m'.queue) == Labels(m.queue) && m'.size == m.size + 2 * n
            && |replies| == n
            && forall k :: 0 <= k < n ==>
                 replies[k] == CompleteReply(Ok(Completion(Labels(m.queue)[done + k].0, Labels(m.queue)[done + k].1,
                                                           CompletedNow)))
  {
    if n > 0 {
      ModelDrains(m, done, used, n - 1);
      var calls := Repeated(Complete(used), n);
      assert calls[..n - 1] == Repeated(Complete(used), n - 1);
      var m' := ModelRun(m, calls[..n - 1]).0;
      assert |Labels(m'.queue)| == |Labels(m.queue)|;
      CompletesOne(m', done + n - 1, used);
    }
  }

  lemma {:induction false} RunSimulatesFrom(log: Log, m: Model, at: seq<nat>, used: nat, n: nat)
    requires Refines(log, m, at)
    ensures Refines(Run(log, Repeated(Complete(used), n)).0, ModelRun(m, Repeated(Complete(used), n)).0, at)
    ensures Run(log, Repeated(Complete(used), n)).1 == ModelRun(m, Repeated(Complete(used), n)).1
  {
    if n > 0 {
      RunSimulatesFrom(log, m, at, used, n - 1);
      var calls := Repeated(Complete(used), n);
      assert calls[..n - 1] == Repeated(Complete(used), n - 1);
      CompleteSimulates(Run(log, calls[..n - 1]).0, ModelRun(m, calls[..n - 1]).0, at, used);
    }
  }

  function UnfinishedCount(observations: seq<Observation>): nat {
    if observations == [] then 0
    else
      var n := |observations| - 1;
      UnfinishedCount(observations[..n]) + if observations[n].finished then 0 else 1
  }

  lemma {:induction false} CountsPastPrefix(observations: seq<Observation>, done: nat)
    requires done <= |observations|
    requires forall k :: 0 <= k < |observations| ==> (observations[k].finished <==> k < done)
    ensures UnfinishedCount(observations) == |observations| - done
  {
    if observations != [] {
      var n := |observations| - 1;
      CountsPastPrefix(observations[..n], if done <= n then done else n);
    }
  }

  lemma AlreadyCompletedChangesNothing(log: Log, m: Model, at: seq<nat>, used: nat)
    requires Refines(log, m, at) && m.queue != []
    requires FirstUnfinished(m.queue, 0) == |m.queue|
    requires used <= MAX_BYTES && m.size <= MAX_RECORDS
    ensures var last := m.queue[|m.queue| - 1];
            CompleteNext(log, used)
            == (log, Ok(Completion(last.bridged.identity, last.occurrence, AlreadyCompleted)))
  {
    ParseRefinesQueue(log, m.queue, at);
    SelectsFirstUnfinished(m.queue);
    CompleteKnown(log, m.queue, at, |m.queue| - 1, used);
  }

  /** Each of n calls completes one more observation. */
  ghost predicate CompletesEach(log: Log, used: nat, n: nat) {
    var replies := Run(log, Repeated(Complete(used), n)).1;
    && |replies| == n
    && forall k :: 0 <= k < n ==>
         replies[k].CompleteReply? && replies[k].completion.Ok?
         && replies[k].completion.value.disposition == CompletedNow
  }

  /** A call finds `last` already completed and leaves the log alone. */
  ghost predicate FindsCompleted(log: Log, used: nat, last: Observation) {
    CompleteNext(log, used) == (log, Ok(Completion(last.bridged.identity, last.occurrence, AlreadyCompleted)))
  }

  lemma DrainReplies(log: Log, m: Model, done: nat, used: nat)
    requires FinishedPrefix(m.queue, done)
    requires Run(log, Repeated(Complete(used), |m.queue| - done)).1
             == ModelRun(m, Repeated(Complete(used), |m.queue| - done)).1
    requires m.size + 2 * (|m.queue| - done) <= MAX_RECORDS && used + HEADROOM <= MAX_BYTES
    ensures CompletesEach(log, used, |m.queue| - done)
  {
    ModelDrains(m, done, used, |m.queue| - done);
  }

  lemma DrainEnds(m: Model, done: nat, used: nat)
    requires FinishedPrefix(m.queue, done) && m.queue != []
    requires m.size + 2 * (|m.queue| - done) <= MAX_RECORDS && used + HEADROOM <= MAX_BYTES
    ensures var m' := ModelRun(m, Repeated(Complete(used), |m.queue| - done)).0;
            && |m'.queue| == |m.queue| && FirstUnfinished(m'.queue, 0) == |m'.queue| && m'.size <= MAX_RECORDS
            && m'.queue[|m.queue| - 1].bridged.identity == m.queue[|m.queue| - 1].bridged.identity
            && m'.queue[|m.queue| - 1].occurrence == m.queue[|m.queue| - 1].occurrence
  {
    ModelDrains(m, done, used, |m.queue| - done);
    var m' := ModelRun(m, Repeated(Complete(used), |m.queue| - done)).0;
    FirstUnfinishedEndsPrefix(m'.queue, 0, |m'.queue|);
    assert Labels(m'.queue)[|m.queue| - 1] == Labels(m.queue)[|m.queue| - 1];
  }

  /** What the queue machine knows about a reachable History. */
  lemma ReachedModel(log: Log, calls: seq<Call>, observations: seq<Observation>) returns (m: Model, done: nat)
    requires Opening(log) && AdmissibleRun(log, calls)
    requires ParseLog(Run(log, calls).0) == Ok(observations)
    ensures m == ModelRun(Model([], |log|), calls).0
    ensures |Run(log, calls).0| == m.size && observations == Observed(m.queue)
    ensures FinishedPrefix(m.queue, done) && UnfinishedCount(observations) == |m.queue| - done
  {
    m := ModelRun(Model([], |log|), calls).0;
    LogRefinement(log, calls);
    done := ModelCompletesInOrder(|log|, calls);
    CountsPastPrefix(observations, done);
  }

  lemma DrainAgrees(log: Log, calls: seq<Call>, used: nat, n: nat) returns (at: seq<nat>)
    requires Opening(log) && AdmissibleRun(log, calls)
    ensures var m := ModelRun(Model([], |log|), calls).0;
            var drain := Repeated(Complete(used), n);
            && Run(Run(log, calls).0, drain).1 == ModelRun(m, drain).1
            && Refines(Run(Run(log, calls).0, drain).0, ModelRun(m, drain).0, at)
  {
    at := RunSimulates(log, calls);
    RunSimulatesFrom(Run(log, calls).0, ModelRun(Model([], |log|), calls).0, at, used, n);
  }

  /** Terminating completion: from any reachable History holding n unfinished observations, and
      with room for them, n calls complete one each. */
  lemma DrainsInUnfinishedCalls(log: Log, calls: seq<Call>, observations: seq<Observation>, used: nat)
    requires Opening(log) && AdmissibleRun(log, calls)
    requires ParseLog(Run(log, calls).0) == Ok(observations) && observations != []
    requires |Run(log, calls).0| + 2 * UnfinishedCount(observations) <= MAX_RECORDS
    requires used + HEADROOM <= MAX_BYTES
    ensures CompletesEach(Run(log, calls).0, used, UnfinishedCount(observations))
  {
    var m, done := ReachedModel(log, calls, observations);
    assert Run(Run(log, calls).0, Repeated(Complete(used), |m.queue| - done)).1
        == ModelRun(m, Repeated(Complete(used), |m.queue| - done)).1
    by { var _ := DrainAgrees(log, calls, used, |m.queue| - done); }
    DrainReplies(Run(log, calls).0, m, done, used);
  }

  /** The last observation, found completed in whatever refines a drained queue. */
  lemma DrainedFindsCompleted(log: Log, m: Model, at: seq<nat>, used: nat, last: Observation)
    requires Refines(log, m, at) && m.queue != [] && FirstUnfinished(m.queue, 0) == |m.queue|
    requires used <= MAX_BYTES && m.size <= MAX_RECORDS
    requires last.bridged.identity == m.queue[|m.queue| - 1].bridged.identity
    requires last.occurrence == m.queue[|m.queue| - 1].occurrence
    ensures FindsCompleted(log, used, last)
  {
    AlreadyCompletedChangesNothing(log, m, at, used);
  }

  /** After those n calls every further call reports the last observation as already completed
      and leaves History as it is. */
  lemma ThenStaysCompleted(log: Log, calls: seq<Call>, observations: seq<Observation>, used: nat)
    requires Opening(log) && AdmissibleRun(log, calls)
    requires ParseLog(Run(log, calls).0) == Ok(observations) && observations != []
    requires |Run(log, calls).0| + 2 * UnfinishedCount(observations) <= MAX_RECORDS
    requires used + HEADROOM <= MAX_BYTES
    ensures FindsCompleted(
              Run(Run(log, calls).0, Repeated(Complete(used), UnfinishedCount(observations))).0, used,
              observations[|observations| - 1])
  {
    var m, done := ReachedModel(log, calls, observations);
    var at := DrainAgrees(log, calls, used, |m.queue| - done);
    DrainLeavesCompleted(Run(log, calls).0, m, at, done, used);
  }

  lemma DrainLeavesCompleted(log: Log, m: Model, at: seq<nat>, done: nat, used: nat)
    requires FinishedPrefix(m.queue, done) && m.queue != []
    requires m.size + 2 * (|m.queue| - done) <= MAX_RECORDS && used + HEADROOM <= MAX_BYTES
    requires var drain := Repeated(Complete(used), |m.queue| - done);
             Refines(Run(log, drain).0, ModelRun(m, drain).0, at)
    ensures FindsCompleted(Run(log, Repeated(Complete(used), |m.queue| - done)).0, used,
                           Observed(m.queue)[|m.queue| - 1])
  {
    DrainEnds(m, done, used);
    var drain := Repeated(Complete(used), |m.queue| - done);
    DrainedFindsCompleted(Run(log, drain).0, ModelRun(m, drain).0, at, used, Observed(m.queue)[|m.queue| - 1]);
  }

  // ---------------------------------------------------------------- bound and replay

  lemma {:induction false} ModelStaysBounded(m: Model, calls: seq<Call>)
    requires m.size <= MAX_RECORDS
    requires forall i :: 0 <= i < |calls| ==> !calls[i].OtherRecord?
    ensures ModelRun(m, calls).0.size <= MAX_RECORDS
  {
    if calls != [] {
      ModelStaysBounded(m, calls[..|calls| - 1]);
    }
  }

  /** Accepting and completing never push a workflow past its record bound. */
  lemma StaysBounded(log: Log, calls: seq<Call>)
    requires Opening(log) && AdmissibleRun(log, calls) && |log| <= MAX_RECORDS
    requires forall i :: 0 <= i < |calls| ==> !calls[i].OtherRecord?
    ensures |Run(log, calls).0| <= MAX_RECORDS
  {
    LogRefinement(log, calls);
    ModelStaysBounded(Model([], |log|), calls);
  }

  lemma {:induction false} EntriesPersist(m: Model, calls: seq<Call>, i: nat)
    requires i <= |calls|
    ensures Labels(ModelRun(m, calls[..i]).0.queue) <= Labels(ModelRun(m, calls).0.queue)
  {
    if i < |calls| {
      var n := |calls| - 1;
      EntriesPersist(m, calls[..n], i);
      assert calls[..n][..i] == calls[..i];
      var before, after := ModelRun(m, calls[..n]).0, ModelRun(m, calls).0;
      assert Labels(before.queue) <= Labels(after.queue);
    } else {
      assert calls[..i] == calls;
    }
  }

  /** The replies of a run are those of its prefixes. */
  lemma {:induction false} ReplyOfPrefix(m: Model, calls: seq<Call>, i: nat)
    requires i < |calls|
    ensures |ModelRun(m, calls).1| == |calls|
    ensures ModelRun(m, calls).1[i] == ModelStep(ModelRun(m, calls[..i]).0, calls[i]).1
  {
    var n := |calls| - 1;
    if i < n {
      ReplyOfPrefix(m, calls[..n], i);
      assert calls[..n][..i] == calls[..i];
    } else if n > 0 {
      ReplyOfPrefix(m, calls[..n], 0);
    }
  }

  /** Recovery when full: once an identity was accepted, accepting it again at any later point,
      even with every record used, succeeds with the same occurrence and appends nothing. */
  lemma ReplayIsStable(log: Log, calls: seq<Call>, i: nat, used: nat, next: int, instant: Option<int>)
    requires Opening(log) && AdmissibleRun(log, calls) && i < |calls| && calls[i].Accept?
    requires |Run(log, calls).1| == |calls| && Run(log, calls).1[i].AcceptReply?
    requires Run(log, calls).1[i].acceptance.Ok?
    requires |Run(log, calls).0| <= MAX_RECORDS && used <= MAX_BYTES
    ensures var (log', again) := AcceptDelivery(Run(log, calls).0, calls[i].bridged, used, next, instant);
            log' == Run(log, calls).0 && again.Ok?
            && again.value.occurrence == Run(log, calls).1[i].acceptance.value.occurrence
  {
    var at := RunSimulates(log, calls);
    var m := ModelRun(Model([], |log|), calls).0;
    var k := AcceptedIsQueued(Model([], |log|), calls, i);
    ReplayOfQueued(Run(log, calls).0, m, at, k, calls[i].bridged, used, next, instant);
  }

  /** An accepted call's entry is still queued at the end, under its identity and occurrence. */
  lemma AcceptedIsQueued(m0: Model, calls: seq<Call>, i: nat) returns (k: nat)
    requires i < |calls| && calls[i].Accept?
    requires |ModelRun(m0, calls).1| == |calls| && ModelRun(m0, calls).1[i].AcceptReply?
    requires ModelRun(m0, calls).1[i].acceptance.Ok?
    ensures k < |ModelRun(m0, calls).0.queue|
    ensures Labels(ModelRun(m0, calls).0.queue)[k]
            == (calls[i].bridged.identity, ModelRun(m0, calls).1[i].acceptance.value.occurrence)
  {
    ReplyOfPrefix(m0, calls, i);
    EntriesPersist(m0, calls, i + 1);
    assert calls[..i + 1][..i] == calls[..i];
    var before, b := ModelRun(m0, calls[..i]).0, calls[i].bridged;
    var after := ModelRun(m0, calls[..i + 1]).0;
    assert after == ModelStep(before, calls[i]).0;
    k := if IndexOf(before.queue, b.identity).Some? then IndexOf(before.queue, b.identity).value else |before.queue|;
    assert Labels(after.queue)[k] == (b.identity, ModelRun(m0, calls).1[i].acceptance.value.occurrence);
  }

  lemma ReplayOfQueued(log: Log, m: Model, at: seq<nat>, k: nat, b: BridgedDelivery, used: nat, next: int,
                       instant: Option<int>)
    requires Refines(log, m, at) && k < |m.queue| && m.queue[k].bridged.identity == b.identity
    requires m.size <= MAX_RECORDS && used <= MAX_BYTES
    ensures AcceptDelivery(log, b, used, next, instant)
            == (log, Ok(Acceptance(m.queue[k].occurrence, m.queue[k].finished)))
  {
    ParseRefinesQueue(log, m.queue, at);
    AcceptKnown(log, m.queue, at, k, b, used, next, instant);
  }
}
