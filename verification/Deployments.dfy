/**
  Whole runs of a deployment: what holds in every state that any interleaving of its processes,
  with lapsing leases and deaths anywhere, can reach.
  */
module Deployments {
  import opened Protocol
  import opened CrashResume
  import opened Queue
  import opened RunLog
  import opened Stores
  import opened Cluster
  import opened Serializing
  import opened NothingLost

  const EMPTY_QUEUE := QueueState([], [], map[], map[], map[], map[])

  predicate Initial(c: Cluster) {
    c.store == map[] && c.procs == map[] && c.queue == EMPTY_QUEUE
  }

  predicate StepAt(cs: seq<Cluster>, actions: seq<Action>, i: nat)
    requires i < |actions| && i + 1 < |cs|
  {
    Enabled(cs[i], actions[i]) && cs[i + 1] == Apply(cs[i], actions[i])
  }

  /** States, one step after another. */
  ghost predicate Steps(cs: seq<Cluster>, actions: seq<Action>) {
    |cs| == |actions| + 1 && forall i :: 0 <= i < |actions| ==> StepAt(cs, actions, i)
  }

  /** A deployment's states, from the first on. */
  ghost predicate Runs(cs: seq<Cluster>, actions: seq<Action>) {
    Steps(cs, actions) && Initial(cs[0])
  }

  // ---------------------------------------------------------------------------
  // Logs serialize
  // ---------------------------------------------------------------------------

  lemma InitialLogs(c: Cluster)
    requires Initial(c)
    ensures LogInv(c) && Inv(c)
  {
  }

  lemma {:induction false} RunLogs(cs: seq<Cluster>, actions: seq<Action>, n: nat)
    requires Runs(cs, actions) && n < |cs|
    ensures LogInv(cs[n])
  {
    hide Apply;
    hide Enabled;
    hide LogInv;
    if n == 0 {
      InitialLogs(cs[0]);
    } else {
      RunLogs(cs, actions, n - 1);
      assert StepAt(cs, actions, n - 1);
      StepLogs(cs[n - 1], actions[n - 1]);
    }
  }

  /**
    However many workers run it, and whatever their drivers meet, a stored log is one writer's batch
    after another, each computed by a driver resumed from exactly the log it extends (or a lone end or
    answer). It ends once, and is never left inside a step.
    */
  lemma LogsSerialize(cs: seq<Cluster>, actions: seq<Action>, n: nat, id: RunId)
    requires Runs(cs, actions) && n < |cs| && id in cs[n].store
    ensures var run := cs[n].store[id];
            && run.spec.runId == id
            && Written(run.spec, run.log)
            && EndsOnce(run.log)
            && (!Ended(run.log) ==> !TornSend(run.log))
  {
    hide Runs;
    hide Written;
    hide TornSend;
    RunLogs(cs, actions, n);
    var run := cs[n].store[id];
    WrittenShaped(run.spec, run.log);
    if !Ended(run.log) {
      NotTorn(run.spec, run.log);
    }
  }

  lemma NotTorn(spec: RunSpec, log: Log)
    requires Shaped(spec, log) && !Ended(log)
    ensures !TornSend(log)
  {
  }

  /** Each step of a run: a log stays as it is, or takes one writer's batch. */
  lemma StepSerializes(cs: seq<Cluster>, actions: seq<Action>, n: nat, id: RunId)
    requires Runs(cs, actions) && n < |actions| && id in cs[n].store
    ensures id in cs[n + 1].store && cs[n + 1].store[id].spec == cs[n].store[id].spec
    ensures var was, now := cs[n].store[id].log, cs[n + 1].store[id].log;
            now == was || Writes(cs[n].store[id].spec, was, now)
  {
    hide Apply;
    hide Enabled;
    hide Acted;
    hide Works;
    hide LogInv;
    RunLogs(cs, actions, n);
    assert StepAt(cs, actions, n);
    StepLogs(cs[n], actions[n]);
  }

  /** Logs only grow, over any stretch of a run. */
  lemma {:induction false} LogsOnlyGrow(cs: seq<Cluster>, actions: seq<Action>, m: nat, n: nat)
    requires Runs(cs, actions) && m <= n < |cs|
    ensures Grows(cs[m].store, cs[n].store)
  {
    hide Grows;
    hide Apply;
    hide Enabled;
    hide LogInv;
    hide Serial;
    hide Acted;
    if m == n {
      GrowsRefl(cs[m].store);
    } else {
      LogsOnlyGrow(cs, actions, m, n - 1);
      RunLogs(cs, actions, n - 1);
      assert StepAt(cs, actions, n - 1);
      StepLogs(cs[n - 1], actions[n - 1]);
      GrowsTrans(cs[m].store, cs[n - 1].store, cs[n].store);
    }
  }

  // ---------------------------------------------------------------------------
  // No run is lost
  // ---------------------------------------------------------------------------

  /** No run is forgotten between its producer's mark and its push. */
  ghost predicate Timely(cs: seq<Cluster>, actions: seq<Action>) {
    |cs| == |actions| + 1 && forall i :: 0 <= i < |actions| ==> ForgetsSafely(cs[i], actions[i])
  }

  lemma {:induction false} RunKeeps(cs: seq<Cluster>, actions: seq<Action>, n: nat)
    requires Runs(cs, actions) && Timely(cs, actions) && n < |cs|
    ensures Inv(cs[n])
  {
    hide Apply;
    hide Enabled;
    hide Inv;
    hide ForgetsSafely;
    if n == 0 {
      InitialLogs(cs[0]);
    } else {
      RunKeeps(cs, actions, n - 1);
      assert StepAt(cs, actions, n - 1);
      StepKeeps(cs[n - 1], actions[n - 1]);
    }
  }

  /** An open stored run that nothing will bring back. */
  predicate Lost(c: Cluster, id: RunId) {
    Open(c.store, id) && id !in c.queue.pending && !c.queue.Placed(id)
  }

  /**
    In every reachable state a stored run whose log has not ended is pending, listed, claimed or
    parked; a leased one is claimed; and only a run whose log ended is about to be acknowledged. This
    holds of every run in which no run is forgotten between its producer's mark and its push.
    */
  lemma NoRunIsLost(cs: seq<Cluster>, actions: seq<Action>, n: nat, id: RunId)
    requires Runs(cs, actions) && Timely(cs, actions)
    requires n < |cs| && id in cs[n].store && !Ended(cs[n].store[id].log)
    ensures var q := cs[n].queue;
            && (id in q.pending || id in q.runs || id in q.processing || id in q.parked)
            && (id in q.lease ==> id in q.processing)
            && (forall p <- cs[n].procs :: !(cs[n].procs[p].Acking? && cs[n].procs[p].id == id))
  {
    hide Runs;
    hide Timely;
    hide LogInv;
    RunKeeps(cs, actions, n);
    var c := cs[n];
    assert Open(c.store, id);
    forall p | p in c.procs ensures !(c.procs[p].Acking? && c.procs[p].id == id) {
      assert PlaceOk(c.store, c.queue, c.procs[p]);
    }
  }

  /** A run that its producer stored since the sweep looked is lost as soon as it is forgotten. */
  lemma ForgottenStoredIsLost(c: Cluster, p: nat, id: RunId)
    requires Inv(c) && At(c, p) == Forgetting(id) && StoredUnpushed(c, id)
    ensures Lost(Forgot(c, p, id), id)
  {
    hide Inv;
    WaitingIsOpen(c.store[id].log);
  }

  /** A run forgotten while its producer is about to store it is lost as soon as it is stored. */
  lemma ForgottenInFlightIsLost(c: Cluster, p: nat, id: RunId, k: nat)
    requires Inv(c) && At(c, p) == Forgetting(id) && id !in c.store
    requires k in c.procs && c.procs[k].Pended? && c.procs[k].spec.runId == id
    ensures var forgotten := Forgot(c, p, id);
            Enabled(forgotten, Produces(k, Put)) && Lost(Apply(forgotten, Produces(k, Put)), id)
  {
    hide LogInv;
    hide StillWaiting;
    QueuedDispatch(c.procs[k].spec);
  }

  lemma NoSteps(c: Cluster)
    ensures Steps([c], [])
  {
  }

  /** States go on with any step that is enabled. */
  lemma StepOn(cs: seq<Cluster>, actions: seq<Action>, a: Action) returns (grown: seq<Cluster>, all: seq<Action>)
    requires Steps(cs, actions) && Enabled(cs[|actions|], a)
    ensures grown == cs + [Apply(cs[|actions|], a)] && all == actions + [a] && Steps(grown, all)
  {
    hide Apply;
    hide Enabled;
    grown, all := cs + [Apply(cs[|actions|], a)], actions + [a];
    forall i | 0 <= i < |all| ensures StepAt(grown, all, i) {
      if i < |actions| {
        assert StepAt(cs, actions, i);
      }
    }
  }

  /** Steps of process `p`, with no other's between them, take the deployment from `c` to `c'`. */
  ghost predicate Alone(c: Cluster, c': Cluster, p: nat) {
    exists cs: seq<Cluster>, actions: seq<Action> :: AloneBy(cs, actions, p) && cs[0] == c && cs[|actions|] == c'
  }

  ghost predicate AloneBy(cs: seq<Cluster>, actions: seq<Action>, p: nat) {
    |cs| == |actions| + 1 && Steps(cs, actions) && forall a <- actions :: a.p == p
  }

  lemma AloneHere(c: Cluster, p: nat)
    ensures Alone(c, c, p)
  {
    hide Steps;
    NoSteps(c);
    assert AloneBy([c], [], p);
  }

  /** And on by any step of its own that is enabled. */
  lemma AloneStep(c: Cluster, c': Cluster, a: Action)
    requires Alone(c, c', a.p) && Enabled(c', a)
    ensures Alone(c, Apply(c', a), a.p)
  {
    hide Steps;
    hide Enabled;
    hide Apply;
    var cs, actions :| AloneBy(cs, actions, a.p) && cs[0] == c && cs[|actions|] == c';
    var grown, all := StepOn(cs, actions, a);
    assert AloneBy(grown, all, a.p);
  }

  lemma AloneOn(c: Cluster, c1: Cluster, c2: Cluster, p: nat)
    requires Alone(c, c1, p) && Alone(c1, c2, p)
    ensures Alone(c, c2, p)
  {
    hide Enabled;
    hide Apply;
    var cs, actions :| AloneBy(cs, actions, p) && cs[0] == c && cs[|actions|] == c1;
    var more, others :| AloneBy(more, others, p) && more[0] == c1 && more[|others|] == c2;
    JoinSteps(cs, actions, more, others);
    var all := cs + more[1..];
    assert AloneBy(all, actions + others, p);
    assert all[|actions + others|] == c2;
  }

  /** Two stretches of steps, one after the other. */
  lemma JoinSteps(cs: seq<Cluster>, actions: seq<Action>, more: seq<Cluster>, others: seq<Action>)
    requires Steps(cs, actions) && Steps(more, others) && cs[|actions|] == more[0]
    ensures Steps(cs + more[1..], actions + others)
  {
    hide Enabled;
    hide Apply;
    var grown, all := cs + more[1..], actions + others;
    forall i | 0 <= i < |all| ensures StepAt(grown, all, i) {
      if i < |actions| {
        assert StepAt(cs, actions, i);
      } else {
        var k := i - |actions|;
        assert StepAt(more, others, k) && grown[i] == more[k] && grown[i + 1] == more[k + 1];
      }
    }
  }

  /** A producer that marks its run, a sweep that finds it unstored, and a death: what each leaves. */
  lemma MarkStep(c: Cluster, p: nat, spec: RunSpec)
    requires At(c, p).Free?
    ensures var a := Produces(p, Pend(spec, Create, 0));
            Enabled(c, a) && Apply(c, a) == c.(queue := Queue.Pend(c.queue, spec.runId, 0), procs := c.procs[p := Pended(spec, Create)])
  {
  }

  lemma LookStep(c: Cluster, p: nat, id: RunId)
    requires At(c, p).Free? && id !in c.store
    ensures var a := Produces(p, Sweep(id, false, true));
            Enabled(c, a) && Apply(c, a) == c.(procs := c.procs[p := Forgetting(id)])
  {
  }

  lemma PutStep(c: Cluster, p: nat, spec: RunSpec)
    requires At(c, p) == Pended(spec, Create) && spec.runId !in c.store
    ensures var a := Produces(p, Put);
            && Enabled(c, a)
            && Apply(c, a) == c.(store := c.store[spec.runId := Stored(spec, QueuedEvents(spec))],
                                 procs := c.procs[p := Pushing(spec.runId, true)])
  {
  }

  lemma DieStep(c: Cluster, p: nat)
    ensures Enabled(c, Serves(p, Crash)) && Apply(c, Serves(p, Crash)) == c.(procs := c.procs[p := Free])
  {
  }

  lemma ForgetStep(c: Cluster, p: nat, id: RunId)
    requires At(c, p) == Forgetting(id)
    ensures Enabled(c, Produces(p, Forget)) && Apply(c, Produces(p, Forget)) == Forgot(c, p, id)
  {
  }

  /** A producer that dies after its mark, and a sweep that then finds the run unstored. */
  lemma StaleMark(spec: RunSpec, maxDeliveries: nat) returns (cs: seq<Cluster>, actions: seq<Action>)
    ensures Steps(cs, actions) && |cs| == 4 && Initial(cs[0]) && !PutInFlight(cs[2], spec.runId) && At(cs[2], 1).Free?
    ensures cs[3] == Cluster(map[], EMPTY_QUEUE.(pending := map[spec.runId := 0]),
                             map[0 := Free, 1 := Forgetting(spec.runId)], maxDeliveries)
  {
    hide Apply;
    hide Enabled;
    var c0 := Cluster(map[], EMPTY_QUEUE, map[], maxDeliveries);
    NoSteps(c0);
    MarkStep(c0, 0, spec);
    cs, actions := StepOn([c0], [], Produces(0, Pend(spec, Create, 0)));
    DieStep(cs[1], 0);
    cs, actions := StepOn(cs, actions, Serves(0, Crash));
    LookStep(cs[2], 1, spec.runId);
    cs, actions := StepOn(cs, actions, Produces(1, Sweep(spec.runId, false, true)));
  }

  /** A second producer that marks the run, stores it and dies, and the sweep that then takes the mark off. */
  lemma StoredThenForgotten(spec: RunSpec, cs: seq<Cluster>, actions: seq<Action>)
      returns (grown: seq<Cluster>, all: seq<Action>)
    requires Steps(cs, actions) && |cs| == 4
    requires cs[3].store == map[] && cs[3].queue == EMPTY_QUEUE.(pending := map[spec.runId := 0])
    requires cs[3].procs == map[0 := Free, 1 := Forgetting(spec.runId)]
    ensures Steps(grown, all) && cs <= grown && |grown| == 8 && Lost(grown[7], spec.runId)
  {
    hide Apply;
    hide Enabled;
    MarkStep(cs[3], 2, spec);
    grown, all := StepOn(cs, actions, Produces(2, Pend(spec, Create, 0)));
    PutStep(grown[4], 2, spec);
    grown, all := StepOn(grown, all, Produces(2, Put));
    DieStep(grown[5], 2);
    grown, all := StepOn(grown, all, Serves(2, Crash));
    ForgetStep(grown[6], 1, spec.runId);
    grown, all := StepOn(grown, all, Produces(1, Forget));
    QueuedDispatch(spec);
  }

  /**
    Both happen. Here a first producer dies after its mark; a sweep finds the run unstored, with no
    producer in flight; a second producer asks for the same run, stores it and dies; and the sweep then
    takes the old mark off.
    */
  lemma ForgettingLosesARun(spec: RunSpec, maxDeliveries: nat) returns (cs: seq<Cluster>, actions: seq<Action>)
    ensures Runs(cs, actions) && |cs| == 8
    ensures At(cs[2], 1).Free? && At(cs[3], 1) == Forgetting(spec.runId) && !PutInFlight(cs[2], spec.runId)
    ensures Lost(cs[7], spec.runId)
  {
    hide Steps;
    hide Lost;
    cs, actions := StaleMark(spec, maxDeliveries);
    cs, actions := StoredThenForgotten(spec, cs, actions);
  }
}
