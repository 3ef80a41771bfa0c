/**
  A worker's visit to a run, whole: from its claim to its acknowledgement or park, the steps it takes
  when no other process comes between leave in the store exactly what rebuilding a driver and running
  its loop once says. Wherever the worker is killed on the way, the next visit comes to the same log.
  */
module Visits {
  import opened Protocol
  import opened Reducer
  import opened Folding
  import opened Driving
  import opened Looping
  import opened CrashResume
  import opened Asks
  import opened Queue
  import opened RunLog
  import opened Stores
  import opened Cluster
  import opened Serializing
  import opened Deployments

  // ---------------------------------------------------------------------------
  // What a visit comes to
  // ---------------------------------------------------------------------------

  /** What a visit finds outside the log: whether a stop covers the run, whether there is a decider, and its world. */
  datatype Means = Means(stopped: bool, decider: bool, world: World)

  /** A queued run is scheduled first. */
  function Scheduled(log: Log): Log {
    if Dispatch(log).Queued? then log + LADDER else log
  }

  /** The driver's loop from a boundary, and the failure that ends the run if its decider has no answer. */
  function Looped(spec: RunSpec, w: World, log: Log): Log {
    var ran := RunLoop(spec, w, log);
    if ran.error.Some? then ran.log + [RunFailed(Dependency, "decider: " + ran.error.value)] else ran.log
  }

  /** The log an undisturbed visit leaves. */
  function Visited(spec: RunSpec, m: Means, log: Log): Log {
    var ready := Scheduled(log);
    if m.stopped then log + [RunCancelled]
    else if Resume(spec, ready).Err? then ready + [RunFailed(Infrastructure, "cannot resume")]
    else if !m.decider then Rebuilt(spec, ready) + [RunFailed(Dependency, "decider: none")]
    else Looped(spec, m.world, Recover(spec, m.world, ready))
  }

  /** And what the queue is left with: a run that waits is parked on its ask, any other acknowledged. */
  function Handed(q: QueueState, spec: RunSpec, id: RunId, token: Token, log: Log): QueueState {
    var started := Queue.Start(q, id).0;
    match Harness(spec, log)
    case WaitingForMessage(_, _, ask) => Queue.Park(started, id, token, ask).0
    case _ => Queue.Ack(started, id, token)
  }

  /** A visit that starts at a boundary goes straight into the loop. */
  lemma VisitFromBoundary(spec: RunSpec, m: Means, log: Log)
    requires AtBoundary(spec, log) && !Ended(log) && Active(Dispatch(log)) && !m.stopped && m.decider
    ensures Visited(spec, m, log) == Looped(spec, m.world, log)
  {
    hide Looped;
    hide Recover;
    hide Harness;
    RecoverBoundary(spec, m.world, log);
  }

  /** A scheduled run is visited as a queued one is, once it is scheduled. */
  lemma VisitFromLadder(spec: RunSpec, m: Means, log: Log)
    requires Dispatch(log).Queued? && !m.stopped
    ensures Visited(spec, m, log + LADDER) == Visited(spec, m, log)
  {
    hide Dispatch;
    hide Looped;
    hide Recover;
    hide Resume;
    hide Rebuilt;
    LadderPhase(log);
  }

  /** A stored open run can always be resumed, once it is scheduled. */
  lemma ReadyResumes(spec: RunSpec, log: Log)
    requires Shaped(spec, log) && !Ended(log)
    ensures Shaped(spec, Scheduled(log)) && !Ended(Scheduled(log)) && Resume(spec, Scheduled(log)).Ok?
  {
    hide Harness;
    QueuedDispatch(spec);
  }

  // ---------------------------------------------------------------------------
  // Steps of one worker
  // ---------------------------------------------------------------------------

  /** What is visited: the run, its spec, the claim's token, and what the visit finds outside. */
  datatype Visit = Visit(p: nat, id: RunId, spec: RunSpec, token: Token, means: Means)

  /** A state of the visit from which the visit, or one after it, comes to the log `end`. */
  predicate ComesTo(c: Cluster, v: Visit, end: Log) {
    && v.id in c.store && c.store[v.id].spec == v.spec
    && var log := c.store[v.id].log;
       if Ended(log) then log == end else Visited(v.spec, v.means, log) == end
  }

  /** Steps of the worker alone take the deployment from `c` to `c'`, through states that each come to `end`. */
  ghost predicate Comes(c: Cluster, c': Cluster, v: Visit, end: Log) {
    exists cs: seq<Cluster>, actions: seq<Action> :: Path(cs, actions, v, end) && cs[0] == c && cs[|actions|] == c'
  }

  ghost predicate Path(cs: seq<Cluster>, actions: seq<Action>, v: Visit, end: Log) {
    AloneBy(cs, actions, v.p) && forall c <- cs :: ComesTo(c, v, end)
  }

  /** One step of the worker. */
  lemma Goes(c: Cluster, v: Visit, end: Log, a: Laboring) returns (c': Cluster)
    requires ComesTo(c, v, end) && MayLabor(c, At(c, v.p), a)
    requires ComesTo(After(c, v.p, Labor(c, At(c, v.p), a)), v, end)
    ensures c' == After(c, v.p, Labor(c, At(c, v.p), a)) && Comes(c, c', v, end)
  {
    hide ComesTo;
    hide Labor;
    hide MayLabor;
    c' := Apply(c, Labors(v.p, a));
    var cs, actions := [c, c'], [Labors(v.p, a)];
    assert Path(cs, actions, v, end);
  }

  lemma GoesOn(c: Cluster, c1: Cluster, c2: Cluster, v: Visit, end: Log)
    requires Comes(c, c1, v, end) && Comes(c1, c2, v, end)
    ensures Comes(c, c2, v, end)
  {
    hide Apply;
    hide Enabled;
    hide ComesTo;
    hide Deployments.Steps;
    var cs, actions :| Path(cs, actions, v, end) && cs[0] == c && cs[|actions|] == c1;
    var more, others :| Path(more, others, v, end) && more[0] == c1 && more[|others|] == c2;
    JoinSteps(cs, actions, more, others);
    var all := cs + more[1..];
    assert Path(all, actions + others, v, end);
    assert all[|actions + others|] == c2;
  }

  /** Where the worker stands, its log stored up to what it has seen. */
  predicate Stands(c: Cluster, v: Visit, proc: Proc) {
    && At(c, v.p) == proc && v.id in c.store && c.store[v.id].spec == v.spec
    && (proc.Working? ==> proc.id == v.id && proc.token == v.token && proc.seen <= |proc.mine|
                          && c.store[v.id].log == SeenBy(proc) && !Ended(c.store[v.id].log))
  }

  function Put(s: Store, id: RunId, log: Log): Store
    requires id in s
  {
    s[id := s[id].(log := log)]
  }

  /** A store step of an undisturbed worker leaves the store with the worker's log. */
  lemma StoreStep(c: Cluster, v: Visit, proc: Proc)
    requires Stands(c, v, proc) && proc.Working? && proc.seen < |proc.mine| && (proc.stage.Looping? ==> !Ended(proc.mine))
    ensures MayLabor(c, proc, Laboring.Store)
    ensures var c' := After(c, v.p, Labor(c, proc, Laboring.Store));
            && c'.store == Put(c.store, v.id, proc.mine) && c'.queue == c.queue
            && At(c', v.p) == proc.(seen := |proc.mine|)
  {
    hide Ended;
    TakenExactly(c.store, proc);
  }

  /** Steps that only move the worker. */
  lemma StillStep(c: Cluster, v: Visit, proc: Proc, a: Laboring)
    requires Stands(c, v, proc) && MayLabor(c, proc, a) && proc.Working?
    requires a.Begin? || a.Turn? || a.Leave? || a.StopHere? || a.Finish?
    ensures var c' := After(c, v.p, Labor(c, proc, a));
            && c'.store == c.store && c'.queue == c.queue
            && At(c', v.p) == match a {
                 case Begin(stopped, decider, w) => Began(v.spec, proc, stopped, decider, w)
                 case Turn(w) => Turned(v.spec, proc, w)
                 case Leave => proc.(stage := Done)
                 case StopHere => proc.(mine := proc.mine + [RunCancelled], stage := Done)
                 case _ =>
                   var h := Harness(v.spec, proc.mine);
                   if h.WaitingForMessage? then Parking(v.id, v.token, h.messageId) else Acking(v.id, v.token)
               }
  {
    hide Began;
    hide Turned;
    hide Harness;
    hide Ended;
  }

  // ---------------------------------------------------------------------------
  // From the loop to its end
  // ---------------------------------------------------------------------------

  /** Where a worker goes once its log is stored. */
  function Leaves(v: Visit, end: Log): Proc {
    match Harness(v.spec, end)
    case WaitingForMessage(_, _, ask) => Parking(v.id, v.token, ask)
    case _ => Acking(v.id, v.token)
  }

  /** The worker has stored `end`, and is about to hand the run back. */
  predicate Reached(c: Cluster, c': Cluster, v: Visit, end: Log) {
    && v.id in c.store && c'.store == Put(c.store, v.id, end) && c'.queue == c.queue
    && At(c', v.p) == Leaves(v, end)
  }

  /** A worker past its loop stores what it has left to store, and finishes. */
  lemma Finishes(c: Cluster, v: Visit, end: Log, proc: Proc) returns (c': Cluster)
    requires ComesTo(c, v, end) && Stands(c, v, proc)
    requires proc.Working? && proc.stage.Done? && proc.mine == end && (proc.seen < |end| ==> Ended(end))
    ensures Comes(c, c', v, end) && Reached(c, c', v, end)
  {
    hide Comes;
    hide Labor;
    hide Harness;
    hide Visited;
    hide Ended;
    if proc.seen < |end| {
      StoreStep(c, v, proc);
      var c1 := Goes(c, v, end, Laboring.Store);
      FinishStep(c1, v, proc.(seen := |end|));
      c' := Goes(c1, v, end, Finish);
      GoesOn(c, c1, c', v, end);
    } else {
      assert SeenBy(proc) == end;
      FinishStep(c, v, proc);
      c' := Goes(c, v, end, Finish);
    }
  }

  lemma FinishStep(c: Cluster, v: Visit, proc: Proc)
    requires At(c, v.p) == proc && proc.Working? && proc.id == v.id && proc.token == v.token
    requires proc.stage.Done? && proc.seen == |proc.mine| && v.id in c.store && c.store[v.id].spec == v.spec
    ensures MayLabor(c, proc, Finish)
    ensures var c' := After(c, v.p, Labor(c, proc, Finish));
            c'.store == c.store && c'.queue == c.queue && At(c', v.p) == Leaves(v, proc.mine)
  {
    hide Harness;
  }

  /** A worker in its loop, at a boundary of the driver's log. */
  ghost predicate InLoop(c: Cluster, v: Visit, end: Log, proc: Proc) {
    && Stands(c, v, proc) && proc.Working? && proc.stage.Looping?
    && !v.means.stopped && v.means.decider
    && AtBoundary(v.spec, proc.mine) && !Ended(proc.mine) && Active(Dispatch(proc.mine))
    && Looped(v.spec, v.means.world, proc.mine) == end
  }

  predicate NeverPauses(w: World, log: Log) {
    !w.boundary(log).Pause?
  }

  /** What one turn is to the whole loop. */
  lemma LoopTurn(spec: RunSpec, w: World, log: Log)
    requires AtBoundary(spec, log) && !Ended(log) && Active(Dispatch(log)) && w.boundary(log).Continue?
    ensures var turn, end := OneTurn(spec, w, log), Looped(spec, w, log);
            if turn.Go? then
              && Fuel(spec, turn.log) < Fuel(spec, log) && AtBoundary(spec, turn.log) && log <= turn.log
              && end == Looped(spec, w, turn.log)
              && (if Ended(turn.log) then turn.log == end else Active(Dispatch(turn.log)))
            else
              && end == (if turn.error.Some? then turn.log + [RunFailed(Dependency, "decider: " + turn.error.value)] else turn.log)
              && log <= end && (log == end || Ended(end))
  {
    hide OneTurn;
    hide AtBoundary;
    hide Harness;
    hide Dispatch;
    hide Active;
    TurnProgress(spec, w, log);
    TurnKeepsBoundary(spec, w, log);
    var turn := OneTurn(spec, w, log);
    if turn.Go? {
      if Ended(turn.log) {
        RunLoopEnded(spec, w, turn.log);
      } else {
        assert turn.log == log + turn.log[|log|..];
        StaysActive(log, turn.log[|log|..]);
      }
    } else if turn.error.Some? {
      FailedTurn(spec, w, log);
      EndedSnoc(log, RunFailed(Dependency, "decider: " + turn.error.value));
    }
  }

  /** A loop stopped at its first boundary. */
  lemma LoopCancels(spec: RunSpec, w: World, log: Log)
    requires AtBoundary(spec, log) && !Ended(log) && w.boundary(log).Cancel?
    ensures Looped(spec, w, log) == log + [RunCancelled] && Ended(log + [RunCancelled])
  {
    hide OneTurn;
    hide AtBoundary;
    hide Harness;
    BoundaryOpen(spec, log);
    CancelEnds(spec, w, log);
    StopsAt(spec, w, log);
  }

  lemma StopsAt(spec: RunSpec, w: World, log: Log)
    requires w.boundary(log).Cancel?
    ensures OneTurn(spec, w, log).Stop? && OneTurn(spec, w, log).error.None?
  {
  }

  /** A stop met at a boundary: what the loop had not stored yet goes with the cancellation, as one append. */
  lemma CancelsHere(c: Cluster, v: Visit, end: Log, proc: Proc) returns (c': Cluster)
    requires ComesTo(c, v, end) && InLoop(c, v, end, proc) && v.means.world.boundary(proc.mine).Cancel?
    ensures Comes(c, c', v, end) && Reached(c, c', v, end)
  {
    hide Comes;
    hide Labor;
    hide Harness;
    hide Visited;
    hide Ended;
    hide Looped;
    hide AtBoundary;
    hide Dispatch;
    hide Leaves;
    LoopCancels(v.spec, v.means.world, proc.mine);
    StillStep(c, v, proc, StopHere);
    var c1 := Goes(c, v, end, StopHere);
    var at := proc.(mine := end, stage := Done);
    assert SeenBy(at) == SeenBy(proc);
    c' := Finishes(c1, v, end, at);
    GoesOn(c, c1, c', v, end);
  }

  /** The next turn, once what was not stored is. */
  lemma Turns(c: Cluster, v: Visit, end: Log, proc: Proc) returns (c': Cluster)
    requires ComesTo(c, v, end) && InLoop(c, v, end, proc) && v.means.world.boundary(proc.mine).Continue?
    ensures Comes(c, c', v, end) && ComesTo(c', v, end)
    ensures c'.store == Put(c.store, v.id, proc.mine) && c'.queue == c.queue
    ensures var turned := Turned(v.spec, proc.(seen := |proc.mine|), v.means.world);
            Stands(c', v, turned) && turned.Working? && turned.seen == |proc.mine|
  {
    hide Comes;
    hide Labor;
    hide Harness;
    hide Visited;
    hide Ended;
    hide Looped;
    hide AtBoundary;
    hide Dispatch;
    hide Active;
    hide OneTurn;
    var at, turn := proc.(seen := |proc.mine|), Laboring.Turn(v.means.world);
    var c1 := c;
    TurnProgress(v.spec, v.means.world, proc.mine);
    assert SeenBy(at) == proc.mine && SeenBy(Turned(v.spec, at, v.means.world)) == proc.mine;
    if proc.seen < |proc.mine| {
      StoreStep(c, v, proc);
      VisitFromBoundary(v.spec, v.means, proc.mine);
      c1 := Goes(c, v, end, Laboring.Store);
    }
    StillStep(c1, v, at, turn);
    c' := Goes(c1, v, end, turn);
    if proc.seen < |proc.mine| {
      GoesOn(c, c1, c', v, end);
    }
  }

  /** From any boundary of its loop, the worker comes to what the driver's loop says, and stores it. */
  lemma {:induction false} Loops(c: Cluster, v: Visit, end: Log, proc: Proc) returns (c': Cluster)
    requires ComesTo(c, v, end) && InLoop(c, v, end, proc)
    requires forall log :: NeverPauses(v.means.world, log)
    ensures Comes(c, c', v, end) && Reached(c, c', v, end)
    decreases Fuel(v.spec, proc.mine)
  {
    hide Comes;
    hide ComesTo;
    hide Labor;
    hide Harness;
    hide Ended;
    hide Looped;
    hide AtBoundary;
    hide Dispatch;
    hide Active;
    hide Leaves;
    hide Fuel;
    hide OneTurn;
    var w := v.means.world;
    assert NeverPauses(w, proc.mine);
    if w.boundary(proc.mine).Cancel? {
      c' := CancelsHere(c, v, end, proc);
      return;
    }
    LoopTurn(v.spec, w, proc.mine);
    var c1 := Turns(c, v, end, proc);
    var turned := Turned(v.spec, proc.(seen := |proc.mine|), w);
    if turned.stage.Done? {
      c' := Finishes(c1, v, end, turned);
    } else if Ended(turned.mine) {
      c' := LeavesLoop(c1, v, end, turned);
    } else {
      c' := Loops(c1, v, end, turned);
    }
    GoesOn(c, c1, c', v, end);
  }

  /** A loop that has ended the log leaves it to be stored. */
  lemma LeavesLoop(c: Cluster, v: Visit, end: Log, proc: Proc) returns (c': Cluster)
    requires ComesTo(c, v, end) && Stands(c, v, proc)
    requires proc.Working? && proc.stage.Looping? && proc.mine == end && Ended(end)
    ensures Comes(c, c', v, end) && Reached(c, c', v, end)
  {
    hide Comes;
    hide Labor;
    hide Harness;
    hide Visited;
    hide Ended;
    hide Leaves;
    StillStep(c, v, proc, Leave);
    var c1 := Goes(c, v, end, Leave);
    assert SeenBy(proc.(stage := Done)) == SeenBy(proc);
    c' := Finishes(c1, v, end, proc.(stage := Done));
    GoesOn(c, c1, c', v, end);
  }

  // ---------------------------------------------------------------------------
  // From the claim to the loop
  // ---------------------------------------------------------------------------

  /** A claimed open run, started no more often than it may be. */
  predicate Visitable(c: Cluster, v: Visit) {
    && At(c, v.p) == Claimed(v.id, v.token)
    && v.id in c.store && c.store[v.id].spec == v.spec && !Ended(c.store[v.id].log)
    && Queue.Starts(c.queue, v.id) < c.maxDeliveries
  }

  /** Loads the run and counts the start. */
  lemma Opens(c: Cluster, v: Visit, end: Log) returns (c': Cluster)
    requires Visitable(c, v) && ComesTo(c, v, end)
    ensures Comes(c, c', v, end)
    ensures var log := c.store[v.id].log; At(c', v.p) == Working(v.id, v.token, |log|, log, Fresh, 0)
    ensures c'.store == c.store && c'.queue == Queue.Start(c.queue, v.id).0
  {
    hide Comes;
    hide Ended;
    hide Visited;
    var c1 := Goes(c, v, end, Load);
    c' := Goes(c1, v, end, Laboring.Start);
    GoesOn(c, c1, c', v, end);
  }

  /** A worker that has loaded the run, before its driver is rebuilt. */
  predicate AtStart(c: Cluster, v: Visit, proc: Proc) {
    && Stands(c, v, proc) && proc.Working? && proc.stage.Fresh? && proc.seen == |proc.mine|
    && Shaped(v.spec, proc.mine)
  }

  /** A queued run is scheduled, as one append. */
  lemma Schedules(c: Cluster, v: Visit, end: Log, proc: Proc) returns (c': Cluster, at: Proc)
    requires ComesTo(c, v, end) && AtStart(c, v, proc) && Dispatch(proc.mine).Queued? && !v.means.stopped
    ensures Comes(c, c', v, end) && ComesTo(c', v, end)
    ensures at.Working? && at.mine == Scheduled(proc.mine) && AtStart(c', v, at)
    ensures c'.store == Put(c.store, v.id, at.mine) && c'.queue == c.queue
  {
    hide Comes;
    hide Labor;
    hide Harness;
    hide Visited;
    hide Resume;
    hide Recover;
    hide Rebuilt;
    hide Dispatch;
    hide Shaped;
    hide Ended;
    var m := v.means;
    var begin := Begin(false, m.decider, m.world);
    assert SeenBy(proc) == proc.mine;
    ReadyResumes(v.spec, proc.mine);
    VisitFromLadder(v.spec, m, proc.mine);
    StillStep(c, v, proc, begin);
    var c1 := Goes(c, v, end, begin);
    at := Began(v.spec, proc, false, m.decider, m.world);
    assert SeenBy(at) == proc.mine;
    StoreStep(c1, v, at);
    c' := Goes(c1, v, end, Laboring.Store);
    at := at.(seen := |at.mine|);
    assert SeenBy(at) == at.mine;
    GoesOn(c, c1, c', v, end);
  }

  /** A visit that ends the run without its loop: stopped, or without a decider. */
  lemma EndsUnrun(c: Cluster, v: Visit, end: Log, proc: Proc) returns (c': Cluster)
    requires ComesTo(c, v, end) && AtStart(c, v, proc)
    requires v.means.stopped || (!v.means.decider && !Dispatch(proc.mine).Queued?)
    ensures Comes(c, c', v, end) && Reached(c, c', v, end)
  {
    hide Comes;
    hide Labor;
    hide Harness;
    hide Resume;
    hide Recover;
    hide Rebuilt;
    hide Looped;
    hide Dispatch;
    hide Shaped;
    hide Ended;
    hide Leaves;
    var m := v.means;
    assert SeenBy(proc) == proc.mine;
    UnrunEnds(v.spec, m, proc.mine);
    StillStep(c, v, proc, Begin(m.stopped, m.decider, m.world));
    var c1 := Goes(c, v, end, Begin(m.stopped, m.decider, m.world));
    var at := proc.(mine := end, stage := Done);
    assert SeenBy(at) == proc.mine;
    c' := Finishes(c1, v, end, at);
    GoesOn(c, c1, c', v, end);
  }

  lemma UnrunEnds(spec: RunSpec, m: Means, log: Log)
    requires Shaped(spec, log) && !Ended(log)
    requires m.stopped || (!m.decider && !Dispatch(log).Queued?)
    ensures var end := Visited(spec, m, log);
            && log <= end && Ended(end) && (m.stopped || Resume(spec, log).Ok?)
            && end == (if m.stopped then log + [RunCancelled]
                       else Rebuilt(spec, log) + [RunFailed(Dependency, "decider: none")])
  {
    hide Harness;
    hide Resume;
    hide Recover;
    hide Looped;
    hide Dispatch;
    hide Shaped;
    hide Rebuilt;
    ReadyResumes(spec, log);
    RebuiltOpen(spec, log);
    EndedSnoc(log, RunCancelled);
    EndedSnoc(Rebuilt(spec, log), RunFailed(Dependency, "decider: none"));
  }

  /** The driver is rebuilt, and its loop entered and gone through. */
  lemma EntersLoop(c: Cluster, v: Visit, end: Log, proc: Proc) returns (c': Cluster)
    requires ComesTo(c, v, end) && AtStart(c, v, proc)
    requires !v.means.stopped && v.means.decider && !Dispatch(proc.mine).Queued?
    requires forall log :: NeverPauses(v.means.world, log)
    ensures Comes(c, c', v, end) && Reached(c, c', v, end)
  {
    hide Comes;
    hide Labor;
    hide Harness;
    hide Resume;
    hide Recover;
    hide Rebuilt;
    hide Looped;
    hide Dispatch;
    hide Shaped;
    hide Ended;
    hide AtBoundary;
    hide Active;
    hide Leaves;
    hide NeverPauses;
    var w := v.means.world;
    assert SeenBy(proc) == proc.mine;
    ReadyResumes(v.spec, proc.mine);
    ShapedRecovers(v.spec, w, proc.mine);
    StillStep(c, v, proc, Begin(false, true, w));
    var c1 := Goes(c, v, end, Begin(false, true, w));
    var at := proc.(mine := Recover(v.spec, w, proc.mine), stage := Looping);
    assert SeenBy(at) == proc.mine;
    c' := Loops(c1, v, end, at);
    GoesOn(c, c1, c', v, end);
  }

  /** A worker that has loaded the run comes to the end of its visit. */
  lemma CarriesOn(c: Cluster, v: Visit, end: Log, proc: Proc) returns (c': Cluster)
    requires ComesTo(c, v, end) && AtStart(c, v, proc)
    requires forall log :: NeverPauses(v.means.world, log)
    ensures Comes(c, c', v, end) && Reached(c, c', v, end)
  {
    hide Comes;
    hide ComesTo;
    hide Leaves;
    hide Shaped;
    hide Ended;
    hide Dispatch;
    hide NeverPauses;
    if v.means.stopped {
      c' := EndsUnrun(c, v, end, proc);
    } else if Dispatch(proc.mine).Queued? {
      LadderPhase(proc.mine);
      var c1, at := Schedules(c, v, end, proc);
      c' := CarriesOnScheduled(c1, v, end, at);
      GoesOn(c, c1, c', v, end);
    } else {
      c' := CarriesOnScheduled(c, v, end, proc);
    }
  }

  lemma CarriesOnScheduled(c: Cluster, v: Visit, end: Log, proc: Proc) returns (c': Cluster)
    requires ComesTo(c, v, end) && AtStart(c, v, proc) && !v.means.stopped && !Dispatch(proc.mine).Queued?
    requires forall log :: NeverPauses(v.means.world, log)
    ensures Comes(c, c', v, end) && Reached(c, c', v, end)
  {
    hide Comes;
    hide ComesTo;
    hide Reached;
    hide AtStart;
    hide Dispatch;
    hide NeverPauses;
    if v.means.decider {
      c' := EntersLoop(c, v, end, proc);
    } else {
      c' := EndsUnrun(c, v, end, proc);
    }
  }

  /** What a visit leaves in the store and the queue, and where it leaves its worker. */
  predicate Visits(c: Cluster, c': Cluster, v: Visit, end: Log) {
    && v.id in c.store && c'.store == Put(c.store, v.id, end)
    && c'.queue == Handed(c.queue, v.spec, v.id, v.token, end)
    && At(c', v.p) == if Harness(v.spec, end).WaitingForMessage? && Holds(c.queue, v.id, v.token)
                      then Rechecking(v.id, Harness(v.spec, end).messageId) else Free
  }

  /** The worker acknowledges the run, or parks it. */
  lemma Hands(c: Cluster, c1: Cluster, v: Visit, end: Log) returns (c': Cluster)
    requires ComesTo(c1, v, end) && At(c1, v.p) == Leaves(v, end)
    requires v.id in c.store && c1.store == Put(c.store, v.id, end) && c1.queue == Queue.Start(c.queue, v.id).0
    ensures Comes(c1, c', v, end) && Visits(c, c', v, end)
  {
    hide Comes;
    hide Harness;
    hide Ended;
    hide Visited;
    if Harness(v.spec, end).WaitingForMessage? {
      c' := Goes(c1, v, end, Laboring.Park);
    } else {
      c' := Goes(c1, v, end, Laboring.Ack);
    }
  }

  /**
    A worker that claimed an open run, and that no other process disturbs, leaves it as rebuilding its
    driver and running the loop once would, however many turns that takes; a run that then waits is
    parked on its ask, and any other is acknowledged. In each state on the way the run has that log, or
    is where the next visit comes to that log.
    */
  lemma VisitIsSteps(c: Cluster, v: Visit) returns (c': Cluster)
    requires LogInv(c) && Visitable(c, v)
    requires forall log :: NeverPauses(v.means.world, log)
    ensures var end := Visited(v.spec, v.means, c.store[v.id].log); Comes(c, c', v, end) && Visits(c, c', v, end)
  {
    hide Comes;
    hide Leaves;
    hide Visited;
    hide Written;
    hide Shaped;
    hide Harness;
    hide NeverPauses;
    hide Handed;
    var log := c.store[v.id].log;
    var end, proc := Visited(v.spec, v.means, log), Working(v.id, v.token, |log|, log, Fresh, 0);
    WrittenShaped(v.spec, log);
    assert SeenBy(proc) == log;
    var c1 := Opens(c, v, end);
    var c2 := CarriesOn(c1, v, end, proc);
    GoesOn(c, c1, c2, v, end);
    CameTo(c1, c2, v, end);
    c' := Hands(c, c2, v, end);
    GoesOn(c, c2, c', v, end);
  }

  lemma CameTo(c: Cluster, c': Cluster, v: Visit, end: Log)
    requires Comes(c, c', v, end)
    ensures ComesTo(c', v, end)
  {
    hide ComesTo;
    hide Deployments.Steps;
  }

  /**
    A worker killed in any state of such a visit loses nothing: the run has ended as the visit would have
    ended it, or a second worker that claims it, in whatever state that finds the rest of the deployment,
    leaves the same log.
    */
  lemma KilledVisit(v: Visit, end: Log, killed: Cluster, c: Cluster, second: Visit) returns (c': Cluster)
    requires ComesTo(killed, v, end) && second.id == v.id && second.spec == v.spec && second.means == v.means
    requires LogInv(c) && v.id in c.store && c.store[v.id] == killed.store[v.id]
    requires forall log :: NeverPauses(v.means.world, log)
    ensures Ended(c.store[v.id].log) ==> c.store[v.id].log == end
    ensures Visitable(c, second) ==> Comes(c, c', second, end) && Visits(c, c', second, end)
  {
    hide Comes;
    hide Visited;
    hide LogInv;
    hide Visits;
    hide NeverPauses;
    c' := c;
    if Visitable(c, second) {
      c' := VisitIsSteps(c, second);
    }
  }

  // ---------------------------------------------------------------------------
  // Visits that do not run the run
  // ---------------------------------------------------------------------------

  /** One more step of a worker. */
  lemma Labours(c: Cluster, c1: Cluster, p: nat, a: Laboring) returns (c': Cluster)
    requires Alone(c, c1, p) && MayLabor(c1, At(c1, p), a)
    ensures Alone(c, c', p) && c' == After(c1, p, Labor(c1, At(c1, p), a))
  {
    hide Alone;
    hide Labor;
    hide MayLabor;
    c' := Apply(c1, Labors(p, a));
    AloneStep(c, c1, Labors(p, a));
  }

  /** A claimed run that is not stored, or has ended, is acknowledged as it is. */
  lemma NothingToVisit(c: Cluster, p: nat, id: RunId, token: Token) returns (c': Cluster)
    requires At(c, p) == Claimed(id, token) && (id in c.store ==> Ended(c.store[id].log))
    ensures Alone(c, c', p) && At(c', p).Free? && c'.store == c.store && c'.queue == Queue.Ack(c.queue, id, token)
  {
    hide Alone;
    hide Ended;
    AloneHere(c, p);
    c' := Labours(c, c, p, Load);
    c' := Labours(c, c', p, Laboring.Ack);
  }

  /** A run that was started as often as it may be is failed, unrun, and acknowledged. */
  lemma TooManyStarts(c: Cluster, p: nat, id: RunId, token: Token) returns (c': Cluster)
    requires At(c, p) == Claimed(id, token) && id in c.store && !Ended(c.store[id].log)
    requires Queue.Starts(c.queue, id) >= c.maxDeliveries
    ensures Alone(c, c', p) && At(c', p).Free?
    ensures c'.store == Put(c.store, id, c.store[id].log + [RunFailed(Infrastructure, "started without ending")])
    ensures c'.queue == Queue.Ack(Queue.Start(c.queue, id).0, id, token)
  {
    hide Alone;
    hide Ended;
    hide Began;
    hide Turned;
    hide Harness;
    hide AskStateOf;
    hide Queue.Claim;
    hide Queue.Park;
    hide Queue.Release;
    hide Queue.Ack;
    AloneHere(c, p);
    var c1 := Labours(c, c, p, Load);
    c1 := Labours(c, c1, p, Laboring.Start);
    c' := FailsRun(c1, p, id, token);
    AloneOn(c, c1, c', p);
  }

  lemma FailsRun(c: Cluster, p: nat, id: RunId, token: Token) returns (c': Cluster)
    requires At(c, p) == Failing(id, token) && id in c.store && !Ended(c.store[id].log)
    ensures Alone(c, c', p) && At(c', p).Free?
    ensures c'.store == Put(c.store, id, c.store[id].log + [RunFailed(Infrastructure, "started without ending")])
    ensures c'.queue == Queue.Ack(c.queue, id, token)
  {
    hide Alone;
    hide Ended;
    hide Queue.Ack;
    AloneHere(c, p);
    c' := Labours(c, c, p, Fail);
    c' := Labours(c, c', p, Laboring.Ack);
  }

  /**
    A worker whose append finds the log moved starts over from the log as it is, three times; the fourth
    time it hands the run back, having stored nothing. One whose run has ended acknowledges it.
    */
  lemma RefusedAppend(c: Cluster, p: nat, proc: Proc) returns (c': Cluster)
    requires At(c, p) == proc && proc.Working? && proc.seen < |proc.mine| && (proc.stage.Looping? ==> !Ended(proc.mine))
    requires proc.id in c.store && (Ended(c.store[proc.id].log) || |c.store[proc.id].log| != proc.seen)
    ensures Alone(c, c', p) && c'.store == c.store
    ensures var log := c.store[proc.id].log;
            if Ended(log) then c'.queue == Queue.Ack(c.queue, proc.id, proc.token) && At(c', p) == Free
            else if proc.reloads < 3
            then c'.queue == c.queue && At(c', p) == Working(proc.id, proc.token, |log|, log, Fresh, proc.reloads + 1)
            else c'.queue == Queue.Release(c.queue, proc.id, proc.token) && At(c', p) == Free
  {
    hide Alone;
    hide Ended;
    hide Began;
    hide Turned;
    hide Harness;
    hide AskStateOf;
    hide Queue.Claim;
    hide Queue.Start;
    hide Queue.Park;
    hide Queue.Release;
    hide Queue.Ack;
    AloneHere(c, p);
    c' := Labours(c, c, p, Laboring.Store);
    if Ended(c.store[proc.id].log) {
      c' := Labours(c, c', p, Laboring.Ack);
    } else if proc.reloads < 3 {
      c' := Labours(c, c', p, Reload);
    } else {
      c' := Labours(c, c', p, Laboring.Release);
    }
  }

  /** A worker that lost its lease stores nothing more, and takes nothing from the claim that has it now. */
  lemma LostLease(c: Cluster, p: nat, proc: Proc) returns (c': Cluster)
    requires At(c, p) == proc && proc.Working? && !Holds(c.queue, proc.id, proc.token)
    ensures Alone(c, c', p) && c'.store == c.store && c'.queue == c.queue && At(c', p).Free?
  {
    hide Alone;
    hide Ended;
    AloneHere(c, p);
    c' := Labours(c, c, p, LoseLease);
    c' := Labours(c, c', p, Laboring.Release);
  }

  /** A parked run is looked at once more: it is woken at once if a stop covers it or its ask is no longer open. */
  lemma RecheckWakes(c: Cluster, p: nat, id: RunId, ask: MessageId, stopped: bool) returns (c': Cluster)
    requires At(c, p) == Rechecking(id, ask) && id in c.store
    ensures Alone(c, c', p) && At(c', p).Free? && c'.store == c.store
    ensures c'.queue == if !stopped && AskStateOf(c.store[id].log, ask).Open? then c.queue else Queue.Wake(c.queue, id, ask).0
  {
    hide Alone;
    hide AskStateOf;
    AloneHere(c, p);
    c' := Labours(c, c, p, Recheck(stopped));
    if stopped || !AskStateOf(c.store[id].log, ask).Open? {
      AloneStep(c, c', Serves(p, Serving.Wake));
      c' := Apply(c', Serves(p, Serving.Wake));
    }
  }
}
