/**
  Delegation trees in a deployment. A child is stored before its parent's driver records it, with the
  limits and the hop it is recorded with. Then the logs of a run and of every run it records, and so on
  down, are a tree of the kind budgets are proved for.
  */
module Delegations {
  import opened Protocol
  import opened Reducer
  import opened Folding
  import opened Driving
  import opened CrashResume
  import opened Budget
  import opened Asks
  import opened RunLog
  import opened Stores
  import opened Cluster
  import opened Serializing
  import opened Deployments
  import opened Spending

  /** A run that was stored as a child of `parent` with these limits. */
  predicate StoredAs(s: Store, parent: RunSpec, child: RunId, limits: Limits) {
    child in s && s[child].spec.limits == limits && s[child].spec.lineage.hop == parent.lineage.hop + 1
  }

  /** What a spawner and a deliverer do: every child the step's driver newly records was stored as recorded. */
  predicate StoresFirst(c: Cluster, a: Action) {
    && Enabled(c, a)
    && (a.Labors? && (a.laboring.Begin? || a.laboring.Turn?) ==>
          var proc, next := At(c, a.p), Acted(c, a).next;
          next.Working? && proc.id in c.store && |proc.mine| <= |next.mine| ==>
            forall i :: |proc.mine| <= i < |next.mine| && next.mine[i].ChildStarted? ==>
              StoredAs(c.store, c.store[proc.id].spec, next.mine[i].runId, next.mine[i].limits))
  }

  /** Every child a log records is stored with the limits and the hop it was first recorded with. */
  predicate Backed(s: Store, spec: RunSpec, log: Log) {
    forall child <- Gave(log) :: StoredAs(s, spec, child, Gave(log)[child])
  }

  // ---------------------------------------------------------------------------
  // Logs
  // ---------------------------------------------------------------------------

  lemma BackedSnoc(s: Store, spec: RunSpec, log: Log, e: Event)
    requires Backed(s, spec, log) && (e.ChildStarted? ==> StoredAs(s, spec, e.runId, e.limits))
    ensures Backed(s, spec, log + [e])
  {
    assert Front(log + [e]) == log;
  }

  lemma {:induction false} BackedOn(s: Store, spec: RunSpec, was: Log, now: Log)
    requires Backed(s, spec, was) && was <= now
    requires forall i :: |was| <= i < |now| && now[i].ChildStarted? ==> StoredAs(s, spec, now[i].runId, now[i].limits)
    ensures Backed(s, spec, now)
    decreases |now|
  {
    if |was| == |now| {
      assert was == now;
    } else {
      hide Backed;
      BackedOn(s, spec, was, Front(now));
      BackedSnoc(s, spec, Front(now), Last(now));
      assert now == Front(now) + [Last(now)];
    }
  }

  lemma BackedLater(s: Store, s': Store, spec: RunSpec, log: Log)
    requires Backed(s, spec, log) && Grows(s, s')
    ensures Backed(s', spec, log)
  {
    hide Gave;
  }

  lemma QueuedBacked(s: Store, spec: RunSpec)
    ensures Backed(s, spec, QueuedEvents(spec))
  {
    assert Backed(s, spec, []);
    BackedOn(s, spec, [], QueuedEvents(spec));
  }

  // ---------------------------------------------------------------------------
  // Each step
  // ---------------------------------------------------------------------------

  predicate AllBacked(s: Store) {
    forall id <- s :: Backed(s, s[id].spec, s[id].log)
  }

  predicate ProcBacked(s: Store, proc: Proc) {
    match proc
    case Loaded(id, _, log) => id in s && Backed(s, s[id].spec, log)
    case Working(id, _, _, mine, _, _) => id in s && Backed(s, s[id].spec, mine)
    case _ => true
  }

  ghost predicate TreesOk(c: Cluster) {
    LogInv(c) && AllBacked(c.store) && forall p <- c.procs :: ProcBacked(c.store, c.procs[p])
  }

  lemma ProcBackedLater(s: Store, s': Store, proc: Proc)
    requires ProcBacked(s, proc) && Grows(s, s')
    ensures ProcBacked(s', proc)
  {
    hide Backed;
    match proc {
      case Loaded(id, _, log) => BackedLater(s, s', s[id].spec, log);
      case Working(id, _, _, mine, _, _) => BackedLater(s, s', s[id].spec, mine);
      case _ =>
    }
  }

  /** Appending events that start no child, to one log. */
  lemma PlainBacked(s: Store, id: RunId, seen: Option<nat>, e: Event)
    requires AllBacked(s) && !e.ChildStarted?
    ensures AllBacked(AppendTo(s, id, seen, [e]).0)
  {
    hide Backed;
    hide Ended;
    var s' := AppendTo(s, id, seen, [e]).0;
    assert Grows(s, s');
    forall other | other in s' ensures Backed(s', s'[other].spec, s'[other].log) {
      BackedLater(s, s', s[other].spec, s[other].log);
      if s'[other].log != s[other].log {
        BackedSnoc(s', s[other].spec, s[other].log, e);
      }
    }
  }

  lemma PutBacked(s: Store, spec: RunSpec)
    requires AllBacked(s)
    ensures AllBacked(PutRun(s, spec))
  {
    hide Backed;
    var s' := PutRun(s, spec);
    assert Grows(s, s');
    forall id | id in s' ensures Backed(s', s'[id].spec, s'[id].log) {
      if id in s {
        BackedLater(s, s', s[id].spec, s[id].log);
      } else {
        QueuedBacked(s', spec);
      }
    }
  }

  lemma ProduceBacked(c: Cluster, proc: Proc, a: Producing)
    requires AllBacked(c.store) && MayProduce(c, proc, a)
    ensures var o := Produce(c, proc, a); AllBacked(o.store) && ProcBacked(o.store, o.next)
  {
    hide AllBacked;
    hide Backed;
    hide AppendTo;
    hide PutRun;
    hide StillWaiting;
    match a {
      case Put => PutBacked(c.store, proc.spec);
      case PutFails(_) => PutBacked(c.store, proc.spec);
      case End => PlainBacked(c.store, proc.id, None, Undelivered(proc.why));
      case Hold => PlainBacked(c.store, proc.id, None, RunCancelled);
      case _ =>
    }
  }

  lemma ServeBacked(c: Cluster, proc: Proc, a: Serving)
    requires AllBacked(c.store) && LogOk(c.store, proc) && MayServe(c, proc, a)
    ensures var o := Serve(c, proc, a); AllBacked(o.store) && ProcBacked(o.store, o.next)
  {
    hide AllBacked;
    hide Backed;
    hide AppendTo;
    hide AskStateOf;
    hide OpenQuestion;
    hide Ended;
    hide Follows;
    hide Written;
    match a {
      case Answer => PlainBacked(c.store, proc.id, None, proc.answer);
      case PutReply => PlainBacked(c.store, proc.id, Some(proc.length), UserAnswered(proc.ask, proc.text));
      case Cancel => PlainBacked(c.store, proc.id, Some(proc.length), RunCancelled);
      case _ =>
    }
  }

  lemma StoreBacked(c: Cluster, proc: Proc)
    requires AllBacked(c.store) && LogOk(c.store, proc) && ProcBacked(c.store, proc) && MayLabor(c, proc, Store)
    ensures var o := Labor(c, proc, Store); AllBacked(o.store) && ProcBacked(o.store, o.next)
  {
    hide Backed;
    hide AppendTo;
    hide Ended;
    hide Follows;
    hide Works;
    var s := c.store;
    FollowsWrites(s, proc);
    TakenExactly(s, proc);
    var (s', answer) := AppendTo(s, proc.id, Some(proc.seen), proc.mine[proc.seen..]);
    if answer.Appended? {
      StoredBacked(s, proc);
    }
  }

  lemma StoredBacked(s: Store, proc: Proc)
    requires AllBacked(s) && proc.Working? && ProcBacked(s, proc) && proc.seen <= |proc.mine| && s[proc.id].log == SeenBy(proc)
    ensures var s' := s[proc.id := s[proc.id].(log := proc.mine)]; AllBacked(s') && ProcBacked(s', proc.(seen := |proc.mine|))
  {
    hide Backed;
    var s' := s[proc.id := s[proc.id].(log := proc.mine)];
    assert Grows(s, s');
    BackedLater(s, s', s[proc.id].spec, proc.mine);
    forall id | id in s' ensures Backed(s', s'[id].spec, s'[id].log) {
      BackedLater(s, s', s[id].spec, s[id].log);
    }
  }

  /** What a worker's driver does only adds to its log. */
  lemma BeganExtends(spec: RunSpec, proc: Proc, stopped: bool, decider: bool, w: World)
    requires proc.Working?
    ensures var began := Began(spec, proc, stopped, decider, w); began.Working? && began.id == proc.id && proc.mine <= began.mine
  {
    hide Recover;
    hide Rebuilt;
    hide Resume;
    hide Dispatch;
    hide Harness;
    RecoverAnswerless(spec, w, proc.mine);
    RebuiltExtends(spec, proc.mine);
  }

  lemma TurnedExtends(spec: RunSpec, proc: Proc, w: World)
    requires proc.Working?
    ensures var turned := Turned(spec, proc, w); turned.Working? && turned.id == proc.id && proc.mine <= turned.mine
  {
    hide OneTurn;
    TurnAnswerless(spec, w, proc.mine);
  }

  lemma DriveBacked(c: Cluster, p: nat, a: Laboring)
    requires AllBacked(c.store) && ProcBacked(c.store, At(c, p)) && MayLabor(c, At(c, p), a)
    requires (a.Begin? || a.Turn?) && StoresFirst(c, Labors(p, a))
    ensures var o := Labor(c, At(c, p), a); AllBacked(o.store) && ProcBacked(o.store, o.next)
  {
    hide Backed;
    hide AllBacked;
    hide Began;
    hide Turned;
    hide Ended;
    var proc := At(c, p);
    var spec := c.store[proc.id].spec;
    match a {
      case Begin(stopped, decider, w) => BeganExtends(spec, proc, stopped, decider, w);
      case Turn(w) => TurnedExtends(spec, proc, w);
    }
    BackedOn(c.store, spec, proc.mine, Labor(c, proc, a).next.mine);
  }

  lemma OtherBacked(c: Cluster, proc: Proc, a: Laboring)
    requires AllBacked(c.store) && ProcBacked(c.store, proc) && MayLabor(c, proc, a)
    requires !(a.Begin? || a.Turn? || a.Store?)
    ensures var o := Labor(c, proc, a); AllBacked(o.store) && ProcBacked(o.store, o.next)
  {
    hide Backed;
    hide AppendTo;
    hide AskStateOf;
    hide Began;
    hide Turned;
    hide Harness;
    hide Ended;
    hide Queue.Claim;
    hide Queue.Start;
    hide Queue.Ack;
    hide Queue.Release;
    hide Queue.Park;
    if a.Fail? {
      PlainBacked(c.store, proc.id, None, RunFailed(Infrastructure, "started without ending"));
    } else if a.StopHere? {
      BackedSnoc(c.store, c.store[proc.id].spec, proc.mine, RunCancelled);
    }
  }

  lemma ProcKnownBacked(c: Cluster, p: nat)
    requires TreesOk(c)
    ensures ProcBacked(c.store, At(c, p))
  {
  }

  lemma ActedBacked(c: Cluster, a: Action)
    requires TreesOk(c) && StoresFirst(c, a)
    ensures var o := Acted(c, a); AllBacked(o.store) && ProcBacked(o.store, o.next)
  {
    hide LogOk;
    hide StoreOk;
    hide AllBacked;
    hide ProcBacked;
    hide Produce;
    hide Labor;
    hide Serve;
    hide MayProduce;
    hide MayLabor;
    hide MayServe;
    hide StoresFirst;
    FirstEnabled(c, a);
    KnownOk(c, a.p);
    ProcKnownBacked(c, a.p);
    match a {
      case Produces(p, producing) => ProduceBacked(c, At(c, p), producing);
      case Serves(p, serving) => ServeBacked(c, At(c, p), serving);
      case Labors(p, laboring) =>
        if laboring.Store? {
          StoreBacked(c, At(c, p));
        } else if laboring.Begin? || laboring.Turn? {
          DriveBacked(c, p, laboring);
        } else {
          OtherBacked(c, At(c, p), laboring);
        }
    }
  }

  lemma FirstEnabled(c: Cluster, a: Action)
    requires StoresFirst(c, a)
    ensures Enabled(c, a)
  {
  }

  lemma StepBacked(c: Cluster, a: Action)
    requires TreesOk(c) && StoresFirst(c, a)
    ensures Enabled(c, a) && TreesOk(Apply(c, a))
  {
    hide LogInv;
    hide AllBacked;
    hide ProcBacked;
    hide Acted;
    hide Enabled;
    hide Grows;
    hide Serial;
    hide StoresFirst;
    FirstEnabled(c, a);
    StepLogs(c, a);
    ActedBacked(c, a);
    var o, c' := Acted(c, a), Apply(c, a);
    forall k | k in c'.procs ensures ProcBacked(c'.store, c'.procs[k]) {
      if k != a.p {
        ProcBackedLater(c.store, o.store, c.procs[k]);
      }
    }
  }

  // ---------------------------------------------------------------------------
  // Whole runs
  // ---------------------------------------------------------------------------

  lemma {:induction false} RunBacked(cs: seq<Cluster>, actions: seq<Action>, n: nat)
    requires Runs(cs, actions) && n < |cs| && forall i :: 0 <= i < |actions| ==> StoresFirst(cs[i], actions[i])
    ensures TreesOk(cs[n])
  {
    hide Apply;
    hide Enabled;
    hide TreesOk;
    hide StoresFirst;
    if n == 0 {
      InitialBacked(cs[0]);
    } else {
      RunBacked(cs, actions, n - 1);
      assert StepAt(cs, actions, n - 1);
      StepBacked(cs[n - 1], actions[n - 1]);
    }
  }

  lemma InitialBacked(c: Cluster)
    requires Initial(c)
    ensures TreesOk(c)
  {
  }

  /** A tree of stored runs: each run's children in it are among those its log records, each once. */
  predicate StoredTree(s: Store, t: RunTree) {
    && t.spec.runId in s && s[t.spec.runId] == Stored(t.spec, t.log)
    && (forall i, j :: 0 <= i < j < |t.children| ==> t.children[i].spec.runId != t.children[j].spec.runId)
    && forall child <- t.children :: child.spec.runId in Started(t.log) && StoredTree(s, child)
  }

  lemma {:induction false} StoredTreeGrown(s: Store, t: RunTree)
    requires AllBacked(s) && LogsDisciplined(s) && StoredTree(s, t)
    ensures Grown(t)
    decreases t
  {
    hide Disciplined;
    hide Started;
    hide Gave;
    assert Backed(s, t.spec, t.log);
    GaveStarted(t.log);
    forall child | child in t.children
      ensures && child.spec.runId in Gave(t.log) && child.spec.limits == Gave(t.log)[child.spec.runId]
              && child.spec.lineage.hop == t.spec.lineage.hop + 1 && Grown(child)
    {
      StoredTreeGrown(s, child);
      assert StoredAs(s, t.spec, child.spec.runId, Gave(t.log)[child.spec.runId]);
    }
  }

  /**
    In every reachable state of a deployment whose spawners and deliverers are honest and store a child
    before it is recorded: over any stored run and all the runs recorded under it, the steps taken and
    the model calls made never exceed that run's own limits, at most 10 children each, and no chain is
    longer than the hops left.
    */
  lemma DeploymentKeepsBudget(cs: seq<Cluster>, actions: seq<Action>, n: nat, t: RunTree)
    requires Runs(cs, actions) && n < |cs| && StoredTree(cs[n].store, t)
    requires forall a <- actions :: HonestStep(a)
    requires forall i :: 0 <= i < |actions| ==> StoresFirst(cs[i], actions[i])
    ensures TotalSteps(t) <= t.spec.limits.maxSteps && TotalModelCalls(t) <= t.spec.limits.maxModelCalls
    ensures |t.children| <= MAX_CHILDREN
    ensures t.spec.lineage.hop + Height(t) <= MAX_DELEGATION_HOPS || Height(t) == 0
  {
    hide Runs;
    hide HonestStep;
    hide StoresFirst;
    hide LogInv;
    hide AllBacked;
    hide LogsDisciplined;
    hide StoredTree;
    hide Grown;
    RunSpends(cs, actions, n);
    RunBacked(cs, actions, n);
    StoredTreeGrown(cs[n].store, t);
    TreeWithinBudget(t);
  }
}
