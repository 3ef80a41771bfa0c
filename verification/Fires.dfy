/**
  A trigger's fires against its owner's stop. A fire reads its trigger, stores its run, reads the
  trigger again at the gate, and only then pushes; the queue sweep settles fires that died on the way,
  by the generation they recorded. An owner's stop pauses every trigger, then records itself. Any
  process may take the next step, and any may die.
  */
module Fires {
  import opened Protocol
  import opened Stores
  import opened Outbox
  import opened Stops

  datatype Trigger = Trigger(enabled: bool, generation: nat)

  /** Whose gate was opened for which run: the trigger, at the generation the gate was asked for. */
  datatype OpenGate = OpenGate(id: RunId, trigger: TriggerId, generation: nat)

  datatype FireProc =
    | Free
    | Firing(trigger: TriggerId, generation: nat, run: Stored)
    | Settling(id: RunId, trigger: TriggerId, generation: nat)
    | Gating(id: RunId, trigger: TriggerId, generation: nat)
    | Pushing(id: RunId)
    | Holding(id: RunId)
    | Stopping(owner: Owner)

  /**
    `origin` says which trigger a run's id was derived from, if any; `owners` whose each trigger is;
    `recorded` the generation each fired run carries; `gates` every gate that was opened.
    */
  datatype FireState = FireState(
    origin: RunId -> Option<TriggerId>,
    store: Store,
    stops: StopState,
    owners: map<TriggerId, Principal>,
    triggers: map<TriggerId, Trigger>,
    recorded: map<RunId, nat>,
    gates: set<OpenGate>,
    pushed: set<RunId>,
    procs: map<nat, FireProc>)

  datatype Action =
    | Create(t: TriggerId, principal: Principal)
    | Delete(t: TriggerId)
    | Pause(t: TriggerId)
    | Resume(t: TriggerId)
    | ReadTrigger(p: nat, t: TriggerId, run: Stored)
    | PutFire(p: nat)
    | ReadLog(p: nat)
    | Gate(p: nat)
    | Push(p: nat)
    | Hold(p: nat)
    | Sweep(p: nat, id: RunId)
    | PauseAll(p: nat, owner: Owner)
    | RecordStop(p: nat)
    | PutOther(run: Stored)
    | AppendOther(id: RunId, batch: Log)
    | OtherStop(owner: Owner, scope: StopScope)
    | Crash(p: nat)

  function At(w: FireState, p: nat): FireProc {
    if p in w.procs then w.procs[p] else Free
  }

  /** Whether a stored run still has only its queued events. */
  predicate Waits(w: FireState, id: RunId) {
    id in w.store && StillWaiting(w.store[id].log)
  }

  predicate Enabled(w: FireState, a: Action) {
    match a
    case Create(t, _) => t !in w.owners
    case Delete(t) => t in w.triggers
    case Pause(t) => t in w.triggers
    case Resume(t) => t in w.triggers
    case ReadTrigger(p, t, run) =>
      && At(w, p).Free? && t in w.triggers && w.triggers[t].enabled && t in w.owners
      && PrincipalOf(run.spec.owner) == w.owners[t]
      && w.origin(run.spec.runId) == Some(t)
    case PutFire(p) => At(w, p).Firing?
    case ReadLog(p) => At(w, p).Settling?
    case Gate(p) => At(w, p).Gating?
    case Push(p) => At(w, p).Pushing?
    case Hold(p) => At(w, p).Holding?
    case Sweep(p, id) => At(w, p).Free? && id in w.recorded && w.origin(id).Some?
    case PauseAll(p, _) => At(w, p).Free?
    case RecordStop(p) => At(w, p).Stopping?
    case PutOther(run) => run.spec.runId !in w.store && w.origin(run.spec.runId).None?
    case AppendOther(id, _) => id in w.store
    case OtherStop(_, _) => true
    case Crash(_) => true
  }

  function Then(w: FireState, p: nat, next: FireProc): FireState {
    w.(procs := w.procs[p := next])
  }

  /** The gate is open while the trigger runs at the generation asked for. */
  predicate GateOpen(w: FireState, t: TriggerId, generation: nat) {
    t in w.triggers && w.triggers[t] == Trigger(true, generation)
  }

  function Paused(w: FireState, principal: Principal): map<TriggerId, Trigger> {
    map t | t in w.triggers ::
      if t in w.owners && w.owners[t] == principal then w.triggers[t].(enabled := false) else w.triggers[t]
  }

  function Apply(w: FireState, a: Action): FireState
    requires Enabled(w, a)
  {
    match a
    case Create(t, principal) => w.(owners := w.owners[t := principal], triggers := w.triggers[t := Trigger(true, 0)])
    case Delete(t) => w.(triggers := w.triggers - {t})
    case Pause(t) => w.(triggers := w.triggers[t := w.triggers[t].(enabled := false)])
    case Resume(t) =>
      if w.triggers[t].enabled then w
      else w.(triggers := w.triggers[t := Trigger(true, w.triggers[t].generation + 1)])
    case ReadTrigger(p, t, run) => Then(w, p, Firing(t, w.triggers[t].generation, run))
    case PutFire(p) =>
      var fire := At(w, p);
      var id := fire.run.spec.runId;
      var next := Settling(id, fire.trigger, fire.generation);
      if id in w.store then Then(w, p, next)
      else Then(w.(store := w.store[id := fire.run], stops := PutNumber(w.stops, id),
                   recorded := w.recorded[id := fire.generation]), p, next)
    case ReadLog(p) =>
      var fire := At(w, p);
      Then(w, p, if Waits(w, fire.id) then Gating(fire.id, fire.trigger, fire.generation) else Free)
    case Gate(p) =>
      var fire := At(w, p);
      if GateOpen(w, fire.trigger, fire.generation)
      then Then(w.(gates := w.gates + {OpenGate(fire.id, fire.trigger, fire.generation)}), p, Pushing(fire.id))
      else Then(w, p, Holding(fire.id))
    case Push(p) => Then(w.(pushed := w.pushed + {At(w, p).id}), p, Free)
    case Hold(p) => Then(w.(store := AppendTo(w.store, At(w, p).id, None, [RunCancelled]).0), p, Free)
    case Sweep(p, id) => Then(w, p, Settling(id, w.origin(id).value, w.recorded[id]))
    case PauseAll(p, owner) => Then(w.(triggers := Paused(w, PrincipalOf(owner))), p, Stopping(owner))
    case RecordStop(p) => Then(w.(stops := PutStop(w.stops, PrincipalOf(At(w, p).owner), OfOwner)), p, Free)
    case PutOther(run) =>
      w.(store := w.store[run.spec.runId := run], stops := PutNumber(w.stops, run.spec.runId))
    case AppendOther(id, batch) => w.(store := AppendTo(w.store, id, None, batch).0)
    case OtherStop(owner, scope) => w.(stops := PutStop(w.stops, PrincipalOf(owner), scope))
    case Crash(p) => Then(w, p, Free)
  }

  // ---------------------------------------------------------------------------
  // What every step keeps
  // ---------------------------------------------------------------------------

  /** A run fired by a trigger is its owner's. */
  predicate FiredBy(w: FireState, id: RunId, t: TriggerId) {
    && w.origin(id) == Some(t) && t in w.owners
    && (id in w.store ==> PrincipalOf(w.store[id].spec.owner) == w.owners[t])
  }

  /** What a gate's caller knows: the run is stored, and its trigger's. */
  predicate Knows(w: FireState, id: RunId, t: TriggerId) {
    id in w.store && FiredBy(w, id, t)
  }

  predicate WasOpened(w: FireState, id: RunId) {
    exists o <- w.gates :: o.id == id
  }

  predicate ProcOk(w: FireState, proc: FireProc) {
    match proc
    case Free => true
    case Firing(t, _, run) =>
      && w.origin(run.spec.runId) == Some(t) && t in w.owners
      && PrincipalOf(run.spec.owner) == w.owners[t]
    case Settling(id, t, _) => Knows(w, id, t)
    case Gating(id, t, _) => Knows(w, id, t)
    case Pushing(id) => WasOpened(w, id)
    case Holding(_) => true
    case Stopping(_) => true
  }

  ghost predicate Inv(w: FireState) {
    && StopsOk(w.store, w.stops)
    && w.triggers.Keys <= w.owners.Keys
    && (forall id <- w.store :: w.origin(id).Some? ==> FiredBy(w, id, w.origin(id).value))
    && (forall id <- w.recorded :: id in w.store)
    && (forall o <- w.gates :: Knows(w, o.id, o.trigger))
    && (forall id <- w.pushed :: WasOpened(w, id))
    && (forall p <- w.procs :: ProcOk(w, w.procs[p]))
  }

  /** The stored runs and the stops of one state, and of a later one. */
  lemma StoreLater(w: FireState, a: Action)
    requires Inv(w) && Enabled(w, a)
    ensures var w' := Apply(w, a);
            StopsOk(w'.store, w'.stops) && Later(w.store, w.stops, w'.store, w'.stops) && w.stops.order <= w'.stops.order
  {
    hide AppendTo;
    hide Paused;
    hide GateOpen;
    hide Waits;
    hide StopsOk;
    hide Later;
    hide Inv;
    hide Without;
    StopsWithin(w);
    SameLater(w.store, w.stops);
    match a {
      case PutFire(p) =>
        var run := At(w, p).run;
        if run.spec.runId !in w.store { PutRunLater(w.store, w.stops, run); }
      case Hold(p) => AppendedLater(w.store, w.stops, At(w, p).id, [RunCancelled]);
      case RecordStop(p) => PutStopLater(w.store, w.stops, PrincipalOf(At(w, p).owner), OfOwner);
      case PutOther(run) => PutRunLater(w.store, w.stops, run);
      case AppendOther(id, batch) => AppendedLater(w.store, w.stops, id, batch);
      case OtherStop(owner, scope) => PutStopLater(w.store, w.stops, PrincipalOf(owner), scope);
      case _ =>
    }
  }

  lemma SameLater(s: Store, st: StopState)
    ensures Later(s, st, s, st)
  {
  }

  lemma AppendedLater(s: Store, st: StopState, id: RunId, batch: Log)
    requires StopsOk(s, st)
    ensures var s' := AppendTo(s, id, None, batch).0; StopsOk(s', st) && Later(s, st, s', st)
  {
    hide StopsOk;
    hide Later;
    SameLater(s, st);
    if id in s {
      AppendLater(s, st, id, s[id].log + batch);
    }
  }

  /** What a later state of the world still has. */
  ghost predicate Extends(w: FireState, w': FireState) {
    && w'.origin == w.origin
    && (forall t <- w.owners :: t in w'.owners && w'.owners[t] == w.owners[t])
    && (forall id <- w.store :: id in w'.store && w'.store[id].spec == w.store[id].spec)
    && w.gates <= w'.gates
  }

  lemma StepExtends(w: FireState, a: Action)
    requires Enabled(w, a)
    ensures Extends(w, Apply(w, a))
  {
    hide AppendTo;
    hide PutStop;
    hide PutNumber;
    hide Paused;
    hide Waits;
    hide GateOpen;
    if a.Hold? {
      AppendKeepsSpecs(w.store, At(w, a.p).id, [RunCancelled]);
    } else if a.AppendOther? {
      AppendKeepsSpecs(w.store, a.id, a.batch);
    }
  }

  lemma AppendKeepsSpecs(s: Store, id: RunId, batch: Log)
    ensures var s' := AppendTo(s, id, None, batch).0;
            s'.Keys == s.Keys && forall id <- s :: s'[id].spec == s[id].spec
  {
  }

  lemma ProcKept(w: FireState, w': FireState, proc: FireProc)
    requires ProcOk(w, proc) && Extends(w, w')
    ensures ProcOk(w', proc)
  {
  }

  /** The next thing a process does rests on what the step just found. */
  lemma NextOk(w: FireState, a: Action, p: nat)
    requires Inv(w) && Enabled(w, a) && p in Apply(w, a).procs
    ensures ProcOk(Apply(w, a), Apply(w, a).procs[p])
  {
    hide Inv;
    hide Apply;
    hide ProcOk;
    var w' := Apply(w, a);
    StepExtends(w, a);
    Moved(w, a, p);
    if w'.procs[p] == At(w, p) {
      KnownOk(w, p);
      ProcKept(w, w', At(w, p));
    } else {
      MoverOk(w, a, p);
    }
  }

  lemma KnownOk(w: FireState, p: nat)
    requires Inv(w)
    ensures ProcOk(w, At(w, p))
  {
  }

  /** A step moves no process but its own. */
  lemma Moved(w: FireState, a: Action, p: nat)
    requires Enabled(w, a) && p in Apply(w, a).procs
    ensures Apply(w, a).procs[p] == At(w, p) || Acts(a, p)
  {
    hide AppendTo;
    hide PutStop;
    hide PutNumber;
    hide Paused;
    hide Waits;
    hide GateOpen;
    hide Enabled;
  }

  predicate Acts(a: Action, p: nat) {
    !a.Create? && !a.Delete? && !a.Pause? && !a.Resume? && !a.PutOther? && !a.AppendOther? && !a.OtherStop? && a.p == p
  }

  lemma MoverOk(w: FireState, a: Action, p: nat)
    requires Inv(w) && Enabled(w, a) && Acts(a, p) && p in Apply(w, a).procs
    ensures ProcOk(Apply(w, a), Apply(w, a).procs[p])
  {
    if a.ReadTrigger? || a.PutFire? || a.ReadLog? || a.Gate? || a.Sweep? {
      FireMoverOk(w, a, p);
    } else {
      hide AppendTo;
      hide PutStop;
      hide PutNumber;
      hide Paused;
      hide Waits;
      hide GateOpen;
        hide Inv;
    }
  }

  lemma FireMoverOk(w: FireState, a: Action, p: nat)
    requires Inv(w) && Enabled(w, a) && Acts(a, p) && p in Apply(w, a).procs
    requires a.ReadTrigger? || a.PutFire? || a.ReadLog? || a.Gate? || a.Sweep?
    ensures ProcOk(Apply(w, a), Apply(w, a).procs[p])
  {
    hide AppendTo;
    hide PutStop;
    hide PutNumber;
    hide Paused;
    hide Waits;
    hide GateOpen;
    hide StopsOk;
    KnownOk(w, p);
    match a {
      case PutFire(_) => StoredByFire(w, p);
      case Gate(_) =>
        var fire := At(w, p);
        if Apply(w, a).procs[p].Pushing? {
          assert OpenGate(fire.id, fire.trigger, fire.generation) in Apply(w, a).gates;
        }
      case Sweep(_, id) => assert id in w.store && FiredBy(w, id, w.origin(id).value);
      case _ =>
    }
  }

  lemma StoredByFire(w: FireState, p: nat)
    requires Inv(w) && At(w, p).Firing? && p in w.procs
    ensures var fire := At(w, p); Knows(Apply(w, PutFire(p)), fire.run.spec.runId, fire.trigger)
  {
    hide StopsOk;
    assert ProcOk(w, w.procs[p]);
  }

  /** The runs a step stores: its own fire's, or one that no trigger fired. */
  lemma NewRun(w: FireState, a: Action)
    requires Enabled(w, a)
    ensures forall id <- Apply(w, a).store :: id in w.store || w.origin(id).None? ||
                                              (a.PutFire? && id == At(w, a.p).run.spec.runId)
  {
    hide AppendTo;
    hide PutStop;
    hide PutNumber;
    hide Paused;
    hide Waits;
    hide GateOpen;
    if a.Hold? {
      AppendKeepsSpecs(w.store, At(w, a.p).id, [RunCancelled]);
    } else if a.AppendOther? {
      AppendKeepsSpecs(w.store, a.id, a.batch);
    }
  }

  lemma NewRecord(w: FireState, a: Action)
    requires Enabled(w, a)
    ensures forall id <- Apply(w, a).recorded :: id in w.recorded || id in Apply(w, a).store
  {
    hide AppendTo;
    hide PutStop;
    hide PutNumber;
    hide Paused;
    hide Waits;
    hide GateOpen;
  }

  lemma FiredKept(w: FireState, a: Action)
    requires Inv(w) && Enabled(w, a)
    ensures var w' := Apply(w, a);
            && (forall id <- w'.store :: w'.origin(id).Some? ==> FiredBy(w', id, w'.origin(id).value))
            && (forall id <- w'.recorded :: id in w'.store)
  {
    hide StopsOk;
    hide Apply;
    StepExtends(w, a);
    NewRun(w, a);
    NewRecord(w, a);
    var w' := Apply(w, a);
    forall id | id in w'.store && w'.origin(id).Some? ensures FiredBy(w', id, w'.origin(id).value) {
      if id in w.store {
        assert FiredBy(w, id, w.origin(id).value);
      } else {
        StoredByFire(w, a.p);
      }
    }
  }

  /** A new gate was opened by a process that knew its run, and a new push by one whose gate was opened. */
  lemma NewGate(w: FireState, a: Action)
    requires Inv(w) && Enabled(w, a)
    ensures forall o <- Apply(w, a).gates :: o in w.gates || Knows(w, o.id, o.trigger)
    ensures forall id <- Apply(w, a).pushed :: WasOpened(w, id)
  {
    hide StopsOk;
    hide AppendTo;
    hide PutStop;
    hide PutNumber;
    hide Paused;
    hide Waits;
    hide GateOpen;
    hide Knows;
    hide WasOpened;
    hide FiredBy;
    if a.Gate? || a.Push? {
      KnownOk(w, a.p);
    }
  }

  lemma GatesKept(w: FireState, a: Action)
    requires Inv(w) && Enabled(w, a)
    ensures var w' := Apply(w, a);
            && (forall o <- w'.gates :: Knows(w', o.id, o.trigger))
            && (forall id <- w'.pushed :: WasOpened(w', id))
  {
    hide StopsOk;
    hide Apply;
    hide Enabled;
    hide ProcOk;
    StepExtends(w, a);
    NewGate(w, a);
    var w' := Apply(w, a);
    forall o | o in w'.gates ensures Knows(w', o.id, o.trigger) {
      assert Knows(w, o.id, o.trigger);
    }
    forall id | id in w'.pushed ensures WasOpened(w', id) {
      var o :| o in w.gates && o.id == id;
      assert o in w'.gates;
    }
  }

  lemma StepKeeps(w: FireState, a: Action)
    requires Inv(w) && Enabled(w, a)
    ensures Inv(Apply(w, a))
  {
    hide StopsOk;
    hide ProcOk;
    StoreLater(w, a);
    FiredKept(w, a);
    GatesKept(w, a);
    forall p | p in Apply(w, a).procs ensures ProcOk(Apply(w, a), Apply(w, a).procs[p]) {
      NextOk(w, a, p);
    }
  }

  // ---------------------------------------------------------------------------
  // Since a pause
  // ---------------------------------------------------------------------------

  /** Every trigger of the principal is paused. */
  predicate AllPaused(w: FireState, principal: Principal) {
    forall t <- w.triggers :: t in w.owners && w.owners[t] == principal ==> !w.triggers[t].enabled
  }

  /** A generation the principal's trigger had when everything was paused, or before. */
  predicate FromBefore(w0: FireState, principal: Principal, t: TriggerId, generation: nat) {
    t in w0.owners && w0.owners[t] == principal && (t in w0.triggers ==> generation <= w0.triggers[t].generation)
  }

  /** A trigger that runs again since the pause runs at a later generation. */
  predicate ResumedLater(w0: FireState, w: FireState, principal: Principal) {
    forall t <- w.triggers :: t in w0.owners && w0.owners[t] == principal ==>
      && t in w0.triggers && w0.triggers[t].generation <= w.triggers[t].generation
      && (w.triggers[t].enabled ==> w0.triggers[t].generation < w.triggers[t].generation)
  }

  ghost predicate SincePause(w0: FireState, w: FireState, principal: Principal) {
    && Extends(w0, w)
    && Later(w0.store, w0.stops, w.store, w.stops) && w0.stops.order <= w.stops.order
    && ResumedLater(w0, w, principal)
    && (forall o <- w.gates :: FromBefore(w0, principal, o.trigger, o.generation) ==> o in w0.gates)
  }

  /** A pause of all leaves all paused. */
  lemma PauseAllPauses(w: FireState, p: nat, owner: Owner)
    requires Inv(w) && Enabled(w, PauseAll(p, owner))
    ensures AllPaused(Apply(w, PauseAll(p, owner)), PrincipalOf(owner))
  {
  }

  lemma SinceStart(w: FireState, principal: Principal)
    requires Inv(w) && AllPaused(w, principal)
    ensures SincePause(w, w, principal)
  {
  }

  lemma LaterTrans(w0: FireState, w: FireState, w': FireState)
    requires Later(w0.store, w0.stops, w.store, w.stops) && Later(w.store, w.stops, w'.store, w'.stops)
    ensures Later(w0.store, w0.stops, w'.store, w'.stops)
  {
  }

  /** A gate opens only on a trigger that runs at the generation asked for. */
  lemma OpensOnlyOpen(w: FireState, a: Action)
    requires Enabled(w, a)
    ensures forall o <- Apply(w, a).gates :: o in w.gates || GateOpen(w, o.trigger, o.generation)
  {
    hide AppendTo;
    hide PutStop;
    hide PutNumber;
    hide Paused;
    hide Waits;
    hide GateOpen;
  }

  /** How a step may change a trigger: not at all, paused, or resumed at its next generation. */
  predicate Changes(was: Trigger, now: Trigger) {
    now == was || now == was.(enabled := false) || (!was.enabled && now == Trigger(true, was.generation + 1))
  }

  lemma TriggersChange(w: FireState, a: Action)
    requires Enabled(w, a)
    ensures forall t <- Apply(w, a).triggers ::
              if t in w.triggers then Changes(w.triggers[t], Apply(w, a).triggers[t]) || t !in w.owners else t !in w.owners
  {
    hide AppendTo;
    hide PutStop;
    hide PutNumber;
    hide Waits;
    hide GateOpen;
  }

  /** After a pause, no gate opens for a generation from before it. */
  lemma SinceStep(w0: FireState, w: FireState, a: Action, principal: Principal)
    requires Inv(w0) && Inv(w) && SincePause(w0, w, principal) && Enabled(w, a)
    ensures SincePause(w0, Apply(w, a), principal)
  {
    hide StopsOk;
    hide Later;
    hide Inv;
    hide Apply;
    hide Enabled;
    var w' := Apply(w, a);
    StepExtends(w, a);
    StoreLater(w, a);
    LaterTrans(w0, w, w');
    TriggersChange(w, a);
    OpensOnlyOpen(w, a);
  }

  // ---------------------------------------------------------------------------
  // Fire versus stop
  // ---------------------------------------------------------------------------

  ghost predicate Steps(ws: seq<FireState>, actions: seq<Action>) {
    |ws| == |actions| + 1 &&
    forall i :: 0 <= i < |actions| ==> Enabled(ws[i], actions[i]) && ws[i + 1] == Apply(ws[i], actions[i])
  }

  predicate Initial(w: FireState) {
    w.store == map[] && w.stops == StopState([], map[], 0) && w.owners == map[] && w.triggers == map[] &&
    w.recorded == map[] && w.gates == {} && w.pushed == {} && w.procs == map[]
  }

  lemma InitialOk(w: FireState)
    requires Initial(w)
    ensures Inv(w)
  {
  }

  /** A deployment's triggers, runs and stops, from the first state on. */
  ghost predicate Runs(ws: seq<FireState>, actions: seq<Action>) {
    Steps(ws, actions) && Initial(ws[0])
  }

  lemma {:induction false} StepsKeep(ws: seq<FireState>, actions: seq<Action>, n: nat)
    requires Steps(ws, actions) && Inv(ws[0]) && n < |ws|
    ensures Inv(ws[n])
  {
    if n > 0 {
      hide Inv;
      hide Enabled;
      hide Apply;
      StepsKeep(ws, actions, n - 1);
      StepKeeps(ws[n - 1], actions[n - 1]);
      assert ws[n - 1 + 1] == Apply(ws[n - 1], actions[n - 1]);
    }
  }

  lemma {:induction false} StepsSince(ws: seq<FireState>, actions: seq<Action>, m: nat, n: nat, principal: Principal)
    requires Steps(ws, actions) && Inv(ws[0]) && m <= n < |ws| && AllPaused(ws[m], principal)
    ensures SincePause(ws[m], ws[n], principal)
  {
    hide Inv;
    hide Enabled;
    hide Apply;
    hide SincePause;
    StepsKeep(ws, actions, m);
    if m == n {
      SinceStart(ws[m], principal);
    } else {
      StepsSince(ws, actions, m, n - 1, principal);
      StepsKeep(ws, actions, n - 1);
      SinceStep(ws[m], ws[n - 1], actions[n - 1], principal);
      assert ws[n - 1 + 1] == Apply(ws[n - 1], actions[n - 1]);
    }
  }

  lemma StopsWithin(w: FireState)
    requires Inv(w)
    ensures StopsOk(w.store, w.stops)
  {
  }

  /** A stop recorded after a pause covers every run that was stored by then. */
  lemma StopCovers(w0: FireState, w: FireState, p: nat, owner: Owner, id: RunId)
    requires Inv(w) && SincePause(w0, w, PrincipalOf(owner)) && At(w, p) == Stopping(owner)
    requires id in w0.store && id in w.store && PrincipalOf(w.store[id].spec.owner) == PrincipalOf(owner)
    ensures var w' := Apply(w, RecordStop(p)); Covered(w'.store, w'.stops, id)
  {
    hide Later;
    hide StopsOk;
    StopsWithin(w);
    PutStopNames(w.store, w.stops, PrincipalOf(owner), OfOwner, id);
    var w' := Apply(w, RecordStop(p));
    assert CoveredBy(w'.store, w'.stops, id, [id]);
  }

  /**
    In every interleaving: all of an owner's triggers are paused at step `m`, the owner's stop records
    itself at step `k`. Whatever gate was ever opened, before or after, at a generation the trigger had
    by the pause, its run is covered by the stop from then on. So a run that reaches a worker through a
    fire that read its trigger before the pause was stored before the stop.
    */
  lemma FireVersusStop(ws: seq<FireState>, actions: seq<Action>, m: nat, k: nat, n: nat, owner: Owner, o: OpenGate)
    requires Runs(ws, actions) && m <= k < n < |ws|
    requires AllPaused(ws[m], PrincipalOf(owner))
    requires actions[k].RecordStop? && At(ws[k], actions[k].p) == Stopping(owner)
    requires o in ws[n].gates && FromBefore(ws[m], PrincipalOf(owner), o.trigger, o.generation)
    ensures o.id in ws[m].store && Covered(ws[n].store, ws[n].stops, o.id)
  {
    hide Inv;
    hide Enabled;
    hide Apply;
    hide Later;
    hide Covered;
    InitialOk(ws[0]);
    var principal := PrincipalOf(owner);
    StepsSince(ws, actions, m, k, principal);
    StepsSince(ws, actions, m, n, principal);
    StepsKeep(ws, actions, m);
    StepsKeep(ws, actions, k);
    OpenedKnown(ws[m], o);
    assert ws[k].store[o.id].spec == ws[m].store[o.id].spec;
    StopCovers(ws[m], ws[k], actions[k].p, owner, o.id);
    assert ws[k + 1] == Apply(ws[k], actions[k]);
    StepsLater(ws, actions, k + 1, n);
    StepsKeep(ws, actions, k + 1);
    StopsWithin(ws[k + 1]);
    CoveredLater(ws[k + 1].store, ws[k + 1].stops, ws[n].store, ws[n].stops, o.id);
  }

  lemma OpenedKnown(w: FireState, o: OpenGate)
    requires Inv(w) && o in w.gates
    ensures o.id in w.store && o.trigger in w.owners && PrincipalOf(w.store[o.id].spec.owner) == w.owners[o.trigger]
  {
  }

  lemma {:induction false} StepsLater(ws: seq<FireState>, actions: seq<Action>, m: nat, n: nat)
    requires Steps(ws, actions) && Inv(ws[0]) && m <= n < |ws|
    ensures Later(ws[m].store, ws[m].stops, ws[n].store, ws[n].stops)
  {
    hide Inv;
    hide Enabled;
    hide Apply;
    hide Later;
    if m == n {
      SameLater(ws[m].store, ws[m].stops);
    } else {
      StepsLater(ws, actions, m, n - 1);
      StepsKeep(ws, actions, n - 1);
      StoreLater(ws[n - 1], actions[n - 1]);
      assert ws[n - 1 + 1] == Apply(ws[n - 1], actions[n - 1]);
      LaterTrans(ws[m], ws[n - 1], ws[n]);
    }
  }

  /** Only runs whose gate was opened are pushed. */
  lemma PushedThroughGate(ws: seq<FireState>, actions: seq<Action>, n: nat, id: RunId)
    requires Runs(ws, actions) && n < |ws| && id in ws[n].pushed
    ensures exists o <- ws[n].gates :: o.id == id
  {
    InitialOk(ws[0]);
    StepsKeep(ws, actions, n);
    assert WasOpened(ws[n], id);
  }

  /**
    An owner's stop pauses all the owner's triggers at one step and records itself at a later one. A run
    that only fires from before the pause ever brought to a worker was stored before the stop, and is
    covered by it.
    */
  lemma PushedIsCovered(ws: seq<FireState>, actions: seq<Action>, m: nat, k: nat, n: nat, owner: Owner, id: RunId)
    requires Runs(ws, actions) && 0 < m <= k < n < |ws|
    requires actions[m - 1].PauseAll? && actions[m - 1].owner == owner
    requires actions[k].RecordStop? && At(ws[k], actions[k].p) == Stopping(owner)
    requires id in ws[n].pushed
    requires forall o <- ws[n].gates :: o.id == id ==> FromBefore(ws[m], PrincipalOf(owner), o.trigger, o.generation)
    ensures id in ws[m].store && Covered(ws[n].store, ws[n].stops, id)
  {
    hide Inv;
    hide Covered;
    hide Apply;
    hide Enabled;
    InitialOk(ws[0]);
    StepsKeep(ws, actions, m - 1);
    assert ws[m - 1 + 1] == Apply(ws[m - 1], actions[m - 1]);
    PauseAllPauses(ws[m - 1], actions[m - 1].p, owner);
    PushedThroughGate(ws, actions, n, id);
    var o :| o in ws[n].gates && o.id == id;
    FireVersusStop(ws, actions, m, k, n, owner, o);
  }

  /** A fire of a running trigger stores its run under the trigger's generation, and a paused one starts no fire. */
  lemma FireReads(w: FireState, p: nat, t: TriggerId, run: Stored)
    requires At(w, p).Free? && t in w.triggers && t in w.owners && PrincipalOf(run.spec.owner) == w.owners[t]
    requires w.origin(run.spec.runId) == Some(t)
    ensures Enabled(w, ReadTrigger(p, t, run)) <==> w.triggers[t].enabled
    ensures w.triggers[t].enabled && run.spec.runId !in w.store ==>
              var put := Apply(Apply(w, ReadTrigger(p, t, run)), PutFire(p));
              && run.spec.runId in put.store && put.store[run.spec.runId] == run
              && run.spec.runId in put.recorded && put.recorded[run.spec.runId] == w.triggers[t].generation
              && At(put, p) == Settling(run.spec.runId, t, w.triggers[t].generation)
  {
  }

  /**
    A fire that died is settled again at the generation it recorded, not at the one the trigger has by
    then; and the gate is asked only for a run that still waits.
    */
  lemma SweepSettles(w: FireState, p: nat, id: RunId)
    requires At(w, p).Free? && id in w.recorded && w.origin(id).Some?
    ensures Enabled(w, Sweep(p, id))
    ensures var swept := Apply(w, Sweep(p, id));
            && Enabled(swept, ReadLog(p))
            && At(Apply(swept, ReadLog(p)), p)
            == (if id in w.store && StillWaiting(w.store[id].log) then Gating(id, w.origin(id).value, w.recorded[id]) else Free)
  {
    hide StillWaiting;
  }

  /**
    What an owner's requests do to triggers: a deleted one opens no gate, a pause and a stop of all keep
    generations, a resume of a paused one takes the next.
    */
  lemma OwnerActs(w: FireState, p: nat, t: TriggerId, owner: Owner)
    requires At(w, p).Free?
    ensures t !in w.owners ==>
              var created := Apply(w, Create(t, PrincipalOf(owner)));
              created.triggers == w.triggers[t := Trigger(true, 0)] && created.owners == w.owners[t := PrincipalOf(owner)]
    ensures t in w.triggers ==>
              var deleted := Apply(w, Delete(t));
              deleted.triggers == w.triggers - {t} && forall generation :: !GateOpen(deleted, t, generation)
    ensures t in w.triggers ==>
              && Apply(w, Pause(t)).triggers == w.triggers[t := Trigger(false, w.triggers[t].generation)]
              && Apply(w, Resume(t)).triggers
              == (if w.triggers[t].enabled then w.triggers else w.triggers[t := Trigger(true, w.triggers[t].generation + 1)])
              && (var all := Apply(w, PauseAll(p, owner)).triggers;
                  && all.Keys == w.triggers.Keys && all[t].generation == w.triggers[t].generation
                  && (all[t].enabled <==> w.triggers[t].enabled && !(t in w.owners && w.owners[t] == (owner.issuer, owner.subject))))
  {
  }

  /** The gate decides: a run whose gate is open is pushed next, and one whose gate is shut is held, which ends it. */
  lemma GateDecides(w: FireState, p: nat)
    requires At(w, p).Gating? && At(w, p).id in w.store
    ensures var fire, after := At(w, p), Apply(w, Gate(p));
            if fire.trigger in w.triggers && w.triggers[fire.trigger].enabled && w.triggers[fire.trigger].generation == fire.generation
            then At(after, p) == Pushing(fire.id) && Enabled(after, Push(p)) && fire.id in Apply(after, Push(p)).pushed
            else && At(after, p) == Holding(fire.id) && Enabled(after, Hold(p)) && after.pushed == w.pushed
                 && Ended(Apply(after, Hold(p)).store[fire.id].log) && Apply(after, Hold(p)).pushed == w.pushed
  {
    EndedSnoc(w.store[At(w, p).id].log, RunCancelled);
  }

  /** A pause and a resume leave a trigger running, and shut its gate to every fire that read it before. */
  lemma ResumeShutsGate(w: FireState, t: TriggerId, generation: nat)
    requires t in w.triggers && generation <= w.triggers[t].generation
    ensures var resumed := Apply(Apply(w, Pause(t)), Resume(t));
            resumed.triggers[t].enabled && !GateOpen(resumed, t, generation)
  {
  }
}
