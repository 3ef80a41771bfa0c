/**
  Every trigger's ticks over one store. Any number of schedulers read a trigger due, fire the tick they
  read and move the trigger on by compare-and-set; owners pause and resume; a resume, and a first tick,
  is computed from a clock read some steps before it is written. The run of a tick is stored under an
  id derived from its trigger and its tick, among all the other runs.
  */
module Ticks {
  import opened Protocol
  import opened Stores

  datatype Key = Key(trigger: TriggerId, tick: int)

  /** The id a tick's run is stored under, and each trigger's first tick after a time. */
  datatype Plan = Plan(ids: Key -> RunId, nextTick: (TriggerId, int) -> Option<int>)

  /** A stored run, and the trigger and tick its metadata names. */
  datatype TickRun = TickRun(key: Option<Key>, run: Stored)

  /** `moved` holds the ticks the trigger was moved on from, oldest first. */
  datatype Row = Row(enabled: bool, next: Option<int>, moved: seq<int>)

  datatype Proc =
    | Free
    | Due(t: TriggerId, due: int, now: int, firing: bool)
    | Resuming(t: TriggerId, now: int)
    | Giving(t: TriggerId, now: int)

  datatype State = State(
    rows: map<TriggerId, Row>,
    store: map<RunId, TickRun>,
    put: set<Key>,
    procs: map<nat, Proc>)

  datatype Action =
    | Create(t: TriggerId, now: int)
    | Pause(t: TriggerId)
    | ReadResume(p: nat, t: TriggerId, now: int)
    | WriteResume(p: nat)
    | ReadUnscheduled(p: nat, t: TriggerId, now: int)
    | WriteFirst(p: nat)
    | ReadDue(p: nat, t: TriggerId, now: int)
    | Check(p: nat)
    | Put(p: nat, run: Stored)
    | Advance(p: nat)
    | PutOther(run: Stored)
    | Append(id: RunId, batch: Log)
    | Die(p: nat)

  function At(s: State, p: nat): Proc {
    if p in s.procs then s.procs[p] else Free
  }

  predicate Enabled(plan: Plan, s: State, a: Action) {
    match a
    case Create(t, _) => t !in s.rows
    case Pause(t) => t in s.rows
    case ReadResume(p, t, _) => At(s, p).Free? && t in s.rows && !s.rows[t].enabled
    case WriteResume(p) => At(s, p).Resuming?
    case ReadUnscheduled(p, t, _) => At(s, p).Free? && t in s.rows && s.rows[t].enabled && s.rows[t].next.None?
    case WriteFirst(p) => At(s, p).Giving?
    case ReadDue(p, t, now) =>
      At(s, p).Free? && t in s.rows && s.rows[t].enabled && s.rows[t].next.Some? && s.rows[t].next.value <= now
    case Check(p) => At(s, p).Due?
    case Put(p, run) => At(s, p).Due? && At(s, p).firing && run.spec.runId == plan.ids(Key(At(s, p).t, At(s, p).due))
    case Advance(p) => At(s, p).Due?
    case PutOther(run) => run.spec.runId !in s.store
    case Append(id, _) => id in s.store
    case Die(_) => true
  }

  function Then(s: State, p: nat, next: Proc): State {
    s.(procs := s.procs[p := next])
  }

  function Apply(plan: Plan, s: State, a: Action): State
    requires Enabled(plan, s, a)
  {
    match a
    case Create(t, now) => s.(rows := s.rows[t := Row(true, plan.nextTick(t, now), [])])
    case Pause(t) => s.(rows := s.rows[t := s.rows[t].(enabled := false)])
    case ReadResume(p, t, now) => Then(s, p, Resuming(t, now))
    case WriteResume(p) =>
      // A schedule with no next tick is not resumed; one running by now is left as it is.
      var proc := At(s, p);
      var done := Then(s, p, Free);
      if proc.t !in s.rows || s.rows[proc.t].enabled || plan.nextTick(proc.t, proc.now).None? then done
      else done.(rows := s.rows[proc.t := s.rows[proc.t].(enabled := true, next := plan.nextTick(proc.t, proc.now))])
    case ReadUnscheduled(p, t, now) => Then(s, p, Giving(t, now))
    case WriteFirst(p) =>
      // A schedule with no tick at all is paused.
      var proc := At(s, p);
      var done := Then(s, p, Free);
      if proc.t !in s.rows then done
      else if plan.nextTick(proc.t, proc.now).None? then done.(rows := s.rows[proc.t := s.rows[proc.t].(enabled := false)])
      else if s.rows[proc.t].next.Some? then done
      else done.(rows := s.rows[proc.t := s.rows[proc.t].(next := plan.nextTick(proc.t, proc.now))])
    case ReadDue(p, t, now) => Then(s, p, Due(t, s.rows[t].next.value, now, false))
    case Check(p) =>
      // A paused trigger, or one already moved on, fires nothing.
      var proc := At(s, p);
      Then(s, p, proc.(firing := proc.t in s.rows && s.rows[proc.t].enabled && s.rows[proc.t].next == Some(proc.due)))
    case Put(p, run) =>
      var key, id := Key(At(s, p).t, At(s, p).due), run.spec.runId;
      var put := Then(s.(put := s.put + {key}), p, At(s, p).(firing := false));
      if id in s.store then put else put.(store := s.store[id := TickRun(Some(key), run)])
    case Advance(p) =>
      var proc := At(s, p);
      var done := Then(s, p, Free);
      if proc.t !in s.rows || s.rows[proc.t].next != Some(proc.due) then done
      else
        var row := s.rows[proc.t];
        done.(rows := s.rows[proc.t := row.(next := plan.nextTick(proc.t, proc.now), moved := row.moved + [proc.due])])
    case PutOther(run) => s.(store := s.store[run.spec.runId := TickRun(None, run)])
    case Append(id, batch) => s.(store := s.store[id := s.store[id].(run := s.store[id].run.(log := s.store[id].run.log + batch))])
    case Die(p) => Then(s, p, Free)
  }

  predicate Initial(s: State) {
    s.rows == map[] && s.store == map[] && s.put == {} && s.procs == map[]
  }

  ghost predicate Runs(plan: Plan, ss: seq<State>, actions: seq<Action>) {
    && |ss| == |actions| + 1 && Initial(ss[0])
    && forall i :: 0 <= i < |actions| ==> Enabled(plan, ss[i], actions[i]) && ss[i + 1] == Apply(plan, ss[i], actions[i])
  }

  // ---------------------------------------------------------------------------
  // One run per tick
  // ---------------------------------------------------------------------------

  /** Derived ids are distinct. */
  ghost predicate Injective(plan: Plan) {
    forall a, b :: plan.ids(a) == plan.ids(b) ==> a == b
  }

  /** No other run is given an id that is derived from a tick. */
  ghost predicate Apart(plan: Plan, a: Action) {
    a.PutOther? ==> forall key :: plan.ids(key) != a.run.spec.runId
  }

  /** Every run under a tick's id is that tick's, and every tick that was put has its run. */
  ghost predicate OwnRuns(plan: Plan, s: State) {
    && (forall key :: plan.ids(key) in s.store ==> s.store[plan.ids(key)].key == Some(key))
    && (forall id <- s.store :: s.store[id].key.Some? ==> id == plan.ids(s.store[id].key.value))
    && (forall key <- s.put :: plan.ids(key) in s.store)
  }

  lemma StepOwnRuns(plan: Plan, s: State, a: Action)
    requires OwnRuns(plan, s) && Enabled(plan, s, a) && Injective(plan) && Apart(plan, a)
    ensures OwnRuns(plan, Apply(plan, s, a))
  {
  }

  /** A stored run keeps its spec, its trigger and its tick; its log only grows. */
  predicate KeepsRuns(s: State, s': State) {
    forall id <- s.store ::
      && id in s'.store && s'.store[id].key == s.store[id].key
      && s'.store[id].run.spec == s.store[id].run.spec && s.store[id].run.log <= s'.store[id].run.log
  }

  /** Putting a tick that has its run again changes nothing in the store. */
  lemma StepKeepsRuns(plan: Plan, s: State, a: Action)
    requires Enabled(plan, s, a)
    ensures KeepsRuns(s, Apply(plan, s, a))
    ensures a.Put? && a.run.spec.runId in s.store ==> Apply(plan, s, a).store == s.store
  {
  }

  lemma {:induction false} RunsOwn(plan: Plan, ss: seq<State>, actions: seq<Action>, n: nat)
    requires Runs(plan, ss, actions) && n < |ss| && Injective(plan) && forall a <- actions :: Apart(plan, a)
    ensures OwnRuns(plan, ss[n])
  {
    hide Apply;
    hide Enabled;
    if n > 0 {
      RunsOwn(plan, ss, actions, n - 1);
      assert actions[n - 1] in actions;
      StepOwnRuns(plan, ss[n - 1], actions[n - 1]);
      assert ss[n - 1 + 1] == Apply(plan, ss[n - 1], actions[n - 1]);
    }
  }

  /**
    However schedulers race, retry or die: every tick of every trigger that was fired and put has its
    own run in the store, never another tick's or trigger's; and no other stored run is of that tick.
    */
  lemma OneRunPerTick(plan: Plan, ss: seq<State>, actions: seq<Action>, n: nat, key: Key)
    requires Runs(plan, ss, actions) && n < |ss| && Injective(plan) && (forall a <- actions :: Apart(plan, a))
    requires key in ss[n].put
    ensures plan.ids(key) in ss[n].store && ss[n].store[plan.ids(key)].key == Some(key)
    ensures forall id <- ss[n].store :: ss[n].store[id].key == Some(key) ==> id == plan.ids(key)
  {
    RunsOwn(plan, ss, actions, n);
  }

  /** And that run, once stored, stays: no later fire of the tick replaces it. */
  lemma {:induction false} TickRunStays(plan: Plan, ss: seq<State>, actions: seq<Action>, m: nat, n: nat)
    requires Runs(plan, ss, actions) && m <= n < |ss|
    ensures KeepsRuns(ss[m], ss[n])
  {
    hide Apply;
    hide Enabled;
    if m < n {
      TickRunStays(plan, ss, actions, m, n - 1);
      StepKeepsRuns(plan, ss[n - 1], actions[n - 1]);
      assert ss[n - 1 + 1] == Apply(plan, ss[n - 1], actions[n - 1]);
    }
  }

  // ---------------------------------------------------------------------------
  // Only a running trigger fires its tick
  // ---------------------------------------------------------------------------

  /** The step is of process `p`. */
  predicate Of(a: Action, p: nat) {
    match a
    case Create(_, _) => false
    case Pause(_) => false
    case PutOther(_) => false
    case Append(_, _) => false
    case _ => a.p == p
  }

  /** The trigger runs, and this is its next tick. */
  predicate RunsAt(s: State, t: TriggerId, due: int) {
    t in s.rows && s.rows[t].enabled && s.rows[t].next == Some(due)
  }

  /** Step `m` is the last one of process `p` before `n`, and a check that found the trigger running at that tick. */
  predicate CheckedAt(ss: seq<State>, actions: seq<Action>, m: nat, n: nat, p: nat, t: TriggerId, due: int) {
    && m < n <= |actions| && |ss| == |actions| + 1 && actions[m] == Check(p) && RunsAt(ss[m], t, due)
    && forall l :: m < l < n ==> !Of(actions[l], p)
  }

  lemma OthersStep(plan: Plan, s: State, a: Action, p: nat)
    requires Enabled(plan, s, a) && !Of(a, p)
    ensures At(Apply(plan, s, a), p) == At(s, p)
  {
  }

  /** A process comes to fire only by its own check, and only of a trigger that runs at the tick it read. */
  lemma OwnStepFires(plan: Plan, s: State, a: Action, p: nat)
    requires Enabled(plan, s, a) && Of(a, p) && At(Apply(plan, s, a), p).Due? && At(Apply(plan, s, a), p).firing
    ensures a == Check(p)
    ensures var proc := At(Apply(plan, s, a), p); RunsAt(s, proc.t, proc.due)
  {
  }

  lemma {:induction false} FiringWasChecked(plan: Plan, ss: seq<State>, actions: seq<Action>, n: nat, p: nat) returns (m: nat)
    requires Runs(plan, ss, actions) && n < |ss| && At(ss[n], p).Due? && At(ss[n], p).firing
    ensures CheckedAt(ss, actions, m, n, p, At(ss[n], p).t, At(ss[n], p).due)
  {
    hide Apply;
    hide Enabled;
    assert n > 0;
    assert ss[n - 1 + 1] == Apply(plan, ss[n - 1], actions[n - 1]);
    if Of(actions[n - 1], p) {
      OwnStepFires(plan, ss[n - 1], actions[n - 1], p);
      m := n - 1;
    } else {
      OthersStep(plan, ss[n - 1], actions[n - 1], p);
      m := FiringWasChecked(plan, ss, actions, n - 1, p);
    }
  }

  /**
    A tick's run is put only by a process whose last step was a check that found the trigger running and
    still at that tick: a paused trigger, or one moved on by then, fires nothing.
    */
  lemma PutWasChecked(plan: Plan, ss: seq<State>, actions: seq<Action>, n: nat) returns (m: nat)
    requires Runs(plan, ss, actions) && n < |actions| && actions[n].Put?
    ensures CheckedAt(ss, actions, m, n, actions[n].p, At(ss[n], actions[n].p).t, At(ss[n], actions[n].p).due)
  {
    m := FiringWasChecked(plan, ss, actions, n, actions[n].p);
  }

  /** And a check that finds it so lets the process put its run: left alone, a scheduler fires a due tick and moves it on. */
  lemma FiresAndMoves(plan: Plan, s: State, p: nat, t: TriggerId, now: int, run: Stored)
    requires At(s, p).Free? && t in s.rows && s.rows[t].enabled && s.rows[t].next.Some? && s.rows[t].next.value <= now
    requires run.spec.runId == plan.ids(Key(t, s.rows[t].next.value))
    ensures var due := s.rows[t].next.value;
            && Enabled(plan, s, ReadDue(p, t, now))
            && var read := Apply(plan, s, ReadDue(p, t, now));
               && Enabled(plan, read, Check(p))
               && var checked := Apply(plan, read, Check(p));
                  && Enabled(plan, checked, Put(p, run))
                  && var put := Apply(plan, checked, Put(p, run));
                     && Enabled(plan, put, Advance(p))
                     && var done := Apply(plan, put, Advance(p));
                        && At(done, p).Free? && Key(t, due) in done.put && run.spec.runId in done.store
                        && done.store[run.spec.runId] == (if run.spec.runId in s.store then s.store[run.spec.runId]
                                                          else TickRun(Some(Key(t, due)), run))
                        && done.rows[t] == Row(true, plan.nextTick(t, now), s.rows[t].moved + [due])
  {
  }

  /**
    A new trigger, a paused one that is resumed and an unscheduled one that is given its first tick, each
    left alone: it runs at its next tick after the clock that was read; without one, a resume leaves it
    paused, and the scheduler pauses it, so that none it looked at runs without a tick.
    */
  lemma GivenTicks(plan: Plan, s: State, p: nat, t: TriggerId, now: int)
    requires At(s, p).Free?
    ensures t !in s.rows ==> Apply(plan, s, Create(t, now)).rows == s.rows[t := Row(true, plan.nextTick(t, now), [])]
    ensures t in s.rows && !s.rows[t].enabled ==>
              && Enabled(plan, s, ReadResume(p, t, now))
              && Enabled(plan, Apply(plan, s, ReadResume(p, t, now)), WriteResume(p))
              && Apply(plan, Apply(plan, s, ReadResume(p, t, now)), WriteResume(p)).rows
              == if plan.nextTick(t, now).None? then s.rows else s.rows[t := Row(true, plan.nextTick(t, now), s.rows[t].moved)]
    ensures t in s.rows && s.rows[t].enabled && s.rows[t].next.None? ==>
              && Enabled(plan, s, ReadUnscheduled(p, t, now))
              && Enabled(plan, Apply(plan, s, ReadUnscheduled(p, t, now)), WriteFirst(p))
              && Apply(plan, Apply(plan, s, ReadUnscheduled(p, t, now)), WriteFirst(p)).rows
              == s.rows[t := Row(plan.nextTick(t, now).Some?, plan.nextTick(t, now), s.rows[t].moved)]
  {
  }

  /** One that another process has scheduled since, or is running by now, is left as it is. */
  lemma GivenMeanwhile(plan: Plan, s: State, p: nat)
    ensures At(s, p).Resuming? && At(s, p).t in s.rows && s.rows[At(s, p).t].enabled ==>
              Apply(plan, s, WriteResume(p)).rows == s.rows
    ensures At(s, p).Giving? && At(s, p).t in s.rows && s.rows[At(s, p).t].next.Some? ==>
              var row, next := s.rows[At(s, p).t], plan.nextTick(At(s, p).t, At(s, p).now);
              Apply(plan, s, WriteFirst(p)).rows == s.rows[At(s, p).t := if next.Some? then row else row.(enabled := false)]
  {
  }

  // ---------------------------------------------------------------------------
  // Each tick is moved on once, in order
  // ---------------------------------------------------------------------------

  /** `nextTick` gives a tick after a time, and the same one until then. */
  ghost predicate Schedules(plan: Plan) {
    && (forall t, now :: plan.nextTick(t, now).Some? ==> now < plan.nextTick(t, now).value)
    && (forall t, a, b :: a <= b && plan.nextTick(t, a).Some? && b < plan.nextTick(t, a).value ==>
          plan.nextTick(t, b) == plan.nextTick(t, a))
  }

  /** A tick of the trigger: an earlier time that has a next tick has it by then. */
  ghost predicate IsTick(plan: Plan, t: TriggerId, x: int) {
    forall now :: now < x && plan.nextTick(t, now).Some? ==> plan.nextTick(t, now).value <= x
  }

  lemma NextIsTick(plan: Plan, t: TriggerId, now: int)
    requires Schedules(plan) && plan.nextTick(t, now).Some?
    ensures IsTick(plan, t, plan.nextTick(t, now).value)
  {
    var x := plan.nextTick(t, now).value;
    forall a | a < x && plan.nextTick(t, a).Some? ensures plan.nextTick(t, a).value <= x {
      if a >= now {
        assert plan.nextTick(t, a) == plan.nextTick(t, now);
      } else if plan.nextTick(t, a).value > now {
        assert plan.nextTick(t, now) == plan.nextTick(t, a);
      }
    }
  }

  predicate Increasing(ticks: seq<int>) {
    forall i, j :: 0 <= i < j < |ticks| ==> ticks[i] < ticks[j]
  }

  /** What a trigger's row holds are its ticks, and a scheduler read one that was due. */
  ghost predicate RowsOk(plan: Plan, s: State) {
    && (forall t <- s.rows :: s.rows[t].next.Some? ==> IsTick(plan, t, s.rows[t].next.value))
    && (forall t <- s.rows, i :: 0 <= i < |s.rows[t].moved| ==> IsTick(plan, t, s.rows[t].moved[i]))
    && (forall p <- s.procs :: s.procs[p].Due? ==> s.procs[p].due <= s.procs[p].now)
  }

  lemma StepRowsOk(plan: Plan, s: State, a: Action)
    requires Schedules(plan) && RowsOk(plan, s) && Enabled(plan, s, a)
    ensures RowsOk(plan, Apply(plan, s, a))
  {
    hide IsTick;
    forall t, now | plan.nextTick(t, now).Some? ensures IsTick(plan, t, plan.nextTick(t, now).value) {
      NextIsTick(plan, t, now);
    }
  }

  /** The trigger's next tick is later than every tick it was moved on from, and those are in order. */
  predicate Ahead(row: Row) {
    Increasing(row.moved) && (row.next.Some? ==> forall i :: 0 <= i < |row.moved| ==> row.moved[i] < row.next.value)
  }

  predicate AllAhead(s: State) {
    forall t <- s.rows :: Ahead(s.rows[t])
  }

  /** The trigger a step gives a tick afresh, and the clock reading the tick is computed from. */
  function Gives(plan: Plan, s: State, a: Action): Option<(TriggerId, int)> {
    match a
    case WriteResume(p) =>
      var proc := At(s, p);
      if proc.Resuming? && proc.t in s.rows && !s.rows[proc.t].enabled && plan.nextTick(proc.t, proc.now).Some?
      then Some((proc.t, proc.now)) else None
    case WriteFirst(p) =>
      var proc := At(s, p);
      if proc.Giving? && proc.t in s.rows && s.rows[proc.t].next.None? && plan.nextTick(proc.t, proc.now).Some?
      then Some((proc.t, proc.now)) else None
    case _ => None
  }

  /** A tick given afresh comes from a clock that had reached the last tick the trigger was moved on from. */
  predicate ClockCaughtUp(plan: Plan, s: State, a: Action) {
    var gives := Gives(plan, s, a);
    gives.Some? && gives.value.0 in s.rows ==>
      var moved := s.rows[gives.value.0].moved;
      moved == [] || moved[|moved| - 1] <= gives.value.1
  }

  lemma LastIsLatest(ticks: seq<int>)
    requires Increasing(ticks) && ticks != []
    ensures forall i :: 0 <= i < |ticks| ==> ticks[i] <= ticks[|ticks| - 1]
  {
  }

  /** A tick given from a clock is past every moved tick if and only if the clock had reached the last of them. */
  lemma GivenAheadIff(plan: Plan, t: TriggerId, row: Row, now: int)
    requires Schedules(plan) && Increasing(row.moved) && plan.nextTick(t, now).Some?
    requires forall i :: 0 <= i < |row.moved| ==> IsTick(plan, t, row.moved[i])
    ensures Ahead(row.(next := plan.nextTick(t, now))) <==> row.moved == [] || row.moved[|row.moved| - 1] <= now
  {
    if row.moved != [] {
      LastIsLatest(row.moved);
      var last := row.moved[|row.moved| - 1];
      assert IsTick(plan, t, last);
      if now < last {
        assert plan.nextTick(t, now).value <= last;
      }
    }
  }

  lemma AdvancedAhead(plan: Plan, t: TriggerId, row: Row, due: int, now: int)
    requires Schedules(plan) && Ahead(row) && row.next == Some(due) && due <= now
    ensures Ahead(row.(next := plan.nextTick(t, now), moved := row.moved + [due]))
    ensures plan.nextTick(t, now).Some? ==> due < plan.nextTick(t, now).value
  {
    var moved := row.moved + [due];
    assert forall i :: 0 <= i < |row.moved| ==> moved[i] == row.moved[i];
  }

  /** A step keeps every trigger ahead of its moved ticks if and only if a tick it gives afresh comes from a clock that caught up. */
  lemma StaysAheadIff(plan: Plan, s: State, a: Action)
    requires Schedules(plan) && RowsOk(plan, s) && AllAhead(s) && Enabled(plan, s, a)
    ensures AllAhead(Apply(plan, s, a)) <==> ClockCaughtUp(plan, s, a)
  {
    hide IsTick;
    hide Schedules;
    hide Ahead;
    var s' := Apply(plan, s, a);
    var gives := Gives(plan, s, a);
    if gives.Some? {
      var (t, now) := gives.value;
      AheadIncreases(s.rows[t]);
      GivenAheadIff(plan, t, s.rows[t], now);
      EnabledMatters(s.rows[t].(next := plan.nextTick(t, now)));
      GivenRow(plan, s, a);
      assert forall other <- s.rows :: other != t ==> s'.rows[other] == s.rows[other];
      assert t in s'.rows;
    } else if a.Advance? && At(s, a.p).t in s.rows && s.rows[At(s, a.p).t].next == Some(At(s, a.p).due) {
      var proc := At(s, a.p);
      AdvancedAhead(plan, proc.t, s.rows[proc.t], proc.due, proc.now);
    } else {
      RestAhead(plan, s, a);
    }
  }

  lemma AheadIncreases(row: Row)
    requires Ahead(row)
    ensures Increasing(row.moved)
  {
  }

  lemma EnabledMatters(row: Row)
    ensures Ahead(row.(enabled := true)) == Ahead(row) && Ahead(row.(enabled := false)) == Ahead(row)
  {
  }

  lemma GivenRow(plan: Plan, s: State, a: Action)
    requires Enabled(plan, s, a) && Gives(plan, s, a).Some?
    ensures var (t, now) := Gives(plan, s, a).value;
            && t in s.rows && Apply(plan, s, a).rows.Keys == s.rows.Keys
            && var row := s.rows[t].(next := plan.nextTick(t, now));
               (Apply(plan, s, a).rows[t] == row || Apply(plan, s, a).rows[t] == row.(enabled := true))
  {
  }

  lemma RestAhead(plan: Plan, s: State, a: Action)
    requires AllAhead(s) && Enabled(plan, s, a) && Gives(plan, s, a).None?
    requires a.Advance? ==> !(At(s, a.p).t in s.rows && s.rows[At(s, a.p).t].next == Some(At(s, a.p).due))
    ensures AllAhead(Apply(plan, s, a))
  {
  }

  lemma {:induction false} RunRowsOk(plan: Plan, ss: seq<State>, actions: seq<Action>, n: nat)
    requires Runs(plan, ss, actions) && n < |ss| && Schedules(plan)
    ensures RowsOk(plan, ss[n])
  {
    hide Apply;
    hide Enabled;
    hide IsTick;
    hide Schedules;
    if n > 0 {
      RunRowsOk(plan, ss, actions, n - 1);
      StepRowsOk(plan, ss[n - 1], actions[n - 1]);
      assert ss[n - 1 + 1] == Apply(plan, ss[n - 1], actions[n - 1]);
    }
  }

  /**
    As long as every tick given afresh comes from a clock that had reached the trigger's last moved tick,
    each tick of each trigger is moved on by at most one scheduler, and in order, whatever the
    interleaving.
    */
  lemma {:induction false} TicksMoveOnce(plan: Plan, ss: seq<State>, actions: seq<Action>, n: nat)
    requires Runs(plan, ss, actions) && n < |ss| && Schedules(plan)
    requires forall i :: 0 <= i < |actions| ==> ClockCaughtUp(plan, ss[i], actions[i])
    ensures AllAhead(ss[n])
  {
    hide Apply;
    hide Enabled;
    hide Schedules;
    hide RowsOk;
    hide Gives;
    hide ClockCaughtUp;
    if n > 0 {
      TicksMoveOnce(plan, ss, actions, n - 1);
      RunRowsOk(plan, ss, actions, n - 1);
      StaysAheadIff(plan, ss[n - 1], actions[n - 1]);
      assert ss[n - 1 + 1] == Apply(plan, ss[n - 1], actions[n - 1]);
    }
  }

  /** Each successful advance takes the trigger to a later tick, or to none; a failed one changes nothing. */
  lemma AdvanceIncreases(plan: Plan, ss: seq<State>, actions: seq<Action>, n: nat)
    requires Runs(plan, ss, actions) && n < |actions| && Schedules(plan) && actions[n].Advance?
    ensures var proc, s, s' := At(ss[n], actions[n].p), ss[n], ss[n + 1];
            if proc.t in s.rows && s.rows[proc.t].next == Some(proc.due)
            then && s'.rows[proc.t].moved == s.rows[proc.t].moved + [proc.due]
                 && (s'.rows[proc.t].next.Some? ==> proc.due < s'.rows[proc.t].next.value)
            else s'.rows == s.rows
  {
    RunRowsOk(plan, ss, actions, n);
  }

  /**
    Otherwise the order breaks. A tick given from a clock behind the last moved one is at or before it,
    and once a scheduler moves the trigger on from it, the moved ticks are out of order; if it was moved
    on before, it is then moved on twice.
    */
  lemma StaleClockMovesBack(plan: Plan, s: State, a: Action, p: nat, now: int)
    requires Schedules(plan) && RowsOk(plan, s) && AllAhead(s) && Enabled(plan, s, a)
    requires !ClockCaughtUp(plan, s, a) && p !in s.procs && (a.WriteResume? || s.rows[Gives(plan, s, a).value.0].enabled)
    requires plan.nextTick(Gives(plan, s, a).value.0, Gives(plan, s, a).value.1).value <= now
    ensures var t := Gives(plan, s, a).value.0;
            var given := Apply(plan, s, a);
            && Enabled(plan, given, ReadDue(p, t, now))
            && var read := Apply(plan, given, ReadDue(p, t, now));
               && Enabled(plan, read, Advance(p))
               && var after := Apply(plan, read, Advance(p)).rows[t].moved;
                  && after == s.rows[t].moved + [given.rows[t].next.value]
                  && !Increasing(after)
  {
    hide IsTick;
    hide Schedules;
    var (t, clock) := Gives(plan, s, a).value;
    AheadIncreases(s.rows[t]);
    GivenAheadIff(plan, t, s.rows[t], clock);
    GivenRow(plan, s, a);
    var x := plan.nextTick(t, clock).value;
    var moved := s.rows[t].moved;
    assert (moved + [x])[|moved|] == x;
    StaleIsBehind(plan, t, moved, clock);
    assert (moved + [x])[|moved| - 1] == moved[|moved| - 1];
  }

  lemma StaleIsBehind(plan: Plan, t: TriggerId, moved: seq<int>, now: int)
    requires moved != [] && now < moved[|moved| - 1] && IsTick(plan, t, moved[|moved| - 1]) && plan.nextTick(t, now).Some?
    ensures plan.nextTick(t, now).value <= moved[|moved| - 1]
  {
  }

  lemma StepOn(plan: Plan, ss: seq<State>, actions: seq<Action>, a: Action) returns (grown: seq<State>, all: seq<Action>)
    requires Runs(plan, ss, actions) && Enabled(plan, ss[|actions|], a)
    ensures grown == ss + [Apply(plan, ss[|actions|], a)] && all == actions + [a] && Runs(plan, grown, all)
  {
    hide Apply;
    hide Enabled;
    grown, all := ss + [Apply(plan, ss[|actions|], a)], actions + [a];
    forall i | 0 <= i < |all| ensures Enabled(plan, grown[i], all[i]) && grown[i + 1] == Apply(plan, grown[i], all[i]) {
      if i < |actions| {
        assert grown[i] == ss[i] && grown[i + 1] == ss[i + 1] && all[i] == actions[i];
      }
    }
  }

  /** Two resumes of a paused trigger read the clock; the first one writes. */
  lemma TwoResumes(plan: Plan, t: TriggerId, now: int) returns (ss: seq<State>, actions: seq<Action>)
    requires plan.nextTick(t, now).Some?
    ensures Runs(plan, ss, actions) && |actions| == 5
    ensures ss[5] == State(map[t := Row(true, plan.nextTick(t, now), [])], map[], {},
                           map[1 := Resuming(t, now), 2 := Free])
  {
    var s0 := State(map[], map[], {}, map[]);
    ss, actions := StepOn(plan, [s0], [], Create(t, now));
    ss, actions := StepOn(plan, ss, actions, Pause(t));
    ss, actions := StepOn(plan, ss, actions, ReadResume(1, t, now));
    ss, actions := StepOn(plan, ss, actions, ReadResume(2, t, now));
    ss, actions := StepOn(plan, ss, actions, WriteResume(2));
  }

  /** The tick comes and is moved on, the trigger is paused again, and the other resume writes the tick back. */
  lemma WritesBack(plan: Plan, t: TriggerId, now: int, ss: seq<State>, actions: seq<Action>)
      returns (grown: seq<State>, all: seq<Action>)
    requires plan.nextTick(t, now).Some? && Runs(plan, ss, actions) && |actions| == 5
    requires ss[5] == State(map[t := Row(true, plan.nextTick(t, now), [])], map[], {},
                            map[1 := Resuming(t, now), 2 := Free])
    ensures Runs(plan, grown, all) && |all| == 9
    ensures var tick := plan.nextTick(t, now).value;
            grown[9].rows == map[t := Row(true, Some(tick), [tick])] && At(grown[9], 0).Free?
  {
    var tick := plan.nextTick(t, now).value;
    grown, all := StepOn(plan, ss, actions, ReadDue(0, t, tick));
    assert At(grown[6], 0) == Due(t, tick, tick, false);
    var none: seq<int> := [];
    assert none + [tick] == [tick];
    grown, all := StepOn(plan, grown, all, Advance(0));
    assert grown[7].rows[t] == Row(true, plan.nextTick(t, tick), [tick]);
    assert grown[7].rows == map[t := Row(true, plan.nextTick(t, tick), [tick])];
    grown, all := StepOn(plan, grown, all, Pause(t));
    assert grown[8].rows == map[t := Row(false, plan.nextTick(t, tick), [tick])];
    grown, all := StepOn(plan, grown, all, WriteResume(1));
  }

  /**
    This happens with every clock right: of two resumes that read the clock before a tick, one writes
    after the tick was moved on and the trigger paused again, and the tick is moved on a second time.
    */
  lemma StaleResumeMovesTwice(plan: Plan, t: TriggerId, now: int) returns (ss: seq<State>, actions: seq<Action>)
    requires plan.nextTick(t, now).Some?
    ensures Runs(plan, ss, actions) && |actions| == 11
    ensures var tick := plan.nextTick(t, now).value; t in ss[11].rows && ss[11].rows[t].moved == [tick, tick]
  {
    var tick := plan.nextTick(t, now).value;
    ss, actions := TwoResumes(plan, t, now);
    ss, actions := WritesBack(plan, t, now, ss, actions);
    ss, actions := StepOn(plan, ss, actions, ReadDue(0, t, tick));
    ss, actions := StepOn(plan, ss, actions, Advance(0));
  }

  /** A trigger that ticks every hundred. */
  const HUNDREDS: Plan := Plan((key: Key) => RunId(0), (t: TriggerId, now: int) => Some(now / 100 * 100 + 100))

  lemma HundredsSchedule()
    ensures Schedules(HUNDREDS)
  {
    forall t: TriggerId, a, b | a <= b && b < HUNDREDS.nextTick(t, a).value
      ensures HUNDREDS.nextTick(t, b) == HUNDREDS.nextTick(t, a)
    {
      assert a / 100 == b / 100;
    }
  }

  /**
    It is the order that a stale clock always breaks. Where ticks were missed and passed over, the tick it
    gives may be one of those, moved on late but only once.
    */
  lemma StaleNeedNotRepeat(t: TriggerId)
    ensures Schedules(HUNDREDS)
    ensures var moved := [100, 500];
            && Increasing(moved) && 150 < moved[|moved| - 1]
            && HUNDREDS.nextTick(t, 150) == Some(200) && 200 !in moved && !Increasing(moved + [200])
  {
    HundredsSchedule();
    var after := [100, 500] + [200];
    assert after[1] == 500 && after[2] == 200;
  }
}
