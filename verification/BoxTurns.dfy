/**
  A Box turn: each delivery of it runs in a sandbox of its own, and a delivery ends the turn only once
  the sandboxes of its own and all earlier deliveries were confirmed gone. A claim takes the lease,
  then loads the run, and only then counts its delivery, which numbers it; a lease may lapse, a removal
  may fail and a worker may die at any step between.
  */
module BoxTurns {
  import opened Protocol

  /** Where a delivery's worker is. */
  datatype Work =
    | Begun
    | Started
    | Provisioning
    | Provisioned
    | Calling
    | Called
    | Cleaning(next: nat, through: nat)
    | Ending(through: nat)
    | Appending(through: nat)
    | Dropping

  /**
    What the turn's workers share: whether it was scheduled, and ended; `up` are the deliveries whose
    sandbox is up; `gone` those a cleanup ever confirmed gone; `late` those provisioned after that.
    */
  datatype Box = Box(scheduled: bool, ended: bool, up: set<nat>, gone: set<nat>, late: set<nat>)

  /**
    `holder` is the token that holds the lease, of `tokens` drawn so far; `claimed` and `loaded` are the
    claims that have not counted their delivery yet, and `token` is each delivery's.
    */
  datatype Turn = Turn(
    maxDeliveries: nat,
    starts: nat,
    holder: Option<nat>,
    tokens: nat,
    claimed: set<nat>,
    loaded: set<nat>,
    token: map<nat, nat>,
    workers: map<nat, Work>,
    box: Box)

  /** What a delivery's worker does; what its lease check told it, and whether a stop covers the run, comes with the step. */
  datatype Step =
    | Begin(goesOn: bool, stopped: bool)
    | Ready(goesOn: bool, stopped: bool)
    | Provision(ok: bool, left: bool)
    | Fence(goesOn: bool, stopped: bool)
    | Call
    | Clean(ok: bool)
    | Append
    | Drop(ok: bool)

  datatype Action =
    | Claim
    | Load(c: nat)
    | Start(c: nat)
    | GiveUp(c: nat)
    | Lapse
    | Act(n: nat, step: Step)
    | Die(n: nat)
    | StopQueued
    | SweepSandbox(k: nat)

  /** Whether a delivery's claim holds the lease. */
  predicate HoldsLease(t: Turn, n: nat) {
    n in t.token && t.holder == Some(t.token[n])
  }

  /** Which step a worker takes from where it is. */
  predicate Fits(work: Work, step: Step) {
    match step
    case Begin(_, _) => work.Begun?
    case Ready(_, _) => work.Started?
    case Provision(_, _) => work.Provisioning?
    case Fence(_, _) => work.Provisioned? || work.Called? || work.Ending?
    case Call => work.Calling?
    case Clean(_) => work.Cleaning?
    case Append => work.Appending?
    case Drop(_) => work.Dropping?
  }

  /** A lease check lets a worker go on unless it is told the lease is not its own. */
  predicate Checked(t: Turn, n: nat, step: Step) {
    (step.Begin? || step.Ready? || step.Fence?) && !step.goesOn ==> !HoldsLease(t, n)
  }

  predicate Enabled(t: Turn, a: Action) {
    match a
    case Claim => t.holder.None?
    case Load(c) => c in t.claimed
    case Start(c) => c in t.loaded
    case GiveUp(_) => true
    case Lapse => true
    case Act(n, step) => n in t.workers && Fits(t.workers[n], step) && Checked(t, n, step)
    case Die(n) => n in t.workers
    case StopQueued => !t.box.scheduled
    case SweepSandbox(_) => t.box.ended
  }

  function Ups(box: Box, n: nat): Box {
    box.(up := box.up + {n}, late := if n in box.gone then box.late + {n} else box.late)
  }

  /** What delivery `n`'s worker leaves of the turn, and where it is next; none once it is done. */
  function Done(box: Box, n: nat, work: Work, step: Step): (Box, Option<Work>)
    requires Fits(work, step)
  {
    match step
    case Begin(goesOn, stopped) =>
      // A stopped turn is cleaned up before anything is written; else it is scheduled and started.
      if stopped then (box, Some(Cleaning(1, n)))
      else if box.ended || !goesOn then (box, None)
      else (box.(scheduled := true), Some(Started))
    case Ready(goesOn, stopped) =>
      if stopped then (box, Some(Cleaning(1, n)))
      else if box.ended || !goesOn then (box, None)
      else (box, Some(Work.Provisioning))
    case Provision(ok, left) =>
      if ok then (Ups(box, n), Some(Provisioned))
      else (if left then Ups(box, n) else box, Some(Cleaning(1, n)))
    case Fence(goesOn, stopped) =>
      if work.Ending? then (box, if goesOn then Some(Appending(work.through)) else None)
      else if !goesOn then (box, Some(Dropping))
      else (box, Some(if work.Called? || stopped then Cleaning(1, n) else Calling))
    case Call => (box, Some(Called))
    case Clean(ok) =>
      if work.next > work.through then (box, Some(Ending(work.through)))
      else if !ok then (box, None)
      else (box.(up := box.up - {work.next}, gone := box.gone + {work.next}), Some(Cleaning(work.next + 1, work.through)))
    case Append => (box.(ended := true), None)
    case Drop(ok) => (if ok then box.(up := box.up - {n}) else box, None)
  }

  function Apply(t: Turn, a: Action): Turn
    requires Enabled(t, a)
  {
    match a
    case Claim => t.(holder := Some(t.tokens), claimed := t.claimed + {t.tokens}, tokens := t.tokens + 1)
    case Load(c) => t.(claimed := t.claimed - {c}, loaded := if t.box.ended then t.loaded else t.loaded + {c})
    case Start(c) =>
      var n := t.starts + 1;
      t.(starts := n, loaded := t.loaded - {c}, token := t.token[n := c],
         workers := t.workers[n := if n > t.maxDeliveries then Cleaning(1, t.maxDeliveries) else Begun])
    case GiveUp(c) => t.(claimed := t.claimed - {c}, loaded := t.loaded - {c})
    case Lapse => t.(holder := None)
    case Act(n, step) =>
      var (box, next) := Done(t.box, n, t.workers[n], step);
      t.(box := box, workers := if next.Some? then t.workers[n := next.value] else t.workers - {n})
    case Die(n) => t.(workers := t.workers - {n})
    case StopQueued => t.(box := t.box.(ended := true))
    case SweepSandbox(k) => t.(box := t.box.(up := t.box.up - {k}))
  }

  // ---------------------------------------------------------------------------
  // What every step keeps
  // ---------------------------------------------------------------------------

  /** How far a delivery's cleanup reaches: up to itself, and past the last delivery to all of them. */
  predicate Reaches(max: nat, n: nat, through: nat) {
    through == if n > max then max else n
  }

  predicate GoneTo(gone: set<nat>, k: nat) {
    forall j :: 1 <= j <= k ==> j in gone
  }

  predicate WorkOk(max: nat, starts: nat, gone: set<nat>, n: nat, work: Work) {
    && 1 <= n <= starts
    && match work
       case Cleaning(next, through) => 1 <= next <= through + 1 && Reaches(max, n, through) && GoneTo(gone, next - 1)
       case Ending(through) => Reaches(max, n, through) && GoneTo(gone, through)
       case Appending(through) => Reaches(max, n, through) && GoneTo(gone, through)
       case _ => n <= max
  }

  /** Workers that have not provisioned, and workers whose sandbox serves a call. */
  predicate Early(work: Work) { work.Begun? || work.Started? || work.Provisioning? }
  predicate Serving(work: Work) { work.Provisioned? || work.Calling? || work.Called? }

  /** What is known of a delivery's worker besides: it is scheduled, and its name was confirmed gone only by a later one. */
  predicate PlaceOk(box: Box, starts: nat, n: nat, work: Work) {
    && (work.Started? || work.Provisioning? ==> box.scheduled)
    && (n in box.gone && (Early(work) || Serving(work)) ==> n < starts)
    && (Early(work) ==> n !in box.late)
  }

  predicate BoxOk(box: Box, max: nat, starts: nat) {
    && (forall k <- box.up :: 1 <= k <= starts && k <= max && box.scheduled)
    && (forall k <- box.up :: k in box.gone ==> k in box.late)
    && (forall k <- box.late :: k in box.gone && k < starts)
    && (forall k <- box.gone :: 1 <= k <= starts)
  }

  predicate WorkerOk(t: Turn, n: nat, work: Work) {
    WorkOk(t.maxDeliveries, t.starts, t.box.gone, n, work) && PlaceOk(t.box, t.starts, n, work)
  }

  predicate Inv(t: Turn) {
    BoxOk(t.box, t.maxDeliveries, t.starts) && forall n <- t.workers :: WorkerOk(t, n, t.workers[n])
  }

  predicate Initial(t: Turn) {
    t.starts == 0 && t.holder.None? && t.tokens == 0 && t.claimed == {} && t.loaded == {} &&
    t.token == map[] && t.workers == map[] && t.box == Box(false, false, {}, {}, {})
  }

  lemma InitialOk(t: Turn)
    requires Initial(t)
    ensures Inv(t)
  {
  }

  /** What one worker's step does to what all share. */
  lemma DoneMoves(box: Box, n: nat, work: Work, step: Step)
    requires Fits(work, step)
    ensures var box' := Done(box, n, work, step).0;
            && box.gone <= box'.gone && (box.ended ==> box'.ended) && (box.scheduled ==> box'.scheduled)
            && (forall k :: k != n ==> (k in box'.late <==> k in box.late))
            && (forall k <- box'.gone :: k in box.gone || (step.Clean? && k == work.next <= work.through))
            && (forall k <- box.up :: k in box'.up || (step.Clean? && k == work.next <= work.through) || (step.Drop? && k == n))
            && (forall k <- box'.up :: k in box.up || (step.Provision? && k == n))
  {
  }

  lemma DoneBoxOk(box: Box, max: nat, starts: nat, n: nat, work: Work, step: Step)
    requires Fits(work, step) && BoxOk(box, max, starts)
    requires WorkOk(max, starts, box.gone, n, work) && PlaceOk(box, starts, n, work)
    ensures BoxOk(Done(box, n, work, step).0, max, starts)
  {
    hide GoneTo;
  }

  lemma DoneWorkOk(box: Box, max: nat, starts: nat, n: nat, work: Work, step: Step)
    requires Fits(work, step) && WorkOk(max, starts, box.gone, n, work)
    ensures var (box', next) := Done(box, n, work, step); next.Some? ==> WorkOk(max, starts, box'.gone, n, next.value)
  {
    hide Ups;
    if step.Clean? && work.next <= work.through {
      assert GoneTo(box.gone + {work.next}, work.next);
    }
  }

  lemma DonePlaceOk(box: Box, max: nat, starts: nat, n: nat, work: Work, step: Step)
    requires Fits(work, step) && PlaceOk(box, starts, n, work)
    ensures var (box', next) := Done(box, n, work, step); next.Some? ==> PlaceOk(box', starts, n, next.value)
  {
  }

  /** A worker's step leaves what the others know: it confirms gone only names up to its own. */
  lemma OthersKept(box: Box, max: nat, starts: nat, n: nat, work: Work, step: Step, other: nat, theirs: Work)
    requires Fits(work, step) && WorkOk(max, starts, box.gone, n, work) && other != n
    requires WorkOk(max, starts, box.gone, other, theirs) && PlaceOk(box, starts, other, theirs)
    ensures var box' := Done(box, n, work, step).0;
            WorkOk(max, starts, box'.gone, other, theirs) && PlaceOk(box', starts, other, theirs)
  {
    hide Done;
    DoneMoves(box, n, work, step);
  }

  lemma ActKeeps(t: Turn, n: nat, step: Step)
    requires Inv(t) && Enabled(t, Act(n, step))
    ensures Inv(Apply(t, Act(n, step)))
  {
    hide Done;
    hide WorkOk;
    hide PlaceOk;
    hide BoxOk;
    hide Fits;
    var t', work := Apply(t, Act(n, step)), t.workers[n];
    assert WorkerOk(t, n, work);
    DoneBoxOk(t.box, t.maxDeliveries, t.starts, n, work, step);
    DoneWorkOk(t.box, t.maxDeliveries, t.starts, n, work, step);
    DonePlaceOk(t.box, t.maxDeliveries, t.starts, n, work, step);
    forall other | other in t'.workers ensures WorkerOk(t', other, t'.workers[other]) {
      if other != n {
        assert WorkerOk(t, other, t.workers[other]);
        OthersKept(t.box, t.maxDeliveries, t.starts, n, work, step, other, t.workers[other]);
      }
    }
  }

  lemma StartKeeps(t: Turn, c: nat)
    requires Inv(t) && Enabled(t, Start(c))
    ensures Inv(Apply(t, Start(c)))
  {
    hide GoneTo;
    var t', n := Apply(t, Start(c)), t.starts + 1;
    NothingYet(t.box.gone);
    forall other | other in t'.workers ensures WorkerOk(t', other, t'.workers[other]) {
      if other != n {
        assert WorkerOk(t, other, t.workers[other]);
      }
    }
  }

  lemma NothingYet(gone: set<nat>)
    ensures GoneTo(gone, 0)
  {
  }

  lemma StepKeeps(t: Turn, a: Action)
    requires Inv(t) && Enabled(t, a)
    ensures Inv(Apply(t, a))
  {
    if a.Act? {
      ActKeeps(t, a.n, a.step);
    } else if a.Start? {
      StartKeeps(t, a.c);
    } else {
      hide WorkOk;
      hide Done;
      forall n | n in Apply(t, a).workers ensures WorkerOk(Apply(t, a), n, Apply(t, a).workers[n]) {
        assert WorkerOk(t, n, t.workers[n]);
      }
    }
  }

  lemma WorkerKnown(t: Turn, n: nat)
    requires Inv(t) && n in t.workers
    ensures WorkerOk(t, n, t.workers[n])
  {
  }

  // ---------------------------------------------------------------------------
  // What is promised of a Box turn
  // ---------------------------------------------------------------------------

  ghost predicate Runs(ts: seq<Turn>, actions: seq<Action>) {
    && |ts| == |actions| + 1 && Initial(ts[0])
    && forall i :: 0 <= i < |actions| ==> Enabled(ts[i], actions[i]) && ts[i + 1] == Apply(ts[i], actions[i])
  }

  lemma {:induction false} RunKeeps(ts: seq<Turn>, actions: seq<Action>, i: nat)
    requires Runs(ts, actions) && i < |ts|
    ensures Inv(ts[i])
  {
    hide Inv;
    hide Apply;
    hide Enabled;
    if i == 0 {
      InitialOk(ts[0]);
    } else {
      RunKeeps(ts, actions, i - 1);
      StepKeeps(ts[i - 1], actions[i - 1]);
      assert ts[i - 1 + 1] == Apply(ts[i - 1], actions[i - 1]);
    }
  }

  /** The step is delivery `n`'s, of this kind. */
  predicate Takes(a: Action, step: Step) {
    a.Act? && a.step == step
  }

  /**
    When delivery `n` ends the turn, a sandbox still up is a later delivery's, or was provisioned after
    a cleanup confirmed its name gone, by a delivery that was no longer the last.
    */
  lemma EndsClean(ts: seq<Turn>, actions: seq<Action>, i: nat, k: nat)
    requires Runs(ts, actions) && i < |actions| && Takes(actions[i], Append) && k in ts[i + 1].box.up
    ensures k > actions[i].n || (k in ts[i].box.late && k < ts[i].starts)
  {
    RunKeeps(ts, actions, i);
    WorkerKnown(ts[i], actions[i].n);
  }

  predicate Provisions(a: Action) {
    a.Act? && a.step.Provision? && a.step.ok
  }

  /** A sandbox is provisioned late exactly when a cleanup had confirmed its name gone, and that was a later delivery's. */
  lemma LateIff(ts: seq<Turn>, actions: seq<Action>, i: nat)
    requires Runs(ts, actions) && i < |actions| && Provisions(actions[i])
    ensures actions[i].n in ts[i + 1].box.late <==> actions[i].n in ts[i].box.gone
    ensures actions[i].n in ts[i].box.gone ==> actions[i].n < ts[i].starts
  {
    RunKeeps(ts, actions, i);
    WorkerKnown(ts[i], actions[i].n);
  }

  /** So the last delivery counted never provisions late. */
  lemma LatestIsNeverLate(ts: seq<Turn>, actions: seq<Action>, i: nat)
    requires Runs(ts, actions) && i < |actions| && Provisions(actions[i]) && actions[i].n == ts[i].starts
    ensures actions[i].n !in ts[i + 1].box.late
  {
    hide Runs;
    LateIff(ts, actions, i);
  }

  /** A stop that cancels a turn no worker took up finds no sandbox up. */
  lemma StopEndsClean(ts: seq<Turn>, actions: seq<Action>, i: nat)
    requires Runs(ts, actions) && i < |actions| && actions[i].StopQueued?
    ensures ts[i + 1].box.up == {}
  {
    RunKeeps(ts, actions, i);
  }

  /** No worker removes a later delivery's sandbox; only a sweep of an ended turn may. */
  lemma NeverRemovesLater(ts: seq<Turn>, actions: seq<Action>, i: nat, k: nat)
    requires Runs(ts, actions) && i < |actions| && k in ts[i].box.up && k !in ts[i + 1].box.up
    ensures (actions[i].SweepSandbox? && ts[i].box.ended) ||
            (actions[i].Act? && ((actions[i].step.Clean? && k <= actions[i].n) || (actions[i].step.Drop? && k == actions[i].n)))
  {
    hide Done;
    RunKeeps(ts, actions, i);
    if actions[i].Act? {
      WorkerKnown(ts[i], actions[i].n);
      DoneMoves(ts[i].box, actions[i].n, ts[i].workers[actions[i].n], actions[i].step);
    }
  }

  /** How a delivery comes to a place: from where, by which of its steps. */
  predicate CameBy(ts: seq<Turn>, actions: seq<Action>, i: nat, n: nat, work: Work, step: Step) {
    && i < |actions| && |ts| == |actions| + 1 && n in ts[i].workers && ts[i].workers[n] == work && actions[i] == Act(n, step)
  }

  predicate Comes(ts: seq<Turn>, i: nat, n: nat) {
    i + 1 < |ts| && n in ts[i + 1].workers && !(n in ts[i].workers && ts[i].workers[n] == ts[i + 1].workers[n])
  }

  /**
    A turn that is stopped, ended, or known to be another's makes no further step towards its call: a
    sandbox is provisioned, and the gateway called, only past a check that found none of those; and the
    turn is ended only past a last check of the lease.
    */
  lemma GoesOnlyUnstopped(ts: seq<Turn>, actions: seq<Action>, i: nat, n: nat)
    requires Runs(ts, actions) && i < |actions| && Comes(ts, i, n)
    ensures ts[i + 1].workers[n].Started? ==> CameBy(ts, actions, i, n, Begun, Begin(true, false)) && !ts[i].box.ended
    ensures ts[i + 1].workers[n].Provisioning? ==> CameBy(ts, actions, i, n, Started, Ready(true, false)) && !ts[i].box.ended
    ensures ts[i + 1].workers[n].Provisioned? ==> actions[i].Act? && actions[i].n == n && Provisions(actions[i])
    ensures ts[i + 1].workers[n].Calling? ==> CameBy(ts, actions, i, n, Provisioned, Fence(true, false))
    ensures ts[i + 1].workers[n].Called? ==> CameBy(ts, actions, i, n, Calling, Call)
    ensures ts[i + 1].workers[n].Appending? ==>
              actions[i].Act? && actions[i].n == n && actions[i].step.Fence? && actions[i].step.goesOn && ts[i].workers[n].Ending?
  {
    RunKeeps(ts, actions, i);
  }

  /** What a stop does to a delivery at each check: it goes to clean up, and a lost lease to drop its sandbox. */
  lemma StopsAtChecks(box: Box, n: nat, work: Work, goesOn: bool)
    ensures work.Begun? ==> Done(box, n, work, Begin(goesOn, true)) == (box, Some(Cleaning(1, n)))
    ensures work.Started? ==> Done(box, n, work, Ready(goesOn, true)) == (box, Some(Cleaning(1, n)))
    ensures work.Provisioned? ==> Done(box, n, work, Fence(true, true)) == (box, Some(Cleaning(1, n)))
    ensures work.Provisioned? || work.Called? ==> Done(box, n, work, Fence(false, goesOn)) == (box, Some(Dropping))
  {
  }

  // ---------------------------------------------------------------------------
  // A sandbox through its gateway call
  // ---------------------------------------------------------------------------

  /** A step of a cleanup that removes delivery `n`'s sandbox, if it is up. */
  predicate Cleans(t: Turn, a: Action, n: nat) {
    && a.Act? && a.step.Clean? && a.step.ok && a.n in t.workers && t.workers[a.n].Cleaning?
    && t.workers[a.n].next == n && n <= t.workers[a.n].through
  }

  /** A claim counts a delivery only for a turn it loaded open, and the delivery runs only within the limit. */
  lemma ClaimBegins(t: Turn, c: nat)
    requires c in t.claimed
    ensures c in Apply(t, Load(c)).loaded <==> !t.box.ended || c in t.loaded
    ensures !t.box.ended ==>
              var started := Apply(Apply(t, Load(c)), Start(c));
              && started.starts == t.starts + 1 && c !in started.loaded && c !in started.claimed
              && started.token == t.token[t.starts + 1 := c]
              && started.workers == t.workers[t.starts + 1 := if t.starts < t.maxDeliveries then Begun else Cleaning(1, t.maxDeliveries)]
  {
  }

  /** A provision that succeeds, or fails and leaves a sandbox behind. */
  predicate BringsUp(a: Action, k: nat) {
    a.Act? && a.n == k && a.step.Provision? && (a.step.ok || a.step.left)
  }

  /** A cleanup or a sweep that reaches the sandbox, or its own worker that drops it. */
  predicate TakesDown(t: Turn, a: Action, k: nat) {
    Cleans(t, a, k) || a == SweepSandbox(k) || (a.Act? && a.n == k && a.step.Drop? && a.step.ok)
  }

  lemma UpMoves(t: Turn, a: Action, k: nat)
    requires Enabled(t, a)
    ensures k in Apply(t, a).box.up <==> BringsUp(a, k) || (k in t.box.up && !TakesDown(t, a, k))
    ensures k in Apply(t, a).box.gone <==> k in t.box.gone || Cleans(t, a, k)
    ensures Apply(t, a).box.ended <==> t.box.ended || a.StopQueued? || (a.Act? && a.step.Append?)
  {
  }

  /** In every run, a sandbox is up exactly when a provision brought it up and nothing has taken it down since. */
  lemma {:induction false} UpIff(ts: seq<Turn>, actions: seq<Action>, i: nat, k: nat)
    requires Runs(ts, actions) && i < |ts|
    ensures k in ts[i].box.up <==>
              exists j :: 0 <= j < i && BringsUp(actions[j], k) && forall m :: j < m < i ==> !TakesDown(ts[m], actions[m], k)
  {
    hide Apply;
    hide Enabled;
    hide BringsUp;
    hide TakesDown;
    if i > 0 {
      UpIff(ts, actions, i - 1, k);
      UpMoves(ts[i - 1], actions[i - 1], k);
      assert ts[i - 1 + 1] == Apply(ts[i - 1], actions[i - 1]);
    }
  }

  /** A delivery at or before the last one is under way after a step only if it was before, and a step of its own never leads back. */
  lemma StaysPast(t: Turn, a: Action, n: nat)
    requires Enabled(t, a) && n <= t.starts && n in Apply(t, a).workers
    ensures n in t.workers && (!Early(t.workers[n]) ==> !Early(Apply(t, a).workers[n]))
    ensures n <= Apply(t, a).starts && t.starts <= Apply(t, a).starts
  {
  }

  lemma StartsGrow(t: Turn, a: Action)
    requires Enabled(t, a)
    ensures t.starts <= Apply(t, a).starts && (t.box.ended ==> Apply(t, a).box.ended)
  {
  }

  /** A worker past its provision never provisions again. */
  lemma {:induction false} PastProvision(ts: seq<Turn>, actions: seq<Action>, j: nat, i: nat, n: nat)
    requires Runs(ts, actions) && j < i < |ts| && Provisions(actions[j]) && actions[j].n == n
    ensures n in ts[i].workers ==> !Early(ts[i].workers[n])
    ensures n <= ts[i].starts
  {
    assert ts[i - 1 + 1] == Apply(ts[i - 1], actions[i - 1]);
    if i == j + 1 {
      RunKeeps(ts, actions, j);
      WorkerKnown(ts[j], n);
    } else {
      PastProvision(ts, actions, j, i - 1, n);
      hide Enabled;
      hide Apply;
      StartsGrow(ts[i - 1], actions[i - 1]);
      if n in ts[i].workers {
        StaysPast(ts[i - 1], actions[i - 1], n);
      }
    }
  }

  /** A delivery whose call was being served before a step and after it. */
  lemma ServingStep(t: Turn, a: Action, n: nat)
    requires Inv(t) && Enabled(t, a) && n in t.workers && !Early(t.workers[n])
    requires var t' := Apply(t, a); n in t'.workers && Serving(t'.workers[n]) && !t'.box.ended
    ensures Serving(t.workers[n]) && !t.box.ended
    ensures n in Apply(t, a).box.up <==> n in t.box.up && !Cleans(t, a, n)
    ensures Cleans(t, a, n) ==> n < a.n <= t.starts
  {
    WorkerKnown(t, n);
    if a.Act? {
      WorkerKnown(t, a.n);
      hide Inv;
      ServingAct(t.box, n, t.workers[n], a.n, t.workers[a.n], a.step);
    } else {
      hide Inv;
    }
  }

  /** One worker's step against the sandbox of a delivery whose call is served. */
  lemma ServingAct(box: Box, n: nat, work: Work, m: nat, theirs: Work, step: Step)
    requires Fits(theirs, step) && !Early(work) && (m == n ==> theirs == work)
    ensures var (box', next) := Done(box, m, theirs, step);
            var cleaned := step.Clean? && step.ok && theirs.next == n <= theirs.through;
            && (box.ended ==> box'.ended)
            && (m != n ==> (n in box'.up <==> n in box.up && !cleaned))
            && (m == n && next.Some? && Serving(next.value) ==>
                  Serving(work) && !cleaned && (n in box'.up <==> n in box.up))
  {
  }

  /**
    While the turn is open, the sandbox of a delivery between its provision and the end of its call is up
    if and only if no cleanup has reached its name since; and such a cleanup is a later delivery's.
    */
  lemma {:induction false} LiveIff(ts: seq<Turn>, actions: seq<Action>, j: nat, i: nat, n: nat)
    requires Runs(ts, actions) && j < i < |ts| && Provisions(actions[j]) && actions[j].n == n
    requires n in ts[i].workers && Serving(ts[i].workers[n]) && !ts[i].box.ended
    ensures n in ts[i].box.up <==> forall l :: j < l < i ==> !Cleans(ts[l], actions[l], n)
    ensures forall l :: j < l < i && Cleans(ts[l], actions[l], n) ==> n < actions[l].n <= ts[i].starts
  {
    hide Enabled;
    hide Apply;
    hide Inv;
    hide Cleans;
    assert ts[i - 1 + 1] == Apply(ts[i - 1], actions[i - 1]);
    if i == j + 1 {
      ProvisionUps(ts[j], actions[j]);
    } else {
      PastProvision(ts, actions, j, i - 1, n);
      RunKeeps(ts, actions, i - 1);
      StaysPast(ts[i - 1], actions[i - 1], n);
      ServingStep(ts[i - 1], actions[i - 1], n);
      LiveIff(ts, actions, j, i - 1, n);
    }
  }

  lemma ProvisionUps(t: Turn, a: Action)
    requires Provisions(a) && Enabled(t, a)
    ensures a.n in Apply(t, a).box.up
  {
  }

  /** So while no later delivery is counted, the sandbox is up through the call. */
  lemma LiveThroughCall(ts: seq<Turn>, actions: seq<Action>, j: nat, i: nat, n: nat)
    requires Runs(ts, actions) && j < i < |ts| && Provisions(actions[j]) && actions[j].n == n
    requires n in ts[i].workers && Serving(ts[i].workers[n]) && !ts[i].box.ended && n == ts[i].starts
    ensures n in ts[i].box.up
  {
    hide Runs;
    hide Cleans;
    LiveIff(ts, actions, j, i, n);
  }

  // ---------------------------------------------------------------------------
  // Without deaths and failed removals
  // ---------------------------------------------------------------------------

  predicate Smooth(a: Action) {
    !a.Die? && (a.Act? ==> (a.step.Clean? ==> a.step.ok) && (a.step.Drop? ==> a.step.ok))
  }

  /** Whose own sandbox is still to be removed by its worker. */
  predicate WillRemove(work: Work, k: nat) {
    Serving(work) || work.Dropping? || (work.Cleaning? && work.next <= k)
  }

  ghost predicate Owned(t: Turn) {
    forall k <- t.box.up :: k in t.workers && WillRemove(t.workers[k], k)
  }

  lemma SmoothStep(t: Turn, a: Action)
    requires Inv(t) && Owned(t) && Enabled(t, a) && Smooth(a)
    ensures Owned(Apply(t, a))
  {
    if a.Act? {
      SmoothAct(t, a.n, a.step);
    }
  }

  lemma SmoothAct(t: Turn, n: nat, step: Step)
    requires Inv(t) && Owned(t) && Enabled(t, Act(n, step)) && Smooth(Act(n, step))
    ensures Owned(Apply(t, Act(n, step)))
  {
    WorkerKnown(t, n);
    hide Inv;
    var work := t.workers[n];
    var (box, next) := Done(t.box, n, work, step);
    DoneMoves(t.box, n, work, step);
    OwnRemoved(t, n, step);
  }

  /** A worker that goes on removes its own sandbox still; one that is done has. */
  lemma OwnRemoved(t: Turn, n: nat, step: Step)
    requires n in t.workers && WorkerOk(t, n, t.workers[n]) && BoxOk(t.box, t.maxDeliveries, t.starts) && Fits(t.workers[n], step)
    requires (n in t.box.up ==> WillRemove(t.workers[n], n)) && Smooth(Act(n, step))
    ensures var (box, next) := Done(t.box, n, t.workers[n], step);
            n in box.up ==> next.Some? && WillRemove(next.value, n)
  {
  }

  lemma {:induction false} SmoothRun(ts: seq<Turn>, actions: seq<Action>, i: nat)
    requires Runs(ts, actions) && i < |ts| && forall a <- actions :: Smooth(a)
    ensures Owned(ts[i])
  {
    if i > 0 {
      hide Inv;
      hide Apply;
      hide Enabled;
      hide Smooth;
      SmoothRun(ts, actions, i - 1);
      RunKeeps(ts, actions, i - 1);
      assert actions[i - 1] in actions;
      SmoothStep(ts[i - 1], actions[i - 1]);
      assert ts[i - 1 + 1] == Apply(ts[i - 1], actions[i - 1]);
    }
  }

  /** So when delivery `n` ends the turn there, every sandbox still up has its worker under way, about to remove it. */
  lemma EndsOwned(ts: seq<Turn>, actions: seq<Action>, i: nat, k: nat)
    requires Runs(ts, actions) && i < |actions| && (forall a <- actions :: Smooth(a))
    requires Takes(actions[i], Append) && k in ts[i + 1].box.up
    ensures k in ts[i + 1].workers && WillRemove(ts[i + 1].workers[k], k)
    ensures k > actions[i].n || (k in ts[i].box.late && k < ts[i].starts)
  {
    SmoothRun(ts, actions, i + 1);
    EndsClean(ts, actions, i, k);
  }

  /** Once every worker is done, with no death and no failed removal, no sandbox is left. */
  lemma NoneLeft(ts: seq<Turn>, actions: seq<Action>, i: nat)
    requires Runs(ts, actions) && i < |ts| && (forall a <- actions :: Smooth(a)) && ts[i].workers == map[]
    ensures ts[i].box.up == {}
  {
    SmoothRun(ts, actions, i);
  }

  // ---------------------------------------------------------------------------
  // The lease is not enough
  // ---------------------------------------------------------------------------

  lemma StepOn(ts: seq<Turn>, actions: seq<Action>, a: Action) returns (grown: seq<Turn>, all: seq<Action>)
    requires Runs(ts, actions) && Enabled(ts[|actions|], a) && Smooth(a) && forall b <- actions :: Smooth(b)
    ensures grown == ts + [Apply(ts[|actions|], a)] && all == actions + [a] && Runs(grown, all)
    ensures forall b <- all :: Smooth(b)
  {
    hide Apply;
    hide Enabled;
    hide Smooth;
    grown, all := ts + [Apply(ts[|actions|], a)], actions + [a];
    forall i | 0 <= i < |all| ensures Enabled(grown[i], all[i]) && grown[i + 1] == Apply(grown[i], all[i]) {
      if i < |actions| {
        assert grown[i] == ts[i] && grown[i + 1] == ts[i + 1] && all[i] == actions[i];
      }
    }
  }

  const EMPTY := Box(false, false, {}, {}, {})

  /** A claim loads the run and stalls, and its lease lapses; another claims and loads it. */
  lemma TwoClaims(maxDeliveries: nat) returns (ts: seq<Turn>, actions: seq<Action>)
    ensures Runs(ts, actions) && |actions| == 5 && forall a <- actions :: Smooth(a)
    ensures ts[5] == Turn(maxDeliveries, 0, Some(1), 2, {}, {0, 1}, map[], map[], EMPTY)
  {
    hide Done;
    var t0 := Turn(maxDeliveries, 0, None, 0, {}, {}, map[], map[], EMPTY);
    ts, actions := StepOn([t0], [], Claim);
    ts, actions := StepOn(ts, actions, Load(0));
    ts, actions := StepOn(ts, actions, Lapse);
    assert ts[3] == t0.(tokens := 1, loaded := {0});
    ts, actions := StepOn(ts, actions, Claim);
    ts, actions := StepOn(ts, actions, Load(1));
    assert ts[5].loaded == {0, 1} && ts[5].claimed == {};
  }

  /** The second claim is counted first, and takes the turn up while it holds the lease. */
  lemma Overtaken(maxDeliveries: nat) returns (ts: seq<Turn>, actions: seq<Action>)
    requires 1 <= maxDeliveries
    ensures Runs(ts, actions) && |actions| == 8 && forall a <- actions :: Smooth(a)
    ensures ts[8] == Turn(maxDeliveries, 1, Some(1), 2, {}, {0}, map[1 := 1], map[1 := Work.Provisioning], EMPTY.(scheduled := true))
  {
    ts, actions := TwoClaims(maxDeliveries);
    ts, actions := StepOn(ts, actions, Start(1));
    assert ts[6] == Turn(maxDeliveries, 1, Some(1), 2, {}, {0}, map[1 := 1], map[1 := Begun], EMPTY);
    ts, actions := StepOn(ts, actions, Act(1, Begin(true, false)));
    ts, actions := StepOn(ts, actions, Act(1, Ready(true, false)));
  }

  /** The stalled claim is counted next, and its cleanup (of a turn stopped, or delivered too often) reaches the first name. */
  lemma CleansFirst(ts: seq<Turn>, actions: seq<Action>) returns (grown: seq<Turn>, all: seq<Action>)
    requires Runs(ts, actions) && |ts| == |actions| + 1 && forall a <- actions :: Smooth(a)
    requires var t := ts[|actions|];
             t.starts == 1 && t.loaded == {0} && 1 <= t.maxDeliveries && t.workers.Keys == {1} && t.token == map[1 := 1]
    ensures Runs(grown, all) && |grown| == |all| + 1 && forall a <- all :: Smooth(a)
    ensures var t, t' := ts[|actions|], grown[|all|];
            && t'.box == t.box.(up := t.box.up - {1}, gone := t.box.gone + {1}) && t'.holder == t.holder
            && 1 in t'.workers && t'.workers[1] == t.workers[1] && 1 in t'.token && t'.token[1] == 1
  {
    grown, all := StepOn(ts, actions, Start(0));
    if ts[|actions|].maxDeliveries > 1 {
      grown, all := StepOn(grown, all, Act(2, Begin(true, true)));
    }
    grown, all := StepOn(grown, all, Act(2, Clean(true)));
  }

  /** The lease holder can lose its sandbox in the middle of its call, with no death and no failed removal. */
  lemma HolderLosesSandbox(maxDeliveries: nat) returns (ts: seq<Turn>, actions: seq<Action>)
    requires 1 <= maxDeliveries
    ensures Runs(ts, actions) && forall a <- actions :: Smooth(a)
    ensures var t := ts[|actions|];
            !t.box.ended && HoldsLease(t, 1) && 1 in t.workers && t.workers[1] == Calling && 1 !in t.box.up
  {
    ts, actions := Overtaken(maxDeliveries);
    ts, actions := StepOn(ts, actions, Act(1, Provision(true, false)));
    ts, actions := StepOn(ts, actions, Act(1, Fence(true, false)));
    ts, actions := CleansFirst(ts, actions);
  }

  /** And it can provision a name that was already confirmed gone. */
  lemma HolderProvisionsLate(maxDeliveries: nat) returns (ts: seq<Turn>, actions: seq<Action>)
    requires 1 <= maxDeliveries
    ensures Runs(ts, actions) && forall a <- actions :: Smooth(a)
    ensures var t := ts[|actions|]; !t.box.ended && HoldsLease(t, 1) && 1 in t.box.up && 1 in t.box.late
  {
    ts, actions := Overtaken(maxDeliveries);
    ts, actions := CleansFirst(ts, actions);
    ts, actions := StepOn(ts, actions, Act(1, Provision(true, false)));
  }
}
