/**
  Every process of a deployment, step by step: producers, sweeps, workers, deliverers, replies and
  stops, over one store and one run queue. Each store call and each queue script is one step, any
  process may take the next one, and any process may die between two of its own.

  What a process learned from outside (what a gate said, whether a stop covers the run, what the
  driver's world answered) comes with the action. A store or queue call that fails is a death too:
  the process gives up where it stands.
  */
module Cluster {
  import opened Protocol
  import opened Reducer
  import opened Folding
  import opened Driving
  import opened CrashResume
  import opened Asks
  import opened Queue
  import opened RunLog
  import opened Stores

  /** How far a worker is with a run: before its driver resumed, in `run_until`, or past it. */
  datatype Stage = Fresh | Looping | Done

  /** Who asks for a run: a client, a parent run, or a trigger. */
  datatype Kind = Create | Child | Fire

  /** What a process is about to do. */
  datatype Proc =
    | Free
    // producers, and the sweep of pending runs
    | Pended(spec: RunSpec, kind: Kind)
    | Pushing(id: RunId, endOnFailure: bool)
    | Ending(id: RunId, why: string)
    | Existing(id: RunId)
    | Looking(id: RunId)
    | Unpending(id: RunId)
    | Settling(id: RunId)
    | Gated(id: RunId)
    | PushingOnce(id: RunId)
    | Holding(id: RunId)
    | Forgetting(id: RunId)
    // workers
    | Claimed(id: RunId, token: Token)
    | Loaded(id: RunId, token: Token, log: Log)
    | Working(id: RunId, token: Token, seen: nat, mine: Log, stage: Stage, reloads: nat)
    | Failing(id: RunId, token: Token)
    | Reloading(id: RunId, token: Token, reloads: nat)
    | Acking(id: RunId, token: Token)
    | Releasing(id: RunId, token: Token)
    | Parking(id: RunId, token: Token, ask: MessageId)
    | Rechecking(id: RunId, ask: MessageId)
    // answers and stops
    | Waking(id: RunId, ask: MessageId)
    | Answering(id: RunId, ask: MessageId, answer: Event)
    | Replying(id: RunId, ask: MessageId, length: nat, text: string)
    | Cancelling(id: RunId, length: nat, parkedOn: Option<MessageId>)

  datatype Cluster = Cluster(store: Store, queue: QueueState, procs: map<nat, Proc>, maxDeliveries: nat)

  const RELOADS: nat := 3

  /** What one step leaves: the store, the queue, and what its process does next. */
  datatype Outcome = Outcome(store: Store, queue: QueueState, next: Proc)

  function At(c: Cluster, p: nat): Proc {
    if p in c.procs then c.procs[p] else Free
  }

  // ---------------------------------------------------------------------------
  // Producers and the sweep
  // ---------------------------------------------------------------------------

  datatype Producing =
    | Pend(spec: RunSpec, kind: Kind, time: int)
    | Put
    | PutFails(committed: bool)
    | Push
    | PushFails
    | End
    | ReadExisting
    | CheckQueued
    | Unpend
    | ReadFired
    | Gate(open: bool)
    | PushOnce
    | Hold
    | Sweep(run: RunId, fired: bool, aged: bool)
    | Forget

  predicate MayProduce(c: Cluster, proc: Proc, a: Producing) {
    match a
    case Pend(_, _, _) => proc.Free?
    case Put => proc.Pended?
    case PutFails(_) => proc.Pended?
    case Push => proc.Pushing?
    case PushFails => proc.Pushing?
    case End => proc.Ending?
    case ReadExisting => proc.Existing?
    case CheckQueued => proc.Looking?
    case Unpend => proc.Unpending?
    case ReadFired => proc.Settling?
    case Gate(_) => proc.Gated?
    case PushOnce => proc.PushingOnce?
    case Hold => proc.Holding?
    case Sweep(_, _, _) => proc.Free?
    case Forget => proc.Forgetting?
  }

  /** A producer that marked `id` pending and has not stored it yet. */
  predicate PutInFlight(c: Cluster, id: RunId) {
    exists p <- c.procs :: c.procs[p].Pended? && c.procs[p].spec.runId == id
  }

  function PutRun(s: Store, spec: RunSpec): Store {
    if spec.runId in s then s else s[spec.runId := Stored(spec, QueuedEvents(spec))]
  }

  /** How a producer ends a run it could not hand over. */
  function Undelivered(why: string): Event {
    RunFailed(Infrastructure, why)
  }

  function Produce(c: Cluster, proc: Proc, a: Producing): Outcome
    requires MayProduce(c, proc, a)
  {
    var s, q := c.store, c.queue;
    match a
    case Pend(spec, kind, time) => Outcome(s, Queue.Pend(q, spec.runId, time), Pended(spec, kind))
    case Put =>
      var id := proc.spec.runId;
      Outcome(PutRun(s, proc.spec), q,
              if proc.kind.Fire? then Settling(id)
              else if id !in s then Pushing(id, proc.kind.Create?)
              else if proc.kind.Child? then Existing(id)
              else Free)
    case PutFails(committed) =>
      Outcome(if committed then PutRun(s, proc.spec) else s, q,
              if proc.kind.Fire? then Free else Ending(proc.spec.runId, "store unavailable"))
    case Push => Outcome(s, Queue.Push(q, proc.id), Free)
    case PushFails => Outcome(s, q, if proc.endOnFailure then Ending(proc.id, "queue push failed") else Free)
    case End => Outcome(AppendTo(s, proc.id, None, [Undelivered(proc.why)]).0, q, Free)
    case ReadExisting => Outcome(s, q, if StillWaiting(LogOf(s, proc.id)) then Looking(proc.id) else Unpending(proc.id))
    case CheckQueued => Outcome(s, q, if q.Queued(proc.id) then Unpending(proc.id) else Free)
    case Unpend => Outcome(s, Queue.Unpend(q, proc.id), Free)
    case ReadFired => Outcome(s, q, if StillWaiting(LogOf(s, proc.id)) then Gated(proc.id) else Unpending(proc.id))
    case Gate(open) => Outcome(s, q, if open then PushingOnce(proc.id) else Holding(proc.id))
    case PushOnce => Outcome(s, Queue.PushOnce(q, proc.id).0, Free)
    case Hold =>
      var (grown, appended) := AppendTo(s, proc.id, None, [RunCancelled]);
      Outcome(grown, q, if appended.Appended? || appended.Terminal? then Unpending(proc.id) else Free)
    case Sweep(id, fired, aged) =>
      // The run is one of those listed pending a while ago, and `aged` if it was listed for long enough to forget.
      Outcome(s, q, if id !in s then if aged then Forgetting(id) else Free
                    else if !StillWaiting(s[id].log) then Unpending(id)
                    else if fired then Settling(id) else Pushing(id, false))
    case Forget => Outcome(s, Queue.Unpend(q, proc.id), Free)
  }

  // ---------------------------------------------------------------------------
  // Workers
  // ---------------------------------------------------------------------------

  datatype Laboring =
    | Claim(token: Token)
    | Load
    | HandBack
    | Start
    | Begin(stopped: bool, decider: bool, world: World)
    | Turn(world: World)
    | Leave
    | StopHere
    | Store
    | LoseLease
    | Reload
    | Finish
    | Fail
    | Ack
    | Release
    | Park
    | Recheck(stopped: bool)

  /** The part of a worker's log it knows to be stored. */
  function SeenBy(proc: Proc): Log
    requires proc.Working? && proc.seen <= |proc.mine|
  {
    proc.mine[..proc.seen]
  }

  predicate MayLabor(c: Cluster, proc: Proc, a: Laboring) {
    match a
    case Claim(_) => proc.Free?
    case Load => proc.Claimed?
    case HandBack => proc.Claimed? || proc.Loaded?
    case Start => proc.Loaded?
    case Begin(_, _, _) => proc.Working? && proc.stage.Fresh? && proc.seen == |proc.mine| && proc.id in c.store
    case Turn(w) =>
      && proc.Working? && proc.stage.Looping? && proc.seen == |proc.mine| && proc.id in c.store
      && !Ended(proc.mine) && w.boundary(proc.mine).Continue?
    case Leave => proc.Working? && proc.stage.Looping? && Ended(proc.mine)
    case StopHere => proc.Working? && proc.stage.Looping? && !Ended(proc.mine)
    case Store => proc.Working? && proc.seen < |proc.mine| && (proc.stage.Looping? ==> !Ended(proc.mine))
    case LoseLease => proc.Working? && !Holds(c.queue, proc.id, proc.token)
    case Reload => proc.Reloading?
    case Finish => proc.Working? && proc.stage.Done? && proc.seen == |proc.mine| && proc.id in c.store
    case Fail => proc.Failing?
    case Ack => proc.Acking?
    case Release => proc.Releasing?
    case Park => proc.Parking?
    case Recheck(_) => proc.Rechecking?
  }

  /** What a fresh worker does first with the log it loaded. */
  function Began(spec: RunSpec, proc: Proc, stopped: bool, decider: bool, w: World): Proc
    requires proc.Working?
  {
    if stopped then proc.(mine := proc.mine + [RunCancelled], stage := Done)
    else if Dispatch(proc.mine).Queued? then proc.(mine := proc.mine + LADDER)
    else if Resume(spec, proc.mine).Err?
    then proc.(mine := proc.mine + [RunFailed(Infrastructure, "cannot resume")], stage := Done)
    else if !decider
    then proc.(mine := Rebuilt(spec, proc.mine) + [RunFailed(Dependency, "decider: none")], stage := Done)
    else proc.(mine := Recover(spec, w, proc.mine), stage := Looping)
  }

  /** One turn of its driver's loop. */
  function Turned(spec: RunSpec, proc: Proc, w: World): Proc
    requires proc.Working?
  {
    match OneTurn(spec, w, proc.mine)
    case Go(next) => proc.(mine := next)
    case Stop(end, error, _) =>
      proc.(stage := Done,
            mine := if error.Some? then end + [RunFailed(Dependency, "decider: " + error.value)] else end)
  }

  /** What a worker does once the store answered its append. */
  function Answered(proc: Proc, answer: Append): Proc
    requires proc.Working?
  {
    match answer
    case Appended => proc.(seen := |proc.mine|)
    case Moved =>
      if proc.reloads < RELOADS then Reloading(proc.id, proc.token, proc.reloads + 1) else Releasing(proc.id, proc.token)
    case Terminal => Acking(proc.id, proc.token)
    case Missing => Acking(proc.id, proc.token)
  }

  function Labor(c: Cluster, proc: Proc, a: Laboring): Outcome
    requires MayLabor(c, proc, a)
  {
    var s, q := c.store, c.queue;
    match a
    case Claim(token) =>
      var (moved, claimed) := Queue.Claim(q, token);
      Outcome(s, moved, if claimed.Some? then Claimed(claimed.value, token) else Free)
    case Load =>
      Outcome(s, q, if proc.id !in s || Ended(s[proc.id].log) then Acking(proc.id, proc.token)
                    else Loaded(proc.id, proc.token, s[proc.id].log))
    case HandBack => Outcome(s, q, Releasing(proc.id, proc.token))
    case Start =>
      var (counted, starts) := Queue.Start(q, proc.id);
      Outcome(s, counted, if starts > c.maxDeliveries then Failing(proc.id, proc.token)
                          else Working(proc.id, proc.token, |proc.log|, proc.log, Fresh, 0))
    case Begin(stopped, decider, w) => Outcome(s, q, Began(s[proc.id].spec, proc, stopped, decider, w))
    case Turn(w) => Outcome(s, q, Turned(s[proc.id].spec, proc, w))
    case Leave => Outcome(s, q, proc.(stage := Done))
    case StopHere => Outcome(s, q, proc.(mine := proc.mine + [RunCancelled], stage := Done))
    case Store =>
      var (grown, answer) := AppendTo(s, proc.id, Some(proc.seen), proc.mine[proc.seen..]);
      Outcome(grown, q, Answered(proc, answer))
    case LoseLease => Outcome(s, q, Releasing(proc.id, proc.token))
    case Reload =>
      Outcome(s, q, if proc.id !in s || Ended(s[proc.id].log) then Acking(proc.id, proc.token)
                    else Working(proc.id, proc.token, |s[proc.id].log|, s[proc.id].log, Fresh, proc.reloads))
    case Finish =>
      var h := Harness(s[proc.id].spec, proc.mine);
      Outcome(s, q, if h.WaitingForMessage? then Parking(proc.id, proc.token, h.messageId) else Acking(proc.id, proc.token))
    case Fail =>
      Outcome(AppendTo(s, proc.id, None, [RunFailed(Infrastructure, "started without ending")]).0, q,
              Acking(proc.id, proc.token))
    case Ack => Outcome(s, Queue.Ack(q, proc.id, proc.token), Free)
    case Release => Outcome(s, Queue.Release(q, proc.id, proc.token), Free)
    case Park =>
      var (moved, parked) := Queue.Park(q, proc.id, proc.token, proc.ask);
      Outcome(s, moved, if parked then Rechecking(proc.id, proc.ask) else Free)
    case Recheck(stopped) =>
      Outcome(s, q, if stopped || !AskStateOf(LogOf(s, proc.id), proc.ask).Open? then Waking(proc.id, proc.ask) else Free)
  }

  // ---------------------------------------------------------------------------
  // Answers, stops, the reaper and time
  // ---------------------------------------------------------------------------

  datatype Serving =
    | Deliver(id: RunId, ask: MessageId, answer: Event, close: bool)
    | Answer
    | Reply(id: RunId, text: string)
    | PutReply
    | Stop(id: RunId, parkedOn: Option<MessageId>)
    | Cancel
    | SweepAsk(id: RunId, ask: MessageId, stopped: bool)
    | Wake
    | Reap
    | Expire(id: RunId)
    | Crash

  /** The user's question a run waits on. */
  function OpenQuestion(spec: RunSpec, log: Log): Option<MessageId> {
    if Ended(log) then None
    else match Harness(spec, log)
      case WaitingForMessage(_, _, ask) => if exists e <- log :: e.UserAsked? && e.messageId == ask then Some(ask) else None
      case _ => None
  }

  predicate MayServe(c: Cluster, proc: Proc, a: Serving) {
    match a
    case Deliver(_, ask, answer, _) => proc.Free? && AnsweredBy(answer) == Some(ask)
    case Answer => proc.Answering?
    case Reply(id, _) => proc.Free? && id in c.store && OpenQuestion(c.store[id].spec, c.store[id].log).Some?
    case PutReply => proc.Replying?
    case Stop(id, parkedOn) =>
      && proc.Free? && id in c.store && !Ended(c.store[id].log)
      && (parkedOn.Some? || Dispatch(c.store[id].log).Created? || Dispatch(c.store[id].log).Queued?)
    case Cancel => proc.Cancelling?
    case SweepAsk(_, _, _) => proc.Free?
    case Wake => proc.Waking?
    case Reap => proc.Free?
    case Expire(_) => proc.Free?
    case Crash => true
  }

  function Serve(c: Cluster, proc: Proc, a: Serving): Outcome
    requires MayServe(c, proc, a)
  {
    var s, q := c.store, c.queue;
    match a
    case Deliver(id, ask, answer, close) =>
      var log := LogOf(s, id);
      Outcome(s, q, if id !in s || Ended(log) then Waking(id, ask)
                    else match AskStateOf(log, ask)
                      case Unsent => if close then Waking(id, ask) else Free
                      case Answered => Waking(id, ask)
                      case Open => Answering(id, ask, answer))
    case Answer => Outcome(AppendTo(s, proc.id, None, [proc.answer]).0, q, Waking(proc.id, proc.ask))
    case Reply(id, text) =>
      Outcome(s, q, Replying(id, OpenQuestion(s[id].spec, s[id].log).value, |s[id].log|, text))
    case PutReply =>
      var (grown, answer) := AppendTo(s, proc.id, Some(proc.length), [UserAnswered(proc.ask, proc.text)]);
      Outcome(grown, q, if answer.Appended? then Waking(proc.id, proc.ask) else Free)
    case Stop(id, parkedOn) => Outcome(s, q, Cancelling(id, |s[id].log|, parkedOn))
    case Cancel =>
      var (grown, answer) := AppendTo(s, proc.id, Some(proc.length), [RunCancelled]);
      Outcome(grown, q, if answer.Appended? && proc.parkedOn.Some? then Waking(proc.id, proc.parkedOn.value) else Free)
    case SweepAsk(id, ask, stopped) =>
      // The run was listed parked on the ask a while ago.
      Outcome(s, q, if stopped || Ended(LogOf(s, id)) || !AskStateOf(LogOf(s, id), ask).Open? then Waking(id, ask) else Free)
    case Wake => Outcome(s, Queue.Wake(q, proc.id, proc.ask).0, Free)
    case Reap => Outcome(s, Queue.Reap(q), Free)
    case Expire(id) => Outcome(s, Queue.Expire(q, id), Free)
    case Crash => Outcome(s, q, Free)
  }

  datatype Action = Produces(p: nat, producing: Producing) | Labors(p: nat, laboring: Laboring) | Serves(p: nat, serving: Serving)

  predicate Enabled(c: Cluster, a: Action) {
    match a
    case Produces(p, producing) => MayProduce(c, At(c, p), producing)
    case Labors(p, laboring) => MayLabor(c, At(c, p), laboring)
    case Serves(p, serving) => MayServe(c, At(c, p), serving)
  }

  function Acted(c: Cluster, a: Action): Outcome
    requires Enabled(c, a)
  {
    match a
    case Produces(p, producing) => Produce(c, At(c, p), producing)
    case Labors(p, laboring) => Labor(c, At(c, p), laboring)
    case Serves(p, serving) => Serve(c, At(c, p), serving)
  }

  function After(c: Cluster, p: nat, o: Outcome): Cluster {
    c.(store := o.store, queue := o.queue, procs := c.procs[p := o.next])
  }

  function Apply(c: Cluster, a: Action): Cluster
    requires Enabled(c, a)
  {
    After(c, a.p, Acted(c, a))
  }
}
