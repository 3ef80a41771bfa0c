/**
  What every step of every process does to the stored logs, whatever the queue holds and whatever the
  drivers meet: each log is written by one writer after another, each from exactly the log it extends.
  */
module Serializing {
  import opened Protocol
  import opened Reducer
  import opened Folding
  import opened Driving
  import opened Looping
  import opened CrashResume
  import opened Asks
  import opened Queue
  import opened RunLog
  import opened Stores
  import opened Cluster

  // ---------------------------------------------------------------------------
  // The invariant
  // ---------------------------------------------------------------------------

  ghost predicate StoreOk(s: Store) {
    forall id <- s :: s[id].spec.runId == id && Written(s[id].spec, s[id].log)
  }

  /** What a worker's own log is to the stored one. */
  ghost predicate Follows(s: Store, proc: Proc)
    requires proc.Working? && proc.id in s
  {
    var spec := s[proc.id].spec;
    && proc.seen <= |proc.mine|
    && SeenBy(proc) <= s[proc.id].log
    && Written(spec, SeenBy(proc))
    && match proc.stage
       case Fresh => !Ended(proc.mine) && (proc.mine == SeenBy(proc) || Works(spec, SeenBy(proc), proc.mine))
       case Looping =>
         && AtBoundary(spec, proc.mine) && !Ended(SeenBy(proc))
         && (proc.mine == SeenBy(proc) || Driven(spec, SeenBy(proc), proc.mine))
       case Done =>
         && (proc.mine == SeenBy(proc) || Works(spec, SeenBy(proc), proc.mine))
         && (Ended(proc.mine) || Harness(spec, proc.mine).WaitingForMessage?)
  }

  /** What a process knows of a stored log. */
  ghost predicate LogOk(s: Store, proc: Proc) {
    match proc
    case Loaded(id, _, log) => id in s && log <= s[id].log && !Ended(log) && Written(s[id].spec, log)
    case Working(id, _, _, _, _, _) => id in s && Follows(s, proc)
    case Answering(id, ask, answer) => id in s && AnsweredBy(answer) == Some(ask) && RunStarted in s[id].log
    case Replying(id, _, _, _) => id in s && RunStarted in s[id].log
    case _ => true
  }

  ghost predicate LogInv(c: Cluster) {
    StoreOk(c.store) && forall p <- c.procs :: LogOk(c.store, c.procs[p])
  }

  predicate Grows(s: Store, s': Store) {
    forall id <- s :: id in s' && s'[id].spec == s[id].spec && s[id].log <= s'[id].log
  }

  /** How one step moves the logs: an answer is only appended by a process that then wakes the run for it. */
  ghost predicate Serial(s: Store, s': Store, next: Proc) {
    forall id <- s' ::
      if id !in s then s'[id].log == QueuedEvents(s'[id].spec)
      else
        var was, now := s[id].log, s'[id].log;
        || now == was
        || Works(s[id].spec, was, now)
        || (!Ended(was) && Answers(was, now) && next == Waking(id, AnsweredBy(Last(now)).value))
  }

  lemma FollowsKept(s: Store, s': Store, proc: Proc)
    requires proc.Working? && proc.id in s && Grows(s, s') && Follows(s, proc)
    ensures Follows(s', proc)
  {
    hide Writes;
    hide Driven;
    hide Written;
    hide AtBoundary;
  }

  lemma LogKept(s: Store, s': Store, proc: Proc)
    requires LogOk(s, proc) && Grows(s, s')
    ensures LogOk(s', proc)
  {
    hide Follows;
    hide Written;
    hide Ended;
    if proc.Working? {
      FollowsKept(s, s', proc);
    }
  }

  lemma GrowsRefl(s: Store)
    ensures Grows(s, s)
  {
  }

  lemma GrowsTrans(a: Store, b: Store, c: Store)
    requires Grows(a, b) && Grows(b, c)
    ensures Grows(a, c)
  {
  }

  // ---------------------------------------------------------------------------
  // Each store call
  // ---------------------------------------------------------------------------

  /** One step's outcome: every log written, none rewritten, each moved by at most one writer's batch. */
  ghost predicate LogGood(s: Store, o: Outcome) {
    StoreOk(o.store) && Grows(s, o.store) && Serial(s, o.store, o.next) && LogOk(o.store, o.next)
  }

  lemma SameLogs(s: Store)
    ensures Grows(s, s)
    ensures forall next :: Serial(s, s, next)
  {
  }

  lemma PutLogs(s: Store, spec: RunSpec)
    requires StoreOk(s)
    ensures var s' := PutRun(s, spec); StoreOk(s') && Grows(s, s') && spec.runId in s'
    ensures forall next :: Serial(s, PutRun(s, spec), next)
  {
    hide Written;
    QueuedWaits(spec);
  }

  lemma QueuedWaits(spec: RunSpec)
    ensures Written(spec, QueuedEvents(spec)) && StillWaiting(QueuedEvents(spec))
  {
  }

  /** Appending a writer's batch. */
  lemma AppendLogs(s: Store, id: RunId, batch: Log)
    requires StoreOk(s) && id in s && Writes(s[id].spec, s[id].log, s[id].log + batch)
    ensures var s' := s[id := s[id].(log := s[id].log + batch)]; StoreOk(s') && Grows(s, s')
  {
    hide Written;
    hide Writes;
    WrittenSnoc(s[id].spec, s[id].log, s[id].log + batch);
  }

  lemma EndLogs(s: Store, id: RunId, seen: Option<nat>, end: Event)
    requires StoreOk(s) && IsRunEnd(end)
    ensures var (s', answer) := AppendTo(s, id, seen, [end]);
            && StoreOk(s') && Grows(s, s')
            && (forall next :: Serial(s, s', next))
            && (answer.Appended? || answer.Terminal? ==> id in s' && Ended(s'[id].log))
            && (id in s && seen.None? ==> answer.Appended? || answer.Terminal?)
  {
    hide Written;
    hide Ended;
    hide StoreOk;
    hide Driven;
    SameLogs(s);
    if id in s && !Ended(s[id].log) {
      EndWrites(s[id].spec, s[id].log, end);
      AppendLogs(s, id, [end]);
    }
  }

  lemma AnswerLogs(s: Store, id: RunId, length: Option<nat>, answer: Event)
    requires StoreOk(s) && id in s && AnsweredBy(answer).Some? && RunStarted in s[id].log
    ensures var (s', taken) := AppendTo(s, id, length, [answer]);
            && StoreOk(s') && Grows(s, s')
            && Serial(s, s', if taken.Appended? then Waking(id, AnsweredBy(answer).value) else Free)
            && Serial(s, s', Waking(id, AnsweredBy(answer).value))
  {
    hide StoreOk;
    hide Driven;
    hide Ended;
    SameLogs(s);
    var log := s[id].log;
    if !Ended(log) {
      assert Front(log + [answer]) == log;
      AppendLogs(s, id, [answer]);
    }
  }

  // ---------------------------------------------------------------------------
  // Each step of a worker
  // ---------------------------------------------------------------------------

  lemma FreshFollows(s: Store, id: RunId, token: Token, log: Log, reloads: nat)
    requires id in s && log <= s[id].log && !Ended(log) && Written(s[id].spec, log)
    ensures Follows(s, Working(id, token, |log|, log, Fresh, reloads))
  {
    hide Written;
    assert log[..|log|] == log;
  }

  /** A driver resumed from a written log: what it then holds is one writer's batch. */
  lemma {:induction false} ResumeWrites(spec: RunSpec, w: World, log: Log)
    requires Written(spec, log) && !Ended(log) && Resume(spec, log).Ok?
    ensures AtBoundary(spec, Recover(spec, w, log)) && log <= Recover(spec, w, log)
    ensures Driven(spec, log, Recover(spec, w, log))
  {
    hide Written;
    hide Shaped;
    hide Recover;
    hide Resume;
    hide AtBoundary;
    hide OneTurn;
    WrittenShaped(spec, log);
    ShapedRecovers(spec, w, log);
    assert DrivenBy(spec, w, log, Recover(spec, w, log));
  }

  lemma EndWrites(spec: RunSpec, log: Log, end: Event)
    requires !Ended(log) && IsRunEnd(end)
    ensures Works(spec, log, log + [end]) && Ended(log + [end])
  {
    hide Driven;
    EndedSnoc(log, end);
    assert Front(log + [end]) == log;
  }

  /** A driver that was rebuilt and then had no decider ends its run in one writer's batch. */
  lemma RebuiltWrites(spec: RunSpec, w: World, log: Log, end: Event)
    requires Written(spec, log) && !Ended(log) && Resume(spec, log).Ok? && IsRunEnd(end)
    ensures var now := Rebuilt(spec, log) + [end]; Driven(spec, log, now) && log <= now && Ended(now)
  {
    hide Written;
    hide Shaped;
    hide Recover;
    hide Resume;
    hide Rebuilt;
    hide OneTurn;
    WrittenShaped(spec, log);
    RebuiltOpen(spec, log);
    var now := Rebuilt(spec, log) + [end];
    EndedSnoc(Rebuilt(spec, log), end);
    assert Front(now) == Rebuilt(spec, log);
    assert DrivenBy(spec, w, log, now);
  }

  lemma BeganFollows(s: Store, proc: Proc, stopped: bool, decider: bool, w: World)
    requires proc.Working? && proc.stage.Fresh? && proc.id in s && Follows(s, proc)
    requires proc.seen == |proc.mine|
    ensures var began := Began(s[proc.id].spec, proc, stopped, decider, w);
            began.Working? && began.id == proc.id && Follows(s, began)
  {
    hide Written;
    hide Driven;
    hide Recover;
    hide Rebuilt;
    hide Resume;
    hide AtBoundary;
    hide Harness;
    hide Dispatch;
    var spec, log := s[proc.id].spec, proc.mine;
    var began := Began(spec, proc, stopped, decider, w);
    assert SeenBy(proc) == log;
    EndWrites(spec, log, RunCancelled);
    EndWrites(spec, log, RunFailed(Infrastructure, "cannot resume"));
    UnendedSuffix(log, LADDER);
    if Resume(spec, log).Ok? {
      ResumeWrites(spec, w, log);
      RebuiltWrites(spec, w, log, RunFailed(Dependency, "decider: none"));
    }
    assert log <= began.mine;
    assert SeenBy(began) == log;
  }

  /** A turn from a stored boundary is what a driver resumed there would do. */
  lemma TurnWrites(spec: RunSpec, w: World, log: Log, now: Log)
    requires AtBoundary(spec, log) && !Ended(log)
    requires now == OneTurn(spec, w, log).log || (now != [] && IsRunEnd(Last(now)) && Front(now) == log)
    ensures Driven(spec, log, now)
  {
    hide OneTurn;
    hide Recover;
    RecoverBoundary(spec, w, log);
    assert DrivenBy(spec, w, log, now);
  }

  lemma TurnedFollows(s: Store, proc: Proc, w: World)
    requires proc.Working? && proc.stage.Looping? && proc.id in s && Follows(s, proc)
    requires proc.seen == |proc.mine| && !Ended(proc.mine) && w.boundary(proc.mine).Continue?
    ensures var turned := Turned(s[proc.id].spec, proc, w);
            turned.Working? && turned.id == proc.id && Follows(s, turned)
  {
    hide Written;
    hide Driven;
    hide OneTurn;
    hide AtBoundary;
    hide Harness;
    var spec, log := s[proc.id].spec, proc.mine;
    assert SeenBy(proc) == log;
    var turned := Turned(spec, proc, w);
    var turn := OneTurn(spec, w, log);
    TurnKeepsBoundary(spec, w, log);
    TurnProgress(spec, w, log);
    TurnWrites(spec, w, log, turn.log);
    if turn.Stop? && turn.error.Some? {
      FailedTurn(spec, w, log);
      EndWrites(spec, log, Last(turned.mine));
    } else if turn.Stop? && !Ended(turn.log) {
      StoppedWaiting(spec, w, log);
    }
    assert SeenBy(turned) == log;
  }

  lemma StoppedWaiting(spec: RunSpec, w: World, log: Log)
    requires AtBoundary(spec, log) && !Ended(log) && w.boundary(log).Continue?
    requires OneTurn(spec, w, log).Stop? && OneTurn(spec, w, log).error.None? && !Ended(OneTurn(spec, w, log).log)
    ensures Harness(spec, OneTurn(spec, w, log).log).WaitingForMessage?
  {
    hide OneTurn;
    hide Reduce;
    TurnKeepsBoundary(spec, w, log);
    BoundaryOpen(spec, log);
  }

  lemma StopFollows(s: Store, proc: Proc)
    requires proc.Working? && proc.stage.Looping? && proc.id in s && Follows(s, proc) && !Ended(proc.mine)
    ensures Follows(s, proc.(mine := proc.mine + [RunCancelled], stage := Done))
  {
    hide Written;
    hide AtBoundary;
    hide Harness;
    hide Recover;
    hide Resume;
    hide OneTurn;
    hide Ended;
    var spec, was, log := s[proc.id].spec, SeenBy(proc), proc.mine;
    var cancelled := log + [RunCancelled];
    EndWrites(spec, log, RunCancelled);
    if log != was {
      var w :| DrivenBy(spec, w, was, log);
      StillDriven(spec, w, was, log);
      assert DrivenBy(spec, w, was, cancelled);
    }
    assert cancelled[..proc.seen] == was;
  }

  /** An open batch ended at its boundary is a driver's batch still. */
  lemma StillDriven(spec: RunSpec, w: World, was: Log, now: Log)
    requires DrivenBy(spec, w, was, now) && !Ended(now)
    ensures DrivenBy(spec, w, was, now + [RunCancelled])
  {
    hide Recover;
    hide OneTurn;
    assert Front(now + [RunCancelled]) == now;
  }

  lemma FollowsWrites(s: Store, proc: Proc)
    requires proc.Working? && proc.id in s && Follows(s, proc) && proc.seen < |proc.mine|
    ensures SeenBy(proc) <= s[proc.id].log && Works(s[proc.id].spec, SeenBy(proc), proc.mine)
  {
    hide Written;
    hide Driven;
    hide AtBoundary;
    hide Harness;
    hide Ended;
  }

  /** A worker's append is taken only onto the log it saw, and leaves the store with its own log. */
  lemma TakenExactly(s: Store, proc: Proc)
    requires proc.Working? && proc.id in s && proc.seen < |proc.mine| && SeenBy(proc) <= s[proc.id].log
    ensures var (s', answer) := AppendTo(s, proc.id, Some(proc.seen), proc.mine[proc.seen..]);
            if answer.Appended? then
              && !Ended(s[proc.id].log) && s[proc.id].log == SeenBy(proc)
              && s' == s[proc.id := s[proc.id].(log := proc.mine)]
            else s' == s && (answer.Terminal? ==> Ended(s[proc.id].log)) && !answer.Missing?
  {
    hide Ended;
    var log := s[proc.id].log;
    if !Ended(log) && |log| == proc.seen {
      assert SeenBy(proc) == log;
      assert log + proc.mine[proc.seen..] == proc.mine;
    }
  }

  lemma StoredFollows(s: Store, proc: Proc)
    requires StoreOk(s) && proc.Working? && proc.id in s && Follows(s, proc)
    requires proc.seen < |proc.mine| && s[proc.id].log == SeenBy(proc) && (proc.stage.Looping? ==> !Ended(proc.mine))
    ensures Follows(s[proc.id := s[proc.id].(log := proc.mine)], proc.(seen := |proc.mine|))
  {
    hide Written;
    hide Driven;
    hide AtBoundary;
    hide Harness;
    hide Ended;
    assert proc.mine[..|proc.mine|] == proc.mine;
    WrittenSnoc(s[proc.id].spec, SeenBy(proc), proc.mine);
  }

  lemma StoreLogs(c: Cluster, proc: Proc)
    requires LogInv(c) && LogOk(c.store, proc) && MayLabor(c, proc, Store)
    ensures LogGood(c.store, Labor(c, proc, Store))
  {
    hide Follows;
    hide Works;
    hide StoreOk;
    hide Ended;
    hide AppendTo;
    var s := c.store;
    SameLogs(s);
    FollowsWrites(s, proc);
    TakenExactly(s, proc);
    var log := s[proc.id].log;
    if AppendTo(s, proc.id, Some(proc.seen), proc.mine[proc.seen..]).1.Appended? {
      assert log + proc.mine[proc.seen..] == proc.mine;
      AppendLogs(s, proc.id, proc.mine[proc.seen..]);
      StoredFollows(s, proc);
    }
  }

  lemma LeaveLogs(c: Cluster, proc: Proc)
    requires LogInv(c) && LogOk(c.store, proc) && MayLabor(c, proc, Leave)
    ensures LogGood(c.store, Labor(c, proc, Leave))
  {
    hide Written;
    hide Driven;
    hide Serial;
    hide StoreOk;
    hide Ended;
    hide Harness;
    hide AtBoundary;
    SameLogs(c.store);
  }

  /** Steps of a worker's driver. */
  lemma DriveLogs(c: Cluster, proc: Proc, a: Laboring)
    requires LogInv(c) && LogOk(c.store, proc) && MayLabor(c, proc, a)
    requires a.Begin? || a.Turn? || a.StopHere?
    ensures LogGood(c.store, Labor(c, proc, a))
  {
    hide Harness;
    hide Follows;
    hide StoreOk;
    hide Serial;
    hide Ended;
    hide Began;
    hide Turned;
    var s := c.store;
    SameLogs(s);
    match a {
      case Begin(stopped, decider, w) => BeganFollows(s, proc, stopped, decider, w);
      case Turn(w) => TurnedFollows(s, proc, w);
      case StopHere => StopFollows(s, proc);
    }
  }

  /** Steps that load a log, and the one that ends a run delivered too often. */
  lemma LoadLogs(c: Cluster, proc: Proc, a: Laboring)
    requires LogInv(c) && LogOk(c.store, proc) && MayLabor(c, proc, a)
    requires a.Load? || a.Start? || a.Reload? || a.Fail?
    ensures LogGood(c.store, Labor(c, proc, a))
  {
    hide Queue.Park;
    hide Queue.Release;
    hide Queue.Ack;
    hide Queue.Start;
    hide Queue.Claim;
    hide Harness;
    hide AppendTo;
    hide Turned;
    hide Began;
    hide Follows;
    hide Serial;
    hide Ended;
    hide Written;
    hide AskStateOf;
    var s := c.store;
    SameLogs(s);
    match a {
      case Load =>
      case Start => FreshFollows(s, proc.id, proc.token, proc.log, 0);
      case Reload =>
        if proc.id in s && !Ended(s[proc.id].log) {
          FreshFollows(s, proc.id, proc.token, s[proc.id].log, proc.reloads);
        }
      case Fail => EndLogs(s, proc.id, None, RunFailed(Infrastructure, "started without ending"));
    }
  }

  /** Steps over the queue leave the logs alone. */
  lemma QueueLogs(c: Cluster, proc: Proc, a: Laboring)
    requires LogInv(c) && MayLabor(c, proc, a)
    requires a.Claim? || a.HandBack? || a.LoseLease? || a.Finish? || a.Ack? || a.Release? || a.Park? || a.Recheck?
    ensures LogGood(c.store, Labor(c, proc, a))
  {
    hide Queue.Park;
    hide Queue.Release;
    hide Queue.Ack;
    hide Queue.Start;
    hide Queue.Claim;
    hide Harness;
    hide AppendTo;
    hide Turned;
    hide Began;
    hide Follows;
    hide Serial;
    hide Ended;
    hide StoreOk;
    hide AskStateOf;
    SameLogs(c.store);
  }

  lemma LaborLogs(c: Cluster, proc: Proc, a: Laboring)
    requires LogInv(c) && LogOk(c.store, proc) && MayLabor(c, proc, a)
    ensures LogGood(c.store, Labor(c, proc, a))
  {
    hide LogInv;
    hide LogOk;
    hide MayLabor;
    hide Labor;
    hide LogGood;
    if a.Leave? {
      LeaveLogs(c, proc);
    } else if a.Store? {
      StoreLogs(c, proc);
    } else if a.Begin? || a.Turn? || a.StopHere? {
      DriveLogs(c, proc, a);
    } else if a.Load? || a.Start? || a.Reload? || a.Fail? {
      LoadLogs(c, proc, a);
    } else {
      QueueLogs(c, proc, a);
    }
  }

  // ---------------------------------------------------------------------------
  // Each step of a producer, an answer, a stop, the reaper and time
  // ---------------------------------------------------------------------------

  lemma ProduceLogs(c: Cluster, proc: Proc, a: Producing)
    requires LogInv(c) && MayProduce(c, proc, a)
    ensures LogGood(c.store, Produce(c, proc, a))
  {
    hide StoreOk;
    hide Serial;
    hide Ended;
    hide StillWaiting;
    hide PutRun;
    hide Grows;
    hide Queue.Pend;
    hide Queue.Push;
    hide Queue.PushOnce;
    hide Queue.Unpend;
    hide AppendTo;
    var s := c.store;
    SameLogs(s);
    match a {
      case Put => PutLogs(s, proc.spec);
      case PutFails(_) => PutLogs(s, proc.spec);
      case End => EndLogs(s, proc.id, None, Undelivered(proc.why));
      case Hold => EndLogs(s, proc.id, None, RunCancelled);
      case _ =>
    }
  }

  /** An ask reads open only in a log that was started. */
  lemma {:induction false} OpenIsSent(log: Log, ask: MessageId)
    requires AskStateOf(log, ask).Open?
    ensures exists e :: e in log && SentBy(e).Some?
  {
    if SentBy(Last(log)) != Some(ask) {
      OpenIsSent(Front(log), ask);
      var e :| e in Front(log) && SentBy(e).Some?;
      assert e in log;
    }
  }

  lemma AskedStarted(spec: RunSpec, log: Log, ask: MessageId)
    requires Written(spec, log) && !Ended(log) && AskStateOf(log, ask).Open?
    ensures RunStarted in log && !StillWaiting(log)
  {
    hide Written;
    hide AtRest;
    hide Ended;
    hide AskStateOf;
    WrittenShaped(spec, log);
    OpenIsSent(log, ask);
    assert AtRest(spec, log);
    RestStarted(spec, log);
  }

  lemma RestStarted(spec: RunSpec, log: Log)
    requires AtRest(spec, log)
    ensures RunStarted in log && !StillWaiting(log)
  {
  }

  lemma WaitingStarted(spec: RunSpec, log: Log)
    requires Harness(spec, log).WaitingForMessage?
    ensures RunStarted in log && !StillWaiting(log)
  {
    IdleIffUnstarted(spec, log);
  }

  lemma DeliverLogs(c: Cluster, id: RunId, ask: MessageId, answer: Event, close: bool)
    requires LogInv(c) && AnsweredBy(answer) == Some(ask)
    ensures LogGood(c.store, Serve(c, Free, Deliver(id, ask, answer, close)))
  {
    hide Serial;
    hide Ended;
    hide Written;
    hide StillWaiting;
    hide AskStateOf;
    var s := c.store;
    SameLogs(s);
    if id in s && !Ended(s[id].log) && AskStateOf(s[id].log, ask).Open? {
      AskedStarted(s[id].spec, s[id].log, ask);
    }
  }

  lemma ReplyLogs(c: Cluster, id: RunId, text: string)
    requires LogInv(c) && MayServe(c, Free, Reply(id, text))
    ensures LogGood(c.store, Serve(c, Free, Reply(id, text)))
  {
    hide Serial;
    hide StoreOk;
    hide Ended;
    hide StillWaiting;
    hide Harness;
    SameLogs(c.store);
    WaitingStarted(c.store[id].spec, c.store[id].log);
  }

  lemma ServeLogs(c: Cluster, proc: Proc, a: Serving)
    requires LogInv(c) && LogOk(c.store, proc) && MayServe(c, proc, a)
    ensures LogGood(c.store, Serve(c, proc, a))
  {
    hide Dispatch;
    hide Follows;
    hide StoreOk;
    hide OpenQuestion;
    hide Serial;
    hide Ended;
    hide Written;
    hide AppendTo;
    hide Harness;
    hide StillWaiting;
    hide AskStateOf;
    hide Queue.Wake;
    hide Queue.Reap;
    hide Queue.Expire;
    var s := c.store;
    SameLogs(s);
    match a {
      case Deliver(id, ask, answer, close) => DeliverLogs(c, id, ask, answer, close);
      case Answer => AnswerLogs(s, proc.id, None, proc.answer);
      case Reply(id, text) => ReplyLogs(c, id, text);
      case PutReply => AnswerLogs(s, proc.id, Some(proc.length), UserAnswered(proc.ask, proc.text));
      case Cancel => EndLogs(s, proc.id, Some(proc.length), RunCancelled);
      case _ =>
    }
  }

  // ---------------------------------------------------------------------------
  // Every step
  // ---------------------------------------------------------------------------

  lemma KnownOk(c: Cluster, p: nat)
    requires LogInv(c)
    ensures LogOk(c.store, At(c, p))
  {
  }

  lemma ActedLogs(c: Cluster, a: Action)
    requires LogInv(c) && Enabled(c, a)
    ensures LogGood(c.store, Acted(c, a))
  {
    hide LogGood;
    hide LogOk;
    hide StoreOk;
    hide Produce;
    hide Labor;
    hide Serve;
    hide MayProduce;
    hide MayLabor;
    hide MayServe;
    KnownOk(c, a.p);
    match a {
      case Produces(p, producing) => ProduceLogs(c, At(c, p), producing);
      case Labors(p, laboring) => LaborLogs(c, At(c, p), laboring);
      case Serves(p, serving) => ServeLogs(c, At(c, p), serving);
    }
  }

  /** Every step of every process only adds to logs, and moves each by at most one writer's batch. */
  lemma StepLogs(c: Cluster, a: Action)
    requires LogInv(c) && Enabled(c, a)
    ensures LogInv(Apply(c, a))
    ensures Grows(c.store, Apply(c, a).store)
    ensures Serial(c.store, Apply(c, a).store, Acted(c, a).next)
  {
    hide LogOk;
    hide StoreOk;
    hide Serial;
    hide Grows;
    hide Acted;
    hide Enabled;
    ActedLogs(c, a);
    var o, c' := Acted(c, a), Apply(c, a);
    forall k | k in c'.procs ensures LogOk(c'.store, c'.procs[k]) {
      if k != a.p {
        LogKept(c.store, o.store, c.procs[k]);
      }
    }
  }
}
