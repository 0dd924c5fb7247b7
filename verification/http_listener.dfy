/** The HTTP server as an actor: its listener task and the restart of it
    (meio-connect/src/server/routine.rs, meio-connect/src/server/mod.rs).

  `HyperRoutine` tasks are the only children, all in one group; the handlers are those of the
  server itself.
*/
module HttpListener {
  import opened Lifecycle
  import opened Termination
  import opened ActorContext
  import opened Mailboxes
  import R = ActorRuntimes
  import opened Options

  /** `TaskOver` is the TaskDone of a `HyperRoutine`, `Restart` the scheduled `RestartListener`,
      `Other` stands for routes, address requests and address notices. */
  datatype Message = TaskOver(id: Id, ok: bool) | Restart | Interrupt | Other(tag: nat)

  const UNIT_GROUP: Group := 0

  datatype Server = Server(
    awake: bool,
    ctx: Ctx,
    box: Mailbox<Message>,
    tasks: set<Id>,                 // running HyperRoutine tasks
    retryInterval: Option<nat>,
    used: set<Id>,                  // ids given to tasks so far
    lateRestart: bool)              // a RestartListener was handled while terminating
  {
    function StartHttpListener(id: Id): Server {
      this.(ctx := ctx.(tracker := ctx.tracker.Insert(id, UNIT_GROUP, StopSignal)),
            tasks := tasks + {id}, used := used + {id})
    }

    /** `TaskEliminated<HyperRoutine>`: only a failure outside of termination is retried. */
    function HandleTaskOver(ok: bool, now: int): Server {
      if !ctx.tracker.terminating && !ok && retryInterval.Some?
      then this.(box := box.SendInstant(Parcel(Schedule(now + retryInterval.value), Restart)))
      else this
    }

    /** `Scheduled<RestartListener>`, which does not look at the state of the context. */
    function HandleRestart(id: Id): Server {
      this.(lateRestart := lateRestart || ctx.tracker.terminating).StartHttpListener(id)
    }

    function HandleInterrupt(order: seq<Group>): Server {
      this.(ctx := ctx.Shutdown(order))
    }

    /** The handler for an envelope. */
    function Handle(message: Message, now: int, id: Id, order: seq<Group>): Server {
      match message
      case TaskOver(_, ok) => HandleTaskOver(ok, now)
      case Restart => HandleRestart(id)
      case Interrupt => HandleInterrupt(order)
      case Other(_) => this
    }
  }

  datatype Step =
    | Awake(id: Id)
    | TaskEnds(id: Id, ok: bool)
    | Interrupted
    | Arrives(tag: nat)
    | Poll(now: int, pick: Timed<Message>, doneOrder: seq<Group>, id: Id, order: seq<Group>)
    | Finish

  /** The context after the bookkeeping of a Done, before the handler. */
  function Served(s: Server, now: int, pick: Timed<Message>, doneOrder: seq<Group>): Server {
    var next := s.(box := s.box.Poll(now, pick));
    match s.box.Polled(now, pick)
    case CallDone(id, _) => next.(ctx := s.ctx.ChildDone(id, doneOrder))
    case _ => next
  }

  ghost predicate Enabled(s: Server, step: Step) {
    match step
    case Awake(id) => !s.awake && id !in s.used
    case TaskEnds(id, _) => id in s.tasks
    case Interrupted => true
    case Arrives(_) => true
    case Poll(now, pick, doneOrder, id, order) =>
      var polled := s.box.Polled(now, pick);
      && s.awake && s.box.open && s.ctx.alive && s.box.MayPick(now, pick)
      && (polled.CallDone? ==> s.ctx.tracker.Forget(polled.id).ValidOrder(doneOrder))
      && (polled == Call(Restart) ==> id !in s.used)
      && (polled == Call(Interrupt) ==> s.ctx.tracker.ValidOrder(order))
    case Finish => s.awake && s.box.open && !s.ctx.alive
  }

  function Next(s: Server, step: Step): Server {
    match step
    case Awake(id) => s.(awake := true).StartHttpListener(id)
    case TaskEnds(id, ok) =>
      s.(tasks := s.tasks - {id}, box := s.box.SendInstant(Parcel(Done(id), TaskOver(id, ok))))
    case Interrupted => s.(box := s.box.SendInstant(Parcel(Forward, Interrupt)))
    case Arrives(tag) => s.(box := s.box.SendNormal(Other(tag)))
    case Poll(now, pick, doneOrder, id, order) =>
      var polled := s.box.Polled(now, pick);
      if polled.Call? || polled.CallDone?
      then Served(s, now, pick, doneOrder).Handle(polled.envelope, now, id, order)
      else Served(s, now, pick, doneOrder)
    case Finish => s.(box := s.box.Close())
  }

  function NewServer(retryInterval: Option<nat>): Server {
    Server(false, Ctx(true, NEW_TRACKER.(prioritized := [UNIT_GROUP])), EmptyMailbox(), {}, retryInterval, {}, false)
  }

  ghost predicate Run(states: seq<Server>, steps: seq<Step>) {
    && |states| == |steps| + 1 && states[0] == NewServer(states[0].retryInterval)
    && (forall i | 0 <= i < |steps| :: Enabled(states[i], steps[i]) && states[i + 1] == Next(states[i], steps[i]))
  }

  // ---------------------------------------------------------------------------
  // The handlers on the runtime
  // ---------------------------------------------------------------------------

  class HttpServer {
    const runtime: R.ActorRuntime<Message>
    const retryInterval: Option<nat>
    var awake: bool
    var tasks: set<Id>
    ghost var used: set<Id>
    ghost var lateRestart: bool

    ghost function View(): Server
      reads this, runtime, runtime.context, runtime.context.tracker
    {
      Server(awake, runtime.context.View(), runtime.View(), tasks, retryInterval, used, lateRestart)
    }

    constructor (runtime: R.ActorRuntime<Message>, retryInterval: Option<nat>)
      ensures this.runtime == runtime && View() ==
              Server(false, runtime.context.View(), runtime.View(), {}, retryInterval, {}, false)
    {
      this.runtime, this.retryInterval := runtime, retryInterval;
      awake, tasks, used, lateRestart := false, {}, {}, false;
    }

    method StartHttpListener(id: Id)
      modifies this, runtime.context.tracker
      ensures View() == old(View()).StartHttpListener(id)
    {
      runtime.context.tracker.Insert(id, UNIT_GROUP, StopSignal);
      tasks, used := tasks + {id}, used + {id};
    }

    method HandleTaskOver(ok: bool, now: int)
      modifies runtime`hp, runtime`hpSent
      ensures View() == old(View()).HandleTaskOver(ok, now)
    {
      if !runtime.context.tracker.terminating {
        if !ok {
          if retryInterval.Some? {
            var when := now + retryInterval.value;
            var _ := runtime.HighPrioritySend(Parcel(Schedule(when), Restart));
          }
        }
      }
    }

    method HandleRestart(id: Id)
      modifies this, runtime.context.tracker
      ensures View() == old(View()).HandleRestart(id)
    {
      lateRestart := lateRestart || runtime.context.tracker.terminating;
      StartHttpListener(id);
    }

    method HandleInterrupt() returns (ghost order: seq<Group>)
      modifies runtime.context, runtime.context.tracker
      ensures old(View()).ctx.tracker.ValidOrder(order) && View() == old(View()).HandleInterrupt(order)
    {
      order := runtime.context.Shutdown();
    }

    /** The Awake handler. */
    method HandleAwake(id: Id)
      modifies this, runtime.context.tracker
      ensures View() == Next(old(View()), Step.Awake(id))
    {
      awake := true;
      StartHttpListener(id);
    }

    /** One turn of the runtime with the handler it calls; `id` is fresh. */
    method Turn(now: int, id: Id)
      returns (ghost pick: Timed<Message>, ghost doneOrder: seq<Group>, ghost order: seq<Group>)
      requires awake && runtime.open && runtime.context.alive && id !in used
      modifies this, runtime, runtime.context, runtime.context.tracker
      ensures var step := Step.Poll(now, pick, doneOrder, id, order);
              Enabled(old(View()), step) && View() == Next(old(View()), step)
    {
      hide Mailbox.Poll, Mailbox.Polled, Mailbox.MayPick, Tracker.ValidOrder, Ctx.ChildDone, Ctx.Shutdown;
      hide Mailbox.SendInstant, Server.StartHttpListener;
      order := [];
      var polled;
      polled, pick, doneOrder := runtime.Select(now);
      if polled.Call? || polled.CallDone? {
        match polled.envelope
        case TaskOver(_, ok) => HandleTaskOver(ok, now);
        case Restart => HandleRestart(id);
        case Interrupt => order := HandleInterrupt();
        case Other(_) =>
      }
    }

    /** What the done notifier of a listener does. */
    method NotifyTaskOver(id: Id, ok: bool)
      modifies this`tasks, runtime`hp, runtime`hpSent
      ensures View() == Next(old(View()), TaskEnds(id, ok))
    {
      tasks := tasks - {id};
      var _ := runtime.HighPrioritySend(Parcel(Done(id), TaskOver(id, ok)));
    }
  }

  // ---------------------------------------------------------------------------
  // One token
  // ---------------------------------------------------------------------------

  /** The number of queued parcels that stand for a listener: a TaskDone or a restart. */
  function Tokens(hp: seq<Parcel<Message>>): nat {
    if hp == [] then 0 else (if hp[0].operation.Forward? then 0 else 1) + Tokens(hp[1..])
  }

  lemma {:induction false} TokensSnoc(hp: seq<Parcel<Message>>, p: Parcel<Message>)
    ensures Tokens(hp + [p]) == Tokens(hp) + if p.operation.Forward? then 0 else 1
  {
    if hp != [] {
      TokensSnoc(hp[1..], p);
      assert (hp + [p])[1..] == hp[1..] + [p];
    }
  }

  lemma {:induction false} NoTokensNoDone(hp: seq<Parcel<Message>>, p: Parcel<Message>)
    requires p in hp && !p.operation.Forward?
    ensures Tokens(hp) > 0
  {
    if hp[0] != p {
      NoTokensNoDone(hp[1..], p);
    }
  }

  /** Running listeners, their undispatched TaskDone and pending restarts, together. */
  function AllTokens(s: Server): nat {
    |s.tasks| + Tokens(s.box.hp) + |s.box.delayed|
  }

  /** Operations and messages of the queues belong together. */
  ghost predicate WellSorted(box: Mailbox<Message>) {
    && (forall p <- box.hp :: match p.operation
                              case Forward => p.envelope == Interrupt
                              case Done(id) => p.envelope.TaskOver? && p.envelope.id == id
                              case Schedule(_) => p.envelope == Restart)
    && (forall item <- box.delayed :: item.envelope == Restart)
    && (forall e <- box.lp :: e.Other?)
  }

  predicate DoneQueued(hp: seq<Parcel<Message>>, id: Id) {
    exists p <- hp :: p.operation == Done(id)
  }

  /** The tracked children are the running tasks and those whose TaskDone is queued. */
  ghost predicate Tracked(s: Server) {
    forall id: Id :: id in s.ctx.tracker.records <==> id in s.tasks || DoneQueued(s.box.hp, id)
  }

  /** The ids of the children so far. */
  ghost predicate Known(s: Server) {
    && (forall id <- s.ctx.tracker.records :: id in s.used)
    && (forall id: Id :: s.ctx.tracker.staged[id] > 0 ==> id in s.used)
  }

  ghost predicate Healthy(s: Server) {
    && ActorInv(s.ctx) && Known(s)
    && (if s.box.open then WellSorted(s.box) && Tracked(s) && AllTokens(s) <= (if s.awake then 1 else 0)
        else !s.ctx.alive && AllTokens(s) == 0)
    && (!s.awake ==> s.box.open && s.ctx.alive)
    && (!s.ctx.alive ==> s.ctx.tracker.records == map[])
    && !s.lateRestart
  }

  ghost predicate ActorInv(c: Ctx) {
    Inv(c.tracker) && Waiting(c)
  }

  /** A restart waits in the delay queue, or its schedule is still in the high-priority queue. */
  ghost predicate RestartPending(box: Mailbox<Message>) {
    box.delayed != multiset{} || exists p <- box.hp :: p.operation.Schedule?
  }

  lemma {:induction false} TwoTokens(hp: seq<Parcel<Message>>, p: Parcel<Message>, q: Parcel<Message>)
    requires p in hp && q in hp && p != q && !p.operation.Forward? && !q.operation.Forward?
    ensures Tokens(hp) > 1
  {
    if hp[0] == p {
      NoTokensNoDone(hp[1..], q);
    } else if hp[0] == q {
      NoTokensNoDone(hp[1..], p);
    } else {
      TwoTokens(hp[1..], p, q);
    }
  }

  /** With a restart pending no child is tracked, so the server is not terminating: otherwise
      its shutdown would have stopped it at once. */
  lemma PendingRestartMeansIdle(s: Server)
    requires Healthy(s) && s.box.open && RestartPending(s.box)
    ensures s.ctx.tracker.records == map[] && (s.ctx.alive ==> !s.ctx.tracker.terminating)
  {
    forall id: Id ensures id !in s.ctx.tracker.records {
      if id in s.tasks || DoneQueued(s.box.hp, id) {
        RestartIsTheToken(s, id);
      }
    }
  }

  /** A pending restart leaves no room for a listener, running or reported. */
  lemma RestartIsTheToken(s: Server, id: Id)
    requires Healthy(s) && s.box.open && RestartPending(s.box)
    ensures id !in s.tasks && !DoneQueued(s.box.hp, id)
  {
    hide ActorInv, Known, Tracked;
    if DoneQueued(s.box.hp, id) {
      var p :| p in s.box.hp && p.operation == Done(id);
      NoTokensNoDone(s.box.hp, p);
      if q :| q in s.box.hp && q.operation.Schedule? {
        TwoTokens(s.box.hp, p, q);
      }
    }
    if q :| q in s.box.hp && q.operation.Schedule? {
      NoTokensNoDone(s.box.hp, q);
    }
  }

  lemma StartKeepsKnown(s: Server, id: Id)
    requires ActorInv(s.ctx) && Known(s) && id !in s.used
    ensures var u := s.StartHttpListener(id);
            && ActorInv(u.ctx) && Known(u)
            && u.ctx.tracker.records == s.ctx.tracker.records[id := Record(UNIT_GROUP, StopSignal)]
  {
    var e := Spawned(id, UNIT_GROUP, StopSignal);
    assert id !in s.ctx.tracker.records && s.ctx.tracker.staged[id] == 0;
    StepKeepsWaiting(s.ctx, e);
    hide Inv, Waiting;
    assert React(s.ctx, e) == s.StartHttpListener(id).ctx;
  }

  lemma StartKeeps(s: Server, id: Id)
    requires ActorInv(s.ctx) && Known(s) && Tracked(s) && id !in s.used
    ensures var u := s.StartHttpListener(id);
            && ActorInv(u.ctx) && Known(u) && Tracked(u)
            && |u.tasks| == |s.tasks| + 1
  {
    StartKeepsKnown(s, id);
    assert id !in s.ctx.tracker.records;
    hide ActorInv, Known, DoneQueued;
    assert id !in s.tasks;
  }

  lemma SendTokens(s: Server, p: Parcel<Message>)
    requires s.box.open && WellSorted(s.box) && WellSorted(EmptyMailbox<Message>().(hp := [p]))
    ensures WellSorted(s.box.SendInstant(p))
    ensures Tokens(s.box.SendInstant(p).hp) == Tokens(s.box.hp) + if p.operation.Forward? then 0 else 1
    ensures forall id: Id ::
              DoneQueued(s.box.SendInstant(p).hp, id) <==> DoneQueued(s.box.hp, id) || p.operation == Done(id)
  {
    TokensSnoc(s.box.hp, p);
    assert p in [p] && p in s.box.hp + [p];
    assert forall q :: q in s.box.hp + [p] <==> q in s.box.hp || q == p;
    forall q | q in s.box.hp + [p] ensures match q.operation
                              case Forward => q.envelope == Interrupt
                              case Done(id) => q.envelope.TaskOver? && q.envelope.id == id
                              case Schedule(_) => q.envelope == Restart {
      if q == p { assert q in EmptyMailbox<Message>().(hp := [p]).hp; }
    }
  }

  lemma TakeTokens(box: Mailbox<Message>)
    requires box.hp != [] && WellSorted(box)
    ensures Tokens(box.hp[1..]) == Tokens(box.hp) - if box.hp[0].operation.Forward? then 0 else 1
    ensures WellSorted(box.TakeParcel())
    ensures forall id: Id :: DoneQueued(box.hp[1..], id) ==> DoneQueued(box.hp, id)
    ensures forall id: Id :: DoneQueued(box.hp, id) ==> DoneQueued(box.hp[1..], id) || box.hp[0].operation == Done(id)
  {
    assert box.hp == [box.hp[0]] + box.hp[1..];
    assert box.hp[0] in box.hp;
  }

  /** Only tracked children get staged interrupts. */
  lemma ContextKeepsKnown(s: Server, e: Event)
    requires ActorInv(s.ctx) && Known(s) && Possible(s.ctx, e) && (e.ChildDone? || e.Shutdown?)
    ensures var u := s.(ctx := React(s.ctx, e)); ActorInv(u.ctx) && Known(u)
    ensures React(s.ctx, e).tracker.records ==
            if e.ChildDone? then s.ctx.tracker.records - {e.id} else s.ctx.tracker.records
    ensures !React(s.ctx, e).alive && s.ctx.alive ==> React(s.ctx, e).tracker.records == map[]
  {
    StepKeepsWaiting(s.ctx, e);
    if e.ChildDone? {
      DoneDecides(s.ctx, e.id, e.order);
      assert s.ctx.tracker.records[e.id].group in s.ctx.tracker.stages;
    } else {
      ShutdownDecides(s.ctx, e.order);
    }
  }

  lemma AwakeKeeps(s: Server, id: Id)
    requires Healthy(s) && !s.awake && id !in s.used
    ensures Healthy(Next(s, Step.Awake(id)))
  {
    StartKeeps(s, id);
    hide ActorInv, Known, Tracked, WellSorted, Tokens;
    var u := s.StartHttpListener(id);
  }

  lemma TaskEndsKeeps(s: Server, id: Id, ok: bool)
    requires Healthy(s) && id in s.tasks
    ensures Healthy(Next(s, TaskEnds(id, ok)))
  {
    if s.box.open {
      var p := Parcel(Done(id), TaskOver(id, ok));
      SendTokens(s, p);
    }
  }

  lemma InterruptedKeeps(s: Server)
    requires Healthy(s)
    ensures Healthy(Next(s, Interrupted))
  {
    if s.box.open {
      SendTokens(s, Parcel(Forward, Interrupt));
    }
  }

  lemma SameContextSameKnown(s: Server, u: Server)
    requires Known(s) && u.ctx == s.ctx && u.used == s.used
    ensures Known(u)
  {
  }

  /** A change that moves no token. */
  lemma SameTokensKeep(s: Server, u: Server)
    requires Healthy(s) && s.awake && s.box.open
    requires ActorInv(u.ctx) && Known(u) && u.ctx.tracker.records == s.ctx.tracker.records
    requires !u.ctx.alive ==> u.ctx.tracker.records == map[]
    requires u.awake && u.box.open && WellSorted(u.box) && u.tasks == s.tasks && !u.lateRestart
    requires Tokens(u.box.hp) == Tokens(s.box.hp) && u.box.delayed == s.box.delayed
    requires forall id: Id :: DoneQueued(u.box.hp, id) <==> DoneQueued(s.box.hp, id)
    ensures Healthy(u)
  {
    hide ActorInv, Known, WellSorted, Tokens, DoneQueued;
  }

  /** A queued interrupt is handled by `shutdown`. */
  lemma ServeInterruptKeeps(s: Server, order: seq<Group>)
    requires Healthy(s) && s.awake && s.box.open && s.ctx.alive && s.ctx.tracker.ValidOrder(order)
    requires s.box.hp != [] && s.box.hp[0].operation.Forward?
    ensures Healthy(s.(box := s.box.TakeParcel()).HandleInterrupt(order))
  {
    TakeTokens(s.box);
    ContextKeepsKnown(s, Event.Shutdown(order));
    var u := s.(box := s.box.TakeParcel()).HandleInterrupt(order);
    assert u.ctx == React(s.ctx, Event.Shutdown(order));
    SameContextSameKnown(s.(ctx := u.ctx), u);
    assert !u.lateRestart;
    hide Healthy, ActorInv, Known, WellSorted, Tokens, DoneQueued, React, Ctx.Shutdown, Tracker.ValidOrder;
    SameTokensKeep(s, u);
  }

  /** A queued schedule of a restart becomes a delayed restart. */
  lemma DeferKeeps(s: Server)
    requires Healthy(s) && s.awake && s.box.open
    requires s.box.hp != [] && s.box.hp[0].operation.Schedule?
    ensures Healthy(s.(box := s.box.TakeParcel()))
  {
    TakeTokens(s.box);
    hide ActorInv, Known, WellSorted, Tokens;
  }

  /** The queued TaskDone of a listener is the only token there is. */
  lemma DoneIsTheToken(s: Server, id: Id)
    requires Healthy(s) && s.awake && s.box.open && s.box.hp != [] && s.box.hp[0].operation == Done(id)
    ensures s.tasks == {} && s.box.delayed == multiset{} && Tokens(s.box.hp[1..]) == 0
    ensures id in s.ctx.tracker.records && s.ctx.tracker.records - {id} == map[]
    ensures forall c: Id :: !DoneQueued(s.box.hp[1..], c)
  {
    hide ActorInv, Known;
    TakeTokens(s.box);
    assert s.box.hp[0] in s.box.hp;
    forall c: Id ensures !DoneQueued(s.box.hp[1..], c) {
      if DoneQueued(s.box.hp[1..], c) {
        var p :| p in s.box.hp[1..] && p.operation == Done(c);
        NoTokensNoDone(s.box.hp[1..], p);
      }
    }
  }

  /** The Done of a listener takes its record away, and at most one restart takes its place. */
  lemma ServeDoneKeeps(s: Server, id: Id, ok: bool, now: int, order: seq<Group>)
    requires Healthy(s) && s.awake && s.box.open && s.ctx.alive
    requires s.box.hp != [] && s.box.hp[0] == Parcel(Done(id), TaskOver(id, ok))
    requires s.ctx.tracker.Forget(id).ValidOrder(order)
    ensures Healthy(s.(box := s.box.TakeParcel(), ctx := s.ctx.ChildDone(id, order)).HandleTaskOver(ok, now))
  {
    var u := s.(box := s.box.TakeParcel(), ctx := s.ctx.ChildDone(id, order));
    DoneIsTheToken(s, id);
    TakeTokens(s.box);
    ContextKeepsKnown(s, Event.ChildDone(id, order));
    SameContextSameKnown(s.(ctx := u.ctx), u);
    hide ActorInv, Known, Ctx.ChildDone, Tracker.ValidOrder, Tracker.Forget, DoneQueued, Tokens;
    assert Tracked(u);
    if u.HandleTaskOver(ok, now) != u {
      SendTokens(u, Parcel(Schedule(now + s.retryInterval.value), Restart));
    }
  }

  /** A due restart starts a listener in its own place. */
  lemma ServeRestartKeeps(s: Server, pick: Timed<Message>, now: int, id: Id)
    requires Healthy(s) && s.awake && s.box.open && s.ctx.alive
    requires s.box.hp == [] && s.box.IsDue(pick, now) && id !in s.used
    ensures Healthy(s.(box := s.box.TakeDue(pick, now)).HandleRestart(id))
  {
    PendingRestartMeansIdle(s);
    var u := s.(box := s.box.TakeDue(pick, now));
    assert |u.box.delayed| == |s.box.delayed| - 1;
    StartKeeps(u, id);
  }

  lemma NextParcel(s: Server, now: int, pick: Timed<Message>, doneOrder: seq<Group>, id: Id, order: seq<Group>)
    requires s.box.hp != []
    ensures var p, taken := s.box.hp[0], s.(box := s.box.TakeParcel());
            Next(s, Step.Poll(now, pick, doneOrder, id, order)) ==
            match p.operation
            case Forward => taken.Handle(p.envelope, now, id, order)
            case Done(child) => taken.(ctx := s.ctx.ChildDone(child, doneOrder)).Handle(p.envelope, now, id, order)
            case Schedule(_) => taken
  {
    hide Server.Handle, Ctx.ChildDone, Mailbox.TakeParcel;
  }

  lemma PollParcelKeeps(s: Server, now: int, pick: Timed<Message>, doneOrder: seq<Group>, id: Id, order: seq<Group>)
    requires var step := Step.Poll(now, pick, doneOrder, id, order); Healthy(s) && Enabled(s, step)
    requires s.box.hp != []
    ensures Healthy(Next(s, Step.Poll(now, pick, doneOrder, id, order)))
  {
    NextParcel(s, now, pick, doneOrder, id, order);
    assert s.box.open && WellSorted(s.box);
    hide Healthy, Next, Ctx.ChildDone, Ctx.Shutdown, Tracker.ValidOrder, Tracker.Forget;
    hide Mailbox.TakeParcel, Mailbox.MayPick;
    hide Server.HandleTaskOver, Server.HandleRestart, Server.HandleInterrupt;
    var p := s.box.hp[0];
    assert p in s.box.hp;
    match p.operation
    case Forward => ServeInterruptKeeps(s, order);
    case Done(child) => ServeDoneKeeps(s, child, p.envelope.ok, now, doneOrder);
    case Schedule(_) => DeferKeeps(s);
  }

  lemma ServeOtherKeeps(s: Server, now: int, pick: Timed<Message>, doneOrder: seq<Group>, id: Id, order: seq<Group>)
    requires var step := Step.Poll(now, pick, doneOrder, id, order); Healthy(s) && Enabled(s, step)
    requires s.box.hp == [] && !s.box.IsDue(pick, now)
    ensures Healthy(Next(s, Step.Poll(now, pick, doneOrder, id, order)))
  {
    assert s.box.lp != [] ==> s.box.lp[0] in s.box.lp;
  }

  lemma PollKeeps(s: Server, now: int, pick: Timed<Message>, doneOrder: seq<Group>, id: Id, order: seq<Group>)
    requires var step := Step.Poll(now, pick, doneOrder, id, order); Healthy(s) && Enabled(s, step)
    ensures Healthy(Next(s, Step.Poll(now, pick, doneOrder, id, order)))
  {
    if s.box.hp != [] {
      PollParcelKeeps(s, now, pick, doneOrder, id, order);
    } else if s.box.IsDue(pick, now) {
      ServeRestartKeeps(s, pick, now, id);
      hide Healthy;
    } else {
      ServeOtherKeeps(s, now, pick, doneOrder, id, order);
      hide Healthy;
    }
  }

  /** A server that has left its routine has no listener left. */
  lemma FinishKeeps(s: Server)
    requires Healthy(s) && s.box.open && s.awake && !s.ctx.alive
    ensures Healthy(Next(s, Finish))
  {
    SameContextSameKnown(s, Next(s, Finish));
    hide ActorInv, Known;
    assert forall id <- s.tasks :: id in s.ctx.tracker.records;
    assert s.tasks == {};
  }

  lemma StepKeepsHealthy(s: Server, step: Step)
    requires Healthy(s) && Enabled(s, step)
    ensures Healthy(Next(s, step))
  {
    match step
    case Awake(id) => AwakeKeeps(s, id);
    case TaskEnds(id, ok) => TaskEndsKeeps(s, id, ok);
    case Interrupted => InterruptedKeeps(s);
    case Arrives(tag) =>
    case Poll(now, pick, doneOrder, id, order) => PollKeeps(s, now, pick, doneOrder, id, order);
    case Finish => FinishKeeps(s);
  }

  lemma {:induction false} HealthyHolds(states: seq<Server>, steps: seq<Step>, i: nat)
    requires Run(states, steps) && i < |states|
    ensures Healthy(states[i])
  {
    hide Healthy, Enabled, Next, NewServer;
    if i == 0 {
      assert Healthy(states[0]) by { NewServerIsHealthy(states[0].retryInterval); }
    } else {
      HealthyHolds(states, steps, i - 1);
      StepKeepsHealthy(states[i - 1], steps[i - 1]);
    }
  }

  lemma NewServerIsHealthy(retryInterval: Option<nat>)
    ensures Healthy(NewServer(retryInterval))
  {
  }

  /** In every state of every run at most one listener runs, is being reported, or is to be
      restarted; a finished server has none; and no restart is ever handled by a terminating
      server although its handler does not ask. */
  lemma AtMostOneListener(states: seq<Server>, steps: seq<Step>, i: nat)
    requires Run(states, steps) && i < |states|
    ensures AllTokens(states[i]) <= 1
    ensures !states[i].box.open ==> states[i].tasks == {}
    ensures !states[i].lateRestart
  {
    HealthyHolds(states, steps, i);
  }

  /** An interrupt that finds a restart pending stops the server at once. */
  lemma InterruptCancelsRestart(states: seq<Server>, steps: seq<Step>, i: nat, order: seq<Group>)
    requires Run(states, steps) && i < |states|
    requires states[i].box.open && RestartPending(states[i].box) && states[i].ctx.tracker.ValidOrder(order)
    ensures !states[i].HandleInterrupt(order).ctx.alive
  {
    HealthyHolds(states, steps, i);
    PendingRestartMeansIdle(states[i]);
    ShutdownDecides(states[i].ctx, order);
  }

  // ---------------------------------------------------------------------------
  // The server is an actor like any other
  // ---------------------------------------------------------------------------

  /** What a step means to the context of the server. */
  function EventsOf(s: Server, step: Step): seq<Event> {
    match step
    case Awake(id) => [Spawned(id, UNIT_GROUP, StopSignal)]
    case Poll(now, pick, doneOrder, id, order) =>
      (match s.box.Polled(now, pick)
       case CallDone(child, _) => [Event.ChildDone(child, doneOrder)]
       case Call(Restart) => [Spawned(id, UNIT_GROUP, StopSignal)]
       case Call(Interrupt) => [Event.Shutdown(order)]
       case _ => [])
    case _ => []
  }

  lemma FreshId(s: Server, id: Id)
    requires Healthy(s) && id !in s.used
    ensures Fresh(s.ctx.tracker, id)
  {
  }

  lemma ServedDone(s: Server, now: int, pick: Timed<Message>)
    requires Healthy(s) && s.box.open && s.box.Polled(now, pick).CallDone?
    ensures var polled := s.box.Polled(now, pick);
            polled.envelope.TaskOver? && polled.id in s.ctx.tracker.records
  {
    assert s.box.hp[0] in s.box.hp;
  }

  lemma PollContext(s: Server, now: int, pick: Timed<Message>, doneOrder: seq<Group>, id: Id, order: seq<Group>)
    requires var step := Step.Poll(now, pick, doneOrder, id, order); Healthy(s) && Enabled(s, step)
    ensures var step := Step.Poll(now, pick, doneOrder, id, order);
            ContextMoves(s.ctx, EventsOf(s, step), Next(s, step).ctx)
  {
    hide Healthy, Mailbox.Poll, Mailbox.Polled, Mailbox.MayPick, Tracker.ValidOrder, Tracker.Forget, Tracker.Insert;
    hide Ctx.ChildDone, Ctx.Shutdown, Fresh;
    if s.box.Polled(now, pick).CallDone? {
      ServedDone(s, now, pick);
    } else if s.box.Polled(now, pick) == Call(Restart) {
      FreshId(s, id);
    }
  }

  /** A step changes the context by the event it names, which is possible. */
  lemma ContextStep(s: Server, step: Step)
    requires Healthy(s) && Enabled(s, step)
    ensures ContextMoves(s.ctx, EventsOf(s, step), Next(s, step).ctx)
  {
    match step
    case Awake(id) => FreshId(s, id);
    case Poll(now, pick, doneOrder, id, order) => PollContext(s, now, pick, doneOrder, id, order);
    case _ =>
  }

  ghost predicate MailKept(box: Mailbox<Message>) {
    Conserved(box) && AllPunctual(box)
  }

  lemma ActKeeps(box: Mailbox<Message>, act: Act<Message>)
    requires MailKept(box) && Mailboxes.Legal(box, act)
    ensures MailKept(Mailboxes.Apply(box, act))
  {
    hide Conserved, AllPunctual, Mailboxes.Legal, Mailboxes.Apply;
    StepKeepsConserved(box, act);
    StepKeepsPunctual(box, act);
  }

  /** After the poll the handler of a TaskDone may schedule a restart; nothing else is sent. */
  lemma PollSends(s: Server, step: Step)
    requires Enabled(s, step) && step.Poll?
    ensures var served := s.box.Poll(step.now, step.pick);
            || Next(s, step).box == served
            || (s.retryInterval.Some? &&
                Next(s, step).box == served.SendInstant(Parcel(Schedule(step.now + s.retryInterval.value), Restart)))
  {
    hide Mailbox.Poll, Mailbox.Polled, Mailbox.MayPick, Mailbox.SendInstant, Tracker.ValidOrder;
    hide Ctx.ChildDone, Ctx.Shutdown, Tracker.Insert;
  }

  /** A step serves the mailbox by at most two acts: the poll, and what the handler sends. */
  lemma MailStep(s: Server, step: Step)
    requires Enabled(s, step) && MailKept(s.box)
    ensures MailKept(Next(s, step).box)
  {
    hide MailKept, Mailbox.MayPick, Mailbox.Polled, Mailbox.Poll, Tracker.ValidOrder;
    match step
    case Awake(_) =>
    case TaskEnds(id, ok) => ActKeeps(s.box, Act.SendInstant(Parcel(Done(id), TaskOver(id, ok))));
    case Interrupted => ActKeeps(s.box, Act.SendInstant(Parcel(Forward, Interrupt)));
    case Arrives(tag) => ActKeeps(s.box, Act.SendNormal(Other(tag)));
    case Poll(now, pick, _, _, _) =>
      PollSends(s, step);
      ActKeeps(s.box, Act.Poll(now, pick));
      hide Next;
      if s.retryInterval.Some? {
        ActKeeps(s.box.Poll(now, pick), Act.SendInstant(Parcel(Schedule(now + s.retryInterval.value), Restart)));
      }
    case Finish => ActKeeps(s.box, Act.Close);
  }

  /** The events of the first `i` steps. */
  function LifeEvents(states: seq<Server>, steps: seq<Step>, i: nat): seq<Event>
    requires i <= |steps| < |states|
  {
    if i == 0 then [] else LifeEvents(states, steps, i - 1) + EventsOf(states[i - 1], steps[i - 1])
  }

  /** In every run the context of the server lives the life of a context, so its stop decisions
      are those of a plain set of listeners; and its mailbox keeps what every mailbox keeps. */
  lemma {:induction false} ServerLives(states: seq<Server>, steps: seq<Step>, i: nat) returns (cs: seq<Ctx>)
    requires Run(states, steps) && i < |states|
    ensures |states| == |steps| + 1
    ensures var es := LifeEvents(states, steps, i);
            && Life(cs, es) && Born(cs[0]) && cs[|es|] == states[i].ctx
            && Abstract(states[i].ctx) == PlainRun(Plain(true, false, {}), es, |es|)
    ensures MailKept(states[i].box)
  {
    hide Healthy, Enabled, Next, EventsOf, Life, ContextMoves, MailKept, PlainRun;
    if i == 0 {
      cs := [states[0].ctx];
      LifeBegins(states[0].ctx);
      EmptyIsKept();
    } else {
      cs := ServerLives(states, steps, i - 1);
      HealthyHolds(states, steps, i - 1);
      ContextStep(states[i - 1], steps[i - 1]);
      MailStep(states[i - 1], steps[i - 1]);
      cs := LifeSnoc(cs, LifeEvents(states, steps, i - 1), EventsOf(states[i - 1], steps[i - 1]), states[i].ctx);
    }
    BornRefinesPlain(cs, LifeEvents(states, steps, i));
  }

  lemma EmptyIsKept()
    ensures MailKept(EmptyMailbox<Message>())
  {
  }

  // ---------------------------------------------------------------------------
  // When a restart is scheduled
  // ---------------------------------------------------------------------------

  /** A poll that hands out the TaskDone of a listener schedules a restart, at the end of the
      interval, if and only if the listener failed, an interval is set and the server is not
      terminating; otherwise it sends nothing. */
  lemma RestartExactly(s: Server, now: int, pick: Timed<Message>, doneOrder: seq<Group>, id: Id, order: seq<Group>)
    requires Enabled(s, Step.Poll(now, pick, doneOrder, id, order))
    requires s.box.Polled(now, pick).CallDone? && s.box.Polled(now, pick).envelope.TaskOver?
    ensures var u := Next(s, Step.Poll(now, pick, doneOrder, id, order));
            var polled := s.box.Poll(now, pick);
            if !s.box.Polled(now, pick).envelope.ok && s.retryInterval.Some? && !s.ctx.tracker.terminating
            then
              var restart := Parcel(Schedule(now + s.retryInterval.value), Restart);
              u.box == polled.(hp := polled.hp + [restart], hpSent := polled.hpSent + [restart])
            else u.box == polled
  {
    SameTerminating(s.ctx, s.box.Polled(now, pick).id, doneOrder);
    PollKeepsOpen(s.box, now, pick);
    hide Mailbox.Poll, Mailbox.Polled, Mailbox.MayPick, Tracker.ValidOrder, Ctx.ChildDone;
  }

  /** What reaches an open server from outside, and in which queue; a finished one takes nothing. */
  lemma MailExactly(s: Server, step: Step)
    requires step.TaskEnds? || step.Interrupted? || step.Arrives?
    ensures var b, c := s.box, Next(s, step).box;
            if !b.open then c == b
            else
              match step
              case TaskEnds(id, ok) =>
                && c.hp == b.hp + [Parcel(Done(id), TaskOver(id, ok))] && c.lp == b.lp
                && Next(s, step).tasks == s.tasks - {id}
              case Interrupted => c.hp == b.hp + [Parcel(Forward, Interrupt)] && c.lp == b.lp
              case Arrives(tag) => c.hp == b.hp && c.lp == b.lp + [Other(tag)]
              case _ => true
  {
  }

  /** Every other call of a handler sends nothing. */
  lemma OthersSendNothing(s: Server, now: int, pick: Timed<Message>, doneOrder: seq<Group>, id: Id, order: seq<Group>)
    requires Enabled(s, Step.Poll(now, pick, doneOrder, id, order))
    requires var polled := s.box.Polled(now, pick);
             polled.Call? || polled.CallDone? ==> !polled.envelope.TaskOver?
    ensures Next(s, Step.Poll(now, pick, doneOrder, id, order)).box == s.box.Poll(now, pick)
  {
    hide Mailbox.Poll, Mailbox.Polled, Mailbox.MayPick, Tracker.ValidOrder, Ctx.ChildDone, Ctx.Shutdown;
  }

  lemma SameTerminating(c: Ctx, id: Id, order: seq<Group>)
    ensures c.ChildDone(id, order).tracker.terminating == c.tracker.terminating
  {
  }

  lemma PollKeepsOpen(m: Mailbox<Message>, now: int, pick: Timed<Message>)
    ensures m.Poll(now, pick).open == m.open && m.Poll(now, pick).hpSent == m.hpSent
  {
  }

  /** Step `j` handled the failure of a listener, one interval before `deadline`. */
  ghost predicate FailureHandled(states: seq<Server>, steps: seq<Step>, j: nat, deadline: int)
    requires j < |steps| && j < |states|
  {
    && steps[j].Poll? && states[j].retryInterval.Some?
    && deadline == steps[j].now + states[j].retryInterval.value
    && !states[j].ctx.tracker.terminating
    && match states[j].box.Polled(steps[j].now, steps[j].pick)
       case CallDone(id, TaskOver(over, ok)) => id == over && !ok
       case _ => false
  }

  /** What a step of a healthy server adds to its urgent mail. */
  lemma SentStep(s: Server, step: Step, p: Parcel<Message>)
    requires Healthy(s) && Enabled(s, step)
    requires p in Next(s, step).box.hpSent && p !in s.box.hpSent && p.operation.Schedule?
    ensures FailureHandled([s], [step], 0, p.operation.deadline) && p.envelope == Restart
  {
    match step
    case Poll(now, pick, doneOrder, id, order) =>
      PollKeepsOpen(s.box, now, pick);
      var polled := s.box.Polled(now, pick);
      if s.box.hp != [] {
        assert s.box.hp[0] in s.box.hp;
      } else if s.box.IsDue(pick, now) {
        assert pick in s.box.delayed;
      } else if s.box.lp != [] {
        assert s.box.lp[0] in s.box.lp;
      }
      assert polled.Call? ==> !polled.envelope.TaskOver?;
      assert polled.CallDone? ==> polled.envelope.TaskOver? && polled.envelope.id == polled.id;
      hide Healthy, Next, Mailbox.Poll, Mailbox.Polled, Enabled;
      if polled.CallDone? {
        RestartExactly(s, now, pick, doneOrder, id, order);
      } else {
        OthersSendNothing(s, now, pick, doneOrder, id, order);
      }
    case _ =>
  }

  /** In every run each scheduled restart was scheduled by the handler of a failed listener. */
  lemma {:induction false} RestartsFollowFailures(states: seq<Server>, steps: seq<Step>, i: nat, p: Parcel<Message>)
    returns (j: nat)
    requires Run(states, steps) && i < |states| && p in states[i].box.hpSent && p.operation.Schedule?
    ensures |states| == |steps| + 1 && j < i && p.envelope == Restart
    ensures FailureHandled(states, steps, j, p.operation.deadline)
  {
    hide Healthy, Enabled, Next, FailureHandled;
    if p in states[i - 1].box.hpSent {
      j := RestartsFollowFailures(states, steps, i - 1, p);
    } else {
      HealthyHolds(states, steps, i - 1);
      SentStep(states[i - 1], steps[i - 1], p);
      j := i - 1;
      SameFailure(states, steps, j, p.operation.deadline);
    }
  }

  lemma SameFailure(states: seq<Server>, steps: seq<Step>, j: nat, deadline: int)
    requires j < |steps| && j < |states|
    ensures FailureHandled(states, steps, j, deadline) <==> FailureHandled([states[j]], [steps[j]], 0, deadline)
  {
  }
}
