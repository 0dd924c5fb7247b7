/** Every node of the tree lives the life of one context and one mailbox
    (meio/src/actor_runtime.rs): what holds of those holds of every node. */
module SupervisionLives {
  import opened Lifecycle
  import opened Termination
  import opened ActorContext
  import M = Mailboxes
  import opened Options
  import opened Supervision
  import opened SupervisionTree

  // ---------------------------------------------------------------------------
  // One step of one node
  // ---------------------------------------------------------------------------

  /** What a step means to the context of `x`: one event, or nothing. */
  function EventsOf(s: Sys, step: Step, x: Id): seq<Event> {
    if x !in s then []
    else
      match step
      case Inserted(a) =>
        if a == x && s[x].pending.Some?
        then
          var Child(c, group) := s[x].pending.value;
          [Event.Spawned(c, group, NotifierOf(c in s && s[c].task))]
        else []
      case Shutdown(a, order) => if a == x then [Event.Shutdown(order)] else []
      case Stop(a) => if a == x then [Event.Stop] else []
      case TerminateGroup(a, group) => if a == x then [Event.TerminateGroup(group)] else []
      case Poll(a, now, pick, order) =>
        if a == x && s[x].box.Polled(now, pick).CallDone?
        then [Event.ChildDone(s[x].box.Polled(now, pick).id, order)]
        else []
      case _ => []
  }

  ghost predicate BoxMoves(m: M.Mailbox<Message>, u: M.Mailbox<Message>) {
    u == m || exists act :: M.Legal(m, act) && u == M.Apply(m, act)
  }

  lemma NotifyMoves(s: Sys, t: Tracker, hit: set<Id>, x: Id)
    requires x in s
    ensures x in Notify(s, t, hit) && Notify(s, t, hit)[x].ctx == s[x].ctx
    ensures BoxMoves(s[x].box, Notify(s, t, hit)[x].box)
    ensures x !in hit ==> Notify(s, t, hit)[x] == s[x]
  {
    var act := M.SendInstant(M.Parcel(M.Forward, Interrupt));
    assert M.Legal(s[x].box, act) && s[x].box.SendInstant(act.parcel) == M.Apply(s[x].box, act);
  }

  lemma RecordMoves(s: Sys, a: Id, x: Id)
    requires a in s && x in s && s[a].pending.Some? && Sound(s[a]) && s[a].pending.value.id in s
    ensures x in RecordChild(s, a)
    ensures ContextMoves(s[x].ctx, EventsOf(s, Inserted(a), x), RecordChild(s, a)[x].ctx)
    ensures BoxMoves(s[x].box, RecordChild(s, a)[x].box)
  {
    hide BoxMoves;
    var n := s[a];
    var Child(c, group) := n.pending.value;
    var e := Event.Spawned(c, group, NotifierOf(s[c].task));
    assert Possible(n.ctx, e);
    hide Sound;
    var t := n.ctx.tracker.Insert(c, group, NotifierOf(s[c].task));
    assert React(n.ctx, e) == n.ctx.(tracker := t);
    NotifyMoves(s[a := n.(pending := None, ctx := n.ctx.(tracker := t))], t,
                if n.ctx.tracker.StageOf(group).terminating then {c} else {}, x);
  }

  lemma PollMoves(s: Sys, a: Id, now: int, pick: M.Timed<Message>, order: seq<Group>, x: Id)
    requires a in s && x in s && s[a].box.open && s[a].box.MayPick(now, pick)
    requires s[a].box.Polled(now, pick).CallDone? ==>
               var id := s[a].box.Polled(now, pick).id;
               && id in s[a].ctx.tracker.records && s[a].ctx.tracker.Forget(id).ValidOrder(order)
               && a !in DoneHit(s[a].ctx.tracker, id, order)
    ensures var u := Dispatch(s, a, now, pick, order);
            x in u && ContextMoves(s[x].ctx, EventsOf(s, Step.Poll(a, now, pick, order), x), u[x].ctx)
    ensures BoxMoves(s[x].box, Dispatch(s, a, now, pick, order)[x].box)
  {
    hide M.Mailbox.Poll, M.Mailbox.Polled, M.Mailbox.MayPick, Tracker.ValidOrder, Ctx.ChildDone, DoneHit;
    var act := M.Poll(now, pick);
    assert M.Legal(s[a].box, act) && M.Apply(s[a].box, act) == s[a].box.Poll(now, pick);
    match s[a].box.Polled(now, pick) {
      case CallDone(id, _) =>
        var e := Event.ChildDone(id, order);
        assert Possible(s[a].ctx, e) && React(s[a].ctx, e) == s[a].ctx.ChildDone(id, order);
        NotifyMoves(s[a := DoneTaken(s[a], now, pick, id, order)], s[a].ctx.tracker.Forget(id),
                    DoneHit(s[a].ctx.tracker, id, order), x);
      case _ =>
    }
  }

  lemma NotSelfHit(s: Sys, a: Id, id: Id, order: seq<Group>)
    requires SysInv(s) && a in s
    ensures a !in DoneHit(s[a].ctx.tracker, id, order)
  {
    hide NodeInv;
    NotOwnChild(s, a);
  }

  lemma ShutdownMoves(s: Sys, a: Id, order: seq<Group>, x: Id)
    requires Enabled(s, Step.Shutdown(a, order)) && x in s
    ensures x in ShutDown(s, a, order)
    ensures ContextMoves(s[x].ctx, EventsOf(s, Step.Shutdown(a, order), x), ShutDown(s, a, order)[x].ctx)
    ensures BoxMoves(s[x].box, ShutDown(s, a, order)[x].box)
  {
    hide Tracker.ValidOrder, BoxMoves, Ctx.Shutdown, Tracker.Hit;
    var e := Event.Shutdown(order);
    assert Possible(s[a].ctx, e) && React(s[a].ctx, e) == s[a].ctx.Shutdown(order);
    var t := s[a].ctx.tracker;
    NotifyMoves(s[a := s[a].(ctx := s[a].ctx.Shutdown(order))], t, t.Hit(order), x);
  }

  lemma GroupMoves(s: Sys, a: Id, group: Group, x: Id)
    requires a in s && x in s
    ensures x in InterruptGroup(s, a, group)
    ensures ContextMoves(s[x].ctx, EventsOf(s, Step.TerminateGroup(a, group), x), InterruptGroup(s, a, group)[x].ctx)
    ensures BoxMoves(s[x].box, InterruptGroup(s, a, group)[x].box)
  {
    hide BoxMoves, Tracker.GroupHit;
    var t := s[a].ctx.tracker;
    var e := Event.TerminateGroup(group);
    assert Possible(s[a].ctx, e) && React(s[a].ctx, e) == s[a].ctx.(tracker := t.TerminateGroup(group));
    NotifyMoves(s[a := s[a].(ctx := s[a].ctx.(tracker := t.TerminateGroup(group)))], t, t.GroupHit(group), x);
  }

  lemma FinishMoves(s: Sys, a: Id, x: Id)
    requires a in s && x in s
    ensures x in SendDone(s, a) && SendDone(s, a)[x].ctx == s[x].ctx
    ensures BoxMoves(s[x].box, SendDone(s, a)[x].box)
  {
    var act := M.SendInstant(DoneParcel(a));
    assert M.Legal(s[x].box, act) && M.Apply(s[x].box, act) == s[x].box.SendInstant(DoneParcel(a));
  }

  /** A step changes the context of a node by its event, if it has one, which is possible, and the
      mailbox of a node by at most one legal act. */
  lemma StepMoves(s: Sys, step: Step, x: Id)
    requires SysInv(s) && Enabled(s, step) && x in s
    ensures x in Next(s, step) && ContextMoves(s[x].ctx, EventsOf(s, step, x), Next(s, step)[x].ctx)
    ensures BoxMoves(s[x].box, Next(s, step)[x].box)
  {
    hide SysInv, Tracker.ValidOrder, M.Mailbox.MayPick, M.Mailbox.Polled, M.Mailbox.Poll;
    match step
    case Shutdown(a, order) => ShutdownMoves(s, a, order, x);
    case TerminateGroup(a, group) => GroupMoves(s, a, group, x);
    case Inserted(a) =>
      SoundNode(s, a);
      PendingIsChild(s, a);
      RecordMoves(s, a, x);
    case Poll(a, now, pick, order) =>
      SoundNode(s, a);
      if s[a].box.Polled(now, pick).CallDone? {
        DoneMeansTracked(s, a, now, pick);
        NotSelfHit(s, a, s[a].box.Polled(now, pick).id, order);
      }
      PollMoves(s, a, now, pick, order, x);
    case Finish(a) => FinishMoves(s[a := s[a].(phase := DoneSent)], a, x);
    case Stop(a) =>
      assert Possible(s[a].ctx, Event.Stop) && React(s[a].ctx, Event.Stop) == s[a].ctx.(alive := false);
    case Send(a, parcel) =>
      assert M.Legal(s[a].box, M.SendInstant(parcel));
      assert M.Apply(s[a].box, M.SendInstant(parcel)) == s[a].box.SendInstant(parcel);
    case SendNormal(a, message) =>
      assert M.Legal(s[a].box, M.SendNormal(message));
      assert M.Apply(s[a].box, M.SendNormal(message)) == s[a].box.SendNormal(message);
    case Release(a) =>
      assert M.Legal(s[a].box, M.Close) && M.Apply(s[a].box, M.Close) == s[a].box.Close();
    case _ =>
  }

  /** Every message accepted anywhere in the tree is queued, delayed, handled or lost, exactly
      once, and handled in due order. */
  lemma {:induction false} MailIsConservedEverywhere(states: seq<Sys>, steps: seq<Step>, i: nat, x: Id)
    requires Execution(states, steps) && i < |states| && x in states[i]
    ensures M.Conserved(states[i][x].box) && M.AllPunctual(states[i][x].box)
  {
    hide *;
    StartsEmpty(states, steps);
    if i > 0 {
      var s, step := states[i - 1], steps[i - 1];
      ExecutionStep(states, steps, i - 1);
      SysInvHolds(states, steps, i - 1);
      if x in s {
        MailIsConservedEverywhere(states, steps, i - 1, x);
        StepMoves(s, step, x);
        MoveKeeps(s[x].box, states[i][x].box);
      } else {
        NewcomerIsKept(s, step, x);
      }
    }
  }

  /** What was sent before the spawn waits in the queues, in the order of sending. */
  lemma NewcomerIsKept(s: Sys, step: Step, x: Id)
    requires SysInv(s) && Enabled(s, step) && x !in s && x in Next(s, step)
    ensures M.Conserved(Next(s, step)[x].box) && M.AllPunctual(Next(s, step)[x].box)
    ensures (step.SpawnRoot? || step.Spawned?) && Next(s, step)[x].box.open
    ensures Next(s, step)[x].box.hp == step.setup.parcels && Next(s, step)[x].box.lp == step.setup.messages
  {
    hide SysInv, Tracker.ValidOrder, M.Mailbox.MayPick, M.Mailbox.Polled, M.Mailbox.Poll;
    hide M.Conserved, M.AllPunctual, Setup.Box;
    assert step.SpawnRoot? || step.Spawned?;
    assert Next(s, step)[x].box == step.setup.Box();
    SetupIsKept(step.setup);
  }

  lemma SetupIsKept(setup: Setup)
    ensures M.Conserved(setup.Box()) && M.AllPunctual(setup.Box())
    ensures setup.Box().hp == setup.parcels && setup.Box().lp == setup.messages && setup.Box().open
  {
    assert [] + (setup.parcels + []) == setup.parcels && [] + (setup.messages + []) == setup.messages;
  }

  lemma MoveKeeps(m: M.Mailbox<Message>, u: M.Mailbox<Message>)
    requires BoxMoves(m, u) && M.Conserved(m) && M.AllPunctual(m)
    ensures M.Conserved(u) && M.AllPunctual(u)
  {
    hide M.Conserved, M.AllPunctual, M.Legal;
    if u != m {
      var act :| M.Legal(m, act) && u == M.Apply(m, act);
      M.StepKeepsConserved(m, act);
      M.StepKeepsPunctual(m, act);
    }
  }

  // ---------------------------------------------------------------------------
  // The life of a node
  // ---------------------------------------------------------------------------

  /** The events of `x` from state `j` to state `i`. */
  function LifeEvents(states: seq<Sys>, steps: seq<Step>, j: nat, i: nat, x: Id): seq<Event>
    requires j <= i <= |steps| < |states|
    decreases i
  {
    if i == j then [] else LifeEvents(states, steps, j, i - 1, x) + EventsOf(states[i - 1], steps[i - 1], x)
  }

  /** The child whose Done the step takes from the queue of `x`. */
  function NewlyDispatched(s: Sys, step: Step, x: Id): set<Id> {
    if step.Poll? && step.a == x && x in s && s[x].box.Polled(step.now, step.pick).CallDone?
    then {s[x].box.Polled(step.now, step.pick).id}
    else {}
  }

  lemma PollDispatches(s: Sys, a: Id, now: int, pick: M.Timed<Message>, order: seq<Group>, x: Id)
    requires a in s && x in s
    ensures var u := Dispatch(s, a, now, pick, order);
            x in u && u[x].dispatched == s[x].dispatched + NewlyDispatched(s, Step.Poll(a, now, pick, order), x)
  {
    hide M.Mailbox.Polled, M.Mailbox.Poll, Notify, DoneHit, Ctx.ChildDone;
    if s[a].box.Polled(now, pick).CallDone? {
      var id := s[a].box.Polled(now, pick).id;
      NotifyKeepsOver(s[a := DoneTaken(s[a], now, pick, id, order)], s[a].ctx.tracker.Forget(id),
                      DoneHit(s[a].ctx.tracker, id, order));
    }
  }

  lemma OnlyPollDispatches(s: Sys, step: Step, x: Id)
    requires Enabled(s, step) && x in s && !step.Poll?
    ensures x in Next(s, step) && Next(s, step)[x].dispatched == s[x].dispatched
  {
    hide Tracker.ValidOrder, Tracker.Hit, Tracker.GroupHit, Ctx.Shutdown, Tracker.Insert;
  }

  /** A dispatched Done is one more dispatched child, and nothing else is. */
  lemma DispatchedStep(s: Sys, step: Step, x: Id)
    requires SysInv(s) && Enabled(s, step) && x in s
    ensures var u, es := Next(s, step), EventsOf(s, step, x);
            x in u && |u[x].dispatched| == |s[x].dispatched| + if es != [] && es[0].ChildDone? then 1 else 0
  {
    hide SysInv, Tracker.ValidOrder, M.Mailbox.Polled, M.Mailbox.MayPick;
    if step.Poll? {
      if NewlyDispatched(s, step, x) != {} {
        DoneMeansTracked(s, x, step.now, step.pick);
      }
      PollDispatches(s, step.a, step.now, step.pick, step.order, x);
      hide Dispatch;
    } else {
      OnlyPollDispatches(s, step, x);
      hide Next;
    }
  }

  lemma LifeGoesOn(s: Sys, step: Step, x: Id, cs: seq<Ctx>, es: seq<Event>, n: nat) returns (longer: seq<Ctx>)
    requires SysInv(s) && Enabled(s, step) && x in s
    requires Life(cs, es) && cs[|es|] == s[x].ctx && |s[x].dispatched| == n + Dones(es, |es|)
    ensures var u, all := Next(s, step), es + EventsOf(s, step, x);
            && x in u && Life(longer, all) && longer[0] == cs[0] && longer[|all|] == u[x].ctx
            && |u[x].dispatched| == n + Dones(all, |all|)
  {
    hide *;
    StepMoves(s, step, x);
    DispatchedStep(s, step, x);
    longer := LifeSnoc(cs, es, EventsOf(s, step, x), Next(s, step)[x].ctx);
  }

  /** From any state on, the context of a node lives a life of the events that the steps name,
      and the Dones of that life are those it has dispatched. */
  lemma {:induction false} NodeLivesOn(states: seq<Sys>, steps: seq<Step>, j: nat, i: nat, x: Id)
    returns (cs: seq<Ctx>)
    requires Execution(states, steps) && j <= i < |states| && x in states[j]
    ensures |states| == |steps| + 1 && x in states[i]
    ensures var es := LifeEvents(states, steps, j, i, x);
            && Life(cs, es) && cs[0] == states[j][x].ctx && cs[|es|] == states[i][x].ctx
            && |states[i][x].dispatched| == |states[j][x].dispatched| + Dones(es, |es|)
    decreases i
  {
    hide Execution, SysInv, Enabled, Next, EventsOf, Life, ContextMoves, Dones;
    StartsEmpty(states, steps);
    if i == j {
      LifeBegins(states[i][x].ctx);
      cs := [states[i][x].ctx];
    } else {
      SysInvHolds(states, steps, i - 1);
      ExecutionStep(states, steps, i - 1);
      cs := NodeLivesOn(states, steps, j, i - 1, x);
      cs := LifeGoesOn(states[i - 1], steps[i - 1], x, cs, LifeEvents(states, steps, j, i - 1, x),
                       |states[j][x].dispatched|);
    }
  }

  lemma NewcomerIsBorn(s: Sys, step: Step, x: Id)
    requires Enabled(s, step) && x !in s && x in Next(s, step)
    ensures Born(Next(s, step)[x].ctx) && Next(s, step)[x].dispatched == {}
    ensures (step.SpawnRoot? || step.Spawned?) && Next(s, step)[x].ctx.tracker.prioritized == step.setup.prioritized
  {
    hide Tracker.ValidOrder, M.Mailbox.MayPick, M.Mailbox.Polled, M.Mailbox.Poll;
  }

  lemma {:induction false} Unborn(states: seq<Sys>, steps: seq<Step>, i: nat, x: Id)
    requires Execution(states, steps) && i < |states| == |steps| + 1 && x !in states[i]
    ensures LifeEvents(states, steps, 0, i, x) == []
  {
    if i > 0 {
      ExecutionStep(states, steps, i - 1);
      hide Execution, Enabled, Next;
      if x in states[i - 1] {
        OverStep(states[i - 1], steps[i - 1], x);
      }
      Unborn(states, steps, i - 1, x);
    }
  }

  /** Every node of every reachable state lives the life of one context, from its birth on. */
  lemma {:induction false} NodeLives(states: seq<Sys>, steps: seq<Step>, i: nat, x: Id) returns (cs: seq<Ctx>)
    requires Execution(states, steps) && i < |states| && x in states[i]
    ensures |states| == |steps| + 1
    ensures var es := LifeEvents(states, steps, 0, i, x);
            && Life(cs, es) && Born(cs[0]) && cs[|es|] == states[i][x].ctx
            && |states[i][x].dispatched| == Dones(es, |es|)
  {
    hide Execution, SysInv, Enabled, Next, EventsOf, ContextMoves, Born, Life, Dones;
    StartsEmpty(states, steps);
    SysInvHolds(states, steps, i - 1);
    ExecutionStep(states, steps, i - 1);
    if x in states[i - 1] {
      cs := NodeLives(states, steps, i - 1, x);
      cs := LifeGoesOn(states[i - 1], steps[i - 1], x, cs, LifeEvents(states, steps, 0, i - 1, x), 0);
    } else {
      Unborn(states, steps, i - 1, x);
      NothingUnborn(states[i - 1], steps[i - 1], x);
      NewcomerIsBorn(states[i - 1], steps[i - 1], x);
      LifeBegins(states[i][x].ctx);
      cs := [states[i][x].ctx];
      assert LifeEvents(states, steps, 0, i, x) == [];
    }
  }

  lemma NothingUnborn(s: Sys, step: Step, x: Id)
    requires x !in s
    ensures EventsOf(s, step, x) == []
  {
  }

  /** The stop decisions of every node are those of a plain set of children, whatever the stages,
      the priorities and the hash orders. */
  lemma EveryNodeIsPlain(states: seq<Sys>, steps: seq<Step>, i: nat, x: Id)
    requires Execution(states, steps) && i < |states| == |steps| + 1 && x in states[i]
    ensures var es := LifeEvents(states, steps, 0, i, x);
            Abstract(states[i][x].ctx) == PlainRun(Plain(true, false, {}), es, |es|)
  {
    hide Execution, LifeEvents, EventsOf, PlainRun, React, Possible, Inv, Waiting, Born, Abstract;
    var cs := NodeLives(states, steps, i, x);
    var es := LifeEvents(states, steps, 0, i, x);
    BornRefinesPlain(cs, es);
  }

  /** Without spawns and a direct `stop` of `x` the events from `j` to `i` are graceful. */
  lemma {:induction false} GracefulLife(states: seq<Sys>, steps: seq<Step>, j: nat, i: nat, x: Id)
    requires j <= i <= |steps| < |states|
    requires forall k | j <= k < i :: steps[k] != Inserted(x) && steps[k] != Step.Stop(x)
    ensures Graceful(LifeEvents(states, steps, j, i, x))
    decreases i
  {
    if i > j {
      GracefulLife(states, steps, j, i - 1, x);
    }
  }

  /** In every run of the tree: once a living node with n children on record shuts down (step `j`),
      records no further child and does not call `stop`, it is alive if and only if it has
      dispatched fewer than n Dones since, and the rest of its children are on record. */
  lemma NodeStopsAtLastDone(states: seq<Sys>, steps: seq<Step>, j: nat, i: nat, x: Id)
    requires Execution(states, steps) && j < i < |states|
    requires steps[j].Shutdown? && steps[j].a == x && x in states[j] && states[j][x].ctx.alive
    requires forall k | j < k < i :: steps[k] != Inserted(x) && steps[k] != Step.Stop(x)
    ensures x in states[i]
    ensures var n, dones := |states[j][x].ctx.tracker.records|, |states[i][x].dispatched| - |states[j][x].dispatched|;
            && (states[i][x].ctx.alive <==> dones < n)
            && |states[i][x].ctx.tracker.records| == n - dones
  {
    StartsEmpty(states, steps);
    SysInvHolds(states, steps, j);
    ExecutionStep(states, steps, j);
    var order := steps[j].order;
    ShutdownStep(states[j], x, order);
    hide Execution, SysInv, Enabled, Next;
    var cs := NodeLivesOn(states, steps, j + 1, i, x);
    GracefulLife(states, steps, j + 1, i, x);
    var es := LifeEvents(states, steps, j + 1, i, x);
    hide LifeEvents, Life, Graceful, Dones;
    StopsAtLastDone(states[j][x].ctx, order, cs, es, |es|);
  }

  lemma ShutdownStep(s: Sys, x: Id, order: seq<Group>)
    requires SysInv(s) && Enabled(s, Step.Shutdown(x, order))
    ensures var u := Next(s, Step.Shutdown(x, order));
            && x in s && x in u && u[x].ctx == s[x].ctx.Shutdown(order) && u[x].dispatched == s[x].dispatched
            && Inv(s[x].ctx.tracker) && s[x].ctx.tracker.ValidOrder(order)
  {
    StepMoves(s, Step.Shutdown(x, order), x);
    DispatchedStep(s, Step.Shutdown(x, order), x);
    SoundNode(s, x);
    hide SysInv, Ctx.Shutdown, Tracker.ValidOrder, Inv;
  }

  // ---------------------------------------------------------------------------
  // What a step does to the nodes it concerns, written out
  // ---------------------------------------------------------------------------

  /** The phases of a node, the extent of its handlers, and what a spawn brings into the world. */
  lemma StepExactly(s: Sys, step: Step)
    requires Enabled(s, step)
    ensures var u := Next(s, step);
            match step
            case Awake(a) => a in u && u[a].phase == Awaking
            case EndAwake(a, ok) => a in u && u[a].phase == if ok then Running else Failed
            case Spawned(a, c, task, group, setup) =>
              && a in u && u[a].pending == Some(Child(c, group)) && u[a].ctx == s[a].ctx
              && c in u && u[c].parent == Some(a) && u[c].task == task && u[c].listening == task
              && u[c].phase == if task then Running else Asleep
            case EndHandler(a) => a in u && !u[a].busy && u[a].ctx == s[a].ctx
            case Send(a, parcel) => a in u && u[a].box.hp == s[a].box.hp + if s[a].box.open then [parcel] else []
            case SendNormal(a, m) => a in u && u[a].box.lp == s[a].box.lp + if s[a].box.open then [m] else []
            case LetGo(a) => a in u && !u[a].listening && u[a].phase == s[a].phase
            case Finish(a) => a in u && u[a].phase == DoneSent
            case Release(a) => a in u && u[a].phase == Released && !u[a].box.open
            case _ => true
  {
    hide Tracker.ValidOrder, M.Mailbox.MayPick, M.Mailbox.Polled, M.Mailbox.Poll, Tracker.Hit, Tracker.GroupHit;
    match step
    case Finish(a) => OverStep(s, step, a);
    case _ =>
  }

  /** The insert that ends a spawn puts the child on record under the group it was spawned for,
      with the notifier of its kind. */
  lemma InsertedExactly(s: Sys, a: Id)
    requires SysInv(s) && Enabled(s, Inserted(a))
    ensures var u, c := Next(s, Inserted(a)), s[a].pending.value;
            && a in u && u[a].pending == None && c.id in s
            && u[a].ctx.tracker.records ==
               s[a].ctx.tracker.records[c.id := Record(c.group, if s[c.id].task then StopSignal else Once)]
  {
    hide SysInv, Sound, Tracker.Insert;
    SoundNode(s, a);
    PendingIsChild(s, a);
    var n := s[a];
    var c := n.pending.value;
    InsertExactly(n.ctx.tracker, c.id, c.group, NotifierOf(s[c.id].task));
    StepMoves(s, Inserted(a), a);
    InsertEndsSpawn(s, a);
  }

  lemma InsertEndsSpawn(s: Sys, a: Id)
    requires Enabled(s, Inserted(a))
    ensures a in Next(s, Inserted(a)) && Next(s, Inserted(a))[a].pending == None
  {
    hide Tracker.Insert;
  }

  /** A poll makes the actor busy exactly if it hands out a call. */
  lemma PollExactly(s: Sys, a: Id, now: int, pick: M.Timed<Message>, order: seq<Group>)
    requires Enabled(s, Step.Poll(a, now, pick, order))
    ensures var u := Next(s, Step.Poll(a, now, pick, order));
            && a in u
            && (u[a].busy <==> s[a].box.Polled(now, pick).Call? || s[a].box.Polled(now, pick).CallDone?)
  {
    hide Tracker.ValidOrder, M.Mailbox.MayPick, M.Mailbox.Polled, M.Mailbox.Poll, DoneHit, Ctx.ChildDone;
  }
}
