/** The runtime of one actor (meio/src/actor_runtime.rs) with the sending side of its address
    (meio/src/linkage/address.rs).

  What happens around the routine is given by a script: before each turn some messages arrive,
  the clock shows a time, and the handler that is called, if any, makes some context calls.
*/
module ActorRuntimes {
  import opened Lifecycle
  import T = Termination
  import opened ActorContext
  import opened Mailboxes

  datatype Priority = NormalPriority | InstantPriority

  /** The ways in which an `Address` puts a message into the queues. */
  datatype Arrival<E> =
    | Act(envelope: E)
    | InstantAct(envelope: E)
    | ScheduleAct(envelope: E, deadline: int)
    | SendEvent(envelope: E, priority: Priority)
    | UnpackParcel(parcel: Parcel<E>)

  datatype ContextCall =
    | Track(id: Id, group: Group, notifier: Notifier)
    | CallShutdown
    | CallStop
    | CallTerminateGroup(group: Group)

  datatype Moment<E> = Moment(arrivals: seq<Arrival<E>>, now: int, calls: seq<ContextCall>)

  datatype Signal = DoneNotified | JoinersReleased

  function Arrive<E>(m: Mailbox<E>, arrival: Arrival<E>): Mailbox<E> {
    match arrival
    case Act(e) => m.SendNormal(e)
    case InstantAct(e) => m.SendInstant(Parcel(Forward, e))
    case ScheduleAct(e, deadline) => m.SendInstant(Parcel(Schedule(deadline), e))
    case SendEvent(e, priority) =>
      if priority.NormalPriority? then m.SendNormal(e) else m.SendInstant(Parcel(Forward, e))
    case UnpackParcel(parcel) => m.SendInstant(parcel)
  }

  function ArriveAll<E>(m: Mailbox<E>, arrivals: seq<Arrival<E>>, n: nat): Mailbox<E>
    requires n <= |arrivals|
  {
    if n == 0 then m else Arrive(ArriveAll(m, arrivals, n - 1), arrivals[n - 1])
  }

  /** `event` is the effect of `call`, for some hash order. */
  ghost predicate Effect(c: Ctx, call: ContextCall, event: Event) {
    match call
    case Track(id, group, notifier) => event == Spawned(id, group, notifier)
    case CallShutdown => event.Shutdown? && c.tracker.ValidOrder(event.order)
    case CallStop => event == Event.Stop
    case CallTerminateGroup(group) => event == Event.TerminateGroup(group)
  }

  function After(c: Ctx, events: seq<Event>, n: nat): Ctx
    requires n <= |events|
  {
    if n == 0 then c else React(After(c, events, n - 1), events[n - 1])
  }

  ghost predicate Effects(c: Ctx, calls: seq<ContextCall>, events: seq<Event>) {
    && |events| == |calls|
    && (forall i | 0 <= i < |events| :: Effect(After(c, events, i), calls[i], events[i]))
  }

  lemma SameAfter(c: Ctx, events: seq<Event>, e: Event, n: nat)
    requires n <= |events|
    ensures After(c, events + [e], n) == After(c, events, n)
  {
  }

  lemma EffectsSnoc(c: Ctx, calls: seq<ContextCall>, events: seq<Event>, call: ContextCall, e: Event)
    requires Effects(c, calls, events) && Effect(After(c, events, |events|), call, e)
    ensures Effects(c, calls + [call], events + [e])
    ensures After(c, events + [e], |events| + 1) == React(After(c, events, |events|), e)
  {
    hide Effect, React;
    forall n | 0 <= n <= |events| ensures After(c, events + [e], n) == After(c, events, n) {
      SameAfter(c, events, e, n);
    }
  }

  /** The context after the bookkeeping that precedes the handler of `polled`. */
  function Served<E>(c: Ctx, polled: Polled<E>, order: seq<Group>): Ctx {
    if polled.CallDone? then c.ChildDone(polled.id, order) else c
  }

  ghost predicate TurnWith<E(!new)>(
    m: Mailbox<E>, c: Ctx, moment: Moment<E>, n: Mailbox<E>, d: Ctx,
    pick: Timed<E>, order: seq<Group>, events: seq<Event>)
  {
    var full := ArriveAll(m, moment.arrivals, |moment.arrivals|);
    var polled := full.Polled(moment.now, pick);
    && full.MayPick(moment.now, pick) && n == full.Poll(moment.now, pick)
    && (polled.CallDone? ==> c.tracker.Forget(polled.id).ValidOrder(order))
    && (if polled.Call? || polled.CallDone?
        then Effects(Served(c, polled, order), moment.calls, events)
             && d == After(Served(c, polled, order), events, |events|)
        else d == c)
  }

  /** One turn of the routine leads from mailbox `m` and context `c` to `n` and `d`. */
  ghost predicate OneTurn<E(!new)>(m: Mailbox<E>, c: Ctx, moment: Moment<E>, n: Mailbox<E>, d: Ctx) {
    exists pick, order, events :: TurnWith(m, c, moment, n, d, pick, order, events)
  }

  /** The first `k` turns of the script, each begun by a living actor. */
  ghost predicate Turns<E(!new)>(script: seq<Moment<E>>, k: nat, boxes: seq<Mailbox<E>>, contexts: seq<Ctx>) {
    && k <= |script| && |boxes| == |contexts| == k + 1
    && (forall i | 0 <= i < k ::
          contexts[i].alive && OneTurn(boxes[i], contexts[i], script[i], boxes[i + 1], contexts[i + 1]))
  }

  class ActorRuntime<E(==, !new, 0)> {
    const context: Context
    var open: bool
    var hp: seq<Parcel<E>>
    var lp: seq<E>
    var scheduled: multiset<Timed<E>>
    var signals: seq<Signal>
    ghost var hpSent: seq<Parcel<E>>
    ghost var lpSent: seq<E>
    ghost var taken: seq<Parcel<E>>
    ghost var log: seq<Handled<E>>
    ghost var lostHp: seq<Parcel<E>>
    ghost var lostLp: seq<E>
    ghost var lostDelayed: multiset<Timed<E>>

    ghost function View(): Mailbox<E>
      reads this
    {
      Mailbox(open, hp, lp, scheduled, hpSent, lpSent, taken, log, lostHp, lostLp, lostDelayed)
    }

    constructor ()
      ensures View() == EmptyMailbox<E>() && signals == []
      ensures context.View() == Ctx(true, NEW_TRACKER) && fresh(context) && fresh(context.tracker)
    {
      context := new Context();
      open, hp, lp, scheduled, signals := true, [], [], multiset{}, [];
      hpSent, lpSent, taken, log := [], [], [], [];
      lostHp, lostLp, lostDelayed := [], [], multiset{};
    }

    // The sending side

    method HighPrioritySend(parcel: Parcel<E>) returns (ok: bool)
      modifies this`hp, this`hpSent
      ensures ok == open && View() == old(View()).SendInstant(parcel)
    {
      if open {
        hp := hp + [parcel];
        hpSent := hpSent + [parcel];
      }
      ok := open;
    }

    method NormalPrioritySend(envelope: E) returns (ok: bool)
      modifies this`lp, this`lpSent
      ensures ok == open && View() == old(View()).SendNormal(envelope)
    {
      if open {
        lp := lp + [envelope];
        lpSent := lpSent + [envelope];
      }
      ok := open;
    }

    method Accept(arrival: Arrival<E>) returns (ok: bool)
      modifies this`hp, this`hpSent, this`lp, this`lpSent
      ensures ok == open && View() == Arrive(old(View()), arrival)
    {
      match arrival
      case Act(e) => ok := NormalPrioritySend(e);
      case InstantAct(e) => ok := HighPrioritySend(Parcel(Forward, e));
      case ScheduleAct(e, deadline) => ok := HighPrioritySend(Parcel(Schedule(deadline), e));
      case SendEvent(e, priority) =>
        match priority {
          case NormalPriority => ok := NormalPrioritySend(e);
          case InstantPriority => ok := HighPrioritySend(Parcel(Forward, e));
        }
      case UnpackParcel(parcel) => ok := HighPrioritySend(parcel);
    }

    method AcceptAll(arrivals: seq<Arrival<E>>)
      modifies this`hp, this`hpSent, this`lp, this`lpSent
      ensures View() == ArriveAll(old(View()), arrivals, |arrivals|)
    {
      for i := 0 to |arrivals|
        invariant View() == ArriveAll(old(View()), arrivals, i)
      {
        var _ := Accept(arrivals[i]);
      }
    }

    // The receiving side

    /** The high-priority branch of the select. */
    method ServeParcel() returns (polled: Polled<E>, ghost order: seq<Group>)
      requires hp != []
      modifies this`hp, this`scheduled, this`taken, this`log, context, context.tracker
      ensures View() == old(View()).TakeParcel()
      ensures polled == old(View()).PolledParcel()
      ensures polled.CallDone? ==> old(context.View()).tracker.Forget(polled.id).ValidOrder(order)
      ensures context.View() == Served(old(context.View()), polled, order)
    {
      order := [];
      var Parcel(operation, envelope) := hp[0];
      taken := taken + [hp[0]];
      hp := hp[1..];
      match operation {
        case Forward =>
          polled := Call(envelope);
          log := log + [Instant(envelope)];
        case Done(id) =>
          polled := CallDone(id, envelope);
          log := log + [Instant(envelope)];
          order := context.ChildDone(id);
        case Schedule(deadline) =>
          polled := Deferred;
          scheduled := scheduled + multiset{Timed(deadline, envelope)};
      }
    }

    /** The other two branches. */
    method ServeQueues(now: int) returns (polled: Polled<E>, ghost pick: Timed<E>)
      requires hp == []
      modifies this`lp, this`scheduled, this`log
      ensures old(View()).MayPick(now, pick) && polled == old(View()).Polled(now, pick)
      ensures View() == old(View()).Poll(now, pick)
    {
      if expired :| expired in scheduled && expired.deadline <= now {
        pick := expired;
        scheduled := scheduled - multiset{expired};
        log := log + [Late(expired, now)];
        return Call(expired.envelope), pick;
      }
      pick := *;
      if lp != [] {
        polled := Call(lp[0]);
        log := log + [Normal(lp[0], |hpSent|, now)];
        lp := lp[1..];
      } else {
        polled := Idle;
      }
    }

    /** One `select_biased!`, with the bookkeeping of a Done. */
    method Select(now: int) returns (polled: Polled<E>, ghost pick: Timed<E>, ghost order: seq<Group>)
      modifies this`hp, this`lp, this`scheduled, this`taken, this`log, context, context.tracker
      ensures old(View()).MayPick(now, pick) && polled == old(View()).Polled(now, pick)
      ensures View() == old(View()).Poll(now, pick)
      ensures polled.CallDone? ==> old(context.View()).tracker.Forget(polled.id).ValidOrder(order)
      ensures context.View() == Served(old(context.View()), polled, order)
    {
      hide Mailbox.TakeParcel, Tracker.ValidOrder;
      if hp != [] {
        if item :| item in scheduled && item.deadline <= now {
          pick := item;
        } else {
          pick := *;
        }
        polled, order := ServeParcel();
      } else {
        order := [];
        polled, pick := ServeQueues(now);
      }
    }

    method CallContext(call: ContextCall) returns (ghost event: Event)
      modifies context, context.tracker
      ensures Effect(old(context.View()), call, event)
      ensures context.View() == React(old(context.View()), event)
    {
      match call
      case Track(id, group, notifier) =>
        context.tracker.Insert(id, group, notifier);
        event := Spawned(id, group, notifier);
      case CallShutdown =>
        ghost var order := context.Shutdown();
        event := Event.Shutdown(order);
      case CallStop =>
        context.Stop();
        event := Event.Stop;
      case CallTerminateGroup(group) =>
        context.tracker.TerminateGroup(group);
        event := Event.TerminateGroup(group);
    }

    /** The context calls of one handler. */
    method Handle(calls: seq<ContextCall>) returns (ghost events: seq<Event>)
      modifies context, context.tracker
      ensures Effects(old(context.View()), calls, events)
      ensures context.View() == After(old(context.View()), events, |events|)
    {
      hide Effect, React;
      events := [];
      for i := 0 to |calls|
        invariant Effects(old(context.View()), calls[..i], events)
        invariant context.View() == After(old(context.View()), events, |events|)
      {
        ghost var e := CallContext(calls[i]);
        EffectsSnoc(old(context.View()), calls[..i], events, calls[i], e);
        events := events + [e];
        assert calls[..i + 1] == calls[..i] + [calls[i]];
      }
      assert calls[..|calls|] == calls;
    }

    /** One turn of the loop. */
    method Turn(moment: Moment<E>)
      modifies this`hp, this`hpSent, this`lp, this`lpSent, this`scheduled, this`taken, this`log
      modifies context, context.tracker
      ensures OneTurn(old(View()), old(context.View()), moment, View(), context.View())
    {
      hide Mailbox.MayPick, Mailbox.Poll, Mailbox.Polled, Effects, Tracker.ValidOrder, ArriveAll, Arrive;
      ghost var events: seq<Event> := [];
      AcceptAll(moment.arrivals);
      var polled;
      ghost var pick, order;
      polled, pick, order := Select(moment.now);
      if polled.Call? || polled.CallDone? {
        events := Handle(moment.calls);
      }
      assert TurnWith(old(View()), old(context.View()), moment, View(), context.View(), pick, order, events);
    }

    /** Serves the script for as long as the actor is alive. */
    method Routine(script: seq<Moment<E>>) returns (k: nat, ghost boxes: seq<Mailbox<E>>, ghost contexts: seq<Ctx>)
      modifies this`hp, this`hpSent, this`lp, this`lpSent, this`scheduled, this`taken, this`log
      modifies context, context.tracker
      ensures Turns(script, k, boxes, contexts)
      ensures boxes[0] == old(View()) && contexts[0] == old(context.View())
      ensures boxes[k] == View() && contexts[k] == context.View()
      ensures k < |script| ==> !context.alive
    {
      hide OneTurn;
      k := 0;
      boxes, contexts := [View()], [context.View()];
      while context.alive && k < |script|
        invariant Turns(script, k, boxes, contexts)
        invariant boxes[0] == old(View()) && contexts[0] == old(context.View())
        invariant boxes[k] == View() && contexts[k] == context.View()
      {
        Turn(script[k]);
        boxes, contexts := boxes + [View()], contexts + [context.View()];
        k := k + 1;
      }
    }

    /** The whole life of the actor: the Awake handler, the routine if that succeeded, then the
        Done notification, the release of the joiners, and the end of the receivers.  The result
        tells whether the script has reached that end. */
    method Entrypoint(prioritized: seq<Group>, awakeOk: bool, awakeCalls: seq<ContextCall>, script: seq<Moment<E>>)
      returns (finished: bool, ghost events: seq<Event>, ghost k: nat,
               ghost boxes: seq<Mailbox<E>>, ghost contexts: seq<Ctx>)
      requires signals == []
      modifies this, context, context.tracker
      ensures var c := old(context.View()).(tracker := old(context.View()).tracker.(prioritized := prioritized));
              Effects(c, awakeCalls, events) && contexts != [] && contexts[0] == After(c, events, |events|)
      ensures Turns(script, k, boxes, contexts) && boxes[0] == old(View()) && contexts[k] == context.View()
      ensures !awakeOk ==> k == 0 && finished
      ensures finished ==> View() == boxes[k].Close() && signals == [DoneNotified, JoinersReleased]
      ensures !finished ==> View() == boxes[k] && signals == [] && k == |script| && context.alive
    {
      hide OneTurn, Effects, After;
      context.tracker.TerminationSequence(prioritized);
      events := Handle(awakeCalls);
      k, boxes, contexts := 0, [View()], [context.View()];
      if awakeOk {
        k, boxes, contexts := Routine(script);
        if context.alive {
          return false, events, k, boxes, contexts;
        }
      }
      signals := signals + [DoneNotified];
      signals := signals + [JoinersReleased];
      Close();
      finished := true;
    }

    /** The history of what is left in the queues. */
    ghost method RecordLoss()
      modifies this`lostHp, this`lostLp, this`lostDelayed
      ensures lostHp == old(lostHp) + hp && lostLp == old(lostLp) + lp && lostDelayed == old(lostDelayed) + scheduled
    {
      lostHp, lostLp, lostDelayed := lostHp + hp, lostLp + lp, lostDelayed + scheduled;
    }

    /** Drops the receivers. */
    method Close()
      modifies this
      ensures View() == old(View()).Close() && signals == old(signals)
    {
      RecordLoss();
      open, hp, lp, scheduled := false, [], [], multiset{};
    }
  }

  // ---------------------------------------------------------------------------
  // The routine keeps what the mailbox and the context promise
  // ---------------------------------------------------------------------------

  lemma ArrivalKeeps<E(!new)>(m: Mailbox<E>, arrival: Arrival<E>)
    requires Conserved(m) && AllPunctual(m)
    ensures Conserved(Arrive(m, arrival)) && AllPunctual(Arrive(m, arrival))
  {
    hide Conserved, AllPunctual;
    var act := match arrival
      case Act(e) => Mailboxes.Act.SendNormal(e)
      case InstantAct(e) => SendInstant(Parcel(Forward, e))
      case ScheduleAct(e, deadline) => SendInstant(Parcel(Schedule(deadline), e))
      case SendEvent(e, priority) =>
        if priority.NormalPriority? then Mailboxes.Act.SendNormal(e) else SendInstant(Parcel(Forward, e))
      case UnpackParcel(parcel) => SendInstant(parcel);
    assert Arrive(m, arrival) == Apply(m, act);
    StepKeepsConserved(m, act);
    StepKeepsPunctual(m, act);
  }

  lemma {:induction false} ArrivalsKeep<E(!new)>(m: Mailbox<E>, arrivals: seq<Arrival<E>>, n: nat)
    requires n <= |arrivals| && Conserved(m) && AllPunctual(m)
    ensures Conserved(ArriveAll(m, arrivals, n)) && AllPunctual(ArriveAll(m, arrivals, n))
    ensures ArriveAll(m, arrivals, n).open == m.open
  {
    hide Conserved, AllPunctual;
    if n > 0 {
      ArrivalsKeep(m, arrivals, n - 1);
      ArrivalKeeps(ArriveAll(m, arrivals, n - 1), arrivals[n - 1]);
    }
  }

  lemma TurnKeeps<E(!new)>(m: Mailbox<E>, c: Ctx, moment: Moment<E>, n: Mailbox<E>, d: Ctx)
    requires OneTurn(m, c, moment, n, d) && m.open && Conserved(m) && AllPunctual(m)
    ensures n.open && Conserved(n) && AllPunctual(n)
  {
    hide Conserved, AllPunctual;
    var pick, order, events :| TurnWith(m, c, moment, n, d, pick, order, events);
    ArrivalsKeep(m, moment.arrivals, |moment.arrivals|);
    var full := ArriveAll(m, moment.arrivals, |moment.arrivals|);
    assert Legal(full, Mailboxes.Act.Poll(moment.now, pick));
    StepKeepsConserved(full, Mailboxes.Act.Poll(moment.now, pick));
    StepKeepsPunctual(full, Mailboxes.Act.Poll(moment.now, pick));
  }

  /** Whatever arrives and whatever the handlers do, in every turn of the routine and after its
      end each accepted message is queued, delayed, handled or lost, exactly once, and was
      handled in due order. */
  lemma {:induction false} RoutineKeeps<E(!new)>(
    script: seq<Moment<E>>, k: nat, boxes: seq<Mailbox<E>>, contexts: seq<Ctx>, i: nat)
    requires Turns(script, k, boxes, contexts) && boxes[0] == EmptyMailbox<E>() && i <= k
    ensures boxes[i].open && Conserved(boxes[i]) && AllPunctual(boxes[i])
    ensures Conserved(boxes[i].Close()) && AllPunctual(boxes[i].Close())
  {
    hide OneTurn;
    if i > 0 {
      RoutineKeeps(script, k, boxes, contexts, i - 1);
      TurnKeeps(boxes[i - 1], contexts[i - 1], script[i - 1], boxes[i], contexts[i]);
    }
    StepKeepsConserved(boxes[i], Mailboxes.Act.Close);
    StepKeepsPunctual(boxes[i], Mailboxes.Act.Close);
  }

  // ---------------------------------------------------------------------------
  // What the sending side and the context calls mean, written out
  // ---------------------------------------------------------------------------

  /** Which queue each way of sending uses, and with what operation; a closed mailbox takes
      nothing. */
  lemma ArrivalExactly<E(!new)>(m: Mailbox<E>, arrival: Arrival<E>)
    ensures var u := Arrive(m, arrival);
            if !m.open then u == m
            else
              match arrival
              case Act(e) => ToNormal(m, u, e)
              case InstantAct(e) => ToUrgent(m, u, Parcel(Forward, e))
              case ScheduleAct(e, deadline) => ToUrgent(m, u, Parcel(Schedule(deadline), e))
              case SendEvent(e, NormalPriority) => ToNormal(m, u, e)
              case SendEvent(e, InstantPriority) => ToUrgent(m, u, Parcel(Forward, e))
              case UnpackParcel(parcel) => ToUrgent(m, u, parcel)
  {
  }

  /** `u` is `m` with one more envelope at the end of the normal queue. */
  ghost predicate ToNormal<E(!new)>(m: Mailbox<E>, u: Mailbox<E>, e: E) {
    u == m.(lp := m.lp + [e], lpSent := m.lpSent + [e])
  }

  /** `u` is `m` with one more parcel at the end of the high-priority queue. */
  ghost predicate ToUrgent<E(!new)>(m: Mailbox<E>, u: Mailbox<E>, parcel: Parcel<E>) {
    u == m.(hp := m.hp + [parcel], hpSent := m.hpSent + [parcel])
  }

  /** What each context call of a handler does to the context. */
  lemma CallExactly(c: Ctx, call: ContextCall, event: Event)
    requires Effect(c, call, event) && T.Inv(c.tracker)
    requires call.Track? ==> T.Fresh(c.tracker, call.id)
    ensures var d := React(c, event);
            match call
            case Track(id, group, notifier) =>
              && d.alive == c.alive && d.tracker.terminating == c.tracker.terminating
              && d.tracker.records == c.tracker.records[id := Record(group, notifier)]
            case CallShutdown =>
              && d.tracker.terminating && d.tracker.records == c.tracker.records
              && (d.alive <==> c.alive && c.tracker.records != map[])
            case CallStop => !d.alive && d.tracker == c.tracker
            case CallTerminateGroup(group) =>
              && d.alive == c.alive && d.tracker.(grouped := c.tracker.grouped) == c.tracker
              && forall id: Id :: d.tracker.grouped[id] == c.tracker.grouped[id] +
                   if id in c.tracker.records && c.tracker.records[id].group == group then 1 else 0
  {
    match call
    case CallShutdown => ShutdownDecides(c, event.order);
    case CallTerminateGroup(group) =>
      forall id: Id ensures React(c, event).tracker.grouped[id] == c.tracker.grouped[id] +
                              if id in c.tracker.records && c.tracker.records[id].group == group then 1 else 0 {
        T.TerminateGroupExactly(c.tracker, group, id);
      }
    case _ =>
  }

  /** The context `b` with which the handler of a turn begins: if the turn hands out the Done of a
      tracked child, its record is gone by then, and the actor has stopped if that was the last
      one of a terminating actor; otherwise it is the context as it was.  The turn ends with what
      the calls of the handler make of `b`. */
  lemma TurnServesDone<E(!new)>(m: Mailbox<E>, c: Ctx, moment: Moment<E>, n: Mailbox<E>, d: Ctx)
    returns (b: Ctx, events: seq<Event>)
    requires OneTurn(m, c, moment, n, d) && T.Inv(c.tracker)
    requires forall p <- ArriveAll(m, moment.arrivals, |moment.arrivals|).hp ::
               p.operation.Done? ==> p.operation.id in c.tracker.records
    ensures var hp := ArriveAll(m, moment.arrivals, |moment.arrivals|).hp;
            if hp != [] && hp[0].operation.Done?
            then b.tracker.records == c.tracker.records - {hp[0].operation.id}
                 && b.tracker.terminating == c.tracker.terminating
                 && (b.alive <==> c.alive && !(c.tracker.terminating && b.tracker.records == map[]))
            else b == c
    ensures (Effects(b, moment.calls, events) && d == After(b, events, |events|)) || (d == b && n.log == m.log)
  {
    var pick, order;
    pick, order, events :| TurnWith(m, c, moment, n, d, pick, order, events);
    hide OneTurn, Mailbox.Poll, Mailbox.MayPick, Effects, After, ArriveAll;
    var full := ArriveAll(m, moment.arrivals, |moment.arrivals|);
    SameLogAfterArrivals(m, moment.arrivals, |moment.arrivals|);
    PolledMeansLogged(full, moment.now, pick);
    b := Served(c, full.Polled(moment.now, pick), order);
    if full.hp != [] && full.hp[0].operation.Done? {
      var id := full.hp[0].operation.id;
      assert full.hp[0] in full.hp;
      assert c.tracker.records[id].group in c.tracker.stages;
      DoneDecides(c, id, order);
    }
  }

  lemma {:induction false} SameLogAfterArrivals<E(!new)>(m: Mailbox<E>, arrivals: seq<Arrival<E>>, n: nat)
    requires n <= |arrivals|
    ensures ArriveAll(m, arrivals, n).log == m.log
  {
    if n > 0 {
      SameLogAfterArrivals(m, arrivals, n - 1);
    }
  }
}
