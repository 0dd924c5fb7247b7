/** What the trackers count is what the children hear (meio/src/lifecycle.rs, meio/src/actor_runtime.rs). */
module SupervisionAttempts {
  import opened Lifecycle
  import opened Termination
  import opened ActorContext
  import M = Mailboxes
  import opened Options
  import opened Supervision
  import opened SupervisionLives
  import opened SupervisionTree

  /** The interrupts that `a` has tried to send to `c`, for a staged termination or a group. */
  function Attempts(s: Sys, a: Id, c: Id): nat
    requires a in s
  {
    s[a].ctx.tracker.staged[c] + s[a].ctx.tracker.grouped[c]
  }

  /** An interrupt sent now is accepted. */
  predicate Hears(n: Node) {
    if n.task then n.listening else n.box.open
  }

  const INTERRUPT_PARCEL: M.Parcel<Message> := M.Parcel(M.Forward, Interrupt)

  /** The children that the step tries to interrupt. */
  function Interrupted(s: Sys, step: Step): set<Id>
    requires Notifies(step) && step.a in s
  {
    var t := s[step.a].ctx.tracker;
    match step
    case Shutdown(_, order) => t.Hit(order)
    case TerminateGroup(_, group) => t.GroupHit(group)
    case Poll(a, now, pick, order) =>
      if s[a].box.Polled(now, pick).CallDone? then DoneHit(t, s[a].box.Polled(now, pick).id, order) else {}
    case _ =>
      if s[step.a].pending.Some? && t.StageOf(s[step.a].pending.value.group).terminating
      then {s[step.a].pending.value.id}
      else {}
  }

  function InterruptedBy(s: Sys, step: Step): set<Id> {
    if Notifies(step) && step.a in s then Interrupted(s, step) else {}
  }

  lemma NotifyHeard(s: Sys, t: Tracker, hit: set<Id>, x: Id)
    requires x in s && hit <= t.records.Keys
    requires x in t.records ==> t.records[x].notifier == NotifierOf(s[x].task)
    ensures var u := Notify(s, t, hit);
            && x in u && u[x].ctx == s[x].ctx && Hears(u[x]) == Hears(s[x])
            && u[x].accepted == s[x].accepted + (if x in hit && Hears(s[x]) then 1 else 0)
            && (x in hit && !s[x].task && s[x].box.open ==> Queued(s[x], u[x]))
  {
  }

  /** An interrupt parcel has joined the queue. */
  ghost predicate Queued(n: Node, m: Node) {
    && m.box.hp == n.box.hp + [INTERRUPT_PARCEL]
    && m.box.hpSent == n.box.hpSent + [INTERRUPT_PARCEL]
  }

  /** The tracker counts every attempt, and nothing else. */
  lemma AdvanceCounts(t: Tracker, order: seq<Group>, c: Id)
    ensures t.Advance(order).staged[c] == t.staged[c] + if c in t.Hit(order) then 1 else 0
    ensures t.Advance(order).grouped == t.grouped
    ensures t.Hit(order) <= t.records.Keys
  {
  }

  /** After the step `x` has heard, and has tried to tell `c`, as much as it should. */
  ghost predicate HeardAndCounted(s: Sys, step: Step, x: Id, c: Id)
    requires Enabled(s, step) && x in s
  {
    var u, hit := Next(s, step), InterruptedBy(s, step);
    && x in u
    && (Hears(u[x]) ==> Hears(s[x]))
    && u[x].accepted == s[x].accepted + (if x in hit && Hears(s[x]) then 1 else 0)
    && (x in hit && x != step.a && !s[x].task && s[x].box.open ==> Queued(s[x], u[x]))
    && Attempts(u, x, c) == Attempts(s, x, c) + if Notifies(step) && x == step.a && c in hit then 1 else 0
  }

  /** A step that turns `a` into `m` and then notifies the children in `hit`. */
  lemma NotifiedHeard(s: Sys, step: Step, m: Node, t: Tracker, hit: set<Id>, x: Id, c: Id)
    requires Enabled(s, step) && Notifies(step) && step.a in s && x in s
    requires x in Next(s, step) && Next(s, step)[x] == Notify(s[step.a := m], t, hit)[x]
    requires forall y :: y in InterruptedBy(s, step) <==> y in hit
    requires m == s[step.a].(pending := m.pending, busy := m.busy, ctx := m.ctx, box := m.box,
                             dispatched := m.dispatched)
    requires m.box.open == s[step.a].box.open
    requires hit <= t.records.Keys && (x in t.records ==> t.records[x].notifier == NotifierOf(s[x].task))
    requires m.ctx.tracker.staged[c] + m.ctx.tracker.grouped[c] ==
             Attempts(s, step.a, c) + if c in hit then 1 else 0
    ensures HeardAndCounted(s, step, x, c)
  {
    hide Enabled, Next, InterruptedBy, Notify;
    NotifyHeard(s[step.a := m], t, hit, x);
  }

  lemma ShutdownHeard(s: Sys, a: Id, order: seq<Group>, x: Id, c: Id)
    requires SysInv(s) && Enabled(s, Step.Shutdown(a, order)) && x in s
    ensures HeardAndCounted(s, Step.Shutdown(a, order), x, c)
  {
    hide SysInv, HeardAndCounted, Notify, Tracker.Hit, Tracker.Advance, Tracker.IsFinished, Tracker.ValidOrder;
    NotifierFits(s, a, x);
    var t := s[a].ctx.tracker;
    AdvanceCounts(t, order, c);
    var m := s[a].(ctx := s[a].ctx.Shutdown(order));
    NotifyHeard(s[a := m], t, t.Hit(order), x);
    NotifiedHeard(s, Step.Shutdown(a, order), m, t, t.Hit(order), x, c);
  }

  lemma GroupHitIsRecorded(t: Tracker, group: Group)
    ensures t.GroupHit(group) <= t.records.Keys
  {
  }

  lemma GroupHeard(s: Sys, a: Id, group: Group, x: Id, c: Id)
    requires SysInv(s) && Enabled(s, Step.TerminateGroup(a, group)) && x in s
    ensures HeardAndCounted(s, Step.TerminateGroup(a, group), x, c)
  {
    hide SysInv, HeardAndCounted, Notify, Tracker.GroupHit;
    NotifierFits(s, a, x);
    var t := s[a].ctx.tracker;
    GroupHitIsRecorded(t, group);
    var m := s[a].(ctx := s[a].ctx.(tracker := t.TerminateGroup(group)));
    NotifyHeard(s[a := m], t, t.GroupHit(group), x);
    NotifiedHeard(s, Step.TerminateGroup(a, group), m, t, t.GroupHit(group), x, c);
  }

  lemma InsertCounts(t: Tracker, d: Id, group: Group, notifier: Notifier, c: Id)
    ensures var u := t.Insert(d, group, notifier);
            && u.staged[c] == t.staged[c] + (if t.StageOf(group).terminating && c == d then 1 else 0)
            && u.grouped == t.grouped && u.records == t.records[d := Record(group, notifier)]
  {
  }

  lemma InsertNotifies(s: Sys, a: Id, x: Id)
    requires Enabled(s, Inserted(a)) && x in s
    ensures var n := s[a];
            var Child(d, group) := n.pending.value;
            var t := n.ctx.tracker.Insert(d, group, NotifierOf(d in s && s[d].task));
            var hit := InterruptedBy(s, Inserted(a));
            var next := Notify(s[a := n.(pending := None, ctx := n.ctx.(tracker := t))], t, hit);
            && x in Next(s, Inserted(a)) && x in next && Next(s, Inserted(a))[x] == next[x]
            && (forall c :: c in hit <==> n.ctx.tracker.StageOf(group).terminating && c == d)
  {
    hide Notify, Tracker.Insert, Tracker.StageOf;
    var n := s[a];
    var Child(d, group) := n.pending.value;
    var t := n.ctx.tracker.Insert(d, group, NotifierOf(d in s && s[d].task));
    NotifyKeepsOver(s[a := n.(pending := None, ctx := n.ctx.(tracker := t))], t, InterruptedBy(s, Inserted(a)));
  }

  lemma InsertHeard(s: Sys, a: Id, x: Id, c: Id)
    requires SysInv(s) && Enabled(s, Inserted(a)) && x in s
    ensures HeardAndCounted(s, Inserted(a), x, c)
  {
    hide SysInv, HeardAndCounted, Notify, Next, InterruptedBy, Tracker.Insert, Tracker.StageOf;
    NotifierFits(s, a, x);
    var n := s[a];
    var Child(d, group) := n.pending.value;
    var notifier := NotifierOf(d in s && s[d].task);
    InsertCounts(n.ctx.tracker, d, group, notifier, c);
    InsertNotifies(s, a, x);
    var t := n.ctx.tracker.Insert(d, group, notifier);
    NotifiedHeard(s, Inserted(a), n.(pending := None, ctx := n.ctx.(tracker := t)), t,
                  InterruptedBy(s, Inserted(a)), x, c);
  }

  lemma DoneCounts(c: Ctx, id: Id, order: seq<Group>, x: Id)
    ensures var t, d := c.tracker, c.ChildDone(id, order).tracker;
            && d.staged[x] == t.staged[x] + (if x in DoneHit(t, id, order) then 1 else 0)
            && d.grouped == t.grouped && DoneHit(t, id, order) <= t.Forget(id).records.Keys
    ensures forall y <- c.tracker.Forget(id).records ::
              y in c.tracker.records && c.tracker.Forget(id).records[y] == c.tracker.records[y]
  {
    AdvanceCounts(c.tracker.Forget(id), order, x);
    hide Tracker.Advance, Tracker.Hit;
  }

  lemma IdlePollHeard(s: Sys, a: Id, now: int, pick: M.Timed<Message>, order: seq<Group>, x: Id, c: Id)
    requires Enabled(s, Step.Poll(a, now, pick, order)) && x in s && !s[a].box.Polled(now, pick).CallDone?
    ensures HeardAndCounted(s, Step.Poll(a, now, pick, order), x, c)
  {
    hide M.Mailbox.Poll, M.Mailbox.Polled, M.Mailbox.MayPick, Tracker.ValidOrder;
    PollStaysOpen(s[a].box, now, pick);
  }

  lemma PollHeard(s: Sys, a: Id, now: int, pick: M.Timed<Message>, order: seq<Group>, x: Id, c: Id)
    requires SysInv(s) && Enabled(s, Step.Poll(a, now, pick, order)) && x in s
    ensures HeardAndCounted(s, Step.Poll(a, now, pick, order), x, c)
  {
    hide SysInv, HeardAndCounted, Notify, DoneHit, Ctx.ChildDone, Tracker.Forget, Tracker.ValidOrder;
    hide M.Mailbox.Poll, M.Mailbox.Polled, M.Mailbox.MayPick;
    NotifierFits(s, a, x);
    PollStaysOpen(s[a].box, now, pick);
    if s[a].box.Polled(now, pick).CallDone? {
      var id := s[a].box.Polled(now, pick).id;
      DoneCounts(s[a].ctx, id, order, c);
      var m, t := DoneTaken(s[a], now, pick, id, order), s[a].ctx.tracker.Forget(id);
      var hit := DoneHit(s[a].ctx.tracker, id, order);
      NotifyHeard(s[a := m], t, hit, x);
      NotifiedHeard(s, Step.Poll(a, now, pick, order), m, t, hit, x, c);
    } else {
      IdlePollHeard(s, a, now, pick, order, x, c);
    }
  }

  lemma PollStaysOpen(m: M.Mailbox<Message>, now: int, pick: M.Timed<Message>)
    ensures m.Poll(now, pick).open == m.open
  {
  }

  lemma QuietStepHeard(s: Sys, step: Step, x: Id, c: Id)
    requires Enabled(s, step) && x in s && !Notifies(step)
    ensures HeardAndCounted(s, step, x, c)
  {
    QuietStepIsSilent(s, step, x);
    hide Enabled, Next;
  }

  lemma QuietStepIsSilent(s: Sys, step: Step, x: Id)
    requires Enabled(s, step) && x in s && !Notifies(step)
    ensures var u := Next(s, step);
            && x in u && (Hears(u[x]) ==> Hears(s[x])) && u[x].accepted == s[x].accepted
            && u[x].ctx.tracker == s[x].ctx.tracker
  {
    hide M.Mailbox.Polled, M.Mailbox.MayPick;
  }

  lemma StepHeard(s: Sys, step: Step, x: Id, c: Id)
    requires SysInv(s) && Enabled(s, step) && x in s
    ensures HeardAndCounted(s, step, x, c)
  {
    hide SysInv, HeardAndCounted, Enabled;
    match step
    case Shutdown(a, order) => ShutdownHeard(s, a, order, x, c);
    case TerminateGroup(a, group) => GroupHeard(s, a, group, x, c);
    case Inserted(a) => InsertHeard(s, a, x, c);
    case Poll(a, now, pick, order) => PollHeard(s, a, now, pick, order, x, c);
    case _ => QuietStepHeard(s, step, x, c);
  }

  lemma InterruptsAreRecorded(s: Sys, step: Step, c: Id)
    requires Enabled(s, step) && c in InterruptedBy(s, step)
    ensures Notifies(step) && step.a in s
    ensures c in s[step.a].ctx.tracker.records || IsPending(s[step.a], c)
  {
    hide M.Mailbox.Polled, M.Mailbox.MayPick, Tracker.ValidOrder;
  }

  /** Only own children are interrupted. */
  lemma InterruptsStayInTheFamily(s: Sys, step: Step, c: Id)
    requires SysInv(s) && Enabled(s, step) && c in InterruptedBy(s, step)
    ensures Notifies(step) && step.a in s && IsChild(s, step.a, c)
  {
    hide Sound, Mailed, Told, Enabled, InterruptedBy;
    InterruptsAreRecorded(s, step, c);
    assert NodeInv(s, step.a);
  }

  // ---------------------------------------------------------------------------
  // Over whole runs
  // ---------------------------------------------------------------------------

  /** A child has accepted at most the attempts of its parent, and all of them as long as it still
      hears; nobody else is tried. */
  ghost predicate TalliedPair(s: Sys, a: Id, c: Id)
    requires a in s
  {
    if IsChild(s, a, c)
    then s[c].accepted <= Attempts(s, a, c) && (Hears(s[c]) ==> s[c].accepted == Attempts(s, a, c))
    else Attempts(s, a, c) == 0
  }

  ghost predicate Tallied(s: Sys) {
    forall a, c | a in s :: TalliedPair(s, a, c)
  }

  lemma NewcomerTried(s: Sys, step: Step, x: Id, c: Id)
    requires Enabled(s, step) && x !in s && x in Next(s, step)
    ensures Next(s, step)[x].accepted == 0 && Attempts(Next(s, step), x, c) == 0
  {
    hide Tracker.ValidOrder, M.Mailbox.MayPick, M.Mailbox.Polled, M.Mailbox.Poll;
  }

  lemma ParentsExist(s: Sys, c: Id)
    requires SysInv(s) && c in s && s[c].parent.Some?
    ensures s[c].parent.value in s
  {
    assert NodeInv(s, c);
  }

  lemma PairStaysTallied(s: Sys, step: Step, a: Id, c: Id)
    requires SysInv(s) && Enabled(s, step) && Tallied(s) && a in Next(s, step)
    ensures TalliedPair(Next(s, step), a, c)
  {
    hide SysInv, Enabled, Next, InterruptedBy, Hears, Attempts;
    NodeStep(s, step, a);
    NodeStep(s, step, c);
    if c in InterruptedBy(s, step) {
      InterruptsStayInTheFamily(s, step, c);
    }
    if c in s && s[c].parent.Some? {
      ParentsExist(s, c);
    }
    if c in s {
      StepHeard(s, step, c, c);
    } else if c in Next(s, step) {
      NewcomerTried(s, step, c, c);
    }
    if a in s {
      assert TalliedPair(s, a, c);
      StepHeard(s, step, a, c);
    } else {
      NewcomerTried(s, step, a, c);
    }
  }

  lemma StepStaysTallied(s: Sys, step: Step)
    requires SysInv(s) && Enabled(s, step) && Tallied(s)
    ensures Tallied(Next(s, step))
  {
    hide SysInv, Enabled, Next, TalliedPair;
    forall a, c | a in Next(s, step) ensures TalliedPair(Next(s, step), a, c) {
      PairStaysTallied(s, step, a, c);
    }
  }

  lemma NothingTried(s: Sys)
    requires s == map[]
    ensures Tallied(s)
  {
  }

  lemma {:induction false} TalliedHolds(states: seq<Sys>, steps: seq<Step>, i: nat)
    requires Execution(states, steps) && i < |states|
    ensures Tallied(states[i])
  {
    hide *;
    StartsEmpty(states, steps);
    if i == 0 {
      NothingTried(states[0]);
    } else {
      TalliedHolds(states, steps, i - 1);
      SysInvHolds(states, steps, i - 1);
      ExecutionStep(states, steps, i - 1);
      StepStaysTallied(states[i - 1], steps[i - 1]);
    }
  }

  /** In every reachable state a child has accepted at most as many interrupts as its parent has
      tried to send, exactly as many as long as it still has its receiver, and at most one that is
      not due to `terminate_group`. */
  lemma ChildrenHearWhatIsCounted(states: seq<Sys>, steps: seq<Step>, i: nat, a: Id, c: Id)
    requires Execution(states, steps) && i < |states| && a in states[i] && IsChild(states[i], a, c)
    ensures var s := states[i];
            && s[c].accepted <= Attempts(s, a, c)
            && (Hears(s[c]) ==> s[c].accepted == Attempts(s, a, c))
            && s[c].accepted <= 1 + s[a].ctx.tracker.grouped[c]
  {
    TalliedHolds(states, steps, i);
    SysInvHolds(states, steps, i);
    hide Execution;
    assert TalliedPair(states[i], a, c);
    assert NodeInv(states[i], a);
    assert Counted(states[i][a].ctx.tracker);
  }

  // ---------------------------------------------------------------------------
  // Accepted interrupts are in the queue
  // ---------------------------------------------------------------------------

  /** An actor that is interrupted while its queue is open finds the interrupt in it. */
  lemma InterruptsAreQueued(s: Sys, step: Step, x: Id)
    requires SysInv(s) && Enabled(s, step)
    requires x in InterruptedBy(s, step) && x in s && !s[x].task && s[x].box.open
    ensures var u := Next(s, step);
            && x in u && u[x].accepted == s[x].accepted + 1
            && u[x].box.hp == s[x].box.hp + [M.Parcel(M.Forward, Interrupt)]
            && u[x].box.hpSent == s[x].box.hpSent + [M.Parcel(M.Forward, Interrupt)]
  {
    hide SysInv, Enabled, Next, InterruptedBy;
    InterruptsStayInTheFamily(s, step, x);
    NotOwnParent(s, x);
    StepHeard(s, step, x, x);
  }

  lemma NotOwnParent(s: Sys, x: Id)
    requires SysInv(s) && x in s
    ensures !IsChild(s, x, x)
  {
    assert NodeInv(s, x);
  }

  /** The number of interrupts that were put into the queue of an actor. */
  function InterruptsSent(n: Node): nat {
    multiset(n.box.hpSent)[M.Parcel(M.Forward, Interrupt)]
  }

  lemma SentGrows(s: Sys, step: Step, x: Id)
    requires SysInv(s) && Enabled(s, step) && x in s
    ensures x in Next(s, step) && s[x].box.hpSent <= Next(s, step)[x].box.hpSent
  {
    hide SysInv, Enabled, Next, M.Legal;
    StepMoves(s, step, x);
    var m, u := s[x].box, Next(s, step)[x].box;
    if u != m {
      var act :| M.Legal(m, act) && u == M.Apply(m, act);
      M.Growth(m, act);
    }
  }

  lemma PrefixCounts<T>(short: seq<T>, long: seq<T>, e: T)
    requires short <= long
    ensures multiset(short)[e] <= multiset(long)[e]
  {
    assert long == short + long[|short|..];
  }

  lemma StepCountsSent(s: Sys, step: Step, x: Id)
    requires SysInv(s) && Enabled(s, step) && x in Next(s, step)
    requires x in s ==> s[x].accepted <= InterruptsSent(s[x])
    requires x in s ==> !s[x].task
    requires !Next(s, step)[x].task
    ensures Next(s, step)[x].accepted <= InterruptsSent(Next(s, step)[x])
  {
    hide SysInv, Enabled, Next, InterruptedBy;
    if x in s {
      StepHeard(s, step, x, x);
      SentGrows(s, step, x);
      PrefixCounts(s[x].box.hpSent, Next(s, step)[x].box.hpSent, INTERRUPT_PARCEL);
      if x in InterruptedBy(s, step) && s[x].box.open {
        InterruptsAreQueued(s, step, x);
      }
    } else {
      NewcomerTried(s, step, x, x);
    }
  }

  lemma {:induction false} AcceptedWasSent(states: seq<Sys>, steps: seq<Step>, i: nat, x: Id)
    requires Execution(states, steps) && i < |states| && x in states[i] && !states[i][x].task
    ensures states[i][x].accepted <= InterruptsSent(states[i][x])
  {
    hide *;
    StartsEmpty(states, steps);
    if i > 0 {
      SysInvHolds(states, steps, i - 1);
      ExecutionStep(states, steps, i - 1);
      if x in states[i - 1] {
        OverStep(states[i - 1], steps[i - 1], x);
        AcceptedWasSent(states, steps, i - 1, x);
      }
      StepCountsSent(states[i - 1], steps[i - 1], x);
    }
  }

  /** In every reachable state an interrupt that an actor has accepted waits in its queue, was taken
      from it and handled, or was lost when the actor dropped its receivers; and there are at
      least as many of these as were accepted. */
  lemma AcceptedInterruptsAreReal(states: seq<Sys>, steps: seq<Step>, i: nat, x: Id)
    requires Execution(states, steps) && i < |states| && x in states[i] && !states[i][x].task
    ensures var box, p := states[i][x].box, M.Parcel(M.Forward, Interrupt);
            && states[i][x].accepted <=
               multiset(box.taken)[p] + multiset(box.hp)[p] + multiset(box.lostHp)[p]
            && (states[i][x].accepted > 0 ==>
                  p in box.hp || p in box.lostHp || M.Instant(Interrupt) in box.log)
  {
    AcceptedWasSent(states, steps, i, x);
    MailIsConservedEverywhere(states, steps, i, x);
    var box, p := states[i][x].box, M.Parcel(M.Forward, Interrupt);
    hide Execution, M.AllPunctual, M.LpKept, M.DelayedKept, M.Urgent, M.Instants;
    assert multiset(box.hpSent) == multiset(box.taken) + (multiset(box.hp) + multiset(box.lostHp)) by {
      assert box.hpSent == box.taken + (box.hp + box.lostHp);
    }
    if p in box.taken {
      var q :| 0 <= q < |box.taken| && box.taken[q] == p;
      M.UrgentHas(box.taken, |box.taken|, q);
      M.InstantsFrom(box.log, |box.log|, Interrupt);
      assert box.log[..|box.log|] == box.log;
    }
  }

  // ---------------------------------------------------------------------------
  // Group terminations
  // ---------------------------------------------------------------------------

  /** `terminate_group` is heard by exactly the tracked children whose record names that group and
      who still have their receivers. */
  lemma GroupHeardExactly(s: Sys, a: Id, group: Group, x: Id)
    requires a in s && x in s && SysInv(s) && Enabled(s, Step.TerminateGroup(a, group))
    ensures var u, records := Next(s, Step.TerminateGroup(a, group)), s[a].ctx.tracker.records;
            && x in u
            && u[x].accepted ==
               s[x].accepted + if x in records && records[x].group == group && Hears(s[x]) then 1 else 0
  {
    hide SysInv, Enabled, Next, Tracker.GroupHit, Tracker.TerminateGroup, Inv;
    GroupHeard(s, a, group, x, x);
    SoundNode(s, a);
    GroupHitExactly(s[a].ctx.tracker, group, x);
    hide Sound;
  }

  lemma GroupHitExactly(t: Tracker, group: Group, x: Id)
    requires Inv(t)
    ensures x in t.GroupHit(group) <==> x in t.records && t.records[x].group == group
  {
    TerminateGroupExactly(t, group, x);
  }
}
