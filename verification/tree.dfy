/** What the supervision tree promises in every reachable state
    (meio/src/actor_runtime.rs, meio/src/lifecycle.rs, meio/src/linkage/address.rs). */
module SupervisionTree {
  import opened Lifecycle
  import opened Termination
  import opened ActorContext
  import M = Mailboxes
  import opened Options
  import opened Supervision

  // ---------------------------------------------------------------------------
  // Accounting
  // ---------------------------------------------------------------------------

  function DonesQueued(s: Sys, a: Id, c: Id): nat
    requires a in s
  {
    multiset(s[a].box.hp)[DoneParcel(c)]
  }

  /** Between handlers the records of an actor are exactly its spawned children whose Done it
      has not dispatched; each finished one of them has exactly one Done in the actor's queue,
      an unfinished one has none, and there are no other Dones. */
  lemma SupervisionAccounting(states: seq<Sys>, steps: seq<Step>, i: nat, a: Id, c: Id)
    requires Execution(states, steps) && i < |states|
    requires a in states[i] && !states[i][a].InHandler() && states[i][a].phase != Released
    ensures var s := states[i];
            && (c in s[a].ctx.tracker.records <==> IsChild(s, a, c) && c !in s[a].dispatched)
            && (c in s[a].dispatched ==> IsChild(s, a, c) && s[c].Over())
            && (DonesQueued(s, a, c) ==
                if c in s[a].ctx.tracker.records && s[c].Over() then 1 else 0)
  {
    SysInvHolds(states, steps, i);
    assert NodeInv(states[i], a);
    assert !IsPending(states[i][a], c);
  }

  /** Joiners are released only after the Done was sent: while its parent has a queue, the Done
      of a node whose join has returned is in that queue, or has been dispatched. */
  lemma JoinMeansDoneSent(states: seq<Sys>, steps: seq<Step>, i: nat, x: Id)
    requires Execution(states, steps) && i < |states|
    requires x in states[i] && states[i][x].phase == Released && states[i][x].parent.Some?
    ensures var s := states[i];
            var p := s[x].parent.value;
            p in s && (s[p].phase != Released ==> x in s[p].dispatched || DonesQueued(s, p, x) == 1)
  {
    SysInvHolds(states, steps, i);
    var s := states[i];
    assert NodeInv(s, x);
    assert NodeInv(s, s[x].parent.value);
    assert IsChild(s, s[x].parent.value, x);
  }

  // ---------------------------------------------------------------------------
  // Post-order termination of the tree
  // ---------------------------------------------------------------------------

  /** Handlers call `stop` directly only with no child on record and spawn nothing once the actor
      is not alive, and a failing Awake leaves no child on record. */
  ghost predicate Disciplined(s: Sys, step: Step) {
    match step
    case Stop(a) => a in s ==> s[a].ctx.tracker.records == map[]
    case Spawned(a, _, _, _, _) => a in s ==> s[a].ctx.alive
    case EndAwake(a, ok) => a in s ==> ok || s[a].ctx.tracker.records == map[]
    case _ => true
  }

  /** A node that has stopped has no child on record and none half-spawned. */
  ghost predicate Quiet(n: Node) {
    n.task || !n.ctx.alive || n.phase == Failed || n.Over() ==>
      n.ctx.tracker.records == map[] && n.pending == None
  }

  lemma NotifyKeepsQuiet(s: Sys, t: Tracker, hit: set<Id>, x: Id)
    requires x in s && Quiet(s[x])
    ensures Quiet(Notify(s, t, hit)[x])
  {
  }

  lemma ShutdownKeepsQuiet(n: Node, order: seq<Group>)
    requires Sound(n) && Quiet(n) && n.pending == None && n.ctx.tracker.ValidOrder(order)
    ensures Quiet(n.(ctx := n.ctx.Shutdown(order)))
  {
    ShutdownDecides(n.ctx, order);
    hide Sound, Inv, Tracker.ValidOrder, Ctx.Shutdown, Waiting;
  }

  lemma DoneKeepsQuiet(n: Node, now: int, pick: M.Timed<Message>, id: Id, order: seq<Group>)
    requires Sound(n) && Quiet(n) && n.ctx.alive && n.phase == Running && !n.task && n.pending == None
    requires id in n.ctx.tracker.records && n.ctx.tracker.Forget(id).ValidOrder(order)
    ensures Quiet(DoneTaken(n, now, pick, id, order))
  {
    DoneDecides(n.ctx, id, order);
    assert n.ctx.tracker.records[id].group in n.ctx.tracker.stages;
    hide Sound, Inv, Tracker.ValidOrder, Ctx.ChildDone, Waiting, M.Mailbox.Poll;
  }

  lemma NoPending(n: Node)
    requires Sound(n) && !n.InHandler()
    ensures n.pending == None
  {
  }

  lemma DispatchKeepsQuiet(s: Sys, a: Id, now: int, pick: M.Timed<Message>, order: seq<Group>, x: Id)
    requires a in s && x in s && Quiet(s[x]) && Quiet(s[a]) && Sound(s[a])
    requires !s[a].task && s[a].phase == Running && !s[a].busy && s[a].ctx.alive
    requires s[a].box.Polled(now, pick).CallDone? ==>
               var id := s[a].box.Polled(now, pick).id;
               id in s[a].ctx.tracker.records && s[a].ctx.tracker.Forget(id).ValidOrder(order)
    ensures x in Dispatch(s, a, now, pick, order) && Quiet(Dispatch(s, a, now, pick, order)[x])
  {
    hide Sound, M.Mailbox.Poll, M.Mailbox.Polled, Tracker.ValidOrder, Ctx.ChildDone, DoneHit;
    match s[a].box.Polled(now, pick) {
      case CallDone(id, _) =>
        NoPending(s[a]);
        DoneKeepsQuiet(s[a], now, pick, id, order);
        var m := DoneTaken(s[a], now, pick, id, order);
        hide Quiet;
        NotifyKeepsQuiet(s[a := m], s[a].ctx.tracker.Forget(id), DoneHit(s[a].ctx.tracker, id, order), x);
      case _ =>
    }
  }

  lemma InsertKeepsQuiet(s: Sys, a: Id, x: Id)
    requires a in s && x in s && Quiet(s[x]) && Quiet(s[a])
    requires s[a].InHandler() && s[a].pending.Some?
    ensures x in RecordChild(s, a) && Quiet(RecordChild(s, a)[x])
  {
    var n := s[a];
    var Child(c, group) := n.pending.value;
    var t := n.ctx.tracker.Insert(c, group, NotifierOf(c in s && s[c].task));
    var m := n.(pending := None, ctx := n.ctx.(tracker := t));
    NotifyKeepsQuiet(s[a := m], t, if n.ctx.tracker.StageOf(group).terminating then {c} else {}, x);
  }

  lemma StepKeepsQuiet(s: Sys, step: Step, x: Id)
    requires SysInv(s) && Enabled(s, step) && Disciplined(s, step)
    requires forall y <- s :: Quiet(s[y])
    requires x in Next(s, step)
    ensures Quiet(Next(s, step)[x])
  {
    hide NodeInv, Sound, Tracker.ValidOrder, M.Mailbox.MayPick, M.Mailbox.Polled, Tracker.Hit, Tracker.GroupHit;
    match step
    case Shutdown(a, order) =>
      SoundNode(s, a);
      ShutdownKeepsQuiet(s[a], order);
      var m := s[a].(ctx := s[a].ctx.Shutdown(order));
      NotifyKeepsQuiet(s[a := m], s[a].ctx.tracker, s[a].ctx.tracker.Hit(order), x);
    case TerminateGroup(a, group) =>
      var t := s[a].ctx.tracker;
      var m := s[a].(ctx := s[a].ctx.(tracker := t.TerminateGroup(group)));
      NotifyKeepsQuiet(s[a := m], t, t.GroupHit(group), x);
    case Inserted(a) => InsertKeepsQuiet(s, a, x);
    case Poll(a, now, pick, order) =>
      SoundNode(s, a);
      if s[a].box.Polled(now, pick).CallDone? {
        DoneMeansTracked(s, a, now, pick);
      }
      DispatchKeepsQuiet(s, a, now, pick, order, x);
    case Finish(a) => if !s[a].task { SoundNode(s, a); }
    case _ =>
  }

  /** This discipline is exact: a step keeps every stopped actor without a child on record if and
      only if it obeys. */
  lemma DisciplineIsExact(s: Sys, step: Step)
    requires SysInv(s) && Enabled(s, step) && forall x <- s :: Quiet(s[x])
    ensures (forall x <- Next(s, step) :: Quiet(Next(s, step)[x])) <==> Disciplined(s, step)
  {
    if Disciplined(s, step) {
      hide SysInv, Quiet, Enabled, Next, Disciplined;
      forall x <- Next(s, step) ensures Quiet(Next(s, step)[x]) {
        StepKeepsQuiet(s, step, x);
      }
    } else {
      hide SysInv, Tracker.ValidOrder, M.Mailbox.MayPick, M.Mailbox.Polled;
      assert !Quiet(Next(s, step)[step.a]);
    }
  }

  ghost predicate DisciplinedRun(states: seq<Sys>, steps: seq<Step>)
    requires Execution(states, steps)
  {
    forall i | 0 <= i < |steps| :: Disciplined(states[i], steps[i])
  }

  lemma StartsEmpty(states: seq<Sys>, steps: seq<Step>)
    requires Execution(states, steps)
    ensures states[0] == map[] && |states| == |steps| + 1
  {
  }

  lemma ExecutionStep(states: seq<Sys>, steps: seq<Step>, i: nat)
    requires Execution(states, steps) && i < |steps|
    ensures Enabled(states[i], steps[i]) && states[i + 1] == Next(states[i], steps[i])
  {
    hide Enabled, Next;
  }

  lemma DisciplinedStep(states: seq<Sys>, steps: seq<Step>, i: nat)
    requires Execution(states, steps) && DisciplinedRun(states, steps) && i < |steps|
    ensures Enabled(states[i], steps[i]) && Disciplined(states[i], steps[i])
    ensures states[i + 1] == Next(states[i], steps[i])
  {
    hide Enabled, Next, Disciplined;
  }

  lemma {:induction false} QuietHolds(states: seq<Sys>, steps: seq<Step>, i: nat)
    requires Execution(states, steps) && DisciplinedRun(states, steps) && i < |states|
    ensures SysInv(states[i]) && forall x <- states[i] :: Quiet(states[i][x])
  {
    hide *;
    SysInvHolds(states, steps, i);
    StartsEmpty(states, steps);
    if i > 0 {
      DisciplinedStep(states, steps, i - 1);
      QuietHolds(states, steps, i - 1);
      forall x <- states[i] ensures Quiet(states[i][x]) {
        StepKeepsQuiet(states[i - 1], steps[i - 1], x);
      }
    }
  }

  /** A run obeys the discipline if and only if no stopped actor ever has a child on record. */
  lemma QuietRunsExactly(states: seq<Sys>, steps: seq<Step>)
    requires Execution(states, steps)
    ensures DisciplinedRun(states, steps) <==>
            (forall i, x | 0 <= i < |states| && x in states[i] :: Quiet(states[i][x]))
  {
    if DisciplinedRun(states, steps) {
      hide Quiet;
      forall i | 0 <= i < |states| ensures forall x <- states[i] :: Quiet(states[i][x]) {
        QuietHolds(states, steps, i);
      }
    } else {
      var i :| 0 <= i < |steps| && !Disciplined(states[i], steps[i]);
      SysInvHolds(states, steps, i);
      ExecutionStep(states, steps, i);
      hide Quiet, Disciplined, SysInv, Enabled, Next;
      if forall x <- states[i] :: Quiet(states[i][x]) {
        DisciplineIsExact(states[i], steps[i]);
      }
    }
  }

  // Orphans

  /** `a` has finished and its child `c` has not. */
  predicate Orphaned(s: Sys, a: Id, c: Id) {
    a in s && IsChild(s, a, c) && s[a].Over() && !s[c].Over()
  }

  lemma NotifyKeepsOver(s: Sys, t: Tracker, hit: set<Id>)
    ensures forall x <- s ::
              && x in Notify(s, t, hit) && Notify(s, t, hit)[x].parent == s[x].parent
              && Notify(s, t, hit)[x].task == s[x].task && Notify(s, t, hit)[x].dispatched == s[x].dispatched
              && Notify(s, t, hit)[x].Over() == s[x].Over()
  {
  }

  /** The steps that send interrupts. */
  predicate Notifies(step: Step) {
    step.Shutdown? || step.TerminateGroup? || step.Inserted? || step.Poll?
  }

  lemma NotifyingKeepsOver(s: Sys, step: Step, x: Id)
    requires Enabled(s, step) && x in s && Notifies(step)
    ensures var u := Next(s, step);
            x in u && u[x].parent == s[x].parent && u[x].task == s[x].task && u[x].Over() == s[x].Over()
  {
    hide Tracker.ValidOrder, M.Mailbox.MayPick, M.Mailbox.Polled, M.Mailbox.Poll, Notify;
    match step
    case Shutdown(a, order) =>
      var t := s[a].ctx.tracker;
      NotifyKeepsOver(s[a := s[a].(ctx := s[a].ctx.Shutdown(order))], t, t.Hit(order));
    case TerminateGroup(a, group) =>
      var t := s[a].ctx.tracker;
      NotifyKeepsOver(s[a := s[a].(ctx := s[a].ctx.(tracker := t.TerminateGroup(group)))], t, t.GroupHit(group));
    case Inserted(a) =>
      var n := s[a];
      var Child(c, group) := n.pending.value;
      var t := n.ctx.tracker.Insert(c, group, NotifierOf(c in s && s[c].task));
      NotifyKeepsOver(s[a := n.(pending := None, ctx := n.ctx.(tracker := t))], t,
                      if n.ctx.tracker.StageOf(group).terminating then {c} else {});
    case Poll(a, now, pick, order) =>
      if s[a].box.Polled(now, pick).CallDone? {
        var id := s[a].box.Polled(now, pick).id;
        NotifyKeepsOver(s[a := DoneTaken(s[a], now, pick, id, order)], s[a].ctx.tracker.Forget(id),
                        DoneHit(s[a].ctx.tracker, id, order));
      }
  }

  /** A node finishes by its own `Finish` only, and its parent and kind never change. */
  lemma OverStep(s: Sys, step: Step, x: Id)
    requires Enabled(s, step) && x in s
    ensures var u := Next(s, step);
            && x in u && u[x].parent == s[x].parent && u[x].task == s[x].task
            && (u[x].Over() <==> s[x].Over() || step == Finish(x))
  {
    if Notifies(step) {
      NotifyingKeepsOver(s, step, x);
      hide Next, Enabled;
    } else {
      hide Tracker.ValidOrder;
    }
  }

  /** A newcomer has not finished, and its parent is running a handler. */
  lemma NewcomerStep(s: Sys, step: Step, x: Id)
    requires Enabled(s, step) && x !in s && x in Next(s, step)
    ensures var u := Next(s, step);
            && !u[x].Over()
            && (u[x].parent.Some? ==>
                  step.Spawned? && u[x].parent == Some(step.a) && step.a in s && !s[step.a].Over())
  {
    hide Tracker.ValidOrder, M.Mailbox.MayPick, M.Mailbox.Polled, M.Mailbox.Poll;
  }

  lemma FinishEnabled(s: Sys, a: Id)
    requires Enabled(s, Finish(a))
    ensures a in s && !s[a].Over() && !s[a].InHandler()
  {
  }

  lemma IdleNode(n: Node)
    requires Sound(n) && !n.Over() && !n.InHandler()
    ensures n.box.open && n.pending == None
    ensures forall c <- n.dispatched :: c !in n.ctx.tracker.records
  {
  }

  /** The records and the queue of a node outside of handlers tell which of its children have
      finished. */
  lemma FinishAccounts(s: Sys, a: Id, c: Id)
    requires a in s && NodeInv(s, a) && !s[a].Over() && !s[a].InHandler()
    ensures c in s[a].ctx.tracker.records && DonesQueued(s, a, c) == 0 <==> IsChild(s, a, c) && !s[c].Over()
  {
    IdleNode(s[a]);
    hide Told, Sound, DoneParcel;
  }

  lemma AtFinish(s: Sys, a: Id, c: Id)
    requires SysInv(s) && Enabled(s, Finish(a))
    ensures a in s && !s[a].Over()
    ensures c in s[a].ctx.tracker.records && DonesQueued(s, a, c) == 0 <==> IsChild(s, a, c) && !s[c].Over()
    ensures IsChild(s, a, c) ==> c != a
  {
    FinishEnabled(s, a);
    assert NodeInv(s, a) && (c in s ==> NodeInv(s, c));
    FinishAccounts(s, a, c);
    hide Sound, Family, Mailed, Told, DonesQueued, Enabled;
  }

  /** How a node of the next state came about. */
  lemma NodeStep(s: Sys, step: Step, x: Id)
    requires Enabled(s, step)
    ensures var u := Next(s, step);
            if x in s
            then x in u && u[x].parent == s[x].parent && (u[x].Over() <==> s[x].Over() || step == Finish(x))
            else x in u ==> !u[x].Over() &&
                            (u[x].parent.Some? ==>
                               step.Spawned? && u[x].parent == Some(step.a) && step.a in s && !s[step.a].Over())
  {
    if x in s {
      OverStep(s, step, x);
    } else if x in Next(s, step) {
      NewcomerStep(s, step, x);
    }
  }

  /** The only step that makes an orphan of `c` is the finish of its parent `a` with `c` on record
      and no Done of `c` in the queue of `a`. */
  lemma OrphansAreMadeExactly(s: Sys, step: Step, a: Id, c: Id)
    requires SysInv(s) && Enabled(s, step)
    ensures !Orphaned(s, a, c) && Orphaned(Next(s, step), a, c) <==>
            step == Finish(a) && a in s && c in s[a].ctx.tracker.records && DonesQueued(s, a, c) == 0
  {
    hide SysInv, Enabled, Next, DonesQueued;
    NodeStep(s, step, a);
    NodeStep(s, step, c);
    if step == Finish(a) {
      AtFinish(s, a, c);
    }
  }

  /** Whoever finishes has the Done of every child on its record in its queue. */
  ghost predicate CleanFinish(s: Sys, step: Step) {
    step.Finish? && step.a in s ==> forall c <- s[step.a].ctx.tracker.records :: DonesQueued(s, step.a, c) > 0
  }

  ghost predicate CleanRun(states: seq<Sys>, steps: seq<Step>)
    requires Execution(states, steps)
  {
    forall i | 0 <= i < |steps| :: CleanFinish(states[i], steps[i])
  }

  ghost predicate NoOrphans(s: Sys) {
    forall a, c :: !Orphaned(s, a, c)
  }

  lemma CleanStep(states: seq<Sys>, steps: seq<Step>, i: nat)
    requires Execution(states, steps) && CleanRun(states, steps) && i < |steps|
    ensures CleanFinish(states[i], steps[i])
  {
    hide Execution, CleanFinish;
  }

  lemma CleanStepKeepsNoOrphans(s: Sys, step: Step)
    requires SysInv(s) && Enabled(s, step) && CleanFinish(s, step) && NoOrphans(s)
    ensures NoOrphans(Next(s, step))
  {
    hide SysInv, Enabled, Next, DonesQueued, Orphaned;
    forall a, c ensures !Orphaned(Next(s, step), a, c) {
      OrphansAreMadeExactly(s, step, a, c);
    }
  }

  lemma {:induction false} CleanMeansNoOrphans(states: seq<Sys>, steps: seq<Step>, i: nat)
    requires Execution(states, steps) && CleanRun(states, steps) && i < |states|
    ensures NoOrphans(states[i])
  {
    StartsEmpty(states, steps);
    if i == 0 {
      assert NoOrphans(map[]);
    } else {
      hide *;
      CleanMeansNoOrphans(states, steps, i - 1);
      SysInvHolds(states, steps, i - 1);
      ExecutionStep(states, steps, i - 1);
      CleanStep(states, steps, i - 1);
      CleanStepKeepsNoOrphans(states[i - 1], steps[i - 1]);
    }
  }

  /** No state of a run has an orphan if and only if every finish in it is clean. */
  lemma CleanRunsExactly(states: seq<Sys>, steps: seq<Step>)
    requires Execution(states, steps)
    ensures CleanRun(states, steps) <==> forall i | 0 <= i < |states| :: NoOrphans(states[i])
  {
    if CleanRun(states, steps) {
      forall i | 0 <= i < |states| ensures NoOrphans(states[i]) {
        CleanMeansNoOrphans(states, steps, i);
      }
    } else {
      var i :| 0 <= i < |steps| && !CleanFinish(states[i], steps[i]);
      var a := steps[i].a;
      var c :| c in states[i][a].ctx.tracker.records && !(DonesQueued(states[i], a, c) > 0);
      SysInvHolds(states, steps, i);
      ExecutionStep(states, steps, i);
      hide SysInv, Enabled, Next, DonesQueued, Orphaned;
      OrphansAreMadeExactly(states[i], steps[i], a, c);
      assert Orphaned(states[i + 1], a, c);
      assert !NoOrphans(states[i + 1]);
    }
  }

  lemma QuietFinishIsClean(s: Sys, step: Step)
    requires Enabled(s, step) && forall x <- s :: Quiet(s[x])
    ensures CleanFinish(s, step)
  {
    hide Tracker.ValidOrder, M.Mailbox.MayPick, M.Mailbox.Polled, Setup.Fits, DonesQueued;
  }

  /** The discipline is enough for that. */
  lemma DisciplinedRunsAreClean(states: seq<Sys>, steps: seq<Step>)
    requires Execution(states, steps) && DisciplinedRun(states, steps)
    ensures CleanRun(states, steps)
  {
    hide Execution, DisciplinedRun, CleanFinish, Quiet, Enabled, Next, SysInv;
    StartsEmpty(states, steps);
    forall i | 0 <= i < |steps| ensures CleanFinish(states[i], steps[i]) {
      QuietHolds(states, steps, i);
      ExecutionStep(states, steps, i);
      QuietFinishIsClean(states[i], steps[i]);
    }
  }

  /** `path` leads from an ancestor down to a descendant. */
  ghost predicate Lineage(s: Sys, path: seq<Id>) {
    && path != [] && path[0] in s
    && (forall k | 0 <= k < |path| - 1 :: IsChild(s, path[k], path[k + 1]))
  }

  /** In every state of a run without unclean finishes, and so of every disciplined run, a
      finished actor has finished descendants only: each of them has left its routine and sent
      its Done.  In particular a returned join on a root means that its whole subtree is
      finished. */
  lemma {:induction false} PostOrderTermination(states: seq<Sys>, steps: seq<Step>, i: nat, path: seq<Id>)
    requires Execution(states, steps) && CleanRun(states, steps) && i < |states|
    requires Lineage(states[i], path) && states[i][path[0]].Over()
    ensures path[|path| - 1] in states[i] && states[i][path[|path| - 1]].Over()
  {
    if |path| > 1 {
      CleanMeansNoOrphans(states, steps, i);
      assert !Orphaned(states[i], path[0], path[1]);
      PostOrderTermination(states, steps, i, path[1..]);
    }
  }

  /** The join of a node returns before that of its descendant, that is, the node releases its
      joiners while those of the descendant wait on, exactly if the descendant is between its Done
      and the release of its own joiners. */
  lemma JoinOvertakesExactly(states: seq<Sys>, steps: seq<Step>, i: nat, path: seq<Id>)
    requires Execution(states, steps) && CleanRun(states, steps) && i < |states|
    requires Lineage(states[i], path) && path[|path| - 1] != path[0] && Enabled(states[i], Release(path[0]))
    ensures var s, c := states[i], path[|path| - 1];
            var u := Next(s, Release(path[0]));
            && c in s && c in u && u[path[0]].phase == Released
            && (u[c].phase != Released <==> s[c].phase == DoneSent)
  {
    PostOrderTermination(states, steps, i, path);
    hide Execution, CleanRun, Lineage;
  }

  // ---------------------------------------------------------------------------
  // Termination never gets stuck
  // ---------------------------------------------------------------------------

  /** The interrupt got through to `c`: it was accepted, or `c` has finished and its Done waits in
      the queue of `a`. */
  predicate GotThrough(s: Sys, a: Id, c: Id)
    requires a in s
  {
    c in s && (s[c].accepted > 0 || (s[c].Over() && DonesQueued(s, a, c) == 1))
  }

  /** Before state `i` the task `c` dropped its last StopReceiver with no interrupt accepted. */
  ghost predicate LetGoEarly(states: seq<Sys>, steps: seq<Step>, i: nat, c: Id)
    requires i <= |steps| < |states|
  {
    exists j | 0 <= j < i :: steps[j] == LetGo(c) && c in states[j] && states[j][c].accepted == 0
  }

  lemma NotifyListens(s: Sys, t: Tracker, hit: set<Id>, x: Id)
    requires x in s && s[x].task && (x in t.records ==> t.records[x].notifier == StopSignal)
    ensures var u := Notify(s, t, hit);
            && x in u && u[x].task && u[x].listening == s[x].listening
            && (!s[x].listening ==> u[x].accepted == s[x].accepted) && s[x].accepted <= u[x].accepted
  {
  }

  lemma NotifyingListens(s: Sys, step: Step, x: Id)
    requires SysInv(s) && Enabled(s, step) && x in s && s[x].task && Notifies(step)
    ensures var u := Next(s, step);
            && x in u && u[x].task && u[x].listening == s[x].listening
            && s[x].accepted <= u[x].accepted && (!s[x].listening ==> u[x].accepted == s[x].accepted)
  {
    hide SysInv, Sound, Tracker.ValidOrder, M.Mailbox.MayPick, M.Mailbox.Polled, M.Mailbox.Poll, Notify;
    match step
    case Shutdown(a, order) =>
      NotifierFits(s, a, x);
      var t := s[a].ctx.tracker;
      NotifyListens(s[a := s[a].(ctx := s[a].ctx.Shutdown(order))], t, t.Hit(order), x);
    case TerminateGroup(a, group) =>
      NotifierFits(s, a, x);
      var t := s[a].ctx.tracker;
      NotifyListens(s[a := s[a].(ctx := s[a].ctx.(tracker := t.TerminateGroup(group)))], t, t.GroupHit(group), x);
    case Inserted(a) =>
      NotifierFits(s, a, x);
      var n := s[a];
      var Child(c, group) := n.pending.value;
      var t := n.ctx.tracker.Insert(c, group, NotifierOf(c in s && s[c].task));
      NotifyListens(s[a := n.(pending := None, ctx := n.ctx.(tracker := t))], t,
                    if n.ctx.tracker.StageOf(group).terminating then {c} else {}, x);
    case Poll(a, now, pick, order) =>
      if s[a].box.Polled(now, pick).CallDone? {
        NotifierFits(s, a, x);
        var id := s[a].box.Polled(now, pick).id;
        NotifyListens(s[a := DoneTaken(s[a], now, pick, id, order)], s[a].ctx.tracker.Forget(id),
                      DoneHit(s[a].ctx.tracker, id, order), x);
      }
  }

  lemma QuietStepListens(s: Sys, step: Step, x: Id)
    requires Enabled(s, step) && x in s && s[x].task && !Notifies(step)
    ensures var u := Next(s, step);
            && x in u && u[x].task && u[x].listening == (s[x].listening && step != LetGo(x))
            && u[x].accepted == s[x].accepted
  {
  }

  /** A task hears interrupts as long as it holds a StopReceiver, and none after that. */
  lemma ListenStep(s: Sys, step: Step, x: Id)
    requires SysInv(s) && Enabled(s, step) && x in s && s[x].task
    ensures var u := Next(s, step);
            && x in u && u[x].task && u[x].listening == (s[x].listening && step != LetGo(x))
            && s[x].accepted <= u[x].accepted
            && (!s[x].listening || step == LetGo(x) ==> u[x].accepted == s[x].accepted)
  {
    if Notifies(step) {
      NotifyingListens(s, step, x);
      hide SysInv, Next, Enabled;
    } else {
      QuietStepListens(s, step, x);
      hide SysInv, Next, Enabled;
    }
  }

  lemma NotifierFits(s: Sys, a: Id, x: Id)
    requires SysInv(s) && a in s && x in s
    ensures x in s[a].ctx.tracker.records ==> s[a].ctx.tracker.records[x].notifier == NotifierOf(s[x].task)
  {
    assert NodeInv(s, a);
  }

  lemma OnlyTasksLetGo(s: Sys, c: Id)
    requires Enabled(s, LetGo(c))
    ensures c in s && s[c].task && s[c].listening
  {
  }

  lemma NewcomerListens(s: Sys, step: Step, x: Id)
    requires Enabled(s, step) && x !in s && x in Next(s, step)
    ensures var n := Next(s, step)[x]; n.listening == n.task && n.accepted == 0
  {
    hide Tracker.ValidOrder, M.Mailbox.MayPick, M.Mailbox.Polled, M.Mailbox.Poll;
  }

  lemma LetGoEarlyStep(states: seq<Sys>, steps: seq<Step>, i: nat, c: Id)
    requires i < |steps| < |states|
    ensures LetGoEarly(states, steps, i + 1, c) <==>
            LetGoEarly(states, steps, i, c) ||
            (steps[i] == LetGo(c) && c in states[i] && states[i][c].accepted == 0)
  {
  }

  /** A task that has let go and has accepted nothing. */
  predicate Unheard(s: Sys, c: Id) {
    c in s && s[c].task && !s[c].listening && s[c].accepted == 0
  }

  lemma UnheardStep(s: Sys, step: Step, c: Id)
    requires SysInv(s) && Enabled(s, step)
    ensures Unheard(Next(s, step), c) <==>
            Unheard(s, c) || (step == LetGo(c) && c in s && s[c].accepted == 0)
  {
    if step == LetGo(c) {
      OnlyTasksLetGo(s, c);
    }
    hide SysInv, Enabled, Next;
    if c in s {
      OverStep(s, step, c);
      if s[c].task {
        ListenStep(s, step, c);
      }
    } else if c in Next(s, step) {
      NewcomerListens(s, step, c);
    }
  }

  lemma NothingUnheard(states: seq<Sys>, steps: seq<Step>, c: Id)
    requires |steps| < |states| && states[0] == map[]
    ensures !Unheard(states[0], c) && !LetGoEarly(states, steps, 0, c)
  {
  }

  /** The state of a task tells whether it let go early. */
  lemma {:induction false} EarlyMeansUnheard(states: seq<Sys>, steps: seq<Step>, i: nat, c: Id)
    requires Execution(states, steps) && i < |states|
    ensures LetGoEarly(states, steps, i, c) <==> Unheard(states[i], c)
  {
    hide *;
    StartsEmpty(states, steps);
    if i == 0 {
      NothingUnheard(states, steps, c);
    } else {
      EarlyMeansUnheard(states, steps, i - 1, c);
      LetGoEarlyStep(states, steps, i - 1, c);
      SysInvHolds(states, steps, i - 1);
      ExecutionStep(states, steps, i - 1);
      UnheardStep(states[i - 1], steps[i - 1], c);
    }
  }

  /** The interrupt got through to a tracked child in a terminating stage if and only if the child
      is no task that let go early and still runs. */
  lemma GotThroughExactly(states: seq<Sys>, steps: seq<Step>, i: nat, a: Id, c: Id)
    requires Execution(states, steps) && i < |states| && a in states[i]
    requires states[i][a].phase != Released && InTerminatingStage(states[i][a].ctx.tracker, c)
    ensures var s := states[i];
            && IsChild(s, a, c)
            && (GotThrough(s, a, c) <==> s[c].Over() || !LetGoEarly(states, steps, i, c))
  {
    SysInvHolds(states, steps, i);
    StartsEmpty(states, steps);
    EarlyMeansUnheard(states, steps, i, c);
    assert NodeInv(states[i], a);
    hide LetGoEarly, Execution;
    assert states[i][a].box.open && c !in states[i][a].dispatched;
    assert IsChild(states[i], a, c);
    hide Sound, Family;
    assert Reached(states[i][c]);
    assert NodeInv(states[i], c);
    assert states[i][c].Over() ==> DonesQueued(states[i], a, c) == 1;
  }

  /** An actor that is alive and terminating has a tracked child in a terminating stage to which
      the interrupt got through, unless every such child is a task that dropped its StopReceiver
      before any interrupt and still runs.  This holds whatever the handlers spawn meanwhile. */
  lemma NeverStuck(states: seq<Sys>, steps: seq<Step>, i: nat, a: Id)
    requires Execution(states, steps) && i < |states| && a in states[i]
    requires states[i][a].phase != Released
    requires states[i][a].ctx.alive && states[i][a].ctx.tracker.terminating
    ensures var s, t := states[i], states[i][a].ctx.tracker;
            && (exists c :: InTerminatingStage(t, c))
            && ((exists c :: InTerminatingStage(t, c) && GotThrough(s, a, c)) <==>
                !(forall c | InTerminatingStage(t, c) ::
                    c in s && !s[c].Over() && LetGoEarly(states, steps, i, c)))
  {
    SysInvHolds(states, steps, i);
    assert NodeInv(states[i], a);
    assert Waiting(states[i][a].ctx);
    hide SysInv, NodeInv, Execution, LetGoEarly, GotThrough;
    var t := states[i][a].ctx.tracker;
    forall c | InTerminatingStage(t, c)
      ensures IsChild(states[i], a, c)
      ensures GotThrough(states[i], a, c) <==> states[i][c].Over() || !LetGoEarly(states, steps, i, c)
    {
      GotThroughExactly(states, steps, i, a, c);
    }
  }

  /** In particular the interrupt got through to every child if the tracked tasks in terminating
      stages hold their StopReceivers until they finish. */
  lemma NeverStuckWhileListening(states: seq<Sys>, steps: seq<Step>, i: nat, a: Id) returns (c: Id)
    requires Execution(states, steps) && i < |states| && a in states[i]
    requires states[i][a].phase != Released
    requires states[i][a].ctx.alive && states[i][a].ctx.tracker.terminating
    requires forall x: Id :: InTerminatingStage(states[i][a].ctx.tracker, x) && x in states[i] && states[i][x].task ==>
               states[i][x].listening || states[i][x].Over()
    ensures InTerminatingStage(states[i][a].ctx.tracker, c) && IsChild(states[i], a, c)
    ensures GotThrough(states[i], a, c)
  {
    NeverStuck(states, steps, i, a);
    hide Execution, GotThrough, LetGoEarly;
    c :| InTerminatingStage(states[i][a].ctx.tracker, c);
    GotThroughExactly(states, steps, i, a, c);
    EarlyMeansUnheard(states, steps, i, c);
  }
}
