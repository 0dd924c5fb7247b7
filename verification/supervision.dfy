/** The supervision tree: actors and tasks that run, spawn, interrupt and finish concurrently
    (meio/src/actor_runtime.rs, meio/src/lifecycle.rs, meio/src/lite_runtime.rs).

  A system is a map from ids to nodes.  A handler is an arbitrary finite sequence of context
  calls, interleaved with the steps of all other nodes; `spawn` followed by `insert` is two
  steps, so a child may run, and even finish, before its parent has recorded it.
*/
module Supervision {
  import opened Lifecycle
  import opened Termination
  import opened ActorContext
  import opened Mailboxes
  import opened Options

  datatype Message = Interrupt | Eliminated(id: Id) | User(tag: nat)

  /** `Failed` is a failed Awake.  `DoneSent`: the node has left its routine and its Done is
      sent.  `Released`: joiners are released and the receivers are dropped. */
  datatype Phase = Asleep | Awaking | Running | Failed | DoneSent | Released

  datatype Child = Child(id: Id, group: Group)

  datatype Node = Node(
    task: bool,
    parent: Option<Id>,
    phase: Phase,
    busy: bool,                   // a handler is running
    pending: Option<Child>,       // spawned, not yet inserted
    ctx: Ctx,
    box: Mailbox<Message>,
    dispatched: set<Id>,          // children whose Done has been dispatched
    accepted: nat,                // interrupts accepted: by the queue, or as versions of the stop channel
    listening: bool)              // the StopReceiver of a task, or a clone of it, still exists
  {
    predicate Over() {
      phase == DoneSent || phase == Released
    }

    predicate InHandler() {
      !task && (phase == Awaking || (phase == Running && busy))
    }

    /** The effect of a notifier: `notify` fails once the receiver is gone. */
    function Accept(notifier: Notifier): Node {
      match notifier
      case Once =>
        if box.open
        then this.(box := box.SendInstant(Parcel(Forward, Interrupt)), accepted := accepted + 1)
        else this
      case StopSignal =>
        if listening then this.(accepted := accepted + 1) else this
    }
  }

  type Sys = map<Id, Node>

  /** What an actor is spawned with: its termination sequence, and what was sent to its address
      before the spawn. */
  datatype Setup = Setup(prioritized: seq<Group>, parcels: seq<Parcel<Message>>, messages: seq<Message>) {
    /** Only notifiers send Dones, and a task has no queues. */
    predicate Fits(task: bool) {
      && (forall p <- parcels :: !p.operation.Done?)
      && (task ==> parcels == [] && messages == [])
    }

    function Box(): Mailbox<Message> {
      EmptyMailbox().(hp := parcels, hpSent := parcels, lp := messages, lpSent := messages)
    }
  }

  const PLAIN_SETUP := Setup([], [], [])

  function NewNode(task: bool, parent: Option<Id>, setup: Setup): Node {
    Node(task, parent, if task then Running else Asleep, false, None,
         Ctx(true, NEW_TRACKER.(prioritized := setup.prioritized)), setup.Box(), {}, 0, task)
  }

  function DoneParcel(id: Id): Parcel<Message> {
    Parcel(Done(id), Eliminated(id))
  }

  function NotifierOf(task: bool): Notifier {
    if task then StopSignal else Once
  }

  /** Interrupts for the children in `hit`, as recorded by `t`. */
  function Notify(s: Sys, t: Tracker, hit: set<Id>): Sys {
    map x | x in s :: if x in hit && x in t.records then s[x].Accept(t.records[x].notifier) else s[x]
  }

  datatype Step =
    | SpawnRoot(id: Id, setup: Setup)
    | Awake(a: Id)
    | EndAwake(a: Id, ok: bool)
    | Spawned(a: Id, child: Id, task: bool, group: Group, setup: Setup)
    | Inserted(a: Id)
    | Shutdown(a: Id, order: seq<Group>)
    | Stop(a: Id)
    | TerminateGroup(a: Id, group: Group)
    | Poll(a: Id, now: int, pick: Timed<Message>, order: seq<Group>)
    | EndHandler(a: Id)
    | Send(a: Id, parcel: Parcel<Message>)
    | SendNormal(a: Id, message: Message)
    | LetGo(a: Id)
    | Finish(a: Id)
    | Release(a: Id)

  /** A context call may happen now. */
  predicate MayCall(s: Sys, a: Id) {
    a in s && s[a].InHandler() && s[a].pending == None
  }

  ghost predicate Enabled(s: Sys, step: Step) {
    match step
    case SpawnRoot(id, setup) => id !in s && setup.Fits(false)
    case Awake(a) => a in s && !s[a].task && s[a].phase == Asleep
    case EndAwake(a, _) => MayCall(s, a) && s[a].phase == Awaking
    case Spawned(a, child, task, _, setup) => MayCall(s, a) && child !in s && setup.Fits(task)
    case Inserted(a) => a in s && s[a].InHandler() && s[a].pending.Some?
    case Shutdown(a, order) => MayCall(s, a) && s[a].ctx.tracker.ValidOrder(order)
    case Stop(a) => MayCall(s, a)
    case TerminateGroup(a, _) => MayCall(s, a)
    case Poll(a, now, pick, order) =>
      && a in s && !s[a].task && s[a].phase == Running && !s[a].busy && s[a].ctx.alive
      && s[a].box.MayPick(now, pick)
      && (s[a].box.Polled(now, pick).CallDone? ==>
            s[a].ctx.tracker.Forget(s[a].box.Polled(now, pick).id).ValidOrder(order))
    case EndHandler(a) => MayCall(s, a) && s[a].phase == Running
    case Send(a, parcel) => a in s && !s[a].task && !parcel.operation.Done?
    case SendNormal(a, _) => a in s && !s[a].task
    case LetGo(a) => a in s && s[a].task && s[a].listening
    case Finish(a) =>
      && a in s
      && (if s[a].task then s[a].phase == Running
          else s[a].phase == Failed || (s[a].phase == Running && !s[a].busy && !s[a].ctx.alive))
    case Release(a) => a in s && s[a].phase == DoneSent
  }

  /** The children that get an interrupt when the Done of `id` is dispatched. */
  function DoneHit(t: Tracker, id: Id, order: seq<Group>): set<Id> {
    if t.terminating then t.Forget(id).Hit(order) else {}
  }

  function ShutDown(s: Sys, a: Id, order: seq<Group>): Sys
    requires a in s
  {
    var t := s[a].ctx.tracker;
    Notify(s[a := s[a].(ctx := s[a].ctx.Shutdown(order))], t, t.Hit(order))
  }

  function InterruptGroup(s: Sys, a: Id, group: Group): Sys
    requires a in s
  {
    var t := s[a].ctx.tracker;
    Notify(s[a := s[a].(ctx := s[a].ctx.(tracker := t.TerminateGroup(group)))], t, t.GroupHit(group))
  }

  function Dispatch(s: Sys, a: Id, now: int, pick: Timed<Message>, order: seq<Group>): Sys
    requires a in s
  {
    var n := s[a].(box := s[a].box.Poll(now, pick));
    match s[a].box.Polled(now, pick)
    case Idle => s[a := n]
    case Deferred => s[a := n]
    case Call(_) => s[a := n.(busy := true)]
    case CallDone(id, _) =>
      var m := n.(busy := true, ctx := n.ctx.ChildDone(id, order), dispatched := n.dispatched + {id});
      Notify(s[a := m], n.ctx.tracker.Forget(id), DoneHit(n.ctx.tracker, id, order))
  }

  function Next(s: Sys, step: Step): Sys
    requires Enabled(s, step)
  {
    match step
    case SpawnRoot(id, setup) => s[id := NewNode(false, None, setup)]
    case Awake(a) => s[a := s[a].(phase := Awaking)]
    case EndAwake(a, ok) => s[a := s[a].(phase := if ok then Running else Failed)]
    case Spawned(a, child, task, group, setup) =>
      s[a := s[a].(pending := Some(Child(child, group)))][child := NewNode(task, Some(a), setup)]
    case Inserted(a) => RecordChild(s, a)
    case Shutdown(a, order) => ShutDown(s, a, order)
    case Stop(a) => s[a := s[a].(ctx := s[a].ctx.(alive := false))]
    case TerminateGroup(a, group) => InterruptGroup(s, a, group)
    case Poll(a, now, pick, order) => Dispatch(s, a, now, pick, order)
    case EndHandler(a) => s[a := s[a].(busy := false)]
    case Send(a, parcel) => s[a := s[a].(box := s[a].box.SendInstant(parcel))]
    case SendNormal(a, message) => s[a := s[a].(box := s[a].box.SendNormal(message))]
    case LetGo(a) => s[a := s[a].(listening := false)]
    case Finish(a) => SendDone(s[a := s[a].(phase := DoneSent)], a)
    case Release(a) => s[a := s[a].(phase := Released, box := s[a].box.Close())]
  }

  /** `insert` or `insert_task`, with the immediate interrupt of a late child. */
  function RecordChild(s: Sys, a: Id): Sys
    requires a in s && s[a].pending.Some?
  {
    var n := s[a];
    var Child(c, group) := n.pending.value;
    var notifier := NotifierOf(c in s && s[c].task);
    var t := n.ctx.tracker.Insert(c, group, notifier);
    Notify(s[a := n.(pending := None, ctx := n.ctx.(tracker := t))], t,
           if n.ctx.tracker.StageOf(group).terminating then {c} else {})
  }

  /** The Done notifier of `a`; it fails once the parent has dropped its receivers. */
  function SendDone(s: Sys, a: Id): Sys
    requires a in s
  {
    match s[a].parent
    case None => s
    case Some(p) => if p in s then s[p := s[p].(box := s[p].box.SendInstant(DoneParcel(a)))] else s
  }

  ghost predicate Execution(states: seq<Sys>, steps: seq<Step>) {
    && |states| == |steps| + 1
    && states[0] == map[]
    && (forall i | 0 <= i < |steps| :: Enabled(states[i], steps[i]) && states[i + 1] == Next(states[i], steps[i]))
  }

  // ---------------------------------------------------------------------------
  // The invariant of one node and its children
  // ---------------------------------------------------------------------------

  predicate IsChild(s: Sys, a: Id, c: Id) {
    c in s && s[c].parent == Some(a)
  }

  predicate IsPending(n: Node, c: Id) {
    n.pending.Some? && n.pending.value.id == c
  }

  /** What a node promises by itself. */
  ghost predicate Sound(n: Node) {
    && Inv(n.ctx.tracker) && Waiting(n.ctx)
    && n.box.open == (n.phase != Released)
    && (n.pending.Some? ==> n.InHandler())
    && (forall id :: n.ctx.tracker.staged[id] > 0 ==> id in n.ctx.tracker.records || id in n.dispatched)
    && (forall id <- n.dispatched :: id !in n.ctx.tracker.records && !IsPending(n, id))
    && (forall id <- n.ctx.tracker.records :: !IsPending(n, id))
    && (forall p <- n.box.hp :: p.operation.Done? ==> p == DoneParcel(p.operation.id))
  }

  /** The spawned children are exactly the tracked ones, the one being spawned, and those whose
      Done has been dispatched. */
  ghost predicate Family(s: Sys, a: Id)
    requires a in s
  {
    forall c :: IsChild(s, a, c) <==>
                c in s[a].ctx.tracker.records || IsPending(s[a], c) || c in s[a].dispatched
  }

  /** A finished child has exactly one Done in the queue of its parent until it is dispatched;
      any other id has none. */
  ghost predicate Mailed(s: Sys, a: Id)
    requires a in s
  {
    && (forall c <- s[a].dispatched :: c in s && s[c].Over())
    && (s[a].box.open ==>
          forall c :: multiset(s[a].box.hp)[DoneParcel(c)] ==
                      if IsChild(s, a, c) && s[c].Over() && c !in s[a].dispatched then 1 else 0)
  }

  /** An interrupt attempt was accepted, or came after the child had dropped its receiver. */
  predicate Reached(n: Node) {
    n.accepted > 0 || (if n.task then !n.listening else n.phase == Released)
  }

  ghost predicate Told(s: Sys, a: Id)
    requires a in s
  {
    forall c <- s[a].ctx.tracker.records :: c in s ==>
      && s[a].ctx.tracker.records[c].notifier == NotifierOf(s[c].task)
      && (InTerminatingStage(s[a].ctx.tracker, c) ==> Reached(s[c]))
  }

  ghost predicate NodeInv(s: Sys, a: Id)
    requires a in s
  {
    && Sound(s[a]) && Family(s, a) && Mailed(s, a) && Told(s, a)
    && (s[a].parent.Some? ==> s[a].parent.value in s && s[a].parent.value != a)
  }

  ghost predicate SysInv(s: Sys) {
    forall a <- s :: NodeInv(s, a)
  }

  // ---------------------------------------------------------------------------
  // Framing: nodes that a step does not concern
  // ---------------------------------------------------------------------------

  /** `m` is `n`, possibly with more interrupts and other messages in its queues. */
  ghost predicate Alike(n: Node, m: Node) {
    && m == n.(box := m.box, accepted := m.accepted)
    && m.box.open == n.box.open
    && (forall c :: multiset(m.box.hp)[DoneParcel(c)] == multiset(n.box.hp)[DoneParcel(c)])
    && (forall p <- m.box.hp :: p.operation.Done? ==> p in n.box.hp)
    && n.accepted <= m.accepted
  }

  /** What a parent relies on in its child. */
  ghost predicate Kin(n: Node, m: Node) {
    && m.parent == n.parent && m.task == n.task
    && m.Over() == n.Over()
    && (Reached(n) ==> Reached(m))
  }

  lemma Undisturbed(s: Sys, u: Sys, a: Id)
    requires a in s && a in u && NodeInv(s, a) && Alike(s[a], u[a])
    requires forall c <- s :: c in u && (s[c].parent == Some(a) ==> Kin(s[c], u[c]))
    requires forall c <- u :: u[c].parent == Some(a) ==> c in s && s[c].parent == Some(a)
    ensures NodeInv(u, a)
  {
    assert forall c :: IsChild(u, a, c) <==> IsChild(s, a, c);
    assert Family(u, a);
    assert Mailed(u, a);
    assert Told(u, a) by {
      forall c | c in u[a].ctx.tracker.records && c in u
        ensures u[a].ctx.tracker.records[c].notifier == NotifierOf(u[c].task)
        ensures InTerminatingStage(u[a].ctx.tracker, c) ==> Reached(u[c])
      {
        assert IsChild(s, a, c);
      }
    }
  }

  lemma AcceptIsAlike(n: Node, notifier: Notifier)
    ensures Alike(n, n.Accept(notifier)) && Kin(n, n.Accept(notifier))
  {
  }

  /** A step that changes `a` and otherwise only delivers messages leaves the others intact. */
  lemma OthersUndisturbed(s: Sys, u: Sys, a: Id)
    requires SysInv(s) && a in s && u.Keys == s.Keys && Kin(s[a], u[a])
    requires forall x <- s | x != a :: Alike(s[x], u[x]) && Kin(s[x], u[x])
    ensures forall x <- u | x != a :: NodeInv(u, x)
  {
    hide NodeInv, Alike;
    forall x <- u | x != a ensures NodeInv(u, x) {
      Undisturbed(s, u, x);
    }
  }

  lemma AlikeItself(s: Sys, u: Sys, a: Id)
    ensures forall x | x in s && x in u && x != a && s[x] == u[x] :: Alike(s[x], u[x]) && Kin(s[x], u[x])
  {
  }

  // ---------------------------------------------------------------------------
  // Every step keeps the invariant
  // ---------------------------------------------------------------------------

  /** The receiver of `a` is gone, or its queue holds the same Dones as before. */
  ghost predicate SameDones(n: Node, m: Node) {
    m.box.open ==>
      && n.box.open
      && (forall c :: multiset(m.box.hp)[DoneParcel(c)] == multiset(n.box.hp)[DoneParcel(c)])
  }

  /** `m` is `n` with the same children. */
  ghost predicate SameHousehold(n: Node, m: Node) {
    && m.parent == n.parent && SameDones(n, m)
    && m.ctx.tracker == n.ctx.tracker && m.pending == n.pending && m.dispatched == n.dispatched
  }

  /** The node of `a` after a step that does not touch its children's standing. */
  lemma SameFamily(s: Sys, u: Sys, a: Id)
    requires a in s && a in u && NodeInv(s, a) && SameHousehold(s[a], u[a]) && Sound(u[a])
    requires u.Keys == s.Keys && u[a].parent == s[a].parent
    requires forall c <- s | c != a :: Kin(s[c], u[c])
    ensures NodeInv(u, a)
  {
    hide Sound;
    assert forall c: Id :: IsChild(u, a, c) <==> IsChild(s, a, c);
    assert forall c <- u[a].ctx.tracker.records :: IsChild(s, a, c) && c != a;
  }

  /** Steps that leave family and tracker of `a` alone. */
  lemma LocalChange(s: Sys, a: Id, m: Node)
    requires SysInv(s) && a in s && SameHousehold(s[a], m) && Kin(s[a], m) && Sound(m)
    ensures SysInv(s[a := m])
  {
    hide NodeInv, Alike, Sound, SameDones;
    AlikeItself(s, s[a := m], a);
    SameFamily(s, s[a := m], a);
    OthersUndisturbed(s, s[a := m], a);
  }

  lemma SoundNode(s: Sys, a: Id)
    requires SysInv(s) && a in s
    ensures Sound(s[a])
  {
    assert NodeInv(s, a);
  }

  lemma SendIsLocal(n: Node, parcel: Parcel<Message>, message: Message)
    requires Sound(n) && !parcel.operation.Done?
    ensures var m := n.(box := n.box.SendInstant(parcel)); SameHousehold(n, m) && Kin(n, m) && Sound(m)
    ensures var m := n.(box := n.box.SendNormal(message)); SameHousehold(n, m) && Kin(n, m) && Sound(m)
  {
  }

  lemma SendKeepsInv(s: Sys, a: Id, parcel: Parcel<Message>, message: Message)
    requires SysInv(s) && a in s && !parcel.operation.Done?
    ensures SysInv(s[a := s[a].(box := s[a].box.SendInstant(parcel))])
    ensures SysInv(s[a := s[a].(box := s[a].box.SendNormal(message))])
  {
    hide SysInv, Sound, SameHousehold, Kin;
    SoundNode(s, a);
    SendIsLocal(s[a], parcel, message);
    LocalChange(s, a, s[a].(box := s[a].box.SendInstant(parcel)));
    LocalChange(s, a, s[a].(box := s[a].box.SendNormal(message)));
  }

  lemma NewNodeSound(task: bool, parent: Option<Id>, setup: Setup)
    requires setup.Fits(task)
    ensures Sound(NewNode(task, parent, setup))
  {
  }

  /** A new node has no children yet. */
  lemma NewNodeInv(u: Sys, id: Id, task: bool, parent: Option<Id>, setup: Setup)
    requires id in u && u[id] == NewNode(task, parent, setup)
    requires setup.Fits(task)
    requires forall c <- u :: u[c].parent != Some(id)
    requires parent.Some? ==> parent.value in u && parent.value != id
    ensures NodeInv(u, id)
  {
    hide Sound;
    NewNodeSound(task, parent, setup);
  }

  lemma NoOrphanParents(s: Sys, id: Id)
    requires SysInv(s) && id !in s
    ensures forall c <- s :: s[c].parent != Some(id)
  {
    hide Sound, Family, Mailed, Told;
    forall c <- s ensures s[c].parent != Some(id) {
      assert NodeInv(s, c);
    }
  }

  lemma SpawnRootKeepsInv(s: Sys, id: Id, setup: Setup)
    requires SysInv(s) && id !in s && setup.Fits(false)
    ensures SysInv(s[id := NewNode(false, None, setup)])
  {
    hide NodeInv, Alike, Kin;
    var u := s[id := NewNode(false, None, setup)];
    NoOrphanParents(s, id);
    NewNodeInv(u, id, false, None, setup);
    AlikeItself(s, u, id);
    forall x <- s ensures NodeInv(u, x) {
      Undisturbed(s, u, x);
    }
  }

  lemma PendingIsSound(n: Node, child: Child)
    requires Sound(n) && n.InHandler() && n.pending == None
    requires child.id !in n.ctx.tracker.records && child.id !in n.dispatched
    ensures Sound(n.(pending := Some(child)))
  {
  }

  lemma SpawnedKeepsMail(s: Sys, u: Sys, a: Id, child: Id)
    requires a in s && Mailed(s, a) && child !in s && a in u && child in u && !u[child].Over()
    requires forall c <- s :: c in u && u[c].parent == s[c].parent && u[c].Over() == s[c].Over()
    requires forall c <- u :: c in s || c == child
    requires u[a].box == s[a].box && u[a].dispatched == s[a].dispatched
    ensures Mailed(u, a)
  {
    assert forall c: Id | c in s :: IsChild(u, a, c) == IsChild(s, a, c);
  }

  lemma SpawnedKeepsParent(s: Sys, a: Id, child: Child, task: bool, setup: Setup)
    requires a in s && NodeInv(s, a) && MayCall(s, a) && child.id !in s
    ensures var u := s[a := s[a].(pending := Some(child))][child.id := NewNode(task, Some(a), setup)];
            NodeInv(u, a)
  {
    hide Sound, Mailed, Reached;
    var u := s[a := s[a].(pending := Some(child))][child.id := NewNode(task, Some(a), setup)];
    assert !IsChild(s, a, child.id);
    PendingIsSound(s[a], child);
    SpawnedKeepsMail(s, u, a, child.id);
    assert forall c: Id :: IsChild(u, a, c) <==> IsChild(s, a, c) || c == child.id;
    assert forall c: Id | IsChild(s, a, c) :: u[c].task == s[c].task && Reached(s[c]) == Reached(u[c]) by {
      SameReach(s, u, a);
    }
  }

  /** Whatever `a` is, its own standing is not what its tracker is about. */
  lemma SameReach(s: Sys, u: Sys, a: Id)
    requires forall c <- s | c != a :: c in u && u[c] == s[c]
    requires a in s ==> a in u && u[a].accepted == s[a].accepted && u[a].task == s[a].task
    requires a in s ==> u[a].listening == s[a].listening && u[a].phase == s[a].phase
    ensures forall c <- s :: Reached(u[c]) == Reached(s[c])
  {
  }

  lemma SpawnedKeepsInv(s: Sys, a: Id, child: Child, task: bool, setup: Setup)
    requires SysInv(s) && MayCall(s, a) && child.id !in s && setup.Fits(task)
    ensures SysInv(s[a := s[a].(pending := Some(child))][child.id := NewNode(task, Some(a), setup)])
  {
    hide NodeInv, Alike;
    var u := s[a := s[a].(pending := Some(child))][child.id := NewNode(task, Some(a), setup)];
    SpawnedKeepsParent(s, a, child, task, setup);
    NoOrphanParents(s, child.id);
    NewNodeInv(u, child.id, task, Some(a), setup);
    AlikeItself(s, u, a);
    forall x <- s | x != a ensures NodeInv(u, x) {
      Undisturbed(s, u, x);
    }
  }

  // Steps that interrupt children

  lemma AcceptReaches(n: Node)
    requires Sound(n)
    ensures Reached(n.Accept(NotifierOf(n.task)))
  {
  }

  lemma NotifyOthers(s: Sys, a: Id, m: Node, t: Tracker, hit: set<Id>)
    requires SysInv(s) && a in s && Kin(s[a], m) && a !in hit
    ensures var u := Notify(s[a := m], t, hit);
            && u.Keys == s.Keys && u[a] == m
            && (forall x <- s :: Kin(s[x], u[x]))
            && (forall x <- u | x != a :: NodeInv(u, x))
  {
    hide NodeInv, Alike, Kin, Node.Accept;
    var u := Notify(s[a := m], t, hit);
    forall x <- s | x != a ensures Alike(s[x], u[x]) && Kin(s[x], u[x]) {
      AcceptIsAlike(s[x], if x in t.records then t.records[x].notifier else Once);
      AlikeItself(s, s, a);
    }
    OthersUndisturbed(s, u, a);
  }

  lemma HitsReached(s: Sys, a: Id, m: Node, t: Tracker, hit: set<Id>, c: Id)
    requires SysInv(s) && c in hit && c in s && c != a && c in t.records
    requires t.records[c].notifier == NotifierOf(s[c].task)
    ensures Reached(Notify(s[a := m], t, hit)[c])
  {
    hide NodeInv, Sound, Node.Accept;
    SoundNode(s, c);
    AcceptReaches(s[c]);
  }

  /** `a` has a new tracker that knows the same children. */
  lemma NewTrackerKeepsNode(s: Sys, u: Sys, a: Id, m: Node)
    requires a in s && NodeInv(s, a) && Sound(m) && m == s[a].(ctx := m.ctx)
    requires u.Keys == s.Keys && u[a] == m && (forall x <- s :: Kin(s[x], u[x]))
    requires m.ctx.tracker.records == s[a].ctx.tracker.records
    requires forall c <- m.ctx.tracker.records ::
               c in u && InTerminatingStage(m.ctx.tracker, c) && !InTerminatingStage(s[a].ctx.tracker, c) ==>
                 Reached(u[c])
    ensures NodeInv(u, a)
  {
    hide Sound, InTerminatingStage, Reached;
    assert forall c: Id :: IsChild(u, a, c) <==> IsChild(s, a, c);
    assert forall c <- m.ctx.tracker.records :: IsChild(s, a, c);
  }

  lemma NotOwnChild(s: Sys, a: Id)
    requires SysInv(s) && a in s
    ensures a !in s[a].ctx.tracker.records && !IsPending(s[a], a) && a !in s[a].dispatched
    ensures forall c <- s[a].ctx.tracker.records ::
              IsChild(s, a, c) && s[a].ctx.tracker.records[c].notifier == NotifierOf(s[c].task)
  {
    assert NodeInv(s, a);
    hide Sound, Mailed;
    assert !IsChild(s, a, a);
  }

  lemma ShutdownIsSound(n: Node, order: seq<Group>)
    requires Sound(n) && n.ctx.tracker.ValidOrder(order)
    ensures Sound(n.(ctx := n.ctx.Shutdown(order)))
    ensures n.ctx.tracker.Hit(order) <= n.ctx.tracker.records.Keys
    ensures n.ctx.Shutdown(order).tracker.records == n.ctx.tracker.records
  {
    var t := n.ctx.tracker;
    ShutdownDecides(n.ctx, order);
    var d := n.ctx.Shutdown(order);
    hide Inv, Waiting, Tracker.ValidOrder;
    assert forall id: Id :: d.tracker.staged[id] > 0 ==> t.staged[id] > 0 || id in t.Hit(order);
  }

  lemma ShutdownKeepsInv(s: Sys, a: Id, order: seq<Group>)
    requires SysInv(s) && MayCall(s, a) && s[a].ctx.tracker.ValidOrder(order)
    ensures SysInv(ShutDown(s, a, order))
  {
    hide NodeInv, Sound, Tracker.Hit, Tracker.ValidOrder, Ctx.Shutdown;
    var t, m := s[a].ctx.tracker, s[a].(ctx := s[a].ctx.Shutdown(order));
    var u := ShutDown(s, a, order);
    SoundNode(s, a);
    ShutdownIsSound(s[a], order);
    NotOwnChild(s, a);
    NotifyOthers(s, a, m, t, t.Hit(order));
    forall c <- t.records | InTerminatingStage(m.ctx.tracker, c) && !InTerminatingStage(t, c) ensures Reached(u[c]) {
      ShutdownHits(s[a], order, c);
      HitsReached(s, a, m, t, t.Hit(order), c);
    }
    NewTrackerKeepsNode(s, u, a, m);
  }

  lemma ShutdownHits(n: Node, order: seq<Group>, c: Id)
    requires Sound(n) && InTerminatingStage(n.ctx.Shutdown(order).tracker, c) && !InTerminatingStage(n.ctx.tracker, c)
    ensures c in n.ctx.tracker.Hit(order)
  {
    AdvanceInterruptsNewcomers(n.ctx.tracker, order, c);
  }

  lemma TerminateGroupIsSound(n: Node, group: Group)
    requires Sound(n)
    ensures Sound(n.(ctx := n.ctx.(tracker := n.ctx.tracker.TerminateGroup(group))))
    ensures n.ctx.tracker.GroupHit(group) <= n.ctx.tracker.records.Keys
  {
    StepKeepsWaiting(n.ctx, Event.TerminateGroup(group));
    hide Inv, Waiting;
  }

  lemma TerminateGroupKeepsInv(s: Sys, a: Id, group: Group)
    requires SysInv(s) && MayCall(s, a)
    ensures SysInv(InterruptGroup(s, a, group))
  {
    hide NodeInv, Sound;
    var t := s[a].ctx.tracker;
    var m := s[a].(ctx := s[a].ctx.(tracker := t.TerminateGroup(group)));
    SoundNode(s, a);
    TerminateGroupIsSound(s[a], group);
    NotOwnChild(s, a);
    NotifyOthers(s, a, m, t, t.GroupHit(group));
    NewTrackerKeepsNode(s, InterruptGroup(s, a, group), a, m);
  }

  lemma InsertIsSound(n: Node, notifier: Notifier)
    requires Sound(n) && n.pending.Some?
    ensures var Child(c, group) := n.pending.value;
            Sound(n.(pending := None, ctx := n.ctx.(tracker := n.ctx.tracker.Insert(c, group, notifier))))
  {
    var Child(c, group) := n.pending.value;
    assert Fresh(n.ctx.tracker, c);
    StepKeepsWaiting(n.ctx, Event.Spawned(c, group, notifier));
    hide Inv, Waiting;
  }

  lemma Inserts(t: Tracker, c: Id, group: Group, notifier: Notifier)
    requires c !in t.records
    ensures var v := t.Insert(c, group, notifier);
            && v.records == t.records[c := Record(group, notifier)]
            && (InTerminatingStage(v, c) <==> t.StageOf(group).terminating)
            && (forall x <- t.records :: InTerminatingStage(v, x) == InTerminatingStage(t, x))
  {
  }

  /** The same children, the same mail. */
  lemma MailStays(s: Sys, u: Sys, a: Id)
    requires a in s && Mailed(s, a) && u.Keys == s.Keys && (forall x <- s :: Kin(s[x], u[x]))
    requires u[a].box == s[a].box && u[a].dispatched == s[a].dispatched
    ensures Mailed(u, a)
  {
    hide Reached;
    assert forall x: Id :: IsChild(u, a, x) <==> IsChild(s, a, x);
  }

  /** `a` has recorded the child it has spawned. */
  lemma InsertKeepsFamily(s: Sys, u: Sys, a: Id, c: Id, group: Group, notifier: Notifier)
    requires a in s && Family(s, a) && s[a].pending == Some(Child(c, group))
    requires u.Keys == s.Keys && (forall x <- s :: Kin(s[x], u[x]))
    requires u[a] == s[a].(pending := None, ctx := s[a].ctx.(tracker := u[a].ctx.tracker))
    requires u[a].ctx.tracker.records == s[a].ctx.tracker.records[c := Record(group, notifier)]
    ensures Family(u, a)
  {
    hide Reached;
    assert forall x: Id :: IsChild(u, a, x) <==> IsChild(s, a, x);
  }

  lemma InsertKeepsTold(s: Sys, u: Sys, a: Id, c: Id, group: Group)
    requires a in s && Told(s, a) && c in s && c !in s[a].ctx.tracker.records
    requires u.Keys == s.Keys && (forall x <- s :: Kin(s[x], u[x]))
    requires u[a].ctx.tracker == s[a].ctx.tracker.Insert(c, group, NotifierOf(s[c].task))
    requires s[a].ctx.tracker.StageOf(group).terminating ==> Reached(u[c])
    ensures Told(u, a)
  {
    Inserts(s[a].ctx.tracker, c, group, NotifierOf(s[c].task));
    hide Reached, InTerminatingStage, Tracker.Insert;
  }

  lemma InsertKeepsInv(s: Sys, a: Id)
    requires SysInv(s) && a in s && s[a].InHandler() && s[a].pending.Some?
    ensures SysInv(RecordChild(s, a))
  {
    hide Sound, Family, Mailed, Told, Tracker.Insert, Kin, Reached;
    var Child(c, group) := s[a].pending.value;
    PendingIsChild(s, a);
    var notifier := NotifierOf(s[c].task);
    var t := s[a].ctx.tracker.Insert(c, group, notifier);
    var m := s[a].(pending := None, ctx := s[a].ctx.(tracker := t));
    var hit := if s[a].ctx.tracker.StageOf(group).terminating then {c} else {};
    var u := RecordChild(s, a);
    SoundNode(s, a);
    InsertIsSound(s[a], notifier);
    NotifyOthers(s, a, m, t, hit) by {
      assert Kin(s[a], m) by {
        ContextOnly(s[a], m);
      }
    }
    Inserts(s[a].ctx.tracker, c, group, notifier);
    if c in hit {
      HitsReached(s, a, m, t, hit, c);
    }
    assert NodeInv(s, a);
    InsertKeepsFamily(s, u, a, c, group, notifier);
    MailStays(s, u, a);
    InsertKeepsTold(s, u, a, c, group);
  }

  lemma ContextOnly(n: Node, m: Node)
    requires m == n.(pending := m.pending, ctx := m.ctx)
    ensures Kin(n, m)
  {
  }

  lemma PendingIsChild(s: Sys, a: Id)
    requires SysInv(s) && a in s && s[a].pending.Some?
    ensures IsChild(s, a, s[a].pending.value.id) && s[a].pending.value.id != a
    ensures s[a].pending.value.id !in s[a].ctx.tracker.records
  {
    assert NodeInv(s, a);
    hide Mailed, Told;
    assert IsPending(s[a], s[a].pending.value.id);
  }

  // Phases

  /** Awake, the ends of handlers, stop, a task that drops its StopReceiver. */
  lemma PhaseIsLocal(n: Node, m: Node)
    requires Sound(n) && Sound(m)
    requires m == n.(phase := m.phase, busy := m.busy, listening := m.listening, ctx := m.ctx)
    requires m.ctx.tracker == n.ctx.tracker && m.Over() == n.Over() && (m.listening ==> n.listening)
    requires m.phase == Released <==> n.phase == Released
    ensures SameHousehold(n, m) && Kin(n, m)
  {
  }

  lemma PhaseKeepsInv(s: Sys, step: Step)
    requires SysInv(s) && Enabled(s, step)
    requires step.Awake? || step.EndAwake? || step.EndHandler? || step.Stop? || step.LetGo?
    ensures SysInv(Next(s, step))
  {
    hide SysInv;
    var a := step.a;
    SoundNode(s, a);
    var m := Next(s, step)[a];
    assert Sound(m);
    hide Sound;
    PhaseIsLocal(s[a], m);
    LocalChange(s, a, m);
  }

  lemma ReleaseKeepsInv(s: Sys, a: Id)
    requires SysInv(s) && a in s && s[a].phase == DoneSent
    ensures SysInv(s[a := s[a].(phase := Released, box := s[a].box.Close())])
  {
    hide SysInv;
    SoundNode(s, a);
    var m := s[a].(phase := Released, box := s[a].box.Close());
    assert Sound(m);
    hide Sound;
    LocalChange(s, a, m);
  }

  // Finish

  lemma DoneIsSound(n: Node, id: Id)
    requires Sound(n)
    ensures Sound(n.(box := n.box.SendInstant(DoneParcel(id))))
  {
  }

  lemma MailArrives(s: Sys, u: Sys, a: Id, p: Id)
    requires a in s && !s[a].Over() && s[a].parent == Some(p) && p in s && p != a && Mailed(s, p)
    requires u == s[a := s[a].(phase := DoneSent)][p := s[p].(box := s[p].box.SendInstant(DoneParcel(a)))]
    ensures Mailed(u, p)
  {
    assert forall c: Id :: IsChild(u, p, c) <==> IsChild(s, p, c);
    assert forall c: Id | c in s && c != a :: u[c].Over() == s[c].Over();
  }

  lemma ToldStays(s: Sys, u: Sys, a: Id)
    requires a in s && a in u && Told(s, a) && u.Keys == s.Keys
    requires u[a].ctx.tracker == s[a].ctx.tracker
    requires forall c <- s[a].ctx.tracker.records :: c in s && c != a
    requires forall c <- s | c != a :: u[c].task == s[c].task && (Reached(s[c]) ==> Reached(u[c]))
    ensures Told(u, a)
  {
    hide Reached, InTerminatingStage;
  }

  lemma FamilyStays(s: Sys, u: Sys, a: Id)
    requires a in s && a in u && Family(s, a) && u.Keys == s.Keys
    requires u[a].ctx.tracker == s[a].ctx.tracker && u[a].pending == s[a].pending && u[a].dispatched == s[a].dispatched
    requires forall c <- s :: u[c].parent == s[c].parent
    ensures Family(u, a)
    ensures forall c <- s[a].ctx.tracker.records :: IsChild(s, a, c)
  {
    assert forall c: Id :: IsChild(u, a, c) <==> IsChild(s, a, c);
  }

  lemma ParentGetsMail(s: Sys, u: Sys, a: Id, p: Id)
    requires a in s && !s[a].Over() && s[a].parent == Some(p) && p in s && p != a && NodeInv(s, p)
    requires u == s[a := s[a].(phase := DoneSent)][p := s[p].(box := s[p].box.SendInstant(DoneParcel(a)))]
    ensures NodeInv(u, p)
  {
    hide Sound, Mailed, Told, Family;
    DoneIsSound(s[p], a);
    MailArrives(s, u, a, p);
    FamilyStays(s, u, p);
    ToldStays(s, u, p);
  }

  lemma FinishedNode(s: Sys, u: Sys, a: Id)
    requires a in s && NodeInv(s, a) && Enabled(s, Finish(a))
    requires u.Keys == s.Keys && u[a] == s[a].(phase := DoneSent)
    requires forall c <- s | c != a :: Kin(s[c], u[c])
    ensures NodeInv(u, a)
  {
    assert Sound(u[a]);
    SameFamily(s, u, a);
  }

  lemma FinishKeepsInv(s: Sys, a: Id)
    requires SysInv(s) && Enabled(s, Finish(a))
    ensures SysInv(SendDone(s[a := s[a].(phase := DoneSent)], a))
  {
    hide Sound, Family, Mailed, Told, Alike;
    var u := SendDone(s[a := s[a].(phase := DoneSent)], a);
    assert NodeInv(s, a);
    var parent := s[a].parent;
    if parent.Some? {
      assert NodeInv(s, parent.value);
      ParentGetsMail(s, u, a, parent.value);
    }
    FinishedNode(s, u, a);
    AlikeItself(s, u, a);
    forall x <- s | x != a && Some(x) != parent ensures NodeInv(u, x) {
      assert NodeInv(s, x);
      hide NodeInv;
      Undisturbed(s, u, x);
    }
  }

  // Poll

  /** A poll that does not take a Done. */
  lemma PollIsLocal(n: Node, now: int, pick: Timed<Message>, busy: bool)
    requires Sound(n) && n.box.open && n.phase == Running && !n.task && !n.busy
    requires !n.box.Polled(now, pick).CallDone?
    ensures var m := n.(box := n.box.Poll(now, pick), busy := busy);
            SameHousehold(n, m) && Kin(n, m) && Sound(m)
  {
    if n.box.hp != [] {
      assert n.box.hp == [n.box.hp[0]] + n.box.hp[1..];
    }
  }

  /** `n` after it has taken the Done of `id` from its queue. */
  function DoneTaken(n: Node, now: int, pick: Timed<Message>, id: Id, order: seq<Group>): Node {
    n.(box := n.box.Poll(now, pick), busy := true,
       ctx := n.ctx.ChildDone(id, order), dispatched := n.dispatched + {id})
  }

  lemma DoneInQueue(n: Node, now: int, pick: Timed<Message>)
    requires Sound(n) && n.box.Polled(now, pick).CallDone?
    ensures var id := n.box.Polled(now, pick).id;
            && n.box.hp != [] && n.box.hp[0] == DoneParcel(id) && n.box.Poll(now, pick).hp == n.box.hp[1..]
            && n.box.Poll(now, pick).open == n.box.open
            && multiset(n.box.hp)[DoneParcel(id)] > 0
  {
    assert n.box.hp[0] in n.box.hp;
  }

  /** A Done that is dispatched names a tracked child, which is over: no Done is dispatched
      before the matching insert, although the child is spawned before it. */
  lemma DoneMeansTracked(s: Sys, a: Id, now: int, pick: Timed<Message>)
    requires SysInv(s) && a in s && s[a].phase == Running && !s[a].busy
    requires s[a].box.Polled(now, pick).CallDone?
    ensures var id := s[a].box.Polled(now, pick).id;
            && IsChild(s, a, id) && s[id].Over() && id != a
            && id in s[a].ctx.tracker.records && id !in s[a].dispatched
  {
    hide Told;
    assert NodeInv(s, a);
    DoneInQueue(s[a], now, pick);
    assert !IsPending(s[a], s[a].box.Polled(now, pick).id);
  }

  lemma DoneContext(c: Ctx, id: Id, order: seq<Group>)
    requires Inv(c.tracker) && Waiting(c) && id in c.tracker.records && c.tracker.Forget(id).ValidOrder(order)
    ensures var d := c.ChildDone(id, order);
            && Inv(d.tracker) && Waiting(d) && d.tracker.records == c.tracker.records - {id}
            && (forall x: Id :: d.tracker.staged[x] > 0 ==> c.tracker.staged[x] > 0 || x in d.tracker.records)
    ensures DoneHit(c.tracker, id, order) <= c.tracker.Forget(id).records.Keys
  {
    DoneDecides(c, id, order);
    hide Inv, Waiting, Tracker.ValidOrder;
    var t, d := c.tracker, c.ChildDone(id, order).tracker;
    assert forall x: Id :: d.staged[x] > 0 ==> t.staged[x] > 0 || x in DoneHit(t, id, order);
  }

  lemma OneChildLess(n: Node, m: Node, id: Id)
    requires Sound(n) && n.pending == None
    requires m == n.(box := m.box, busy := true, ctx := m.ctx, dispatched := n.dispatched + {id})
    requires Inv(m.ctx.tracker) && Waiting(m.ctx) && m.ctx.tracker.records == n.ctx.tracker.records - {id}
    requires forall x: Id ::
               m.ctx.tracker.staged[x] > 0 ==> n.ctx.tracker.staged[x] > 0 || x in m.ctx.tracker.records
    requires m.box.open == n.box.open && forall p <- m.box.hp :: p in n.box.hp
    ensures Sound(m)
  {
    hide Inv, Waiting;
  }

  lemma DoneTakenIsSound(n: Node, now: int, pick: Timed<Message>, id: Id, order: seq<Group>)
    requires Sound(n) && n.phase == Running && !n.task && !n.busy && id in n.ctx.tracker.records
    requires n.box.Polled(now, pick).CallDone? && n.box.Polled(now, pick).id == id
    requires n.ctx.tracker.Forget(id).ValidOrder(order)
    ensures Sound(DoneTaken(n, now, pick, id, order))
    ensures DoneTaken(n, now, pick, id, order).ctx.tracker.records == n.ctx.tracker.records - {id}
    ensures DoneHit(n.ctx.tracker, id, order) <= n.ctx.tracker.Forget(id).records.Keys
  {
    DoneInQueue(n, now, pick);
    DoneContext(n.ctx, id, order);
    assert forall p <- n.box.Poll(now, pick).hp :: p in n.box.hp;
    assert Inv(n.ctx.tracker) && n.pending == None;
    hide Sound, Inv, Waiting, Tracker.ValidOrder, Ctx.ChildDone, Mailbox.Poll, Mailbox.Polled, DoneHit;
    OneChildLess(n, DoneTaken(n, now, pick, id, order), id);
  }

  lemma DoneTakenKeepsFamily(s: Sys, u: Sys, a: Id, id: Id)
    requires a in s && Family(s, a) && u.Keys == s.Keys && a in u && id in s[a].ctx.tracker.records
    requires forall c <- s :: u[c].parent == s[c].parent
    requires u[a].ctx.tracker.records == s[a].ctx.tracker.records - {id}
    requires u[a].dispatched == s[a].dispatched + {id} && u[a].pending == s[a].pending
    ensures Family(u, a)
  {
    assert forall c: Id :: IsChild(u, a, c) <==> IsChild(s, a, c);
  }

  lemma DoneTakenKeepsMail(s: Sys, u: Sys, a: Id, id: Id)
    requires a in s && Mailed(s, a) && u.Keys == s.Keys && a in u
    requires forall c <- s :: u[c].parent == s[c].parent && u[c].Over() == s[c].Over()
    requires IsChild(s, a, id) && s[id].Over() && id !in s[a].dispatched && s[a].box.open
    requires s[a].box.hp != [] && s[a].box.hp[0] == DoneParcel(id) && u[a].box.hp == s[a].box.hp[1..]
    requires u[a].dispatched == s[a].dispatched + {id}
    ensures Mailed(u, a)
  {
    assert forall c: Id :: IsChild(u, a, c) <==> IsChild(s, a, c);
    assert s[a].box.hp == [DoneParcel(id)] + u[a].box.hp;
  }

  lemma DoneTakenKeepsTold(s: Sys, u: Sys, a: Id, id: Id)
    requires a in s && Told(s, a) && u.Keys == s.Keys && a in u
    requires forall c <- s :: Kin(s[c], u[c])
    requires u[a].ctx.tracker.records == s[a].ctx.tracker.records - {id}
    requires forall c <- u[a].ctx.tracker.records :: c in s &&
               (InTerminatingStage(u[a].ctx.tracker, c) && !InTerminatingStage(s[a].ctx.tracker, c) ==> Reached(u[c]))
    ensures Told(u, a)
  {
    hide InTerminatingStage, Reached;
  }

  lemma DoneHits(n: Node, id: Id, order: seq<Group>, c: Id)
    requires Sound(n) && id in n.ctx.tracker.records && c != id
    requires InTerminatingStage(n.ctx.ChildDone(id, order).tracker, c) && !InTerminatingStage(n.ctx.tracker, c)
    ensures c in DoneHit(n.ctx.tracker, id, order)
  {
    var t := n.ctx.tracker;
    ForgetKeepsInv(t, id);
    assert !InTerminatingStage(t.Forget(id), c);
    if t.terminating {
      AdvanceInterruptsNewcomers(t.Forget(id), order, c);
    }
  }

  lemma DispatchDoneKeepsInv(s: Sys, a: Id, now: int, pick: Timed<Message>, order: seq<Group>, id: Id)
    requires SysInv(s) && a in s && s[a].phase == Running && !s[a].task && !s[a].busy
    requires s[a].box.Polled(now, pick).CallDone? && s[a].box.Polled(now, pick).id == id
    requires s[a].ctx.tracker.Forget(id).ValidOrder(order)
    ensures SysInv(Dispatch(s, a, now, pick, order))
  {
    hide Sound, Family, Mailed, Told, Kin, Reached, DoneHit;
    hide Mailbox.Poll, Mailbox.Polled, Tracker.ValidOrder, Ctx.ChildDone;
    var m := DoneTaken(s[a], now, pick, id, order);
    var t := s[a].ctx.tracker.Forget(id);
    var hit := DoneHit(s[a].ctx.tracker, id, order);
    var u := Dispatch(s, a, now, pick, order);
    DoneMeansTracked(s, a, now, pick);
    SoundNode(s, a);
    DoneTakenIsSound(s[a], now, pick, id, order);
    NotOwnChild(s, a);
    TakenIsKin(s[a], now, pick, id, order);
    NotifyOthers(s, a, m, t, hit);
    assert u[a] == m;
    forall c <- m.ctx.tracker.records
      ensures c in s &&
              (InTerminatingStage(m.ctx.tracker, c) && !InTerminatingStage(s[a].ctx.tracker, c) ==> Reached(u[c]))
    {
      assert IsChild(s, a, c) && c != a && c != id;
      if InTerminatingStage(m.ctx.tracker, c) && !InTerminatingStage(s[a].ctx.tracker, c) {
        DoneHits(s[a], id, order, c);
        HitsReached(s, a, m, t, hit, c);
      }
    }
    DoneTakenNode(s, u, a, now, pick, order, id);
  }

  lemma TakenIsKin(n: Node, now: int, pick: Timed<Message>, id: Id, order: seq<Group>)
    ensures Kin(n, DoneTaken(n, now, pick, id, order))
  {
  }

  lemma SameStanding(s: Sys, u: Sys)
    requires u.Keys == s.Keys && forall c <- s :: Kin(s[c], u[c])
    ensures forall c <- s :: u[c].parent == s[c].parent && u[c].Over() == s[c].Over()
  {
    hide Reached;
  }

  lemma DoneTakenNode(s: Sys, u: Sys, a: Id, now: int, pick: Timed<Message>, order: seq<Group>, id: Id)
    requires a in s && NodeInv(s, a) && u.Keys == s.Keys && (forall c <- s :: Kin(s[c], u[c]))
    requires s[a].phase == Running && IsChild(s, a, id) && s[id].Over()
    requires id in s[a].ctx.tracker.records && id !in s[a].dispatched
    requires s[a].box.Polled(now, pick).CallDone? && s[a].box.Polled(now, pick).id == id
    requires u[a] == DoneTaken(s[a], now, pick, id, order) && Sound(u[a])
    requires u[a].ctx.tracker.records == s[a].ctx.tracker.records - {id}
    requires forall c <- u[a].ctx.tracker.records :: c in s &&
               (InTerminatingStage(u[a].ctx.tracker, c) && !InTerminatingStage(s[a].ctx.tracker, c) ==> Reached(u[c]))
    ensures NodeInv(u, a)
  {
    hide Family, Mailed, Told, Kin, Reached, InTerminatingStage, Mailbox.Poll, Mailbox.Polled, Ctx.ChildDone;
    SameStanding(s, u);
    DoneInQueue(s[a], now, pick);
    DoneTakenKeepsFamily(s, u, a, id);
    DoneTakenKeepsMail(s, u, a, id);
    DoneTakenKeepsTold(s, u, a, id);
  }

  lemma PollKeepsInv(s: Sys, a: Id, now: int, pick: Timed<Message>, order: seq<Group>)
    requires SysInv(s) && Enabled(s, Step.Poll(a, now, pick, order))
    ensures SysInv(Dispatch(s, a, now, pick, order))
  {
    hide SysInv, Mailbox.Poll, Mailbox.Polled, Mailbox.MayPick, Tracker.ValidOrder;
    match s[a].box.Polled(now, pick) {
      case CallDone(id, _) => DispatchDoneKeepsInv(s, a, now, pick, order, id);
      case other =>
        SoundNode(s, a);
        assert s[a].box.open;
        hide Sound;
        PollIsLocal(s[a], now, pick, other.Call?);
        LocalChange(s, a, s[a].(box := s[a].box.Poll(now, pick), busy := other.Call?));
    }
  }

  lemma StepKeepsSysInv(s: Sys, step: Step)
    requires SysInv(s) && Enabled(s, step)
    ensures SysInv(Next(s, step))
  {
    hide SysInv;
    match step
    case SpawnRoot(id, setup) => SpawnRootKeepsInv(s, id, setup);
    case Spawned(a, child, task, group, setup) => SpawnedKeepsInv(s, a, Child(child, group), task, setup);
    case Inserted(a) => InsertKeepsInv(s, a);
    case Shutdown(a, order) => ShutdownKeepsInv(s, a, order);
    case TerminateGroup(a, group) => TerminateGroupKeepsInv(s, a, group);
    case Poll(a, now, pick, order) => PollKeepsInv(s, a, now, pick, order);
    case Send(a, parcel) => SendKeepsInv(s, a, parcel, Interrupt);
    case SendNormal(a, message) => SendKeepsInv(s, a, Parcel(Forward, message), message);
    case Finish(a) => FinishKeepsInv(s, a);
    case Release(a) => ReleaseKeepsInv(s, a);
    case _ => PhaseKeepsInv(s, step);
  }

  lemma {:induction false} SysInvHolds(states: seq<Sys>, steps: seq<Step>, i: nat)
    requires Execution(states, steps) && i < |states|
    ensures SysInv(states[i])
  {
    if i > 0 {
      SysInvHolds(states, steps, i - 1);
      StepKeepsSysInv(states[i - 1], steps[i - 1]);
    }
  }
}
