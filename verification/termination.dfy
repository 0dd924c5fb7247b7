/** What staged termination promises, over every run of a tracker (meio/src/lifecycle.rs). */
module Termination {
  import opened Lifecycle

  /** The calls a tracker serves.  `order` is the hash order that the call happened to see. */
  datatype Op =
    | Insert(id: Id, group: Group, notifier: Notifier)
    | Remove(id: Id, order: seq<Group>)
    | TerminateGroup(group: Group)
    | StartTermination(order: seq<Group>)

  function Apply(t: Tracker, op: Op): Tracker {
    match op
    case Insert(id, group, notifier) => t.Insert(id, group, notifier)
    case Remove(id, order) => t.Remove(id, order)
    case TerminateGroup(group) => t.TerminateGroup(group)
    case StartTermination(order) => t.Advance(order)
  }

  /** An id the tracker has not seen; the framework makes a new id for every child. */
  predicate Fresh(t: Tracker, id: Id) {
    id !in t.records && t.staged[id] == 0
  }

  ghost predicate Legal(t: Tracker, op: Op) {
    match op
    case Insert(id, _, _) => Fresh(t, id)
    case Remove(id, order) => t.Forget(id).ValidOrder(order)
    case TerminateGroup(_) => true
    case StartTermination(order) => t.ValidOrder(order)
  }

  ghost predicate Run(states: seq<Tracker>, ops: seq<Op>) {
    && |states| == |ops| + 1
    && states[0] == NEW_TRACKER.(prioritized := states[0].prioritized)
    && (forall i | 0 <= i < |ops| :: Legal(states[i], ops[i]) && states[i + 1] == Apply(states[i], ops[i]))
  }

  /** Is the stage of this child terminating? */
  predicate InTerminatingStage(t: Tracker, id: Id) {
    id in t.records && t.StageOf(t.records[id].group).terminating
  }

  /** Every id lies in exactly the stage its record names. */
  ghost predicate Consistent(t: Tracker) {
    && (forall id <- t.records :: t.records[id].group in t.stages && id in t.stages[t.records[id].group].ids)
    && (forall g, id | g in t.stages && id in t.stages[g].ids :: id in t.records && t.records[id].group == g)
  }

  /** Every tracked child has had one staged interrupt if its stage is terminating and none
      otherwise, and no id ever gets two. */
  ghost predicate Counted(t: Tracker) {
    && (forall id <- t.records :: t.staged[id] == if InTerminatingStage(t, id) then 1 else 0)
    && (forall id :: t.staged[id] <= 1)
  }

  /** Only a terminating tracker has terminating stages. */
  ghost predicate Flagged(t: Tracker) {
    forall g <- t.stages :: t.stages[g].terminating ==> t.terminating
  }

  ghost predicate Inv(t: Tracker) {
    Consistent(t) && Counted(t) && Flagged(t)
  }

  // ---------------------------------------------------------------------------
  // One step
  // ---------------------------------------------------------------------------

  lemma InsertKeepsInv(t: Tracker, id: Id, group: Group, notifier: Notifier)
    requires Inv(t) && Fresh(t, id)
    ensures Inv(t.Insert(id, group, notifier))
  {
    var u := t.Insert(id, group, notifier);
    assert Consistent(u);
    forall c <- u.records ensures u.staged[c] == if InTerminatingStage(u, c) then 1 else 0 {
      assert c != id ==> InTerminatingStage(u, c) == InTerminatingStage(t, c);
    }
  }

  lemma ForgetKeepsInv(t: Tracker, id: Id)
    requires Inv(t)
    ensures Inv(t.Forget(id))
    ensures t.Forget(id).records == t.records - {id}
  {
    var u := t.Forget(id);
    assert Consistent(u);
    forall c <- u.records ensures u.staged[c] == if InTerminatingStage(u, c) then 1 else 0 {
      assert InTerminatingStage(u, c) == InTerminatingStage(t, c);
    }
  }

  /** A group termination tries every tracked child of that group once, and no other child. */
  lemma TerminateGroupExactly(t: Tracker, group: Group, id: Id)
    requires Inv(t)
    ensures t.TerminateGroup(group).grouped[id] ==
            t.grouped[id] + if id in t.records && t.records[id].group == group then 1 else 0
    ensures t.TerminateGroup(group).(grouped := t.grouped) == t
  {
  }

  /** An insert puts the child on record, and into the stage of its group, and leaves all other
      records, stages and flags as they are; it is interrupted exactly if that stage is
      terminating. */
  lemma InsertExactly(t: Tracker, id: Id, group: Group, notifier: Notifier)
    ensures var u := t.Insert(id, group, notifier);
            && u.records == t.records[id := Record(group, notifier)]
            && u.terminating == t.terminating && u.prioritized == t.prioritized && u.grouped == t.grouped
            && u.StageOf(group) == Stage(t.StageOf(group).terminating, t.StageOf(group).ids + {id})
            && (forall g | g != group :: u.StageOf(g) == t.StageOf(g))
            && (forall c :: u.staged[c] == t.staged[c] + if c == id && t.StageOf(group).terminating then 1 else 0)
  {
  }

  /** The stage of a tracked child is reached by the walk only if it is the one it stops at. */
  lemma ReachedMembers(t: Tracker, order: seq<Group>, id: Id)
    requires Consistent(t) && id in t.records
    ensures var k := Frontier(t.stages, order);
            t.records[id].group in t.Reached(order) <==> k < |order| && order[k] == t.records[id].group
  {
    var g, k := t.records[id].group, Frontier(t.stages, order);
    assert Occupied(t.stages, g);
    if g in t.Reached(order) {
      var j :| 0 <= j < |order| && j <= k && order[j] == g;
    }
  }

  lemma AdvanceKeepsInv(t: Tracker, order: seq<Group>)
    requires Inv(t)
    ensures Inv(t.Advance(order))
  {
    var u := t.Advance(order);
    assert Consistent(u);
    forall id <- u.records ensures u.staged[id] == if InTerminatingStage(u, id) then 1 else 0 {
      ReachedMembers(t, order, id);
      assert t.staged[id] == if InTerminatingStage(t, id) then 1 else 0;
    }
    forall id ensures u.staged[id] <= 1 {
      if id in t.Hit(order) {
        assert !InTerminatingStage(t, id);
      }
    }
  }

  /** Every tracked child whose stage starts to terminate in the walk is interrupted by it. */
  lemma AdvanceInterruptsNewcomers(t: Tracker, order: seq<Group>, id: Id)
    requires Consistent(t) && InTerminatingStage(t.Advance(order), id) && !InTerminatingStage(t, id)
    ensures id in t.Hit(order)
  {
    ReachedMembers(t, order, id);
  }

  lemma Position(order: seq<Group>, g: Group) returns (j: nat)
    requires g in order
    ensures j < |order| && order[j] == g
  {
    j :| 0 <= j < |order| && order[j] == g;
  }

  lemma OrderCovers(t: Tracker, order: seq<Group>, g: Group)
    requires t.ValidOrder(order) && g in t.stages
    ensures g in order
  {
  }

  /** After a step of the walk nothing is left to do exactly when no child is tracked; and if
      a child is tracked, the stage of some child is terminating. */
  lemma AdvanceDecides(t: Tracker, order: seq<Group>)
    requires Inv(t) && t.ValidOrder(order)
    ensures t.Advance(order).IsFinished() <==> t.records == map[]
    ensures t.records != map[] ==> exists id :: InTerminatingStage(t.Advance(order), id)
  {
    if t.records == map[] {
      AllReached(t, order);
    } else {
      var id :| id in t.records;
      SomeInterrupted(t, order, id);
    }
  }

  lemma AllReached(t: Tracker, order: seq<Group>)
    requires Consistent(t) && t.ValidOrder(order) && t.records == map[]
    ensures t.Advance(order).IsFinished()
  {
    var k := Frontier(t.stages, order);
    assert forall g <- t.stages :: t.stages[g].ids <= t.records.Keys;
    assert forall g <- t.stages :: t.stages[g].ids == {};
    forall g <- t.stages ensures g in t.Reached(order) && t.stages[g].ids == {} {
      OrderCovers(t, order, g);
      var j := Position(order, g);
      assert !Occupied(t.stages, g);
    }
  }

  lemma SomeInterrupted(t: Tracker, order: seq<Group>, id: Id)
    requires Consistent(t) && t.ValidOrder(order) && id in t.records
    ensures !t.Advance(order).IsFinished()
    ensures exists c :: InTerminatingStage(t.Advance(order), c)
  {
    var u, k := t.Advance(order), Frontier(t.stages, order);
    var g := t.records[id].group;
    assert Occupied(t.stages, g);
    OrderCovers(t, order, g);
    var j := Position(order, g);
    var c :| c in t.stages[order[k]].ids;
    assert order[k] in t.Reached(order);
    assert InTerminatingStage(u, c);
    assert !u.stages[order[k]].IsFinished();
  }

  lemma StepKeepsInv(t: Tracker, op: Op)
    requires Inv(t) && Legal(t, op)
    ensures Inv(Apply(t, op))
  {
    match op
    case Insert(id, group, notifier) => InsertKeepsInv(t, id, group, notifier);
    case Remove(id, order) =>
      ForgetKeepsInv(t, id);
      if t.terminating {
        AdvanceKeepsInv(t.Forget(id), order);
      }
    case TerminateGroup(group) =>
    case StartTermination(order) => AdvanceKeepsInv(t, order);
  }

  // ---------------------------------------------------------------------------
  // Whole runs
  // ---------------------------------------------------------------------------

  /** Exactly one staged interrupt for every tracked child whose stage is terminating, and none
      for the others, across all interleavings of the calls. */
  lemma {:induction false} InterruptedExactlyOnce(states: seq<Tracker>, ops: seq<Op>, i: nat)
    requires Run(states, ops) && i < |states|
    ensures Inv(states[i]) && states[i].prioritized == states[0].prioritized
  {
    if i > 0 {
      InterruptedExactlyOnce(states, ops, i - 1);
      StepKeepsInv(states[i - 1], ops[i - 1]);
    }
  }

  /** Stage flags and the tracker's own flag never go back to false, and stages never vanish. */
  lemma {:induction false} FlagsNeverFallBack(states: seq<Tracker>, ops: seq<Op>, i: nat, j: nat)
    requires Run(states, ops) && i <= j < |states|
    ensures states[i].terminating ==> states[j].terminating
    ensures forall g <- states[i].stages ::
              g in states[j].stages && (states[i].stages[g].terminating ==> states[j].stages[g].terminating)
    ensures states[i].staged <= states[j].staged
  {
    hide Apply, Legal;
    if i < j {
      FlagsNeverFallBack(states, ops, i, j - 1);
      StepKeepsFlags(states[j - 1], ops[j - 1]);
    }
  }

  lemma StepKeepsFlags(t: Tracker, op: Op)
    ensures t.terminating ==> Apply(t, op).terminating
    ensures forall g <- t.stages ::
              g in Apply(t, op).stages && (t.stages[g].terminating ==> Apply(t, op).stages[g].terminating)
    ensures t.staged <= Apply(t, op).staged
  {
  }

  /** `g` comes strictly before `h`: it is prioritised, and `h` is either unprioritised or has
      no occurrence up to that of `g`. */
  ghost predicate Before(prioritized: seq<Group>, g: Group, h: Group) {
    exists a | 0 <= a < |prioritized| :: prioritized[a] == g && h !in prioritized[..a + 1]
  }

  /** A walk that reaches `h` has passed every group ahead of it. */
  lemma EarlierPassed(t: Tracker, order: seq<Group>, g: Group, h: Group)
    requires t.ValidOrder(order) && Before(t.prioritized, g, h) && h in t.Reached(order)
    ensures g in t.Reached(order) && !Occupied(t.stages, g)
  {
    var k := Frontier(t.stages, order);
    var a :| 0 <= a < |t.prioritized| && t.prioritized[a] == g && h !in t.prioritized[..a + 1];
    var j :| 0 <= j < |order| && j <= k && order[j] == h;
    assert forall b | 0 <= b <= a :: order[b] == t.prioritized[..a + 1][b] != h;
    assert order[a] == g && a < j;
  }

  /** When the termination of `h` starts, every earlier group that has a stage is already
      terminating and empty. */
  lemma GroupsStartInOrder(t: Tracker, op: Op, g: Group, h: Group)
    requires Inv(t) && Legal(t, op) && Before(t.prioritized, g, h)
    requires !t.StageOf(h).terminating && Apply(t, op).StageOf(h).terminating
    ensures g in Apply(t, op).stages ==> Apply(t, op).stages[g].IsFinished()
  {
    hide Inv, Tracker.ValidOrder, Before, Tracker.Reached, Tracker.Hit;
    if op.Remove? || op.StartTermination? {
      var s := if op.Remove? then t.Forget(op.id) else t;
      EarlierPassed(s, op.order, g, h);
    }
  }

  // ---------------------------------------------------------------------------
  // No child is added once termination has begun
  // ---------------------------------------------------------------------------

  ghost predicate Orderly(states: seq<Tracker>, ops: seq<Op>)
    requires Run(states, ops)
  {
    forall i | 0 <= i < |ops| :: ops[i].Insert? ==> !states[i].terminating
  }

  /** No group ahead of a terminating one holds a child. */
  ghost predicate Staged(t: Tracker) {
    forall g, h | Before(t.prioritized, g, h) && t.StageOf(h).terminating :: t.StageOf(g).ids == {}
  }

  lemma StepKeepsStaged(t: Tracker, op: Op)
    requires Inv(t) && Staged(t) && Legal(t, op) && (op.Insert? ==> !t.terminating)
    ensures Staged(Apply(t, op))
  {
    var u := Apply(t, op);
    forall g, h | Before(u.prioritized, g, h) && u.StageOf(h).terminating
      ensures u.StageOf(g).ids == {}
    {
      if t.StageOf(h).terminating {
        assert t.StageOf(g).ids == {};
      } else {
        GroupsStartInOrder(t, op, g, h);
      }
    }
  }

  lemma {:induction false} StaysStaged(states: seq<Tracker>, ops: seq<Op>, i: nat)
    requires Run(states, ops) && Orderly(states, ops) && i < |states|
    ensures Inv(states[i]) && Staged(states[i]) && states[i].prioritized == states[0].prioritized
  {
    if i > 0 {
      StaysStaged(states, ops, i - 1);
      StepKeepsInv(states[i - 1], ops[i - 1]);
      StepKeepsStaged(states[i - 1], ops[i - 1]);
    }
  }

  /** When a child of a group gets its staged interrupt (at step `j`), every child of an
      earlier group has been removed, and no such child is tracked ever after. */
  lemma EarlierGroupsGoFirst(states: seq<Tracker>, ops: seq<Op>, j: nat, late: Id, g: Group, i: nat)
    requires Run(states, ops) && Orderly(states, ops)
    requires j < |ops| && states[j].staged[late] < states[j + 1].staged[late] && late in states[j].records
    requires Before(states[0].prioritized, g, states[j].records[late].group)
    requires j < i < |states|
    ensures states[i].StageOf(g).ids == {}
    ensures forall early <- states[i].records :: states[i].records[early].group != g
  {
    StaysStaged(states, ops, j);
    StaysStaged(states, ops, i);
    InterruptMarksStage(states[j], ops[j], late);
    FlagsNeverFallBack(states, ops, j + 1, i);
  }

  lemma InterruptMarksStage(t: Tracker, op: Op, id: Id)
    requires Inv(t) && Legal(t, op) && id in t.records
    requires t.staged[id] < Apply(t, op).staged[id]
    ensures Apply(t, op).StageOf(t.records[id].group).terminating
  {
    if op.Remove? || op.StartTermination? {
      var s := if op.Remove? then t.Forget(op.id) else t;
      if op.Remove? {
        ForgetKeepsInv(t, op.id);
      }
      assert id in s.Hit(op.order);
      ReachedMembers(s, op.order, id);
    }
  }

  lemma Extend(states: seq<Tracker>, ops: seq<Op>, op: Op) returns (longer: seq<Tracker>, all: seq<Op>)
    requires Run(states, ops) && Orderly(states, ops) && Legal(states[|ops|], op)
    requires op.Insert? ==> !states[|ops|].terminating
    ensures Run(longer, all) && Orderly(longer, all) && all == ops + [op]
    ensures longer == states + [Apply(states[|ops|], op)]
  {
    hide Apply, Legal;
    longer, all := states + [Apply(states[|ops|], op)], ops + [op];
  }

  /** The walk over the prioritised groups, none of which has a stage, and two others. */
  lemma OrdersOfTwo(t: Tracker, g: Group, h: Group)
    requires g != h && g !in t.prioritized && h !in t.prioritized && t.stages.Keys == {g, h}
    ensures t.ValidOrder(t.prioritized + [g, h])
  {
    var order := t.prioritized + [g, h];
    assert order[|t.prioritized|..] == [g, h];
    assert order[|t.prioritized|] == g && order[|t.prioritized| + 1] == h;
  }

  /** It starts the termination of the first of the two, and of that one alone. */
  lemma FirstOfTwo(t: Tracker, g: Group, h: Group)
    requires g != h && g !in t.prioritized && h !in t.prioritized && t.stages.Keys == {g, h}
    requires Occupied(t.stages, g)
    ensures var u := t.Advance(t.prioritized + [g, h]);
            && u.stages.Keys == {g, h} && u.prioritized == t.prioritized
            && u.stages[g] == Stage(true, t.stages[g].ids) && u.stages[h] == t.stages[h]
  {
    var n, order := |t.prioritized|, t.prioritized + [g, h];
    var k := Frontier(t.stages, order);
    assert forall i | 0 <= i < n :: order[i] == t.prioritized[i] && order[i] != g && order[i] != h;
    assert order[n] == g && k == n;
    assert g in t.Reached(order);
    assert h !in t.Reached(order);
  }

  /** An orderly run with priority list `p` that ends with both groups terminating and each of
      them holding a child. */
  ghost predicate Overlaps(states: seq<Tracker>, ops: seq<Op>, p: seq<Group>, g: Group, h: Group) {
    && Run(states, ops) && Orderly(states, ops) && states[0].prioritized == p
    && var t := states[|ops|];
       t.StageOf(g).terminating && t.StageOf(g).ids != {} && t.StageOf(h).terminating && t.StageOf(h).ids != {}
  }

  lemma TwoGroups(p: seq<Group>, g: Group, h: Group) returns (states: seq<Tracker>, ops: seq<Op>)
    requires g != h
    ensures Run(states, ops) && Orderly(states, ops) && |ops| == 2 && states[0].prioritized == p
    ensures states[2].prioritized == p && states[2].stages.Keys == {g, h}
    ensures states[2].stages[g] == Stage(false, {0}) && states[2].stages[h] == Stage(false, {1})
  {
    states, ops := [NEW_TRACKER.(prioritized := p)], [];
    states, ops := Extend(states, ops, Insert(0, g, Once));
    assert states[1] == NEW_TRACKER.(prioritized := p).Insert(0, g, Once);
    hide Run, Orderly;
    states, ops := Extend(states, ops, Insert(1, h, Once));
  }

  /** The second call may walk two unprioritised groups in another hash order than the first. */
  lemma UnprioritisedGroupsMayOverlap(p: seq<Group>, g: Group, h: Group)
    returns (states: seq<Tracker>, ops: seq<Op>)
    requires g != h && g !in p && h !in p
    ensures Overlaps(states, ops, p, g, h)
  {
    states, ops := TwoGroups(p, g, h);
    var t2 := states[2];
    FirstOfTwo(t2, g, h);
    OrdersOfTwo(t2, g, h);
    var t3 := t2.Advance(p + [g, h]);
    FirstOfTwo(t3, h, g);
    OrdersOfTwo(t3, h, g);
    hide Run, Orderly, Tracker.Advance, Tracker.ValidOrder;
    states, ops := Extend(states, ops, StartTermination(p + [g, h]));
    states, ops := Extend(states, ops, StartTermination(p + [h, g]));
  }

  lemma {:induction false} OneIsAhead(p: seq<Group>, g: Group, h: Group, n: nat)
    requires g != h && n <= |p| && (g in p[..n] || h in p[..n])
    ensures Before(p, g, h) || Before(p, h, g)
  {
    if g in p[..n - 1] || h in p[..n - 1] {
      OneIsAhead(p, g, h, n - 1);
    } else {
      assert p[..n] == p[..n - 1] + [p[n - 1]];
      assert p[..n - 1 + 1] == p[..n];
    }
  }

  /** Termination keeps two groups apart exactly when one of them is prioritised: otherwise, for
      every priority list, some run has both terminating while both hold a child. */
  lemma OrderIsPromisedExactly(p: seq<Group>, g: Group, h: Group)
    requires g != h
    ensures (exists states, ops :: Overlaps(states, ops, p, g, h)) <==> g !in p && h !in p
  {
    if g !in p && h !in p {
      var states, ops := UnprioritisedGroupsMayOverlap(p, g, h);
    } else {
      forall states, ops ensures !Overlaps(states, ops, p, g, h) {
        if Overlaps(states, ops, p, g, h) {
          StaysStaged(states, ops, |ops|);
          assert p[..|p|] == p;
          OneIsAhead(p, g, h, |p|);
          assert false;
        }
      }
    }
  }
}
