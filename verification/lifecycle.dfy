/** Staged termination of supervised children (meio/src/lifecycle.rs).

  A tracker keeps three structures that must agree: the record of every tracked child, the
  stage of every group that ever had a child, and the list of prioritised groups.  Two history
  fields count interrupt attempts: `staged` for those of the termination walk and of an insert
  into a terminating stage, `grouped` for those of `TerminateGroup`.
*/
module Lifecycle {

  /** Ids are opaque: only equality is used, and the framework hands out fresh ones. */
  type Id = nat

  /** Group names are opaque as well. */
  type Group = nat

  /** `Once` puts an interrupt parcel into an actor's queue, `StopSignal` sets a task's watch. */
  datatype Notifier = Once | StopSignal

  datatype Record = Record(group: Group, notifier: Notifier)

  datatype Stage = Stage(terminating: bool, ids: set<Id>) {
    predicate IsFinished() {
      terminating && ids == {}
    }
  }

  predicate Occupied(stages: map<Group, Stage>, group: Group) {
    group in stages && stages[group].ids != {}
  }

  /** The position of the first group in `order`, from `i` on, whose stage still holds a child. */
  function Frontier(stages: map<Group, Stage>, order: seq<Group>, i: nat := 0): (k: nat)
    requires i <= |order|
    ensures i <= k <= |order|
    ensures forall j | i <= j < k :: !Occupied(stages, order[j])
    ensures k < |order| ==> Occupied(stages, order[k])
    decreases |order| - i
  {
    if i == |order| || Occupied(stages, order[i]) then i else Frontier(stages, order, i + 1)
  }

  /** The stages with the flag of every group in `reached` set. */
  function Mark(stages: map<Group, Stage>, reached: set<Group>): map<Group, Stage> {
    map g | g in stages :: Stage(stages[g].terminating || g in reached, stages[g].ids)
  }

  datatype Tracker = Tracker(
    terminating: bool,
    prioritized: seq<Group>,
    stages: map<Group, Stage>,
    records: map<Id, Record>,
    staged: multiset<Id>,
    grouped: multiset<Id>)
  {
    predicate IsFinished() {
      forall g <- stages :: stages[g].IsFinished()
    }

    /** The possible results of `stage_sequence`: the prioritised groups, then the remaining
        groups that have a stage, in an arbitrary (hash) order without repetition. */
    ghost predicate ValidOrder(order: seq<Group>) {
      var p := |prioritized|;
      && prioritized <= order
      && (forall g :: g in order[p..] <==> g in stages && g !in prioritized)
      && (forall i, j | p <= i < j < |order| :: order[i] != order[j])
    }

    function Recorded(ids: set<Id>): set<Id> {
      set id | id in ids && id in records
    }

    /** The groups that a walk over `order`, from `i` on, reaches. */
    function Reached(order: seq<Group>, i: nat := 0): set<Group>
      requires i <= |order|
    {
      var k := Frontier(stages, order, i);
      set j | i <= j < |order| && j <= k :: order[j]
    }

    /** The children that a walk over `order`, from `i` on, interrupts. */
    function Hit(order: seq<Group>, i: nat := 0): set<Id>
      requires i <= |order|
    {
      var k := Frontier(stages, order, i);
      if k < |order| && !stages[order[k]].terminating then Recorded(stages[order[k]].ids) else {}
    }

    /** The walk of `try_terminate_next` in closed form: every group up to and including the
        first one that holds a child is terminating afterwards, and the only children that get
        an interrupt are those of that one group, if its termination starts now. */
    function Advance(order: seq<Group>, i: nat := 0): Tracker
      requires i <= |order|
    {
      this.(terminating := true,
            stages := Mark(stages, Reached(order, i)),
            staged := staged + multiset(Hit(order, i)))
    }

    /** `group` after its turn in the walk. */
    function Started(group: Group): Tracker
      requires group in stages
    {
      var stage := stages[group];
      this.(stages := stages[group := stage.(terminating := true)],
            staged := if stage.terminating then staged else staged + multiset(Recorded(stage.ids)))
    }

    /** The walk as the loop takes it, turn by turn. */
    function Walk(order: seq<Group>, i: nat): Tracker
      requires i <= |order|
      decreases |order| - i
    {
      if i == |order| then this
      else if order[i] !in stages then Walk(order, i + 1)
      else
        var next := Started(order[i]);
        if next.stages[order[i]].IsFinished() then next.Walk(order, i + 1) else next
    }

    function StageOf(group: Group): Stage {
      if group in stages then stages[group] else Stage(false, {})
    }

    function Insert(id: Id, group: Group, notifier: Notifier): Tracker {
      var stage := StageOf(group);
      this.(stages := stages[group := stage.(ids := stage.ids + {id})],
            records := records[id := Record(group, notifier)],
            staged := if stage.terminating then staged + multiset{id} else staged)
    }

    function Forget(id: Id): Tracker {
      if id !in records then this
      else
        var group := records[id].group;
        this.(records := records - {id},
              stages := if group in stages
                        then stages[group := stages[group].(ids := stages[group].ids - {id})]
                        else stages)
    }

    function Remove(id: Id, order: seq<Group>): Tracker {
      if terminating then Forget(id).Advance(order) else Forget(id)
    }

    function GroupHit(group: Group): set<Id> {
      Recorded(StageOf(group).ids)
    }

    function TerminateGroup(group: Group): Tracker {
      this.(grouped := grouped + multiset(GroupHit(group)))
    }
  }

  /** The walk meets its closed form. */
  lemma {:induction false} WalkIsAdvance(t: Tracker, order: seq<Group>, i: nat)
    requires i <= |order| && t.terminating
    ensures t.Walk(order, i) == t.Advance(order, i)
    decreases |order| - i
  {
    if i == |order| {
      assert t.Advance(order, i).stages == t.stages;
    } else if order[i] !in t.stages {
      WalkIsAdvance(t, order, i + 1);
      PassGroup(t, t, order, i);
    } else if t.stages[order[i]].ids == {} {
      var u := t.Started(order[i]);
      assert t.Recorded({}) == {};
      WalkIsAdvance(u, order, i + 1);
      PassGroup(t, u, order, i);
    } else {
      assert t.Reached(order, i) == {order[i]};
      assert t.Advance(order, i).stages == t.Started(order[i]).stages;
    }
  }

  lemma PassGroup(t: Tracker, u: Tracker, order: seq<Group>, i: nat)
    requires i < |order| && t.terminating && !Occupied(t.stages, order[i])
    requires u == if order[i] in t.stages then t.(stages := u.stages) else t
    requires u.stages == if order[i] in t.stages then t.stages[order[i] := Stage(true, {})] else t.stages
    ensures t.Advance(order, i) == u.Advance(order, i + 1)
  {
    SameFrontier(t.stages, u.stages, order, i + 1);
    assert t.Reached(order, i) == {order[i]} + u.Reached(order, i + 1);
    assert t.Advance(order, i).stages == u.Advance(order, i + 1).stages;
  }

  lemma SameFrontier(stages: map<Group, Stage>, other: map<Group, Stage>, order: seq<Group>, i: nat)
    requires i <= |order|
    requires forall g :: Occupied(stages, g) == Occupied(other, g)
    ensures Frontier(stages, order, i) == Frontier(other, order, i)
    decreases |order| - i
  {
  }

  const NEW_TRACKER := Tracker(false, [], map[], map[], multiset{}, multiset{})

  // ---------------------------------------------------------------------------
  // The tracker as an object
  // ---------------------------------------------------------------------------

  class LifetimeTracker {
    var terminating: bool
    var prioritized: seq<Group>
    var stages: map<Group, Stage>
    var records: map<Id, Record>
    ghost var staged: multiset<Id>
    ghost var grouped: multiset<Id>

    ghost function View(): Tracker
      reads this
    {
      Tracker(terminating, prioritized, stages, records, staged, grouped)
    }

    constructor ()
      ensures View() == NEW_TRACKER
    {
      terminating := false;
      prioritized, stages, records := [], map[], map[];
      staged, grouped := multiset{}, multiset{};
    }

    method TerminationSequence(groups: seq<Group>)
      modifies this
      ensures View() == old(View()).(prioritized := groups)
    {
      prioritized := groups;
    }

    /** `insert` and `insert_task`, which differ in the notifier only. */
    method Insert(id: Id, group: Group, notifier: Notifier)
      modifies this
      ensures View() == old(View()).Insert(id, group, notifier)
    {
      if group !in stages {
        stages := stages[group := Stage(false, {})];
      }
      var stage := stages[group];
      stages := stages[group := stage.(ids := stage.ids + {id})];
      if stage.terminating {
        staged := staged + multiset{id};
      }
      records := records[id := Record(group, notifier)];
      assert stages == old(View()).Insert(id, group, notifier).stages;
    }

    method Remove(id: Id) returns (ghost order: seq<Group>)
      modifies this
      ensures old(View()).Forget(id).ValidOrder(order)
      ensures View() == old(View()).Remove(id, order)
    {
      if id in records {
        var group := records[id].group;
        records := records - {id};
        if group in stages {
          stages := stages[group := stages[group].(ids := stages[group].ids - {id})];
        }
      }
      assert View() == old(View()).Forget(id);
      if terminating {
        order := TryTerminateNext();
      } else {
        order := StageSequence();
      }
    }

    method IsFinished() returns (b: bool)
      ensures b == View().IsFinished()
    {
      b := true;
      var rest := stages.Keys;
      while rest != {}
        invariant rest <= stages.Keys
        invariant b == forall g <- stages.Keys - rest :: stages[g].IsFinished()
        decreases |rest|
      {
        var g :| g in rest;
        b := b && stages[g].IsFinished();
        rest := rest - {g};
      }
    }

    method StageSequence() returns (sequence: seq<Group>)
      ensures View().ValidOrder(sequence)
    {
      var remained := set g | g in stages && g !in prioritized;
      sequence := prioritized;
      while remained != {}
        invariant prioritized <= sequence
        invariant forall g <- remained :: g in stages && g !in prioritized && g !in sequence
        invariant forall g <- stages :: g in prioritized || g in remained || g in sequence[|prioritized|..]
        invariant forall i | |prioritized| <= i < |sequence| ::
            sequence[i] in stages && sequence[i] !in prioritized
        invariant forall i, j | |prioritized| <= i < j < |sequence| :: sequence[i] != sequence[j]
        decreases |remained|
      {
        var g :| g in remained;
        assert sequence[|prioritized|..] + [g] == (sequence + [g])[|prioritized|..];
        sequence := sequence + [g];
        remained := remained - {g};
      }
    }

    /** Calls the notifier of every recorded child in `ids` once. */
    method InterruptAll(ids: set<Id>) returns (ghost attempts: multiset<Id>)
      ensures attempts == multiset(View().Recorded(ids))
    {
      var rest := ids;
      attempts := multiset{};
      while rest != {}
        invariant rest <= ids
        invariant attempts == multiset(View().Recorded(ids - rest))
        decreases |rest|
      {
        var id :| id in rest;
        ghost var before := View().Recorded(ids - rest);
        if id in records {
          attempts := attempts + multiset{id};
        }
        rest := rest - {id};
        assert View().Recorded(ids - rest) == if id in records then before + {id} else before;
      }
      assert ids - rest == ids;
    }

    method TerminateGroup(group: Group)
      modifies this`grouped
      ensures View() == old(View()).TerminateGroup(group)
    {
      if group in stages {
        ghost var attempts := InterruptAll(stages[group].ids);
        grouped := grouped + attempts;
      } else {
        assert View().GroupHit(group) == {};
      }
    }

    method TryTerminateNext() returns (ghost order: seq<Group>)
      modifies this
      ensures old(View()).ValidOrder(order)
      ensures View() == old(View()).Advance(order)
    {
      var sequence := StageSequence();
      order := sequence;
      Walk(sequence);
    }

    /** The loop of `try_terminate_next`, which leaves at the first unfinished stage. */
    method Walk(sequence: seq<Group>)
      modifies this
      ensures View() == old(View()).Advance(sequence)
    {
      terminating := true;
      ghost var t := View();
      WalkIsAdvance(t, sequence, 0);
      var i := 0;
      while i < |sequence|
        invariant 0 <= i <= |sequence|
        invariant View().Walk(sequence, i) == t.Walk(sequence, 0)
      {
        var name := sequence[i];
        if name in stages {
          var stage := stages[name];
          assert stage.terminating ==> stages[name := stage] == stages;
          if !stage.terminating {
            stages := stages[name := stage.(terminating := true)];
            ghost var attempts := InterruptAll(stage.ids);
            staged := staged + attempts;
          }
          if !stages[name].IsFinished() {
            break;
          }
        }
        i := i + 1;
      }
    }
  }
}
