/** Runs of the tree which show that its theorems need their conditions, and that a join says no
    more than stated (meio/src/actor_runtime.rs, meio/src/linkage/address.rs). */
module SupervisionWitnesses {
  import opened Lifecycle
  import opened Termination
  import opened ActorContext
  import M = Mailboxes
  import opened Options
  import opened Supervision
  import opened SupervisionTree

  lemma Extend(states: seq<Sys>, steps: seq<Step>, step: Step) returns (longer: seq<Sys>, all: seq<Step>)
    requires Execution(states, steps) && Enabled(states[|steps|], step)
    ensures Execution(longer, all) && all == steps + [step]
    ensures longer == states + [Next(states[|steps|], step)]
    ensures longer[|all|] == Next(states[|steps|], step)
  {
    hide Enabled, Next;
    longer, all := states + [Next(states[|steps|], step)], steps + [step];
  }

  /** A root in its Awake handler, with a running task as its recorded child. */
  lemma RootWithTask() returns (states: seq<Sys>, steps: seq<Step>)
    ensures Execution(states, steps) && DisciplinedRun(states, steps)
    ensures var s := states[|steps|];
            && s.Keys == {0, 1}
            && s[0].(ctx := s[0].ctx) == NewNode(false, None, PLAIN_SETUP).(phase := Awaking, ctx := s[0].ctx)
            && s[0].ctx == Ctx(true, NEW_TRACKER.Insert(1, 7, StopSignal))
            && s[1] == NewNode(true, Some(0), PLAIN_SETUP)
  {
    states, steps := [map[]], [];
    states, steps := Extend(states, steps, SpawnRoot(0, PLAIN_SETUP));
    states, steps := Extend(states, steps, Awake(0));
    states, steps := Extend(states, steps, Step.Spawned(0, 1, true, 7, PLAIN_SETUP));
    states, steps := Extend(states, steps, Inserted(0));
  }

  /** A direct `stop`, or a failing Awake, orphans the child. */
  lemma UndisciplinedOrphans(stop: bool) returns (states: seq<Sys>, steps: seq<Step>)
    ensures Execution(states, steps)
    ensures forall i | 0 <= i < |steps| && !Disciplined(states[i], steps[i]) ::
              if stop then steps[i].Stop? else steps[i] == EndAwake(0, false)
    ensures Orphaned(states[|steps|], 0, 1)
  {
    states, steps := RootWithTask();
    if stop {
      states, steps := Extend(states, steps, Step.Stop(0));
    }
    states, steps := Extend(states, steps, EndAwake(0, stop));
    states, steps := Extend(states, steps, Finish(0));
  }

  /** A root that a shutdown without children has stopped inside its Awake handler. */
  lemma StoppedRoot() returns (states: seq<Sys>, steps: seq<Step>)
    ensures Execution(states, steps) && DisciplinedRun(states, steps)
    ensures states[|steps|] ==
            map[0 := NewNode(false, None, PLAIN_SETUP).(phase := Awaking,
                                                        ctx := Ctx(false, NEW_TRACKER.(terminating := true)))]
  {
    states, steps := [map[]], [];
    states, steps := Extend(states, steps, SpawnRoot(0, PLAIN_SETUP));
    states, steps := Extend(states, steps, Awake(0));
    assert NEW_TRACKER.Advance([]) == NEW_TRACKER.(terminating := true);
    states, steps := Extend(states, steps, Step.Shutdown(0, []));
  }

  /** So does a handler that spawns after its shutdown has already stopped the actor. */
  lemma LateSpawnOrphans() returns (states: seq<Sys>, steps: seq<Step>)
    ensures Execution(states, steps)
    ensures forall i | 0 <= i < |steps| && !Disciplined(states[i], steps[i]) ::
              steps[i].Spawned? && 0 in states[i] && !states[i][0].ctx.alive
    ensures Orphaned(states[|steps|], 0, 1)
  {
    states, steps := StoppedRoot();
    states, steps := Extend(states, steps, Step.Spawned(0, 1, true, 7, PLAIN_SETUP));
    states, steps := Extend(states, steps, Inserted(0));
    states, steps := Extend(states, steps, EndAwake(0, true));
    states, steps := Extend(states, steps, Finish(0));
  }

  const ONE_TASK: Tracker := NEW_TRACKER.Insert(1, 7, StopSignal)

  lemma ShutdownOfOneTask()
    ensures ONE_TASK.ValidOrder([7]) && ONE_TASK.Hit([7]) == {1}
    ensures Ctx(true, ONE_TASK).Shutdown([7]) == Ctx(true, ONE_TASK.Advance([7]))
    ensures ONE_TASK.Advance([7]).Forget(1).ValidOrder([7])
    ensures ONE_TASK.Advance([7]).Remove(1, [7]).IsFinished()
    ensures ONE_TASK.Advance([7]).Forget(1).Hit([7]) == {}
    ensures ONE_TASK.Advance([7]).Remove(1, [7]).records == map[]
  {
    assert [7][0] == 7;
    assert 1 in ONE_TASK.StageOf(7).ids && ONE_TASK.stages.Keys == {7};
    assert !ONE_TASK.Advance([7]).stages[7].IsFinished();
  }

  /** The task drops its StopReceiver before its root shuts down. */
  lemma DeafTask() returns (states: seq<Sys>, steps: seq<Step>)
    ensures Execution(states, steps) && DisciplinedRun(states, steps) && |states| == |steps| + 1
    ensures var s := states[|steps|];
            && s.Keys == {0, 1} && s[1] == NewNode(true, Some(0), PLAIN_SETUP).(listening := false)
            && s[0] == NewNode(false, None, PLAIN_SETUP).(phase := Running, ctx := Ctx(true, ONE_TASK.Advance([7])))
  {
    states, steps := RootWithTask();
    ShutdownOfOneTask();
    hide Tracker.ValidOrder, Tracker.Advance, Tracker.Hit, Ctx.Shutdown;
    states, steps := Extend(states, steps, LetGo(1));
    states, steps := Extend(states, steps, Step.Shutdown(0, [7]));
    states, steps := Extend(states, steps, EndAwake(0, true));
  }

  /** A task that drops its StopReceiver before its root shuts down keeps the root waiting although
      no interrupt got through: the exception of `NeverStuck` does occur. */
  lemma EarlyTaskIsNotTold() returns (states: seq<Sys>, steps: seq<Step>)
    ensures Execution(states, steps) && DisciplinedRun(states, steps)
    ensures var s := states[|steps|];
            && s.Keys == {0, 1} && s[0].ctx.alive && s[0].ctx.tracker.terminating && s[0].phase == Running
            && s[0].ctx.tracker.records.Keys == {1} && InTerminatingStage(s[0].ctx.tracker, 1)
            && s[1].accepted == 0 && !s[1].Over() && !GotThrough(s, 0, 1)
    ensures LetGoEarly(states, steps, |steps|, 1)
  {
    states, steps := DeafTask();
    EarlyMeansUnheard(states, steps, |steps|, 1);
    hide Execution, DisciplinedRun, LetGoEarly;
    assert InTerminatingStage(ONE_TASK.Advance([7]), 1);
  }

  /** The root shuts down in its Awake handler, which interrupts the task. */
  lemma RootWaits() returns (states: seq<Sys>, steps: seq<Step>)
    ensures Execution(states, steps) && DisciplinedRun(states, steps)
    ensures var s := states[|steps|];
            && s.Keys == {0, 1} && s[1] == NewNode(true, Some(0), PLAIN_SETUP).Accept(StopSignal)
            && s[0] == NewNode(false, None, PLAIN_SETUP).(phase := Running, ctx := Ctx(true, ONE_TASK.Advance([7])))
  {
    states, steps := RootWithTask();
    ShutdownOfOneTask();
    hide Tracker.ValidOrder, Tracker.Advance, Tracker.Hit, Ctx.Shutdown;
    states, steps := Extend(states, steps, Step.Shutdown(0, [7]));
    states, steps := Extend(states, steps, EndAwake(0, true));
  }

  /** The interrupted task ends, and its Done waits. */
  lemma TaskHasReported() returns (states: seq<Sys>, steps: seq<Step>)
    ensures Execution(states, steps) && DisciplinedRun(states, steps)
    ensures var s := states[|steps|];
            && s.Keys == {0, 1} && s[1].phase == DoneSent && s[1].parent == Some(0)
            && s[0] == NewNode(false, None, PLAIN_SETUP).(phase := Running, ctx := Ctx(true, ONE_TASK.Advance([7])),
                                                 box := M.EmptyMailbox().SendInstant(DoneParcel(1)))
  {
    hide Tracker.Advance;
    states, steps := RootWaits();
    states, steps := Extend(states, steps, LetGo(1));
    states, steps := Extend(states, steps, Finish(1));
  }

  /** The Done of the task stops the root. */
  lemma RootHasStopped() returns (states: seq<Sys>, steps: seq<Step>)
    ensures Execution(states, steps) && DisciplinedRun(states, steps)
    ensures var s := states[|steps|];
            && s.Keys == {0, 1} && s[1].phase == DoneSent && s[1].parent == Some(0)
            && !s[0].task && s[0].phase == Running && s[0].busy && s[0].pending == None && s[0].parent == None
            && !s[0].ctx.alive
  {
    states, steps := TaskHasReported();
    ShutdownOfOneTask();
    hide Tracker.ValidOrder, Tracker.Advance, Tracker.Forget, Tracker.Hit, Tracker.IsFinished;
    states, steps := Extend(states, steps, Step.Poll(0, 0, M.Timed(0, Interrupt), [7]));
  }

  /** The join of a finished root may return before that of its child: the child has left its
      routine and sent its Done, but its own joiners are not released yet. */
  lemma JoinOvertakesChild() returns (states: seq<Sys>, steps: seq<Step>)
    ensures Execution(states, steps) && DisciplinedRun(states, steps)
    ensures var s := states[|steps|];
            0 in s && s[0].phase == Released && IsChild(s, 0, 1) && s[1].phase == DoneSent
  {
    states, steps := RootHasStopped();
    states, steps := Extend(states, steps, EndHandler(0));
    states, steps := Extend(states, steps, Finish(0));
    states, steps := Extend(states, steps, Release(0));
  }
}
