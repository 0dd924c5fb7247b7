/** The context of an actor and its decision to stop (meio/src/actor_runtime.rs). */
module ActorContext {
  import opened Lifecycle
  import opened Termination

  datatype Ctx = Ctx(alive: bool, tracker: Tracker) {
    function StopIfFinished(): Ctx {
      if tracker.IsFinished() then this.(alive := false) else this
    }

    function Shutdown(order: seq<Group>): Ctx {
      this.(tracker := tracker.Advance(order)).StopIfFinished()
    }

    /** What the runtime does with `Operation::Done` before it calls the handler. */
    function ChildDone(id: Id, order: seq<Group>): Ctx {
      this.(tracker := tracker.Remove(id, order)).StopIfFinished()
    }
  }

  class Context {
    var alive: bool
    const tracker: LifetimeTracker

    ghost function View(): Ctx
      reads this, tracker
    {
      Ctx(alive, tracker.View())
    }

    constructor ()
      ensures View() == Ctx(true, NEW_TRACKER)
      ensures fresh(tracker)
    {
      alive := true;
      tracker := new LifetimeTracker();
    }

    method Stop()
      modifies this
      ensures View() == old(View()).(alive := false)
    {
      alive := false;
    }

    method Shutdown() returns (ghost order: seq<Group>)
      modifies this, tracker
      ensures old(View()).tracker.ValidOrder(order)
      ensures View() == old(View()).Shutdown(order)
    {
      order := tracker.TryTerminateNext();
      var finished := tracker.IsFinished();
      if finished {
        Stop();
      }
    }

    /** The `Operation::Done` arm of the routine. */
    method ChildDone(id: Id) returns (ghost order: seq<Group>)
      modifies this, tracker
      ensures old(View()).tracker.Forget(id).ValidOrder(order)
      ensures View() == old(View()).ChildDone(id, order)
    {
      order := tracker.Remove(id);
      var finished := tracker.IsFinished();
      if finished {
        Stop();
      }
    }
  }

  // ---------------------------------------------------------------------------
  // Runs of one context
  // ---------------------------------------------------------------------------

  datatype Event =
    | Spawned(id: Id, group: Group, notifier: Notifier)
    | ChildDone(id: Id, order: seq<Group>)
    | Shutdown(order: seq<Group>)
    | TerminateGroup(group: Group)
    | Stop

  function React(c: Ctx, e: Event): Ctx {
    match e
    case Spawned(id, group, notifier) => c.(tracker := c.tracker.Insert(id, group, notifier))
    case ChildDone(id, order) => c.ChildDone(id, order)
    case Shutdown(order) => c.Shutdown(order)
    case TerminateGroup(group) => c.(tracker := c.tracker.TerminateGroup(group))
    case Stop => c.(alive := false)
  }

  /** A Done names a tracked child: `Supervision.DoneMeansTracked` proves it of every run of
      the whole system. */
  ghost predicate Possible(c: Ctx, e: Event) {
    match e
    case Spawned(id, _, _) => Fresh(c.tracker, id)
    case ChildDone(id, order) => id in c.tracker.records && c.tracker.Forget(id).ValidOrder(order)
    case Shutdown(order) => c.tracker.ValidOrder(order)
    case _ => true
  }

  ghost predicate Life(states: seq<Ctx>, events: seq<Event>) {
    && |states| == |events| + 1
    && (forall i | 0 <= i < |events| ::
          Possible(states[i], events[i]) && states[i + 1] == React(states[i], events[i]))
  }

  ghost predicate Born(c: Ctx) {
    c == Ctx(true, NEW_TRACKER.(prioritized := c.tracker.prioritized))
  }

  /** An alive actor that is terminating waits for a child whose stage is terminating. */
  ghost predicate Waiting(c: Ctx) {
    c.alive && c.tracker.terminating ==> exists id :: InTerminatingStage(c.tracker, id)
  }

  lemma ShutdownDecides(c: Ctx, order: seq<Group>)
    requires Inv(c.tracker) && c.tracker.ValidOrder(order)
    ensures var d := c.Shutdown(order);
            && Inv(d.tracker) && Waiting(d)
            && d.tracker.terminating && d.tracker.records == c.tracker.records
            && (d.alive <==> c.alive && d.tracker.records != map[])
  {
    AdvanceKeepsInv(c.tracker, order);
    AdvanceDecides(c.tracker, order);
  }

  lemma DoneDecides(c: Ctx, id: Id, order: seq<Group>)
    requires Inv(c.tracker) && c.tracker.Forget(id).ValidOrder(order)
    ensures var d := c.ChildDone(id, order);
            && Inv(d.tracker) && (Waiting(c) ==> Waiting(d))
            && d.tracker.terminating == c.tracker.terminating
            && d.tracker.records == c.tracker.records - {id}
            && (d.alive <==>
                c.alive && !(d.tracker.terminating && d.tracker.records == map[]) && c.tracker.stages != map[])
  {
    var t := c.tracker.Forget(id);
    ForgetKeepsInv(c.tracker, id);
    assert t.stages.Keys == c.tracker.stages.Keys;
    if t.terminating {
      AdvanceKeepsInv(t, order);
      AdvanceDecides(t, order);
      assert t.Advance(order).stages.Keys == t.stages.Keys;
    } else if t.stages != map[] {
      var g :| g in t.stages;
      assert !t.stages[g].IsFinished();
    }
  }

  lemma StepKeepsWaiting(c: Ctx, e: Event)
    requires Inv(c.tracker) && Waiting(c) && Possible(c, e)
    ensures Inv(React(c, e).tracker) && Waiting(React(c, e))
  {
    match e
    case Spawned(id, group, notifier) =>
      InsertKeepsInv(c.tracker, id, group, notifier);
      if c.alive && c.tracker.terminating {
        var w :| InTerminatingStage(c.tracker, w);
        assert InTerminatingStage(React(c, e).tracker, w);
      }
    case ChildDone(id, order) => DoneDecides(c, id, order);
    case Shutdown(order) => ShutdownDecides(c, order);
    case TerminateGroup(group) =>
      if c.alive && c.tracker.terminating {
        var w :| InTerminatingStage(c.tracker, w);
        assert InTerminatingStage(React(c, e).tracker, w);
      }
    case Stop =>
  }

  // ---------------------------------------------------------------------------
  // The staged tracker refines a plain set of live children
  // ---------------------------------------------------------------------------

  datatype Plain = Plain(alive: bool, terminating: bool, live: set<Id>)

  function Abstract(c: Ctx): Plain {
    Plain(c.alive, c.tracker.terminating, c.tracker.records.Keys)
  }

  /** No stages, no priorities and no hash orders: the actor stops once it is terminating and
      no child is left. */
  function PlainReact(p: Plain, e: Event): Plain {
    match e
    case Spawned(id, _, _) => p.(live := p.live + {id})
    case ChildDone(id, _) =>
      Plain(p.alive && !(p.terminating && p.live <= {id}), p.terminating, p.live - {id})
    case Shutdown(_) => Plain(p.alive && p.live != {}, true, p.live)
    case TerminateGroup(_) => p
    case Stop => p.(alive := false)
  }

  /** The plain actor after the first `i` events. */
  function PlainRun(p: Plain, events: seq<Event>, i: nat): Plain
    requires i <= |events|
  {
    if i == 0 then p else PlainReact(PlainRun(p, events, i - 1), events[i - 1])
  }

  lemma RemoveOne(m: map<Id, Record>, id: Id)
    requires id in m
    ensures (m - {id}).Keys == m.Keys - {id}
    ensures |m - {id}| == |m| - 1
    ensures m - {id} == map[] <==> m.Keys <= {id}
  {
    assert (m - {id}).Keys == m.Keys - {id};
    assert m - {id} == map[] <==> (m - {id}).Keys == {};
  }

  lemma StepRefinesPlain(c: Ctx, e: Event)
    requires Inv(c.tracker) && Possible(c, e)
    ensures Abstract(React(c, e)) == PlainReact(Abstract(c), e)
  {
    match e
    case ChildDone(id, order) =>
      DoneDecides(c, id, order);
      RemoveOne(c.tracker.records, id);
      assert c.tracker.records[id].group in c.tracker.stages;
    case Shutdown(order) =>
      ShutdownDecides(c, order);
      assert c.tracker.records == map[] <==> c.tracker.records.Keys == {};
    case _ =>
  }

  /** For every hash order the stop decisions of the staged tracker are those of the plain
      set. */
  lemma {:induction false} StagesRefinePlainSet(states: seq<Ctx>, events: seq<Event>, i: nat)
    requires Life(states, events) && Inv(states[0].tracker) && Waiting(states[0]) && i <= |events|
    ensures Abstract(states[i]) == PlainRun(Abstract(states[0]), events, i)
    ensures Inv(states[i].tracker) && Waiting(states[i])
  {
    if i > 0 {
      StagesRefinePlainSet(states, events, i - 1);
      StepKeepsWaiting(states[i - 1], events[i - 1]);
      StepRefinesPlain(states[i - 1], events[i - 1]);
    }
  }

  lemma BornIsPlain(c: Ctx)
    requires Born(c)
    ensures Abstract(c) == Plain(true, false, {}) && Inv(c.tracker) && Waiting(c)
  {
  }

  /** In particular from birth on. */
  lemma BornRefinesPlain(states: seq<Ctx>, events: seq<Event>)
    requires Life(states, events) && Born(states[0])
    ensures Abstract(states[|events|]) == PlainRun(Plain(true, false, {}), events, |events|)
  {
    BornIsPlain(states[0]);
    StagesRefinePlainSet(states, events, |events|);
  }

  // ---------------------------------------------------------------------------
  // Termination ends with the last child
  // ---------------------------------------------------------------------------

  /** The number of child Dones among the first `i` events. */
  function Dones(events: seq<Event>, i: nat): nat
    requires i <= |events|
  {
    if i == 0 then 0 else Dones(events, i - 1) + if events[i - 1].ChildDone? then 1 else 0
  }

  ghost predicate Graceful(events: seq<Event>) {
    forall e <- events :: !e.Spawned? && !e.Stop?
  }

  /** A terminating actor is alive as long as it has a child. */
  ghost predicate Lingering(c: Ctx) {
    && Inv(c.tracker) && Waiting(c)
    && c.tracker.terminating && (c.alive <==> c.tracker.records.Keys != {})
  }

  lemma StepLingers(c: Ctx, e: Event)
    requires Lingering(c) && Possible(c, e) && !e.Spawned? && !e.Stop?
    ensures Lingering(React(c, e))
    ensures |React(c, e).tracker.records.Keys| == |c.tracker.records.Keys| - if e.ChildDone? then 1 else 0
  {
    StepKeepsWaiting(c, e);
    StepRefinesPlain(c, e);
    assert Abstract(React(c, e)).live ==
           if e.ChildDone? then c.tracker.records.Keys - {e.id} else c.tracker.records.Keys;
  }

  lemma {:induction false} RecordsCountDones(states: seq<Ctx>, events: seq<Event>, i: nat)
    requires Life(states, events) && Graceful(events) && Lingering(states[0]) && i <= |events|
    ensures Lingering(states[i])
    ensures |states[i].tracker.records.Keys| == |states[0].tracker.records.Keys| - Dones(events, i)
  {
    if i > 0 {
      RecordsCountDones(states, events, i - 1);
      StepLingers(states[i - 1], events[i - 1]);
    }
  }

  /** The groups whose termination has not started. */
  function OpenStages(t: Tracker): set<Group> {
    set g | g in t.stages && !t.stages[g].terminating
  }

  /** Graceful termination descends in the lexicographic order of (children on record, stages
      that are not terminating): every Done takes a child away, and no other event adds a child
      or opens a stage again. */
  lemma GracefulStepsDescend(c: Ctx, e: Event)
    requires Lingering(c) && Possible(c, e) && !e.Spawned? && !e.Stop?
    ensures var t, u := c.tracker, React(c, e).tracker;
            && (e.ChildDone? ==> |u.records.Keys| < |t.records.Keys|)
            && (!e.ChildDone? ==> u.records == t.records && |OpenStages(u)| <= |OpenStages(t)|)
            && (e.Shutdown? && t.Hit(e.order) != {} ==> |OpenStages(u)| < |OpenStages(t)|)
  {
    StepLingers(c, e);
    var t, u := c.tracker, React(c, e).tracker;
    if !e.ChildDone? {
      assert OpenStages(u) <= OpenStages(t);
      Smaller(OpenStages(u), OpenStages(t));
      if e.Shutdown? && t.Hit(e.order) != {} {
        var g := e.order[Frontier(t.stages, e.order)];
        assert g in t.Reached(e.order);
        assert g in OpenStages(t) && g !in OpenStages(u);
      }
    }
  }

  lemma Smaller<T>(small: set<T>, large: set<T>)
    requires small <= large
    ensures |small| <= |large| && (small != large ==> |small| < |large|)
  {
    var rest := large - small;
    assert large == small + rest;
    if small != large {
      var x :| x in rest;
    }
  }

  /** After a shutdown with n tracked children the actor stops with the n-th child Done,
      neither earlier nor later. */
  lemma StopsAtLastDone(c: Ctx, order: seq<Group>, states: seq<Ctx>, events: seq<Event>, i: nat)
    requires Inv(c.tracker) && c.alive && c.tracker.ValidOrder(order)
    requires Life(states, events) && Graceful(events) && states[0] == c.Shutdown(order)
    requires i <= |events|
    ensures states[i].alive <==> Dones(events, i) < |c.tracker.records|
    ensures |states[i].tracker.records| == |c.tracker.records| - Dones(events, i)
  {
    ShutdownDecides(c, order);
    RecordsCountDones(states, events, i);
  }

  // ---------------------------------------------------------------------------
  // Building a life
  // ---------------------------------------------------------------------------

  /** From `c` to `d` by at most one event. */
  ghost predicate ContextMoves(c: Ctx, es: seq<Event>, d: Ctx) {
    |es| <= 1 && if es == [] then d == c else Possible(c, es[0]) && d == React(c, es[0])
  }

  lemma {:induction false} SameDones(es: seq<Event>, longer: seq<Event>, n: nat)
    requires n <= |es| && es <= longer
    ensures Dones(longer, n) == Dones(es, n)
  {
    if n > 0 {
      SameDones(es, longer, n - 1);
    }
  }

  lemma LifeSnoc(cs: seq<Ctx>, es: seq<Event>, more: seq<Event>, d: Ctx) returns (longer: seq<Ctx>)
    requires Life(cs, es) && ContextMoves(cs[|es|], more, d)
    ensures Life(longer, es + more) && longer[0] == cs[0] && longer[|es + more|] == d
    ensures Dones(es + more, |es + more|) ==
            Dones(es, |es|) + if more != [] && more[0].ChildDone? then 1 else 0
  {
    hide Possible, React;
    SameDones(es, es + more, |es|);
    if more == [] {
      longer := cs;
      assert es + more == es;
    } else {
      longer := cs + [d];
    }
  }

  lemma LifeBegins(c: Ctx)
    ensures Life([c], []) && Dones([], 0) == 0
  {
  }
}
