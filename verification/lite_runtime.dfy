/** Stop signals of tasks, the wait of joiners, and how a task ends
    (meio/src/lite_runtime.rs, meio/src/linkage/address.rs).

  A watch channel holds the last value and a version that every send bumps.  A receiver
  remembers the version it has seen; `changed` waits for another one, or for the end of the last
  sender.
*/
module LiteRuntime {
  import opened Options

  datatype Result<T, E> = Ok(value: T) | Err(error: E)

  datatype Status = Alive | Stopped

  datatype Channel = Channel(version: nat, value: Status, senders: nat) {
    /** The condition a waiter is after. */
    predicate Over() {
      value == Stopped || senders == 0
    }

    /** The version tells whether Stop was sent. */
    predicate Sane() {
      version > 0 <==> value == Stopped
    }
  }

  const NEW_CHANNEL := Channel(0, Alive, 1)

  /** What the holders of senders may do; the only value that is ever sent is Stop. */
  datatype SenderAct = SendStop | CloneSender | DropSender

  function Evolve(c: Channel, act: SenderAct): Channel
    requires c.senders > 0
  {
    match act
    case SendStop => c.(version := c.version + 1, value := Stopped)
    case CloneSender => c.(senders := c.senders + 1)
    case DropSender => c.(senders := c.senders - 1)
  }

  /** Without senders there is nobody to act. */
  function Evolved(c: Channel, act: SenderAct): Channel {
    if c.senders == 0 then c else Evolve(c, act)
  }

  function EvolvedBy(c: Channel, acts: seq<SenderAct>): Channel
    decreases |acts|
  {
    if acts == [] then c else EvolvedBy(Evolved(c, acts[0]), acts[1..])
  }

  /** A send sets the value for good, clones and drops change the number of senders by one, and
      the last drop ends it all. */
  lemma EvolvedExactly(c: Channel, act: SenderAct)
    ensures var d := Evolved(c, act);
            if c.senders == 0 then d == c
            else
              && (act == SendStop ==> d.value == Stopped && d.version == c.version + 1 && d.senders == c.senders)
              && (act != SendStop ==> d.value == c.value && d.version == c.version)
              && (act == CloneSender ==> d.senders == c.senders + 1)
              && (act == DropSender ==> d.senders + 1 == c.senders)
  {
  }

  /** What is over stays over, and what has been sent stays sent. */
  lemma {:induction false} EvolvedStays(c: Channel, acts: seq<SenderAct>)
    requires c.Sane()
    ensures var d := EvolvedBy(c, acts);
            d.Sane() && (c.Over() ==> d.Over()) && (c.value == Stopped ==> d.value == Stopped)
    ensures EvolvedBy(c, acts).value == Stopped ==> c.value == Stopped || SendStop in acts
    decreases |acts|
  {
    if acts != [] {
      EvolvedStays(Evolved(c, acts[0]), acts[1..]);
    }
  }

  datatype Changed = ChangedOk | Closed | Waiting

  /** One poll of `changed` by a receiver that has seen version `seen`. */
  function PollChanged(c: Channel, seen: nat): Changed {
    if c.version != seen then ChangedOk else if c.senders == 0 then Closed else Waiting
  }

  // ---------------------------------------------------------------------------
  // All receivers and futures of one channel
  // ---------------------------------------------------------------------------

  type Name = nat

  /** `receivers` maps every StopReceiver (or address) to the version it has seen; `futures` maps
      every pending future made from one to the version its own receiver has seen. */
  datatype World = World(channel: Channel, receivers: map<Name, nat>, futures: map<Name, nat>, done: set<Name>)

  datatype Step =
    | Signal(act: SenderAct)
    | CloneReceiver(from: Name, name: Name)
    | IsAlive(from: Name)
    | IntoFuture(from: Name, name: Name)
    | PollFuture(name: Name)

  /** The value after `just_done` has been polled: ready, or waiting with a version seen. */
  function PollJustDone(c: Channel, seen: nat): Option<nat> {
    match PollChanged(c, seen)
    case ChangedOk => if c.value == Stopped then None else if c.senders == 0 then None else Some(c.version)
    case Closed => None
    case Waiting => Some(seen)
  }

  /** A receiver that has seen nothing is released exactly when the channel is over. */
  lemma JustDoneExactly(c: Channel)
    requires c.Sane()
    ensures PollJustDone(c, 0) == None <==> c.Over()
  {
  }

  predicate Enabled(w: World, step: Step) {
    match step
    case Signal(_) => w.channel.senders > 0
    case CloneReceiver(from, name) => from in w.receivers && name !in w.receivers
    case IsAlive(from) => from in w.receivers
    case IntoFuture(from, name) => from in w.receivers && name !in w.futures && name !in w.done
    case PollFuture(name) => name in w.futures
  }

  function Apply(w: World, step: Step): World
    requires Enabled(w, step)
  {
    match step
    case Signal(act) => w.(channel := Evolve(w.channel, act))
    case CloneReceiver(from, name) => w.(receivers := w.receivers[name := w.receivers[from]])
    case IsAlive(_) => w
    case IntoFuture(from, name) => w.(futures := w.futures[name := w.receivers[from]])
    case PollFuture(name) =>
      match PollJustDone(w.channel, w.futures[name])
      case Some(seen) => w.(futures := w.futures[name := seen])
      case None => w.(futures := w.futures - {name}, done := w.done + {name})
  }

  ghost predicate Run(worlds: seq<World>, steps: seq<Step>) {
    && |worlds| == |steps| + 1
    && worlds[0] == World(NEW_CHANNEL, map[0 := 0], map[], {})
    && (forall i | 0 <= i < |steps| :: Enabled(worlds[i], steps[i]) && worlds[i + 1] == Apply(worlds[i], steps[i]))
  }

  /** Nobody who still waits has seen anything but the initial version. */
  ghost predicate Inv(w: World) {
    && w.channel.Sane()
    && (forall r <- w.receivers :: w.receivers[r] == 0)
    && (forall f <- w.futures :: w.futures[f] == 0)
    && (w.done != {} ==> w.channel.Over())
    && w.futures.Keys !! w.done
  }

  /** No StopReceiver ever advances the version it has seen. */
  lemma {:induction false} ReceiversNeverAdvance(worlds: seq<World>, steps: seq<Step>, i: nat)
    requires Run(worlds, steps) && i < |worlds|
    ensures Inv(worlds[i])
  {
    if i > 0 {
      ReceiversNeverAdvance(worlds, steps, i - 1);
    }
  }

  /** A future made from any clone, before or after the signal, becomes ready if and only if
      Stop was sent or every sender is gone; and it never becomes ready for nothing. */
  lemma StopSignalsAreNeverLost(worlds: seq<World>, steps: seq<Step>, i: nat, f: Name)
    requires Run(worlds, steps) && i < |worlds| && f in worlds[i].futures
    ensures f in Apply(worlds[i], PollFuture(f)).done <==> worlds[i].channel.Over()
    ensures worlds[i].channel.Over() ==> f !in Apply(worlds[i], PollFuture(f)).futures
  {
    ReceiversNeverAdvance(worlds, steps, i);
  }

  /** Once the signal is there it stays, so a later poll sees it as well. */
  lemma {:induction false} SignalsStay(worlds: seq<World>, steps: seq<Step>, i: nat, j: nat)
    requires Run(worlds, steps) && i <= j < |worlds| && worlds[i].channel.Over()
    ensures worlds[j].channel.Over()
  {
    if i < j {
      SignalsStay(worlds, steps, i, j - 1);
    }
  }

  // ---------------------------------------------------------------------------
  // The waiting loops
  // ---------------------------------------------------------------------------

  /** The states of a channel at successive polls of one waiter: once over it stays so, and the
      version tells whether Stop was sent. */
  ghost predicate History(h: seq<Channel>) {
    && (forall i | 0 <= i < |h| :: h[i].Sane())
    && (forall i, j | 0 <= i <= j < |h| :: h[i].version <= h[j].version && (h[i].senders == 0 ==> h[j] == h[i]))
  }

  /** The loops of `just_done` and `join`: a waiter whose receiver has seen nothing is released
      at the first poll that finds Stop sent or all senders gone, and not before. */
  method AwaitStop(h: seq<Channel>) returns (at: nat)
    requires History(h)
    ensures at <= |h|
    ensures at < |h| ==> h[at].Over()
    ensures forall i | 0 <= i < at :: !h[i].Over()
  {
    var seen := 0;
    at := 0;
    while at < |h|
      invariant at <= |h| && seen == 0
      invariant forall i | 0 <= i < at :: !h[i].Over()
    {
      var changed := PollChanged(h[at], seen);
      match changed {
        case ChangedOk =>
          seen := h[at].version;
          if h[at].value == Stopped {
            break;
          }
        case Closed => break;
        case Waiting => at := at + 1;
      }
    }
  }

  // ---------------------------------------------------------------------------
  // How a task ends
  // ---------------------------------------------------------------------------

  datatype Error = TaskStopped | Failure(code: nat)

  datatype TaskError = Interrupted | Other(error: Error)

  /** `TaskError::from`. */
  function FromError(e: Error): (r: TaskError)
    ensures r == Interrupted <==> e == TaskStopped
    ensures e.Failure? ==> r.Other? && r.error == e
  {
    if e == TaskStopped then Interrupted else Other(e)
  }

  /** `select` inside `StopReceiver::or` polls the stop future first: `work[i]` is what the other
      future yields if it is polled at moment `i`. */
  method Or<T(0)>(h: seq<Channel>, work: seq<Option<T>>) returns (at: nat, r: Result<T, Error>)
    requires History(h) && |work| == |h|
    ensures at <= |h| && (forall i | 0 <= i < at :: !h[i].Over() && work[i] == None)
    ensures at < |h| ==> if h[at].Over() then r == Err(TaskStopped)
                         else work[at].Some? && r == Ok(work[at].value)
  {
    at := 0;
    r := Err(TaskStopped);
    while at < |h|
      invariant at <= |h| && (forall i | 0 <= i < at :: !h[i].Over() && work[i] == None)
    {
      if PollJustDone(h[at], 0) == None {
        return at, Err(TaskStopped);
      }
      if work[at].Some? {
        return at, Ok(work[at].value);
      }
      at := at + 1;
    }
  }

  /** The default `routine` with the conversion of `LiteRuntime::entrypoint`: the result of the
      interruptable routine, or the stop. */
  method DefaultRoutine<T(0)>(h: seq<Channel>, work: seq<Option<Result<T, Error>>>)
    returns (at: nat, r: Result<T, TaskError>)
    requires History(h) && |work| == |h|
    ensures at <= |h| && (forall i | 0 <= i < at :: !h[i].Over() && work[i] == None)
    ensures at < |h| && h[at].Over() ==> r == Err(Interrupted)
    ensures at < |h| && !h[at].Over() ==>
              work[at].Some? && r == match work[at].value
                                     case Ok(value) => Ok(value)
                                     case Err(TaskStopped) => Err(Interrupted)
                                     case Err(Failure(code)) => Err(Other(Failure(code)))
  {
    var res;
    at, res := Or(h, work);
    r := match res
      case Err(e) => Err(FromError(e))
      case Ok(Err(e)) => Err(FromError(e))
      case Ok(Ok(value)) => Ok(value);
  }
}
