/** The reconnecting WebSocket client (meio-connect/src/client.rs).

  A script gives, for every turn of the loop, what the outside world does: the connection
  attempt, what happens around the talker, whether the actor accepts status messages, and what the
  holders of stop senders do.  The loop head looks at the value of the stop channel only; the talker
  and the pause end when the channel is over, which it is also without senders.
*/
module Client {
  import L = LiteRuntime
  import opened Options
  import T = Talkers

  datatype FailReason = ClosedByServer | ConnectionFailed | ServerNotAvailable

  /** The holders of stop senders act before the turn (`before`), during the talk (events of the
      talker), or in the pause (`inPause`).  `told` and `toldFailed` tell whether the actor accepts the
      status; `early` is what it sends before the talker starts; `elapsed` is the time since the
      last success. */
  datatype Attempt = Attempt(
    before: seq<L.SenderAct>,
    connected: bool,
    told: bool,
    early: seq<T.Outgoing>,
    events: seq<T.Event>,
    toldFailed: bool,
    elapsed: nat,
    inPause: seq<L.SenderAct>)

  /** Senders are named by the turn that hands them out. */
  datatype Event =
    | Connected(sender: nat)
    | Failed(reason: FailReason)
    | Slept(duration: nat)

  /** An event with the senders that were live at that moment. */
  datatype Entry = Entry(event: Event, live: set<nat>)

  /** `Talking`: the script of the talker is over and the talker is not. */
  datatype Outcome = Stopped | Interrupted | ActorGone | TaskStopped | GaveUp(reason: FailReason) | Talking

  /** The channel behind a sender: closed by its receiver, or without senders. */
  datatype Channel = Channel(closed: bool, gone: bool) {
    /** `WsSender::send` gets through. */
    predicate Accepts() {
      !closed && !gone
    }
  }

  /** The senders that can still send. */
  function Live(channels: map<nat, Channel>): set<nat> {
    set k | k in channels && channels[k].Accepts()
  }

  // ---------------------------------------------------------------------------
  // What a turn does
  // ---------------------------------------------------------------------------

  /** Does this turn get as far as the talker? */
  predicate Talks(a: Attempt) {
    a.connected && a.told
  }

  /** The talker at the end of its script; `head` is the stop channel at the loop head. */
  function TalkState(codec: T.Codec, a: Attempt, head: L.Channel): T.State {
    T.Run(codec, T.NewTalker(a.early, head), a.events, |a.events|)
  }

  function TalkEnd(codec: T.Codec, a: Attempt, head: L.Channel): Option<T.Outcome> {
    TalkState(codec, a, head).outcome
  }

  predicate TalkInterrupted(codec: T.Codec, a: Attempt, head: L.Channel) {
    TalkEnd(codec, a, head) == Some(T.Ok(T.Interrupted))
  }

  /** What a connection leaves in the log. */
  function Talk(a: Attempt, k: nat): seq<Entry> {
    if Talks(a) then [Entry(Connected(k), {k})] else []
  }

  function Reason(codec: T.Codec, a: Attempt, head: L.Channel): FailReason {
    if !a.connected then ServerNotAvailable
    else if TalkEnd(codec, a, head) == Some(T.Err) then ConnectionFailed else ClosedByServer
  }

  function Failure(codec: T.Codec, a: Attempt, head: L.Channel): Entry {
    Entry(Failed(Reason(codec, a, head)), {})
  }

  /** The pause before the next turn: what is left of the interval. */
  function Pause(a: Attempt, interval: nat): seq<Entry> {
    if a.elapsed < interval then [Entry(Slept(interval - a.elapsed), {})] else []
  }

  /** The stop channel at the loop head of a turn that begins with `stop`. */
  function Head(a: Attempt, stop: L.Channel): L.Channel {
    L.EvolvedBy(stop, a.before)
  }

  function AfterTalk(codec: T.Codec, a: Attempt, head: L.Channel): L.Channel {
    if Talks(a) then TalkState(codec, a, head).stop else head
  }

  function AfterPause(a: Attempt, interval: nat, talked: L.Channel): L.Channel {
    if a.elapsed < interval then L.EvolvedBy(talked, a.inPause) else talked
  }

  /** The stop channel after a turn that goes as far as the pause. */
  function AfterTurn(codec: T.Codec, a: Attempt, interval: nat, stop: L.Channel): L.Channel {
    AfterPause(a, interval, AfterTalk(codec, a, Head(a, stop)))
  }

  /** The stop channel after `n` turns. */
  function StopAfter(codec: T.Codec, script: seq<Attempt>, interval: nat, stop: L.Channel, n: nat): L.Channel
    requires n <= |script|
  {
    if n == 0 then stop
    else AfterTurn(codec, script[n - 1], interval, StopAfter(codec, script, interval, stop, n - 1))
  }

  /** The log of the first `n` turns, each of which goes on to the next one. */
  function Turns(codec: T.Codec, script: seq<Attempt>, interval: nat, stop: L.Channel, n: nat): seq<Entry>
    requires n <= |script|
  {
    if n == 0 then []
    else
      var a := script[n - 1];
      var head := Head(a, StopAfter(codec, script, interval, stop, n - 1));
      Turns(codec, script, interval, stop, n - 1) +
      (Talk(a, n - 1) + [Failure(codec, a, head)] + Pause(a, interval))
  }

  /** Through a turn the stop channel stays sane, and what is over stays over. */
  lemma TurnKeepsStop(codec: T.Codec, a: Attempt, interval: nat, stop: L.Channel)
    requires stop.Sane()
    ensures var head := Head(a, stop);
            var talked := AfterTalk(codec, a, head);
            && head.Sane() && talked.Sane() && AfterPause(a, interval, talked).Sane()
            && (stop.Over() ==> head.Over()) && (head.Over() ==> talked.Over())
            && (talked.Over() ==> AfterPause(a, interval, talked).Over())
  {
    L.EvolvedStays(stop, a.before);
    var head := Head(a, stop);
    T.StoppedMeansSent(codec, T.NewTalker(a.early, head), a.events, |a.events|);
    hide T.Run;
    L.EvolvedStays(AfterTalk(codec, a, head), a.inPause);
  }

  /** A talk that ends as interrupted has found the stop channel over: Stop was sent, or its last
      sender was dropped. */
  lemma InterruptedTalkWasOver(codec: T.Codec, a: Attempt, head: L.Channel)
    requires TalkInterrupted(codec, a, head) && head.Sane()
    ensures var stop := TalkState(codec, a, head).stop;
            && stop.Over()
            && (head.value == L.Alive && stop.value == L.Stopped ==>
                  exists i | 0 <= i < |a.events| :: a.events[i] == T.StopAct(L.SendStop))
  {
    T.InterruptedMeansOver(codec, a.early, head, a.events);
  }

  // ---------------------------------------------------------------------------
  // Exclusive senders
  // ---------------------------------------------------------------------------

  /** Was the last status message a Connected? */
  predicate LastConnected(log: seq<Entry>, n: nat)
    requires n <= |log|
  {
    n > 0 && (log[n - 1].event.Connected? || (!log[n - 1].event.Failed? && LastConnected(log, n - 1)))
  }

  predicate ExclusiveAt(log: seq<Entry>, n: nat)
    requires n < |log|
  {
    match log[n].event
    case Connected(k) => log[n].live == {k} && !LastConnected(log, n)
    case _ => log[n].live == {}
  }

  /** A sender that is handed out is the only live one, none is live when a failure is reported or
      during a pause, and no Connected follows a Connected without a Failed between them. */
  ghost predicate Exclusive(log: seq<Entry>) {
    forall n | 0 <= n < |log| :: ExclusiveAt(log, n)
  }

  lemma {:induction false} SameConnected(log: seq<Entry>, longer: seq<Entry>, n: nat)
    requires n <= |log| && log <= longer
    ensures LastConnected(longer, n) == LastConnected(log, n)
  {
    if n > 0 {
      SameConnected(log, longer, n - 1);
    }
  }

  lemma Append(log: seq<Entry>, entry: Entry)
    requires Exclusive(log)
    requires match entry.event
             case Connected(k) => entry.live == {k} && !LastConnected(log, |log|)
             case _ => entry.live == {}
    ensures Exclusive(log + [entry])
    ensures LastConnected(log + [entry], |log| + 1) <==>
            entry.event.Connected? || (!entry.event.Failed? && LastConnected(log, |log|))
  {
    var longer := log + [entry];
    SameConnected(log, longer, |log|);
    forall n | 0 <= n < |longer| ensures ExclusiveAt(longer, n) {
      SameConnected(log, longer, n);
      if n < |log| {
        assert longer[n] == log[n] && ExclusiveAt(log, n);
      }
    }
  }

  lemma Regroup(front: seq<Entry>, a: seq<Entry>, b: seq<Entry>, c: seq<Entry>)
    ensures ((front + a) + b) + c == front + (a + b + c)
    ensures (front + a) + b == front + (a + b)
    ensures c == [] ==> a + b + c == a + b
  {
  }

  /** The turn gets as far as reporting a failure: it did not connect, or its talk ended by itself. */
  predicate Reports(codec: T.Codec, a: Attempt, head: L.Channel) {
    && head.value == L.Alive && a.toldFailed
    && (a.connected ==>
          && a.told
          && (TalkEnd(codec, a, head) == Some(T.Err) || TalkEnd(codec, a, head) == Some(T.Ok(T.Closed))))
  }

  /** The turn reports a failure and goes on to the next one. */
  predicate WentOn(codec: T.Codec, repeatInterval: Option<nat>, a: Attempt, stop: L.Channel) {
    && Reports(codec, a, Head(a, stop)) && repeatInterval.Some?
    && (a.elapsed < repeatInterval.value ==> !AfterTurn(codec, a, repeatInterval.value, stop).Over())
  }

  /** How a turn that begins with the stop channel `stop` and the log `was` ends: with the log
      `log`, and an outcome if the loop does not go on. */
  predicate TurnEnds(codec: T.Codec, repeatInterval: Option<nat>, a: Attempt, n: nat, stop: L.Channel,
                     was: seq<Entry>, outcome: Option<Outcome>, log: seq<Entry>)
  {
    var interval := if repeatInterval.Some? then repeatInterval.value else 0;
    var head, talked := Head(a, stop), was + Talk(a, n);
    var over := AfterTurn(codec, a, interval, stop).Over();
    && (outcome == Some(Stopped) <==> head.value == L.Stopped)
    && match outcome
       case None =>
         && WentOn(codec, repeatInterval, a, stop)
         && log == was + (Talk(a, n) + [Failure(codec, a, head)] + Pause(a, interval))
       case Some(Stopped) => log == was
       case Some(Interrupted) => Talks(a) && TalkInterrupted(codec, a, head) && log == talked
       case Some(Talking) => Talks(a) && TalkEnd(codec, a, head) == None && log == talked
       case Some(ActorGone) => ((a.connected && !a.told) || !a.toldFailed) && log == talked
       case Some(TaskStopped) =>
         && Reports(codec, a, head) && repeatInterval.Some?
         && a.elapsed < interval && over && log == talked + [Failure(codec, a, head)]
       case Some(GaveUp(reason)) =>
         && Reports(codec, a, head) && repeatInterval == None && reason == Reason(codec, a, head)
         && log == talked + [Failure(codec, a, head)]
  }

  lemma GoesOn(codec: T.Codec, repeatInterval: Option<nat>, a: Attempt, n: nat, stop: L.Channel,
               was: seq<Entry>, log: seq<Entry>)
    requires TurnEnds(codec, repeatInterval, a, n, stop, was, None, log)
    ensures repeatInterval.Some? && WentOn(codec, repeatInterval, a, stop)
    ensures log == was + (Talk(a, n) + [Failure(codec, a, Head(a, stop))] + Pause(a, repeatInterval.value))
  {
    hide WentOn, Talk, Failure, Pause, AfterTurn;
    assert WentOn(codec, repeatInterval, a, stop);
    MustRepeat(codec, repeatInterval, a, stop);
  }

  lemma MustRepeat(codec: T.Codec, repeatInterval: Option<nat>, a: Attempt, stop: L.Channel)
    requires WentOn(codec, repeatInterval, a, stop)
    ensures repeatInterval.Some?
  {
  }

  lemma TalkEndsByItself(codec: T.Codec, a: Attempt, head: L.Channel)
    ensures TalkEnd(codec, a, head).Some? && !TalkInterrupted(codec, a, head) ==>
              TalkEnd(codec, a, head) == Some(T.Err) || TalkEnd(codec, a, head) == Some(T.Ok(T.Closed))
  {
    hide TalkState;
    if TalkEnd(codec, a, head).Some? {
      match TalkEnd(codec, a, head).value
      case Ok(Interrupted) =>
      case Ok(Closed) =>
      case Err =>
    }
  }

  // ---------------------------------------------------------------------------
  // What the log says, written out
  // ---------------------------------------------------------------------------

  /** The reason to report: the server was not available if there was no connection; the
      connection failed if the talk ended with an error; the server closed it otherwise. */
  predicate ReasonFits(connected: bool, end: Option<T.Outcome>, reason: FailReason) {
    match reason
    case ServerNotAvailable => !connected
    case ConnectionFailed => connected && end == Some(T.Err)
    case ClosedByServer => connected && end == Some(T.Ok(T.Closed))
  }

  lemma ReasonExactly(codec: T.Codec, a: Attempt, head: L.Channel)
    requires Reports(codec, a, head)
    ensures ReasonFits(a.connected, TalkEnd(codec, a, head), Reason(codec, a, head))
    ensures forall r :: ReasonFits(a.connected, TalkEnd(codec, a, head), r) ==> r == Reason(codec, a, head)
  {
  }

  /** What a turn that began with the log `was` has added: the sender, if it connected, then the
      failure with its reason, and nothing else. */
  predicate Reported(a: Attempt, n: nat, end: Option<T.Outcome>, was: seq<Entry>, log: seq<Entry>) {
    var k := |was| + if a.connected then 1 else 0;
    && k < |log| && was <= log
    && (a.connected ==> log[|was|] == Entry(Connected(n), {n}))
    && log[k].event.Failed? && log[k].live == {} && ReasonFits(a.connected, end, log[k].event.reason)
  }

  /** The log of every way in which a turn reports a failure. */
  lemma TurnReports(codec: T.Codec, repeatInterval: Option<nat>, a: Attempt, n: nat, stop: L.Channel,
                    was: seq<Entry>, outcome: Option<Outcome>, log: seq<Entry>)
    requires TurnEnds(codec, repeatInterval, a, n, stop, was, outcome, log)
    ensures var end := TalkEnd(codec, a, Head(a, stop));
            var k := |was| + if a.connected then 1 else 0;
            match outcome
            case None =>
              && Reported(a, n, end, was, log) && repeatInterval.Some?
              && if a.elapsed < repeatInterval.value
                 then |log| == k + 2 && log[k + 1].event.Slept? && log[k + 1].live == {} &&
                      log[k + 1].event.duration + a.elapsed == repeatInterval.value
                 else |log| == k + 1
            case Some(TaskStopped) => Reported(a, n, end, was, log) && |log| == k + 1
            case Some(GaveUp(reason)) =>
              Reported(a, n, end, was, log) && |log| == k + 1 && log[k].event == Failed(reason)
            case Some(Stopped) => log == was
            case Some(Interrupted) => log == was + [Entry(Connected(n), {n})] && end == Some(T.Ok(T.Interrupted))
            case Some(Talking) => log == was + [Entry(Connected(n), {n})] && end == None
            case Some(ActorGone) => log == was + if a.connected && a.told then [Entry(Connected(n), {n})] else []
  {
    hide TalkState, AfterTurn;
    if outcome == None || outcome == Some(TaskStopped) || (outcome.Some? && outcome.value.GaveUp?) {
      ReasonExactly(codec, a, Head(a, stop));
    }
  }

  lemma NothingYet()
    ensures Exclusive([]) && !LastConnected([], 0) && Live(map[]) == {}
  {
  }

  lemma AtMostOne(live: set<nat>, k: nat)
    requires live <= {k}
    ensures |live| <= 1
  {
    if live != {} {
      assert live == {k};
    }
  }

  class WsClient {
    const codec: T.Codec
    const repeatInterval: Option<nat>
    var stop: L.Channel
    var channels: map<nat, Channel>
    var log: seq<Entry>

    constructor (codec: T.Codec, repeatInterval: Option<nat>, stop: L.Channel)
      ensures this.codec == codec && this.repeatInterval == repeatInterval
      ensures this.stop == stop && channels == map[] && log == []
    {
      this.codec, this.repeatInterval, this.stop := codec, repeatInterval, stop;
      channels, log := map[], [];
    }

    /** Logs an event with the senders that are live. */
    method Note(e: Event)
      requires Exclusive(log)
      requires match e
               case Connected(k) => Live(channels) == {k} && !LastConnected(log, |log|)
               case _ => Live(channels) == {}
      modifies this`log
      ensures log == old(log) + [Entry(e, Live(channels))] && Exclusive(log)
      ensures LastConnected(log, |log|) <==> e.Connected? || (!e.Failed? && LastConnected(old(log), |old(log)|))
    {
      Append(log, Entry(e, Live(channels)));
      hide Exclusive, LastConnected;
      log := log + [Entry(e, Live(channels))];
    }

    /** Runs the talker of turn `k` on its channel, and drops it when it is done. */
    method RunTalker(k: nat, a: Attempt) returns (end: Option<T.Outcome>)
      modifies this`stop, this`channels
      ensures end == TalkEnd(codec, a, old(stop)) && stop == TalkState(codec, a, old(stop)).stop
      ensures var t := TalkState(codec, a, old(stop));
              var left := if end == None then t else t.Dropped();
              channels == old(channels)[k := Channel(left.channel.closed, left.channel.gone)]
    {
      var talker := new T.Talker(codec, a.early, stop);
      talker.Routine(a.events);
      ghost var t := talker.View();
      assert t == TalkState(codec, a, stop);
      hide TalkState;
      end := talker.outcome;
      stop := talker.stop;
      if end.Some? {
        talker.Drop();
      }
      channels := channels[k := Channel(talker.closed, talker.gone)];
    }

    /** One connection: a new channel, its sender to the actor, and the talker.  If the loop goes on
        there is a reason to report. */
    method Converse(k: nat, a: Attempt) returns (outcome: Option<Outcome>, reason: FailReason)
      requires Exclusive(log) && Live(channels) == {} && !LastConnected(log, |log|)
      requires k !in channels
      modifies this
      ensures Exclusive(log) && channels.Keys <= old(channels.Keys) + {k}
      ensures Live(channels) <= if outcome == Some(Talking) then {k} else {}
      ensures outcome == if !a.connected then None
                         else if !a.told then Some(ActorGone)
                         else if TalkEnd(codec, a, old(stop)) == None then Some(Talking)
                         else if TalkInterrupted(codec, a, old(stop)) then Some(Interrupted)
                         else None
      ensures outcome == None ==> reason == Reason(codec, a, old(stop))
      ensures stop == AfterTalk(codec, a, old(stop))
      ensures log == old(log) + Talk(a, k)
    {
      hide Exclusive, LastConnected, TalkState;
      reason := ServerNotAvailable;
      if !a.connected {
        return None, reason;
      }
      if !a.told {
        return Some(ActorGone), reason;
      }
      channels := channels[k := Channel(false, false)];
      Note(Connected(k));
      var end := RunTalker(k, a);
      outcome := None;
      match end
      case None => outcome := Some(Talking);
      case Some(Ok(Interrupted)) => outcome := Some(Interrupted);
      case Some(Ok(Closed)) => reason := ClosedByServer;
      case Some(Err) => reason := ConnectionFailed;
    }

    /** The failure is reported, then the rest of the interval is waited for, unless the stop channel
        is over by then. */
    method RetryLater(a: Attempt, reason: FailReason) returns (outcome: Option<Outcome>)
      requires Exclusive(log) && Live(channels) == {} && stop.Sane()
      modifies this`log, this`stop
      ensures Exclusive(log) && !LastConnected(log, |log|)
      ensures var interval := if repeatInterval.Some? then repeatInterval.value else 0;
              && stop == AfterPause(a, interval, old(stop))
              && outcome == (if repeatInterval == None then Some(GaveUp(reason))
                             else if a.elapsed < interval && stop.Over() then Some(TaskStopped)
                             else None)
              && log == (old(log) + [Entry(Failed(reason), {})]) + if outcome == None then Pause(a, interval) else []
    {
      hide Exclusive, LastConnected;
      Note(Failed(reason));
      if repeatInterval.Some? {
        if a.elapsed < repeatInterval.value {
          // The type says that this subtraction never goes below zero.
          var remained: nat := repeatInterval.value - a.elapsed;
          L.EvolvedStays(stop, a.inPause);
          stop := L.EvolvedBy(stop, a.inPause);
          L.JustDoneExactly(stop);
          if L.PollJustDone(stop, 0) == None {
            return Some(TaskStopped);
          }
          Note(Slept(remained));
        }
      } else {
        return Some(GaveUp(reason));
      }
      outcome := None;
    }

    /** One turn of the loop; `None` means that the loop goes on. */
    method Turn(a: Attempt, n: nat) returns (outcome: Option<Outcome>)
      requires Exclusive(log) && Live(channels) == {} && !LastConnected(log, |log|) && n !in channels
      requires stop.Sane()
      modifies this
      ensures Exclusive(log) && channels.Keys <= old(channels.Keys) + {n} && stop.Sane()
      ensures Live(channels) <= if outcome == Some(Talking) then {n} else {}
      ensures outcome == None ==> !LastConnected(log, |log|)
      ensures TurnEnds(codec, repeatInterval, a, n, old(stop), old(log), outcome, log)
      ensures var interval := if repeatInterval.Some? then repeatInterval.value else 0;
              outcome == None ==> stop == AfterTurn(codec, a, interval, old(stop))
    {
      hide Exclusive, LastConnected, TalkState, Live;
      ghost var interval := if repeatInterval.Some? then repeatInterval.value else 0;
      TurnKeepsStop(codec, a, interval, stop);
      stop := L.EvolvedBy(stop, a.before);
      if stop.value == L.Stopped {
        return Some(Stopped);
      }
      ghost var head := stop;
      var reason;
      outcome, reason := Converse(n, a);
      if outcome.Some? {
        return;
      }
      if !a.toldFailed {
        return Some(ActorGone);
      }
      assert Reports(codec, a, head) by { TalkEndsByItself(codec, a, head); }
      outcome := RetryLater(a, reason);
      Regroup(old(log), Talk(a, n), [Failure(codec, a, head)],
              if outcome == None then Pause(a, repeatInterval.value) else []);
    }

    /** The loop, for as long as the script lasts (`None`). */
    method ConnectionRoutine(script: seq<Attempt>) returns (outcome: Option<Outcome>, n: nat)
      requires log == [] && channels == map[] && stop.Sane()
      modifies this
      ensures Exclusive(log) && |Live(channels)| <= 1 && (outcome != Some(Talking) ==> Live(channels) == {})
      ensures n <= |script| && (outcome == None <==> n == |script|)
      ensures var interval := if repeatInterval.Some? then repeatInterval.value else 0;
              var before := Turns(codec, script, interval, old(stop), n);
              var begun := StopAfter(codec, script, interval, old(stop), n);
              && (forall i | 0 <= i < n ::
                    WentOn(codec, repeatInterval, script[i], StopAfter(codec, script, interval, old(stop), i)))
              && if outcome == None then log == before && stop == begun
              else TurnEnds(codec, repeatInterval, script[n], n, begun, before, outcome, log)
    {
      NothingYet();
      hide Exclusive, LastConnected, AfterTurn, TurnEnds, Live, WentOn;
      ghost var interval := if repeatInterval.Some? then repeatInterval.value else 0;
      n := 0;
      while n < |script|
        invariant n <= |script|
        invariant Exclusive(log) && Live(channels) == {} && !LastConnected(log, |log|)
        invariant forall k <- channels :: k < n
        invariant stop.Sane() && stop == StopAfter(codec, script, interval, old(stop), n)
        invariant log == Turns(codec, script, interval, old(stop), n)
        invariant forall i | 0 <= i < n ::
            WentOn(codec, repeatInterval, script[i], StopAfter(codec, script, interval, old(stop), i))
      {
        ghost var begun, before := stop, log;
        outcome := Turn(script[n], n);
        if outcome.Some? {
          AtMostOne(Live(channels), n);
          return;
        }
        GoesOn(codec, repeatInterval, script[n], n, begun, before, log);
        n := n + 1;
      }
      outcome := None;
    }
  }

  /** Between two Connected statuses there is always a Failed. */
  lemma BetweenConnections(log: seq<Entry>, i: nat, j: nat)
    requires Exclusive(log) && i < j < |log| && log[i].event.Connected? && log[j].event.Connected?
    ensures exists m | i < m < j :: log[m].event.Failed?
  {
    assert ExclusiveAt(log, j);
    if forall m | i < m < j :: !log[m].event.Failed? {
      StillConnected(log, i, j);
    }
  }

  lemma {:induction false} StillConnected(log: seq<Entry>, i: nat, n: nat)
    requires i < n <= |log| && log[i].event.Connected? && (forall m | i < m < n :: !log[m].event.Failed?)
    ensures LastConnected(log, n)
  {
    if i + 1 < n {
      StillConnected(log, i, n - 1);
    }
  }

  /** What a turn leaves in a longer log, with the pause: the rest of the interval. */
  predicate TurnReported(a: Attempt, n: nat, end: Option<T.Outcome>, interval: nat, was: seq<Entry>, log: seq<Entry>) {
    && Reported(a, n, end, was, log)
    && (a.elapsed < interval ==>
          var k := |was| + if a.connected then 2 else 1;
          k < |log| && log[k] == Entry(Slept(interval - a.elapsed), {}))
  }

  lemma ReportedStays(a: Attempt, n: nat, end: Option<T.Outcome>, interval: nat, was: seq<Entry>, log: seq<Entry>,
                      longer: seq<Entry>)
    requires TurnReported(a, n, end, interval, was, log) && log <= longer
    ensures TurnReported(a, n, end, interval, was, longer)
  {
  }

  lemma TurnsNext(codec: T.Codec, script: seq<Attempt>, interval: nat, stop: L.Channel, n: nat)
    requires 0 < n <= |script|
    ensures var head := Head(script[n - 1], StopAfter(codec, script, interval, stop, n - 1));
            var was := Turns(codec, script, interval, stop, n - 1);
            var added := Talk(script[n - 1], n - 1) + [Failure(codec, script[n - 1], head)] + Pause(script[n - 1], interval);
            Turns(codec, script, interval, stop, n) == was + added && was <= was + added
  {
    hide Head, StopAfter, Talk, Failure, Pause;
  }

  /** In the log of turns that all went on, each turn has left what it should: the sender if it
      connected, the failure with the reason that its talk gives, and the rest of the interval. */
  lemma {:induction false} TurnsReport(
    codec: T.Codec, script: seq<Attempt>, interval: nat, stop: L.Channel, n: nat, i: nat)
    requires i < n <= |script|
    requires forall j | 0 <= j < n ::
               WentOn(codec, Some(interval), script[j], StopAfter(codec, script, interval, stop, j))
    ensures var a, head := script[i], Head(script[i], StopAfter(codec, script, interval, stop, i));
            var was, log := Turns(codec, script, interval, stop, i), Turns(codec, script, interval, stop, n);
            TurnReported(a, i, TalkEnd(codec, a, head), interval, was, log)
  {
    hide *;
    var a, head := script[i], Head(script[i], StopAfter(codec, script, interval, stop, i));
    var was := Turns(codec, script, interval, stop, i);
    TurnsNext(codec, script, interval, stop, n);
    if i < n - 1 {
      TurnsReport(codec, script, interval, stop, n - 1, i);
      ReportedStays(a, i, TalkEnd(codec, a, head), interval, was, Turns(codec, script, interval, stop, n - 1),
                    Turns(codec, script, interval, stop, n));
    } else {
      WentOnReports(codec, interval, a, StopAfter(codec, script, interval, stop, i));
      LastTurnReports(codec, a, interval, head, i, was, Turns(codec, script, interval, stop, n));
    }
  }

  lemma WentOnReports(codec: T.Codec, interval: nat, a: Attempt, stop: L.Channel)
    requires WentOn(codec, Some(interval), a, stop)
    ensures Reports(codec, a, Head(a, stop))
  {
  }

  lemma LastTurnReports(codec: T.Codec, a: Attempt, interval: nat, head: L.Channel, n: nat,
                        was: seq<Entry>, log: seq<Entry>)
    requires Reports(codec, a, head)
    requires log == was + (Talk(a, n) + [Failure(codec, a, head)] + Pause(a, interval))
    ensures TurnReported(a, n, TalkEnd(codec, a, head), interval, was, log)
  {
    ReasonExactly(codec, a, head);
    hide TalkState, Reason;
  }
}
