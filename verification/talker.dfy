/** The WebSocket talker (meio-connect/src/talker.rs).

  A script gives what happens around the loop: frames arrive, messages are put into the outgoing
  channel, senders go away, the holders of stop senders act; and which ready branch `select!` takes.  A
  branch that is not ready cannot be taken, so such an entry changes nothing.
*/
module Talkers {
  import L = LiteRuntime
  import opened Options

  type Bytes = seq<nat>

  type Outgoing = nat

  type Incoming = nat

  /** Both directions are partial: `None` is a codec error. */
  datatype Codec = Codec(encode: Outgoing -> Option<Bytes>, decode: Bytes -> Option<Incoming>)

  /** `Broken` is an error item of the socket stream. */
  datatype Frame = Text(bytes: Bytes) | Binary(bytes: Bytes) | Ping | Pong | CloseFrame | Unknown | Broken

  datatype Written = Data(bytes: Bytes) | Closing

  datatype TermReason = Interrupted | Closed

  datatype Outcome = Ok(reason: TermReason) | Err

  datatype Branch = StopBranch | ConnectionBranch | ChannelBranch

  /** `works` tells whether the send, the close or the `act` of the branch succeeds. */
  datatype Event =
    | FrameArrives(frame: Frame)
    | StreamEnds
    | MessageSent(message: Outgoing)
    | SendersGone
    | StopAct(act: L.SenderAct)
    | Select(branch: Branch, works: bool)

  predicate IsData(f: Frame) {
    f.Text? || f.Binary?
  }

  function Decoded(codec: Codec, f: Frame): Option<Incoming> {
    if IsData(f) then codec.decode(f.bytes) else None
  }

  datatype Socket = Socket(
    incoming: seq<Frame>,          // frames that have arrived and are not consumed
    ended: bool,                   // the stream yields nothing after them
    arrived: seq<Frame>,           // history: all frames
    written: seq<Written>)         // history: what went to the socket

  datatype Channel = Channel(
    queue: seq<Outgoing>,
    closed: bool,                  // closed by the receiver
    gone: bool,                    // all senders are dropped
    accepted: seq<Outgoing>)       // history: all messages the channel has accepted

  /** What `select!` knows of its three branches: the future or the stream has yielded its end and
      is not polled again. */
  datatype Fuses = Fuses(done: bool, connection: bool, rx: bool)

  /** What the talker keeps. */
  datatype Flags = Flags(interrupted: bool, connectionDrained: bool, rxDrained: bool)

  /** `delivered` is what the actor was sent. */
  datatype State = State(
    socket: Socket,
    channel: Channel,
    stop: L.Channel,
    fuses: Fuses,
    flags: Flags,
    delivered: seq<Incoming>,
    outcome: Option<Outcome>)
  {
    predicate Ready(branch: Branch) {
      match branch
      case StopBranch => !fuses.done && L.PollJustDone(stop, 0) == None
      case ConnectionBranch => !fuses.connection && (socket.incoming != [] || socket.ended)
      case ChannelBranch => !fuses.rx && (channel.queue != [] || channel.closed || channel.gone)
    }

    function Dropped(): State {
      this.(channel := channel.(closed := true))
    }

    function FinishIfDone(): State {
      this.(outcome := if flags.rxDrained && flags.connectionDrained
                       then Some(Ok(if flags.interrupted then Interrupted else Closed))
                       else outcome)
    }

    /** The connection branch with an item.  An error item, an undecodable frame and a gone actor
        end the routine; a close frame closes the channel; ping, pong and unknown frames are
        ignored. */
    function Receive(codec: Codec, works: bool): State
      requires socket.incoming != []
    {
      var frame := socket.incoming[0];
      var decoded := Decoded(codec, frame);
      var bad := frame == Broken || (IsData(frame) && (decoded == None || !works));
      this.(socket := socket.(incoming := socket.incoming[1..]),
            channel := channel.(closed := channel.closed || frame == CloseFrame),
            delivered := if decoded.Some? && !bad then delivered + [decoded.value] else delivered,
            outcome := if bad then Some(Err) else outcome)
    }

    /** The channel branch with a message. */
    function Transmit(codec: Codec, works: bool): State
      requires channel.queue != []
    {
      var encoded := codec.encode(channel.queue[0]);
      var good := encoded.Some? && works;
      this.(channel := channel.(queue := channel.queue[1..]),
            socket := if good then socket.(written := socket.written + [Data(encoded.value)]) else socket,
            outcome := if good then outcome else Some(Err))
    }

    /** The channel branch without one: the closing of the connection. */
    function CloseConnection(works: bool): State {
      if works
      then this.(socket := socket.(written := socket.written + [Closing]),
                 flags := flags.(rxDrained := true)).FinishIfDone()
      else this.(outcome := Some(Err))
    }

    function TakeBranch(codec: Codec, branch: Branch, works: bool): State {
      match branch
      case StopBranch =>
        this.(fuses := fuses.(done := true), flags := flags.(interrupted := true),
              channel := channel.(closed := true))
      case ConnectionBranch =>
        if socket.incoming != [] then Receive(codec, works)
        else this.(fuses := fuses.(connection := true), flags := flags.(connectionDrained := true)).FinishIfDone()
      case ChannelBranch =>
        if channel.queue != [] then Transmit(codec, works)
        else this.(fuses := fuses.(rx := true)).CloseConnection(works)
    }

    function FrameArrives(frame: Frame): State {
      if socket.ended then this
      else this.(socket := socket.(incoming := socket.incoming + [frame], arrived := socket.arrived + [frame]))
    }

    function MessageSent(message: Outgoing): State {
      if channel.closed || channel.gone then this
      else this.(channel := channel.(queue := channel.queue + [message], accepted := channel.accepted + [message]))
    }

    function Next(codec: Codec, e: Event): State {
      match e
      case FrameArrives(frame) => FrameArrives(frame)
      case StreamEnds => this.(socket := socket.(ended := true))
      case MessageSent(message) => MessageSent(message)
      case SendersGone => this.(channel := channel.(gone := true))
      case StopAct(act) => this.(stop := L.Evolved(stop, act))
      case Select(branch, works) =>
        if outcome == None && Ready(branch) then TakeBranch(codec, branch, works) else this
    }
  }

  /** A new talker; its channel may already hold messages, and the stop channel may be in any
      state. */
  function NewTalker(queue: seq<Outgoing>, stop: L.Channel): State {
    State(Socket([], false, [], []), Channel(queue, false, false, queue), stop,
          Fuses(false, false, false), Flags(false, false, false), [], None)
  }

  function Run(codec: Codec, t: State, events: seq<Event>, n: nat): State
    requires n <= |events|
  {
    if n == 0 then t else Run(codec, t, events, n - 1).Next(codec, events[n - 1])
  }

  // ---------------------------------------------------------------------------
  // The talker as an object
  // ---------------------------------------------------------------------------

  class Talker {
    const codec: Codec
    var incoming: seq<Frame>
    var ended: bool
    var queue: seq<Outgoing>
    var closed: bool
    var gone: bool
    var stop: L.Channel
    var fuses: Fuses
    var rxDrained: bool
    var connectionDrained: bool
    var interrupted: bool
    var outcome: Option<Outcome>
    ghost var arrived: seq<Frame>
    ghost var accepted: seq<Outgoing>
    var written: seq<Written>
    var delivered: seq<Incoming>

    ghost function View(): State
      reads this
    {
      State(Socket(incoming, ended, arrived, written), Channel(queue, closed, gone, accepted),
            stop, fuses, Flags(interrupted, connectionDrained, rxDrained), delivered, outcome)
    }

    constructor (codec: Codec, queue: seq<Outgoing>, stop: L.Channel)
      ensures View() == NewTalker(queue, stop) && this.codec == codec
    {
      this.codec, this.queue, this.stop, accepted := codec, queue, stop, queue;
      incoming, arrived, written, delivered := [], [], [], [];
      ended, closed, gone, fuses := false, false, false, Fuses(false, false, false);
      rxDrained, connectionDrained, interrupted := false, false, false;
      outcome := None;
    }

    method Finish()
      modifies this`outcome
      ensures View() == old(View()).FinishIfDone()
    {
      if rxDrained && connectionDrained {
        outcome := Some(Ok(if interrupted then Interrupted else Closed));
      }
    }

    /** The talker goes out of scope, and the receiving end of its channel with it. */
    method Drop()
      modifies this`closed
      ensures View() == old(View()).Dropped()
    {
      closed := true;
    }

    method OnFrame(works: bool)
      requires incoming != []
      modifies this`incoming, this`closed, this`delivered, this`outcome
      ensures View() == old(View()).Receive(codec, works)
    {
      var frame := incoming[0];
      incoming := incoming[1..];
      if frame == Broken {
        outcome := Some(Err);
      } else if frame.Text? || frame.Binary? {
        var decoded := codec.decode(frame.bytes);
        if decoded == None || !works {
          outcome := Some(Err);
        } else {
          delivered := delivered + [decoded.value];
        }
      } else if frame == CloseFrame {
        closed := true;
      }
    }

    method OnMessage(works: bool)
      requires queue != []
      modifies this`queue, this`written, this`outcome
      ensures View() == old(View()).Transmit(codec, works)
    {
      var encoded := codec.encode(queue[0]);
      queue := queue[1..];
      if encoded == None || !works {
        outcome := Some(Err);
      } else {
        written := written + [Data(encoded.value)];
      }
    }

    method OnChannelEnd(works: bool)
      modifies this`written, this`rxDrained, this`outcome
      ensures View() == old(View()).CloseConnection(works)
    {
      if !works {
        outcome := Some(Err);
      } else {
        written := written + [Closing];
        rxDrained := true;
        Finish();
      }
    }

    method TakeBranch(branch: Branch, works: bool)
      modifies this
      ensures View() == old(View()).TakeBranch(codec, branch, works)
    {
      match branch
      case StopBranch =>
        fuses, interrupted, closed := fuses.(done := true), true, true;
      case ConnectionBranch =>
        if incoming != [] {
          OnFrame(works);
        } else {
          fuses, connectionDrained := fuses.(connection := true), true;
          Finish();
        }
      case ChannelBranch =>
        if queue != [] {
          OnMessage(works);
        } else {
          fuses := fuses.(rx := true);
          OnChannelEnd(works);
        }
    }

    /** What the outside world does. */
    method Outside(e: Event)
      requires !e.Select?
      modifies this
      ensures View() == old(View()).Next(codec, e)
    {
      match e
      case FrameArrives(frame) =>
        if !ended {
          incoming, arrived := incoming + [frame], arrived + [frame];
        }
      case StreamEnds => ended := true;
      case MessageSent(message) =>
        if !closed && !gone {
          queue, accepted := queue + [message], accepted + [message];
        }
      case SendersGone => gone := true;
      case StopAct(act) => stop := L.Evolved(stop, act);
    }

    method IsReady(branch: Branch) returns (ready: bool)
      ensures ready == View().Ready(branch)
    {
      match branch
      case StopBranch => ready := !fuses.done && L.PollJustDone(stop, 0) == None;
      case ConnectionBranch => ready := !fuses.connection && (incoming != [] || ended);
      case ChannelBranch => ready := !fuses.rx && (queue != [] || closed || gone);
    }

    /** The loop, for as long as the script lasts. */
    method Routine(events: seq<Event>)
      modifies this
      ensures View() == Run(codec, old(View()), events, |events|)
    {
      hide State.Next, State.TakeBranch, State.Ready;
      for i := 0 to |events|
        invariant View() == Run(codec, old(View()), events, i)
      {
        Serve(events[i]);
      }
    }

    method Serve(e: Event)
      modifies this
      ensures View() == old(View()).Next(codec, e)
    {
      hide State.TakeBranch;
      if e.Select? {
        var ready := IsReady(e.branch);
        if outcome == None && ready {
          TakeBranch(e.branch, e.works);
        }
      } else {
        Outside(e);
      }
    }
  }

  // ---------------------------------------------------------------------------
  // Both sides are drained
  // ---------------------------------------------------------------------------

  /** The encodings, in order, of the first `n` messages; undefined ones do not occur. */
  function Encodings(codec: Codec, messages: seq<Outgoing>, n: nat): seq<Written>
    requires n <= |messages|
  {
    if n == 0 then []
    else
      var e := codec.encode(messages[n - 1]);
      Encodings(codec, messages, n - 1) + if e.Some? then [Data(e.value)] else []
  }

  /** The decodings, in order, of the text and binary frames among the first `n`. */
  function Decodings(codec: Codec, frames: seq<Frame>, n: nat): seq<Incoming>
    requires n <= |frames|
  {
    if n == 0 then []
    else
      var f := frames[n - 1];
      Decodings(codec, frames, n - 1) + if Decoded(codec, f).Some? then [Decoded(codec, f).value] else []
  }

  predicate Encodable(codec: Codec, messages: seq<Outgoing>, n: nat)
    requires n <= |messages|
  {
    forall i | 0 <= i < n :: codec.encode(messages[i]).Some?
  }

  predicate Decodable(codec: Codec, frames: seq<Frame>, n: nat)
    requires n <= |frames|
  {
    forall i | 0 <= i < n ::
      frames[i] != Broken && (IsData(frames[i]) ==> Decoded(codec, frames[i]).Some?)
  }

  /** The socket got the encodings of the accepted messages that left the channel, and the
      closing exactly when the channel is drained. */
  ghost predicate OutgoingSide(codec: Codec, t: State) {
    && |t.channel.queue| <= |t.channel.accepted|
    && var n := |t.channel.accepted| - |t.channel.queue|;
    && t.channel.queue == t.channel.accepted[n..]
    && Encodable(codec, t.channel.accepted, n)
    && t.socket.written == Encodings(codec, t.channel.accepted, n) + (if t.flags.rxDrained then [Closing] else [])
    && (t.flags.rxDrained ==> t.channel.queue == [] && (t.channel.closed || t.channel.gone))
  }

  /** The actor got the decodings of the frames consumed so far. */
  ghost predicate IncomingSide(codec: Codec, t: State) {
    && |t.socket.incoming| <= |t.socket.arrived|
    && var n := |t.socket.arrived| - |t.socket.incoming|;
    && t.socket.incoming == t.socket.arrived[n..]
    && Decodable(codec, t.socket.arrived, n)
    && t.delivered == Decodings(codec, t.socket.arrived, n)
    && (t.flags.connectionDrained ==> t.socket.incoming == [] && t.socket.ended)
  }

  predicate FlagsAgree(t: State) {
    && t.fuses == Fuses(t.flags.interrupted, t.flags.connectionDrained, t.flags.rxDrained)
    && match t.outcome
       case None => !(t.flags.rxDrained && t.flags.connectionDrained)
       case Some(Ok(reason)) =>
         t.flags.rxDrained && t.flags.connectionDrained && (reason == Interrupted <==> t.flags.interrupted)
       case Some(Err) => true
  }

  ghost predicate Inv(codec: Codec, t: State) {
    t.outcome != Some(Err) ==> OutgoingSide(codec, t) && IncomingSide(codec, t) && FlagsAgree(t)
  }

  lemma SameEncodings(codec: Codec, messages: seq<Outgoing>, longer: seq<Outgoing>, n: nat)
    requires n <= |messages| && messages <= longer
    ensures Encodings(codec, longer, n) == Encodings(codec, messages, n)
  {
  }

  lemma SameDecodings(codec: Codec, frames: seq<Frame>, longer: seq<Frame>, n: nat)
    requires n <= |frames| && frames <= longer
    ensures Decodings(codec, longer, n) == Decodings(codec, frames, n)
  {
  }

  lemma ConsumeFrame(codec: Codec, t: State, u: State)
    requires IncomingSide(codec, t) && t.socket.incoming != []
    requires u.socket.incoming == t.socket.incoming[1..] && u.socket.arrived == t.socket.arrived
    requires u.socket.ended == t.socket.ended && u.flags.connectionDrained == t.flags.connectionDrained
    requires var f := t.socket.incoming[0];
             && f != Broken
             && (IsData(f) ==> Decoded(codec, f).Some?)
             && u.delivered == t.delivered + if Decoded(codec, f).Some? then [Decoded(codec, f).value] else []
    ensures IncomingSide(codec, u)
  {
    var n := |t.socket.arrived| - |t.socket.incoming|;
    assert t.socket.arrived[n] == t.socket.incoming[0];
    assert u.socket.incoming == t.socket.arrived[n + 1..];
    assert Decodings(codec, t.socket.arrived, n + 1) == u.delivered;
  }

  lemma ReceiveKeeps(codec: Codec, t: State, works: bool)
    requires Inv(codec, t) && t.outcome == None && t.socket.incoming != []
    ensures Inv(codec, t.Receive(codec, works))
  {
    hide OutgoingSide, IncomingSide;
    var u := t.Receive(codec, works);
    if u.outcome != Some(Err) {
      assert t.delivered + [] == t.delivered;
      ConsumeFrame(codec, t, u);
      ClosingKeepsOutgoing(codec, t, u);
    }
  }

  lemma ClosingKeepsOutgoing(codec: Codec, t: State, u: State)
    requires OutgoingSide(codec, t) && (t.channel.closed ==> u.channel.closed) && u.channel.gone == t.channel.gone
    requires u.channel.queue == t.channel.queue && u.channel.accepted == t.channel.accepted
    requires u.socket.written == t.socket.written && u.flags.rxDrained == t.flags.rxDrained
    ensures OutgoingSide(codec, u)
  {
  }

  lemma TransmitKeeps(codec: Codec, t: State, works: bool)
    requires Inv(codec, t) && t.outcome == None && t.channel.queue != [] && !t.flags.rxDrained
    ensures Inv(codec, t.Transmit(codec, works))
  {
    hide IncomingSide, Decodings;
    var u := t.Transmit(codec, works);
    assert IncomingSide(codec, u) by {
      SameIncoming(codec, t, u);
    }
    assert t.socket.written + [] == t.socket.written;
  }

  lemma SameIncoming(codec: Codec, t: State, u: State)
    requires IncomingSide(codec, t) && u.delivered == t.delivered
    requires u.socket.incoming == t.socket.incoming && u.socket.arrived == t.socket.arrived
    requires (t.socket.ended ==> u.socket.ended) && u.flags.connectionDrained == t.flags.connectionDrained
    ensures IncomingSide(codec, u)
  {
  }

  lemma BranchKeeps(codec: Codec, t: State, branch: Branch, works: bool)
    requires Inv(codec, t) && t.outcome == None && t.Ready(branch)
    ensures Inv(codec, t.TakeBranch(codec, branch, works))
  {
    hide Encodings, Decodings;
    match branch
    case StopBranch =>
    case ConnectionBranch => if t.socket.incoming != [] { ReceiveKeeps(codec, t, works); }
    case ChannelBranch =>
      if t.channel.queue != [] {
        TransmitKeeps(codec, t, works);
      } else {
        assert t.socket.written + [] == t.socket.written;
      }
  }

  lemma FrameKeeps(codec: Codec, t: State, frame: Frame)
    requires IncomingSide(codec, t) && !t.socket.ended
    ensures IncomingSide(codec, t.Next(codec, FrameArrives(frame)))
  {
    var u := t.Next(codec, FrameArrives(frame));
    var n := |t.socket.arrived| - |t.socket.incoming|;
    SameDecodings(codec, t.socket.arrived, u.socket.arrived, n);
    assert u.socket.incoming == u.socket.arrived[n..];
  }

  lemma MessageKeeps(codec: Codec, t: State, message: Outgoing)
    requires OutgoingSide(codec, t) && !t.channel.closed && !t.channel.gone
    ensures OutgoingSide(codec, t.Next(codec, MessageSent(message)))
  {
    var u := t.Next(codec, MessageSent(message));
    var n := |t.channel.accepted| - |t.channel.queue|;
    SameEncodings(codec, t.channel.accepted, u.channel.accepted, n);
    assert u.channel.queue == u.channel.accepted[n..];
  }

  lemma OutsideKeeps(codec: Codec, t: State, e: Event)
    requires Inv(codec, t) && t.outcome != Some(Err) && !e.Select?
    ensures Inv(codec, t.Next(codec, e))
  {
    hide OutgoingSide, IncomingSide;
    var u := t.Next(codec, e);
    if e.FrameArrives? && !t.socket.ended {
      FrameKeeps(codec, t, e.frame);
      ClosingKeepsOutgoing(codec, t, u);
    } else if e.MessageSent? && !t.channel.closed && !t.channel.gone {
      MessageKeeps(codec, t, e.message);
      SameIncoming(codec, t, u);
    } else {
      SameIncoming(codec, t, u);
      GoneKeepsOutgoing(codec, t, u);
    }
  }

  lemma GoneKeepsOutgoing(codec: Codec, t: State, u: State)
    requires OutgoingSide(codec, t) && u.channel.closed == t.channel.closed && (t.channel.gone ==> u.channel.gone)
    requires u.channel.queue == t.channel.queue && u.channel.accepted == t.channel.accepted
    requires u.socket.written == t.socket.written && u.flags.rxDrained == t.flags.rxDrained
    ensures OutgoingSide(codec, u)
  {
  }

  lemma StepKeeps(codec: Codec, t: State, e: Event)
    requires Inv(codec, t)
    ensures Inv(codec, t.Next(codec, e))
  {
    hide State.TakeBranch, OutgoingSide, IncomingSide, FlagsAgree, State.Ready;
    if e.Select? {
      if t.outcome == None && t.Ready(e.branch) {
        BranchKeeps(codec, t, e.branch, e.works);
      }
    } else if t.outcome != Some(Err) {
      OutsideKeeps(codec, t, e);
    }
  }

  lemma {:induction false} InvHolds(codec: Codec, queue: seq<Outgoing>, stop: L.Channel, events: seq<Event>, n: nat)
    requires n <= |events|
    ensures Inv(codec, Run(codec, NewTalker(queue, stop), events, n))
  {
    hide State.Next;
    if n > 0 {
      InvHolds(codec, queue, stop, events, n - 1);
      StepKeeps(codec, Run(codec, NewTalker(queue, stop), events, n - 1), events[n - 1]);
    }
  }

  /** When the routine returns Ok, the socket was written exactly the encodings, in order, of all
      messages the channel ever accepted, then one closing and nothing else; and the actor was
      sent exactly the decodings, in order, of all text and binary frames until the stream
      ended. */
  lemma DrainsBothSides(codec: Codec, queue: seq<Outgoing>, stop: L.Channel, events: seq<Event>)
    ensures var t := Run(codec, NewTalker(queue, stop), events, |events|);
            t.outcome.Some? && t.outcome.value.Ok? ==>
              && t.socket.written == Encodings(codec, t.channel.accepted, |t.channel.accepted|) + [Closing]
              && Encodable(codec, t.channel.accepted, |t.channel.accepted|)
              && t.delivered == Decodings(codec, t.socket.arrived, |t.socket.arrived|)
              && Decodable(codec, t.socket.arrived, |t.socket.arrived|)
              && t.socket.ended && (t.channel.closed || t.channel.gone)
  {
    InvHolds(codec, queue, stop, events, |events|);
  }

  // ---------------------------------------------------------------------------
  // The select always has a branch to wait for
  // ---------------------------------------------------------------------------

  /** At every loop head what `select!` knows of its branches agrees with the flags of the talker,
      and at most one side is drained: not all branches are completed, so `select!` never finds
      nothing to poll.  A side is completed only if it is exhausted. */
  lemma {:induction false} NeverSelectsOverNothing(
    codec: Codec, queue: seq<Outgoing>, stop: L.Channel, events: seq<Event>, n: nat)
    requires n <= |events|
    ensures var t := Run(codec, NewTalker(queue, stop), events, n);
            t.outcome == None ==>
              && t.fuses == Fuses(t.flags.interrupted, t.flags.connectionDrained, t.flags.rxDrained)
              && !(t.fuses.rx && t.fuses.connection)
              && (t.fuses.connection ==> t.socket.incoming == [] && t.socket.ended)
              && (t.fuses.rx ==> t.channel.queue == [] && (t.channel.closed || t.channel.gone))
  {
    InvHolds(codec, queue, stop, events, n);
  }

  /** The stop branch is taken by event `i`. */
  predicate StopTaken(codec: Codec, t: State, events: seq<Event>, i: nat)
    requires i < |events|
  {
    var was := Run(codec, t, events, i);
    events[i].Select? && events[i].branch == StopBranch && was.outcome == None && was.Ready(StopBranch)
  }

  lemma {:induction false} StopDoneMeansTaken(codec: Codec, t: State, events: seq<Event>, n: nat)
    requires n <= |events| && !t.fuses.done
    ensures Run(codec, t, events, n).fuses.done <==> exists i | 0 <= i < n :: StopTaken(codec, t, events, i)
  {
    if n > 0 {
      StopDoneMeansTaken(codec, t, events, n - 1);
      var was := Run(codec, t, events, n - 1);
      StopDoneStep(codec, was, events[n - 1]);
      hide State.Next, State.TakeBranch;
      if StopTaken(codec, t, events, n - 1) {
        assert Run(codec, t, events, n).fuses.done;
      }
    }
  }

  lemma BranchStopDone(codec: Codec, t: State, branch: Branch, works: bool)
    ensures t.TakeBranch(codec, branch, works).fuses.done <==> t.fuses.done || branch == StopBranch
  {
  }

  lemma StopDoneStep(codec: Codec, t: State, e: Event)
    ensures t.Next(codec, e).fuses.done <==>
            t.fuses.done || (e.Select? && e.branch == StopBranch && t.outcome == None && t.Ready(StopBranch))
  {
    hide State.TakeBranch, State.Ready;
    if e.Select? {
      BranchStopDone(codec, t, e.branch, e.works);
    }
  }

  /** Interrupted is reported if and only if the stop branch has run. */
  lemma InterruptedMeansStopped(codec: Codec, queue: seq<Outgoing>, stop: L.Channel, events: seq<Event>)
    ensures var t := Run(codec, NewTalker(queue, stop), events, |events|);
            t.outcome.Some? && t.outcome.value.Ok? ==>
              (t.outcome.value.reason == Interrupted <==>
               exists i | 0 <= i < |events| :: StopTaken(codec, NewTalker(queue, stop), events, i))
  {
    InvHolds(codec, queue, stop, events, |events|);
    StopDoneMeansTaken(codec, NewTalker(queue, stop), events, |events|);
  }

  lemma BranchKeepsStop(codec: Codec, t: State, branch: Branch, works: bool)
    ensures t.TakeBranch(codec, branch, works).stop == t.stop
  {
  }

  /** Stop is sent by event `i`, through a sender that still exists. */
  predicate StopSentAt(codec: Codec, t: State, events: seq<Event>, i: nat)
    requires i < |events|
  {
    events[i] == StopAct(L.SendStop) && Run(codec, t, events, i).stop.senders > 0
  }

  lemma StopStep(codec: Codec, t: State, e: Event)
    ensures t.Next(codec, e).stop == if e.StopAct? then L.Evolved(t.stop, e.act) else t.stop
  {
    hide State.TakeBranch, State.Ready;
    if e.Select? {
      BranchKeepsStop(codec, t, e.branch, e.works);
    }
  }

  /** The value of the stop channel is Stop exactly if it was so at the start or Stop was sent. */
  lemma {:induction false} StoppedMeansSent(codec: Codec, t: State, events: seq<Event>, n: nat)
    requires n <= |events| && t.stop.Sane()
    ensures var u := Run(codec, t, events, n);
            && u.stop.Sane() && (t.stop.Over() ==> u.stop.Over())
            && (u.stop.value == L.Stopped <==>
                t.stop.value == L.Stopped || exists i | 0 <= i < n :: StopSentAt(codec, t, events, i))
  {
    if n > 0 {
      StoppedMeansSent(codec, t, events, n - 1);
      hide State.Next;
      var was := Run(codec, t, events, n - 1);
      StopStep(codec, was, events[n - 1]);
      assert StopSentAt(codec, t, events, n - 1) ==> Run(codec, t, events, n).stop.value == L.Stopped;
    }
  }

  lemma {:induction false} OverStays(codec: Codec, t: State, events: seq<Event>, i: nat, n: nat)
    requires i <= n <= |events| && Run(codec, t, events, i).stop.Over()
    ensures Run(codec, t, events, n).stop.Over()
  {
    if i < n {
      OverStays(codec, t, events, i, n - 1);
      StopStep(codec, Run(codec, t, events, n - 1), events[n - 1]);
      hide State.Next;
    }
  }

  /** A talker that reports Interrupted has found the stop channel over.  So Stop was sent, before
      or during the talk, exactly unless the value is still Alive; then the last stop sender was
      dropped. */
  lemma InterruptedMeansOver(codec: Codec, queue: seq<Outgoing>, stop: L.Channel, events: seq<Event>)
    requires stop.Sane() && Run(codec, NewTalker(queue, stop), events, |events|).outcome == Some(Ok(Interrupted))
    ensures var t := NewTalker(queue, stop);
            var u := Run(codec, t, events, |events|);
            && u.stop.Over()
            && (stop.value == L.Stopped || (exists i | 0 <= i < |events| :: StopSentAt(codec, t, events, i)) <==>
                u.stop.value == L.Stopped)
            && (u.stop.value == L.Alive ==> u.stop.senders == 0)
  {
    var t := NewTalker(queue, stop);
    InterruptedMeansStopped(codec, queue, stop, events);
    var i :| 0 <= i < |events| && StopTaken(codec, t, events, i);
    StoppedMeansSent(codec, t, events, i);
    StoppedMeansSent(codec, t, events, |events|);
    L.JustDoneExactly(Run(codec, t, events, i).stop);
    OverStays(codec, t, events, i, |events|);
  }

  /** It does happen that nobody ever sends Stop: the only stop sender is dropped. */
  lemma InterruptedWithoutStop(codec: Codec) returns (events: seq<Event>)
    ensures forall e <- events :: e != StopAct(L.SendStop)
    ensures Run(codec, NewTalker([], L.NEW_CHANNEL), events, |events|).outcome == Some(Ok(Interrupted))
  {
    events := [StopAct(L.DropSender), Select(StopBranch, true), StreamEnds, Select(ConnectionBranch, true),
               Select(ChannelBranch, true)];
    var t := NewTalker([], L.NEW_CHANNEL);
    var t1 := t.Next(codec, events[0]);
    var t2 := t1.Next(codec, events[1]);
    var t3 := t2.Next(codec, events[2]);
    var t4 := t3.Next(codec, events[3]);
    assert Run(codec, t, events, 1) == t1;
    assert Run(codec, t, events, 2) == t2;
    assert Run(codec, t, events, 3) == t3;
    assert Run(codec, t, events, 4) == t4;
    assert Run(codec, t, events, 5) == t4.Next(codec, events[4]);
  }

  /** A channel that its receiver has closed, or that has no sender, stays that way. */
  lemma {:induction false} ShutChannelsStayShut(codec: Codec, t: State, events: seq<Event>, i: nat, n: nat)
    requires i <= n <= |events|
    ensures var c, d := Run(codec, t, events, i).channel, Run(codec, t, events, n).channel;
            (c.closed ==> d.closed) && (c.gone ==> d.gone) && (c.closed || c.gone ==> d.accepted == c.accepted)
  {
    if i < n {
      ShutChannelsStayShut(codec, t, events, i, n - 1);
      ShutChannelStep(codec, Run(codec, t, events, n - 1), events[n - 1]);
      hide State.Next;
    }
  }

  lemma ShutChannelStep(codec: Codec, t: State, e: Event)
    ensures var u := t.Next(codec, e);
            && (t.channel.closed ==> u.channel.closed) && (t.channel.gone ==> u.channel.gone)
            && (t.channel.closed || t.channel.gone ==> u.channel.accepted == t.channel.accepted)
  {
    hide State.Ready;
  }

  // ---------------------------------------------------------------------------
  // Who closes the channel, and who ends the routine with an error
  // ---------------------------------------------------------------------------

  /** The number of frames the talker has taken from the socket. */
  function Consumed(t: State): int {
    |t.socket.arrived| - |t.socket.incoming|
  }

  /** The frames that have arrived are the consumed ones and then the waiting ones; the talker has
      closed its channel if and only if the stop branch has run or a close frame was consumed. */
  ghost predicate ClosedRight(t: State) {
    && |t.socket.incoming| <= |t.socket.arrived|
    && t.socket.incoming == t.socket.arrived[Consumed(t)..]
    && (t.channel.closed <==> t.fuses.done || CloseFrame in t.socket.arrived[..Consumed(t)])
  }

  lemma ReceiveClosesRight(codec: Codec, t: State, works: bool)
    requires ClosedRight(t) && t.socket.incoming != []
    ensures ClosedRight(t.Receive(codec, works))
  {
    var u, n := t.Receive(codec, works), Consumed(t);
    assert t.socket.arrived[n] == t.socket.incoming[0];
    assert t.socket.arrived[..n + 1] == t.socket.arrived[..n] + [t.socket.incoming[0]];
    assert u.socket.incoming == t.socket.arrived[n + 1..];
  }

  lemma FrameClosesRight(t: State, frame: Frame)
    requires ClosedRight(t)
    ensures ClosedRight(t.FrameArrives(frame))
  {
    if !t.socket.ended {
      var u, n := t.FrameArrives(frame), Consumed(t);
      assert u.socket.arrived[..n] == t.socket.arrived[..n];
      assert u.socket.incoming == u.socket.arrived[n..];
    }
  }

  lemma StepClosesRight(codec: Codec, t: State, e: Event)
    requires ClosedRight(t)
    ensures ClosedRight(t.Next(codec, e))
  {
    match e
    case FrameArrives(frame) => FrameClosesRight(t, frame);
    case Select(ConnectionBranch, works) =>
      if t.socket.incoming != [] {
        ReceiveClosesRight(codec, t, works);
      }
    case _ =>
  }

  /** Over every run of a new talker, whatever its outcome. */
  lemma {:induction false} ClosedExactly(
    codec: Codec, queue: seq<Outgoing>, stop: L.Channel, events: seq<Event>, n: nat)
    requires n <= |events|
    ensures ClosedRight(Run(codec, NewTalker(queue, stop), events, n))
  {
    hide State.Next;
    if n > 0 {
      ClosedExactly(codec, queue, stop, events, n - 1);
      StepClosesRight(codec, Run(codec, NewTalker(queue, stop), events, n - 1), events[n - 1]);
    } else {
      hide Run;
      NewIsClosedRight(codec, queue, stop, events);
    }
  }

  lemma NewIsClosedRight(codec: Codec, queue: seq<Outgoing>, stop: L.Channel, events: seq<Event>)
    ensures ClosedRight(Run(codec, NewTalker(queue, stop), events, 0))
  {
  }

  /** What the select finds ends the routine with an error: an error item of the stream, a data
      frame that cannot be decoded or delivered, a message that cannot be encoded or sent, or a
      closing that fails. */
  predicate Fails(codec: Codec, t: State, branch: Branch, works: bool) {
    match branch
    case StopBranch => false
    case ConnectionBranch =>
      t.socket.incoming != [] &&
      (match t.socket.incoming[0]
       case Broken => true
       case Text(bytes) => codec.decode(bytes) == None || !works
       case Binary(bytes) => codec.decode(bytes) == None || !works
       case _ => false)
    case ChannelBranch =>
      if t.channel.queue != [] then codec.encode(t.channel.queue[0]) == None || !works else !works
  }

  /** The routine ends with an error exactly then, and goes on or ends well otherwise. */
  lemma ErrExactly(codec: Codec, t: State, e: Event)
    requires t.outcome == None
    ensures t.Next(codec, e).outcome == Some(Err) <==>
            e.Select? && t.Ready(e.branch) && Fails(codec, t, e.branch, e.works)
  {
    hide State.Ready;
  }

  /** When a branch of the select may be taken. */
  lemma ReadyExactly(t: State)
    requires t.stop.Sane()
    ensures t.Ready(StopBranch) <==> !t.fuses.done && (t.stop.value == L.Stopped || t.stop.senders == 0)
    ensures t.Ready(ConnectionBranch) <==> !t.fuses.connection && (t.socket.incoming != [] || t.socket.ended)
    ensures t.Ready(ChannelBranch) <==>
            !t.fuses.rx && (t.channel.queue != [] || t.channel.closed || t.channel.gone)
  {
    L.JustDoneExactly(t.stop);
  }

  /** What happens outside: frames join the socket until the stream ends, messages join an open
      channel and are refused by a shut one, and nothing else changes. */
  lemma OutsideExactly(codec: Codec, t: State, e: Event)
    requires !e.Select?
    ensures var u := t.Next(codec, e);
            && u == t.(socket := u.socket, channel := u.channel, stop := u.stop)
            && match e
               case FrameArrives(frame) =>
                 && u.channel == t.channel && u.stop == t.stop
                 && u.socket == if t.socket.ended then t.socket
                                else t.socket.(incoming := t.socket.incoming + [frame],
                                               arrived := t.socket.arrived + [frame])
               case StreamEnds => u == t.(socket := t.socket.(ended := true))
               case MessageSent(message) =>
                 && u.socket == t.socket && u.stop == t.stop
                 && u.channel == if t.channel.closed || t.channel.gone then t.channel
                                 else t.channel.(queue := t.channel.queue + [message],
                                                 accepted := t.channel.accepted + [message])
               case SendersGone => u == t.(channel := t.channel.(gone := true))
               case StopAct(act) => u.socket == t.socket && u.channel == t.channel
  {
  }
}
