/** Streams attached to an actor (meio/src/forwarders.rs, meio/src/handlers.rs). */
module Forwarders {
  import opened Mailboxes
  import R = ActorRuntimes

  type Stream = nat

  /** `StreamItem::Item`, `StreamItem::Done`, and every other message of the actor. */
  datatype Envelope = Item(stream: Stream, item: nat) | StreamDone(stream: Stream) | Other(tag: nat)

  predicate Of(e: Envelope, stream: Stream) {
    (e.Item? || e.StreamDone?) && e.stream == stream
  }

  /** Of the first `n` messages, those of one stream. */
  function Project(messages: seq<Envelope>, stream: Stream, n: nat): seq<Envelope>
    requires n <= |messages|
  {
    if n == 0 then []
    else Project(messages, stream, n - 1) + if Of(messages[n - 1], stream) then [messages[n - 1]] else []
  }

  /** What a forwarder sends: the items in order, then the end of the stream. */
  function Script(stream: Stream, items: seq<nat>): (r: seq<Envelope>)
    ensures |r| == |items| + 1 && r[|items|] == StreamDone(stream)
    ensures forall i | 0 <= i < |items| :: r[i] == Item(stream, items[i])
  {
    seq(|items|, i requires 0 <= i < |items| => Item(stream, items[i])) + [StreamDone(stream)]
  }

  /** The forwarder by itself: it sends until the recipient refuses, and reports which. */
  method InterruptableRoutine(stream: Stream, items: seq<nat>, recipient: R.ActorRuntime<Envelope>)
    returns (ok: bool)
    modifies recipient`lp, recipient`lpSent
    ensures ok == recipient.open && recipient.open == old(recipient.open)
    ensures recipient.lpSent == if ok then old(recipient.lpSent) + Script(stream, items) else old(recipient.lpSent)
    ensures recipient.lp == if ok then old(recipient.lp) + Script(stream, items) else old(recipient.lp)
  {
    ghost var script := Script(stream, items);
    for i := 0 to |items|
      invariant i > 0 ==> recipient.open
      invariant recipient.lpSent == old(recipient.lpSent) + script[..i]
      invariant recipient.lp == old(recipient.lp) + script[..i]
    {
      var accepted := recipient.NormalPrioritySend(Item(stream, items[i]));
      if !accepted {
        return false;
      }
      assert script[..i + 1] == script[..i] + [script[i]];
    }
    ok := recipient.NormalPrioritySend(StreamDone(stream));
    assert script == script[..|items|] + [script[|items|]];
  }

  // ---------------------------------------------------------------------------
  // Many forwarders and senders
  // ---------------------------------------------------------------------------

  /** A forwarder that has sent the first `sent` entries of its script. */
  datatype Forwarder = Forwarder(items: seq<nat>, sent: nat, running: bool)

  datatype World = World(box: Mailbox<Envelope>, forwarders: map<Stream, Forwarder>)

  datatype Step =
    | Attach(stream: Stream, items: seq<nat>)
    | Forward(stream: Stream)
    | Interrupt(stream: Stream)
    | Send(tag: nat)
    | SendInstant(parcel: Parcel<Envelope>)
    | Poll(now: int, pick: Timed<Envelope>)
    | Finish

  ghost predicate Enabled(w: World, step: Step) {
    match step
    case Attach(stream, _) => stream !in w.forwarders
    case Forward(stream) => stream in w.forwarders && w.forwarders[stream].running
    case Interrupt(stream) => stream in w.forwarders
    case Send(_) => true
    case SendInstant(_) => true
    case Poll(now, pick) => w.box.open && w.box.MayPick(now, pick)
    case Finish => w.box.open
  }

  /** The next message of the forwarder; it ends with the last one, or when it is refused. */
  function Advance(w: World, stream: Stream): World
    requires stream in w.forwarders
  {
    var f := w.forwarders[stream];
    if !w.box.open || f.sent > |f.items| then w.(forwarders := w.forwarders[stream := f.(running := false)])
    else
      World(w.box.SendNormal(Script(stream, f.items)[f.sent]),
            w.forwarders[stream := f.(sent := f.sent + 1, running := f.sent < |f.items|)])
  }

  function Apply(w: World, step: Step): World
    requires Enabled(w, step)
  {
    match step
    case Attach(stream, items) => w.(forwarders := w.forwarders[stream := Forwarder(items, 0, true)])
    case Forward(stream) => Advance(w, stream)
    case Interrupt(stream) =>
      w.(forwarders := w.forwarders[stream := w.forwarders[stream].(running := false)])
    case Send(tag) => w.(box := w.box.SendNormal(Other(tag)))
    case SendInstant(parcel) => w.(box := w.box.SendInstant(parcel))
    case Poll(now, pick) => w.(box := w.box.Poll(now, pick))
    case Finish => w.(box := w.box.Close())
  }

  ghost predicate Run(worlds: seq<World>, steps: seq<Step>) {
    && |worlds| == |steps| + 1 && worlds[0] == World(EmptyMailbox<Envelope>(), map[])
    && (forall i | 0 <= i < |steps| :: Enabled(worlds[i], steps[i]) && worlds[i + 1] == Apply(worlds[i], steps[i]))
  }

  /** Of every stream the actor was sent exactly what its forwarder has sent so far. */
  ghost predicate Inv(w: World) {
    && (forall s <- w.forwarders :: w.forwarders[s].sent <= |w.forwarders[s].items| + 1)
    && (forall s <- w.forwarders ::
          Project(w.box.lpSent, s, |w.box.lpSent|) == Script(s, w.forwarders[s].items)[..w.forwarders[s].sent])
    && (forall s | s !in w.forwarders :: Project(w.box.lpSent, s, |w.box.lpSent|) == [])
  }

  lemma SameProject(messages: seq<Envelope>, longer: seq<Envelope>, stream: Stream, n: nat)
    requires n <= |messages| && messages <= longer
    ensures Project(longer, stream, n) == Project(messages, stream, n)
  {
  }

  lemma ProjectSnoc(messages: seq<Envelope>, longer: seq<Envelope>, e: Envelope, stream: Stream)
    requires longer == messages + [e]
    ensures Project(longer, stream, |longer|) ==
            Project(messages, stream, |messages|) + if Of(e, stream) then [e] else []
  {
    SameProject(messages, longer, stream, |messages|);
    assert longer[|messages|] == e;
  }

  lemma ForwardKeeps(w: World, stream: Stream)
    requires Inv(w) && stream in w.forwarders
    ensures Inv(Advance(w, stream))
  {
    var u, f := Advance(w, stream), w.forwarders[stream];
    if w.box.open && f.sent <= |f.items| {
      var script := Script(stream, f.items);
      assert script[..f.sent + 1] == script[..f.sent] + [script[f.sent]];
      forall s: Stream ensures Project(u.box.lpSent, s, |u.box.lpSent|) ==
                               Project(w.box.lpSent, s, |w.box.lpSent|) + if s == stream then [script[f.sent]] else [] {
        ProjectSnoc(w.box.lpSent, u.box.lpSent, script[f.sent], s);
      }
    }
  }

  lemma SendKeeps(w: World, tag: nat)
    requires Inv(w)
    ensures Inv(w.(box := w.box.SendNormal(Other(tag))))
  {
    var u := w.box.SendNormal(Other(tag));
    if w.box.open {
      forall s: Stream ensures Project(u.lpSent, s, |u.lpSent|) == Project(w.box.lpSent, s, |w.box.lpSent|) {
        ProjectSnoc(w.box.lpSent, u.lpSent, Other(tag), s);
      }
    }
  }

  lemma StepKeeps(w: World, step: Step)
    requires Inv(w) && Enabled(w, step)
    ensures Inv(Apply(w, step))
  {
    match step
    case Forward(stream) => ForwardKeeps(w, stream);
    case Send(tag) => SendKeeps(w, tag);
    case Attach(stream, items) => assert Script(stream, items)[..0] == [];
    case _ =>
  }

  function ActOf(w: World, step: Step): Mailboxes.Act<Envelope>
    requires Enabled(w, step)
  {
    match step
    case Forward(stream) =>
      var f := w.forwarders[stream];
      Mailboxes.Act.SendNormal(if f.sent <= |f.items| then Script(stream, f.items)[f.sent] else Other(0))
    case Send(tag) => Mailboxes.Act.SendNormal(Other(tag))
    case SendInstant(parcel) => Mailboxes.Act.SendInstant(parcel)
    case Poll(now, pick) => Mailboxes.Act.Poll(now, pick)
    case _ => Mailboxes.Act.Close
  }

  lemma StepConserves(w: World, step: Step)
    requires Enabled(w, step) && Conserved(w.box)
    ensures Conserved(Apply(w, step).box)
  {
    hide Conserved, Mailbox.Poll;
    if Apply(w, step).box != w.box {
      StepKeepsConserved(w.box, ActOf(w, step));
    }
  }

  lemma {:induction false} InvHolds(worlds: seq<World>, steps: seq<Step>, i: nat)
    requires Run(worlds, steps) && i < |worlds|
    ensures Inv(worlds[i]) && Conserved(worlds[i].box)
  {
    if i > 0 {
      hide Inv, Conserved;
      InvHolds(worlds, steps, i - 1);
      StepKeeps(worlds[i - 1], steps[i - 1]);
      StepConserves(worlds[i - 1], steps[i - 1]);
    } else {
      hide Conserved;
      StepKeepsNothing();
    }
  }

  lemma StepKeepsNothing()
    ensures Conserved(EmptyMailbox<Envelope>())
  {
  }

  lemma {:induction false} ProjectPrefix(messages: seq<Envelope>, stream: Stream, k: nat, n: nat)
    requires k <= n <= |messages|
    ensures Project(messages, stream, k) <= Project(messages, stream, n)
  {
    if k < n {
      ProjectPrefix(messages, stream, k, n - 1);
    }
  }

  /** Under any interleaving of forwarders and other senders, the actor has handled of each
      attached stream a prefix of its items, in order, and the end of the stream at most once
      and only after all its items. */
  lemma StreamsStayOrdered(worlds: seq<World>, steps: seq<Step>, i: nat, stream: Stream)
    requires Run(worlds, steps) && i < |worlds| && stream in worlds[i].forwarders
    ensures var handled := Normals(worlds[i].box.log, |worlds[i].box.log|);
            Project(handled, stream, |handled|) <= Script(stream, worlds[i].forwarders[stream].items)
  {
    InvHolds(worlds, steps, i);
    var box, f := worlds[i].box, worlds[i].forwarders[stream];
    var handled := Normals(box.log, |box.log|);
    assert handled <= box.lpSent;
    SameProject(handled, box.lpSent, stream, |handled|);
    ProjectPrefix(box.lpSent, stream, |handled|, |box.lpSent|);
    assert Script(stream, f.items)[..f.sent] <= Script(stream, f.items);
  }

  // ---------------------------------------------------------------------------
  // A forwarder sends everything
  // ---------------------------------------------------------------------------

  ghost predicate WasInterrupted(steps: seq<Step>, i: nat, stream: Stream)
    requires i <= |steps|
  {
    exists j | 0 <= j < i :: steps[j] == Interrupt(stream)
  }

  /** A forwarder runs until it has sent all its items and the end of the stream, unless it was
      interrupted or the actor has dropped its queue. */
  ghost predicate Diligent(w: World, steps: seq<Step>, i: nat, stream: Stream)
    requires i <= |steps| && stream in w.forwarders
  {
    var f := w.forwarders[stream];
    && (f.running ==> f.sent <= |f.items|)
    && (!f.running ==> f.sent == |f.items| + 1 || !w.box.open || WasInterrupted(steps, i, stream))
  }

  lemma StepStaysDiligent(w: World, steps: seq<Step>, i: nat, stream: Stream)
    requires i < |steps| && Enabled(w, steps[i]) && stream in Apply(w, steps[i]).forwarders && Inv(w)
    requires stream in w.forwarders ==> Diligent(w, steps, i, stream)
    ensures Diligent(Apply(w, steps[i]), steps, i + 1, stream)
  {
    hide Inv;
    OnlyFinishCloses(w, steps[i]);
    assert WasInterrupted(steps, i, stream) ==> WasInterrupted(steps, i + 1, stream);
    assert steps[i] == Interrupt(stream) ==> WasInterrupted(steps, i + 1, stream);
    hide WasInterrupted, Mailbox.Poll;
  }

  lemma OnlyFinishCloses(w: World, step: Step)
    requires Enabled(w, step)
    ensures Apply(w, step).box.open <==> w.box.open && step != Finish
  {
  }

  /** In every run, an attached stream whose forwarder has ended without an interrupt, while the
      actor still has its queue, has been sent completely: all items in order and then its end. */
  lemma {:induction false} ForwardersEndComplete(worlds: seq<World>, steps: seq<Step>, i: nat, stream: Stream)
    requires Run(worlds, steps) && i < |worlds| && stream in worlds[i].forwarders
    ensures |worlds| == |steps| + 1 && Diligent(worlds[i], steps, i, stream)
    ensures var w, f := worlds[i], worlds[i].forwarders[stream];
            !f.running && w.box.open && !WasInterrupted(steps, i, stream) ==>
              Project(w.box.lpSent, stream, |w.box.lpSent|) == Script(stream, f.items)
  {
    hide *;
    Lengths(worlds, steps);
    InvHolds(worlds, steps, i);
    if i > 0 {
      InvHolds(worlds, steps, i - 1);
      RunStep(worlds, steps, i - 1);
      if stream in worlds[i - 1].forwarders {
        ForwardersEndComplete(worlds, steps, i - 1, stream);
      }
      StepStaysDiligent(worlds[i - 1], steps, i - 1, stream);
    }
    EndIsComplete(worlds[i], steps, i, stream);
  }

  lemma Lengths(worlds: seq<World>, steps: seq<Step>)
    requires Run(worlds, steps)
    ensures |worlds| == |steps| + 1 && worlds[0].forwarders == map[]
  {
  }

  lemma RunStep(worlds: seq<World>, steps: seq<Step>, i: nat)
    requires Run(worlds, steps) && i < |steps|
    ensures |worlds| == |steps| + 1 && Enabled(worlds[i], steps[i]) && worlds[i + 1] == Apply(worlds[i], steps[i])
  {
    hide Enabled, Apply;
  }

  lemma EndIsComplete(w: World, steps: seq<Step>, i: nat, stream: Stream)
    requires i <= |steps| && stream in w.forwarders && Inv(w) && Diligent(w, steps, i, stream)
    ensures var f := w.forwarders[stream];
            !f.running && w.box.open && !WasInterrupted(steps, i, stream) ==>
              Project(w.box.lpSent, stream, |w.box.lpSent|) == Script(stream, f.items)
  {
    var script := Script(stream, w.forwarders[stream].items);
    assert script[..|script|] == script;
  }

  /** `n` steps of one forwarder in a row. */
  function Advances(w: World, stream: Stream, n: nat): (u: World)
    requires stream in w.forwarders
    ensures stream in u.forwarders
  {
    if n == 0 then w else Advance(Advances(w, stream, n - 1), stream)
  }

  lemma AdvanceOnce(w: World, stream: Stream)
    requires stream in w.forwarders && w.box.open && w.forwarders[stream].sent <= |w.forwarders[stream].items|
    ensures var u, f := Advance(w, stream), w.forwarders[stream];
            && u.box.open && u.box.lpSent == w.box.lpSent + [Script(stream, f.items)[f.sent]]
            && stream in u.forwarders && u.forwarders[stream] == Forwarder(f.items, f.sent + 1, f.sent < |f.items|)
  {
  }

  /** Taken in a row on an open queue, the steps of a new forwarder send what the loop of
      `InterruptableRoutine` sends, and the forwarder runs until the last of them. */
  lemma {:induction false} AdvancesAreTheRoutine(w: World, stream: Stream, n: nat)
    requires stream in w.forwarders && w.box.open
    requires w.forwarders[stream].sent == 0 && w.forwarders[stream].running
    requires n <= |w.forwarders[stream].items| + 1
    ensures var u, items := Advances(w, stream, n), w.forwarders[stream].items;
            && u.box.open && u.box.lpSent == w.box.lpSent + Script(stream, items)[..n]
            && u.forwarders[stream] == Forwarder(items, n, n <= |items|)
  {
    hide Advance, Script;
    var script := Script(stream, w.forwarders[stream].items);
    if n > 0 {
      AdvancesAreTheRoutine(w, stream, n - 1);
      AdvanceOnce(Advances(w, stream, n - 1), stream);
      assert script[..n] == script[..n - 1] + [script[n - 1]];
    } else {
      assert w.box.lpSent + script[..0] == w.box.lpSent;
    }
  }
}
