/** Interactions: requests that expect one answer (meio/src/handlers.rs). */
module Interactions {
  import opened Mailboxes

  /** A request is named by its responder; `Other` stands for every other message. */
  datatype Envelope = Request(key: nat) | Other(tag: nat)

  /** What `recv` returns: the result of the handler, a send error, or the cancellation that the
      drop of the responder causes. */
  datatype Outcome = Answer(result: int) | SendError | Canceled

  datatype Desk = Desk(
    box: Mailbox<Envelope>,
    asked: set<nat>,
    outcomes: map<nat, Outcome>,
    resolutions: multiset<nat>)       // how often each request was resolved

  datatype Step =
    | Recv(key: nat)                                  // `InteractionTask::recv`
    | Send(envelope: Envelope)                        // other normal messages
    | SendInstant(parcel: Parcel<Envelope>)
    | Poll(now: int, pick: Timed<Envelope>, result: int)
    | Finish                                          // the receivers are dropped

  ghost predicate Enabled(d: Desk, step: Step) {
    match step
    case Recv(key) => key !in d.asked
    case Send(e) => e.Other?
    case SendInstant(parcel) => parcel.envelope.Other?
    case Poll(now, pick, _) => d.box.open && d.box.MayPick(now, pick)
    case Finish => d.box.open
  }

  function Resolve(d: Desk, key: nat, outcome: Outcome): Desk {
    d.(outcomes := d.outcomes[key := outcome], resolutions := d.resolutions + multiset{key})
  }

  /** Every request that is still queued is dropped. */
  function CancelAll(d: Desk, queued: seq<Envelope>): Desk
    decreases |queued|
  {
    if queued == [] then d
    else CancelAll(if queued[0].Request? then Resolve(d, queued[0].key, Canceled) else d, queued[1..])
  }

  function Apply(d: Desk, step: Step): Desk {
    match step
    case Recv(key) =>
      var asking := d.(asked := d.asked + {key}, box := d.box.SendNormal(Request(key)));
      if d.box.open then asking else Resolve(asking, key, SendError)
    case Send(e) => d.(box := d.box.SendNormal(e))
    case SendInstant(parcel) => d.(box := d.box.SendInstant(parcel))
    case Poll(now, pick, result) =>
      var next := d.(box := d.box.Poll(now, pick));
      (match d.box.Polled(now, pick)
       case Call(Request(key)) => Resolve(next, key, Answer(result))
       case _ => next)
    case Finish => CancelAll(d, d.box.lp).(box := d.box.Close())
  }

  const NEW_DESK := Desk(EmptyMailbox<Envelope>(), {}, map[], multiset{})

  ghost predicate Run(desks: seq<Desk>, steps: seq<Step>) {
    && |desks| == |steps| + 1 && desks[0] == NEW_DESK
    && (forall i | 0 <= i < |steps| :: Enabled(desks[i], steps[i]) && desks[i + 1] == Apply(desks[i], steps[i]))
  }

  // ---------------------------------------------------------------------------
  // Exactly one resolution
  // ---------------------------------------------------------------------------

  /** A request that was asked is either queued once and unresolved, or resolved once and not
      queued. */
  ghost predicate Accounted(d: Desk) {
    forall key: nat ::
      multiset(d.box.lp)[Request(key)] + d.resolutions[key] == if key in d.asked then 1 else 0
  }

  ghost predicate Recorded(d: Desk) {
    forall key: nat :: key in d.outcomes <==> d.resolutions[key] > 0
  }

  /** Requests travel in the normal queue only. */
  ghost predicate NormalOnly(d: Desk) {
    && (forall p <- d.box.hp :: p.envelope.Other?)
    && (forall item <- d.box.delayed :: item.envelope.Other?)
    && (!d.box.open ==> d.box.lp == [])
  }

  predicate WasHandled(box: Mailbox<Envelope>, key: nat) {
    exists i | 0 <= i < |box.log| :: box.log[i].Normal? && box.log[i].envelope == Request(key)
  }

  /** An answer means that the handler was called for the request. */
  ghost predicate Honest(d: Desk) {
    forall key <- d.outcomes :: d.outcomes[key].Answer? ==> WasHandled(d.box, key)
  }

  ghost predicate Inv(d: Desk) {
    Accounted(d) && Recorded(d) && NormalOnly(d) && Honest(d)
  }

  lemma HandledStays(box: Mailbox<Envelope>, later: Mailbox<Envelope>, key: nat)
    requires WasHandled(box, key) && box.log <= later.log
    ensures WasHandled(later, key)
  {
    var i :| 0 <= i < |box.log| && box.log[i].Normal? && box.log[i].envelope == Request(key);
    assert later.log[i] == box.log[i];
  }

  lemma LogKeepsHonest(d: Desk, u: Desk)
    requires Honest(d) && d.box.log <= u.box.log
    requires forall key <- u.outcomes ::
               u.outcomes[key].Answer? ==> (key in d.outcomes && d.outcomes[key].Answer?) || WasHandled(u.box, key)
    ensures Honest(u)
  {
    hide WasHandled;
    forall key <- u.outcomes | u.outcomes[key].Answer? ensures WasHandled(u.box, key) {
      if key in d.outcomes && d.outcomes[key].Answer? {
        HandledStays(d.box, u.box, key);
      }
    }
  }

  lemma {:induction false} CancelCounts(d: Desk, queued: seq<Envelope>)
    ensures var u := CancelAll(d, queued);
            && u.box == d.box && u.asked == d.asked
            && (forall key: nat :: u.resolutions[key] == d.resolutions[key] + multiset(queued)[Request(key)])
    decreases |queued|
  {
    if queued != [] {
      var next := if queued[0].Request? then Resolve(d, queued[0].key, Canceled) else d;
      CancelCounts(next, queued[1..]);
      assert queued == [queued[0]] + queued[1..];
    }
  }

  lemma {:induction false} CancelOutcomes(d: Desk, queued: seq<Envelope>, key: nat)
    ensures var u := CancelAll(d, queued);
            && (key in u.outcomes <==> key in d.outcomes || Request(key) in queued)
            && (Request(key) in queued ==> u.outcomes[key] == Canceled)
            && (Request(key) !in queued && key in d.outcomes ==> u.outcomes[key] == d.outcomes[key])
    decreases |queued|
  {
    if queued != [] {
      var next := if queued[0].Request? then Resolve(d, queued[0].key, Canceled) else d;
      CancelOutcomes(next, queued[1..], key);
      assert queued == [queued[0]] + queued[1..];
    }
  }

  lemma FinishKeeps(d: Desk)
    requires Inv(d) && d.box.open
    ensures Inv(Apply(d, Finish))
  {
    hide CancelAll, WasHandled;
    var u := Apply(d, Finish);
    CancelCounts(d, d.box.lp);
    forall key: nat
      ensures key in u.outcomes <==> key in d.outcomes || Request(key) in d.box.lp
      ensures key in u.outcomes && u.outcomes[key].Answer? ==> key in d.outcomes && d.outcomes[key].Answer?
    {
      CancelOutcomes(d, d.box.lp, key);
    }
    LogKeepsHonest(d, u);
  }

  lemma SendFacts(box: Mailbox<Envelope>, e: Envelope)
    ensures var next := box.SendNormal(e);
            && next.open == box.open && next.hp == box.hp && next.delayed == box.delayed && next.log == box.log
            && next.lp == if box.open then box.lp + [e] else box.lp
  {
  }

  /** Asking an open desk queues the request. */
  lemma QueueKeeps(d: Desk, u: Desk, key: nat)
    requires Inv(d) && key !in d.asked && d.box.open
    requires u == d.(asked := d.asked + {key}, box := d.box.SendNormal(Request(key)))
    ensures Inv(u)
  {
    SendFacts(d.box, Request(key));
    hide WasHandled, Mailbox.SendNormal, Honest;
    LogKeepsHonest(d, u);
  }

  lemma RefuseKeeps(d: Desk, key: nat)
    requires Inv(d) && key !in d.asked
    ensures Inv(Resolve(d.(asked := d.asked + {key}), key, SendError))
  {
    hide WasHandled, Honest;
    LogKeepsHonest(d, Resolve(d.(asked := d.asked + {key}), key, SendError));
  }

  lemma RecvKeeps(d: Desk, key: nat)
    requires Inv(d) && key !in d.asked
    ensures Inv(Apply(d, Recv(key)))
  {
    hide Inv;
    if d.box.open {
      QueueKeeps(d, Apply(d, Recv(key)), key);
    } else {
      RefuseKeeps(d, key);
    }
  }

  /** The box without its front parcel, or without one due item. */
  lemma OtherPollFacts(box: Mailbox<Envelope>, now: int, pick: Timed<Envelope>)
    requires box.hp != [] || box.IsDue(pick, now)
    ensures var next := box.Poll(now, pick);
            && next.open == box.open && next.lp == box.lp && box.log <= next.log
            && (forall p <- next.hp :: p in box.hp)
            && (forall item <- next.delayed ::
                  item in box.delayed || (box.hp != [] && item.envelope == box.hp[0].envelope))
  {
    if box.hp != [] {
      assert box.hp == [box.hp[0]] + box.hp[1..];
    }
  }

  lemma OtherPollKeeps(d: Desk, now: int, pick: Timed<Envelope>)
    requires Inv(d) && (d.box.hp != [] || d.box.IsDue(pick, now))
    ensures Inv(d.(box := d.box.Poll(now, pick)))
  {
    hide WasHandled, Mailbox.Poll, Honest;
    OtherPollFacts(d.box, now, pick);
    var u := d.(box := d.box.Poll(now, pick));
    assert d.box.hp != [] ==> d.box.hp[0] in d.box.hp;
    assert NormalOnly(u);
    hide NormalOnly;
    LogKeepsHonest(d, u);
  }

  /** The desk after the front of the normal queue was handled. */
  function Answered(d: Desk, now: int, result: int): Desk
    requires d.box.lp != []
  {
    var next := d.(box := d.box.TakeNormal(now));
    if d.box.lp[0].Request? then Resolve(next, d.box.lp[0].key, Answer(result)) else next
  }

  lemma AnsweredIsAccounted(d: Desk, now: int, result: int)
    requires Accounted(d) && Recorded(d) && d.box.lp != []
    ensures Accounted(Answered(d, now, result)) && Recorded(Answered(d, now, result))
  {
    assert d.box.lp == [d.box.lp[0]] + d.box.lp[1..];
  }

  lemma AnsweredIsNormal(d: Desk, now: int, result: int)
    requires NormalOnly(d) && d.box.open && d.box.lp != []
    ensures NormalOnly(Answered(d, now, result))
  {
  }

  lemma AnsweredIsHonest(d: Desk, now: int, result: int)
    requires Honest(d) && d.box.lp != []
    ensures Honest(Answered(d, now, result))
  {
    var u := Answered(d, now, result);
    assert u.box.log[|d.box.log|].Normal? && u.box.log[|d.box.log|].envelope == d.box.lp[0];
    assert d.box.lp[0].Request? ==> WasHandled(u.box, d.box.lp[0].key);
    hide WasHandled;
    LogKeepsHonest(d, u);
  }

  lemma RequestPollKeeps(d: Desk, now: int, result: int)
    requires Inv(d) && d.box.open && d.box.lp != []
    ensures Inv(Answered(d, now, result))
  {
    AnsweredIsAccounted(d, now, result);
    AnsweredIsNormal(d, now, result);
    AnsweredIsHonest(d, now, result);
    hide Accounted, Recorded, NormalOnly, Honest, Answered;
  }

  lemma PollKeeps(d: Desk, now: int, pick: Timed<Envelope>, result: int)
    requires Inv(d) && d.box.open && d.box.MayPick(now, pick)
    ensures Inv(Apply(d, Step.Poll(now, pick, result)))
  {
    PolledRequest(d, now, pick);
    hide Accounted, Recorded, NormalOnly, Honest, Mailbox.TakeParcel, Mailbox.TakeDue, Mailbox.TakeNormal;
    if d.box.hp != [] || d.box.IsDue(pick, now) {
      OtherPollKeeps(d, now, pick);
    } else if d.box.lp != [] {
      RequestPollKeeps(d, now, result);
    }
  }

  lemma SendKeeps(d: Desk, e: Envelope)
    requires Inv(d) && e.Other?
    ensures Inv(d.(box := d.box.SendNormal(e)))
  {
    SendFacts(d.box, e);
    hide WasHandled, Mailbox.SendNormal, Honest;
    LogKeepsHonest(d, d.(box := d.box.SendNormal(e)));
  }

  lemma SendInstantKeeps(d: Desk, parcel: Parcel<Envelope>)
    requires Inv(d) && parcel.envelope.Other?
    ensures Inv(d.(box := d.box.SendInstant(parcel)))
  {
    hide WasHandled, Honest;
    LogKeepsHonest(d, d.(box := d.box.SendInstant(parcel)));
  }

  lemma StepKeeps(d: Desk, step: Step)
    requires Inv(d) && Enabled(d, step)
    ensures Inv(Apply(d, step))
  {
    hide Inv;
    match step
    case Recv(key) => RecvKeeps(d, key);
    case Send(e) => SendKeeps(d, e);
    case SendInstant(parcel) => SendInstantKeeps(d, parcel);
    case Poll(now, pick, result) => PollKeeps(d, now, pick, result);
    case Finish => FinishKeeps(d);
  }

  lemma {:induction false} InvHolds(desks: seq<Desk>, steps: seq<Step>, i: nat)
    requires Run(desks, steps) && i < |desks|
    ensures Inv(desks[i])
  {
    if i > 0 {
      InvHolds(desks, steps, i - 1);
      StepKeeps(desks[i - 1], steps[i - 1]);
    }
  }

  /** Every request resolves exactly once: it is pending exactly while it is queued; once it is
      resolved it stays so with the same outcome; an answer means that the handler ran; and after
      the actor has finished no request is unresolved. */
  lemma ResolvesExactlyOnce(desks: seq<Desk>, steps: seq<Step>, i: nat, key: nat)
    requires Run(desks, steps) && i < |desks| && key in desks[i].asked
    ensures desks[i].resolutions[key] <= 1
    ensures key in desks[i].outcomes <==> Request(key) !in desks[i].box.lp
    ensures !desks[i].box.open ==> key in desks[i].outcomes
    ensures key in desks[i].outcomes && desks[i].outcomes[key].Answer? ==> WasHandled(desks[i].box, key)
    ensures i < |steps| && key in desks[i].outcomes ==>
              key in desks[i + 1].outcomes && desks[i + 1].outcomes[key] == desks[i].outcomes[key]
  {
    InvHolds(desks, steps, i);
    if i < |steps| && key in desks[i].outcomes {
      OutcomeStays(desks[i], steps[i], key);
    }
  }

  lemma OutcomeStays(d: Desk, step: Step, key: nat)
    requires Inv(d) && Enabled(d, step) && key in d.outcomes
    ensures key in Apply(d, step).outcomes && Apply(d, step).outcomes[key] == d.outcomes[key]
  {
    hide CancelAll, Mailbox.Polled;
    assert key in d.asked && Request(key) !in d.box.lp;
    match step
    case Finish => CancelOutcomes(d, d.box.lp, key);
    case Poll(now, pick, result) => PolledRequest(d, now, pick);
    case _ =>
  }

  /** A request that reaches its handler came from the front of the normal queue. */
  lemma PolledRequest(d: Desk, now: int, pick: Timed<Envelope>)
    requires NormalOnly(d)
    ensures var polled := d.box.Polled(now, pick);
            polled.Call? && polled.envelope.Request? ==>
              d.box.hp == [] && d.box.lp != [] && d.box.lp[0] == polled.envelope
  {
    assert d.box.hp != [] ==> d.box.hp[0] in d.box.hp;
  }

  /** Which outcome it is: at the moment of asking, a send error if and only if the queue is
      closed; at a dispatch, the result of the handler; at the finish, a cancellation. */
  lemma OutcomeMeansMoment(d: Desk, step: Step, key: nat)
    requires Inv(d) && Enabled(d, step) && key !in d.outcomes && key in Apply(d, step).outcomes
    ensures match Apply(d, step).outcomes[key]
            case SendError => step == Recv(key) && !d.box.open
            case Answer(result) =>
              step.Poll? && step.result == result && d.box.hp == [] && d.box.lp != [] && d.box.lp[0] == Request(key)
            case Canceled => step == Finish && Request(key) in d.box.lp
  {
    hide CancelAll, Mailbox.Polled;
    match step
    case Finish => CancelOutcomes(d, d.box.lp, key);
    case Poll(now, pick, result) => PolledRequest(d, now, pick);
    case _ =>
  }
}
