/** The queues of an actor and the order in which its routine serves them
    (meio/src/linkage/address.rs, meio/src/actor_runtime.rs).

  A mailbox also carries the history that the theorems speak about: what was accepted, what
  was taken out of the high-priority queue, what was handled, and what was lost when the
  receivers were dropped.  The type parameter is the type of envelopes.
*/
module Mailboxes {
  import opened Lifecycle

  /** What the runtime has to do with a high-priority parcel. */
  datatype Operation = Forward | Done(id: Id) | Schedule(deadline: int)

  datatype Parcel<E> = Parcel(operation: Operation, envelope: E)

  datatype Timed<E> = Timed(deadline: int, envelope: E)

  /** A handler call.  `seen` is the number of parcels accepted before the poll. */
  datatype Handled<E> =
    | Instant(envelope: E)
    | Late(item: Timed<E>, now: int)
    | Normal(envelope: E, seen: nat, now: int)

  /** The result of one poll of the three queues. */
  datatype Polled<E> = Idle | Deferred | Call(envelope: E) | CallDone(id: Id, envelope: E)

  datatype Mailbox<E(==)> = Mailbox(
    open: bool,
    hp: seq<Parcel<E>>,
    lp: seq<E>,
    delayed: multiset<Timed<E>>,
    hpSent: seq<Parcel<E>>,
    lpSent: seq<E>,
    taken: seq<Parcel<E>>,
    log: seq<Handled<E>>,
    lostHp: seq<Parcel<E>>,
    lostLp: seq<E>,
    lostDelayed: multiset<Timed<E>>)
  {
    function SendInstant(parcel: Parcel<E>): Mailbox<E> {
      if open then this.(hp := hp + [parcel], hpSent := hpSent + [parcel]) else this
    }

    function SendNormal(envelope: E): Mailbox<E> {
      if open then this.(lp := lp + [envelope], lpSent := lpSent + [envelope]) else this
    }

    predicate IsDue(item: Timed<E>, now: int) {
      item in delayed && item.deadline <= now
    }

    ghost predicate NothingDue(now: int) {
      forall item | item in delayed :: now < item.deadline
    }

    /** The delay queue may yield any item that is due. */
    ghost predicate MayPick(now: int, pick: Timed<E>) {
      NothingDue(now) || IsDue(pick, now)
    }

    /** The routine serves the high-priority queue: it handles the parcel, or puts a scheduled
        one into the delay queue. */
    function TakeParcel(): Mailbox<E>
      requires hp != []
    {
      var Parcel(operation, envelope) := hp[0];
      var m := this.(hp := hp[1..], taken := taken + [hp[0]]);
      if operation.Schedule?
      then m.(delayed := delayed + multiset{Timed(operation.deadline, envelope)})
      else m.(log := log + [Instant(envelope)])
    }

    function TakeDue(pick: Timed<E>, now: int): Mailbox<E> {
      this.(delayed := delayed - multiset{pick}, log := log + [Late(pick, now)])
    }

    function TakeNormal(now: int): Mailbox<E>
      requires lp != []
    {
      this.(lp := lp[1..], log := log + [Normal(lp[0], |hpSent|, now)])
    }

    /** One turn of `select_biased!`: the high-priority queue, then a due item, then the normal
        queue. */
    function Poll(now: int, pick: Timed<E>): Mailbox<E> {
      if hp != [] then TakeParcel()
      else if IsDue(pick, now) then TakeDue(pick, now)
      else if lp != [] then TakeNormal(now)
      else this
    }

    function PolledParcel(): Polled<E>
      requires hp != []
    {
      match hp[0].operation
      case Forward => Call(hp[0].envelope)
      case Done(id) => CallDone(id, hp[0].envelope)
      case Schedule(_) => Deferred
    }

    /** What that turn hands to a handler. */
    function Polled(now: int, pick: Timed<E>): Polled<E> {
      if hp != [] then PolledParcel()
      else if IsDue(pick, now) then Call(pick.envelope)
      else if lp != [] then Call(lp[0])
      else Idle
    }

    /** The runtime drops its receivers, with everything still in them. */
    function Close(): Mailbox<E> {
      this.(open := false, hp := [], lp := [], delayed := multiset{},
            lostHp := lostHp + hp, lostLp := lostLp + lp, lostDelayed := lostDelayed + delayed)
    }
  }

  function EmptyMailbox<E(==)>(): Mailbox<E> {
    Mailbox(true, [], [], multiset{}, [], [], [], [], [], [], multiset{})
  }

  // ---------------------------------------------------------------------------
  // Readings of the history
  // ---------------------------------------------------------------------------

  /** Of the first `n` parcels, the envelopes of those that are handled at once. */
  function Urgent<E>(parcels: seq<Parcel<E>>, n: nat): seq<E>
    requires n <= |parcels|
  {
    if n == 0 then []
    else Urgent(parcels, n - 1) +
         if parcels[n - 1].operation.Schedule? then [] else [parcels[n - 1].envelope]
  }

  /** What a parcel adds to the scheduled items. */
  function Scheduled<E(==)>(p: Parcel<E>): multiset<Timed<E>> {
    if p.operation.Schedule? then multiset{Timed(p.operation.deadline, p.envelope)} else multiset{}
  }

  /** Of the first `n` parcels, the scheduled items. */
  function Schedules<E(==)>(parcels: seq<Parcel<E>>, n: nat): multiset<Timed<E>>
    requires n <= |parcels|
  {
    if n == 0 then multiset{}
    else Schedules(parcels, n - 1) + Scheduled(parcels[n - 1])
  }

  /** Of the first `n` handler calls, the envelopes of the instant ones; `Normals` and `Lates`
      likewise. */
  function Instants<E>(log: seq<Handled<E>>, n: nat): seq<E>
    requires n <= |log|
  {
    if n == 0 then [] else Instants(log, n - 1) + if log[n - 1].Instant? then [log[n - 1].envelope] else []
  }

  function Normals<E>(log: seq<Handled<E>>, n: nat): seq<E>
    requires n <= |log|
  {
    if n == 0 then [] else Normals(log, n - 1) + if log[n - 1].Normal? then [log[n - 1].envelope] else []
  }

  function Lates<E(==)>(log: seq<Handled<E>>, n: nat): multiset<Timed<E>>
    requires n <= |log|
  {
    if n == 0 then multiset{}
    else Lates(log, n - 1) + if log[n - 1].Late? then multiset{log[n - 1].item} else multiset{}
  }

  lemma {:induction false} SameLog<E>(log: seq<Handled<E>>, longer: seq<Handled<E>>, n: nat)
    requires n <= |log| && log <= longer
    ensures Instants(longer, n) == Instants(log, n)
    ensures Normals(longer, n) == Normals(log, n)
    ensures Lates(longer, n) == Lates(log, n)
  {
    if n > 0 {
      SameLog(log, longer, n - 1);
    }
  }

  lemma {:induction false} SameParcels<E>(parcels: seq<Parcel<E>>, longer: seq<Parcel<E>>, n: nat)
    requires n <= |parcels| && parcels <= longer
    ensures Urgent(longer, n) == Urgent(parcels, n) && Schedules(longer, n) == Schedules(parcels, n)
  {
    if n > 0 {
      SameParcels(parcels, longer, n - 1);
    }
  }

  // ---------------------------------------------------------------------------
  // Conservation and order
  // ---------------------------------------------------------------------------

  /** The high-priority queue: what was sent is what was taken, is queued, or was lost. */
  ghost predicate HpKept<E(!new)>(m: Mailbox<E>) {
    && m.hpSent == m.taken + (m.hp + m.lostHp)
    && Urgent(m.taken, |m.taken|) == Instants(m.log, |m.log|)
    && (if m.open then m.lostHp == [] else m.hp == [])
  }

  ghost predicate LpKept<E(!new)>(m: Mailbox<E>) {
    && m.lpSent == Normals(m.log, |m.log|) + (m.lp + m.lostLp)
    && (if m.open then m.lostLp == [] else m.lp == [])
  }

  ghost predicate DelayedKept<E(!new)>(m: Mailbox<E>) {
    && Schedules(m.taken, |m.taken|) == m.delayed + Lates(m.log, |m.log|) + m.lostDelayed
    && (if m.open then m.lostDelayed == multiset{} else m.delayed == multiset{})
  }

  /** Every accepted parcel or envelope is in exactly one of queued, delayed, handled and lost;
      each queue is served in send order. */
  ghost predicate Conserved<E(!new)>(m: Mailbox<E>) {
    HpKept(m) && LpKept(m) && DelayedKept(m)
  }

  /** A scheduled item is never handled early.  A normal message is handled only when every
      parcel accepted before the poll has been served: those to be handled at once are handled,
      in order, and every scheduled item that is due is handled. */
  ghost predicate Punctual<E(!new)>(m: Mailbox<E>, i: nat)
    requires i < |m.log|
  {
    match m.log[i]
    case Instant(_) => true
    case Late(item, now) => item.deadline <= now
    case Normal(_, seen, now) =>
      && seen <= |m.hpSent|
      && Instants(m.log, i) == Urgent(m.hpSent, seen)
      && Lates(m.log, i) <= Schedules(m.hpSent, seen)
      && (forall item | item in Schedules(m.hpSent, seen) - Lates(m.log, i) :: now < item.deadline)
  }

  ghost predicate AllPunctual<E(!new)>(m: Mailbox<E>) {
    forall i | 0 <= i < |m.log| :: Punctual(m, i)
  }

  datatype Act<E> =
    | SendInstant(parcel: Parcel<E>)
    | SendNormal(envelope: E)
    | Poll(now: int, pick: Timed<E>)
    | Close

  function Apply<E>(m: Mailbox<E>, act: Act<E>): Mailbox<E> {
    match act
    case SendInstant(parcel) => m.SendInstant(parcel)
    case SendNormal(envelope) => m.SendNormal(envelope)
    case Poll(now, pick) => m.Poll(now, pick)
    case Close => m.Close()
  }

  ghost predicate Legal<E(!new)>(m: Mailbox<E>, act: Act<E>) {
    act.Poll? ==> m.open && m.MayPick(act.now, act.pick)
  }

  lemma SnocParcel<E(!new)>(parcels: seq<Parcel<E>>, p: Parcel<E>)
    ensures var longer := parcels + [p];
            && Schedules(longer, |longer|) == Schedules(parcels, |parcels|) + Scheduled(p)
            && Urgent(longer, |longer|) ==
               Urgent(parcels, |parcels|) + if p.operation.Schedule? then [] else [p.envelope]
  {
    SameParcels(parcels, parcels + [p], |parcels|);
  }

  lemma SnocLog<E(!new)>(log: seq<Handled<E>>, h: Handled<E>)
    ensures var longer := log + [h];
            && Instants(longer, |longer|) == Instants(log, |log|) + (if h.Instant? then [h.envelope] else [])
            && Normals(longer, |longer|) == Normals(log, |log|) + (if h.Normal? then [h.envelope] else [])
            && Lates(longer, |longer|) == Lates(log, |log|) + (if h.Late? then multiset{h.item} else multiset{})
  {
    SameLog(log, log + [h], |log|);
  }

  lemma Shift<T>(front: seq<T>, back: seq<T>)
    requires back != []
    ensures (front + [back[0]]) + back[1..] == front + back
    ensures back + [] == back && back[1..] + [] == back[1..]
  {
  }

  lemma AddLast<T>(a: multiset<T>, b: multiset<T>, c: multiset<T>, x: multiset<T>)
    ensures a + b + c + x == a + x + b + c
    ensures a + multiset{} == a
  {
  }

  lemma TakeParcelKeepsHp<E(!new)>(m: Mailbox<E>)
    requires HpKept(m) && m.open && m.hp != []
    ensures HpKept(m.TakeParcel())
  {
    SnocParcel(m.taken, m.hp[0]);
    SnocLog(m.log, Instant(m.hp[0].envelope));
    hide Urgent, Instants, Schedules, Normals, Lates, Scheduled;
    Shift(m.taken, m.hp);
    var urgent := Urgent(m.taken, |m.taken|);
    assert urgent + [] == urgent;
  }

  lemma TakeParcelKeepsLp<E(!new)>(m: Mailbox<E>)
    requires LpKept(m) && m.open && m.hp != []
    ensures LpKept(m.TakeParcel())
  {
    SnocLog(m.log, Instant(m.hp[0].envelope));
    hide Normals, Instants, Lates;
    var normals := Normals(m.log, |m.log|);
    assert normals + [] == normals;
  }

  lemma TakeParcelKeepsDelayed<E(!new)>(m: Mailbox<E>)
    requires DelayedKept(m) && m.open && m.hp != []
    ensures DelayedKept(m.TakeParcel())
  {
    SnocParcel(m.taken, m.hp[0]);
    SnocLog(m.log, Instant(m.hp[0].envelope));
    hide Urgent, Instants, Schedules, Normals, Lates;
    AddLast(m.delayed, Lates(m.log, |m.log|), m.lostDelayed, Scheduled(m.hp[0]));
    AddLast(Lates(m.log, |m.log|), multiset{}, multiset{}, multiset{});
  }

  lemma TakeParcelKeeps<E(!new)>(m: Mailbox<E>)
    requires Conserved(m) && m.open && m.hp != []
    ensures Conserved(m.TakeParcel())
  {
    TakeParcelKeepsHp(m);
    TakeParcelKeepsLp(m);
    TakeParcelKeepsDelayed(m);
    hide HpKept, LpKept, DelayedKept, Mailbox.TakeParcel;
  }

  lemma MoveOne<T>(a: multiset<T>, b: multiset<T>, c: multiset<T>, x: T)
    requires x in a
    ensures a + b + c == (a - multiset{x}) + (b + multiset{x}) + c
  {
  }

  lemma TakeDueKeeps<E(!new)>(m: Mailbox<E>, pick: Timed<E>, now: int)
    requires Conserved(m) && m.open && m.IsDue(pick, now)
    ensures Conserved(m.TakeDue(pick, now))
  {
    SnocLog(m.log, Late(pick, now));
    hide Urgent, Instants, Schedules, Normals, Lates;
    var instants, normals := Instants(m.log, |m.log|), Normals(m.log, |m.log|);
    assert instants + [] == instants && normals + [] == normals;
    MoveOne(m.delayed, Lates(m.log, |m.log|), m.lostDelayed, pick);
  }

  lemma TakeNormalKeeps<E(!new)>(m: Mailbox<E>, now: int)
    requires Conserved(m) && m.open && m.lp != []
    ensures Conserved(m.TakeNormal(now))
  {
    var u := m.TakeNormal(now);
    SameLog(m.log, u.log, |m.log|);
    assert u.lpSent == Normals(u.log, |u.log|) + (u.lp + u.lostLp) by {
      assert m.lp + [] == m.lp && u.lp + [] == u.lp;
      Shift(Normals(m.log, |m.log|), m.lp);
    }
  }

  lemma SendKeeps<E(!new)>(m: Mailbox<E>, parcel: Parcel<E>, envelope: E)
    requires Conserved(m) && m.open
    ensures Conserved(m.SendInstant(parcel)) && Conserved(m.SendNormal(envelope))
  {
    assert m.taken + (m.hp + []) + [parcel] == m.taken + ((m.hp + [parcel]) + []);
    var normals := Normals(m.log, |m.log|);
    assert normals + (m.lp + []) + [envelope] == normals + ((m.lp + [envelope]) + []);
  }

  lemma CloseKeeps<E(!new)>(m: Mailbox<E>)
    requires Conserved(m)
    ensures Conserved(m.Close())
  {
    if m.open {
      assert [] + ([] + m.hp) == m.hp + [] && [] + ([] + m.lp) == m.lp + [];
    } else {
      assert [] + (m.lostHp + []) == [] + m.lostHp && [] + (m.lostLp + []) == [] + m.lostLp;
    }
  }

  lemma StepKeepsConserved<E(!new)>(m: Mailbox<E>, act: Act<E>)
    requires Conserved(m) && Legal(m, act)
    ensures Conserved(Apply(m, act))
  {
    hide Conserved, Mailbox.TakeParcel, Mailbox.TakeDue, Mailbox.TakeNormal, Mailbox.Close;
    match act
    case SendInstant(parcel) => if m.open { SendKeeps(m, parcel, parcel.envelope); }
    case SendNormal(envelope) => if m.open { SendKeeps(m, Parcel(Forward, envelope), envelope); }
    case Poll(now, pick) =>
      if m.hp != [] {
        TakeParcelKeeps(m);
      } else if m.IsDue(pick, now) {
        TakeDueKeeps(m, pick, now);
      } else if m.lp != [] {
        TakeNormalKeeps(m, now);
      }
    case Close => CloseKeeps(m);
  }

  /** The history only grows. */
  lemma Growth<E(!new)>(m: Mailbox<E>, act: Act<E>)
    ensures m.log <= Apply(m, act).log && m.hpSent <= Apply(m, act).hpSent && m.lpSent <= Apply(m, act).lpSent
    ensures |Apply(m, act).log| <= |m.log| + 1
  {
  }

  lemma GrowthKeepsPunctual<E(!new)>(m: Mailbox<E>, u: Mailbox<E>, i: nat)
    requires m.log <= u.log && m.hpSent <= u.hpSent && i < |m.log| && Punctual(m, i)
    ensures Punctual(u, i)
  {
    SameLog(m.log, u.log, i);
    if m.log[i].Normal? {
      SameParcels(m.hpSent, u.hpSent, m.log[i].seen);
    }
  }

  lemma NewestPunctual<E(!new)>(m: Mailbox<E>, act: Act<E>)
    requires Conserved(m) && Legal(m, act) && |Apply(m, act).log| == |m.log| + 1
    ensures Punctual(Apply(m, act), |m.log|)
  {
    var u := Apply(m, act);
    SameLog(m.log, u.log, |m.log|);
    if u.log[|m.log|].Normal? {
      assert m.taken + ([] + []) == m.taken;
    }
  }

  lemma StepKeepsPunctual<E(!new)>(m: Mailbox<E>, act: Act<E>)
    requires Conserved(m) && Legal(m, act) && AllPunctual(m)
    ensures AllPunctual(Apply(m, act))
  {
    var u := Apply(m, act);
    Growth(m, act);
    forall i | 0 <= i < |u.log| ensures Punctual(u, i) {
      if i < |m.log| {
        GrowthKeepsPunctual(m, u, i);
      } else {
        NewestPunctual(m, act);
      }
    }
  }

  ghost predicate Run<E(!new)>(states: seq<Mailbox<E>>, acts: seq<Act<E>>) {
    && |states| == |acts| + 1
    && states[0] == EmptyMailbox<E>()
    && (forall i | 0 <= i < |acts| :: Legal(states[i], acts[i]) && states[i + 1] == Apply(states[i], acts[i]))
  }

  /** Conservation, order and punctuality over every run. */
  lemma {:induction false} EveryMessageAccountedFor<E(!new)>(states: seq<Mailbox<E>>, acts: seq<Act<E>>, i: nat)
    requires Run(states, acts) && i < |states|
    ensures Conserved(states[i]) && AllPunctual(states[i])
  {
    if i > 0 {
      EveryMessageAccountedFor(states, acts, i - 1);
      StepKeepsConserved(states[i - 1], acts[i - 1]);
      StepKeepsPunctual(states[i - 1], acts[i - 1]);
    }
  }

  /** The envelope that a handler call was given. */
  function Given<E>(h: Handled<E>): E {
    match h
    case Instant(e) => e
    case Late(item, _) => item.envelope
    case Normal(e, _, _) => e
  }

  /** A poll hands out a call if and only if the log of handler calls grows, by one entry with the
      envelope that is handed out; a Done is handed out exactly for a Done parcel. */
  lemma PolledMeansLogged<E(!new)>(m: Mailbox<E>, now: int, pick: Timed<E>)
    ensures var u, polled := m.Poll(now, pick), m.Polled(now, pick);
            && (if polled.Call? || polled.CallDone?
                then |u.log| == |m.log| + 1 && u.log[..|m.log|] == m.log && Given(u.log[|m.log|]) == polled.envelope
                else u.log == m.log)
            && (polled.CallDone? <==> m.hp != [] && m.hp[0].operation.Done?)
            && (polled.CallDone? ==> m.hp[0] == Parcel(Done(polled.id), polled.envelope))
            && (polled == Deferred <==> m.hp != [] && m.hp[0].operation.Schedule?)
            && (polled == Idle <==> m.hp == [] && !m.IsDue(pick, now) && m.lp == [])
  {
  }

  lemma {:induction false} UrgentHas<E(!new)>(parcels: seq<Parcel<E>>, n: nat, q: nat)
    requires q < n <= |parcels| && !parcels[q].operation.Schedule?
    ensures parcels[q].envelope in Urgent(parcels, n)
  {
    if q < n - 1 {
      UrgentHas(parcels, n - 1, q);
    }
  }

  lemma {:induction false} InstantsFrom<E(!new)>(log: seq<Handled<E>>, n: nat, e: E)
    requires n <= |log| && e in Instants(log, n)
    ensures Instant(e) in log[..n]
  {
    if e in Instants(log, n - 1) {
      InstantsFrom(log, n - 1, e);
      assert log[..n - 1] <= log[..n];
    } else {
      assert log[n - 1] == Instant(e) && log[..n][n - 1] == log[n - 1];
    }
  }

  lemma {:induction false} SentStays<E(!new)>(states: seq<Mailbox<E>>, acts: seq<Act<E>>, j: nat, k: nat)
    requires Run(states, acts) && j <= k < |states|
    ensures states[j].hpSent <= states[k].hpSent
  {
    if j < k {
      SentStays(states, acts, j, k - 1);
      Growth(states[k - 1], acts[k - 1]);
    }
  }

  /** In every run: a parcel for immediate handling that was accepted at step `j` has been handled
      whenever a later poll (step `k`) hands out a normal message. */
  lemma InstantBeforeNormal<E(!new)>(states: seq<Mailbox<E>>, acts: seq<Act<E>>, j: nat, k: nat)
    requires Run(states, acts) && j < k < |acts|
    requires states[j].open && acts[j].SendInstant? && !acts[j].parcel.operation.Schedule?
    requires |states[k + 1].log| > |states[k].log| && states[k + 1].log[|states[k].log|].Normal?
    ensures Instant(acts[j].parcel.envelope) in states[k].log
  {
    SentStays(states, acts, j + 1, k);
    EveryMessageAccountedFor(states, acts, k);
    var m, q := states[k], |states[j].hpSent|;
    hide Conserved, AllPunctual, Urgent, Instants;
    assert m.hpSent[q] == acts[j].parcel;
    ServedAll(m, acts[k]);
    UrgentHas(m.hpSent, |m.hpSent|, q);
    InstantsFrom(m.log, |m.log|, acts[j].parcel.envelope);
    assert m.log[..|m.log|] == m.log;
  }

  /** A poll that hands out a normal message finds everything urgent handled. */
  lemma ServedAll<E(!new)>(m: Mailbox<E>, act: Act<E>)
    requires Conserved(m) && Legal(m, act)
    requires |Apply(m, act).log| > |m.log| && Apply(m, act).log[|m.log|].Normal?
    ensures Urgent(m.hpSent, |m.hpSent|) == Instants(m.log, |m.log|)
  {
    assert m.taken + ([] + []) == m.taken;
  }
}
