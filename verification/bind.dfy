/** Waiting for the address of the HTTP server (meio-connect/src/server/bind.rs). */
module Bind {
  import opened Options

  /** A request is named by its responder; responders are unique. */
  type Request = nat

  type Addr = nat

  datatype AddrState = NotAssignedYet(listeners: seq<Request>) | Assigned(addr: Addr)

  datatype Event = WaitForAddress(request: Request) | AddrReady(addr: Addr)

  datatype Server = Server(state: AddrState, answers: seq<(Request, Addr)>) {
    function Next(e: Event): Server {
      match e
      case WaitForAddress(request) =>
        (match state
         case NotAssignedYet(listeners) => this.(state := NotAssignedYet(listeners + [request]))
         case Assigned(addr) => this.(answers := answers + [(request, addr)]))
      case AddrReady(addr) =>
        var told := if state.NotAssignedYet? then state.listeners else [];
        Server(Assigned(addr), answers + Tell(told, addr, |told|))
    }
  }

  const NEW_SERVER := Server(NotAssignedYet([]), [])

  /** The answers to the first `n` listeners. */
  function Tell(listeners: seq<Request>, addr: Addr, n: nat): (r: seq<(Request, Addr)>)
    requires n <= |listeners|
    ensures |r| == n && forall i | 0 <= i < n :: r[i] == (listeners[i], addr)
  {
    if n == 0 then [] else Tell(listeners, addr, n - 1) + [(listeners[n - 1], addr)]
  }

  function Run(events: seq<Event>, n: nat): Server
    requires n <= |events|
  {
    if n == 0 then NEW_SERVER else Run(events, n - 1).Next(events[n - 1])
  }

  class HttpServer {
    var addrState: AddrState
    var answers: seq<(Request, Addr)>

    ghost function View(): Server
      reads this
    {
      Server(addrState, answers)
    }

    constructor ()
      ensures View() == NEW_SERVER
    {
      addrState, answers := NotAssignedYet([]), [];
    }

    method Send(responder: Request, addr: Addr)
      modifies this`answers
      ensures answers == old(answers) + [(responder, addr)]
    {
      answers := answers + [(responder, addr)];
    }

    method HandleWaitForAddress(request: Request)
      modifies this
      ensures View() == old(View()).Next(WaitForAddress(request))
    {
      match addrState
      case NotAssignedYet(listeners) => addrState := NotAssignedYet(listeners + [request]);
      case Assigned(addr) => Send(request, addr);
    }

    method HandleAddrReady(addr: Addr)
      modifies this
      ensures View() == old(View()).Next(AddrReady(addr))
    {
      var newState := addrState;
      addrState := Assigned(addr);
      if newState.NotAssignedYet? {
        var listeners := newState.listeners;
        for i := 0 to |listeners|
          invariant addrState == Assigned(addr)
          invariant answers == old(answers) + Tell(listeners, addr, i)
        {
          Send(listeners[i], addr);
        }
      } else {
        assert answers + [] == answers;
      }
    }
  }

  // ---------------------------------------------------------------------------
  // Every request is listed or answered, once
  // ---------------------------------------------------------------------------

  /** The most recent address among the first `n` events. */
  function LastReady(events: seq<Event>, n: nat): Option<Addr>
    requires n <= |events|
  {
    if n == 0 then None
    else if events[n - 1].AddrReady? then Some(events[n - 1].addr)
    else LastReady(events, n - 1)
  }

  /** The address that answers a request made at event `i`, by event `n`: the most recent one if
      there is one already, else the first one to come. */
  function Due(events: seq<Event>, i: nat, n: nat): Option<Addr>
    requires i <= n <= |events|
  {
    if LastReady(events, i).Some? then LastReady(events, i)
    else if i == n then None
    else if Due(events, i, n - 1).Some? then Due(events, i, n - 1)
    else if events[n - 1].AddrReady? then Some(events[n - 1].addr)
    else None
  }

  /** Responders are unique: no two events carry the same request. */
  ghost predicate Unique(events: seq<Event>) {
    forall i, j | 0 <= i < j < |events| && events[i].WaitForAddress? && events[j].WaitForAddress? ::
      events[i].request != events[j].request
  }

  predicate Made(events: seq<Event>, n: nat, r: Request)
    requires n <= |events|
  {
    exists i | 0 <= i < n :: events[i] == WaitForAddress(r)
  }

  function Listeners(s: Server): seq<Request> {
    if s.state.NotAssignedYet? then s.state.listeners else []
  }

  ghost predicate Distinct<T(!new)>(s: seq<T>) {
    forall i, j | 0 <= i < j < |s| :: s[i] != s[j]
  }

  /** No request is listed or answered twice, or both; and only made ones are. */
  ghost predicate Tidy(events: seq<Event>, n: nat)
    requires n <= |events|
  {
    var s := Run(events, n);
    && Distinct(Listeners(s))
    && (forall i, j | 0 <= i < j < |s.answers| :: s.answers[i].0 != s.answers[j].0)
    && (forall i, j | 0 <= i < |s.answers| && 0 <= j < |Listeners(s)| :: s.answers[i].0 != Listeners(s)[j])
    && (forall i | 0 <= i < |s.answers| :: Made(events, n, s.answers[i].0))
    && (forall j | 0 <= j < |Listeners(s)| :: Made(events, n, Listeners(s)[j]))
    && (if LastReady(events, n).Some? then s.state == Assigned(LastReady(events, n).value) else s.state.NotAssignedYet?)
  }

  lemma MadeGrows(events: seq<Event>, n: nat, r: Request)
    requires n < |events|
    ensures Made(events, n + 1, r) <==> Made(events, n, r) || events[n] == WaitForAddress(r)
  {
  }

  lemma NotMadeBefore(events: seq<Event>, n: nat)
    requires Unique(events) && n < |events| && events[n].WaitForAddress?
    ensures !Made(events, n, events[n].request)
  {
  }

  lemma StepTidy(events: seq<Event>, n: nat)
    requires Unique(events) && n < |events| && Tidy(events, n)
    ensures Tidy(events, n + 1)
  {
    var s, u := Run(events, n), Run(events, n + 1);
    forall r ensures Made(events, n + 1, r) <==> Made(events, n, r) || events[n] == WaitForAddress(r) {
      MadeGrows(events, n, r);
    }
    if events[n].WaitForAddress? {
      NotMadeBefore(events, n);
    }
    hide Made;
    match events[n]
    case WaitForAddress(request) =>
      assert if s.state.NotAssignedYet? then Listeners(u) == Listeners(s) + [request] && u.answers == s.answers
             else Listeners(u) == Listeners(s) && u.answers == s.answers + [(request, s.state.addr)];
    case AddrReady(addr) =>
  }

  lemma NewServerIsTidy(events: seq<Event>)
    ensures Tidy(events, 0)
  {
  }

  lemma {:induction false} AlwaysTidy(events: seq<Event>, n: nat)
    requires Unique(events) && n <= |events|
    ensures Tidy(events, n)
  {
    hide *;
    if n == 0 {
      NewServerIsTidy(events);
    } else {
      AlwaysTidy(events, n - 1);
      StepTidy(events, n - 1);
    }
  }

  /** A request made at event `i` is still listed if no address is due to it, and then it is not
      answered; otherwise it has been answered exactly once, with the address that was the most
      recent one at that time, whatever addresses follow after a restart. */
  lemma {:induction false} WaitersConserved(events: seq<Event>, i: nat, n: nat)
    requires Unique(events) && i < n <= |events| && events[i].WaitForAddress?
    ensures Tidy(events, n)
    ensures var s, r := Run(events, n), events[i].request;
            match Due(events, i, n)
            case None => r in Listeners(s) && (forall k | 0 <= k < |s.answers| :: s.answers[k].0 != r)
            case Some(addr) =>
              r !in Listeners(s) && exists k | 0 <= k < |s.answers| :: s.answers[k] == (r, addr)
  {
    AlwaysTidy(events, n);
    Answered(events, i, n);
    hide Made;
  }

  lemma {:induction false} StateFollows(events: seq<Event>, n: nat)
    requires n <= |events|
    ensures var state := Run(events, n).state;
            if LastReady(events, n).Some? then state == Assigned(LastReady(events, n).value) else state.NotAssignedYet?
  {
    if n > 0 {
      StateFollows(events, n - 1);
    }
  }

  lemma ListedStep(s: Server, e: Event, r: Request)
    requires r in Listeners(s)
    ensures e.WaitForAddress? ==> r in Listeners(s.Next(e))
    ensures e.AddrReady? ==> (r, e.addr) in s.Next(e).answers
  {
    var listeners := Listeners(s);
    var k :| 0 <= k < |listeners| && listeners[k] == r;
    match e
    case WaitForAddress(request) => assert Listeners(s.Next(e))[k] == r;
    case AddrReady(addr) => assert s.Next(e).answers[|s.answers| + k] == (r, addr);
  }

  lemma NewcomerStep(s: Server, r: Request)
    ensures var u := s.Next(WaitForAddress(r));
            if s.state.Assigned? then (r, s.state.addr) in u.answers else r in Listeners(u)
  {
  }

  lemma AnswerStays(s: Server, e: Event, answer: (Request, Addr))
    requires answer in s.answers
    ensures answer in s.Next(e).answers
  {
  }

  lemma {:induction false} Answered(events: seq<Event>, i: nat, n: nat)
    requires Unique(events) && i < n <= |events| && events[i].WaitForAddress?
    ensures var s, r := Run(events, n), events[i].request;
            match Due(events, i, n)
            case None => r in Listeners(s)
            case Some(addr) => (r, addr) in s.answers
  {
    hide Server.Next, Listeners;
    var was, r := Run(events, n - 1), events[i].request;
    if n - 1 > i {
      Answered(events, i, n - 1);
      match Due(events, i, n - 1)
      case None => ListedStep(was, events[n - 1], r);
      case Some(addr) => AnswerStays(was, events[n - 1], (r, addr));
    } else {
      StateFollows(events, i);
      NewcomerStep(was, r);
    }
  }
}
