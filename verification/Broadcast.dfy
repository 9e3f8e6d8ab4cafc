/**
 The agent's broadcast server: clients join, every message is written to each of them, and those
 found disconnected are removed and closed.
 */
module Broadcast {
  import opened Prelude

  /** A client is told apart by when it joined, as its handle may be used again after it is closed. */
  datatype Client = Client(id: nat, handle: nat)

  datatype Write = Written | Gone | Failed  // `Gone`: no data, or a broken pipe

  /** What each write of a broadcast returns, by the client's place in the list. */
  type Answers = seq<Write>

  predicate IsGone(answers: Answers, i: nat) { i < |answers| && answers[i].Gone? }

  // ----- A broadcast, as a function of the list of clients

  /** Places in a list of `n`, in increasing order. */
  predicate Places(places: seq<nat>, n: nat) {
    && (forall i :: 0 <= i < |places| ==> places[i] < n)
    && (forall i, j :: 0 <= i < j < |places| ==> places[i] < places[j])
  }

  /** The places of the clients found disconnected, in increasing order. */
  function Disconnected(n: nat, answers: Answers): (r: seq<nat>)
    ensures Places(r, n)
  {
    if n == 0 then []
    else if IsGone(answers, n - 1) then Disconnected(n - 1, answers) + [n - 1]
    else Disconnected(n - 1, answers)
  }

  /** The clients that stay, and those that go, in their order. */
  function Kept(clients: seq<Client>, answers: Answers): seq<Client> {
    if clients == [] then []
    else
      var n := |clients| - 1;
      if IsGone(answers, n) then Kept(clients[..n], answers) else Kept(clients[..n], answers) + [clients[n]]
  }

  function Dropped(clients: seq<Client>, answers: Answers): seq<Client> {
    if clients == [] then []
    else
      var n := |clients| - 1;
      if IsGone(answers, n) then Dropped(clients[..n], answers) + [clients[n]] else Dropped(clients[..n], answers)
  }

  function Reversed(s: seq<Client>): (r: seq<Client>)
    ensures |r| == |s| && forall i :: 0 <= i < |s| ==> r[i] == s[|s| - 1 - i]
  {
    if s == [] then [] else [s[|s| - 1]] + Reversed(s[..|s| - 1])
  }

  /** Removing at some places, the last first: what is left, and what was removed. */
  function RemoveFrom(clients: seq<Client>, places: seq<nat>): (seq<Client>, seq<Client>)
    requires Places(places, |clients|)
    decreases |places|
  {
    if places == [] then (clients, [])
    else
      var last := places[|places| - 1];
      var (left, removed) := RemoveFrom(RemoveAt(clients, last), places[..|places| - 1]);
      (left, [clients[last]] + removed)
  }

  /** What stands behind every place to be removed stays where it is. */
  lemma {:induction false} RemoveBefore(clients: seq<Client>, behind: seq<Client>, places: seq<nat>)
    requires Places(places, |clients|)
    ensures RemoveFrom(clients + behind, places)
            == (RemoveFrom(clients, places).0 + behind, RemoveFrom(clients, places).1)
    decreases |places|
  {
    if places != [] {
      var last := places[|places| - 1];
      assert RemoveAt(clients + behind, last) == RemoveAt(clients, last) + behind;
      RemoveBefore(RemoveAt(clients, last), behind, places[..|places| - 1]);
    }
  }

  /** Removing the disconnected clients by place, in reverse, is filtering; they go last first. */
  lemma {:induction false} ReverseRemovalIsFiltering(clients: seq<Client>, answers: Answers)
    ensures RemoveFrom(clients, Disconnected(|clients|, answers))
            == (Kept(clients, answers), Reversed(Dropped(clients, answers)))
  {
    if clients != [] {
      var n := |clients| - 1;
      ReverseRemovalIsFiltering(clients[..n], answers);
      assert clients == clients[..n] + [clients[n]];
      FilterNext(clients[..n], clients[n], answers);
    }
  }

  lemma FilterNext(front: seq<Client>, last: Client, answers: Answers)
    requires RemoveFrom(front, Disconnected(|front|, answers))
             == (Kept(front, answers), Reversed(Dropped(front, answers)))
    ensures var clients := front + [last];
            RemoveFrom(clients, Disconnected(|clients|, answers))
            == (Kept(clients, answers), Reversed(Dropped(clients, answers)))
  {
    var n, clients, places, dropped := |front|, front + [last], Disconnected(|front|, answers), Dropped(front, answers);
    assert clients[..n] == front;
    if IsGone(answers, n) {
      assert Disconnected(n + 1, answers) == places + [n] && Dropped(clients, answers) == dropped + [last];
      assert Kept(clients, answers) == Kept(front, answers);
      hide RemoveFrom, Reversed, Places, Disconnected, Dropped, Kept;
      LastIsRemoved(clients, places);
      ReversedNext(dropped, last);
    } else {
      assert Disconnected(n + 1, answers) == places && Dropped(clients, answers) == dropped;
      assert Kept(clients, answers) == Kept(front, answers) + [last];
      hide RemoveFrom, Reversed, Places, Disconnected, Dropped, Kept;
      RemoveBefore(front, [last], places);
    }
  }

  lemma LastIsRemoved(clients: seq<Client>, places: seq<nat>)
    requires clients != [] && Places(places, |clients| - 1)
    ensures var n := |clients| - 1;
            Places(places + [n], |clients|) &&
            RemoveFrom(clients, places + [n])
            == (RemoveFrom(clients[..n], places).0, [clients[n]] + RemoveFrom(clients[..n], places).1)
  {
    var n := |clients| - 1;
    assert (places + [n])[..|places|] == places;
    assert RemoveAt(clients, n) == clients[..n];
  }

  lemma ReversedNext(s: seq<Client>, c: Client)
    ensures Reversed(s + [c]) == [c] + Reversed(s)
  {
    assert (s + [c])[..|s|] == s;
  }

  // ----- The server

  datatype Record = Record(client: Client, message: string)

  class IpcServer {
    var clients: seq<Client>         // the handles, with the clients' numbers
    var joined: nat                  // how many clients have joined
    ghost var offered: seq<Record>   // every write, in order
    ghost var closed: seq<Client>    // every handle disconnected and closed, in order

    constructor ()
      ensures View() == INIT
    {
      clients, joined, offered, closed := [], 0, [], [];
    }

    ghost function View(): State reads this { State(clients, joined, offered, closed) }

    /** One pass of the loop over newly connected clients. */
    method Accept(handles: seq<nat>)
      modifies this`clients, this`joined
      ensures View() == After(old(View()), Event.Accept(handles))
    {
      for i := 0 to |handles|
        invariant clients == old(clients) + Numbered(old(joined), handles[..i]) && joined == old(joined) + i
      {
        assert handles[..i + 1] == handles[..i] + [handles[i]];
        clients := clients + [Client(joined, handles[i])];
        joined := joined + 1;
      }
      assert handles[..|handles|] == handles;
    }

    /** `json` is the message serialised, if it can be. */
    method BroadcastMessage(json: Option<string>, answers: Answers)
      modifies this
      ensures View() == After(old(View()), Send(json, answers))
      ensures json.None? ==> View() == old(View())
      ensures json.Some? ==>
                && (exists places :: Stay(clients, old(clients), answers, places))
                && (exists places :: Go(closed, old(closed), old(clients), answers, places))
                && |offered| == |old(offered)| + |old(clients)| && old(offered) <= offered
                && forall i :: 0 <= i < |old(clients)| ==>
                     offered[|old(offered)| + i] == Record(old(clients)[i], json.value)
    {
      hide Kept, Dropped, Reversed, RemoveFrom, Stay, Go;
      if json.None? {
        return;
      }
      var disconnected: seq<nat> := [];
      for i := 0 to |clients|
        invariant clients == old(clients) && closed == old(closed) && joined == old(joined)
        invariant disconnected == Disconnected(i, answers)
        invariant offered == old(offered) + OfferTo(clients[..i], json.value)
      {
        offered := offered + [Record(clients[i], json.value)];
        assert clients[..i + 1][..i] == clients[..i];
        if IsGone(answers, i) {
          disconnected := disconnected + [i];
        }
      }
      assert clients[..|clients|] == clients;
      hide OfferTo, Disconnected, Places;
      RemoveAll(disconnected);
      ReverseRemovalIsFiltering(old(clients), answers);
      StayAndGo(old(clients), old(closed), answers);
    }

    /** Removes and closes the clients at the given places, the last first. */
    method RemoveAll(places: seq<nat>)
      requires Places(places, |clients|)
      modifies this`clients, this`closed
      ensures clients == RemoveFrom(old(clients), places).0
      ensures closed == old(closed) + RemoveFrom(old(clients), places).1
    {
      var k := |places|;
      assert places[..k] == places;
      while k > 0
        invariant 0 <= k <= |places|
        invariant forall i :: 0 <= i < k ==> places[i] < |clients|
        invariant RemoveFrom(old(clients), places).0 == RemoveFrom(clients, places[..k]).0
        invariant old(closed) + RemoveFrom(old(clients), places).1 == closed + RemoveFrom(clients, places[..k]).1
      {
        k := k - 1;
        var client := clients[places[k]];
        assert places[..k + 1][..k] == places[..k];
        clients := RemoveAt(clients, places[k]);
        closed := closed + [client];
      }
    }

    /** When the message channel is gone, every client is closed. */
    method Shutdown()
      modifies this
      ensures View() == After(old(View()), Event.Shutdown)
    {
      for i := 0 to |clients|
        invariant clients == old(clients) && offered == old(offered)
        invariant closed == old(closed) + clients[..i]
      {
        closed := closed + [clients[i]];
      }
      assert clients[..|clients|] == clients;
      clients := [];
    }
  }

  /** The clients at these places are those whose write did not find them gone, in their order. */
  ghost predicate Stay(after: seq<Client>, before: seq<Client>, answers: Answers, places: seq<nat>) {
    && InOrder(after, before, places)
    && forall i :: i in places <==> 0 <= i < |before| && !(i < |answers| && answers[i] == Gone)
  }

  /** The clients at these places are those whose write found them gone, and are closed last first. */
  ghost predicate Go(
    closed: seq<Client>, already: seq<Client>, before: seq<Client>, answers: Answers, places: seq<nat>)
  {
    && (forall i, j :: 0 <= i < j < |places| ==> places[i] < places[j])
    && (forall i :: i in places <==> 0 <= i < |before| && i < |answers| && answers[i] == Gone)
    && |closed| == |already| + |places| && already <= closed
    && forall i :: 0 <= i < |places| && places[i] < |before| ==>
         closed[|closed| - 1 - i] == before[places[i]]
  }

  function OfferTo(clients: seq<Client>, message: string): (r: seq<Record>)
    ensures |r| == |clients| && forall i :: 0 <= i < |r| ==> r[i] == Record(clients[i], message)
  {
    if clients == [] then []
    else OfferTo(clients[..|clients| - 1], message) + [Record(clients[|clients| - 1], message)]
  }

  /** New clients with their numbers. */
  function Numbered(joined: nat, handles: seq<nat>): (r: seq<Client>)
    ensures |r| == |handles| && forall i :: 0 <= i < |r| ==> r[i] == Client(joined + i, handles[i])
  {
    seq(|handles|, i requires 0 <= i < |handles| => Client(joined + i, handles[i]))
  }

  // ----- Runs of the server

  datatype Event = Accept(handles: seq<nat>) | Send(json: Option<string>, answers: Answers) | Shutdown

  datatype State = State(clients: seq<Client>, joined: nat, offered: seq<Record>, closed: seq<Client>)

  const INIT: State := State([], 0, [], [])

  function After(s: State, e: Event): State {
    match e
    case Accept(handles) => s.(clients := s.clients + Numbered(s.joined, handles), joined := s.joined + |handles|)
    case Send(None, _) => s
    case Send(Some(m), answers) =>
      s.(clients := Kept(s.clients, answers),
         offered := s.offered + OfferTo(s.clients, m),
         closed := s.closed + Reversed(Dropped(s.clients, answers)))
    case Shutdown => s.(clients := [], closed := s.closed + s.clients)
  }

  function Run(events: seq<Event>): State {
    if events == [] then INIT else After(Run(events[..|events| - 1]), events[|events| - 1])
  }

  /** Every client that ever joined, in order. */
  function Joined(events: seq<Event>): seq<Client> {
    if events == [] then []
    else
      var past := Joined(events[..|events| - 1]);
      match events[|events| - 1]
      case Accept(handles) => past + Numbered(|past|, handles)
      case _ => past
  }

  lemma {:induction false} KeptAndDropped(clients: seq<Client>, answers: Answers)
    ensures multiset(Kept(clients, answers)) + multiset(Dropped(clients, answers)) == multiset(clients)
  {
    if clients != [] {
      var n := |clients| - 1;
      KeptAndDropped(clients[..n], answers);
      assert clients == clients[..n] + [clients[n]];
    }
  }

  lemma {:induction false} ReversedHasTheSame(s: seq<Client>)
    ensures multiset(Reversed(s)) == multiset(s)
  {
    if s != [] {
      ReversedHasTheSame(s[..|s| - 1]);
      assert s == s[..|s| - 1] + [s[|s| - 1]];
    }
  }

  /** Whatever happens, every client that joined is either still served or has been closed, once for
      each time it joined. */
  lemma {:induction false} ClosedOnceOrServed(events: seq<Event>)
    ensures var s := Run(events); multiset(s.clients) + multiset(s.closed) == multiset(Joined(events))
  {
    if events != [] {
      var n := |events| - 1;
      ClosedOnceOrServed(events[..n]);
      JoinedInOrder(events[..n]);
      var s := Run(events[..n]);
      match events[n] {
        case Send(Some(m), answers) =>
          KeptAndDropped(s.clients, answers);
          ReversedHasTheSame(Dropped(s.clients, answers));
        case _ =>
      }
    }
  }

  // ----- Order

  /** Each client stands at its place among all that joined, and the places increase. */
  ghost predicate InOrder(clients: seq<Client>, joined: seq<Client>, places: seq<nat>) {
    && |places| == |clients|
    && (forall i :: 0 <= i < |places| ==> places[i] < |joined| && joined[places[i]] == clients[i])
    && (forall i, j :: 0 <= i < j < |places| ==> places[i] < places[j])
  }

  /** Exactly those clients stay whose write did not find them gone, in their order. */
  lemma {:induction false} KeptInOrder(clients: seq<Client>, answers: Answers) returns (places: seq<nat>)
    ensures InOrder(Kept(clients, answers), clients, places)
    ensures forall i :: i in places <==> 0 <= i < |clients| && !(i < |answers| && answers[i] == Gone)
  {
    if clients == [] {
      places := [];
    } else {
      var n := |clients| - 1;
      places := KeptInOrder(clients[..n], answers);
      NextInOrder(Kept(clients[..n], answers), clients, places);
      if !IsGone(answers, n) {
        places := places + [n];
      }
      hide InOrder;
    }
  }

  /** Exactly those go whose write did. */
  lemma {:induction false} DroppedInOrder(clients: seq<Client>, answers: Answers) returns (places: seq<nat>)
    ensures InOrder(Dropped(clients, answers), clients, places)
    ensures forall i :: i in places <==> 0 <= i < |clients| && i < |answers| && answers[i] == Gone
  {
    if clients == [] {
      places := [];
    } else {
      var n := |clients| - 1;
      places := DroppedInOrder(clients[..n], answers);
      NextInOrder(Dropped(clients[..n], answers), clients, places);
      if IsGone(answers, n) {
        places := places + [n];
      }
      hide InOrder;
    }
  }

  lemma NextInOrder(some: seq<Client>, clients: seq<Client>, places: seq<nat>)
    requires clients != [] && InOrder(some, clients[..|clients| - 1], places)
    ensures InOrder(some, clients, places)
    ensures InOrder(some + [clients[|clients| - 1]], clients, places + [|clients| - 1])
  {
  }

  lemma StayAndGo(clients: seq<Client>, already: seq<Client>, answers: Answers)
    ensures exists places :: Stay(Kept(clients, answers), clients, answers, places)
    ensures exists places :: Go(already + Reversed(Dropped(clients, answers)), already, clients, answers, places)
  {
    hide Kept, Dropped;
    var stay := KeptInOrder(clients, answers);
    assert Stay(Kept(clients, answers), clients, answers, stay);
    var go := DroppedInOrder(clients, answers);
    GoLastFirst(Dropped(clients, answers), already, clients, answers, go);
  }

  lemma GoLastFirst(
      dropped: seq<Client>, already: seq<Client>, clients: seq<Client>, answers: Answers, places: seq<nat>)
    requires InOrder(dropped, clients, places)
    requires forall i :: i in places <==> 0 <= i < |clients| && i < |answers| && answers[i] == Gone
    ensures Go(already + Reversed(dropped), already, clients, answers, places)
  {
    hide Reversed;
  }

  lemma InOrderThrough(s: seq<Client>, t: seq<Client>, u: seq<Client>, st: seq<nat>, tu: seq<nat>)
    returns (su: seq<nat>)
    requires InOrder(s, t, st) && InOrder(t, u, tu)
    ensures InOrder(s, u, su)
  {
    su := seq(|st|, i requires 0 <= i < |st| => tu[st[i]]);
  }

  lemma NoneInOrder(joined: seq<Client>)
    ensures InOrder([], joined, [])
  {
  }

  lemma AppendInOrder(clients: seq<Client>, joined: seq<Client>, places: seq<nat>, more: seq<Client>)
    returns (all: seq<nat>)
    requires InOrder(clients, joined, places)
    ensures InOrder(clients + more, joined + more, all)
  {
    all := places + seq(|more|, i requires 0 <= i < |more| => |joined| + i);
  }

  /** The clients served are always in the order in which they joined. */
  lemma {:induction false} ClientsStayInOrder(events: seq<Event>) returns (places: seq<nat>)
    ensures InOrder(Run(events).clients, Joined(events), places)
  {
    if events == [] {
      places := [];
    } else {
      var n := |events| - 1;
      var s, joined := Run(events[..n]), Joined(events[..n]);
      places := ClientsStayInOrder(events[..n]);
      hide InOrder, Kept, Dropped, Reversed, OfferTo;
      match events[n] {
        case Accept(handles) =>
          JoinedInOrder(events[..n]);
          places := AppendInOrder(s.clients, joined, places, Numbered(s.joined, handles));
        case Send(Some(m), answers) =>
          var kept := KeptInOrder(s.clients, answers);
          places := InOrderThrough(Kept(s.clients, answers), s.clients, joined, kept, places);
        case Send(None, _) =>
        case Shutdown =>
          places := [];
          NoneInOrder(joined);
      }
    }
  }

  // ----- Delivery

  /** The messages offered to one client. */
  function MessagesTo(c: Client, offered: seq<Record>): seq<string> {
    if offered == [] then []
    else
      var past, last := MessagesTo(c, offered[..|offered| - 1]), offered[|offered| - 1];
      if last.client == c then past + [last.message] else past
  }

  /** The messages sent after a client joined. */
  function SentSince(c: Client, events: seq<Event>): seq<string> {
    if events == [] then []
    else
      var past := events[..|events| - 1];
      match events[|events| - 1]
      case Send(Some(m), _) => if c in Joined(past) then SentSince(c, past) + [m] else SentSince(c, past)
      case _ => SentSince(c, past)
  }

  lemma {:induction false} MessagesAppend(c: Client, offered: seq<Record>, more: seq<Record>)
    ensures MessagesTo(c, offered + more) == MessagesTo(c, offered) + MessagesTo(c, more)
  {
    if more == [] {
      assert offered + more == offered;
    } else {
      var n := |more| - 1;
      assert (offered + more)[..|offered| + n] == offered + more[..n];
      MessagesAppend(c, offered, more[..n]);
    }
  }

  lemma {:induction false} OfferedOnce(c: Client, clients: seq<Client>, m: string)
    requires multiset(clients)[c] <= 1
    ensures MessagesTo(c, OfferTo(clients, m)) == if c in clients then [m] else []
  {
    if clients != [] {
      var n := |clients| - 1;
      assert clients == clients[..n] + [clients[n]];
      OfferedOnce(c, clients[..n], m);
      assert OfferTo(clients, m)[..n] == OfferTo(clients[..n], m);
      hide OfferTo;
    }
  }

  /** Clients are numbered as they join. */
  lemma {:induction false} JoinedInOrder(events: seq<Event>)
    ensures |Joined(events)| == Run(events).joined
    ensures forall i :: 0 <= i < |Joined(events)| ==> Joined(events)[i].id == i
  {
    if events != [] {
      JoinedInOrder(events[..|events| - 1]);
    }
  }

  lemma JoinsOnce(events: seq<Event>, c: Client)
    ensures multiset(Joined(events))[c] <= 1
  {
    JoinedInOrder(events);
    hide Joined;
    OnceByNumber(Joined(events), c);
  }

  lemma {:induction false} OnceByNumber(clients: seq<Client>, c: Client)
    requires forall i :: 0 <= i < |clients| ==> clients[i].id == i
    ensures multiset(clients)[c] <= 1
  {
    if clients != [] {
      var n := |clients| - 1;
      OnceByNumber(clients[..n], c);
      assert clients == clients[..n] + [clients[n]];
      if c == clients[n] {
        assert c !in clients[..n];
        assert c !in multiset(clients[..n]);
      }
    }
  }

  ghost predicate Served(events: seq<Event>, c: Client) {
    c in Run(events).clients || c !in Joined(events)
  }

  /** Who is served after an event was served before it. */
  lemma ServedBefore(past: seq<Event>, e: Event, c: Client)
    requires Served(past + [e], c)
    ensures Served(past, c)
  {
    assert (past + [e])[..|past|] == past;
    var s := Run(past);
    JoinedInOrder(past);
    if e.Send? && e.json.Some? {
      KeptAndDropped(s.clients, e.answers);
      assert c in Kept(s.clients, e.answers) ==> c in multiset(Kept(s.clients, e.answers));
      assert c in multiset(s.clients) ==> c in s.clients;
    }
  }

  lemma SendReaches(past: seq<Event>, m: string, answers: Answers, c: Client)
    requires Served(past, c)
    ensures MessagesTo(c, Run(past).offered + OfferTo(Run(past).clients, m))
            == MessagesTo(c, Run(past).offered) + if c in Joined(past) then [m] else []
  {
    var s := Run(past);
    ClosedOnceOrServed(past);
    JoinsOnce(past, c);
    hide Run, Joined;
    MessagesAppend(c, s.offered, OfferTo(s.clients, m));
    assert c in multiset(s.clients) ==> c in multiset(Joined(past));
    OfferedOnce(c, s.clients, m);
  }

  /** A client that is still served has been offered every message sent since it joined, in order,
      whatever handles are used again. */
  lemma {:induction false} NoClientMissesAMessage(events: seq<Event>, c: Client)
    requires Served(events, c)
    ensures MessagesTo(c, Run(events).offered) == SentSince(c, events)
  {
    if events != [] {
      var n := |events| - 1;
      var past := events[..n];
      assert events == past + [events[n]];
      ServedBefore(past, events[n], c);
      NoClientMissesAMessage(past, c);
      if events[n].Send? && events[n].json.Some? {
        SendReaches(past, events[n].json.value, events[n].answers, c);
      }
      hide MessagesTo, Joined, Served;
    }
  }
}
