/** Sequenced sessions over an unreliable datagram channel. */
module Session {
  import opened Bytes
  import opened Wire

  const LAST: int := 0xFFFF_FFFF_FFFF_FFFF

  /** What a caller of `send` chooses. */
  datatype Message = Message(
    kind: Kind, correlation: int, handle: int, value: int, payload: seq<byte>, descriptors: int)

  datatype Endpoint = Endpoint(
    role: Role, session: Option<seq<byte>>, sendSequence: int, receiveSequence: int, terminal: bool)

  function Peer(r: Role): Role { if r.Supervisor? then Controller else Supervisor }

  function Stamp(e: Endpoint, m: Message): Record
    requires e.session.Some?
  {
    Record(e.role, m.kind, e.sendSequence, m.correlation, e.session.value, m.handle, m.value, m.payload, m.descriptors)
  }

  /** `send` goes through when the endpoint is open and bound, the record is
      encodable and the transport (`works`) takes it. */
  predicate Sends(e: Endpoint, m: Message, works: bool) {
    !e.terminal && e.session.Some? && Stamp(e, m).Valid() && works
  }

  function AfterSend(e: Endpoint): Endpoint {
    if e.sendSequence == LAST then e.(terminal := true) else e.(sendSequence := e.sendSequence + 1)
  }

  /** `receive` accepts a record that arrived. */
  predicate Accepts(e: Endpoint, r: Record, allowWelcome: bool) {
    && !e.terminal
    && r.role == Peer(e.role)
    && r.sequence == e.receiveSequence
    && (if e.session.Some? then r.session == e.session.value else allowWelcome && r.kind.Welcome?)
  }

  function AfterReceive(e: Endpoint, r: Record): Endpoint {
    var bound := if e.session.Some? then e else e.(session := Some(r.session));
    if r.sequence == LAST then bound.(terminal := true) else bound.(receiveSequence := e.receiveSequence + 1)
  }

  /** `SessionSocket`. The transport's answers are parameters. */
  class SessionSocket {
    const role: Role
    var session: Option<seq<byte>>
    var sendSequence: int
    var receiveSequence: int
    var terminal: bool

    function View(): Endpoint
      reads this
    {
      Endpoint(role, session, sendSequence, receiveSequence, terminal)
    }

    constructor (role: Role, session: Option<seq<byte>>)
      ensures View() == Endpoint(role, session, 1, 1, false)
    {
      this.role := role;
      this.session := session;
      sendSequence, receiveSequence, terminal := 1, 1, false;
    }

    method Send(m: Message, works: bool) returns (r: Option<Record>)
      modifies this
      ensures r == if old(Sends(View(), m, works)) then Some(old(Stamp(View(), m))) else None
      ensures View() == if r.Some? then AfterSend(old(View())) else old(View())
    {
      if terminal || session.None? {
        return None;
      }
      var sequence := sendSequence;
      var record := Record(role, m.kind, sequence, m.correlation, session.value, m.handle, m.value, m.payload,
                           m.descriptors);
      if !record.Valid() || !works {
        return None;
      }
      if sequence == LAST {
        terminal := true;
      } else {
        sendSequence := sendSequence + 1;
      }
      return Some(record);
    }

    method Receive(incoming: Option<Record>, allowWelcome: bool) returns (r: Option<Record>)
      modifies this
      ensures r == if incoming.Some? && old(Accepts(View(), incoming.value, allowWelcome)) then incoming else None
      ensures View() == if r.Some? then AfterReceive(old(View()), r.value) else old(View())
    {
      if terminal || incoming.None? {
        return None;
      }
      var record := incoming.value;
      if record.role != Peer(role) || record.sequence != receiveSequence
         || (session.Some? && record.session != session.value) {
        return None;
      }
      if session.None? {
        if !allowWelcome || !record.kind.Welcome? {
          return None;
        }
        session := Some(record.session);
      }
      if record.sequence == LAST {
        terminal := true;
      } else {
        receiveSequence := receiveSequence + 1;
      }
      return Some(record);
    }
  }

  // ----- two endpoints and a channel that drops, repeats and reorders -----

  /** One side: its endpoint, all it ever sent, all it accepted. */
  datatype Side = Side(end: Endpoint, sent: seq<Record>, accepted: seq<Record>)

  datatype System = System(supervisor: Side, controller: Side)

  /** Delivery may pick any record the other side ever sent, any number of
      times, in any order. */
  datatype Event =
    | Send(from: Role, m: Message, works: bool)
    | Deliver(into: Role, index: nat, allowWelcome: bool)

  function SideSend(s: Side, m: Message, works: bool): Side {
    if Sends(s.end, m, works) then s.(end := AfterSend(s.end), sent := s.sent + [Stamp(s.end, m)]) else s
  }

  function SideReceive(s: Side, from: Side, index: nat, allowWelcome: bool): Side {
    if index < |from.sent| && Accepts(s.end, from.sent[index], allowWelcome) then
      s.(end := AfterReceive(s.end, from.sent[index]), accepted := s.accepted + [from.sent[index]])
    else s
  }

  function Next(s: System, e: Event): System {
    match e
    case Send(side, m, works) =>
      if side.Supervisor? then s.(supervisor := SideSend(s.supervisor, m, works))
      else s.(controller := SideSend(s.controller, m, works))
    case Deliver(side, index, allow) =>
      if side.Supervisor? then s.(supervisor := SideReceive(s.supervisor, s.controller, index, allow))
      else s.(controller := SideReceive(s.controller, s.supervisor, index, allow))
  }

  /** The supervisor knows the session; the controller may still have to learn
      it from the welcome. */
  function Start(session: seq<byte>, bound: bool): System {
    System(Side(Endpoint(Supervisor, Some(session), 1, 1, false), [], []),
           Side(Endpoint(Controller, if bound then Some(session) else None, 1, 1, false), [], []))
  }

  function Run(session: seq<byte>, bound: bool, events: seq<Event>): System {
    if events == [] then Start(session, bound)
    else Next(Run(session, bound, events[..|events| - 1]), events[|events| - 1])
  }

  /** Everything a side sent, in order, numbered from 1. */
  predicate SideInv(s: Side, role: Role, session: seq<byte>) {
    && s.end.role == role
    && (s.end.session.Some? ==> s.end.session.value == session)
    && (s.end.session.None? ==> s.sent == [] && s.accepted == [] && !s.end.terminal)
    && 1 <= s.end.sendSequence <= LAST && 1 <= s.end.receiveSequence <= LAST
    && (forall i | 0 <= i < |s.sent| ::
          s.sent[i].role == role && s.sent[i].sequence == i + 1 && s.sent[i].session == session)
    && (|s.sent| == s.end.sendSequence - 1 || (s.end.terminal && |s.sent| == s.end.sendSequence == LAST))
    && (|s.accepted| == s.end.receiveSequence - 1 || (s.end.terminal && |s.accepted| == s.end.receiveSequence == LAST))
    && (s.end.terminal <==> |s.sent| == LAST || |s.accepted| == LAST)
  }

  predicate Inv(s: System, session: seq<byte>) {
    && SideInv(s.supervisor, Supervisor, session) && SideInv(s.controller, Controller, session)
    && s.supervisor.accepted <= s.controller.sent
    && s.controller.accepted <= s.supervisor.sent
  }

  lemma SendKeeps(s: Side, role: Role, session: seq<byte>, m: Message, works: bool)
    requires SideInv(s, role, session)
    ensures SideInv(SideSend(s, m, works), role, session)
    ensures s.sent <= SideSend(s, m, works).sent && SideSend(s, m, works).accepted == s.accepted
  {
    hide Record.Valid;
  }

  /** An accepted record is the next one the peer sent. */
  lemma ReceiveKeeps(s: Side, from: Side, role: Role, session: seq<byte>, index: nat, allow: bool)
    requires SideInv(s, role, session) && SideInv(from, Peer(role), session) && s.accepted <= from.sent
    ensures var s' := SideReceive(s, from, index, allow);
            SideInv(s', role, session) && s'.accepted <= from.sent && s'.sent == s.sent
  {
    if index < |from.sent| && Accepts(s.end, from.sent[index], allow) {
      var r := from.sent[index];
      assert r.sequence == index + 1;
      assert index == |s.accepted|;
      assert s.accepted + [r] == from.sent[..index + 1];
    }
  }

  lemma {:induction false} RunInv(session: seq<byte>, bound: bool, events: seq<Event>)
    ensures Inv(Run(session, bound, events), session)
  {
    hide SideInv, SideSend, SideReceive;
    if events == [] {
      StartInv(session, bound);
    } else {
      var init, e := events[..|events| - 1], events[|events| - 1];
      RunInv(session, bound, init);
      var s := Run(session, bound, init);
      match e
      case Send(side, m, works) =>
        SendKeeps(s.supervisor, Supervisor, session, m, works);
        SendKeeps(s.controller, Controller, session, m, works);
      case Deliver(side, index, allow) =>
        ReceiveKeeps(s.supervisor, s.controller, Supervisor, session, index, allow);
        ReceiveKeeps(s.controller, s.supervisor, Controller, session, index, allow);
    }
  }

  lemma StartInv(session: seq<byte>, bound: bool)
    ensures Inv(Start(session, bound), session)
  {
  }

  /** Ordered delivery: whatever the channel drops, repeats or reorders, what
      each side has accepted is a prefix of what its peer has sent. */
  lemma OrderedDelivery(session: seq<byte>, bound: bool, events: seq<Event>)
    ensures var s := Run(session, bound, events);
            s.supervisor.accepted <= s.controller.sent && s.controller.accepted <= s.supervisor.sent
  {
    RunInv(session, bound, events);
  }

  /** An unbound controller's first accepted record is the welcome. */
  lemma {:induction false} WelcomeFirst(session: seq<byte>, events: seq<Event>)
    ensures var c := Run(session, false, events).controller;
            && (c.accepted != [] ==> c.accepted[0].kind.Welcome?)
            && (c.sent != [] ==> c.accepted != [])
  {
    hide Record.Valid, SideInv;
    RunInv(session, false, events);
    if events != [] {
      var init := events[..|events| - 1];
      WelcomeFirst(session, init);
      RunInv(session, false, init);
      BoundAfterWelcome(session, init);
    }
  }

  lemma {:induction false} BoundAfterWelcome(session: seq<byte>, events: seq<Event>)
    ensures var c := Run(session, false, events).controller;
            c.end.session.Some? <==> c.accepted != []
  {
    if events != [] {
      BoundAfterWelcome(session, events[..|events| - 1]);
    }
  }

  /** After sequence 2^64 - 1 in either direction an endpoint is closed: it
      neither sends nor accepts again. */
  lemma TerminalIsFinal(s: System, e: Event)
    ensures s.supervisor.end.terminal ==> Next(s, e).supervisor == s.supervisor
    ensures s.controller.end.terminal ==> Next(s, e).controller == s.controller
  {
  }

  function SideOf(s: System, role: Role): Side { if role.Supervisor? then s.supervisor else s.controller }

  /** In every run: a side is closed exactly once it has sent or accepted
      2^64 - 1 records. An open side that knows the session sends exactly what
      can be encoded and the transport takes, under the next number. */
  lemma SendsExactly(session: seq<byte>, bound: bool, events: seq<Event>, side: Role, m: Message, works: bool)
    ensures var s := SideOf(Run(session, bound, events), side);
            var t := SideOf(Run(session, bound, events + [Send(side, m, works)]), side);
            var r := Record(side, m.kind, |s.sent| + 1, m.correlation, session, m.handle, m.value, m.payload,
                            m.descriptors);
            && (s.end.terminal <==> |s.sent| == 0xFFFF_FFFF_FFFF_FFFF || |s.accepted| == 0xFFFF_FFFF_FFFF_FFFF)
            && t.accepted == s.accepted
            && t.sent == if !s.end.terminal && s.end.session.Some? && r.Valid() && works then s.sent + [r] else s.sent
  {
    hide Record.Valid, SideInv, SideSend, Run;
    RunInv(session, bound, events);
    RunStep(session, bound, events, Send(side, m, works));
    SideSends(SideOf(Run(session, bound, events), side), side, session, m, works);
  }

  lemma SideSends(s: Side, role: Role, session: seq<byte>, m: Message, works: bool)
    requires SideInv(s, role, session)
    ensures var t := SideSend(s, m, works);
            var r := Record(role, m.kind, |s.sent| + 1, m.correlation, session, m.handle, m.value, m.payload,
                            m.descriptors);
            && (s.end.terminal <==> |s.sent| == 0xFFFF_FFFF_FFFF_FFFF || |s.accepted| == 0xFFFF_FFFF_FFFF_FFFF)
            && t.accepted == s.accepted
            && t.sent == if !s.end.terminal && s.end.session.Some? && r.Valid() && works then s.sent + [r] else s.sent
  {
    hide Record.Valid;
  }

  /** And an open side accepts exactly the next record its peer sent, the first
      one of an unbound side only if it is a welcome that is allowed. */
  lemma AcceptsExactly(session: seq<byte>, bound: bool, events: seq<Event>, side: Role, index: nat, allow: bool)
    ensures var before := Run(session, bound, events);
            var s, peer := SideOf(before, side), SideOf(before, if side.Supervisor? then Controller else Supervisor);
            var t := SideOf(Run(session, bound, events + [Deliver(side, index, allow)]), side);
            && t.sent == s.sent
            && t.accepted
            == if && !s.end.terminal && index == |s.accepted| < |peer.sent|
                  && (s.end.session.Some? || (allow && peer.sent[index].kind.Welcome?))
               then s.accepted + [peer.sent[index]] else s.accepted
  {
    RunInv(session, bound, events);
    RunStep(session, bound, events, Deliver(side, index, allow));
  }

  lemma RunStep(session: seq<byte>, bound: bool, events: seq<Event>, e: Event)
    ensures Run(session, bound, events + [e]) == Next(Run(session, bound, events), e)
  {
    hide Next;
    assert (events + [e])[..|events|] == events;
  }
}
