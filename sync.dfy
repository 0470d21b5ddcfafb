/**
 * How the clients' mirrors follow the server's registry through the
 * envelopes the hub sends them: the resync after a connect, and the
 * presence broadcasts after it.
 */
module Sync {
  import opened Wrappers
  import opened CommModel
  import opened Presence
  import opened Server
  import opened Client

  /** What the hub sends back for a call a client makes. */
  function Answer(r: Roster, call: HubCall): seq<Delivery>
  {
    match call
    case CallSendMessage(msg) => Route(msg)
    case CallGetOnlineServices => OnlineServicesReply(r)
    case CallGetOnlineClients => OnlineClientsReply(r)
  }

  /** A mirror handles envelopes in order; the first one that fails stops it. */
  function ReceiveAll(m: Roster, es: seq<Envelope>): Result<Roster, Client.Error>
    decreases |es|
  {
    if es == [] then Ok(m)
    else
      match Receive(m, es[0])
      case Err(err) => Err(err)
      case Ok((m1, _)) => ReceiveAll(m1, es[1..])
  }

  /** One connect or disconnect the hub handles. */
  datatype HubEvent = Connected(connectionId: string, param: Descriptor) | Disconnected(connectionId: string)

  /**
   * The hub handles the events in order and yields the registry and the
   * presence envelopes it broadcast. Each broadcast reaches both groups, so
   * every registered endpoint receives each envelope once; a disconnect the
   * registry does not know throws, changing and sending nothing.
   */
  function Serve(r: Roster, events: seq<HubEvent>): (Roster, seq<Envelope>)
    decreases |events|
  {
    if events == [] then (r, [])
    else
      var (r1, sent) :=
        match events[0]
        case Connected(id, param) =>
          var (r1, out) := Register(r, id, param);
          (r1, [out[0].envelope])
        case Disconnected(id) =>
          match Unregister(r, id)
          case Err(_) => (r, [])
          case Ok((r1, out)) => (r1, [out[0].envelope]);
      var (r2, rest) := Serve(r1, events[1..]);
      (r2, sent + rest)
  }

  /** A bulk roster reply for one role, taken into a mirror that holds none of that role. */
  lemma RosterIntoEmptyRole(m: Roster, list: seq<Descriptor>, role: Role)
    requires AllOfRole(list, role) && UniqueIds(list) && Members(m, role) == []
    ensures Receive(m, RosterReply(list)[0].envelope).Ok?
    ensures var m' := Receive(m, RosterReply(list)[0].envelope).value.0;
      Members(m', role) == list && Members(m', Other(role)) == Members(m, Other(role))
  {
    if list != [] {
      MergeOnlineFresh(m, list, role);
    }
  }

  /**
   * After a (re)connect the mirror is empty and the client asks for both
   * rosters. The hub answers GetOnlineServices with its Clients and
   * GetOnlineClients with its Services, yet since the client files every
   * descriptor by its own role, handling both replies, in either order,
   * reproduces the registry exactly.
   */
  lemma ResyncReproducesRegistry(r: Roster)
    requires Valid(r)
    ensures var calls := [CallGetOnlineServices, CallGetOnlineClients];
      var first := Answer(r, calls[0])[0].envelope;
      var second := Answer(r, calls[1])[0].envelope;
      ReceiveAll(Roster([], []), [first, second]) == Ok(r) &&
      ReceiveAll(Roster([], []), [second, first]) == Ok(r)
  {
    var empty := Roster([], []);
    var clientsReply := RosterReply(r.clients)[0].envelope;
    var servicesReply := RosterReply(r.services)[0].envelope;
    RosterIntoEmptyRole(empty, r.clients, ClientRole);
    var m1 := Receive(empty, clientsReply).value.0;
    RosterIntoEmptyRole(m1, r.services, ServiceRole);
    var m2 := Receive(m1, servicesReply).value.0;
    assert m2 == r;
    assert [servicesReply][1..] == [];
    assert ReceiveAll(m1, [clientsReply, servicesReply][1..]) == Ok(r);
    RosterIntoEmptyRole(empty, r.services, ServiceRole);
    var n1 := Receive(empty, servicesReply).value.0;
    RosterIntoEmptyRole(n1, r.clients, ClientRole);
    var n2 := Receive(n1, clientsReply).value.0;
    assert n2 == r;
    assert [clientsReply][1..] == [];
    assert ReceiveAll(n1, [servicesReply, clientsReply][1..]) == Ok(r);
  }

  /** A mirror equal to the registry, given a connect's broadcast, equals the registry after the connect. */
  lemma MirrorTracksRegister(r: Roster, connectionId: string, param: Descriptor)
    ensures var (r', out) := Register(r, connectionId, param);
      Receive(r, out[0].envelope).Ok? && Receive(r, out[0].envelope).value.0 == r'
  {
  }

  /** A mirror equal to a valid registry, given a disconnect's broadcast, equals the registry after it. */
  lemma MirrorTracksUnregister(r: Roster, connectionId: string)
    requires Valid(r) && Unregister(r, connectionId).Ok?
    ensures var (r', out) := Unregister(r, connectionId).value;
      Receive(r, out[0].envelope).Ok? && Receive(r, out[0].envelope).value.0 == r'
  {
    if HasId(r.clients, connectionId) {
      var k := IndexOfId(r.clients, connectionId).value;
      assert RoleOf(r.clients[k]) == ClientRole;
    } else {
      var k := IndexOfId(r.services, connectionId).value;
      assert RoleOf(r.services[k]) == ServiceRole;
    }
  }

  /**
   * A mirror that starts equal to a valid registry and handles every
   * presence envelope the hub broadcasts never fails and ends equal to it.
   */
  lemma {:induction false} MirrorFollowsRegistry(r: Roster, events: seq<HubEvent>)
    requires Valid(r)
    ensures Valid(Serve(r, events).0)
    ensures ReceiveAll(r, Serve(r, events).1) == Ok(Serve(r, events).0)
    decreases |events|
  {
    if events != [] {
      var r1: Roster, sent: seq<Envelope>;
      match events[0] {
        case Connected(id, param) =>
          RegisterKeepsValid(r, id, param);
          MirrorTracksRegister(r, id, param);
          r1 := Register(r, id, param).0;
          sent := [Register(r, id, param).1[0].envelope];
        case Disconnected(id) =>
          if Unregister(r, id).Ok? {
            UnregisterKeepsValid(r, id);
            MirrorTracksUnregister(r, id);
            r1 := Unregister(r, id).value.0;
            sent := [Unregister(r, id).value.1[0].envelope];
          } else {
            r1 := r;
            sent := [];
          }
      }
      MirrorFollowsRegistry(r1, events[1..]);
      var rest := Serve(r1, events[1..]).1;
      assert Serve(r, events) == (Serve(r1, events[1..]).0, sent + rest);
      if sent != [] {
        assert (sent + rest)[1..] == rest;
      } else {
        assert sent + rest == rest;
      }
    }
  }

  /**
   * The envelope the send button builds goes to everyone for the "ALL"
   * selection or no selection, and otherwise to the selected connection
   * alone (unless its id is empty).
   */
  lemma SendTarget(myConnId: string, selection: Option<string>, text: string)
    ensures var out := Route(ComposeText(myConnId, selection, text));
      |out| == 1 && out[0].envelope.message == text &&
      out[0].target ==
        if selection == Some("ALL") || selection == None || selection == Some("") then All
        else Conn(selection.value)
  {
  }

  /**
   * A mirror equal to the registry attributes a text message to its sender
   * exactly when the sender is registered, and then shows the text unchanged.
   */
  lemma TextAttribution(r: Roster, myConnId: string, selection: Option<string>, text: string)
    ensures var e := Route(ComposeText(myConnId, selection, text))[0].envelope;
      (Receive(r, e).Ok? <==> HasId(r.services, myConnId) || HasId(r.clients, myConnId)) &&
      (Receive(r, e).Ok? ==> Receive(r, e).value.0 == r && Receive(r, e).value.1.message == text)
  {
  }
}
