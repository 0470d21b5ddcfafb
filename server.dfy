/**
 * The server side (WinFormsServer/WinFormsServer.cs): the two registry lists
 * the server form owns and the MyHub handlers that update them and fan out
 * envelopes. The transport's dispatch (`Clients.All`, `Clients.Client(id)`,
 * `Clients.Group(name)`, `Clients.Caller`) is returned as delivery records.
 */
module Server {
  import opened Wrappers
  import opened CommModel
  import opened Presence

  /** Who an outgoing envelope is addressed to. */
  datatype Target = All | Conn(connId: string) | Group(name: string) | Caller

  datatype Delivery = Delivery(target: Target, envelope: Envelope)

  /** `First` over the registry found no descriptor with the disconnecting id. */
  datatype Error = NotRegistered(connId: string)

  /** The group name a role's connections are added to. */
  function GroupName(role: Role): string
  {
    match role
    case ServiceRole => "Service"
    case ClientRole => "Client"
  }

  /** string.IsNullOrEmpty */
  predicate IsNullOrEmpty(s: Option<string>)
  {
    s.None? || s.value == ""
  }

  /**
   * SendMessage: the payload goes out once and unchanged, to everyone when the
   * recipient is null or empty and otherwise to that one connection.
   */
  function Route(msg: Envelope): (out: seq<Delivery>)
    ensures |out| == 1 && out[0].envelope == msg
    ensures out[0].target == All <==> IsNullOrEmpty(msg.header.toConnId)
    ensures !IsNullOrEmpty(msg.header.toConnId) ==> out[0].target == Conn(msg.header.toConnId.value)
  {
    if IsNullOrEmpty(msg.header.toConnId) then [Delivery(All, msg)]
    else [Delivery(Conn(msg.header.toConnId.value), msg)]
  }

  /** The single-descriptor LineState a connect (online) or disconnect (offline) announces. */
  function PresenceEvent(d: Descriptor, online: bool): (e: Envelope)
    ensures e.LineStateMsg? && Count(e) == 0 && e.imModel == Some(d)
    ensures e.header.fromConnId == Some(d.connId) && e.header.isSuccess == online
    ensures e.header.toConnId == NewHeader.toConnId
  {
    var e := NewLineState();
    e.(header := NewHeader.(fromConnId := Some(d.connId), isSuccess := online), imModel := Some(d))
  }

  /**
   * A presence event goes to both role groups, whatever the role; every
   * handler sends to the other role's group first and then to its own.
   */
  function ToBothGroups(role: Role, e: Envelope): (out: seq<Delivery>)
    ensures |out| == 2 && out[0].envelope == e && out[1].envelope == e
    ensures {out[0].target, out[1].target} == {Group("Client"), Group("Service")}
  {
    [Delivery(Group(GroupName(Other(role))), e), Delivery(Group(GroupName(role)), e)]
  }

  /** The bulk LineState a roster query answers with, to the caller alone. */
  function RosterReply(list: seq<Descriptor>): (out: seq<Delivery>)
    ensures |out| == 1 && out[0].target == Caller
    ensures out[0].envelope.LineStateMsg? && out[0].envelope.header.isSuccess
    ensures out[0].envelope.imModels == list && out[0].envelope.imModel.None?
  {
    var e := NewLineState();
    [Delivery(Caller, e.(header := NewHeader.(isSuccess := true), imModels := list))]
  }

  /**
   * OnConnected on the registry's value: the descriptor gets the connection's
   * id first; it is appended to its role's list exactly when that list lacks
   * the id, the other list is untouched, and both groups hear it came online
   * whether or not it was inserted.
   */
  function Register(r: Roster, connectionId: string, param: Descriptor): (res: (Roster, seq<Delivery>))
    ensures var d := param.(connId := connectionId);
      res.1 == ToBothGroups(RoleOf(d), PresenceEvent(d, true))
    ensures var d := param.(connId := connectionId); var role := RoleOf(d);
      Members(res.0, Other(role)) == Members(r, Other(role)) &&
      (HasId(Members(r, role), connectionId) ==> res.0 == r) &&
      (!HasId(Members(r, role), connectionId) ==> Members(res.0, role) == Members(r, role) + [d])
  {
    var d := param.(connId := connectionId);
    var role := RoleOf(d);
    var members := Members(r, role);
    var r' := if HasId(members, d.connId) then r else WithMembers(r, role, members + [d]);
    (r', ToBothGroups(role, PresenceEvent(d, true)))
  }

  /**
   * OnDisconnected on the registry's value: an id in neither list is an error
   * and changes nothing; an id in Clients is removed from Clients only, else
   * from Services only; both groups hear the stored descriptor went offline.
   */
  function Unregister(r: Roster, connectionId: string): (res: Result<(Roster, seq<Delivery>), Error>)
    ensures res.Err? <==> !HasId(r.services, connectionId) && !HasId(r.clients, connectionId)
    ensures res.Err? ==> res.error == NotRegistered(connectionId)
    ensures HasId(r.clients, connectionId) ==>
      res == Ok((r.(clients := RemoveFirstById(r.clients, connectionId)),
                 ToBothGroups(ClientRole, PresenceEvent(FindById(r.clients, connectionId), false))))
    ensures !HasId(r.clients, connectionId) && HasId(r.services, connectionId) ==>
      res == Ok((r.(services := RemoveFirstById(r.services, connectionId)),
                 ToBothGroups(ServiceRole, PresenceEvent(FindById(r.services, connectionId), false))))
  {
    HasIdAppend(r.services, r.clients, connectionId);
    if !HasId(r.services + r.clients, connectionId) then
      Err(NotRegistered(connectionId))
    else if HasId(r.clients, connectionId) then
      var d := FindById(r.clients, connectionId);
      Ok((r.(clients := RemoveFirstById(r.clients, connectionId)), ToBothGroups(ClientRole, PresenceEvent(d, false))))
    else
      var d := FindById(r.services, connectionId);
      Ok((r.(services := RemoveFirstById(r.services, connectionId)), ToBothGroups(ServiceRole, PresenceEvent(d, false))))
  }

  /** GetOnlineClients, as written: it answers with the Services list. */
  function OnlineClientsReply(r: Roster): (out: seq<Delivery>)
    ensures |out| == 1 && out[0].target == Caller
    ensures out[0].envelope.LineStateMsg? && out[0].envelope.header.isSuccess
    ensures out[0].envelope.imModels == r.services && out[0].envelope.imModel.None?
  {
    RosterReply(r.services)
  }

  /** GetOnlineServices, as written: it answers with the Clients list. */
  function OnlineServicesReply(r: Roster): (out: seq<Delivery>)
    ensures |out| == 1 && out[0].target == Caller
    ensures out[0].envelope.LineStateMsg? && out[0].envelope.header.isSuccess
    ensures out[0].envelope.imModels == r.clients && out[0].envelope.imModel.None?
  {
    RosterReply(r.clients)
  }

  /**
   * The registry lists that the server form owns (WinFormsServer.Services and
   * WinFormsServer.Clients), with the MyHub handlers acting on them. Each
   * handler is one atomic step.
   */
  class Registry {
    var Services: seq<Descriptor>
    var Clients: seq<Descriptor>

    function State(): Roster
      reads this
    {
      Roster(Services, Clients)
    }

    constructor ()
      ensures State() == Roster([], [])
    {
      Services := [];
      Clients := [];
    }

    method SendMessage(msg: Envelope) returns (out: seq<Delivery>)
      ensures out == Route(msg)
    {
      if IsNullOrEmpty(msg.header.toConnId) {
        out := [Delivery(All, msg)];
      } else {
        out := [Delivery(Conn(msg.header.toConnId.value), msg)];
      }
    }

    method OnConnected(connectionId: string, param: Descriptor) returns (out: seq<Delivery>)
      modifies this
      ensures (State(), out) == Register(old(State()), connectionId, param)
    {
      var imModel := param.(connId := connectionId);
      var imcp := PresenceEvent(imModel, true);
      if imModel.isService {
        if !HasId(Services, imModel.connId) {
          Services := Services + [imModel];
        }
        out := ToBothGroups(ServiceRole, imcp);
      } else {
        if !HasId(Clients, imModel.connId) {
          Clients := Clients + [imModel];
        }
        out := ToBothGroups(ClientRole, imcp);
      }
    }

    method OnDisconnected(connectionId: string) returns (res: Result<seq<Delivery>, Error>)
      modifies this
      ensures Unregister(old(State()), connectionId).Err? ==>
        res == Err(Unregister(old(State()), connectionId).error) && State() == old(State())
      ensures Unregister(old(State()), connectionId).Ok? ==>
        res == Ok(Unregister(old(State()), connectionId).value.1) &&
        State() == Unregister(old(State()), connectionId).value.0
    {
      HasIdAppend(Services, Clients, connectionId);
      if !HasId(Services + Clients, connectionId) {
        return Err(NotRegistered(connectionId));
      }
      if HasId(Clients, connectionId) {
        var imModel := FindById(Clients, connectionId);
        Clients := RemoveFirstById(Clients, connectionId);
        res := Ok(ToBothGroups(ClientRole, PresenceEvent(imModel, false)));
      } else {
        // the lookup above guarantees the id is in Services here
        var imModel := FindById(Services, connectionId);
        Services := RemoveFirstById(Services, connectionId);
        res := Ok(ToBothGroups(ServiceRole, PresenceEvent(imModel, false)));
      }
    }

    method GetOnlineClients() returns (out: seq<Delivery>)
      ensures out == OnlineClientsReply(State())
      ensures out[0].envelope.imModels == Services
    {
      out := RosterReply(Services);
    }

    method GetOnlineServices() returns (out: seq<Delivery>)
      ensures out == OnlineServicesReply(State())
      ensures out[0].envelope.imModels == Clients
    {
      out := RosterReply(Clients);
    }

    /** WinFormsServer_FormClosing empties both lists. */
    method FormClosing()
      modifies this
      ensures State() == Roster([], [])
    {
      Clients := [];
      Services := [];
    }
  }

  // ---- Properties of the registry ----

  /** Every register keeps ids unique per list and each list to its own role. */
  lemma RegisterKeepsValid(r: Roster, connectionId: string, param: Descriptor)
    requires Valid(r)
    ensures Valid(Register(r, connectionId, param).0)
  {
    var d := param.(connId := connectionId);
    var role := RoleOf(d);
    if !HasId(Members(r, role), connectionId) {
      AppendKeepsUnique(Members(r, role), d);
    }
  }

  /** Registering the same id twice: the second call changes nothing and repeats the broadcast. */
  lemma RegisterIdempotent(r: Roster, connectionId: string, param: Descriptor)
    ensures var (r1, out1) := Register(r, connectionId, param);
      Register(r1, connectionId, param) == (r1, out1)
  {
    var d := param.(connId := connectionId);
    var role := RoleOf(d);
    var r1 := Register(r, connectionId, param).0;
    if !HasId(Members(r, role), connectionId) {
      HasIdAppend(Members(r, role), [d], connectionId);
      assert [d][0].connId == connectionId;
    }
    assert HasId(Members(r1, role), connectionId);
  }

  /**
   * A connection registered with a fresh id and then disconnected leaves the
   * registry as it was, and the departure carries the registered descriptor.
   */
  lemma RegisterThenUnregister(r: Roster, connectionId: string, param: Descriptor)
    requires !HasId(r.services, connectionId) && !HasId(r.clients, connectionId)
    ensures var d := param.(connId := connectionId);
      Unregister(Register(r, connectionId, param).0, connectionId) ==
        Ok((r, ToBothGroups(RoleOf(d), PresenceEvent(d, false))))
  {
    var d := param.(connId := connectionId);
    RemoveAppended(Members(r, RoleOf(d)), d);
  }

  /** Every successful unregister keeps ids unique per list and each list to its own role. */
  lemma UnregisterKeepsValid(r: Roster, connectionId: string)
    requires Valid(r) && Unregister(r, connectionId).Ok?
    ensures Valid(Unregister(r, connectionId).value.0)
  {
    RemoveKeepsUnique(r.clients, connectionId);
    RemoveKeepsUnique(r.services, connectionId);
    RemoveKeepsRole(r.clients, connectionId, ClientRole);
    RemoveKeepsRole(r.services, connectionId, ServiceRole);
  }

  /**
   * After a successful unregister on a registry whose lists share no id, the
   * id is in neither list and every other id is exactly where it was.
   */
  lemma UnregisterForgets(r: Roster, connectionId: string, other: string)
    requires Valid(r) && Disjoint(r) && Unregister(r, connectionId).Ok?
    requires other != connectionId
    ensures var r' := Unregister(r, connectionId).value.0;
      !HasId(r'.services, connectionId) && !HasId(r'.clients, connectionId) &&
      (HasId(r'.services, other) <==> HasId(r.services, other)) &&
      (HasId(r'.clients, other) <==> HasId(r.clients, other))
  {
    RemoveKeepsUnique(r.clients, connectionId);
    RemoveKeepsUnique(r.services, connectionId);
    RemoveKeepsOthers(r.clients, connectionId, other);
    RemoveKeepsOthers(r.services, connectionId, other);
    if HasId(r.clients, connectionId) {
      var j :| 0 <= j < |r.clients| && r.clients[j].connId == connectionId;
      assert forall i :: 0 <= i < |r.services| ==> r.services[i].connId != r.clients[j].connId;
    }
  }

  /** Registering an id that neither list holds keeps the lists free of shared ids. */
  lemma RegisterFreshKeepsDisjoint(r: Roster, connectionId: string, param: Descriptor)
    requires Disjoint(r)
    requires !HasId(r.services, connectionId) && !HasId(r.clients, connectionId)
    ensures Disjoint(Register(r, connectionId, param).0)
  {
    var r' := Register(r, connectionId, param).0;
    forall i, j | 0 <= i < |r'.services| && 0 <= j < |r'.clients|
      ensures r'.services[i].connId != r'.clients[j].connId
    {
      if param.isService {
        if i == |r.services| {
          assert r'.clients[j] == r.clients[j];
        } else {
          assert r'.services[i] == r.services[i];
        }
      } else {
        if j == |r.clients| {
          assert r'.services[i] == r.services[i];
        } else {
          assert r'.clients[j] == r.clients[j];
        }
      }
    }
  }

  /**
   * The duplicate check looks only at the connecting role's list, so an id
   * already registered as a Client is registered again as a Service.
   */
  lemma RegisterAcrossRoles()
    ensures var c := NewDescriptor().(connId := "x");
      var r := Register(Roster([], [c]), "x", c.(isService := true)).0;
      r == Roster([c.(isService := true)], [c]) && !Disjoint(r)
  {
    var c := NewDescriptor().(connId := "x");
    var r := Register(Roster([], [c]), "x", c.(isService := true)).0;
    assert r.services[0].connId == r.clients[0].connId;
  }

  /** An endpoint that left its descriptor at the defaults registers as a Client. */
  lemma DefaultDescriptorRegistersAsClient(r: Roster, connectionId: string)
    requires !HasId(r.clients, connectionId)
    ensures Register(r, connectionId, NewDescriptor()).0 ==
      r.(clients := r.clients + [NewDescriptor().(connId := connectionId)])
  {
  }

  /** A message whose recipient was left at its default is broadcast. */
  lemma DefaultRecipientBroadcasts(message: string)
    ensures Route(NewTextMsg(message)) == [Delivery(All, NewTextMsg(message))]
  {
  }

  /**
   * From an empty registry: a Service "s1" connects; the roster that lists it
   * is the reply to GetOnlineClients (the handlers are swapped); once "s1"
   * disconnects that reply is an empty list.
   */
  lemma ServiceLifecycle(param: Descriptor)
    requires param.isService
    ensures var r1 := Register(Roster([], []), "s1", param).0;
      var s1 := param.(connId := "s1");
      OnlineClientsReply(r1)[0].envelope.imModels == [s1] &&
      OnlineServicesReply(r1)[0].envelope.imModels == [] &&
      Unregister(r1, "s1").Ok? &&
      OnlineClientsReply(Unregister(r1, "s1").value.0)[0].envelope.imModels == []
  {
    var s1 := param.(connId := "s1");
    RemoveAppended([], s1);
  }
}
