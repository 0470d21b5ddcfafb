/**
 * The client side (WindowsFormsClient/WinFormsClient.cs): each endpoint's
 * mirror of the registry, folded from the envelopes it receives, the reset on
 * (re)connect, and the envelope the send button builds. Tree-view updates are
 * reported as Arrive/Depart events.
 */
module Client {
  import opened Wrappers
  import opened CommModel
  import opened Presence

  /** What treeViewFlush is asked to show: a node added to or removed from a role's tree. */
  datatype ViewEvent = Arrive(role: Role, d: Descriptor) | Depart(role: Role, d: Descriptor)

  /** What handling one envelope does besides updating the mirror. */
  datatype Effect =
    | Events(events: seq<ViewEvent>)
    | Show(senderRole: Role, senderName: string, message: string)
    | NoEffect

  /** The `First` lookups that throw: an unknown Text sender, a departure not in the mirror. */
  datatype Error = UnknownSender(fromConnId: Option<string>) | NotInMirror(fromConnId: Option<string>)

  /** The hub methods the client invokes. */
  datatype HubCall = CallSendMessage(msg: Envelope) | CallGetOnlineServices | CallGetOnlineClients

  /** The descriptor's id is in the mirror list of its own role. */
  predicate Present(m: Roster, d: Descriptor)
  {
    HasId(Members(m, RoleOf(d)), d.connId)
  }

  /**
   * One online descriptor: appended to its role's list, with an arrival shown,
   * exactly when its id is absent there; otherwise nothing happens.
   */
  function InsertOnline(m: Roster, d: Descriptor): (res: (Roster, seq<ViewEvent>))
    ensures Members(res.0, Other(RoleOf(d))) == Members(m, Other(RoleOf(d)))
    ensures m.services <= res.0.services && m.clients <= res.0.clients
    ensures Present(m, d) ==> res == (m, [])
    ensures !Present(m, d) ==>
      Members(res.0, RoleOf(d)) == Members(m, RoleOf(d)) + [d] && res.1 == [Arrive(RoleOf(d), d)]
  {
    var role := RoleOf(d);
    if HasId(Members(m, role), d.connId) then (m, [])
    else (WithMembers(m, role, Members(m, role) + [d]), [Arrive(role, d)])
  }

  /**
   * The foreach over a bulk online list, one InsertOnline per entry in list
   * order. Both lists only grow at their ends, and one arrival is shown per
   * descriptor actually inserted.
   */
  function MergeOnline(m: Roster, ds: seq<Descriptor>): (res: (Roster, seq<ViewEvent>))
    ensures m.services <= res.0.services && m.clients <= res.0.clients
    ensures |res.1| == (|res.0.services| - |m.services|) + (|res.0.clients| - |m.clients|)
    decreases |ds|
  {
    if ds == [] then (m, [])
    else
      var (m1, e1) := MergeOnline(m, ds[..|ds| - 1]);
      var (m2, e2) := InsertOnline(m1, ds[|ds| - 1]);
      (m2, e1 + e2)
  }

  /** Merging one more entry of a bulk list is one more InsertOnline. */
  lemma MergeOnlineStep(m: Roster, ds: seq<Descriptor>, i: nat)
    requires i < |ds|
    ensures var (m1, e1) := MergeOnline(m, ds[..i]);
      MergeOnline(m, ds[..i + 1]) == (InsertOnline(m1, ds[i]).0, e1 + InsertOnline(m1, ds[i]).1)
  {
    assert ds[..i + 1][..i] == ds[..i];
  }

  /**
   * doMessage on the mirror's value. Text resolves its sender across both
   * lists and fails when it is absent; Command does nothing; a successful
   * LineState with Count > 0 merges the bulk list, otherwise inserts the single
   * descriptor if there is one; an unsuccessful LineState removes the entry
   * whose id is the sender's from the list the descriptor's role picks, and
   * fails when there is none.
   */
  function Receive(m: Roster, e: Envelope): (res: Result<(Roster, Effect), Error>)
    ensures e.CommandMsg? ==> res == Ok((m, NoEffect))
    ensures e.TextMsg? ==> (res.Ok? <==>
      e.header.fromConnId.Some? &&
      (HasId(m.services, e.header.fromConnId.value) || HasId(m.clients, e.header.fromConnId.value)))
    ensures e.TextMsg? && res.Ok? ==>
      HasId(m.services + m.clients, e.header.fromConnId.value) &&
      var d := FindById(m.services + m.clients, e.header.fromConnId.value);
      res.value.0 == m && res.value.1 == Show(RoleOf(d), d.name, e.message)
    ensures e.LineStateMsg? && e.header.isSuccess ==> res.Ok?
    ensures e.LineStateMsg? && e.header.isSuccess && e.imModels != [] ==>
      var (m', evs) := MergeOnline(m, e.imModels);
      res == Ok((m', Events(evs)))
    ensures e.LineStateMsg? && e.header.isSuccess && e.imModels == [] && e.imModel.Some? ==>
      var (m', evs) := InsertOnline(m, e.imModel.value);
      res == Ok((m', Events(evs)))
    ensures e.LineStateMsg? && e.imModels == [] && e.imModel.None? ==> res == Ok((m, NoEffect))
    ensures e.LineStateMsg? && !e.header.isSuccess && e.imModel.None? ==> res == Ok((m, NoEffect))
    ensures e.LineStateMsg? && !e.header.isSuccess && e.imModel.Some? ==>
      var role := RoleOf(e.imModel.value);
      (res.Ok? <==> e.header.fromConnId.Some? && HasId(Members(m, role), e.header.fromConnId.value)) &&
      (res.Ok? ==>
        Members(res.value.0, role) == RemoveFirstById(Members(m, role), e.header.fromConnId.value) &&
        Members(res.value.0, Other(role)) == Members(m, Other(role)) &&
        res.value.1 == Events([Depart(role, e.imModel.value)]))
  {
    match e
    case TextMsg(h, message) =>
      if h.fromConnId.None? then
        Err(UnknownSender(h.fromConnId))
      else
        var id := h.fromConnId.value;
        HasIdAppend(m.services, m.clients, id);
        if HasId(m.services + m.clients, id) then
          var d := FindById(m.services + m.clients, id);
          Ok((m, Show(RoleOf(d), d.name, message)))
        else
          Err(UnknownSender(h.fromConnId))
    case CommandMsg(_, _) =>
      Ok((m, NoEffect))
    case LineStateMsg(h, ds, single) =>
      if h.isSuccess then
        if Count(e) > 0 then
          var (m', evs) := MergeOnline(m, ds);
          Ok((m', Events(evs)))
        else if single.None? then
          Ok((m, NoEffect))
        else
          var (m', evs) := InsertOnline(m, single.value);
          Ok((m', Events(evs)))
      else if single.None? then
        Ok((m, NoEffect))
      else
        var cm := single.value;
        var role := RoleOf(cm);
        if h.fromConnId.Some? && HasId(Members(m, role), h.fromConnId.value) then
          Ok((WithMembers(m, role, RemoveFirstById(Members(m, role), h.fromConnId.value)), Events([Depart(role, cm)])))
        else
          Err(NotInMirror(h.fromConnId))
  }

  /**
   * ButtonSend_Click: the "ALL" selection becomes the empty recipient, any
   * other selection is used as it is; the sender is the endpoint itself.
   */
  function ComposeText(myConnId: string, selection: Option<string>, text: string): (e: Envelope)
    ensures e.TextMsg? && e.message == text
    ensures e.header.fromConnId == Some(myConnId) && e.header.isSuccess
    ensures selection == Some("ALL") ==> e.header.toConnId == Some("")
    ensures selection != Some("ALL") ==> e.header.toConnId == selection
  {
    var toId := if selection == Some("ALL") then Some("") else selection;
    TextMsg(Header(Some(myConnId), toId, true), text)
  }

  /**
   * The client form's presence state: its own descriptor and the two mirror
   * lists (static in the source; one form per process).
   */
  class Endpoint {
    var imModel: Descriptor
    var Services: seq<Descriptor>
    var Clients: seq<Descriptor>

    function State(): Roster
      reads this
    {
      Roster(Services, Clients)
    }

    /** The local machine's identity is passed in; the configured mode decides the role. */
    constructor (name: string, computerName: string, ipAddress: string, macAddress: string, mode: string)
      ensures imModel == NewDescriptor().(name := name, computerName := computerName,
        ipAddress := ipAddress, macAddress := macAddress, isService := mode == "Service")
      ensures State() == Roster([], [])
    {
      imModel := NewDescriptor().(name := name, computerName := computerName,
        ipAddress := ipAddress, macAddress := macAddress, isService := mode == "Service");
      Services := [];
      Clients := [];
    }

    /** Connection_Succeed: take the new id, empty both mirrors, then ask for both rosters. */
    method ConnectionSucceed(connectionId: string) returns (calls: seq<HubCall>)
      modifies this
      ensures imModel == old(imModel).(connId := connectionId)
      ensures State() == Roster([], [])
      ensures calls == [CallGetOnlineServices, CallGetOnlineClients]
    {
      imModel := imModel.(connId := connectionId);
      Services := [];
      Clients := [];
      calls := [CallGetOnlineServices, CallGetOnlineClients];
    }

    /** doMessage: a switch on the envelope's msgType, handled as one atomic step. */
    method DoMessage(e: Envelope) returns (res: Result<Effect, Error>)
      modifies this
      ensures imModel == old(imModel)
      ensures Receive(old(State()), e).Err? ==>
        res == Err(Receive(old(State()), e).error) && State() == old(State())
      ensures Receive(old(State()), e).Ok? ==>
        res == Ok(Receive(old(State()), e).value.1) && State() == Receive(old(State()), e).value.0
    {
      var h := e.header;
      var t := MsgTypeOf(e);
      if t == Text {
        if h.fromConnId.Some? && HasId(Services + Clients, h.fromConnId.value) {
          HasIdAppend(Services, Clients, h.fromConnId.value);
          var immodel := FindById(Services + Clients, h.fromConnId.value);
          res := Ok(Show(RoleOf(immodel), immodel.name, e.message));
        } else {
          if h.fromConnId.Some? {
            HasIdAppend(Services, Clients, h.fromConnId.value);
          }
          res := Err(UnknownSender(h.fromConnId));
        }
      } else if t == LineState {
        if h.isSuccess {
          if Count(e) > 0 {
            var events := MergeBulk(e.imModels);
            res := Ok(Events(events));
          } else if e.imModel.None? {
            res := Ok(NoEffect);
          } else {
            var events := AddOnline(e.imModel.value);
            res := Ok(Events(events));
          }
        } else if e.imModel.None? {
          res := Ok(NoEffect);
        } else {
          res := RemoveOffline(e.imModel.value, h.fromConnId);
        }
      } else {
        // Command has no case in the switch
        res := Ok(NoEffect);
      }
    }

    /**
     * The foreach over a bulk online list. Its body is the same
     * test-and-append the single-descriptor case runs, so it calls AddOnline.
     */
    method MergeBulk(ds: seq<Descriptor>) returns (events: seq<ViewEvent>)
      modifies this
      ensures imModel == old(imModel)
      ensures (State(), events) == MergeOnline(old(State()), ds)
    {
      ghost var m0 := State();
      events := [];
      var i := 0;
      while i < |ds|
        invariant 0 <= i <= |ds|
        invariant imModel == old(imModel)
        invariant (State(), events) == MergeOnline(m0, ds[..i])
      {
        MergeOnlineStep(m0, ds, i);
        var added := AddOnline(ds[i]);
        events := events + added;
        i := i + 1;
      }
      assert ds[..i] == ds;
    }

    /** A single online descriptor: added to its role's mirror when its id is new there. */
    method AddOnline(cm: Descriptor) returns (events: seq<ViewEvent>)
      modifies this
      ensures imModel == old(imModel)
      ensures (State(), events) == InsertOnline(old(State()), cm)
    {
      events := [];
      if cm.isService {
        if !HasId(Services, cm.connId) {
          Services := Services + [cm];
          events := [Arrive(ServiceRole, cm)];
        }
      } else {
        if !HasId(Clients, cm.connId) {
          Clients := Clients + [cm];
          events := [Arrive(ClientRole, cm)];
        }
      }
    }

    /** An offline descriptor: the sender's entry leaves the mirror its role picks. */
    method RemoveOffline(cm: Descriptor, fromConnId: Option<string>) returns (res: Result<Effect, Error>)
      modifies this
      ensures imModel == old(imModel)
      ensures var m := old(State()); var role := RoleOf(cm);
        if fromConnId.Some? && HasId(Members(m, role), fromConnId.value) then
          res == Ok(Events([Depart(role, cm)])) &&
          State() == WithMembers(m, role, RemoveFirstById(Members(m, role), fromConnId.value))
        else
          res == Err(NotInMirror(fromConnId)) && State() == m
    {
      if cm.isService {
        if fromConnId.Some? && HasId(Services, fromConnId.value) {
          Services := RemoveFirstById(Services, fromConnId.value);
          res := Ok(Events([Depart(ServiceRole, cm)]));
        } else {
          res := Err(NotInMirror(fromConnId));
        }
      } else {
        if fromConnId.Some? && HasId(Clients, fromConnId.value) {
          Clients := RemoveFirstById(Clients, fromConnId.value);
          res := Ok(Events([Depart(ClientRole, cm)]));
        } else {
          res := Err(NotInMirror(fromConnId));
        }
      }
    }
  }

  // ---- Properties of the mirror ----

  /** Once present, a descriptor's id stays present while both lists only grow. */
  lemma PresentGrows(m: Roster, m': Roster, x: Descriptor)
    requires m.services <= m'.services && m.clients <= m'.clients
    requires Present(m, x)
    ensures Present(m', x)
  {
    HasIdPrefix(Members(m, RoleOf(x)), Members(m', RoleOf(x)), x.connId);
  }

  /** After a bulk merge every listed descriptor's id is in the mirror of its role. */
  lemma {:induction false} MergeOnlineCovers(m: Roster, ds: seq<Descriptor>)
    ensures forall d :: d in ds ==> Present(MergeOnline(m, ds).0, d)
    decreases |ds|
  {
    if ds != [] {
      var init, last := ds[..|ds| - 1], ds[|ds| - 1];
      MergeOnlineCovers(m, init);
      var m1 := MergeOnline(m, init).0;
      var m2 := InsertOnline(m1, last).0;
      assert m2 == MergeOnline(m, ds).0;
      forall d | d in ds ensures Present(m2, d) {
        if d in init {
          PresentGrows(m1, m2, d);
        } else {
          assert d == last;
          if !Present(m1, last) {
            HasIdAppend(Members(m1, RoleOf(last)), [last], last.connId);
            assert [last][0].connId == last.connId;
          }
        }
      }
    }
  }

  /** A bulk list whose every id is already mirrored changes nothing and shows nothing. */
  lemma {:induction false} MergeOnlineOfPresent(m: Roster, ds: seq<Descriptor>)
    requires forall d :: d in ds ==> Present(m, d)
    ensures MergeOnline(m, ds) == (m, [])
    decreases |ds|
  {
    if ds != [] {
      var init := ds[..|ds| - 1];
      assert forall d :: d in init ==> d in ds;
      MergeOnlineOfPresent(m, init);
    }
  }

  /** Merging the same bulk list twice gives the mirror of merging it once, with no arrival the second time. */
  lemma MergeOnlineIdempotent(m: Roster, ds: seq<Descriptor>)
    ensures var m1 := MergeOnline(m, ds).0; MergeOnline(m1, ds) == (m1, [])
  {
    MergeOnlineCovers(m, ds);
    MergeOnlineOfPresent(MergeOnline(m, ds).0, ds);
  }

  lemma InsertOnlineKeepsValid(m: Roster, d: Descriptor)
    requires Valid(m)
    ensures Valid(InsertOnline(m, d).0)
  {
    if !Present(m, d) {
      AppendKeepsUnique(Members(m, RoleOf(d)), d);
    }
  }

  /** Bulk merges keep ids unique per mirror list and each list to its role. */
  lemma {:induction false} MergeOnlineKeepsValid(m: Roster, ds: seq<Descriptor>)
    requires Valid(m)
    ensures Valid(MergeOnline(m, ds).0)
    decreases |ds|
  {
    if ds != [] {
      MergeOnlineKeepsValid(m, ds[..|ds| - 1]);
      InsertOnlineKeepsValid(MergeOnline(m, ds[..|ds| - 1]).0, ds[|ds| - 1]);
    }
  }

  /** The conditions of MergeOnlineFresh pass to every prefix, and the last entry is new after it. */
  lemma FreshSplit(members: seq<Descriptor>, ds: seq<Descriptor>, role: Role)
    requires ds != []
    requires AllOfRole(ds, role) && UniqueIds(ds)
    requires forall i :: 0 <= i < |ds| ==> !HasId(members, ds[i].connId)
    ensures var init, last := ds[..|ds| - 1], ds[|ds| - 1];
      AllOfRole(init, role) && UniqueIds(init) &&
      (forall i :: 0 <= i < |init| ==> !HasId(members, init[i].connId)) &&
      RoleOf(last) == role && !HasId(members + init, last.connId) &&
      ds == init + [last]
  {
    var init, last := ds[..|ds| - 1], ds[|ds| - 1];
    assert forall i :: 0 <= i < |init| ==> init[i] == ds[i];
    assert !HasId(init, last.connId) by {
      forall j | 0 <= j < |init| ensures init[j].connId != last.connId {
        assert init[j] == ds[j];
      }
    }
    HasIdAppend(members, init, last.connId);
  }

  /**
   * A bulk list of one role, with distinct ids none of which that role's
   * mirror holds, is appended to that mirror whole and in order; the other
   * mirror is unchanged.
   */
  lemma {:induction false} MergeOnlineFresh(m: Roster, ds: seq<Descriptor>, role: Role)
    requires AllOfRole(ds, role) && UniqueIds(ds)
    requires forall i :: 0 <= i < |ds| ==> !HasId(Members(m, role), ds[i].connId)
    ensures Members(MergeOnline(m, ds).0, role) == Members(m, role) + ds
    ensures Members(MergeOnline(m, ds).0, Other(role)) == Members(m, Other(role))
    decreases |ds|
  {
    var members := Members(m, role);
    if ds == [] {
      assert members + ds == members;
    } else {
      FreshSplit(members, ds, role);
      var init, last := ds[..|ds| - 1], ds[|ds| - 1];
      MergeOnlineFresh(m, init, role);
      assert members + init + [last] == members + ds;
    }
  }

  /** Every envelope the mirror accepts keeps it valid. */
  lemma ReceiveKeepsValid(m: Roster, e: Envelope)
    requires Valid(m) && Receive(m, e).Ok?
    ensures Valid(Receive(m, e).value.0)
  {
    if e.LineStateMsg? {
      if e.header.isSuccess {
        if Count(e) > 0 {
          MergeOnlineKeepsValid(m, e.imModels);
        } else if e.imModel.Some? {
          InsertOnlineKeepsValid(m, e.imModel.value);
        }
      } else if e.imModel.Some? {
        var role := RoleOf(e.imModel.value);
        RemoveKeepsUnique(Members(m, role), e.header.fromConnId.value);
        RemoveKeepsRole(Members(m, role), e.header.fromConnId.value, role);
      }
    }
  }

  /** On a valid mirror a departure leaves no entry with the sender's id in that role's list. */
  lemma OfflineForgetsSender(m: Roster, e: Envelope)
    requires Valid(m) && e.LineStateMsg? && !e.header.isSuccess && e.imModel.Some?
    requires Receive(m, e).Ok?
    ensures !HasId(Members(Receive(m, e).value.0, RoleOf(e.imModel.value)), e.header.fromConnId.value)
  {
    RemoveKeepsUnique(Members(m, RoleOf(e.imModel.value)), e.header.fromConnId.value);
  }

  /**
   * Applying the same online envelope twice leaves the mirror as applying it
   * once did, and the second time shows no arrival.
   */
  lemma ReceiveOnlineIdempotent(m: Roster, e: Envelope)
    requires e.LineStateMsg? && e.header.isSuccess
    ensures var m1 := Receive(m, e).value.0;
      Receive(m1, e) == Ok((m1, if Count(e) == 0 && e.imModel.None? then NoEffect else Events([])))
  {
    if Count(e) > 0 {
      MergeOnlineIdempotent(m, e.imModels);
    } else if e.imModel.Some? {
      var d := e.imModel.value;
      if !Present(m, d) {
        HasIdAppend(Members(m, RoleOf(d)), [d], d.connId);
        assert [d][0].connId == d.connId;
      }
    }
  }
}
