/**
 * The pair of role lists that both sides keep: the server's registry
 * (WinFormsServer.Services/Clients) and every client's mirror of it
 * (WinFormsClient.Services/Clients), with the List operations the source
 * applies to them, keyed on ConnId: Exists, Find/First and Remove.
 */
module Presence {
  import opened Wrappers
  import opened CommModel

  datatype Role = ServiceRole | ClientRole

  /** The role a descriptor declares through isService. */
  function RoleOf(d: Descriptor): Role
  {
    if d.isService then ServiceRole else ClientRole
  }

  function Other(role: Role): Role
  {
    match role
    case ServiceRole => ClientRole
    case ClientRole => ServiceRole
  }

  datatype Roster = Roster(services: seq<Descriptor>, clients: seq<Descriptor>)

  /** The list that holds descriptors of the given role. */
  function Members(r: Roster, role: Role): seq<Descriptor>
  {
    match role
    case ServiceRole => r.services
    case ClientRole => r.clients
  }

  /** Replaces the list of one role and keeps the other. */
  function WithMembers(r: Roster, role: Role, s: seq<Descriptor>): (r': Roster)
    ensures Members(r', role) == s
    ensures Members(r', Other(role)) == Members(r, Other(role))
  {
    match role
    case ServiceRole => r.(services := s)
    case ClientRole => r.(clients := s)
  }

  /** Position of the first descriptor whose ConnId is id, if any. */
  function IndexOfId(s: seq<Descriptor>, id: string): (k: Option<nat>)
    ensures k.Some? ==> k.value < |s| && s[k.value].connId == id
    ensures k.Some? ==> forall j :: 0 <= j < k.value ==> s[j].connId != id
    ensures k.None? ==> forall j :: 0 <= j < |s| ==> s[j].connId != id
  {
    if s == [] then None
    else if s[0].connId == id then Some(0)
    else
      match IndexOfId(s[1..], id)
      case None => None
      case Some(j) => Some(j + 1)
  }

  /** `Exists(e => e.ConnId == id)`. */
  function HasId(s: seq<Descriptor>, id: string): (b: bool)
    ensures b <==> exists j :: 0 <= j < |s| && s[j].connId == id
  {
    IndexOfId(s, id).Some?
  }

  /** `Find(f => f.ConnId == id)` / `First(...)`: the first descriptor with that id. */
  function FindById(s: seq<Descriptor>, id: string): (d: Descriptor)
    requires HasId(s, id)
    ensures d in s && d.connId == id
    ensures exists k :: 0 <= k < |s| && s[k] == d && forall j :: 0 <= j < k ==> s[j].connId != id
  {
    s[IndexOfId(s, id).value]
  }

  /**
   * `Remove(Find(f => f.ConnId == id))`: drops exactly one copy of the first
   * descriptor with that id, keeping the order of the rest; no change when
   * there is none.
   */
  function RemoveFirstById(s: seq<Descriptor>, id: string): (t: seq<Descriptor>)
    ensures !HasId(s, id) ==> t == s
    ensures HasId(s, id) ==> |t| == |s| - 1
    ensures HasId(s, id) ==> multiset(t) + multiset{FindById(s, id)} == multiset(s)
  {
    match IndexOfId(s, id)
    case None => s
    case Some(k) =>
      assert s == s[..k] + [s[k]] + s[k + 1..];
      s[..k] + s[k + 1..]
  }

  /** No ConnId occurs twice in the list. */
  predicate UniqueIds(s: seq<Descriptor>)
  {
    forall i, j :: 0 <= i < j < |s| ==> s[i].connId != s[j].connId
  }

  /** Every descriptor in the list declares the given role. */
  predicate AllOfRole(s: seq<Descriptor>, role: Role)
  {
    forall i :: 0 <= i < |s| ==> RoleOf(s[i]) == role
  }

  /** Ids unique within each list, and each list holds only its own role. */
  predicate Valid(r: Roster)
  {
    UniqueIds(r.services) && UniqueIds(r.clients) &&
    AllOfRole(r.services, ServiceRole) && AllOfRole(r.clients, ClientRole)
  }

  /** No ConnId is in both lists. */
  predicate Disjoint(r: Roster)
  {
    forall i, j :: 0 <= i < |r.services| && 0 <= j < |r.clients| ==>
      r.services[i].connId != r.clients[j].connId
  }

  lemma HasIdAppend(s: seq<Descriptor>, t: seq<Descriptor>, id: string)
    ensures HasId(s + t, id) <==> HasId(s, id) || HasId(t, id)
  {
    if HasId(s + t, id) {
      var j :| 0 <= j < |s + t| && (s + t)[j].connId == id;
      if j >= |s| {
        assert t[j - |s|].connId == id;
      }
    }
    if HasId(s, id) {
      var j :| 0 <= j < |s| && s[j].connId == id;
      assert (s + t)[j].connId == id;
    }
    if HasId(t, id) {
      var j :| 0 <= j < |t| && t[j].connId == id;
      assert (s + t)[|s| + j].connId == id;
    }
  }

  lemma HasIdPrefix(s: seq<Descriptor>, t: seq<Descriptor>, id: string)
    requires s <= t && HasId(s, id)
    ensures HasId(t, id)
  {
    var j :| 0 <= j < |s| && s[j].connId == id;
    assert t[j] == s[j];
  }

  /** Appending a descriptor whose id is absent keeps the ids unique. */
  lemma AppendKeepsUnique(s: seq<Descriptor>, d: Descriptor)
    requires UniqueIds(s) && !HasId(s, d.connId)
    ensures UniqueIds(s + [d])
  {
    var t := s + [d];
    forall i, j | 0 <= i < j < |t| ensures t[i].connId != t[j].connId {
      if j == |s| {
        assert t[i] == s[i];
      }
    }
  }

  /** Removing a descriptor appended after the list's own entries gives the list back. */
  lemma {:induction false} RemoveAppended(s: seq<Descriptor>, d: Descriptor)
    requires !HasId(s, d.connId)
    ensures HasId(s + [d], d.connId)
    ensures FindById(s + [d], d.connId) == d
    ensures RemoveFirstById(s + [d], d.connId) == s
  {
    var t := s + [d];
    assert t[|s|].connId == d.connId;
    assert forall j :: 0 <= j < |s| ==> t[j] == s[j];
    var k := IndexOfId(t, d.connId).value;
    assert k == |s|;
    assert t[..k] == s;
  }

  /** Removing by id keeps ids unique and leaves no copy of that id behind when ids were unique. */
  lemma RemoveKeepsUnique(s: seq<Descriptor>, id: string)
    requires UniqueIds(s)
    ensures UniqueIds(RemoveFirstById(s, id))
    ensures !HasId(RemoveFirstById(s, id), id)
  {
    if HasId(s, id) {
      var k := IndexOfId(s, id).value;
      var t := RemoveFirstById(s, id);
      assert t == s[..k] + s[k + 1..];
      forall i | 0 <= i < |t| ensures t[i] == s[if i < k then i else i + 1] {
      }
      forall i, j | 0 <= i < j < |t| ensures t[i].connId != t[j].connId {
        var i', j' := if i < k then i else i + 1, if j < k then j else j + 1;
        assert t[i] == s[i'] && t[j] == s[j'];
      }
      forall j | 0 <= j < |t| ensures t[j].connId != id {
        var j' := if j < k then j else j + 1;
        assert t[j] == s[j'] && j' != k;
      }
    }
  }

  /** Where each remaining descriptor came from after a removal by id. */
  lemma RemoveShifts(s: seq<Descriptor>, id: string)
    requires HasId(s, id)
    ensures var k := IndexOfId(s, id).value; var t := RemoveFirstById(s, id);
      |t| == |s| - 1 &&
      (forall i :: 0 <= i < k ==> t[i] == s[i]) &&
      (forall i :: k <= i < |t| ==> t[i] == s[i + 1])
  {
    var k := IndexOfId(s, id).value;
    var t := RemoveFirstById(s, id);
    assert t == s[..k] + s[k + 1..];
    forall i | 0 <= i < k ensures t[i] == s[i] {
      assert t[i] == s[..k][i];
    }
    forall i | k <= i < |t| ensures t[i] == s[i + 1] {
      assert t[i] == s[k + 1..][i - k];
    }
  }

  /** Removal by id keeps every other id exactly where membership is concerned. */
  lemma RemoveKeepsOthers(s: seq<Descriptor>, id: string, x: string)
    requires x != id
    ensures HasId(RemoveFirstById(s, id), x) <==> HasId(s, x)
  {
    if HasId(s, id) {
      var k := IndexOfId(s, id).value;
      var t := RemoveFirstById(s, id);
      RemoveShifts(s, id);
      if HasId(s, x) {
        var j :| 0 <= j < |s| && s[j].connId == x;
        var j' := if j < k then j else j - 1;
        assert t[j'] == s[j];
      }
      if HasId(t, x) {
        var j :| 0 <= j < |t| && t[j].connId == x;
        var j' := if j < k then j else j + 1;
        assert t[j] == s[j'];
      }
    }
  }

  /** Removal keeps every remaining descriptor's role. */
  lemma RemoveKeepsRole(s: seq<Descriptor>, id: string, role: Role)
    requires AllOfRole(s, role)
    ensures AllOfRole(RemoveFirstById(s, id), role)
  {
    if HasId(s, id) {
      var k := IndexOfId(s, id).value;
      var t := RemoveFirstById(s, id);
      assert t == s[..k] + s[k + 1..];
      forall i | 0 <= i < |t| ensures RoleOf(t[i]) == role {
        assert t[i] == s[if i < k then i else i + 1];
      }
    }
  }
}
