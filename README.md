# SignalR presence registry and client mirror, modelled in Dafny

This project models the core of a small SignalR instant-messaging system. It has
two kinds of endpoint, "Service" and "Client". Both connect to a hub that keeps
a registry of who is online and relays messages.

- `comm_model.dfy` (module `CommModel`) holds the shared records:
  - the endpoint descriptor (`IMCommModel`);
  - the three envelope kinds Text, Command and LineState (`IMCommParamMessage`,
    `IMCommParamCommand<T>`, `IMCommParamLineState`), each carrying the header
    of `IMCommParamBase`;
  - the `msgType` discriminator and its wire values 0, 1 and 2.
- `presence.dfy` (module `Presence`) holds the pair of role lists both sides
  keep, and the `List` operations the source applies to them by `ConnId`:
  `Exists`, `Find`/`First` and `Remove`.
- `server.dfy` (module `Server`) models the hub.
  - Class `Registry` holds the server form's `Services` and `Clients` lists.
    Its methods are the `MyHub` handlers `OnConnected`, `OnDisconnected`,
    `SendMessage`, `GetOnlineClients` and `GetOnlineServices`, plus the list
    clearing done in `FormClosing`.
  - Every handler returns the deliveries it makes as `(Target, Envelope)`
    records. A target is `All`, `Conn(id)`, `Group(name)` or `Caller`.
  - Each handler is specified by a function on the registry's value
    (`Register`, `Unregister`, `Route`, the roster replies). The lemmas are
    stated over those functions.
- `client.dfy` (module `Client`) models one client form.
  - Class `Endpoint` holds the form's own descriptor and its two mirror lists.
  - `DoMessage` folds one incoming envelope into the mirror. `ConnectionSucceed`
    resets the mirror and asks for both rosters.
  - Tree-view updates (`treeViewFlush`) appear as `Arrive`/`Depart` events. A
    resolved text message appears as a `Show` effect.
  - `Receive` is the function on the mirror's value that specifies
    `DoMessage`. `ComposeText` is the envelope `ButtonSend_Click` builds.
- `sync.dfy` (module `Sync`) connects the two sides. It shows how a client's
  mirror follows the registry through the envelopes the hub sends.

Errors the source raises by exception become `Err` results that leave the state
unchanged:
- `First` on an unknown id in `OnDisconnected`;
- `First` on an unknown Text sender in `doMessage`;
- `First` on a departure missing from the mirror in `doMessage`.

Where the code differs from what a reader might expect (the roster queries
answering with the list they name, ids unique across both lists), the model
follows the code:
- `GetOnlineClients` answers with the `Services` list and `GetOnlineServices`
  with the `Clients` list. `Sync.ResyncReproducesRegistry` shows this is
  harmless for the client. The client files every descriptor by its own
  `isService` flag, so handling both replies, in either order, rebuilds the
  registry exactly.
- The duplicate check in `OnConnected` looks only at the connecting role's list.
  So one id can end up in both lists if the same connection id reaches
  `OnConnected` once as a service and once as a client. `Server.RegisterAcrossRoles`
  exhibits this. SignalR gives every connection its own id and calls
  `OnConnected` once per connection, so this needs a hub outside that contract.
  Should it happen, a disconnect removes only the `Clients` copy and the id
  stays in `Services`. Registering an id that neither list holds keeps the lists disjoint
  (`Server.RegisterFreshKeepsDisjoint`).
- A duplicate connect inserts nothing but still broadcasts the online event.
- An unknown id on disconnect is an error, not a silent no-op.
- An unknown Text sender is an error, not a fallback display.

## Model

| member | source | states |
|---|---|---|
| `CommModel.NewDescriptor` | CommModel/CommModel.cs:10-17 | a fresh descriptor has every string empty and is not a Service |
| `CommModel.Code` | CommModel/CommModel.cs:61-65 | every discriminator's wire value is 0, 1 or 2 |
| `CommModel.FromCode` | CommModel/CommModel.cs:61-65 | exactly the values 0..2 name a discriminator, and each maps back to its own code |
| `CommModel.CodeRoundTrip` | CommModel/CommModel.cs:61-65 | reading back the code of a discriminator gives that discriminator |
| `CommModel.CodeInjective` | CommModel/CommModel.cs:61-65 | distinct discriminators have distinct codes |
| `CommModel.MsgTypeOf` | CommModel/CommModel.cs:42-59 | the discriminator is Text, Command or LineState exactly when the envelope is a message, a command or a line state |
| `CommModel.Count` | CommModel/CommModel.cs:51 | Count is zero exactly when the bulk list is empty |
| `CommModel.NewLineState` | CommModel/CommModel.cs:42-53 | a fresh LineState has the default header (null sender, empty recipient), an empty bulk list, Count 0 and no single descriptor |
| `CommModel.NewTextMsg` | CommModel/CommModel.cs:42-56 | a fresh text message keeps the default header and its text |
| `Presence.IndexOfId` | WinFormsServer/WinFormsServer.cs:154 | the index found holds the id and no earlier entry does; no index means no entry holds the id |
| `Presence.HasId` | WinFormsServer/WinFormsServer.cs:130 | `Exists` by ConnId holds exactly when some entry carries the id |
| `Presence.FindById` | WinFormsServer/WinFormsServer.cs:150 | `Find`/`First` by ConnId returns the entry at the first index carrying the id; no earlier entry carries it |
| `Presence.RemoveFirstById` | WinFormsServer/WinFormsServer.cs:154-155 | removing the found entry drops one copy of it and changes nothing when the id is absent |
| `Presence.HasIdAppend` | WinFormsServer/WinFormsServer.cs:150 | an id is in the union of two lists exactly when it is in one of them |
| `Presence.HasIdPrefix` | WindowsFormsClient/WinFormsClient.cs:111-112 | an id present in a list stays present when entries are appended |
| `Presence.AppendKeepsUnique` | WinFormsServer/WinFormsServer.cs:130-131 | appending an entry whose id is absent keeps ids unique |
| `Presence.RemoveAppended` | WinFormsServer/WinFormsServer.cs:153-155 | removing the id of an entry appended to a list lacking it gives the list back |
| `Presence.RemoveShifts` | WinFormsServer/WinFormsServer.cs:155 | removal keeps the entries before the found one in place and shifts the rest down by one |
| `Presence.RemoveKeepsUnique` | WinFormsServer/WinFormsServer.cs:154-155 | removal by id keeps ids unique and, on a list with unique ids, leaves no entry with that id |
| `Presence.RemoveKeepsOthers` | WinFormsServer/WinFormsServer.cs:154-155 | removal by id leaves the membership of every other id unchanged |
| `Presence.RemoveKeepsRole` | WinFormsServer/WinFormsServer.cs:162-163 | removal keeps every remaining entry's role |
| `Server.Route` | WinFormsServer/WinFormsServer.cs:114-122 | SendMessage makes one delivery of the unchanged payload: to All exactly when the recipient is null or empty, otherwise to that connection |
| `Server.PresenceEvent` | WinFormsServer/WinFormsServer.cs:133 | a presence event is a single-descriptor LineState (Count 0) from the descriptor's id, online or offline, with the default recipient |
| `Server.ToBothGroups` | WinFormsServer/WinFormsServer.cs:135-136 | a presence event goes exactly twice, once to group "Client" and once to group "Service" |
| `Server.RosterReply` | WinFormsServer/WinFormsServer.cs:175-177 | a roster reply is one successful bulk LineState to the caller alone, listing exactly the given list |
| `Server.Register` | WinFormsServer/WinFormsServer.cs:123-148 | the descriptor takes the connection id; it is appended to its role's list exactly when that list lacks the id; the other list is untouched; both groups get the online event either way |
| `Server.Unregister` | WinFormsServer/WinFormsServer.cs:149-173 | an id in neither list is an error; an id in Clients is removed from Clients only, else from Services only; both groups get the stored descriptor as offline |
| `Server.OnlineClientsReply` | WinFormsServer/WinFormsServer.cs:174-178 | GetOnlineClients answers the caller alone with one successful bulk LineState whose list is exactly the Services list and which has no single descriptor |
| `Server.OnlineServicesReply` | WinFormsServer/WinFormsServer.cs:179-183 | GetOnlineServices answers the caller alone with one successful bulk LineState whose list is exactly the Clients list and which has no single descriptor |
| `Server.Registry.constructor` | WinFormsServer/WinFormsServer.cs:30-35 | the registry starts with both lists empty |
| `Server.Registry.SendMessage` | WinFormsServer/WinFormsServer.cs:114-122 | the handler makes exactly the deliveries of Route and changes no list |
| `Server.Registry.OnConnected` | WinFormsServer/WinFormsServer.cs:123-148 | the new lists and the deliveries are those of Register on the old lists |
| `Server.Registry.OnDisconnected` | WinFormsServer/WinFormsServer.cs:149-173 | on an unknown id the handler fails and changes nothing; otherwise the new lists and deliveries are those of Unregister |
| `Server.Registry.GetOnlineClients` | WinFormsServer/WinFormsServer.cs:174-178 | the caller alone gets the Services list, and no list changes |
| `Server.Registry.GetOnlineServices` | WinFormsServer/WinFormsServer.cs:179-183 | the caller alone gets the Clients list, and no list changes |
| `Server.Registry.FormClosing` | WinFormsServer/WinFormsServer.cs:87-94 | closing the form empties both lists |
| `Server.RegisterKeepsValid` | WinFormsServer/WinFormsServer.cs:129-139 | every connect keeps ids unique within each list and each list to its own role |
| `Server.RegisterIdempotent` | WinFormsServer/WinFormsServer.cs:130-131 | a second connect with the same id changes nothing and repeats the same broadcast |
| `Server.RegisterThenUnregister` | WinFormsServer/WinFormsServer.cs:123-169 | connecting a fresh id and then disconnecting it restores the registry and announces that descriptor as offline |
| `Server.UnregisterKeepsValid` | WinFormsServer/WinFormsServer.cs:153-169 | every successful disconnect keeps ids unique within each list and each list to its own role |
| `Server.UnregisterForgets` | WinFormsServer/WinFormsServer.cs:153-169 | on a valid registry with disjoint lists, after a disconnect the id is in no list and every other id is where it was |
| `Server.RegisterFreshKeepsDisjoint` | WinFormsServer/WinFormsServer.cs:129-139 | connecting an id that neither list holds keeps the lists free of shared ids |
| `Server.RegisterAcrossRoles` | WinFormsServer/WinFormsServer.cs:129-131 | an id registered as a Client is registered again as a Service, so the lists then share it |
| `Server.DefaultDescriptorRegistersAsClient` | CommModel/CommModel.cs:16 | a descriptor left at its defaults is appended to Clients |
| `Server.DefaultRecipientBroadcasts` | CommModel/CommModel.cs:44 | a message whose recipient was left at the default goes to All |
| `Server.ServiceLifecycle` | WinFormsServer/WinFormsServer.cs:123-183 | from an empty registry, after Service "s1" connects GetOnlineClients lists exactly it and GetOnlineServices lists nothing; after it disconnects GetOnlineClients lists nothing |
| `Client.InsertOnline` | WindowsFormsClient/WinFormsClient.cs:121-135 | a single online descriptor is appended to its role's mirror with one arrival exactly when its id is absent there; nothing changes otherwise; the other mirror is untouched |
| `Client.MergeOnline` | WindowsFormsClient/WinFormsClient.cs:108-120 | a bulk merge only appends to each mirror, with one arrival per appended entry |
| `Client.MergeOnlineStep` | WindowsFormsClient/WinFormsClient.cs:109 | merging one more bulk entry is one more single insert |
| `Client.Receive` | WindowsFormsClient/WinFormsClient.cs:94-152 | Command does nothing; Text succeeds exactly when its sender is in either mirror, changes no mirror and shows the role and name of the first mirrored descriptor (services before clients) with the sender's id; a successful LineState is always accepted, merges the bulk list when Count > 0 and otherwise inserts the single descriptor; a LineState with an empty list and no descriptor, or an offline one without a descriptor, changes nothing; an offline LineState succeeds exactly when the sender's id is in the mirror its descriptor's role picks, removes it there only, and reports one departure |
| `Client.ComposeText` | WindowsFormsClient/WinFormsClient.cs:46-50 | the "ALL" selection becomes the empty recipient, any other selection is used as is; the sender is the endpoint's own id and isSuccess is true |
| `Client.Endpoint.constructor` | WindowsFormsClient/WinFormsClient.cs:31-44 | the form's descriptor takes the local identity and is a Service exactly when the mode is "Service"; both mirrors start empty |
| `Client.Endpoint.ConnectionSucceed` | WindowsFormsClient/WinFormsClient.cs:226-238 | the descriptor takes the new connection id, both mirrors are empty, then GetOnlineServices and GetOnlineClients are called in that order |
| `Client.Endpoint.DoMessage` | WindowsFormsClient/WinFormsClient.cs:94-152 | switches on the envelope's msgType; on error the mirrors are unchanged; otherwise the new mirrors and the effect are those of Receive |
| `Client.Endpoint.MergeBulk` | WindowsFormsClient/WinFormsClient.cs:108-120 | the foreach leaves the mirrors and events of MergeOnline |
| `Client.Endpoint.AddOnline` | WindowsFormsClient/WinFormsClient.cs:124-134 | a single online descriptor leaves the mirrors and events of InsertOnline |
| `Client.Endpoint.RemoveOffline` | WindowsFormsClient/WinFormsClient.cs:137-145 | the sender's entry leaves the mirror the descriptor's role picks, with one departure; when it is absent nothing changes and the handler fails |
| `Client.PresentGrows` | WindowsFormsClient/WinFormsClient.cs:111-117 | a mirrored id stays mirrored while both lists only grow |
| `Client.MergeOnlineCovers` | WindowsFormsClient/WinFormsClient.cs:108-120 | after a bulk merge every listed descriptor's id is in the mirror of its role |
| `Client.MergeOnlineOfPresent` | WindowsFormsClient/WinFormsClient.cs:111-116 | a bulk list whose ids are all mirrored changes nothing and shows nothing |
| `Client.MergeOnlineIdempotent` | WindowsFormsClient/WinFormsClient.cs:108-120 | merging a bulk list twice gives the mirror of merging it once, with no arrival the second time |
| `Client.InsertOnlineKeepsValid` | WindowsFormsClient/WinFormsClient.cs:124-134 | a single insert keeps ids unique within each mirror and each mirror to its role |
| `Client.MergeOnlineKeepsValid` | WindowsFormsClient/WinFormsClient.cs:108-120 | a bulk merge keeps ids unique within each mirror and each mirror to its role |
| `Client.FreshSplit` | WindowsFormsClient/WinFormsClient.cs:109 | the conditions for a fresh bulk merge hold for every prefix, and the next entry's id is new |
| `Client.MergeOnlineFresh` | WindowsFormsClient/WinFormsClient.cs:108-120 | a bulk list of one role with distinct ids new to that role's mirror is appended whole and in order, and the other mirror is unchanged |
| `Client.ReceiveKeepsValid` | WindowsFormsClient/WinFormsClient.cs:94-152 | every envelope the mirror accepts keeps ids unique within each mirror and each mirror to its role |
| `Client.OfflineForgetsSender` | WindowsFormsClient/WinFormsClient.cs:137-145 | on a valid mirror a departure leaves no entry with the sender's id in that role's mirror |
| `Client.ReceiveOnlineIdempotent` | WindowsFormsClient/WinFormsClient.cs:107-135 | the same online envelope applied twice gives the mirrors of applying it once, and shows no arrival the second time |
| `Sync.RosterIntoEmptyRole` | WindowsFormsClient/WinFormsClient.cs:108-123 | a roster reply for one role, taken into a mirror holding none of that role, fills that mirror with exactly the reply's list, including when it is empty |
| `Sync.ResyncReproducesRegistry` | WindowsFormsClient/WinFormsClient.cs:226-237 | after a reset, handling the answers to GetOnlineServices and GetOnlineClients, in either order, gives a mirror equal to the valid registry, despite the swapped handlers |
| `Sync.MirrorTracksRegister` | WinFormsServer/WinFormsServer.cs:129-144 | a mirror equal to the registry that handles a connect's broadcast equals the registry after the connect |
| `Sync.MirrorTracksUnregister` | WinFormsServer/WinFormsServer.cs:153-168 | a mirror equal to a valid registry that handles a disconnect's broadcast equals the registry after the disconnect |
| `Sync.MirrorFollowsRegistry` | WinFormsServer/WinFormsServer.cs:123-173 | over any sequence of connects and disconnects, a mirror that starts equal to a valid registry and handles every broadcast never fails and ends equal to the registry, which stays valid |
| `Sync.SendTarget` | WindowsFormsClient/WinFormsClient.cs:47-50 | a composed message goes to All for the "ALL" selection, no selection or an empty id, and otherwise to the selected connection alone |
| `Sync.TextAttribution` | WindowsFormsClient/WinFormsClient.cs:98-104 | a mirror equal to the registry attributes a composed message exactly when its sender is registered, and then shows the text unchanged without touching the mirror |

## Left out

- The SignalR transport is not modelled:
  - connection start and stop, the `Closed` and `Reconnected` events, `ConnectAsync` and `Connection_Closed`;
  - hub proxies and `HubProxy.Invoke`, which appear here as `HubCall` values;
  - `Clients.*` dispatch, which appears as returned deliveries;
  - `Groups.Add` and `Groups.Remove`. Group membership belongs to the transport.
- JSON encoding and decoding and the query-string `Param` are not modelled. Envelopes and descriptors are used as values.
- `msgType` is not a free field: it is the envelope's variant. So an envelope whose discriminator disagrees with its class cannot be expressed.
- The `transTime` timestamp is not modelled.
- `IMCommParam<T>` is not modelled, because no handler uses it.
- The Command payload is generic in the source and an opaque string here. The client ignores it.
- Console and logging output (`WriteToConsole`, `LogHelper`) are not modelled.
- UI marshalling (`this.Invoke`) and tree-node creation are not modelled. `treeViewFlush` appears as `Arrive`/`Depart` events, the clearing of both tree views and the "ALL" tree nodes added on connect are not modelled, and the text display appears as a `Show` effect.
- Server startup, `Startup.Configuration` and the `ConfigurationManager` mode lookup are not modelled.
- `GetLocalSysInfo` is a foreign call. The endpoint constructor takes its results, and the mode string, as parameters.
- `btnConnSrv_Click` is not modelled. It depends on transport state, and its Connecting/Reconnecting branch only calls itself.
- The organisation-tree code is commented out in the source and is not modelled.
- Concurrency is not modelled. The hub callbacks share the lists without locking, and each handler is modelled as one atomic step.
- The hub's `imModel`, `imcp` and `jsonStr` fields only carry values within one handler, so they are local variables here.
- Null descriptors, null entries in a list and null descriptor strings are not modelled. Only the envelope's sender and recipient ids may be null, as `Option`.
- `Client.Endpoint.MergeBulk`: its loop calls `AddOnline`. The source repeats the same test-and-append inline.
- `Server.Registry.OnDisconnected`: after the `First` check it takes the Services branch with a plain `else`. The source's `else if` re-tests membership, which cannot fail there.
- `Server.Registry`: its methods do not restate validity. `RegisterKeepsValid` and `UnregisterKeepsValid` prove that the functions they follow keep it.
