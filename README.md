# A verified model of the device-fleet backend

This project models the request handlers and live listeners of an Express and
Socket.IO backend that runs a fleet of Android devices through Firebase. It
covers the following:

- the device list pushed to dashboards, and the cache of that list;
- presence records, written when a device socket registers or disconnects and
  when a check-online reply arrives;
- the per-uid live watchers behind the status routes;
- the command relay to FCM, and the command documents with their log;
- SMS log flattening and the status lists;
- the "active in the last 15 minutes" listing;
- the serial, like, delete, admin-number and session tables;
- the authentication guard in front of the protected routes.

The model works in terms of a few shared pieces:

- **JSON values** (`JsValue`). A JavaScript value read from or written to a
  store is a `Json`. An object is an ordered list of fields. `Lookup` lets
  the last field of a name win, as repeated assignment does. Spread
  (`{ ...a, ...b }`), `||`, `===`, `String()`, `Number()`, `trim()` and
  upper- and lower-casing are written out as functions.
- **The stores** (`Tree`). The realtime database and the document store are
  one JSON tree each, held by a `Db` object with `Read`, `Write` (`set`),
  `Remove`, `Update` (the realtime database's `update`) and `MergeSet` (the
  document store's `set` with `merge: true`).
  - Setting `null` removes a node.
  - A node that a removal or a `null` write leaves without children
    disappears. A written value is stored as given: empty arrays, empty
    objects and `null` leaves inside it are kept. The realtime database would
    prune them (see "Left out").
  - The field order of an object stands for the order in which a store lists
    the children of a node.
  - Lemmas state what a read sees after a write: the written value, the old
    value on any path that parts ways with the write, or a merge after an
    `update`.
- **Outputs** (`Channel`). Socket emits and FCM pushes are appended to the
  log of an `Outbox`. The FCM wrapper sends nothing without a token.
- **Other parameters.** The clock (`now`), generated ids, the JWT verifier and
  store failures (`fault`) are supplied by the caller.
- **Module state.** The state `server.js` keeps at module level lives in a
  `Fleet.Server` object:
  - `deviceSockets`;
  - `lastDevicesList`;
  - the `currentDeviceId` of each connection;
  - the two watcher maps.

  The watcher maps of `checkController.js` live in a `CheckController.Checker`
  object.
- **Watcher maps** (`Watch.Watchers`). A watcher map is a class. It holds the
  uid-to-handle map and the set of listeners still attached. Its methods
  `Stop`, `Start` and `Restart` mutate both. Its invariant `OnePerUid` says
  that no listener has leaked.

Loops of the source are methods with loop invariants, each proved equal to a
specification function. These methods are `PushEntries`, `PushSelected`,
`KeepEntries`, `NormalizeList`, `ConcatLogs`, `Deactivations` and the status
list builders. Properties of the specification functions are proved as
lemmas.

The model keeps several behaviours of the code as written:

- **The `sim-forward` route in `server.js`.** It uses `simWatchers` and
  `stopSimWatcher`, which that file never declares, so it always answers 500
  (`Fleet.Server.SimForwardRoute`). That route is registered before the one
  in `checkController.js`, so the controller's version is shadowed. It is
  modelled anyway (`CheckController.Checker.SimForward`).
- **The `sms-status` route.** `GET /api/device/:uid/sms-status` in `server.js`
  (line 274) is also registered before `app.use("/api", checkRoutes)` (line
  468), so `CheckController.Checker.SmsStatus` is shadowed in the same way and
  is modelled anyway.
- **Uid cleaning.** `server.js` trims and upper-cases uids; `checkController.js`
  does not. The two modules therefore key their watcher maps differently.
- **The delete cascade.** It removes `deviceCommands/<uid>`, while the relay
  watches `commandCenter/deviceCommands`. The queued commands and the
  check-online record survive a delete (`CascadeKeepsRelayAndCheck`).
- **The guard and `req.user`.** The guard sets `req.userId` and never
  `req.user`, so likes and deletions are attributed to `"admin"` unless a
  caller supplies a user. In the server as written, every like and deletion is
  therefore the admin's, and likes are not per user; the model's `user`
  parameter also covers a caller that does set `req.user`.
- **`setAdminNumber` without a socket server.** When no socket server is
  attached, the merge is written and the call to `emit` then throws, so the
  reply is 500.
- **Serial numbers.** They are supplied by the client. No id or serial is
  allocated, and two devices may hold the same serial.
- **Values the document store refuses.** It refuses a field whose value is
  `undefined` and an array that holds another array (`NestsArray`). A command
  or admin body that lacks a copied field, or whose copied field nests
  arrays, gets 500 and nothing is written (`Unstorable`).
- **Two tests of an active session.** The login reply lists sessions with a
  truthy `isActive`, and the guard admits them. `GET /sessions` lists only
  `isActive === true` (`TruthyButNotListed`).

## Model

| member | source | states |
|---|---|---|
| Fleet.Clean | server.js:40 | An id is absent exactly when the raw value is `null` or `undefined`; any other value yields a string id (its shape is stated by `CleanIdempotent`). |
| Fleet.CleanIdempotent | server.js:40 | A cleaned id has no white space at either end and no lower-case ASCII letter, and cleaning it again returns it unchanged. |
| Fleet.CleanStringParam | server.js:40 | A route parameter and the same text arriving over a socket clean to the same id. |
| Fleet.DeviceEntryStatus | server.js:88-90 | An entry's connectivity is the status record's or "Offline"; its lastSeen falls back from lastSeen to timestamp to null; its timestamp is the status record's or null. |
| Fleet.DeviceEntryInfo | server.js:85-87 | An entry's `id` is the registry key unless the registry record has its own `id`; every other field apart from the three status fields is the registry record's. |
| Fleet.DeviceEntryFields | server.js:83-91 | Both together: the status fields override same-named registry fields, and the registry fields override `id`. |
| Fleet.DevicesList | server.js:71-93 | The device list has one entry per registered device, and none when the registry is absent. |
| Fleet.DevicesListShape | server.js:77-92 | The list is empty when the registry is absent and otherwise has one entry per registered device; without any status records every device shows as "Offline" under its own key. |
| Fleet.DevicesListEntry | server.js:82-91 | Entry i joins registry entry i with that device's status record: its `id` is the record's own or the key, `connectivity`, `lastSeen` and `timestamp` come from the status with their fallbacks, and its other fields are the registry's. |
| Fleet.InitialDevices | server.js:126-127 | A new connection is served the cache when it is non-empty, and a freshly built list otherwise. |
| Fleet.RegisteredShowsOnline | server.js:148-152 | After a device registers, its entry in the rebuilt list reads "Online" with lastSeen set to the registration time. |
| Fleet.WithUid | server.js:223 | `{ uid, ...data }` is `null` for a node that does not exist, and otherwise an object whose uid is the record's own or the route's. |
| Fleet.ExtractCommand | server.js:392-396 | A node with a truthy `action` is the command itself; otherwise the command is the value under the node's last key, or null when there is none. |
| Fleet.LastCommandWins | server.js:394-395 | The command appended last to a queue without its own `action` is the one relayed. |
| Fleet.RelayedCommand | server.js:398-413 | At most one push is sent, and one is sent exactly when the node exists, yields a command and the device has an fcmToken; the push carries `{ uniqueid, ...cmd }`. |
| Fleet.CheckOnlinePush | server.js:450-454 | The CHECK_ONLINE payload carries the uid, `available` or "unknown", and `checkedAt` as a string, or "" when it is falsy. |
| Fleet.CheckOnlineMarksOnline | server.js:434-438 | After a check-online reply the status record reads Online with lastSeen and timestamp set to now, and its other fields are kept (update, not set). |
| Fleet.CheckOnlineKeepsRegistry | server.js:429-438 | The reset-clock and status writes leave the device registry untouched. |
| Fleet.Server.Refresh | server.js:98-114 | The cache becomes the freshly built list and every client gets it with `count` equal to its length; when building fails the cache and the log are unchanged. |
| Fleet.Server.OnConnection | server.js:119-138 | A new socket gets the cache if non-empty, else a rebuilt list, else `{ success: false, data: [] }` on a failed build; the cache itself is not touched. |
| Fleet.Server.RegisterDevice | server.js:141-157 | An id that cleans to nothing changes nothing; otherwise the socket is recorded for the device, its status is overwritten with an Online record, and a deviceStatus emit is followed by a refresh. |
| Fleet.Server.Disconnect | server.js:160-176 | Only a socket that registered a device writes Offline, emits and refreshes; any other socket changes nothing in the store or the log. |
| Fleet.Server.BrosReplyRoute | server.js:216-235 | The route restarts the uid's watcher, leaving exactly one live listener at `checkOnline/<uid>`, keeps the no-leak invariant and answers with the current record. |
| Fleet.Server.SmsStatusRoute | server.js:274-300 | The route restarts the uid's SMS watcher, leaving exactly one listener, and answers with the sorted status list. |
| Fleet.Server.SimForwardRoute | server.js:337-363 | The route always answers 500 with `success: false`, because its first statement references undeclared names. |
| Fleet.Server.OnBrosChange | server.js:194-210 | A change at `checkOnline/<uid>` emits one brosReplyUpdate per listener attached there. |
| Fleet.Server.OnSmsStatusChange | server.js:252-268 | A change at `commandCenter/smsStatus/<uid>` emits the sorted list once per listener attached there. |
| Fleet.Server.OnDeviceCommand | server.js:398-416 | A command change appends exactly the push of `RelayedCommand` to the log. |
| Fleet.Server.OnCheckOnline | server.js:421-456 | A reply that does not exist changes nothing; otherwise the reset clock and the Online status are written, deviceStatus is emitted, and a CHECK_ONLINE push follows when the device has a token. |
| Channel.FcmSends | server.js:45-49 | The FCM wrapper sends one high-priority message exactly when a token is given, and nothing otherwise. |
| Channel.Outbox.SendFcm | server.js:45-66 | Sending appends to the log exactly the messages `FcmSends` allows. |
| Watch.Watchers.OneListener | server.js:182-213 | Without leaked listeners, a watched uid has exactly its mapped listener and an unwatched uid has none, so a change is reported at most once. |
| Watch.Watchers.Stop | controllers/checkController.js:14-20 | Stopping an unmapped uid changes nothing; stopping a mapped uid detaches every listener at its path and deletes the entry. |
| Watch.Watchers.Start | server.js:191-213 | Starting attaches a fresh listener at the uid's path and maps the uid to it; a listener already mapped for the uid stays attached (it is the one that leaks without a stop). |
| Watch.Watchers.Restart | controllers/checkController.js:120-134 | Stop and then start leaves the uid with exactly one live listener, the new one, and keeps the no-leak invariant. |
| CheckController.ListPayload | controllers/checkController.js:31-58 | A listener's payload carries the uid and `success`, and the list or `[]`; a message is present exactly when the node does not exist. |
| CheckController.DataWithUid | controllers/checkController.js:297-302 | The reply data is null exactly when the record is absent or falsy; otherwise it is `{ uid, ...data }`, with the record's own uid taking precedence. |
| CheckController.CheckOnlineRecordFields | controllers/checkController.js:196-200 | The saved record exists, carries `available` or "checking" (always truthy) and the time of the request. |
| CheckController.ActiveEntryFields | controllers/checkController.js:255-260 | A listed entry has lastSeen = checkedAt, isActive = true, the uid unless the record has its own, and every other field of the record. |
| CheckController.KeepEntries | controllers/checkController.js:233-266 | The `forEach` that fills `activeDevices` and `activeCount` computes the object `Keep` and the count `CountKept`. |
| CheckController.KeepHas | controllers/checkController.js:236-261 | A key is in the filtered object exactly when one of its fields passes the filter. |
| CheckController.KeepGet | controllers/checkController.js:255-260 | With distinct keys, an accepted field maps to the entry built from it. |
| CheckController.KeepCountIsSize | controllers/checkController.js:261 | With distinct keys, the counter equals the number of keys in the filtered object. |
| CheckController.ActiveListing | controllers/checkController.js:236-274 | A uid is listed exactly when its record is an object that mentions "device is online" and is younger than 15 minutes; its entry is built from that record, and `count` is the number listed. |
| CheckController.SavedRecordActive | controllers/checkController.js:243-254 | A record saved by the check-online route is active exactly when its `available` mentions "device is online" and it was saved less than 15 minutes ago. |
| CheckController.Checker.SmsStatus | controllers/checkController.js:114-146 | The route stops and restarts the uid's SMS watcher, leaving one listener that reports the node once, and answers with the sorted list. |
| CheckController.Checker.SimForward | controllers/checkController.js:151-186 | The same for the SIM-forward watcher and list. |
| CheckController.Checker.OnSmsChange | controllers/checkController.js:30-61 | A change emits one smsStatusUpdate per listener attached at the uid's path. |
| CheckController.Checker.OnSimChange | controllers/checkController.js:75-105 | A change emits one simForwardUpdate per listener attached at the uid's path. |
| CheckController.Checker.SaveCheckOnline | controllers/checkController.js:191-214 | The route overwrites `checkOnline/<uid>` with the record and echoes it with the uid. |
| CheckController.Checker.AllBrosReplies | controllers/checkController.js:221-288 | The reply holds the active records and their count; `ActiveListing` states which records those are. |
| CheckController.Checker.BrosReply | controllers/checkController.js:293-309 | The reply data is the stored record with its uid, or null. |
| CheckController.Checker.SetRestart | controllers/checkController.js:314-335 | The route overwrites `restartCollection/<uid>` with `{ requested: true, at }` and echoes it with the uid. |
| CheckController.Checker.Restart | controllers/checkController.js:356-372 | The reply data is the stored restart request with its uid, or null. |
| CheckController.Checker.DevicePermissions | controllers/checkController.js:337-354 | The reply data is the device's permissions with the uid, or null, with the message that matches. |
| CheckController.RestartRoundTrip | controllers/checkController.js:319-365 | What the restart getter reads after a restart request is exactly what that request replied. |
| CheckController.CheckOnlineRoundTrip | controllers/checkController.js:197-302 | What the bros getter reads after a check-online save is what the save replied, and its `available` is never empty. |
| StatusLists.SmsStatusEntryFields | controllers/checkController.js:44-50 | An SMS status entry holds the child key as `smsId` and the uid, unless the record has its own, and all the record's other fields. |
| StatusLists.SimEntryFields | controllers/checkController.js:89-94 | A SIM entry holds `Number(slot)` as `simSlot` unless the record has its own, and all the record's other fields. |
| StatusLists.SmsStatusDataShape | controllers/checkController.js:123-131 | The SMS status list is sorted by `at` descending, is a permutation of the children's entries, and is empty when the node is absent. |
| StatusLists.SimForwardDataShape | controllers/checkController.js:163-171 | The SIM list is sorted by `updatedAt` descending, is a permutation of the slots' entries, and is empty when the node is absent. |
| StatusLists.SmsStatusChild | controllers/checkController.js:127-128 | Every child of the node appears in the SMS status list, under its own key unless the record carries `smsId`. |
| StatusLists.SimForwardChild | controllers/checkController.js:164-168 | Every slot of the node appears in the SIM list. |
| StatusLists.SmsStatusList | controllers/checkController.js:41-52 | The push-then-sort builder computes `SmsStatusData`. |
| StatusLists.SimForwardList | controllers/checkController.js:86-96 | The push-then-sort builder computes `SimForwardData`. |
| SmsLogs.SmsEntryFields | controllers/notificationController.js:20-24 | A message entry defaults `id` to the child key and `uniqueid` to the uid; the record's own fields of those names win. |
| SmsLogs.Normalize | controllers/notificationController.js:8 | A node that is null or not an object yields no messages. |
| SmsLogs.ChildEntriesCases | controllers/notificationController.js:11-35 | A child contributes nothing when not an object, itself when it looks like a message, and otherwise exactly its object-valued grandchildren. |
| SmsLogs.FlattenMembers | controllers/notificationController.js:10-37 | A message is in the flattened list exactly when it is a contribution of one of the children. |
| SmsLogs.PushChild | controllers/notificationController.js:11-35 | The outer callback appends exactly one child's contribution to the list. |
| SmsLogs.NormalizeList | controllers/notificationController.js:6-40 | The nested `forEach` loops compute `Normalize`. |
| SmsLogs.AllLogsMembers | controllers/notificationController.js:53-55 | A message is in the combined list exactly when it is a message of one device. |
| SmsLogs.ConcatLogs | controllers/notificationController.js:51-55 | The loop reassigning `final` computes the concatenation of every device's messages, in device order. |
| SmsLogs.AllSmsLogs | controllers/notificationController.js:45-66 | The reply is every device's messages, sorted by time descending, and `[]` when there are none. |
| SmsLogs.SmsByDevice | controllers/notificationController.js:71-90 | The reply is one device's messages, sorted by time descending. |
| SmsLogs.LatestSmsByDevice | controllers/notificationController.js:95-116 | The reply is null without messages; otherwise it is one of the device's messages whose time is not exceeded by any other. |
| Sorting.SortDesc | controllers/notificationController.js:57-59 | The sorted list is ordered by key descending and is a permutation of the input. |
| Sorting.SortDescHeadIsMax | controllers/notificationController.js:105-111 | The first element after sorting is an element of the input with the largest key. |
| Sorting.SortDescMembers | controllers/notificationController.js:57-59 | Sorting neither adds nor drops an element. |
| Lists.PushEntries | controllers/adminController.js:71-74 | The push loop yields one entry per field, in order. |
| Lists.PushSelected | controllers/notificationController.js:26-34 | The inner push loop appends the entries of the accepted fields, in order, to what the list already holds. |
| Lists.SelectMembers | controllers/notificationController.js:26-34 | An entry is pushed exactly when it is made from a field the filter accepts. |
| Lists.ConcatMembers | controllers/notificationController.js:53-55 | An element of a concatenation comes from one part, and every part's elements are in it. |
| Tree.UpdateMerges | server.js:434-438 | A realtime-database `update` with existing values assigns the given fields and keeps the node's other children. |
| Tree.MergeDocReads | controllers/adminController.js:33-36 | After a document-store `set` with `merge: true`, the document reads as the merge of the given fields (`null` and `{}` values kept) into its old fields, and paths that part ways are unchanged. |
| Tree.Db.MergeSet | controllers/adminController.js:33-36 | The merging `set` replaces the store by `MergeDoc` of the old store. |
| Serials.PostDeviceSerial | controllers/deviceSerialController.js:10-42 | A body with a falsy id, serialNo or time gets 400 and writes nothing; otherwise `deviceSerials/<id>` is overwritten with `{ serialNo, time, timestamp }`. |
| Serials.PostReadBack | controllers/deviceSerialController.js:21-27 | After a post the record holds exactly the client's serialNo and time and the post's timestamp. |
| Serials.PostKeepsOthers | controllers/deviceSerialController.js:27 | A post changes no other id's record, so serials are not checked for uniqueness. |
| Serials.DeviceById | controllers/deviceSerialController.js:47-77 | No id gives 400, an absent record 404, and otherwise 200 with the stored record. |
| Serials.LatestEntryTimestamp | controllers/deviceSerialController.js:133 | Each latest-listing entry's timestamp falls back from timestamp to time to 0. |
| Serials.AllDeviceSerials | controllers/deviceSerialController.js:82-109 | The reply is 200 and its `count` and `data` cover every stored serial record. |
| Serials.LatestDeviceSerials | controllers/deviceSerialController.js:116-141 | The reply is 200, `count` is the number of records, and `data` is a newest-first permutation of the records' entries. |
| Serials.AllDeviceSerialsShape | controllers/deviceSerialController.js:82-109 | There is one entry per stored id, `count` is their number, and an empty store gives 0 and `[]`. |
| Serials.LatestDeviceSerialsShape | controllers/deviceSerialController.js:116-141 | The newest-first listing is a permutation of all entries, sorted by the fallback timestamp, and `count` is its length. |
| Login.Login | routes/loginRouter.js:8-58 | A falsy password gets 400, and a password differing from the stored one gets 401, both with the store unchanged; otherwise the password is stored if none was, the session is written, and the active sessions are listed. |
| Login.LoginListsNewSession | routes/loginRouter.js:27-44 | After a login the new session is stored, active, and in the reply's list. |
| Login.StoredActiveListed | routes/loginRouter.js:38-44 | Every stored session with a truthy `isActive` is in a login's list. |
| Login.FirstLoginStoresPassword | routes/loginRouter.js:16-18 | With no stored password, the one given becomes the stored password. |
| Login.FirstPasswordDecides | routes/loginRouter.js:16-23 | After the first login with a string password, a later login passes exactly when it gives the same string. |
| Login.DeactivateAll | routes/loginRouter.js:68-71 | The update holds one `isActive: false` write per session, in order. |
| Login.Deactivations | routes/loginRouter.js:68-71 | The `forEach` filling `updates` computes `DeactivateAll`. |
| Login.Logout | routes/loginRouter.js:60-92 | With `allDevices` every session is deactivated; a missing, absent or inactive session gets 400 with the store unchanged; otherwise that one session is deactivated. |
| Login.LogoutAllEndsEverySession | routes/loginRouter.js:65-74 | After logging out of all devices, no session id of the admin is active, stored or not. |
| Login.LogoutAllClearsStored | routes/loginRouter.js:66-72 | Every stored session ends with `isActive` false. |
| Login.LogoutAllMissing | routes/loginRouter.js:69-72 | A session id that was not stored is not created. |
| Login.LogoutOneOnlyThatSession | routes/loginRouter.js:79-84 | A single logout flips that session's flag, keeps its other fields and leaves every other session as it was. |
| Login.ListSessions | routes/loginRouter.js:94-117 | The listing route replies with `ListedSessions`. |
| Login.ListedSessionsMembers | routes/loginRouter.js:101-108 | A session is listed exactly when its `isActive` is `true`, and every listed session is also in a login's list. |
| Login.TruthyButNotListed | routes/loginRouter.js:42-105 | A session stored with `isActive: 1` is in a login's list but not in the listing route's. |
| Auth.TokenOf | middlewares/authMiddleware.js:10-18 | No header gives no token; a token is never empty and holds no space. |
| Auth.TokenIsSecondPart | middlewares/authMiddleware.js:15 | A token is the second space-separated part of its header. |
| Auth.TokenPosition | middlewares/authMiddleware.js:15 | The token sits right after the header's first space and runs to the next space or the end. |
| Auth.NoSpaceNoToken | middlewares/authMiddleware.js:15-18 | A header without a space has no token. |
| Auth.BearerRoundTrip | middlewares/authMiddleware.js:15-18 | `"Bearer " + t` yields the token t. |
| Auth.Authenticate | middlewares/authMiddleware.js:4-35 | Only the path `/api` passes unchecked; then a missing token is denied as missing, an unverifiable one as invalid, and an absent or inactive session as expired; otherwise the token's claims are admitted. |
| Auth.AdmittedSessionActive | middlewares/authMiddleware.js:23-31 | An admitted request names a session that is stored and active. |
| Auth.LoginTokenAdmitted | middlewares/authMiddleware.js:20-31 | A token naming the session a login just created is admitted on every protected path. |
| Auth.LogoutAllLocksOut | middlewares/authMiddleware.js:23-26 | After logging out of all devices, every admin token is denied as expired. |
| Auth.LogoutOneLocksOutThatSession | middlewares/authMiddleware.js:23-26 | After a single logout, that session's token is denied and the verdict on every other admin session's token is unchanged. |
| Likes.UserOf | controllers/likeunlike.js:9 | The user is the request's userId when truthy, and "admin" otherwise. |
| Likes.LikeUnlike | controllers/likeunlike.js:6-65 | A falsy uid gets 400 and an unregistered device 404, with the likes untouched; otherwise an existing like is removed (`liked: false`) or the record is stored (`liked: true`). |
| Likes.ToggleFlips | controllers/likeunlike.js:30-56 | A toggle flips the presence of the like it targets. |
| Likes.ToggleTwice | controllers/likeunlike.js:30-56 | Two toggles by the same user restore the original presence. |
| Likes.ToggleOnlyThatLike | controllers/likeunlike.js:28-44 | A toggle leaves every path that parts ways with the like's path as it was. |
| Likes.LikePathDiverges | controllers/likeunlike.js:19-28 | A like's path parts ways with the registry and with every other user's like on the device. |
| Likes.ToggleKeepsDevice | controllers/likeunlike.js:19-44 | A toggle keeps the device registered, so a second toggle finds it. |
| Likes.DeviceLikes | controllers/likeunlike.js:67-110 | An empty uid gets 400; otherwise `totalLikes` is the number of likes and `likedByUser` whether the user's entry is truthy, 0 and false without likes. |
| Likes.ToggleFlipsLikedBy | controllers/likeunlike.js:28-94 | After a toggle the like listing reports the user as liking the device exactly when they did not before. |
| Likes.LikeAddsOne | controllers/likeunlike.js:44-88 | Liking a device the user had no entry for raises `totalLikes` by one. |
| DeleteDevice.DeviceName | controllers/deleteDevice.js:33 | The reported name is deviceName, else model, else brand, else "Unknown", and is never falsy. |
| DeleteDevice.Delete | controllers/deleteDevice.js:9-75 | An empty uid gets 400 and an unregistered device 404, with nothing removed or emitted; otherwise the cascade runs, deviceDeleted is emitted when sockets are attached, and the reply names the device. |
| DeleteDevice.CascadeIsRemoveAll | controllers/deleteDevice.js:36-44 | The cascade removes the five paths in issue order; they are disjoint, so running them together gives the same store. |
| DeleteDevice.CascadeRemoves | controllers/deleteDevice.js:36-44 | After the cascade the device is gone from all five tables. |
| DeleteDevice.CascadeKeepsOthers | controllers/deleteDevice.js:36-42 | Every path that parts ways with the five removed paths reads as before. |
| DeleteDevice.CascadeKeepsOtherDevices | controllers/deleteDevice.js:36-42 | Other devices' entries in the five tables are left as they were. |
| DeleteDevice.CascadeKeepsRelayAndCheck | controllers/deleteDevice.js:3-7 | The queued commands under `commandCenter/deviceCommands/<uid>` and the record under `checkOnline/<uid>` survive the delete. |
| Commands.CommandDataFields | controllers/commandController.js:13-22 | commandData always has action, simSlot and timestamp; it has `to` and `body` exactly for "sms" and `code` exactly for "call" or "ussd", copied from the request. |
| Commands.LogEntryFields | controllers/commandController.js:28-31 | The log entry carries the device id next to a copy of every command field. |
| Commands.HandleDeviceCommand | controllers/commandController.js:5-46 | A falsy uniqueid or action is refused and nothing is written; a body the store rejects (a non-string id, an `undefined` copied field, a nested array) gets 500 with nothing written; otherwise the command document is overwritten and one log document added. |
| Commands.AcceptedCommandStored | controllers/commandController.js:25-31 | After an accepted command the device's document is exactly commandData, the log document is its copy with the id, and other devices' commands are unchanged. |
| Admin.AdminNumber | controllers/adminController.js:6-26 | The reply is the stored document, or `{ number: "Inactive", status: "OFF" }` when there is none. |
| Admin.SetAdminNumber | controllers/adminController.js:27-53 | A body the store refuses (an `undefined` field, a nested array) gets 500 with nothing written; otherwise the three fields are merged, then adminUpdate is emitted and echoed, or 500 is returned when sockets are not attached. |
| Admin.SetThenGet | controllers/adminController.js:29-36 | The merge sets number, status and updatedAt for every body, keeping a `null` or `{}` value as a present field, forces "Inactive" for status "OFF", keeps the document's other fields, and the next read returns it. |
| Admin.AllDevices | controllers/adminController.js:55-86 | An empty collection gets `[]` without `count`; otherwise one entry per document, and `count` is their number. |
| Admin.AllDevicesShape | controllers/adminController.js:71-80 | Entry i is `{ id, ...data }` of document i: its id unless the data has one, and all its fields. |

## Left out

- **Transport and I/O.** The realtime database, the document store, FCM and
  Socket.IO are not modelled as I/O. They are the JSON trees and the output
  log described above. Console logging is dropped.
- **Async interleaving.** Interleaving across `await` points, `Promise.all`
  and unawaited calls (`refreshDevicesLive`, `sendFcmHighPriority`) is not
  modelled. Each handler runs to completion in the order its statements are
  written.
- **Store failures.** They are modelled only where the core observes them: a
  failed list build in `refreshDevicesLive` and in the connection handler.
  Every other `catch` that answers 500 is not modelled.
- **Other listeners.** The admin broadcast listener at
  `commandCenter/admin/main` (server.js:368-387) is not modelled, nor is the
  replay of `child_added` for existing children when a listener is attached.
- **Other files.** `userFullDataController.js`, the route tables and
  `config/db.js` are not part of this model. `config/db.js` exports no
  `rtdb`, although `server.js`, the guard, the login router and every
  controller except `commandController.js` and `adminController.js` import
  it.
- **Opaque values.** JWT signing and verification, `uuidv4`, `Date.now()`,
  `new Date()` and its string form are parameters. A presence record's
  `lastSeen` and `timestamp` come from two `Date.now()` calls
  (server.js:150-151, 165-166) that may differ by a millisecond; the model
  gives both the same `now`. A store error inside the
  guard's `try` is not modelled; it would also answer "Invalid token".
- **Numbers.** Numbers are integers. Floating point, `NaN` and `Infinity` are
  not modelled. A sort key that is not a number counts as 0, whereas the
  source compares with `NaN` and leaves such an order to the engine.
  `Number()` of a string accepts only a signed decimal integer or blank text.
  Exponent, fractional, hexadecimal, binary and octal forms become `NaN`, as
  does every array; JavaScript gives `Number("1e3") = 1000`,
  `Number("0x10") = 16`, `Number([5]) = 5` and `Number([]) = 0`. A record
  whose `checkedAt` is such a string is therefore inactive in `IsActive`,
  where the source may find it active. `Null` stands for `undefined` here, so
  its `Number()` is `NaN`.
- **Key order.** Keys are kept in insertion order, and that order stands for
  the store's listing order (by key), so the "last" command key that
  `ExtractCommand` takes is the store's largest key. JavaScript's enumeration
  order for integer-like keys is not modelled. Arrays and strings have no
  entries for `Object.entries`, and spreading a string or an array adds no
  fields, where JavaScript adds one field per index.
- **Path segments.** An id is always one path segment. The SDK splits a path
  on `/` and drops empty segments, so an id that contains `/` or is empty
  addresses a different node; the model does not do this.
- **Empty-value pruning.** The realtime database does not store empty arrays,
  empty objects or objects whose leaves are all `null`. A value written with
  `set` is kept as given in the model, so a read-back returns such parts
  where the database would return nothing or a pruned value.
- **Document store corners.** A merging `set` keeps `null` and `{}` fields
  (`Tree.MergeDoc`), and a plain `set` stores its value as given. An empty
  document is treated as absent. Validity of document
  ids and field names, and size limits, are not checked. A merging `set`
  (`{ merge: true }`) replaces each given field whole, whereas the document
  store merges a nested map into a stored map key by key.
- Admin.SetThenGet: when the stored and the given number (or status) are both
  maps, the document store merges them, so the read-back is not the given
  value; the lemma states the replace-whole field merge of `Tree.MergeDoc`.
- Admin.SetAdminNumber: the merge (`Tree.MergeDoc`) replaces `number` and
  `status` whole instead of merging nested maps; the refusals modelled are `undefined` and nested arrays
  only.
- Commands.HandleDeviceCommand: the refusals modelled are a non-string id,
  `undefined` fields and nested arrays only. Other document-store validity
  rules are not modelled.
- CheckController.CheckOnlineRoundTrip: the record is stored as given, so the
  lemma holds in the model only. When `available` (or another field) is an
  empty array, an empty object or an object of `null`s, the realtime
  database prunes it and the later read differs from the save's reply.
- Serials.PostReadBack: `serialNo` and `time` are stored as given. When the
  client sends an empty array, an empty object or an object of `null`s, the
  realtime database prunes that field and the read-back lacks it.
- Login.FirstLoginStoresPassword: the password is stored as given. A password
  that is an empty array or an object of `null`s is pruned by the realtime
  database, so every later login is again a first login; the model stores it,
  and a later login is then refused with 401 because `!==` compares by
  identity.
- Fleet.Server.BrosReplyRoute: a uid that cleans to `""` (such as `" "`) makes
  the SDK address `checkOnline` itself, so the route would read and watch the
  whole table. The model reads and watches the child keyed `""`.
- Fleet.Server.SmsStatusRoute: the same for a uid that cleans to `""`: the SDK
  would read and watch the whole `commandCenter/smsStatus` table.
- Fleet.Clean: `toUpperCase` is modelled on ASCII letters only and `trim` on
  the Latin-1 and common Unicode white space.
- CheckController.SavedRecordActive: `toLowerCase` is modelled on ASCII letters
  only.
- Sorting.SortDesc: it is an insertion sort that is stable. Stability is not
  stated in its contract, and the engine's `Array.prototype.sort` is not
  modelled.
- Likes.DeviceLikes: `Object.keys(likesData).length` is the number of
  children of the likes node. The case of a node that is not an object is not
  modelled.
- **Reply messages.** Reply texts are the literal strings of the source.
  `err.message` in 500 replies is not modelled.
