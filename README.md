# Presence registry and message relay of the Bazario API server

This project models the real-time core of `server.js` in Dafny. That core is the shared state behind the Socket.IO channel:

- two ordered presence lists, `allCustomer` and `allSeller`. Their entries carry a participant id (under the key `customerId` or `sellerId`), a socket id and a profile;
- the single `admin` slot, which starts as `{}`;
- the helpers that update the lists and the slot: `addUser`, `addSeller`, `remove` and `removeAdmin`;
- the lookups `findCustomer` and `findSeller`;
- the per-connection event handlers: `add_user`, `add_seller`, `add_admin`, the four `send_*` relays and `disconnect`.

The origin check given to the CORS middleware is modelled as well.

Files:

- `wrappers.dfy`: `Option`, which stands in for JavaScript's `undefined`.
- `registry.dfy` (module `Registry`): the pure parts, as functions on values.
  - The duplicate check `.some` is `Contains`.
  - The lookup `.find` is `Find`, which returns the first match.
  - The list update of `addUser`/`addSeller` is `Added`.
  - The filter of `remove` is `Without`.
  - The admin slot's `socketId` test is `AdminTarget`.
  - The admin object stored by `add_admin` is `RegisteredAdmin`.
  - One `Entry` type serves both lists. Its `id` field stands for `customerId` in the customer list and `sellerId` in the seller list. A broadcast list's key name follows from its event name: `activeCustomer` or `activeSeller`.
  - The lemmas state what these functions promise: duplicate suppression, first registration wins, order-preserving removal, idempotence, the distinct-id invariant, and unique lookup.
  - `Contains`, `Added` and `AdminAfterRemove` have no contract of their own. Their properties are stated by the lemmas in their rows below: `Find`, the `Add…` lemmas and `AdminRemoval`.
- `server.dfy` (module `Server`): class `Hub`.
  - Its fields are the three globals.
  - Its methods are the helpers and the handlers.
  - Each handler returns what it emits, in emission order, as a `seq<Outbound>`. An `Outbound` is either `Broadcast(event, body)` (`io.emit`) or `SendTo(socketId, event, body)` (`soc.to(id).emit`).
  - The `Valid()` invariant says that no id appears twice in either list, and that the admin slot is `{}` or carries a `socketId`. Every mutating method keeps it.
- `cors.dfy` (module `Cors`): the allowed-origin list and the origin callback.
- `scenarios.dfy` (module `Scenarios`): client methods that use the handlers' contracts and the registry lemmas. Each starts from an empty registry and replays one end-to-end scenario:
  1. a customer writes to a seller;
  2. a seller writes to an absent admin;
  3. admin registration strips `email`;
  4. a duplicate seller registration keeps the first connection;
  5. a seller disconnects.

Modelling choices:

- Participant ids and socket ids are strings.
- `userInfo`, `adminInfo` and relayed messages are `map<string, string>`. So dropping the admin's email is key removal, and adding its socket id is a map update.
- The admin slot is kept as the JavaScript object itself. `{}` is the empty map.
- `admin.socketId` is truthy exactly when the key is present and its value is not the empty string.
- `msg.receverId` is `None` when the key is missing. Since every registered id is a string, a missing receiver matches no entry. `Server.ReceiverId` is this plain encoding; its effect on delivery is stated by `Server.Relay`.
- `Registry.AdminTarget` encodes this truthiness test as an `Option`. `Registry.AdminLifecycle` states how the result changes as the admin registers and disconnects.
- `Cors.Mode`, `Cors.AllowedOrigins` and `Cors.CheckOrigin` are plain definitions of the mode default, the origin list and the callback. A refusal carries the message "Not allowed by CORS". What they allow together is stated by `Cors.NonBrowserOrigin`, `Cors.DefaultModeOrigins`, `Cors.DevOrigins` and `Cors.ProOrigins`. `Cors.RefusalMessage` states the refusal message.

The handlers have quirks; the model keeps them as written:

- Not every registration broadcasts all three notifications.
  - `add_user` does not emit `activeAdmin`.
  - `add_admin` does not re-broadcast the customer list.
  - `add_seller` emits `activeAdmin {status: true}` whether or not an admin is registered.
- `disconnect` always emits `activeAdmin {status: false}`, even when the closing socket was not the admin's.
- `send_message_seller_to_admin` delivers when `admin.socketId` is truthy, not merely when the slot is non-empty.

## Model

| member | source | states |
|---|---|---|
| Registry.Find | server.js:63-64 | the result is undefined iff the `.some` check (`Contains`) fails; otherwise it carries the id and is the first entry that does |
| Registry.Without | server.js:66-69 | an entry survives the filter iff it was in the list and its socket id differs from the removed one; the list never grows |
| Registry.AdminLifecycle | server.js:71-75 | the empty slot reaches nobody; after `add_admin` on a non-empty socket id the admin is reachable at that socket (server.js:95-96, 123); after `removeAdmin` of a socket id the admin is no longer reachable there |
| Registry.RegisteredAdmin | server.js:95-96 | the stored admin has no `email`, has `socketId` equal to the registering connection, and keeps every other key of the profile with its value |
| Registry.FindAppend | server.js:51-64 | after appending an entry, a lookup still finds the earlier entry if there was one, else the appended entry if it carries the id, else nothing |
| Registry.AddNewId | server.js:51-61 | under `Added` (the list update of addUser/addSeller), an id not yet present is appended at the end, and looking it up then yields the new entry |
| Registry.AddDuplicateId | server.js:51-61 | under `Added`, registering an id already present leaves the list unchanged, so the lookup still yields the first socket id |
| Registry.AddOtherId | server.js:51-64 | under `Added`, registering one id does not change what any other id resolves to |
| Registry.AddKeepsDistinct | server.js:51-61 | `Added` keeps the ids in the list pairwise distinct |
| Registry.WithoutContains | server.js:66-69 | every id left after removal was present before |
| Registry.WithoutConcat | server.js:66-69 | removal distributes over concatenation, so the surviving entries keep their original order |
| Registry.WithoutSingle | server.js:67-68 | a single entry is dropped iff its socket id is the removed one |
| Registry.WithoutAbsent | server.js:66-69 | removing a socket id that no entry carries leaves the list unchanged |
| Registry.WithoutIdempotent | server.js:66-69 | removing the same socket id twice is the same as removing it once |
| Registry.DistinctTail | server.js:63-69 | dropping the first entry keeps ids distinct, and the first entry's id no longer occurs |
| Registry.DistinctCons | server.js:66-69 | putting an entry whose id is absent in front of a distinct list keeps it distinct |
| Registry.WithoutKeepsDistinct | server.js:66-69 | removal keeps the ids in the list pairwise distinct |
| Registry.FindUnique | server.js:63-64 | with distinct ids, looking up any entry's id yields exactly that entry |
| Registry.RemovedIdIsGone | server.js:66-69 | with distinct ids, after removing a socket, the id that was registered on it cannot be found |
| Registry.AdminRemoval | server.js:71-75 | `AdminAfterRemove`, the slot after removeAdmin, is empty iff the slot was empty or held the given socket id; otherwise it is unchanged; a second removal changes nothing |
| Server.Relay | server.js:101-120 | at most one emission; it happens iff some entry has the receiver id; it is a `SendTo` addressed to the socket of the first such entry, with the message unchanged |
| Server.RelayedToUnique | server.js:101-120 | with distinct ids, the one relayed message goes to the socket of the entry that has the receiver id, and nowhere else |
| Server.Hub.constructor | server.js:47-49 | the registry starts with two empty lists and the empty admin object |
| Server.Hub.AddUser | server.js:51-55 | the customer list becomes the duplicate-suppressed append, the sellers and the admin are unchanged, and the invariant holds |
| Server.Hub.AddSeller | server.js:57-61 | the seller list becomes the duplicate-suppressed append, the customers and the admin are unchanged, and the invariant holds |
| Server.Hub.Remove | server.js:66-69 | both lists are filtered by socket id, no remaining entry has that socket, the admin is untouched, and the invariant holds |
| Server.Hub.RemoveAdmin | server.js:71-75 | the slot is emptied iff it held the socket id; otherwise it and both lists are unchanged |
| Server.Hub.OnAddUser | server.js:81-85 | registers the customer on this connection, then broadcasts `activeSeller` and `activeCustomer` with the post-update lists, in that order |
| Server.Hub.OnAddSeller | server.js:87-92 | registers the seller, then broadcasts `activeSeller`, `activeCustomer` (post-update lists) and `activeAdmin {status: true}`, in that order |
| Server.Hub.OnAddAdmin | server.js:94-99 | the slot is replaced unconditionally by the email-stripped profile carrying this connection's socket id; the lists are unchanged; emits `activeSeller`, then `activeAdmin {status: true}` |
| Server.Hub.OnSendSellerMessage | server.js:101-106 | relays `seller_message` by the customer lookup, at most once, unchanged, only when the receiver is connected |
| Server.Hub.OnSendCustomerMessage | server.js:108-113 | relays `customer_message` by the seller lookup, at most once, unchanged, only when the receiver is connected |
| Server.Hub.OnSendMessageAdminToSeller | server.js:115-120 | relays `receved_admin_message` by the seller lookup, at most once, unchanged, only when the receiver is connected |
| Server.Hub.OnSendMessageSellerToAdmin | server.js:122-126 | sends `receved_seller_message` to the admin's socket, unchanged, iff `admin.socketId` is truthy; nothing otherwise |
| Server.Hub.OnDisconnect | server.js:128-135 | the socket is removed from both lists and from the admin slot, and no trace of it is left; then emits `activeAdmin {status: false}`, `activeSeller`, `activeCustomer` with the post-removal lists |
| Cors.DefaultModeOrigins | server.js:12-24 | an unset or empty `mode` variable means "dev": only localhost:3000 and localhost:3001 are listed, whatever the production URLs are |
| Cors.NonBrowserOrigin | server.js:29 | a request with no origin (a non-browser client) is allowed, whatever the list of allowed origins |
| Cors.RefusalMessage | server.js:30-33 | every refused origin gets the error "Not allowed by CORS" |
| Cors.DevOrigins | server.js:15-34 | outside "pro" mode, a browser origin passes iff it is one of the two local front ends |
| Cors.ProOrigins | server.js:15-34 | in "pro" mode, a browser origin passes iff it is localhost:3000 or equals a configured production URL |

## Left out

- The Express application, body and cookie parsers, route mounting and the HTTP listener (server.js:1-11, 138-161) are framework plumbing. The route files they load are not part of this model.
- The CORS options given to Socket.IO (server.js:39-44) are left out, because the matching happens inside Socket.IO. So is `credentials: true`.
- Socket.IO delivery is left out. Emissions are returned as records and never delivered. Connection acceptance and socket-id assignment are outside the model: a handler is given its connection's id as a parameter.
- `soc.to(id).emit` in Socket.IO skips the sending socket even when it owns room `id`. So a participant who messages their own id receives nothing. The model records the `SendTo` regardless, because this rule belongs to the transport.
- The `console.log` calls (server.js:79, 129) and `utiles/db.js` are I/O. The database connection is a foreign collaborator with no logic here.
- Payloads that are not JSON objects of strings are not modelled. Examples: a non-string id, or a missing `adminInfo`, where `delete` would throw. All profile and message values are strings.
- Concurrency is not modelled. Node's event loop runs one handler at a time, so the model is a sequence of method calls.
- The per-connection states (unregistered, registered, closed) are not modelled. The source tracks no state per connection: any event is accepted on any socket, and disconnect cleans up both lists and the slot unconditionally.
