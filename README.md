# Logistics booking server: route handlers over the entity store

This project models the server side of a logistics booking system: the HTTP
route handlers of `server/routes.ts`. A logistics provider offers a capacity
"space" (identified by a unique `tokenId`). A user books it with a shipment,
which marks the space `"booked"`. The user pays with one transaction per
shipment, which marks the shipment `"confirmed"`. A blockchain hash later
completes the transaction. Carrier tracking events are appended to a log, and
a `"pickup"` or `"delivered"` event moves the shipment to `"in_transit"` or
`"delivered"`. Users register with a unique username, email and wallet
address, and log in by wallet or by username and password.

Structure:

- `wrappers.dfy` (`Wrappers`): `Option` and `Result`.
- `schema.dfy` (`Schema`): the five records, the validated request bodies
  (`NewUser`, `NewSpace`, …) with the record each becomes once stored
  (`Stored(id)`), the login/register response view without the password, and
  the status strings the handlers write.
- `store.dfy` (`Store`): class `Storage`, the store the routes call. It has one
  `map` per table, keyed by id, a `seq` event log and one id counter per
  table. Its methods are the store operations the routes use. Creating a
  record allocates the table's counter as a fresh id. A lookup returns an
  `Option`. An `update…Status` returns `None` for an absent id and otherwise
  writes the field verbatim. `WellFormed()` is the store's own invariant: keys
  equal record ids, ids are below the counters, and log ids increase. The
  module also defines `Consistent(Tables)`, the cross-entity rules, and
  `EventsFor`, the log read through one shipment.
- `rules.dfy` (`Rules`): lemmas about each kind of write a handler performs
  after its checks pass. They show that the write keeps `Consistent`, and
  that the uniqueness checks are exactly what uniqueness needs ("iff" lemmas).
- `routes.dfy` (`Routes`): one method per route. Every writing handler assumes
  and re-establishes `Valid(storage)` (`WellFormed` plus `Consistent`).
  `Login`, `GetTransactionByShipment` and `ListTrackingEvents` assume it. The
  other readers need nothing of the store. Each handler's
  contract states the exact error response for each failed check, in the
  source's order, with "nothing changed" on every error path. On success it
  states the whole new store as an update of the old one.
- `scenario.dfy` (`Scenario`): client methods that book, pay for, deliver and
  list the history of a shipment, reasoning from the handler contracts and the
  lemmas about `Store.EventsFor`.

Conventions:

- An error response is `HttpError(status, message)`, where status is
  `BadRequest` (400), `Unauthorized` (401) or `NotFound` (404). The message
  is the route's own string.
- A request field that the JavaScript tests for truthiness (wallet address,
  username, password, status, hash) is a `string` in the model, with `""`
  meaning absent or empty. A query user id is `Option<nat>`, and `0` counts as
  absent, as `if (userId)` does.
- Statuses are free strings, as in the source. `PATCH` writes any non-empty
  value.

Facts about the code that the model keeps as they are:

- The code enforces no order on shipment statuses.
  `PATCH /api/shipments/:id/status` writes any non-empty string
  (server/routes.ts:253-266). A `"pickup"` event after `"delivered"` moves the
  shipment back to `"in_transit"` (server/routes.ts:392-393);
  `Scenario.TrackingScenario` shows it.
- A missing space in `POST /api/shipments` is a 400 response
  (server/routes.ts:225-227). So is a missing shipment in
  `POST /api/transactions` (server/routes.ts:312-314) and in
  `POST /api/tracking` (server/routes.ts:385-387).
- No route writes `"partial"` by itself. Only `PATCH /api/spaces/:id/status`
  (server/routes.ts:167-173) stores it, when a client sends it.

## Model

| member | source | states |
|---|---|---|
| `Routes.Login` | server/routes.ts:19-50 | With a wallet address: succeeds exactly when a user has that wallet, returning that user's view; otherwise 401 "Invalid wallet address". Without one: 400 when username or password is empty. Otherwise succeeds exactly when the stored user with that username has that password, returning that user's view; else 401. Reads the store only. |
| `Routes.Register` | server/routes.ts:59-89 | Checks username, then email, then (only if given) wallet, and fails with the matching 400 message and no change on the first one taken. Succeeds exactly when none is taken. It then adds exactly one user under a fresh id, returns its password-free view, and keeps uniqueness. |
| `Routes.ListSpaces` | server/routes.ts:103-118 | With source and destination both non-empty: exactly the spaces the search matches for them. Else, with a non-zero user id: exactly that user's spaces. Else: exactly the spaces the search matches for two empty strings. |
| `Routes.GetSpace` | server/routes.ts:128-135 | Returns the stored space for the id, or 404 "Logistics space not found". |
| `Routes.CreateSpace` | server/routes.ts:144-153 | An existing token id gives 400 "Token ID already exists" and no change. Otherwise adds exactly one "available" space under a fresh id, changes nothing else, and keeps token ids unique. |
| `Routes.UpdateSpaceStatus` | server/routes.ts:166-179 | An empty status gives 400 before any lookup. An absent space gives 404. Both leave the store unchanged. Otherwise only that space's status changes, to the given string verbatim. |
| `Routes.ListShipments` | server/routes.ts:189-196 | A missing or zero user id gives 400 "User ID is required". Otherwise returns exactly the shipments of that user. |
| `Routes.GetShipment` | server/routes.ts:205-212 | Returns the stored shipment for the id, or 404 "Shipment not found". |
| `Routes.CreateShipment` | server/routes.ts:221-240 | An absent space, or a space whose status is "booked", gives the matching 400 and changes nothing. Otherwise adds exactly one "pending" shipment under a fresh id and sets that space, and no other, to "booked". Users, transactions and events are untouched. |
| `Routes.UpdateShipmentStatus` | server/routes.ts:253-266 | An empty status gives 400 before any lookup. An absent shipment gives 404. Both leave the store unchanged. Otherwise only that shipment's status changes, to the given string verbatim. |
| `Routes.GetTransaction` | server/routes.ts:276-283 | Returns the stored transaction for the id, or 404 "Transaction not found". |
| `Routes.GetTransactionByShipment` | server/routes.ts:292-299 | 404 when the shipment has no transaction. Otherwise returns the transaction of that shipment, which is the only one. |
| `Routes.CreateTransaction` | server/routes.ts:308-327 | An absent shipment, or a shipment that already has a transaction, gives the matching 400 and changes nothing. Otherwise adds exactly one "pending" transaction without hash under a fresh id and sets that shipment to "confirmed". Keeps one transaction per shipment. |
| `Routes.ConfirmTransaction` | server/routes.ts:340-353 | An empty hash gives 400 before any lookup. An unknown id gives 404. Both leave the store unchanged. Otherwise only that transaction changes: status "completed", hash stored. No shipment is touched. |
| `Routes.ListTrackingEvents` | server/routes.ts:363-372 | An absent shipment gives 404. Otherwise returns exactly the logged events of that shipment, possibly none, in log order, with increasing ids. |
| `Routes.AppendTrackingEvent` | server/routes.ts:381-398 | An absent shipment gives 400 and no change. Otherwise appends exactly one event to the log. Then "pickup" sets the shipment to "in_transit", "delivered" sets it to "delivered", and any other event type leaves every shipment unchanged. |
| `Store.Storage.GetUserByUsername` | server/routes.ts:62 | Returns a stored user with that username, and None exactly when no user has it. |
| `Store.Storage.GetUserByEmail` | server/routes.ts:67 | Returns a stored user with that email, and None exactly when no user has it. |
| `Store.Storage.GetUserByWalletAddress` | server/routes.ts:73 | Returns a stored user with that wallet address, and None exactly when no user has it. |
| `Store.Storage.CreateUser` | server/routes.ts:79 | Stores the user under the next fresh id and changes no other record. |
| `Store.Storage.GetLogisticsSpace` | server/routes.ts:129 | Some exactly when the id is stored, carrying that space. |
| `Store.Storage.GetLogisticsSpaceByTokenId` | server/routes.ts:147 | Returns a stored space with that token id, and None exactly when no space has it. |
| `Store.Storage.GetLogisticsSpacesByUserId` | server/routes.ts:112 | Exactly the stored spaces owned by the user. |
| `Store.Storage.SearchLogisticsSpaces` | server/routes.ts:106 | Exactly the stored spaces the (hidden) match accepts for source and destination. |
| `Store.Storage.CreateLogisticsSpace` | server/routes.ts:152 | Stores the space, status "available", under the next fresh id and changes no other record. |
| `Store.Storage.UpdateLogisticsSpaceStatus` | server/routes.ts:173 | None and no change for an absent id. Otherwise only that space's status is set, verbatim. |
| `Store.Storage.GetShipment` | server/routes.ts:206 | Some exactly when the id is stored, carrying that shipment. |
| `Store.Storage.GetShipmentsByUserId` | server/routes.ts:195 | Exactly the stored shipments of the user. |
| `Store.Storage.CreateShipment` | server/routes.ts:234 | Stores the shipment, status "pending", under the next fresh id and changes no other record. |
| `Store.Storage.UpdateShipmentStatus` | server/routes.ts:260 | None and no change for an absent id. Otherwise only that shipment's status is set, verbatim. |
| `Store.Storage.GetTransaction` | server/routes.ts:277 | Some exactly when the id is stored, carrying that transaction. |
| `Store.Storage.GetTransactionByShipmentId` | server/routes.ts:293 | Returns a stored transaction of that shipment, and None exactly when it has none. |
| `Store.Storage.CreateTransaction` | server/routes.ts:322 | Stores the transaction, "pending" with no hash, under the next fresh id and changes no other record. |
| `Store.Storage.UpdateTransactionStatus` | server/routes.ts:347 | None and no change for an absent id. Otherwise sets only that transaction's status and hash. |
| `Store.Storage.GetTrackingEventsByShipmentId` | server/routes.ts:371 | Exactly the logged events of the shipment, in log order, with increasing ids. |
| `Store.Storage.CreateTrackingEvent` | server/routes.ts:389 | Appends one event under the next fresh id and changes nothing else in the log. |
| `Store.EventsFor` | server/routes.ts:371 | The filtered view holds an event exactly when that event is in the log and belongs to the shipment, and is no longer than the log. |
| `Store.EventsForAppend` | server/routes.ts:389 | Appending one event extends its own shipment's history by exactly that event, at the end, and leaves every other shipment's history unchanged. |
| `Store.EventsForIncreasing` | server/routes.ts:371 | If log ids increase along the log, they increase along every shipment's history: events come back in creation order. |
| `Rules.AddUserUniqueIff` | server/routes.ts:61-79 | Adding a user keeps usernames, emails and present wallets unique exactly when the username is unused, the email is unused and, if a wallet is given, the wallet is unused. |
| `Rules.AddSpaceUniqueIff` | server/routes.ts:146-152 | Adding a space keeps token ids unique exactly when its token id is unused. |
| `Rules.AddTransactionUniqueIff` | server/routes.ts:316-322 | Adding a transaction keeps "at most one per shipment" exactly when its shipment has none yet. |
| `Rules.RegisterKeepsConsistent` | server/routes.ts:61-79 | A registration that passed its three checks keeps every cross-entity rule. |
| `Rules.CreateSpaceKeepsConsistent` | server/routes.ts:146-152 | A space creation that passed the token id check keeps every cross-entity rule. |
| `Rules.SpaceStatusKeepsConsistent` | server/routes.ts:173 | Writing any status to an existing space keeps every cross-entity rule. |
| `Rules.BookingKeepsConsistent` | server/routes.ts:224-238 | A shipment against an existing space, with that space set to "booked", keeps every cross-entity rule. |
| `Rules.ShipmentStatusKeepsConsistent` | server/routes.ts:260 | Writing any status to an existing shipment keeps every cross-entity rule. |
| `Rules.SettlementKeepsConsistent` | server/routes.ts:311-325 | A transaction for an existing shipment without one, with that shipment set to "confirmed", keeps every cross-entity rule. |
| `Rules.ConfirmKeepsConsistent` | server/routes.ts:347 | Completing an existing transaction with a hash keeps every cross-entity rule. |
| `Rules.AppendEventKeepsConsistent` | server/routes.ts:384-389 | Appending an event for an existing shipment keeps every cross-entity rule. |

## Left out

- HTTP plumbing is not modelled: `registerRoutes`, `createServer`, request and response objects, JSON encoding and `console.error`. The generic 500 responses of the catch blocks are left out too. The success codes (200 for reads, 201 for creations) are not part of the result values.
- Request validation by the shared schemas (`insert*Schema.parse`, `fromZodError`) and its 400 responses are not modelled. The shared schema module is not part of this model. Handlers receive already-validated bodies (`NewUser`, `NewSpace`, …).
- `parseInt` of path and query strings is not modelled, and ids are taken as numbers. The NaN case of `if (userId)` is therefore left out; only the zero case is modelled.
- The source's `server/storage` implementation is not available, so `Store.Storage` models it abstractly. Secondary-key lookups are assumed to compare exactly. Lookups assume nothing about which match they return. One id counter per table, starting at 1, stands for id allocation.
- Initial statuses ("available" for spaces, "pending" for shipments and transactions) are store defaults, because the routes never set them.
- The matching rule of the route search (`searchLogisticsSpaces`) is hidden, so it is a function parameter and nothing is proved about what it matches.
- Routes.ListSpaces: returns a set, not a JSON array in store order, because the store's iteration order is hidden.
- Routes.ListShipments: returns a set, not a JSON array in store order, because the store's iteration order is hidden.
- Store.Storage.GetShipmentsByUserId: returns a set, because the store's iteration order is hidden.
- Store.Storage.GetTrackingEventsByShipmentId: the store is assumed to return a shipment's events in creation (log) order. The order of `storage.getTrackingEventsByShipmentId` is not visible in server/routes.ts:371. The increasing-id claims of `Routes.ListTrackingEvents` rest on this assumption.
- The clock is not modelled. An event's timestamp is part of the request body given to the handler.
- Concurrency is not modelled. The `async`/`await` interleavings are absent: each handler runs atomically and in sequence, so the two writes of a booking or a settlement are never seen half-done.
- Shipment status monotonicity is not proved, because the source does not enforce it.
- The client code (React views, the auth hook, the OAuth wrapper, the map widget) is not modelled. It only renders or calls these routes.
