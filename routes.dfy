/**
 * The HTTP route handlers of the logistics server, one method per route.
 * Each handler reads the store, returns an error response on the first
 * failed check, and otherwise writes the store step by step. A handler's
 * result is either the response body or an HttpError carrying the status
 * code and message the route sends.
 */
module Routes {
  import opened Wrappers
  import opened Schema
  import opened Store
  import opened Rules

  /** The error statuses the routes send: 400, 401 and 404. */
  datatype HttpStatus = BadRequest | Unauthorized | NotFound

  datatype HttpError = HttpError(status: HttpStatus, message: string)

  type Response<T> = Result<T, HttpError>

  /** The state every handler may assume and must leave behind. */
  ghost predicate Valid(storage: Storage)
    reads storage
  {
    storage.WellFormed() && Consistent(storage.Snapshot())
  }

  /** Some stored user has this username and this password. */
  predicate PasswordMatches(users: map<nat, User>, username: string, password: string) {
    exists id | id in users :: users[id].username == username && users[id].password == password
  }

  // POST /api/auth/login

  /**
   * Logs in by wallet address when one is given, otherwise by username and
   * password. The store is not changed.
   */
  method Login(storage: Storage, username: string, password: string, walletAddress: string)
    returns (r: Response<UserView>)
    requires Valid(storage)
    ensures walletAddress != "" && WalletTaken(storage.users, walletAddress) ==>
      r.Ok? && exists id | id in storage.users ::
        storage.users[id].walletAddress == walletAddress && r.value == View(storage.users[id])
    ensures walletAddress != "" && !WalletTaken(storage.users, walletAddress) ==>
      r == Err(HttpError(Unauthorized, "Invalid wallet address"))
    ensures walletAddress == "" && (username == "" || password == "") ==>
      r == Err(HttpError(BadRequest, "Username and password are required"))
    ensures walletAddress == "" && username != "" && password != "" &&
            PasswordMatches(storage.users, username, password) ==>
      r.Ok? && exists id | id in storage.users ::
        && storage.users[id].username == username && storage.users[id].password == password
        && r.value == View(storage.users[id])
    ensures walletAddress == "" && username != "" && password != "" &&
            !PasswordMatches(storage.users, username, password) ==>
      r == Err(HttpError(Unauthorized, "Invalid username or password"))
  {
    if walletAddress != "" {
      var user := storage.GetUserByWalletAddress(walletAddress);
      if user.None? {
        return Err(HttpError(Unauthorized, "Invalid wallet address"));
      }
      r := Ok(View(user.value));
    } else {
      if username == "" || password == "" {
        return Err(HttpError(BadRequest, "Username and password are required"));
      }
      var user := storage.GetUserByUsername(username);
      if user.Some? {
        // Usernames are unique, so the user found is the only one with this username.
        ghost var k :| k in storage.users && storage.users[k] == user.value;
        assert forall id | id in storage.users && storage.users[id].username == username :: id == k;
      }
      if user.None? || user.value.password != password {
        return Err(HttpError(Unauthorized, "Invalid username or password"));
      }
      r := Ok(View(user.value));
    }
  }

  // POST /api/auth/register

  /**
   * Registers a user after checking, in this order, that the username, the
   * email and (when one is given) the wallet address are all unused.
   */
  method Register(storage: Storage, data: NewUser) returns (r: Response<UserView>)
    requires Valid(storage)
    modifies storage
    ensures Valid(storage)
    ensures UsernameTaken(old(storage.users), data.username) ==>
      r == Err(HttpError(BadRequest, "Username already exists")) && unchanged(storage)
    ensures !UsernameTaken(old(storage.users), data.username) && EmailTaken(old(storage.users), data.email) ==>
      r == Err(HttpError(BadRequest, "Email already exists")) && unchanged(storage)
    ensures !UsernameTaken(old(storage.users), data.username) && !EmailTaken(old(storage.users), data.email) &&
            data.walletAddress != "" && WalletTaken(old(storage.users), data.walletAddress) ==>
      r == Err(HttpError(BadRequest, "Wallet address already registered")) && unchanged(storage)
    ensures r.Ok? ==>
      && r.value.id !in old(storage.users)
      && r.value == View(data.Stored(r.value.id))
      && storage.Snapshot() == old(storage.Snapshot()).(users := old(storage.users)[r.value.id := data.Stored(r.value.id)])
    ensures r.Ok? <==>
      && !UsernameTaken(old(storage.users), data.username)
      && !EmailTaken(old(storage.users), data.email)
      && (data.walletAddress != "" ==> !WalletTaken(old(storage.users), data.walletAddress))
  {
    var byUsername := storage.GetUserByUsername(data.username);
    if byUsername.Some? {
      return Err(HttpError(BadRequest, "Username already exists"));
    }
    var byEmail := storage.GetUserByEmail(data.email);
    if byEmail.Some? {
      return Err(HttpError(BadRequest, "Email already exists"));
    }
    if data.walletAddress != "" {
      var byWallet := storage.GetUserByWalletAddress(data.walletAddress);
      if byWallet.Some? {
        return Err(HttpError(BadRequest, "Wallet address already registered"));
      }
    }
    ghost var before := storage.Snapshot();
    var user := storage.CreateUser(data);
    RegisterKeepsConsistent(before, user);
    r := Ok(View(user));
  }

  // GET /api/spaces

  /**
   * Lists logistics spaces: those matching the route when both a source and a
   * destination are given, otherwise those owned by the user when a non-zero
   * user id is given, otherwise whatever the search matches for two empty
   * strings. The store's matching rule is the parameter `matches`.
   */
  method ListSpaces(storage: Storage, source: string, destination: string, userId: Option<nat>,
                    matches: (LogisticsSpace, string, string) -> bool)
    returns (r: set<LogisticsSpace>)
    ensures source != "" && destination != "" ==>
      forall s :: s in r <==> s in storage.spaces.Values && matches(s, source, destination)
    ensures !(source != "" && destination != "") && userId.Some? && userId.value != 0 ==>
      forall s :: s in r <==> s in storage.spaces.Values && s.userId == userId.value
    ensures !(source != "" && destination != "") && !(userId.Some? && userId.value != 0) ==>
      forall s :: s in r <==> s in storage.spaces.Values && matches(s, "", "")
  {
    if source != "" && destination != "" {
      r := storage.SearchLogisticsSpaces(source, destination, matches);
    } else if userId.Some? && userId.value != 0 {
      r := storage.GetLogisticsSpacesByUserId(userId.value);
    } else {
      r := storage.SearchLogisticsSpaces("", "", matches);
    }
  }

  // GET /api/spaces/:id

  method GetSpace(storage: Storage, id: nat) returns (r: Response<LogisticsSpace>)
    ensures id in storage.spaces ==> r == Ok(storage.spaces[id])
    ensures id !in storage.spaces ==> r == Err(HttpError(NotFound, "Logistics space not found"))
  {
    var space := storage.GetLogisticsSpace(id);
    if space.None? {
      return Err(HttpError(NotFound, "Logistics space not found"));
    }
    r := Ok(space.value);
  }

  // POST /api/spaces

  /** Creates a space unless its token id is already used; a new space is "available". */
  method CreateSpace(storage: Storage, data: NewSpace) returns (r: Response<LogisticsSpace>)
    requires Valid(storage)
    modifies storage
    ensures Valid(storage)
    ensures TokenIdTaken(old(storage.spaces), data.tokenId) ==>
      r == Err(HttpError(BadRequest, "Token ID already exists")) && unchanged(storage)
    ensures !TokenIdTaken(old(storage.spaces), data.tokenId) ==>
      && r.Ok?
      && r.value == data.Stored(r.value.id)
      && r.value.id !in old(storage.spaces)
      && r.value.status == AVAILABLE
      && storage.Snapshot() == old(storage.Snapshot()).(spaces := old(storage.spaces)[r.value.id := r.value])
  {
    var existing := storage.GetLogisticsSpaceByTokenId(data.tokenId);
    if existing.Some? {
      return Err(HttpError(BadRequest, "Token ID already exists"));
    }
    ghost var before := storage.Snapshot();
    var space := storage.CreateLogisticsSpace(data);
    CreateSpaceKeepsConsistent(before, space);
    r := Ok(space);
  }

  // PATCH /api/spaces/:id/status

  /** Writes any non-empty status verbatim to an existing space. */
  method UpdateSpaceStatus(storage: Storage, id: nat, status: string) returns (r: Response<LogisticsSpace>)
    requires Valid(storage)
    modifies storage
    ensures Valid(storage)
    ensures status == "" ==> r == Err(HttpError(BadRequest, "Status is required")) && unchanged(storage)
    ensures status != "" && id !in old(storage.spaces) ==>
      r == Err(HttpError(NotFound, "Logistics space not found")) && unchanged(storage)
    ensures status != "" && id in old(storage.spaces) ==>
      && r == Ok(old(storage.spaces)[id].(status := status))
      && storage.Snapshot() == old(storage.Snapshot()).(spaces := old(storage.spaces)[id := r.value])
  {
    if status == "" {
      return Err(HttpError(BadRequest, "Status is required"));
    }
    ghost var before := storage.Snapshot();
    var space := storage.UpdateLogisticsSpaceStatus(id, status);
    if space.None? {
      return Err(HttpError(NotFound, "Logistics space not found"));
    }
    SpaceStatusKeepsConsistent(before, id, status);
    r := Ok(space.value);
  }

  // GET /api/shipments

  /** Lists a user's shipments; a missing or zero user id is refused. */
  method ListShipments(storage: Storage, userId: Option<nat>) returns (r: Response<set<Shipment>>)
    ensures !(userId.Some? && userId.value != 0) ==> r == Err(HttpError(BadRequest, "User ID is required"))
    ensures userId.Some? && userId.value != 0 ==>
      r.Ok? && forall s :: s in r.value <==> s in storage.shipments.Values && s.userId == userId.value
  {
    if !(userId.Some? && userId.value != 0) {
      return Err(HttpError(BadRequest, "User ID is required"));
    }
    var shipments := storage.GetShipmentsByUserId(userId.value);
    r := Ok(shipments);
  }

  // GET /api/shipments/:id

  method GetShipment(storage: Storage, id: nat) returns (r: Response<Shipment>)
    ensures id in storage.shipments ==> r == Ok(storage.shipments[id])
    ensures id !in storage.shipments ==> r == Err(HttpError(NotFound, "Shipment not found"))
  {
    var shipment := storage.GetShipment(id);
    if shipment.None? {
      return Err(HttpError(NotFound, "Shipment not found"));
    }
    r := Ok(shipment.value);
  }

  // POST /api/shipments

  /**
   * Books a space: refused when the space is absent or already "booked";
   * otherwise a "pending" shipment is created and the space becomes "booked".
   */
  method CreateShipment(storage: Storage, data: NewShipment) returns (r: Response<Shipment>)
    requires Valid(storage)
    modifies storage
    ensures Valid(storage)
    ensures data.logisticsSpaceId !in old(storage.spaces) ==>
      r == Err(HttpError(BadRequest, "Logistics space not found")) && unchanged(storage)
    ensures data.logisticsSpaceId in old(storage.spaces) && old(storage.spaces)[data.logisticsSpaceId].status == BOOKED ==>
      r == Err(HttpError(BadRequest, "Logistics space is already booked")) && unchanged(storage)
    ensures data.logisticsSpaceId in old(storage.spaces) && old(storage.spaces)[data.logisticsSpaceId].status != BOOKED ==>
      && r.Ok?
      && r.value == data.Stored(r.value.id)
      && r.value.id !in old(storage.shipments)
      && r.value.status == PENDING
      && storage.Snapshot() == old(storage.Snapshot()).(
           shipments := old(storage.shipments)[r.value.id := r.value],
           spaces := old(storage.spaces)[data.logisticsSpaceId :=
                       old(storage.spaces)[data.logisticsSpaceId].(status := BOOKED)])
  {
    var space := storage.GetLogisticsSpace(data.logisticsSpaceId);
    if space.None? {
      return Err(HttpError(BadRequest, "Logistics space not found"));
    }
    if space.value.status == BOOKED {
      return Err(HttpError(BadRequest, "Logistics space is already booked"));
    }
    ghost var before := storage.Snapshot();
    var shipment := storage.CreateShipment(data);
    var _ := storage.UpdateLogisticsSpaceStatus(data.logisticsSpaceId, BOOKED);
    BookingKeepsConsistent(before, shipment);
    r := Ok(shipment);
  }

  // PATCH /api/shipments/:id/status

  /** Writes any non-empty status verbatim to an existing shipment. */
  method UpdateShipmentStatus(storage: Storage, id: nat, status: string) returns (r: Response<Shipment>)
    requires Valid(storage)
    modifies storage
    ensures Valid(storage)
    ensures status == "" ==> r == Err(HttpError(BadRequest, "Status is required")) && unchanged(storage)
    ensures status != "" && id !in old(storage.shipments) ==>
      r == Err(HttpError(NotFound, "Shipment not found")) && unchanged(storage)
    ensures status != "" && id in old(storage.shipments) ==>
      && r == Ok(old(storage.shipments)[id].(status := status))
      && storage.Snapshot() == old(storage.Snapshot()).(shipments := old(storage.shipments)[id := r.value])
  {
    if status == "" {
      return Err(HttpError(BadRequest, "Status is required"));
    }
    ghost var before := storage.Snapshot();
    var shipment := storage.UpdateShipmentStatus(id, status);
    if shipment.None? {
      return Err(HttpError(NotFound, "Shipment not found"));
    }
    ShipmentStatusKeepsConsistent(before, id, status);
    r := Ok(shipment.value);
  }

  // GET /api/transactions/:id

  method GetTransaction(storage: Storage, id: nat) returns (r: Response<Transaction>)
    ensures id in storage.transactions ==> r == Ok(storage.transactions[id])
    ensures id !in storage.transactions ==> r == Err(HttpError(NotFound, "Transaction not found"))
  {
    var transaction := storage.GetTransaction(id);
    if transaction.None? {
      return Err(HttpError(NotFound, "Transaction not found"));
    }
    r := Ok(transaction.value);
  }

  // GET /api/shipments/:shipmentId/transaction

  /** The one transaction of a shipment, when it has one. */
  method GetTransactionByShipment(storage: Storage, shipmentId: nat) returns (r: Response<Transaction>)
    requires Valid(storage)
    ensures !HasTransactionFor(storage.transactions, shipmentId) ==>
      r == Err(HttpError(NotFound, "Transaction not found for this shipment"))
    ensures HasTransactionFor(storage.transactions, shipmentId) ==>
      && r.Ok? && r.value.shipmentId == shipmentId
      && forall id | id in storage.transactions && storage.transactions[id].shipmentId == shipmentId ::
           storage.transactions[id] == r.value
  {
    var transaction := storage.GetTransactionByShipmentId(shipmentId);
    if transaction.None? {
      return Err(HttpError(NotFound, "Transaction not found for this shipment"));
    }
    ghost var k :| k in storage.transactions && storage.transactions[k] == transaction.value;
    r := Ok(transaction.value);
  }

  // POST /api/transactions

  /**
   * Records the payment of a shipment: refused when the shipment is absent or
   * already has a transaction; otherwise a "pending" transaction is created and
   * the shipment becomes "confirmed".
   */
  method CreateTransaction(storage: Storage, data: NewTransaction) returns (r: Response<Transaction>)
    requires Valid(storage)
    modifies storage
    ensures Valid(storage)
    ensures data.shipmentId !in old(storage.shipments) ==>
      r == Err(HttpError(BadRequest, "Shipment not found")) && unchanged(storage)
    ensures data.shipmentId in old(storage.shipments) && HasTransactionFor(old(storage.transactions), data.shipmentId) ==>
      r == Err(HttpError(BadRequest, "Transaction already exists for this shipment")) && unchanged(storage)
    ensures data.shipmentId in old(storage.shipments) && !HasTransactionFor(old(storage.transactions), data.shipmentId) ==>
      && r.Ok?
      && r.value == data.Stored(r.value.id)
      && r.value.id !in old(storage.transactions)
      && r.value.status == PENDING && r.value.blockchainTxHash == None
      && storage.Snapshot() == old(storage.Snapshot()).(
           transactions := old(storage.transactions)[r.value.id := r.value],
           shipments := old(storage.shipments)[data.shipmentId :=
                          old(storage.shipments)[data.shipmentId].(status := CONFIRMED)])
  {
    var shipment := storage.GetShipment(data.shipmentId);
    if shipment.None? {
      return Err(HttpError(BadRequest, "Shipment not found"));
    }
    var existing := storage.GetTransactionByShipmentId(data.shipmentId);
    if existing.Some? {
      return Err(HttpError(BadRequest, "Transaction already exists for this shipment"));
    }
    ghost var before := storage.Snapshot();
    var transaction := storage.CreateTransaction(data);
    var _ := storage.UpdateShipmentStatus(data.shipmentId, CONFIRMED);
    SettlementKeepsConsistent(before, transaction);
    r := Ok(transaction);
  }

  // PATCH /api/transactions/:id/confirm

  /**
   * Confirms a transaction: an empty hash is refused before any lookup; an
   * existing transaction becomes "completed" with the hash stored. No shipment
   * is touched.
   */
  method ConfirmTransaction(storage: Storage, id: nat, blockchainTxHash: string) returns (r: Response<Transaction>)
    requires Valid(storage)
    modifies storage
    ensures Valid(storage)
    ensures blockchainTxHash == "" ==>
      r == Err(HttpError(BadRequest, "Blockchain transaction hash is required")) && unchanged(storage)
    ensures blockchainTxHash != "" && id !in old(storage.transactions) ==>
      r == Err(HttpError(NotFound, "Transaction not found")) && unchanged(storage)
    ensures blockchainTxHash != "" && id in old(storage.transactions) ==>
      && r == Ok(old(storage.transactions)[id].(status := COMPLETED, blockchainTxHash := Some(blockchainTxHash)))
      && storage.Snapshot() == old(storage.Snapshot()).(transactions := old(storage.transactions)[id := r.value])
  {
    if blockchainTxHash == "" {
      return Err(HttpError(BadRequest, "Blockchain transaction hash is required"));
    }
    ghost var before := storage.Snapshot();
    var transaction := storage.UpdateTransactionStatus(id, COMPLETED, blockchainTxHash);
    if transaction.None? {
      return Err(HttpError(NotFound, "Transaction not found"));
    }
    ConfirmKeepsConsistent(before, id, COMPLETED, blockchainTxHash);
    r := Ok(transaction.value);
  }

  // GET /api/shipments/:shipmentId/tracking

  /** The events of an existing shipment, in the order they were appended (possibly none). */
  method ListTrackingEvents(storage: Storage, shipmentId: nat) returns (r: Response<seq<TrackingEvent>>)
    requires Valid(storage)
    ensures shipmentId !in storage.shipments ==> r == Err(HttpError(NotFound, "Shipment not found"))
    ensures shipmentId in storage.shipments ==>
      && r == Ok(EventsFor(storage.events, shipmentId))
      && (forall e :: e in r.value <==> e in storage.events && e.shipmentId == shipmentId)
      && IdsIncreasing(r.value)
  {
    var shipment := storage.GetShipment(shipmentId);
    if shipment.None? {
      return Err(HttpError(NotFound, "Shipment not found"));
    }
    var events := storage.GetTrackingEventsByShipmentId(shipmentId);
    r := Ok(events);
  }

  // POST /api/tracking

  /**
   * Appends a tracking event for an existing shipment. A "pickup" event then
   * sets the shipment to "in_transit" and a "delivered" event to "delivered";
   * any other event type changes no status.
   */
  method AppendTrackingEvent(storage: Storage, data: NewTrackingEvent) returns (r: Response<TrackingEvent>)
    requires Valid(storage)
    modifies storage
    ensures Valid(storage)
    ensures data.shipmentId !in old(storage.shipments) ==>
      r == Err(HttpError(BadRequest, "Shipment not found")) && unchanged(storage)
    ensures data.shipmentId in old(storage.shipments) ==>
      && r.Ok?
      && r.value == data.Stored(r.value.id)
      && storage.events == old(storage.events) + [r.value]
      && storage.shipments ==
           (if data.eventType == PICKUP_EVENT then
              old(storage.shipments)[data.shipmentId := old(storage.shipments)[data.shipmentId].(status := IN_TRANSIT)]
            else if data.eventType == DELIVERED_EVENT then
              old(storage.shipments)[data.shipmentId := old(storage.shipments)[data.shipmentId].(status := DELIVERED)]
            else old(storage.shipments))
      && storage.users == old(storage.users)
      && storage.spaces == old(storage.spaces)
      && storage.transactions == old(storage.transactions)
  {
    var shipment := storage.GetShipment(data.shipmentId);
    if shipment.None? {
      return Err(HttpError(BadRequest, "Shipment not found"));
    }
    ghost var before := storage.Snapshot();
    var event := storage.CreateTrackingEvent(data);
    AppendEventKeepsConsistent(before, event);
    if data.eventType == PICKUP_EVENT {
      ShipmentStatusKeepsConsistent(storage.Snapshot(), data.shipmentId, IN_TRANSIT);
      var _ := storage.UpdateShipmentStatus(data.shipmentId, IN_TRANSIT);
    } else if data.eventType == DELIVERED_EVENT {
      ShipmentStatusKeepsConsistent(storage.Snapshot(), data.shipmentId, DELIVERED);
      var _ := storage.UpdateShipmentStatus(data.shipmentId, DELIVERED);
    }
    r := Ok(event);
  }
}
