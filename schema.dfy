/**
 * The records kept by the logistics store and the validated request bodies
 * the route handlers receive. An optional string field (a wallet address, a
 * location, details) holds "" when it is absent.
 */
module Schema {
  import opened Wrappers

  /** Status strings written by the route handlers and by the store's defaults. */
  const AVAILABLE := "available"
  const BOOKED := "booked"
  const PENDING := "pending"
  const CONFIRMED := "confirmed"
  const IN_TRANSIT := "in_transit"
  const DELIVERED := "delivered"
  const COMPLETED := "completed"

  /** Tracking event types that move a shipment along its lifecycle. */
  const PICKUP_EVENT := "pickup"
  const DELIVERED_EVENT := "delivered"

  datatype User = User(
    id: nat,
    username: string,
    password: string,
    email: string,
    firstName: string,
    lastName: string,
    role: string,
    walletAddress: string)

  /** What the login and register routes send back: every user field except the password. */
  datatype UserView = UserView(
    id: nat,
    username: string,
    email: string,
    firstName: string,
    lastName: string,
    role: string,
    walletAddress: string)

  function View(u: User): UserView {
    UserView(u.id, u.username, u.email, u.firstName, u.lastName, u.role, u.walletAddress)
  }

  /** A validated registration body. */
  datatype NewUser = NewUser(
    username: string,
    password: string,
    email: string,
    firstName: string,
    lastName: string,
    role: string,
    walletAddress: string)
  {
    function Stored(id: nat): User {
      User(id, username, password, email, firstName, lastName, role, walletAddress)
    }
  }

  datatype LogisticsSpace = LogisticsSpace(
    id: nat,
    userId: nat,
    tokenId: string,
    source: string,
    destination: string,
    length: int,
    width: int,
    height: int,
    maxWeight: int,
    status: string)

  /** A validated space-creation body; a new space starts out "available". */
  datatype NewSpace = NewSpace(
    userId: nat,
    tokenId: string,
    source: string,
    destination: string,
    length: int,
    width: int,
    height: int,
    maxWeight: int)
  {
    function Stored(id: nat): LogisticsSpace {
      LogisticsSpace(id, userId, tokenId, source, destination, length, width, height, maxWeight, AVAILABLE)
    }
  }

  datatype Shipment = Shipment(
    id: nat,
    userId: nat,
    logisticsSpaceId: nat,
    goodsType: string,
    weight: int,
    status: string)

  /** A validated booking body; a new shipment starts out "pending". */
  datatype NewShipment = NewShipment(
    userId: nat,
    logisticsSpaceId: nat,
    goodsType: string,
    weight: int)
  {
    function Stored(id: nat): Shipment {
      Shipment(id, userId, logisticsSpaceId, goodsType, weight, PENDING)
    }
  }

  datatype Transaction = Transaction(
    id: nat,
    shipmentId: nat,
    amount: int,
    status: string,
    blockchainTxHash: Option<string>)

  /** A validated payment body; a new transaction is "pending" and has no hash yet. */
  datatype NewTransaction = NewTransaction(shipmentId: nat, amount: int)
  {
    function Stored(id: nat): Transaction {
      Transaction(id, shipmentId, amount, PENDING, None)
    }
  }

  datatype TrackingEvent = TrackingEvent(
    id: nat,
    shipmentId: nat,
    eventType: string,
    location: string,
    details: string,
    timestamp: int)

  /** A validated tracking body; the timestamp is the clock reading taken by the caller. */
  datatype NewTrackingEvent = NewTrackingEvent(
    shipmentId: nat,
    eventType: string,
    location: string,
    details: string,
    timestamp: int)
  {
    function Stored(id: nat): TrackingEvent {
      TrackingEvent(id, shipmentId, eventType, location, details, timestamp)
    }
  }
}
