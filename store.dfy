/**
 * The entity store behind the routes: four keyed tables (users, logistics
 * spaces, shipments, transactions) and an append-only log of tracking events.
 *
 * The store itself only allocates fresh ids, looks records up by id or by a
 * secondary key, and writes status fields verbatim. The cross-entity rules
 * (uniqueness, one transaction per shipment, references between tables) are
 * not the store's business: they are stated here as `Consistent`, and the
 * route handlers in module Routes are the ones that keep them.
 */
module Store {
  import opened Wrappers
  import opened Schema

  /** A snapshot of the store's five tables. */
  datatype Tables = Tables(
    users: map<nat, User>,
    spaces: map<nat, LogisticsSpace>,
    shipments: map<nat, Shipment>,
    transactions: map<nat, Transaction>,
    events: seq<TrackingEvent>)

  // Secondary keys that the routes look up before they write.

  predicate UsernameTaken(users: map<nat, User>, username: string) {
    exists id | id in users :: users[id].username == username
  }

  predicate EmailTaken(users: map<nat, User>, email: string) {
    exists id | id in users :: users[id].email == email
  }

  predicate WalletTaken(users: map<nat, User>, walletAddress: string) {
    exists id | id in users :: users[id].walletAddress == walletAddress
  }

  predicate TokenIdTaken(spaces: map<nat, LogisticsSpace>, tokenId: string) {
    exists id | id in spaces :: spaces[id].tokenId == tokenId
  }

  predicate HasTransactionFor(transactions: map<nat, Transaction>, shipmentId: nat) {
    exists id | id in transactions :: transactions[id].shipmentId == shipmentId
  }

  // The cross-entity rules.

  /** Usernames and emails are unique, and so is every wallet address that is present. */
  ghost predicate UniqueUsers(users: map<nat, User>) {
    forall a, b | a in users && b in users && a != b ::
      && users[a].username != users[b].username
      && users[a].email != users[b].email
      && (users[a].walletAddress != "" ==> users[a].walletAddress != users[b].walletAddress)
  }

  ghost predicate UniqueTokenIds(spaces: map<nat, LogisticsSpace>) {
    forall a, b | a in spaces && b in spaces && a != b :: spaces[a].tokenId != spaces[b].tokenId
  }

  ghost predicate OneTransactionPerShipment(transactions: map<nat, Transaction>) {
    forall a, b | a in transactions && b in transactions && a != b ::
      transactions[a].shipmentId != transactions[b].shipmentId
  }

  ghost predicate ShipmentsReferenceSpaces(shipments: map<nat, Shipment>, spaces: map<nat, LogisticsSpace>) {
    forall id | id in shipments :: shipments[id].logisticsSpaceId in spaces
  }

  ghost predicate TransactionsReferenceShipments(transactions: map<nat, Transaction>, shipments: map<nat, Shipment>) {
    forall id | id in transactions :: transactions[id].shipmentId in shipments
  }

  ghost predicate EventsReferenceShipments(events: seq<TrackingEvent>, shipments: map<nat, Shipment>) {
    forall i | 0 <= i < |events| :: events[i].shipmentId in shipments
  }

  ghost predicate Consistent(t: Tables) {
    && UniqueUsers(t.users)
    && UniqueTokenIds(t.spaces)
    && OneTransactionPerShipment(t.transactions)
    && ShipmentsReferenceSpaces(t.shipments, t.spaces)
    && TransactionsReferenceShipments(t.transactions, t.shipments)
    && EventsReferenceShipments(t.events, t.shipments)
  }

  // The event log, read through one shipment.

  /** The events of `log` that belong to shipment `shipmentId`, in log order. */
  function EventsFor(log: seq<TrackingEvent>, shipmentId: nat): (r: seq<TrackingEvent>)
    ensures |r| <= |log|
    ensures forall e :: e in r <==> e in log && e.shipmentId == shipmentId
  {
    if log == [] then []
    else if log[0].shipmentId == shipmentId then [log[0]] + EventsFor(log[1..], shipmentId)
    else EventsFor(log[1..], shipmentId)
  }

  /** Every event of the log carries a larger id than the events before it. */
  ghost predicate IdsIncreasing(log: seq<TrackingEvent>) {
    forall i, j | 0 <= i < j < |log| :: log[i].id < log[j].id
  }

  /** Appending one event extends the view of its own shipment by that event and no other view. */
  lemma {:induction false} EventsForAppend(log: seq<TrackingEvent>, e: TrackingEvent, shipmentId: nat)
    ensures EventsFor(log + [e], shipmentId)
         == EventsFor(log, shipmentId) + (if e.shipmentId == shipmentId then [e] else [])
  {
    if log == [] {
      assert [] + [e] == [e];
    } else {
      assert (log + [e])[0] == log[0];
      assert (log + [e])[1..] == log[1..] + [e];
      EventsForAppend(log[1..], e, shipmentId);
    }
  }

  /** A shipment's events come back in creation order: ids increase along the view. */
  lemma {:induction false} EventsForIncreasing(log: seq<TrackingEvent>, shipmentId: nat)
    requires IdsIncreasing(log)
    ensures IdsIncreasing(EventsFor(log, shipmentId))
  {
    if log != [] {
      assert IdsIncreasing(log[1..]) by {
        forall i, j | 0 <= i < j < |log[1..]| ensures log[1..][i].id < log[1..][j].id {
          assert log[1..][i] == log[i + 1] && log[1..][j] == log[j + 1];
        }
      }
      EventsForIncreasing(log[1..], shipmentId);
      if log[0].shipmentId == shipmentId {
        var rest := EventsFor(log[1..], shipmentId);
        forall k | 0 <= k < |rest| ensures log[0].id < rest[k].id {
          assert rest[k] in log[1..];
          var j :| 0 <= j < |log[1..]| && log[1..][j] == rest[k];
          assert log[1..][j] == log[j + 1];
        }
      }
    }
  }

  /**
   * The store: the five tables plus one id counter per table. A created record
   * receives its table's counter as id and the counter moves on.
   */
  class Storage {
    var users: map<nat, User>
    var spaces: map<nat, LogisticsSpace>
    var shipments: map<nat, Shipment>
    var transactions: map<nat, Transaction>
    var events: seq<TrackingEvent>
    var nextUserId: nat
    var nextSpaceId: nat
    var nextShipmentId: nat
    var nextTransactionId: nat
    var nextEventId: nat

    function Snapshot(): Tables
      reads this
    {
      Tables(users, spaces, shipments, transactions, events)
    }

    /** Every table is keyed by its records' ids, every id is below its counter, and the log is in id order. */
    ghost predicate WellFormed()
      reads this
    {
      && (forall id | id in users :: users[id].id == id && id < nextUserId)
      && (forall id | id in spaces :: spaces[id].id == id && id < nextSpaceId)
      && (forall id | id in shipments :: shipments[id].id == id && id < nextShipmentId)
      && (forall id | id in transactions :: transactions[id].id == id && id < nextTransactionId)
      && (forall i | 0 <= i < |events| :: events[i].id < nextEventId)
      && IdsIncreasing(events)
    }

    constructor ()
      ensures WellFormed()
      ensures Snapshot() == Tables(map[], map[], map[], map[], [])
    {
      users, spaces, shipments, transactions, events := map[], map[], map[], map[], [];
      nextUserId, nextSpaceId, nextShipmentId, nextTransactionId, nextEventId := 1, 1, 1, 1, 1;
    }

    // Users

    method GetUserByUsername(username: string) returns (r: Option<User>)
      ensures r.Some? ==> r.value in users.Values && r.value.username == username
      ensures r.None? <==> !UsernameTaken(users, username)
    {
      if UsernameTaken(users, username) {
        var id :| id in users && users[id].username == username;
        r := Some(users[id]);
      } else {
        r := None;
      }
    }

    method GetUserByEmail(email: string) returns (r: Option<User>)
      ensures r.Some? ==> r.value in users.Values && r.value.email == email
      ensures r.None? <==> !EmailTaken(users, email)
    {
      if EmailTaken(users, email) {
        var id :| id in users && users[id].email == email;
        r := Some(users[id]);
      } else {
        r := None;
      }
    }

    method GetUserByWalletAddress(walletAddress: string) returns (r: Option<User>)
      ensures r.Some? ==> r.value in users.Values && r.value.walletAddress == walletAddress
      ensures r.None? <==> !WalletTaken(users, walletAddress)
    {
      if WalletTaken(users, walletAddress) {
        var id :| id in users && users[id].walletAddress == walletAddress;
        r := Some(users[id]);
      } else {
        r := None;
      }
    }

    method CreateUser(data: NewUser) returns (u: User)
      requires WellFormed()
      modifies this`users, this`nextUserId
      ensures WellFormed()
      ensures u == data.Stored(old(nextUserId)) && u.id !in old(users)
      ensures users == old(users)[u.id := u] && nextUserId == old(nextUserId) + 1
    {
      u := data.Stored(nextUserId);
      users := users[u.id := u];
      nextUserId := nextUserId + 1;
    }

    // Logistics spaces

    method GetLogisticsSpace(id: nat) returns (r: Option<LogisticsSpace>)
      ensures r.Some? <==> id in spaces
      ensures r.Some? ==> r.value == spaces[id]
    {
      r := if id in spaces then Some(spaces[id]) else None;
    }

    method GetLogisticsSpaceByTokenId(tokenId: string) returns (r: Option<LogisticsSpace>)
      ensures r.Some? ==> r.value in spaces.Values && r.value.tokenId == tokenId
      ensures r.None? <==> !TokenIdTaken(spaces, tokenId)
    {
      if TokenIdTaken(spaces, tokenId) {
        var id :| id in spaces && spaces[id].tokenId == tokenId;
        r := Some(spaces[id]);
      } else {
        r := None;
      }
    }

    method GetLogisticsSpacesByUserId(userId: nat) returns (r: set<LogisticsSpace>)
      ensures forall s :: s in r <==> s in spaces.Values && s.userId == userId
    {
      r := set s | s in spaces.Values && s.userId == userId;
    }

    /** The store's route search; how it matches a space is not visible, so the match is a parameter. */
    method SearchLogisticsSpaces(source: string, destination: string,
                                 matches: (LogisticsSpace, string, string) -> bool)
      returns (r: set<LogisticsSpace>)
      ensures forall s :: s in r <==> s in spaces.Values && matches(s, source, destination)
    {
      r := set s | s in spaces.Values && matches(s, source, destination);
    }

    method CreateLogisticsSpace(data: NewSpace) returns (s: LogisticsSpace)
      requires WellFormed()
      modifies this`spaces, this`nextSpaceId
      ensures WellFormed()
      ensures s == data.Stored(old(nextSpaceId)) && s.id !in old(spaces)
      ensures spaces == old(spaces)[s.id := s] && nextSpaceId == old(nextSpaceId) + 1
    {
      s := data.Stored(nextSpaceId);
      spaces := spaces[s.id := s];
      nextSpaceId := nextSpaceId + 1;
    }

    method UpdateLogisticsSpaceStatus(id: nat, status: string) returns (r: Option<LogisticsSpace>)
      requires WellFormed()
      modifies this`spaces
      ensures WellFormed()
      ensures id in old(spaces) ==>
        r == Some(old(spaces)[id].(status := status)) && spaces == old(spaces)[id := r.value]
      ensures id !in old(spaces) ==> r == None && spaces == old(spaces)
    {
      if id in spaces {
        var s := spaces[id].(status := status);
        spaces := spaces[id := s];
        r := Some(s);
      } else {
        r := None;
      }
    }

    // Shipments

    method GetShipment(id: nat) returns (r: Option<Shipment>)
      ensures r.Some? <==> id in shipments
      ensures r.Some? ==> r.value == shipments[id]
    {
      r := if id in shipments then Some(shipments[id]) else None;
    }

    method GetShipmentsByUserId(userId: nat) returns (r: set<Shipment>)
      ensures forall s :: s in r <==> s in shipments.Values && s.userId == userId
    {
      r := set s | s in shipments.Values && s.userId == userId;
    }

    method CreateShipment(data: NewShipment) returns (s: Shipment)
      requires WellFormed()
      modifies this`shipments, this`nextShipmentId
      ensures WellFormed()
      ensures s == data.Stored(old(nextShipmentId)) && s.id !in old(shipments)
      ensures shipments == old(shipments)[s.id := s] && nextShipmentId == old(nextShipmentId) + 1
    {
      s := data.Stored(nextShipmentId);
      shipments := shipments[s.id := s];
      nextShipmentId := nextShipmentId + 1;
    }

    method UpdateShipmentStatus(id: nat, status: string) returns (r: Option<Shipment>)
      requires WellFormed()
      modifies this`shipments
      ensures WellFormed()
      ensures id in old(shipments) ==>
        r == Some(old(shipments)[id].(status := status)) && shipments == old(shipments)[id := r.value]
      ensures id !in old(shipments) ==> r == None && shipments == old(shipments)
    {
      if id in shipments {
        var s := shipments[id].(status := status);
        shipments := shipments[id := s];
        r := Some(s);
      } else {
        r := None;
      }
    }

    // Transactions

    method GetTransaction(id: nat) returns (r: Option<Transaction>)
      ensures r.Some? <==> id in transactions
      ensures r.Some? ==> r.value == transactions[id]
    {
      r := if id in transactions then Some(transactions[id]) else None;
    }

    method GetTransactionByShipmentId(shipmentId: nat) returns (r: Option<Transaction>)
      ensures r.Some? ==> r.value in transactions.Values && r.value.shipmentId == shipmentId
      ensures r.None? <==> !HasTransactionFor(transactions, shipmentId)
    {
      if HasTransactionFor(transactions, shipmentId) {
        var id :| id in transactions && transactions[id].shipmentId == shipmentId;
        r := Some(transactions[id]);
      } else {
        r := None;
      }
    }

    method CreateTransaction(data: NewTransaction) returns (t: Transaction)
      requires WellFormed()
      modifies this`transactions, this`nextTransactionId
      ensures WellFormed()
      ensures t == data.Stored(old(nextTransactionId)) && t.id !in old(transactions)
      ensures transactions == old(transactions)[t.id := t]
      ensures nextTransactionId == old(nextTransactionId) + 1
    {
      t := data.Stored(nextTransactionId);
      transactions := transactions[t.id := t];
      nextTransactionId := nextTransactionId + 1;
    }

    method UpdateTransactionStatus(id: nat, status: string, blockchainTxHash: string)
      returns (r: Option<Transaction>)
      requires WellFormed()
      modifies this`transactions
      ensures WellFormed()
      ensures id in old(transactions) ==>
        && r == Some(old(transactions)[id].(status := status, blockchainTxHash := Some(blockchainTxHash)))
        && transactions == old(transactions)[id := r.value]
      ensures id !in old(transactions) ==> r == None && transactions == old(transactions)
    {
      if id in transactions {
        var t := transactions[id].(status := status, blockchainTxHash := Some(blockchainTxHash));
        transactions := transactions[id := t];
        r := Some(t);
      } else {
        r := None;
      }
    }

    // Tracking events

    method GetTrackingEventsByShipmentId(shipmentId: nat) returns (r: seq<TrackingEvent>)
      requires WellFormed()
      ensures r == EventsFor(events, shipmentId)
      ensures forall e :: e in r <==> e in events && e.shipmentId == shipmentId
      ensures IdsIncreasing(r)
    {
      r := EventsFor(events, shipmentId);
      EventsForIncreasing(events, shipmentId);
    }

    method CreateTrackingEvent(data: NewTrackingEvent) returns (e: TrackingEvent)
      requires WellFormed()
      modifies this`events, this`nextEventId
      ensures WellFormed()
      ensures e == data.Stored(old(nextEventId))
      ensures events == old(events) + [e] && nextEventId == old(nextEventId) + 1
    {
      e := data.Stored(nextEventId);
      events := events + [e];
      nextEventId := nextEventId + 1;
    }
  }
}
