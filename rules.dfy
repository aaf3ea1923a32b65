/**
 * The cross-entity rules of the store (Store.Consistent), and what each kind
 * of write the routes perform does to them. Each lemma takes a snapshot of the
 * tables and the write a route makes after its checks have passed.
 */
module Rules {
  import opened Wrappers
  import opened Schema
  import opened Store

  /** The three registration checks are exactly what keeps the users table unique. */
  lemma AddUserUniqueIff(users: map<nat, User>, u: User)
    requires UniqueUsers(users) && u.id !in users
    ensures UniqueUsers(users[u.id := u]) <==>
      && !UsernameTaken(users, u.username)
      && !EmailTaken(users, u.email)
      && (u.walletAddress != "" ==> !WalletTaken(users, u.walletAddress))
  {
    var users' := users[u.id := u];
    if UsernameTaken(users, u.username) {
      var id :| id in users && users[id].username == u.username;
      assert users'[id].username == users'[u.id].username;
    } else if EmailTaken(users, u.email) {
      var id :| id in users && users[id].email == u.email;
      assert users'[id].email == users'[u.id].email;
    } else if u.walletAddress != "" && WalletTaken(users, u.walletAddress) {
      var id :| id in users && users[id].walletAddress == u.walletAddress;
      assert users'[u.id].walletAddress != "" && users'[u.id].walletAddress == users'[id].walletAddress;
    }
  }

  /** A new space keeps token ids unique exactly when its token id is not taken. */
  lemma AddSpaceUniqueIff(spaces: map<nat, LogisticsSpace>, s: LogisticsSpace)
    requires UniqueTokenIds(spaces) && s.id !in spaces
    ensures UniqueTokenIds(spaces[s.id := s]) <==> !TokenIdTaken(spaces, s.tokenId)
  {
    if TokenIdTaken(spaces, s.tokenId) {
      var id :| id in spaces && spaces[id].tokenId == s.tokenId;
      assert spaces[s.id := s][id].tokenId == spaces[s.id := s][s.id].tokenId;
    }
  }

  /** A new transaction keeps "one per shipment" exactly when its shipment has none yet. */
  lemma AddTransactionUniqueIff(transactions: map<nat, Transaction>, x: Transaction)
    requires OneTransactionPerShipment(transactions) && x.id !in transactions
    ensures OneTransactionPerShipment(transactions[x.id := x]) <==>
      !HasTransactionFor(transactions, x.shipmentId)
  {
    if HasTransactionFor(transactions, x.shipmentId) {
      var id :| id in transactions && transactions[id].shipmentId == x.shipmentId;
      assert transactions[x.id := x][id].shipmentId == transactions[x.id := x][x.id].shipmentId;
    }
  }

  /** Registration, once its checks pass, keeps the store consistent. */
  lemma RegisterKeepsConsistent(t: Tables, u: User)
    requires Consistent(t) && u.id !in t.users
    requires !UsernameTaken(t.users, u.username) && !EmailTaken(t.users, u.email)
    requires u.walletAddress != "" ==> !WalletTaken(t.users, u.walletAddress)
    ensures Consistent(t.(users := t.users[u.id := u]))
  {
    AddUserUniqueIff(t.users, u);
  }

  /** Space creation, once the token id check passes, keeps the store consistent. */
  lemma CreateSpaceKeepsConsistent(t: Tables, s: LogisticsSpace)
    requires Consistent(t) && s.id !in t.spaces && !TokenIdTaken(t.spaces, s.tokenId)
    ensures Consistent(t.(spaces := t.spaces[s.id := s]))
  {
    AddSpaceUniqueIff(t.spaces, s);
  }

  /** Writing any status to an existing space keeps the store consistent. */
  lemma SpaceStatusKeepsConsistent(t: Tables, id: nat, status: string)
    requires Consistent(t) && id in t.spaces
    ensures Consistent(t.(spaces := t.spaces[id := t.spaces[id].(status := status)]))
  {
    var spaces' := t.spaces[id := t.spaces[id].(status := status)];
    assert forall k | k in spaces' :: spaces'[k].tokenId == t.spaces[k].tokenId;
  }

  /** A booking against an existing space, which then becomes "booked", keeps the store consistent. */
  lemma BookingKeepsConsistent(t: Tables, s: Shipment)
    requires Consistent(t) && s.id !in t.shipments && s.logisticsSpaceId in t.spaces
    ensures Consistent(t.(
      shipments := t.shipments[s.id := s],
      spaces := t.spaces[s.logisticsSpaceId := t.spaces[s.logisticsSpaceId].(status := BOOKED)]))
  {
    SpaceStatusKeepsConsistent(t.(shipments := t.shipments[s.id := s]), s.logisticsSpaceId, BOOKED);
  }

  /** Writing any status to an existing shipment keeps the store consistent. */
  lemma ShipmentStatusKeepsConsistent(t: Tables, id: nat, status: string)
    requires Consistent(t) && id in t.shipments
    ensures Consistent(t.(shipments := t.shipments[id := t.shipments[id].(status := status)]))
  {
  }

  /** Settlement, once both checks pass, keeps the store consistent; the shipment becomes "confirmed". */
  lemma SettlementKeepsConsistent(t: Tables, x: Transaction)
    requires Consistent(t) && x.id !in t.transactions && x.shipmentId in t.shipments
    requires !HasTransactionFor(t.transactions, x.shipmentId)
    ensures Consistent(t.(
      transactions := t.transactions[x.id := x],
      shipments := t.shipments[x.shipmentId := t.shipments[x.shipmentId].(status := CONFIRMED)]))
  {
    AddTransactionUniqueIff(t.transactions, x);
  }

  /** Confirming an existing transaction keeps the store consistent. */
  lemma ConfirmKeepsConsistent(t: Tables, id: nat, status: string, hash: string)
    requires Consistent(t) && id in t.transactions
    ensures Consistent(t.(transactions :=
      t.transactions[id := t.transactions[id].(status := status, blockchainTxHash := Some(hash))]))
  {
    var txs' := t.transactions[id := t.transactions[id].(status := status, blockchainTxHash := Some(hash))];
    assert forall k | k in txs' :: txs'[k].shipmentId == t.transactions[k].shipmentId;
  }

  /** Appending an event for an existing shipment keeps the store consistent. */
  lemma AppendEventKeepsConsistent(t: Tables, e: TrackingEvent)
    requires Consistent(t) && e.shipmentId in t.shipments
    ensures Consistent(t.(events := t.events + [e]))
  {
  }
}
