/**
 * Clients of the route handlers: a space booked, paid for and delivered,
 * reasoned about through the handlers' contracts and the lemmas about
 * `Store.EventsFor`.
 */
module Scenario {
  import opened Wrappers
  import opened Schema
  import opened Store
  import opened Routes

  /** A space "T-100" is created, booked once, and refused the second time. */
  method BookingScenario() {
    var storage := new Storage();

    var space := CreateSpace(storage, NewSpace(7, "T-100", "Chennai", "Delhi", 4, 2, 2, 1000));
    assert space.Ok? && space.value.status == AVAILABLE;
    var spaceId := space.value.id;

    var sameToken := CreateSpace(storage, NewSpace(8, "T-100", "Pune", "Agra", 1, 1, 1, 10));
    assert TokenIdTaken(storage.spaces, "T-100") by {
      assert storage.spaces[spaceId].tokenId == "T-100";
    }
    assert sameToken == Err(HttpError(BadRequest, "Token ID already exists"));

    var shipment := CreateShipment(storage, NewShipment(3, spaceId, "electronics", 120));
    assert shipment.Ok? && shipment.value.status == PENDING;
    assert storage.spaces[spaceId].status == BOOKED;

    var second := CreateShipment(storage, NewShipment(4, spaceId, "furniture", 80));
    assert second == Err(HttpError(BadRequest, "Logistics space is already booked"));
  }

  /** A shipment without a transaction is paid for once, then confirmed with a hash. */
  method SettlementScenario(storage: Storage, shipmentId: nat)
    requires Valid(storage)
    requires shipmentId in storage.shipments && !HasTransactionFor(storage.transactions, shipmentId)
    modifies storage
  {
    var payment := CreateTransaction(storage, NewTransaction(shipmentId, 500));
    assert payment.Ok? && payment.value.status == PENDING;
    assert storage.shipments[shipmentId].status == CONFIRMED;
    var paymentId := payment.value.id;

    var again := CreateTransaction(storage, NewTransaction(shipmentId, 500));
    assert HasTransactionFor(storage.transactions, shipmentId) by {
      assert storage.transactions[paymentId].shipmentId == shipmentId;
    }
    assert again == Err(HttpError(BadRequest, "Transaction already exists for this shipment"));

    var noHash := ConfirmTransaction(storage, paymentId, "");
    assert noHash == Err(HttpError(BadRequest, "Blockchain transaction hash is required"));
    var confirmed := ConfirmTransaction(storage, paymentId, "0xabc");
    assert confirmed.Ok? && confirmed.value.status == COMPLETED;
    assert confirmed.value.blockchainTxHash == Some("0xabc");
    assert storage.shipments[shipmentId].status == CONFIRMED;
  }

  /** A shipment with no events yet is picked up, scanned and delivered. */
  method TrackingScenario(storage: Storage, shipmentId: nat)
    requires Valid(storage)
    requires shipmentId in storage.shipments
    modifies storage
  {
    var pickup := AppendTrackingEvent(storage, NewTrackingEvent(shipmentId, "pickup", "Chennai", "", 1));
    assert pickup.Ok? && storage.shipments[shipmentId].status == IN_TRANSIT;
    var scan := AppendTrackingEvent(storage, NewTrackingEvent(shipmentId, "checkpoint", "Nagpur", "", 2));
    assert scan.Ok? && storage.shipments[shipmentId].status == IN_TRANSIT;
    var delivered := AppendTrackingEvent(storage, NewTrackingEvent(shipmentId, "delivered", "Delhi", "", 3));
    assert delivered.Ok? && storage.shipments[shipmentId].status == DELIVERED;

    // Nothing stops a late "pickup" from moving a delivered shipment back to "in_transit".
    var late := AppendTrackingEvent(storage, NewTrackingEvent(shipmentId, "pickup", "Delhi", "", 4));
    assert late.Ok? && storage.shipments[shipmentId].status == IN_TRANSIT;
  }

  /** Two events appended to a shipment with no history come back as its history, in order. */
  method HistoryScenario(storage: Storage, shipmentId: nat)
    requires Valid(storage)
    requires shipmentId in storage.shipments && EventsFor(storage.events, shipmentId) == []
    modifies storage
  {
    ghost var log0 := storage.events;
    var pickup := AppendTrackingEvent(storage, NewTrackingEvent(shipmentId, "pickup", "Chennai", "", 1));
    assert pickup.Ok?;
    EventsForAppend(log0, pickup.value, shipmentId);
    ghost var log1 := storage.events;
    assert EventsFor(log1, shipmentId) == [pickup.value];
    var scan := AppendTrackingEvent(storage, NewTrackingEvent(shipmentId, "checkpoint", "Nagpur", "", 2));
    assert scan.Ok?;
    EventsForAppend(log1, scan.value, shipmentId);
    assert EventsFor(storage.events, shipmentId) == [pickup.value] + [scan.value];

    var history := ListTrackingEvents(storage, shipmentId);
    assert [pickup.value] + [scan.value] == [pickup.value, scan.value];
    assert history == Ok([pickup.value, scan.value]);
  }
}
