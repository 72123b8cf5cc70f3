/**
 * Order records and the list transforms that every version of the order store
 * (the application-level store and the two dashboards' local copies) is built from.
 */
module Orders {
  import opened Common
  import Seqs

  /** Status literals as the backend stores them. */
  type Status = string

  const Pending: Status := "pending"
  const StartDelivery: Status := "start delivery"
  const Delivered: Status := "delivered"

  /** One of the three status literals the client knows. */
  predicate IsKnownStatus(s: Status)
  {
    s == Pending || s == StartDelivery || s == Delivered
  }

  /** An order as the backend returns it: `{ id, customerId, customerName, productName, address, price, status }`. */
  datatype Order = Order(
    id: int,
    customerId: int,
    customerName: string,
    productName: string,
    address: string,
    price: real,
    status: Status)

  /** A partial order object; `None` marks a key the object does not have. */
  datatype Patch = Patch(
    id: Option<int>,
    customerId: Option<int>,
    customerName: Option<string>,
    productName: Option<string>,
    address: Option<string>,
    price: Option<real>,
    status: Option<Status>)

  /** The patch with no keys. */
  const NoChange: Patch := Patch(None, None, None, None, None, None, None)

  /** `{ status: s }`, the body of an admin status update. */
  function StatusPatch(s: Status): (p: Patch)
    ensures p.status == Some(s)
    ensures p.(status := None) == NoChange
  {
    NoChange.(status := Some(s))
  }

  /** `{ ...o, ...p }`: every key present in `p` wins, every other key keeps its value in `o`. */
  function Merge(o: Order, p: Patch): (r: Order)
    ensures r.id == (if p.id.Some? then p.id.value else o.id)
    ensures r.customerId == (if p.customerId.Some? then p.customerId.value else o.customerId)
    ensures r.customerName == (if p.customerName.Some? then p.customerName.value else o.customerName)
    ensures r.productName == (if p.productName.Some? then p.productName.value else o.productName)
    ensures r.address == (if p.address.Some? then p.address.value else o.address)
    ensures r.price == (if p.price.Some? then p.price.value else o.price)
    ensures r.status == (if p.status.Some? then p.status.value else o.status)
  {
    Order(
      p.id.GetOr(o.id),
      p.customerId.GetOr(o.customerId),
      p.customerName.GetOr(o.customerName),
      p.productName.GetOr(o.productName),
      p.address.GetOr(o.address),
      p.price.GetOr(o.price),
      p.status.GetOr(o.status))
  }

  /** The identifiers occurring in a list of orders. */
  function Ids(os: seq<Order>): set<int>
  {
    set o | o in os :: o.id
  }

  // Element-wise callbacks given to `filter` and `map`.

  function HasIdOtherThan(orderId: int): Order -> bool
  {
    (o: Order) => o.id != orderId
  }

  function OwnedBy(customerId: int): Order -> bool
  {
    (o: Order) => o.customerId == customerId
  }

  function MergeIfId(orderId: int, patch: Patch): Order -> Order
  {
    (o: Order) => if o.id == orderId then Merge(o, patch) else o
  }

  function ReplaceIfId(matchId: int, record: Order): Order -> Order
  {
    (o: Order) => if o.id == matchId then record else o
  }

  // The list transforms.

  /**
   * `[...os, { ...draft, id, status: 'pending' }]`: every earlier order stays in place
   * and exactly one order is added at the end, the draft with the supplied id (whatever
   * id the draft had) and status pending.
   */
  function WithAdded(os: seq<Order>, draft: Order, id: int): (r: seq<Order>)
    ensures |r| == |os| + 1 && r[..|os|] == os
    ensures r[|os|] == Merge(draft, NoChange.(id := Some(id), status := Some(Pending)))
    ensures r[|os|].id == id && r[|os|].status == Pending
  {
    os + [draft.(id := id, status := Pending)]
  }

  /**
   * `os.map(o => o.id === orderId ? { ...o, ...patch } : o)`: the length and the position
   * of every order are kept; an order whose id differs is untouched and an order with
   * the id becomes the merge of it and the patch.
   */
  function Updated(os: seq<Order>, orderId: int, patch: Patch): (r: seq<Order>)
    ensures |r| == |os|
    ensures forall i :: 0 <= i < |os| ==>
      r[i] == (if os[i].id == orderId then Merge(os[i], patch) else os[i])
  {
    Seqs.Map(os, MergeIfId(orderId, patch))
  }

  /**
   * `os.map(o => o.id === matchId ? record : o)`: the length and the position of every
   * order are kept; the orders whose id equals `matchId` become `record` and every
   * other order is untouched.
   */
  function Replaced(os: seq<Order>, matchId: int, record: Order): (r: seq<Order>)
    ensures |r| == |os|
    ensures forall i :: 0 <= i < |os| ==> r[i] == (if os[i].id == matchId then record else os[i])
  {
    Seqs.Map(os, ReplaceIfId(matchId, record))
  }

  /** `os.filter(o => o.id !== orderId)`: the orders of `os` with another id, and no longer than `os`. */
  function Removed(os: seq<Order>, orderId: int): (r: seq<Order>)
    ensures forall o :: o in r <==> o in os && o.id != orderId
    ensures |r| <= |os|
  {
    Seqs.Filter(os, HasIdOtherThan(orderId))
  }

  /** `os.filter(o => o.customerId === customerId)`: the orders of `os` owned by that customer. */
  function OfCustomer(os: seq<Order>, customerId: int): (r: seq<Order>)
    ensures forall o :: o in r <==> o in os && o.customerId == customerId
    ensures |r| <= |os|
  {
    Seqs.Filter(os, OwnedBy(customerId))
  }

  // Merging a patch.

  /** A patch with no keys changes nothing, and merging the same patch twice is merging it once. */
  lemma MergeNoChangeAndIdempotent(o: Order, p: Patch)
    ensures Merge(o, NoChange) == o
    ensures Merge(Merge(o, p), p) == Merge(o, p)
  {
  }

  /** A status-only patch changes the status and nothing else. */
  lemma StatusPatchChangesOnlyStatus(o: Order, s: Status)
    ensures Merge(o, StatusPatch(s)) == o.(status := s)
  {
  }

  // Appending.

  /** Deleting the id that was just appended, when it was fresh, gives back the old list. */
  lemma RemovedAfterAddedRestores(os: seq<Order>, draft: Order, id: int)
    requires id !in Ids(os)
    ensures Removed(WithAdded(os, draft, id), id) == os
  {
    var added := draft.(id := id, status := Pending);
    var p := HasIdOtherThan(id);
    Seqs.FilterAppend(os, [added], p);
    assert forall o :: o in os ==> p(o) by {
      forall o | o in os ensures p(o) {
        assert o.id in Ids(os);
      }
    }
    Seqs.FilterKeepsAll(os, p);
    assert Seqs.Filter([added], p) == [];
  }

  /** A customer's orders after an append are the old ones, plus the new order if it is theirs. */
  lemma OfCustomerAfterAdded(os: seq<Order>, draft: Order, id: int, customerId: int)
    ensures OfCustomer(WithAdded(os, draft, id), customerId) ==
      OfCustomer(os, customerId) + (if draft.customerId == customerId then [draft.(id := id, status := Pending)] else [])
  {
    var added := draft.(id := id, status := Pending);
    Seqs.FilterAppend(os, [added], OwnedBy(customerId));
    assert Seqs.Filter([added], OwnedBy(customerId)) == (if draft.customerId == customerId then [added] else []);
  }

  // Updating by id.

  /** Updating an id that no order has leaves the list as it was. */
  lemma UpdatedAbsentIsIdentity(os: seq<Order>, orderId: int, patch: Patch)
    requires orderId !in Ids(os)
    ensures Updated(os, orderId, patch) == os
  {
  }

  /** Applying the same update twice is applying it once. */
  lemma UpdatedIdempotent(os: seq<Order>, orderId: int, patch: Patch)
    ensures Updated(Updated(os, orderId, patch), orderId, patch) == Updated(os, orderId, patch)
  {
  }

  /** An update whose patch has no `id` key keeps the id of every order. */
  lemma UpdatedKeepsIds(os: seq<Order>, orderId: int, patch: Patch)
    requires patch.id.None?
    ensures var r := Updated(os, orderId, patch);
      forall i :: 0 <= i < |os| ==> r[i].id == os[i].id
  {
  }

  // Replacing by id with a server record.

  /** Replacing with a key no order has leaves the list as it was. */
  lemma ReplacedAbsentIsIdentity(os: seq<Order>, matchId: int, record: Order)
    requires matchId !in Ids(os)
    ensures Replaced(os, matchId, record) == os
  {
  }

  // Deleting by id.

  /**
   * After deleting `orderId` no order has that id; every order with another id is
   * kept, as often as it occurred, and the survivors keep their relative order.
   */
  lemma RemovedExactly(os: seq<Order>, orderId: int)
    ensures var r := Removed(os, orderId);
      (forall o :: o in r ==> o.id != orderId) &&
      (forall o: Order :: o.id != orderId ==> multiset(r)[o] == multiset(os)[o]) &&
      Seqs.IsSubsequence(r, os)
  {
    Seqs.FilterIsSubsequence(os, HasIdOtherThan(orderId));
    Seqs.FilterCounts(os, HasIdOtherThan(orderId));
  }

  /** Deleting twice is deleting once. */
  lemma RemovedIdempotent(os: seq<Order>, orderId: int)
    ensures Removed(Removed(os, orderId), orderId) == Removed(os, orderId)
  {
    Seqs.FilterIdempotent(os, HasIdOtherThan(orderId));
  }

  /** Deleting an id that no order has leaves the list as it was. */
  lemma RemovedAbsentIsIdentity(os: seq<Order>, orderId: int)
    requires orderId !in Ids(os)
    ensures Removed(os, orderId) == os
  {
    forall o | o in os ensures HasIdOtherThan(orderId)(o) {
      assert o.id in Ids(os);
    }
    Seqs.FilterKeepsAll(os, HasIdOtherThan(orderId));
  }

  // Selecting one customer's orders.

  /**
   * A customer's orders are exactly the orders with that `customerId`, each as often
   * as it occurs, in their original relative order.
   */
  lemma OfCustomerExactly(os: seq<Order>, customerId: int)
    ensures var r := OfCustomer(os, customerId);
      (forall o :: o in r ==> o.customerId == customerId) &&
      (forall o: Order :: o.customerId == customerId ==> multiset(r)[o] == multiset(os)[o]) &&
      Seqs.IsSubsequence(r, os)
  {
    Seqs.FilterIsSubsequence(os, OwnedBy(customerId));
    Seqs.FilterCounts(os, OwnedBy(customerId));
  }
}
