/**
  The in-memory order table: orders are appended with a freshly allocated id,
  looked up by id, have their status replaced, and are deleted by position.
  The order date and the tracking number are given by the caller.
 */
module OrderStore {
  import opened Common
  import opened CartStore

  datatype Address = Address(
    firstName: string, lastName: string, email: string, phone: string,
    address: string, city: string, state: string, zipCode: string, country: string)

  /** The card details an order keeps. */
  datatype Payment = Payment(kind: string, last4: string, cardName: string)

  /** What checkout sends for an order. */
  datatype OrderDetails = OrderDetails(
    items: seq<LineItem>, subtotal: real, shipping: real, tax: real, total: real,
    shippingAddress: Address, paymentMethod: Payment, notes: string)

  /** The object passed to `create`; an `id` or `status` it carries is kept. */
  datatype OrderInput = OrderInput(id: Option<int>, status: Option<string>, details: OrderDetails)

  datatype Order = Order(
    id: int, status: Option<string>, details: OrderDetails, orderDate: string, trackingNumber: string)

  predicate UniqueIds(orders: seq<Order>) {
    forall i, j :: 0 <= i < j < |orders| ==> orders[i].id != orders[j].id
  }

  /** `Math.max(...ids, 0)`. */
  function MaxId(orders: seq<Order>): (m: int)
    ensures m >= 0
    ensures forall i :: 0 <= i < |orders| ==> orders[i].id <= m
    ensures m == 0 || exists i :: 0 <= i < |orders| && orders[i].id == m
  {
    if orders == [] then 0
    else
      var rest := MaxId(orders[1..]);
      assert forall i :: 1 <= i < |orders| ==> orders[i] == orders[1..][i - 1];
      if orders[0].id > rest then orders[0].id else rest
  }

  /** The id `create` allocates: above every id in the table, and at least 1. */
  function NewId(orders: seq<Order>): (id: int)
    ensures id >= 1
    ensures forall i :: 0 <= i < |orders| ==> orders[i].id < id
  {
    MaxId(orders) + 1
  }

  /** `orders.findIndex(o => o.id === id)`: the first position with that id, or -1. */
  function IndexOfId(orders: seq<Order>, id: int): (k: int)
    ensures -1 <= k < |orders|
    ensures k == -1 <==> forall i :: 0 <= i < |orders| ==> orders[i].id != id
    ensures k >= 0 ==> orders[k].id == id && forall i :: 0 <= i < k ==> orders[i].id != id
  {
    if orders == [] then -1
    else if orders[0].id == id then 0
    else
      var k := IndexOfId(orders[1..], id);
      assert forall i :: 1 <= i < |orders| ==> orders[i] == orders[1..][i - 1];
      if k == -1 then -1 else k + 1
  }

  /** `orders.find(o => o.id === id)`. */
  function FindOrder(orders: seq<Order>, id: int): (r: Option<Order>)
    ensures r.None? <==> forall i :: 0 <= i < |orders| ==> orders[i].id != id
    ensures r.Some? ==> r.value == orders[IndexOfId(orders, id)]
  {
    var k := IndexOfId(orders, id);
    if k == -1 then None else Some(orders[k])
  }

  /** The stored record of `create`: the allocated id unless the input
      carries one, the input's fields, and the given date and tracking number. */
  function NewOrder(orders: seq<Order>, input: OrderInput, orderDate: string, trackingNumber: string): (o: Order)
    ensures o.id == input.id.GetOr(NewId(orders))
    ensures input.id.None? ==> forall i :: 0 <= i < |orders| ==> orders[i].id < o.id
    ensures o.details == input.details && o.status == input.status
    ensures o.orderDate == orderDate && o.trackingNumber == trackingNumber
  {
    Order(input.id.GetOr(NewId(orders)), input.status, input.details, orderDate, trackingNumber)
  }

  /** Appending an order whose id is new keeps the ids unique. */
  lemma AppendFreshKeepsUnique(orders: seq<Order>, o: Order)
    requires UniqueIds(orders)
    requires forall i :: 0 <= i < |orders| ==> orders[i].id != o.id
    ensures UniqueIds(orders + [o])
  {
  }

  /** An order created without an id of its own never collides. */
  lemma CreateKeepsUnique(orders: seq<Order>, input: OrderInput, orderDate: string, trackingNumber: string)
    requires UniqueIds(orders) && input.id.None?
    ensures UniqueIds(orders + [NewOrder(orders, input, orderDate, trackingNumber)])
  {
    AppendFreshKeepsUnique(orders, NewOrder(orders, input, orderDate, trackingNumber));
  }

  /** An input that carries an existing id duplicates it. */
  lemma CreateWithTakenIdDuplicates(orders: seq<Order>, input: OrderInput, orderDate: string, trackingNumber: string)
    requires input.id.Some? && IndexOfId(orders, input.id.value) >= 0
    ensures !UniqueIds(orders + [NewOrder(orders, input, orderDate, trackingNumber)])
  {
    var k := IndexOfId(orders, input.id.value);
    var s := orders + [NewOrder(orders, input, orderDate, trackingNumber)];
    assert s[k].id == s[|orders|].id;
  }

  /** The order table. */
  class OrderService {
    var orders: seq<Order>

    constructor (seed: seq<Order>)
      ensures orders == seed
    {
      orders := seed;
    }

    /** `getAll`: a copy of the table. */
    method GetAll() returns (all: seq<Order>)
      ensures all == orders
    {
      all := orders;
    }

    /** `getById`: the first order with that id, or null. */
    method GetById(id: int) returns (r: Option<Order>)
      ensures r == FindOrder(orders, id)
      ensures r.None? <==> forall i :: 0 <= i < |orders| ==> orders[i].id != id
    {
      r := FindOrder(orders, id);
    }

    /** `create`: appends exactly one record and returns it. */
    method Create(input: OrderInput, orderDate: string, trackingNumber: string) returns (created: Order)
      modifies this
      ensures created == NewOrder(old(orders), input, orderDate, trackingNumber)
      ensures orders == old(orders) + [created]
      ensures UniqueIds(old(orders)) && input.id.None? ==> UniqueIds(orders)
    {
      var newId := NewId(orders);
      created := Order(input.id.GetOr(newId), input.status, input.details, orderDate, trackingNumber);
      if UniqueIds(orders) && input.id.None? {
        CreateKeepsUnique(orders, input, orderDate, trackingNumber);
      }
      orders := orders + [created];
    }

    /** `updateStatus`: replaces the status of the first order with that id and
        returns it; null, with nothing changed, when there is none. */
    method UpdateStatus(id: int, status: string) returns (r: Option<Order>)
      modifies this
      ensures |orders| == |old(orders)|
      ensures var k := IndexOfId(old(orders), id);
              if k == -1 then r.None? && orders == old(orders)
              else r == Some(old(orders)[k].(status := Some(status))) &&
                   orders == old(orders)[k := r.value]
      ensures forall i :: 0 <= i < |orders| ==> orders[i].id == old(orders)[i].id
    {
      var k := IndexOfId(orders, id);
      if k != -1 {
        orders := orders[k := orders[k].(status := Some(status))];
        return Some(orders[k]);
      }
      return None;
    }

    /** `delete`: removes the first order with that id and returns it; null,
        with nothing changed, when there is none. */
    method Delete(id: int) returns (r: Option<Order>)
      modifies this
      ensures var k := IndexOfId(old(orders), id);
              if k == -1 then r.None? && orders == old(orders)
              else r == Some(old(orders)[k]) && orders == old(orders)[..k] + old(orders)[k + 1..]
      ensures UniqueIds(old(orders)) ==> UniqueIds(orders)
    {
      var k := IndexOfId(orders, id);
      if k == -1 {
        return None;
      }
      var removed := orders[k];
      if UniqueIds(orders) {
        DeleteKeepsUnique(orders, k);
      }
      orders := orders[..k] + orders[k + 1..];
      return Some(removed);
    }
  }

  lemma DeleteKeepsUnique(orders: seq<Order>, k: int)
    requires 0 <= k < |orders| && UniqueIds(orders)
    ensures UniqueIds(orders[..k] + orders[k + 1..])
  {
    var r := orders[..k] + orders[k + 1..];
    forall i, j | 0 <= i < j < |r| ensures r[i].id != r[j].id {
      var i' := if i < k then i else i + 1;
      var j' := if j < k then j else j + 1;
      assert r[i] == orders[i'] && r[j] == orders[j'];
    }
  }

  /** After a delete, with unique ids, the removed id is no longer found. */
  lemma DeleteRemovesThatId(orders: seq<Order>, k: int)
    requires UniqueIds(orders) && 0 <= k < |orders|
    ensures FindOrder(orders[..k] + orders[k + 1..], orders[k].id).None?
  {
    var rest := orders[..k] + orders[k + 1..];
    forall i | 0 <= i < |rest| ensures rest[i].id != orders[k].id {
      var i' := if i < k then i else i + 1;
      assert rest[i] == orders[i'];
    }
  }

  /** A delete leaves every other id exactly as findable as before. */
  lemma DeleteKeepsOtherIds(orders: seq<Order>, k: int, other: int)
    requires 0 <= k < |orders| && other != orders[k].id
    ensures FindOrder(orders[..k] + orders[k + 1..], other).Some? == FindOrder(orders, other).Some?
  {
    var rest := orders[..k] + orders[k + 1..];
    if FindOrder(orders, other).Some? {
      var j := IndexOfId(orders, other);
      var j' := if j < k then j else j - 1;
      assert rest[j'] == orders[j];
    }
    if FindOrder(rest, other).Some? {
      var j := IndexOfId(rest, other);
      var j' := if j < k then j else j + 1;
      assert orders[j'] == rest[j];
    }
  }
}
