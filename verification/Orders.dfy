/** Orders and the optimistically locked in-memory store that keeps them. */
module Orders {

  datatype OrderStatus = Pending | Reserved | Paid | Confirmed | Canceled | Refunded

  datatype Item = Item(id: string, sku: string, qty: int, priceMinor: int)

  datatype Order = Order(
    id: string,
    customer: string,
    status: OrderStatus,
    currency: string,
    amountMinor: int,
    items: seq<Item>,
    version: int,
    updatedAt: int)

  /** Canceled and refunded orders are never moved to another status. */
  predicate Terminal(s: OrderStatus) {
    s.Canceled? || s.Refunded?
  }

  /** Everything a saga may not change: all but status, version and update time. */
  predicate SameContents(a: Order, b: Order) {
    && a.id == b.id
    && a.customer == b.customer
    && a.currency == b.currency
    && a.amountMinor == b.amountMinor
    && a.items == b.items
  }

  /** The shape in which CreateOrder hands a new order to the store. */
  predicate NewOrder(o: Order) {
    o.status == Pending && o.version == 0 && o.amountMinor >= 0
  }

  datatype StoreError = NotFound | VersionConflict

  datatype StoreResult<T> = Ok(value: T) | Err(error: StoreError)

  class OrderRepository {
    var items: map<string, Order>

    constructor ()
      ensures items == map[]
    {
      items := map[];
    }

    method Create(order: Order) returns (r: StoreResult<()>)
      modifies this
      ensures order.id in old(items) ==> r == Err(VersionConflict) && items == old(items)
      ensures order.id !in old(items) ==> r == Ok(()) && items == old(items)[order.id := order]
    {
      if order.id in items {
        return Err(VersionConflict);
      }
      items := items[order.id := order];
      return Ok(());
    }

    method Get(id: string) returns (r: StoreResult<Order>)
      ensures r == if id in items then Ok(items[id]) else Err(NotFound)
    {
      if id !in items {
        return Err(NotFound);
      }
      return Ok(items[id]);
    }

    /** Compare-and-set on the version: writes only over the version the caller holds. */
    method Save(order: Order) returns (r: StoreResult<()>)
      modifies this
      ensures r.Ok? <==> order.id in old(items) && old(items)[order.id].version == order.version
      ensures r.Ok? ==> items == old(items)[order.id := order.(version := order.version + 1)]
      ensures r.Err? ==> items == old(items) && (r.error == NotFound <==> order.id !in old(items))
    {
      if order.id !in items {
        return Err(NotFound);
      }
      if items[order.id].version != order.version {
        return Err(VersionConflict);
      }
      items := items[order.id := order.(version := order.version + 1)];
      return Ok(());
    }
  }
}
