/**
 * Orders: creation from a paid basket (one order line per product line),
 * reading one order or a user's orders under the owner-or-administrator rule,
 * and the administrator's status change.  The caller's id and role (read from
 * the token's claims) are parameters.
 */
module OrdersControllers {
  import opened Wrappers
  import opened Tables
  import opened Models
  import opened Dtos
  import opened DataContext
  import opened Actions

  const EstadoCompletado := "COMPLETADO"
  const MetodoPayPal := "PayPal"

  /** The largest amount, in cents, a `decimal(18,2)` column holds: 16 integer and 2 fraction digits. */
  const MaxCentavosColumna := 999_999_999_999_999_999

  /** An amount that fits the `decimal(18,2)` columns `Total` and `Precio`. */
  predicate CabeEnColumna(cents: int) {
    -MaxCentavosColumna <= cents <= MaxCentavosColumna
  }

  predicate PreciosCaben(lines: seq<OrderProductDto>) {
    forall i :: 0 <= i < |lines| ==> CabeEnColumna(lines[i].precio)
  }

  /** An order with the lines `Include(o => o.Items)` loads for it. */
  datatype OrderConItems = OrderConItems(order: Order, items: seq<OrderItem>)

  /** The lines of order `orderId`, in table order. */
  function ItemsDe(items: seq<OrderItem>, orderId: int): (r: seq<OrderItem>)
    ensures |r| <= |items|
    ensures forall x :: x in r <==> x in items && x.orderId == orderId
  {
    if items == [] then []
    else (if items[0].orderId == orderId then [items[0]] else []) + ItemsDe(items[1..], orderId)
  }

  /** The orders of account `usuarioId`, in table order (`Where(o => o.UsuarioId == usuarioId)`). */
  function OrdersDe(orders: seq<Order>, usuarioId: int): (r: seq<Order>)
    ensures |r| <= |orders|
    ensures forall o :: o in r <==> o in orders && o.usuarioId == usuarioId
  {
    if orders == [] then []
    else (if orders[0].usuarioId == usuarioId then [orders[0]] else []) + OrdersDe(orders[1..], usuarioId)
  }

  /** The order line stored for one basket line. */
  function ItemFor(orderId: int, line: OrderProductDto, id: int): OrderItem {
    OrderItem(id, orderId, line.productoId, line.nombre, line.cantidad, line.precio)
  }

  /** The lines stored for a basket, keys handed out from `firstId` on. */
  function ItemsFor(orderId: int, lines: seq<OrderProductDto>, firstId: int): (r: seq<OrderItem>)
    ensures |r| == |lines|
    ensures forall i :: 0 <= i < |lines| ==> r[i] == ItemFor(orderId, lines[i], firstId + i)
  {
    seq(|lines|, i requires 0 <= i < |lines| => ItemFor(orderId, lines[i], firstId + i))
  }

  /** The basket line an order line records. */
  function LineOf(item: OrderItem): OrderProductDto {
    OrderProductDto(item.productoId, item.nombre, item.cantidad, item.precio)
  }

  /** Each stored line carries the new order's key and gives back its basket line, in order. */
  lemma ItemsForRoundTrip(orderId: int, lines: seq<OrderProductDto>, firstId: int)
    ensures var items := ItemsFor(orderId, lines, firstId);
      && seq(|items|, i requires 0 <= i < |items| => LineOf(items[i])) == lines
      && (forall i :: 0 <= i < |items| ==> items[i].orderId == orderId && items[i].orderItemId == firstId + i)
  {
    var items := ItemsFor(orderId, lines, firstId);
    var back := seq(|items|, i requires 0 <= i < |items| => LineOf(items[i]));
    assert |back| == |lines|;
    assert forall i :: 0 <= i < |back| ==> back[i] == lines[i];
  }

  lemma {:induction false} ItemsDeAppend(a: seq<OrderItem>, b: seq<OrderItem>, orderId: int)
    ensures ItemsDe(a + b, orderId) == ItemsDe(a, orderId) + ItemsDe(b, orderId)
  {
    if a == [] {
      assert a + b == b;
    } else {
      assert (a + b)[0] == a[0] && (a + b)[1..] == a[1..] + b;
      ItemsDeAppend(a[1..], b, orderId);
      var head := if a[0].orderId == orderId then [a[0]] else [];
      assert ItemsDe(a + b, orderId) == head + ItemsDe(a[1..] + b, orderId);
      assert ItemsDe(a, orderId) == head + ItemsDe(a[1..], orderId);
    }
  }

  lemma {:induction false} ItemsDeNone(items: seq<OrderItem>, orderId: int)
    requires forall i :: 0 <= i < |items| ==> items[i].orderId != orderId
    ensures ItemsDe(items, orderId) == []
  {
    if items != [] {
      ItemsDeNone(items[1..], orderId);
    }
  }

  lemma {:induction false} ItemsDeAll(items: seq<OrderItem>, orderId: int)
    requires forall i :: 0 <= i < |items| ==> items[i].orderId == orderId
    ensures ItemsDe(items, orderId) == items
  {
    if items != [] {
      ItemsDeAll(items[1..], orderId);
      assert items == [items[0]] + items[1..];
    }
  }

  /**
   * The lines loaded for a new order are exactly the ones just stored for it:
   * every older line belongs to an older order, whose key is below the new one.
   */
  lemma NewOrderLines(items: seq<OrderItem>, orders: seq<Order>, nextOrderId: int,
                      lines: seq<OrderProductDto>, firstId: int)
    requires ItemsReferenceOrders(items, orders) && KeysIncreasing(orders, OrderKey, nextOrderId)
    ensures ItemsDe(items + ItemsFor(nextOrderId, lines, firstId), nextOrderId) == ItemsFor(nextOrderId, lines, firstId)
  {
    forall i | 0 <= i < |items| ensures items[i].orderId != nextOrderId {
      assert HasOrder(orders, items[i].orderId);
      var j :| 0 <= j < |orders| && orders[j].orderId == items[i].orderId;
      assert OrderKey(orders[j]) < nextOrderId;
    }
    ItemsDeAppend(items, ItemsFor(nextOrderId, lines, firstId), nextOrderId);
    ItemsDeNone(items, nextOrderId);
    ItemsDeAll(ItemsFor(nextOrderId, lines, firstId), nextOrderId);
  }

  // ---------------------------------------------------------------------
  // OrderByDescending(o => o.FechaCreacion)
  // ---------------------------------------------------------------------

  ghost predicate SortedDesc(s: seq<Order>) {
    forall i, j :: 0 <= i < j < |s| ==> s[i].fechaCreacion >= s[j].fechaCreacion
  }

  /** Inserts `o` ahead of the first order not newer than it. */
  function InsertDesc(o: Order, s: seq<Order>): (r: seq<Order>)
    requires SortedDesc(s)
    ensures SortedDesc(r) && multiset(r) == multiset(s) + multiset{o}
    ensures forall x :: x in r ==> x == o || x in s
  {
    if s == [] then [o]
    else if o.fechaCreacion >= s[0].fechaCreacion then [o] + s
    else
      var rest := InsertDesc(o, s[1..]);
      assert s == [s[0]] + s[1..];
      PrependSorted(s, o, rest);
      [s[0]] + rest
  }

  /** The head of a sorted `s` can go in front of the insertion of an older `o` into its tail. */
  lemma PrependSorted(s: seq<Order>, o: Order, rest: seq<Order>)
    requires SortedDesc(s) && s != [] && o.fechaCreacion < s[0].fechaCreacion
    requires SortedDesc(rest) && forall y :: y in rest ==> y == o || y in s[1..]
    ensures SortedDesc([s[0]] + rest)
  {
    var r := [s[0]] + rest;
    forall i, j | 0 <= i < j < |r| ensures r[i].fechaCreacion >= r[j].fechaCreacion {
      if i == 0 {
        assert r[j] == rest[j - 1] && r[j] in rest;
        if r[j] != o {
          var m :| 0 <= m < |s[1..]| && s[1..][m] == r[j];
          assert s[m + 1] == r[j];
        }
      } else {
        assert r[i] == rest[i - 1] && r[j] == rest[j - 1];
      }
    }
  }

  /** A stable descending sort on the creation time. */
  function SortDesc(s: seq<Order>): (r: seq<Order>)
    ensures SortedDesc(r) && multiset(r) == multiset(s)
  {
    if s == [] then []
    else
      assert s == [s[0]] + s[1..];
      InsertDesc(s[0], SortDesc(s[1..]))
  }

  /** The caller may see the orders of `usuarioId`: they are the owner or an administrator. */
  predicate PuedeVer(usuarioId: int, callerId: int, rol: Option<string>) {
    usuarioId == callerId || rol == Some(RolAdministrador)
  }

  /** The orders of a response, without their lines. */
  function OrdersOf(xs: seq<OrderConItems>): (os: seq<Order>)
    ensures |os| == |xs| && forall i :: 0 <= i < |xs| ==> os[i] == xs[i].order
  {
    seq(|xs|, i requires 0 <= i < |xs| => xs[i].order)
  }

  class OrdersController {
    const db: Context

    constructor (db: Context)
      ensures this.db == db
    {
      this.db := db;
    }

    /**
     * `CreateOrder`, `callerId` being the authenticated account.  The order and
     * its lines are saved by two separate `SaveChangesAsync` calls, and the action
     * catches neither failure.  An order for an account that no longer exists
     * violates the foreign key, and a total too large for its column fails the
     * first save: nothing is stored.  A line price too large for its column fails
     * the second save: the order stays stored, without lines.
     */
    method CreateOrder(dto: CreateOrderDto, callerId: int, now: int) returns (r: ActionResult<OrderConItems>)
      requires db.Valid()
      modifies db
      ensures db.Valid() && db.OnlyOrdersChanged()
      ensures dto.usuarioId != callerId ==>
        r == BadRequest("No puedes crear órdenes para otros usuarios") && db.orders == old(db.orders) &&
        db.orderItems == old(db.orderItems) && db.nextOrderId == old(db.nextOrderId) && db.nextOrderItemId == old(db.nextOrderItemId)
      ensures dto.usuarioId == callerId && !HasUsuario(db.usuarios, dto.usuarioId) ==>
        r == ServerError && db.orders == old(db.orders) &&
        db.orderItems == old(db.orderItems) && db.nextOrderId == old(db.nextOrderId) && db.nextOrderItemId == old(db.nextOrderItemId)
      ensures dto.usuarioId == callerId && HasUsuario(db.usuarios, dto.usuarioId) && !CabeEnColumna(dto.total) ==>
        r == ServerError && db.orders == old(db.orders) &&
        db.orderItems == old(db.orderItems) && db.nextOrderId == old(db.nextOrderId) && db.nextOrderItemId == old(db.nextOrderItemId)
      ensures dto.usuarioId == callerId && HasUsuario(db.usuarios, dto.usuarioId) && CabeEnColumna(dto.total) &&
              !PreciosCaben(dto.productos) ==>
        var o := Order(old(db.nextOrderId), dto.usuarioId, dto.total, EstadoCompletado, MetodoPayPal,
                       Some(dto.paypalOrderId), dto.paypalPayerId, now, now);
        && r == ServerError && db.orders == old(db.orders) + [o] && db.nextOrderId == old(db.nextOrderId) + 1
        && db.orderItems == old(db.orderItems) && db.nextOrderItemId == old(db.nextOrderItemId)
      ensures dto.usuarioId == callerId && HasUsuario(db.usuarios, dto.usuarioId) && CabeEnColumna(dto.total) &&
              PreciosCaben(dto.productos) ==>
        var o := Order(old(db.nextOrderId), dto.usuarioId, dto.total, EstadoCompletado, MetodoPayPal,
                       Some(dto.paypalOrderId), dto.paypalPayerId, now, now);
        var items := ItemsFor(o.orderId, dto.productos, old(db.nextOrderItemId));
        && db.orders == old(db.orders) + [o] && db.nextOrderId == old(db.nextOrderId) + 1
        && db.orderItems == old(db.orderItems) + items
        && db.nextOrderItemId == old(db.nextOrderItemId) + |dto.productos|
        && r == Created(OrderConItems(o, ItemsDe(db.orderItems, o.orderId)))
        && ItemsDe(db.orderItems, o.orderId) == items
    {
      if dto.usuarioId != callerId {
        return BadRequest("No puedes crear órdenes para otros usuarios");
      }
      var owner := FindFirst(db.usuarios, UsuarioMatches, PorId(dto.usuarioId));
      if owner.None? {
        return ServerError;
      }
      assert UsuarioMatches(PorId(dto.usuarioId), db.usuarios[owner.value]);
      if !CabeEnColumna(dto.total) {
        return ServerError;
      }
      var order := Order(db.nextOrderId, dto.usuarioId, dto.total, EstadoCompletado, MetodoPayPal,
                         Some(dto.paypalOrderId), dto.paypalPayerId, now, now);
      NewOrderLines(db.orderItems, db.orders, db.nextOrderId, dto.productos, db.nextOrderItemId);
      db.AddOrder(order);
      assert HasOrder(db.orders, order.orderId) by {
        assert db.orders[|db.orders| - 1] == order;
      }
      if !PreciosCaben(dto.productos) {
        return ServerError;
      }
      AddItems(order.orderId, dto.productos);
      var loaded := ItemsDe(db.orderItems, order.orderId);
      r := Created(OrderConItems(order, loaded));
    }

    /** The `foreach` over the basket: one `OrderItems.Add` per line, saved together. */
    method AddItems(orderId: int, lines: seq<OrderProductDto>)
      requires db.Valid() && HasOrder(db.orders, orderId)
      modifies db
      ensures db.Valid() && db.OnlyOrdersChanged()
      ensures db.orders == old(db.orders) && db.nextOrderId == old(db.nextOrderId)
      ensures db.orderItems == old(db.orderItems) + ItemsFor(orderId, lines, old(db.nextOrderItemId))
      ensures db.nextOrderItemId == old(db.nextOrderItemId) + |lines|
    {
      var i := 0;
      while i < |lines|
        invariant 0 <= i <= |lines|
        invariant db.Valid() && db.OnlyOrdersChanged()
        invariant db.orders == old(db.orders) && db.nextOrderId == old(db.nextOrderId)
        invariant db.orderItems == old(db.orderItems) + ItemsFor(orderId, lines[..i], old(db.nextOrderItemId))
        invariant db.nextOrderItemId == old(db.nextOrderItemId) + i
      {
        var line := lines[i];
        var item := OrderItem(db.nextOrderItemId, orderId, line.productoId, line.nombre, line.cantidad, line.precio);
        db.AddOrderItem(item);
        assert ItemsFor(orderId, lines[..i + 1], old(db.nextOrderItemId))
            == ItemsFor(orderId, lines[..i], old(db.nextOrderItemId)) + [item];
        i := i + 1;
      }
      assert lines[..i] == lines;
    }

    /** `GetOrder(id)`: a missing order is reported before the access rule is applied. */
    function GetOrder(id: int, callerId: int, rol: Option<string>): (r: ActionResult<OrderConItems>)
      reads db
      ensures r.NotFound? <==> forall i :: 0 <= i < |db.orders| ==> db.orders[i].orderId != id
      ensures r.Forbid? <==> exists i :: 0 <= i < |db.orders| && db.orders[i].orderId == id &&
                                         !PuedeVer(db.orders[i].usuarioId, callerId, rol) &&
                                         forall j :: 0 <= j < i ==> db.orders[j].orderId != id
      ensures r.NotFound? || r.Forbid? || r.Ok?
      ensures r.Ok? ==> r.value.order in db.orders && r.value.order.orderId == id &&
                        PuedeVer(r.value.order.usuarioId, callerId, rol) &&
                        r.value.items == ItemsDe(db.orderItems, id)
    {
      match FindFirst(db.orders, OrderMatches, id)
      case None => NotFound
      case Some(k) =>
        if db.orders[k].usuarioId != callerId && rol != Some(RolAdministrador) then Forbid
        else Ok(OrderConItems(db.orders[k], ItemsDe(db.orderItems, id)))
    }

    /** `GetUserOrders(usuarioId)`: the owner's orders, newest first, each with its lines. */
    function GetUserOrders(usuarioId: int, callerId: int, rol: Option<string>): (r: ActionResult<seq<OrderConItems>>)
      reads db
      ensures r.Forbid? <==> !PuedeVer(usuarioId, callerId, rol)
      ensures r.Forbid? || r.Ok?
      ensures r.Ok? ==>
        && SortedDesc(OrdersOf(r.value))
        && multiset(OrdersOf(r.value)) == multiset(OrdersDe(db.orders, usuarioId))
        && forall i :: 0 <= i < |r.value| ==> r.value[i].items == ItemsDe(db.orderItems, r.value[i].order.orderId)
    {
      if usuarioId != callerId && rol != Some(RolAdministrador) then Forbid
      else
        var sorted := SortDesc(OrdersDe(db.orders, usuarioId));
        var res := seq(|sorted|, i requires 0 <= i < |sorted| reads db => OrderConItems(sorted[i], ItemsDe(db.orderItems, sorted[i].orderId)));
        assert OrdersOf(res) == sorted;
        Ok(res)
    }

    /** `UpdateOrderStatus` */
    method UpdateOrderStatus(id: int, estado: string, now: int) returns (r: ActionResult<()>)
      requires db.Valid()
      modifies db
      ensures db.Valid() && db.OnlyOrdersChanged()
      ensures db.orderItems == old(db.orderItems) && db.nextOrderId == old(db.nextOrderId)
      ensures db.nextOrderItemId == old(db.nextOrderItemId)
      ensures match FindFirst(old(db.orders), OrderMatches, id)
        case None => r == NotFound && db.orders == old(db.orders)
        case Some(k) =>
          r == Ok(()) && db.orders == old(db.orders)[k := old(db.orders)[k].(estado := estado, fechaActualizacion := now)]
    {
      var found := FindFirst(db.orders, OrderMatches, id);
      if found.None? {
        return NotFound;
      }
      var k := found.value;
      db.ReplaceOrder(k, db.orders[k].(estado := estado, fechaActualizacion := now));
      r := Ok(());
    }
  }

  /** Every order the listing returns is one of the account's, and every one of the account's is returned. */
  lemma UserOrdersAreTheOwners(orders: seq<Order>, usuarioId: int)
    ensures forall o :: o in SortDesc(OrdersDe(orders, usuarioId)) <==> o in orders && o.usuarioId == usuarioId
    ensures |SortDesc(OrdersDe(orders, usuarioId))| == |OrdersDe(orders, usuarioId)|
  {
    var f := OrdersDe(orders, usuarioId);
    var s := SortDesc(f);
    assert forall o :: o in s <==> o in multiset(s);
    assert forall o :: o in f <==> o in multiset(f);
    assert |s| == |multiset(s)| == |multiset(f)| == |f|;
  }
}
