/**
 * The database context: the four tables, each a sequence of rows in key order,
 * and the identity counters the store draws new keys from.
 */
module DataContext {
  import opened Wrappers
  import opened Clr
  import opened Tables
  import opened Models

  /** The unique index on `Email`, under the case-insensitive comparison the application uses. */
  ghost predicate EmailsDistinct(rows: seq<Usuario>) {
    forall i, j :: 0 <= i < j < |rows| ==> ToLower(rows[i].email) != ToLower(rows[j].email)
  }

  /** A refresh token is stored on at most one account. */
  ghost predicate RefreshTokensDistinct(rows: seq<Usuario>) {
    forall i, j :: 0 <= i < j < |rows| && rows[i].refreshToken.Some? ==> rows[i].refreshToken != rows[j].refreshToken
  }

  ghost predicate UsuariosValid(rows: seq<Usuario>, next: int) {
    KeysIncreasing(rows, UsuarioKey, next) && EmailsDistinct(rows) && RefreshTokensDistinct(rows)
  }

  /** No account holds `token` as its refresh token: what a freshly generated token satisfies. */
  predicate RefreshTokenUnused(rows: seq<Usuario>, token: string) {
    forall i :: 0 <= i < |rows| ==> rows[i].refreshToken != Some(token)
  }

  /** The lookups issued against the `Usuarios` table. */
  datatype UsuarioQuery =
    | PorId(id: int)                 // FindAsync(id)
    | PorEmail(key: string)          // u.Email.ToLower() == key
    | PorRefreshToken(token: string) // u.RefreshToken == token

  predicate UsuarioMatches(q: UsuarioQuery, u: Usuario) {
    match q
    case PorId(id) => u.usuarioId == id
    case PorEmail(key) => ToLower(u.email) == key
    case PorRefreshToken(token) => u.refreshToken == Some(token)
  }

  predicate ProductoMatches(id: int, p: Productos) { p.productoId == id }
  predicate OrderMatches(id: int, o: Order) { o.orderId == id }

  /** Rewriting one account keeps the table valid when its key and e-mail are kept and its refresh token is kept, cleared or fresh. */
  lemma UpdateKeepsUsuariosValid(rows: seq<Usuario>, next: int, k: nat, u: Usuario)
    requires UsuariosValid(rows, next) && k < |rows|
    requires u.usuarioId == rows[k].usuarioId && u.email == rows[k].email
    requires u.refreshToken == rows[k].refreshToken || u.refreshToken.None? ||
             RefreshTokenUnused(rows, u.refreshToken.value)
    ensures UsuariosValid(rows[k := u], next)
  {
    ReplaceKeepsKeysIncreasing(rows, UsuarioKey, next, k, u);
    var r := rows[k := u];
    forall i, j | 0 <= i < j < |r| && r[i].refreshToken.Some?
      ensures r[i].refreshToken != r[j].refreshToken
    {
      if i == k && u.refreshToken != rows[k].refreshToken {
        assert rows[j].refreshToken != u.refreshToken;
      } else if j == k && u.refreshToken != rows[k].refreshToken {
        assert rows[i].refreshToken != u.refreshToken;
      }
    }
  }

  /** Inserting a new account keeps the table valid when it takes the next key, its e-mail is new and it holds no refresh token. */
  lemma AppendKeepsUsuariosValid(rows: seq<Usuario>, next: int, u: Usuario)
    requires UsuariosValid(rows, next)
    requires u.usuarioId == next && u.refreshToken.None?
    requires forall i :: 0 <= i < |rows| ==> ToLower(rows[i].email) != ToLower(u.email)
    ensures UsuariosValid(rows + [u], next + 1)
  {
    AppendKeepsKeysIncreasing(rows, UsuarioKey, next, u);
  }

  /** Appending an account that does not hold `token` keeps it unused. */
  lemma AppendKeepsTokenUnused(rows: seq<Usuario>, u: Usuario, token: string)
    requires RefreshTokenUnused(rows, token) && u.refreshToken != Some(token)
    ensures RefreshTokenUnused(rows + [u], token)
  {
  }

  /** Some account has key `id`. */
  ghost predicate HasUsuario(rows: seq<Usuario>, id: int) {
    exists j :: 0 <= j < |rows| && rows[j].usuarioId == id
  }

  /** Some order has key `id`. */
  ghost predicate HasOrder(rows: seq<Order>, id: int) {
    exists j :: 0 <= j < |rows| && rows[j].orderId == id
  }

  /** The foreign key `Orders.UsuarioId -> Usuarios` (`DeleteBehavior.Restrict`). */
  ghost predicate OrdersReferenceUsuarios(orders: seq<Order>, usuarios: seq<Usuario>) {
    forall i :: 0 <= i < |orders| ==> HasUsuario(usuarios, orders[i].usuarioId)
  }

  /** The foreign key `OrderItems.OrderId -> Orders`. */
  ghost predicate ItemsReferenceOrders(items: seq<OrderItem>, orders: seq<Order>) {
    forall i :: 0 <= i < |items| ==> HasOrder(orders, items[i].orderId)
  }

  /** Rewriting a row without changing keys keeps every reference to it. */
  lemma ReplaceKeepsUsuarioReferences(orders: seq<Order>, rows: seq<Usuario>, k: nat, u: Usuario)
    requires OrdersReferenceUsuarios(orders, rows) && k < |rows| && u.usuarioId == rows[k].usuarioId
    ensures OrdersReferenceUsuarios(orders, rows[k := u])
  {
    forall i | 0 <= i < |orders| ensures HasUsuario(rows[k := u], orders[i].usuarioId) {
      var j :| 0 <= j < |rows| && rows[j].usuarioId == orders[i].usuarioId;
      assert rows[k := u][j].usuarioId == orders[i].usuarioId;
    }
  }

  lemma AppendKeepsUsuarioReferences(orders: seq<Order>, rows: seq<Usuario>, u: Usuario)
    requires OrdersReferenceUsuarios(orders, rows)
    ensures OrdersReferenceUsuarios(orders, rows + [u])
  {
    forall i | 0 <= i < |orders| ensures HasUsuario(rows + [u], orders[i].usuarioId) {
      assert HasUsuario(rows, orders[i].usuarioId);
      var j :| 0 <= j < |rows| && rows[j].usuarioId == orders[i].usuarioId;
      assert (rows + [u])[j].usuarioId == orders[i].usuarioId;
    }
  }

  /** Removing an account no order refers to keeps every order's reference. */
  lemma RemoveKeepsUsuarioReferences(orders: seq<Order>, rows: seq<Usuario>, k: nat)
    requires OrdersReferenceUsuarios(orders, rows) && k < |rows|
    requires forall i :: 0 <= i < |orders| ==> orders[i].usuarioId != rows[k].usuarioId
    ensures OrdersReferenceUsuarios(orders, RemoveAt(rows, k))
  {
    var r := RemoveAt(rows, k);
    forall i | 0 <= i < |orders| ensures HasUsuario(r, orders[i].usuarioId) {
      var j :| 0 <= j < |rows| && rows[j].usuarioId == orders[i].usuarioId;
      var j' := if j < k then j else j - 1;
      assert r[j'].usuarioId == orders[i].usuarioId;
    }
  }

  lemma ReplaceKeepsOrderReferences(items: seq<OrderItem>, rows: seq<Order>, k: nat, o: Order)
    requires ItemsReferenceOrders(items, rows) && k < |rows| && o.orderId == rows[k].orderId
    ensures ItemsReferenceOrders(items, rows[k := o])
  {
    forall i | 0 <= i < |items| ensures HasOrder(rows[k := o], items[i].orderId) {
      var j :| 0 <= j < |rows| && rows[j].orderId == items[i].orderId;
      assert rows[k := o][j].orderId == items[i].orderId;
    }
  }

  lemma AppendKeepsOrderReferences(items: seq<OrderItem>, rows: seq<Order>, o: Order)
    requires ItemsReferenceOrders(items, rows)
    ensures ItemsReferenceOrders(items, rows + [o])
  {
    forall i | 0 <= i < |items| ensures HasOrder(rows + [o], items[i].orderId) {
      assert HasOrder(rows, items[i].orderId);
      var j :| 0 <= j < |rows| && rows[j].orderId == items[i].orderId;
      assert (rows + [o])[j].orderId == items[i].orderId;
    }
  }

  /** Removing an account keeps the e-mails and refresh tokens of the others distinct. */
  lemma RemoveKeepsUsuariosValid(rows: seq<Usuario>, next: int, k: nat)
    requires UsuariosValid(rows, next) && k < |rows|
    ensures UsuariosValid(RemoveAt(rows, k), next)
  {
    RemoveKeepsKeysIncreasing(rows, UsuarioKey, next, k);
    var r := RemoveAt(rows, k);
    forall i, j | 0 <= i < j < |r|
      ensures ToLower(r[i].email) != ToLower(r[j].email)
      ensures r[i].refreshToken.Some? ==> r[i].refreshToken != r[j].refreshToken
    {
      var i' := if i < k then i else i + 1;
      var j' := if j < k then j else j + 1;
      assert r[i] == rows[i'] && r[j] == rows[j'];
    }
  }

  class Context {
    var usuarios: seq<Usuario>
    var productos: seq<Productos>
    var orders: seq<Order>
    var orderItems: seq<OrderItem>
    var nextUsuarioId: int
    var nextProductoId: int
    var nextOrderId: int
    var nextOrderItemId: int

    ghost predicate Valid()
      reads this
    {
      && UsuariosValid(usuarios, nextUsuarioId)
      && KeysIncreasing(productos, ProductoKey, nextProductoId)
      && KeysIncreasing(orders, OrderKey, nextOrderId)
      && KeysIncreasing(orderItems, OrderItemKey, nextOrderItemId)
      && OrdersReferenceUsuarios(orders, usuarios)
      && ItemsReferenceOrders(orderItems, orders)
    }

    /** An empty database whose identity columns start at 1. */
    constructor ()
      ensures Valid()
      ensures usuarios == [] && productos == [] && orders == [] && orderItems == []
      ensures nextUsuarioId == 1 && nextProductoId == 1 && nextOrderId == 1 && nextOrderItemId == 1
    {
      usuarios, productos, orders, orderItems := [], [], [], [];
      nextUsuarioId, nextProductoId, nextOrderId, nextOrderItemId := 1, 1, 1, 1;
    }

    /** Only the `Usuarios` table (and its identity counter) may have changed. */
    twostate predicate OnlyUsuariosChanged()
      reads this
    {
      && productos == old(productos) && orders == old(orders) && orderItems == old(orderItems)
      && nextProductoId == old(nextProductoId) && nextOrderId == old(nextOrderId)
      && nextOrderItemId == old(nextOrderItemId)
    }

    /** Only the `Productos` table (and its identity counter) may have changed. */
    twostate predicate OnlyProductosChanged()
      reads this
    {
      && usuarios == old(usuarios) && orders == old(orders) && orderItems == old(orderItems)
      && nextUsuarioId == old(nextUsuarioId) && nextOrderId == old(nextOrderId)
      && nextOrderItemId == old(nextOrderItemId)
    }

    /** Only the `Orders` and `OrderItems` tables (and their identity counters) may have changed. */
    twostate predicate OnlyOrdersChanged()
      reads this
    {
      && usuarios == old(usuarios) && productos == old(productos)
      && nextUsuarioId == old(nextUsuarioId) && nextProductoId == old(nextProductoId)
    }

    // -------------------------------------------------------------------
    // The table writes: a change to a tracked row, `Add` or `Remove`,
    // followed by `SaveChangesAsync`.
    // -------------------------------------------------------------------

    /** Saves the tracked account at row `k`; keys and e-mail stay, a new refresh token is fresh. */
    method ReplaceUsuario(k: nat, u: Usuario)
      requires Valid() && k < |usuarios|
      requires u.usuarioId == usuarios[k].usuarioId && u.email == usuarios[k].email
      requires u.refreshToken == usuarios[k].refreshToken || u.refreshToken.None? ||
               RefreshTokenUnused(usuarios, u.refreshToken.value)
      modifies this
      ensures Valid() && OnlyUsuariosChanged() && nextUsuarioId == old(nextUsuarioId)
      ensures usuarios == old(usuarios)[k := u]
    {
      UpdateKeepsUsuariosValid(usuarios, nextUsuarioId, k, u);
      ReplaceKeepsUsuarioReferences(orders, usuarios, k, u);
      usuarios := usuarios[k := u];
    }

    /** Inserts a new account under the next key; its e-mail must be new to the unique index. */
    method AddUsuario(u: Usuario)
      requires Valid() && u.usuarioId == nextUsuarioId && u.refreshToken.None?
      requires forall i :: 0 <= i < |usuarios| ==> ToLower(usuarios[i].email) != ToLower(u.email)
      modifies this
      ensures Valid() && OnlyUsuariosChanged()
      ensures usuarios == old(usuarios) + [u] && nextUsuarioId == old(nextUsuarioId) + 1
    {
      AppendKeepsUsuariosValid(usuarios, nextUsuarioId, u);
      AppendKeepsUsuarioReferences(orders, usuarios, u);
      usuarios := usuarios + [u];
      nextUsuarioId := nextUsuarioId + 1;
    }

    /** Deletes the account at row `k`, which no order may refer to. */
    method RemoveUsuario(k: nat)
      requires Valid() && k < |usuarios|
      requires forall i :: 0 <= i < |orders| ==> orders[i].usuarioId != usuarios[k].usuarioId
      modifies this
      ensures Valid() && OnlyUsuariosChanged() && nextUsuarioId == old(nextUsuarioId)
      ensures usuarios == RemoveAt(old(usuarios), k)
    {
      RemoveKeepsUsuariosValid(usuarios, nextUsuarioId, k);
      RemoveKeepsUsuarioReferences(orders, usuarios, k);
      usuarios := RemoveAt(usuarios, k);
    }

    /** Inserts a product under the next key. */
    method AddProducto(p: Productos)
      requires Valid() && p.productoId == nextProductoId
      modifies this
      ensures Valid() && OnlyProductosChanged()
      ensures productos == old(productos) + [p] && nextProductoId == old(nextProductoId) + 1
    {
      AppendKeepsKeysIncreasing(productos, ProductoKey, nextProductoId, p);
      productos := productos + [p];
      nextProductoId := nextProductoId + 1;
    }

    /** Overwrites the product at row `k` with a row of the same key. */
    method ReplaceProducto(k: nat, p: Productos)
      requires Valid() && k < |productos| && p.productoId == productos[k].productoId
      modifies this
      ensures Valid() && OnlyProductosChanged() && nextProductoId == old(nextProductoId)
      ensures productos == old(productos)[k := p]
    {
      ReplaceKeepsKeysIncreasing(productos, ProductoKey, nextProductoId, k, p);
      productos := productos[k := p];
    }

    method RemoveProducto(k: nat)
      requires Valid() && k < |productos|
      modifies this
      ensures Valid() && OnlyProductosChanged() && nextProductoId == old(nextProductoId)
      ensures productos == RemoveAt(old(productos), k)
    {
      RemoveKeepsKeysIncreasing(productos, ProductoKey, nextProductoId, k);
      productos := RemoveAt(productos, k);
    }

    /** Inserts an order under the next key; its account must exist. */
    method AddOrder(o: Order)
      requires Valid() && o.orderId == nextOrderId && HasUsuario(usuarios, o.usuarioId)
      modifies this
      ensures Valid() && OnlyOrdersChanged()
      ensures orders == old(orders) + [o] && nextOrderId == old(nextOrderId) + 1
      ensures orderItems == old(orderItems) && nextOrderItemId == old(nextOrderItemId)
    {
      AppendKeepsKeysIncreasing(orders, OrderKey, nextOrderId, o);
      AppendKeepsOrderReferences(orderItems, orders, o);
      orders := orders + [o];
      nextOrderId := nextOrderId + 1;
    }

    /** Saves the tracked order at row `k`, keeping its key and its account. */
    method ReplaceOrder(k: nat, o: Order)
      requires Valid() && k < |orders| && o.orderId == orders[k].orderId && o.usuarioId == orders[k].usuarioId
      modifies this
      ensures Valid() && OnlyOrdersChanged()
      ensures orders == old(orders)[k := o] && nextOrderId == old(nextOrderId)
      ensures orderItems == old(orderItems) && nextOrderItemId == old(nextOrderItemId)
    {
      ReplaceKeepsKeysIncreasing(orders, OrderKey, nextOrderId, k, o);
      ReplaceKeepsOrderReferences(orderItems, orders, k, o);
      orders := orders[k := o];
    }

    /** Inserts an order line under the next key; its order must exist. */
    method AddOrderItem(item: OrderItem)
      requires Valid() && item.orderItemId == nextOrderItemId && HasOrder(orders, item.orderId)
      modifies this
      ensures Valid() && OnlyOrdersChanged()
      ensures orderItems == old(orderItems) + [item] && nextOrderItemId == old(nextOrderItemId) + 1
      ensures orders == old(orders) && nextOrderId == old(nextOrderId)
    {
      AppendKeepsKeysIncreasing(orderItems, OrderItemKey, nextOrderItemId, item);
      orderItems := orderItems + [item];
      nextOrderItemId := nextOrderItemId + 1;
    }
  }
}
