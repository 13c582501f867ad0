/**
 * The product catalogue: listing, lookup by id, whole-row update, insertion
 * with a case-insensitive duplicate-name check, and deletion.
 */
module ProductosControllers {
  import opened Wrappers
  import opened Clr
  import opened Tables
  import opened Models
  import opened Dtos
  import opened DataContext
  import opened Actions

  datatype ProductoReadDto = ProductoReadDto(
    productoId: int, nombre: Option<string>, categoria: Option<string>,
    descripcion: Option<string>, precio: int, imagenUrl: Option<string>)

  /** The field-for-field read projection. */
  function ToProductoReadDto(p: Productos): ProductoReadDto {
    ProductoReadDto(p.productoId, p.nombre, p.categoria, p.descripcion, p.precio, p.imagenUrl)
  }

  /**
   * `p.Nombre.ToLower() == nombre.ToLower()`, evaluated by the store: trailing
   * spaces do not count, and a null stored name equals nothing.
   */
  predicate NombreIgual(nombre: string, p: Productos) {
    p.nombre.Some? && SqlEquals(ToLower(p.nombre.value), ToLower(nombre))
  }

  const ConflictoNombre := "Ya existe un producto con ese nombre."

  class ProductosController {
    const db: Context

    constructor (db: Context)
      ensures this.db == db
    {
      this.db := db;
    }

    /** `GetProductos()`: every product, in table order. */
    function GetProductos(): (r: seq<ProductoReadDto>)
      reads db
      ensures |r| == |db.productos|
      ensures forall i :: 0 <= i < |r| ==> r[i] == ToProductoReadDto(db.productos[i])
    {
      seq(|db.productos|, i requires 0 <= i < |db.productos| reads db => ToProductoReadDto(db.productos[i]))
    }

    /** `GetProductos(id)` */
    function GetProducto(id: int): (r: ActionResult<ProductoReadDto>)
      reads db
      ensures r.NotFound? <==> forall i :: 0 <= i < |db.productos| ==> db.productos[i].productoId != id
      ensures r.NotFound? || r.Ok?
      ensures r.Ok? ==> exists i :: 0 <= i < |db.productos| && db.productos[i].productoId == id &&
                                    r.value == ToProductoReadDto(db.productos[i])
    {
      match FindFirst(db.productos, ProductoMatches, id)
      case None => NotFound
      case Some(k) => Ok(ToProductoReadDto(db.productos[k]))
    }

    /**
     * `PutProductos(id, productos)`: the body replaces the whole stored row.  An
     * update that matches no row surfaces as a concurrency exception, answered
     * with NotFound once the row is confirmed missing.  `BadRequest("")` is the
     * empty-bodied 400.
     */
    method PutProductos(id: int, productos: Productos) returns (r: ActionResult<()>)
      requires db.Valid()
      modifies db
      ensures db.Valid() && db.OnlyProductosChanged() && db.nextProductoId == old(db.nextProductoId)
      ensures id != productos.productoId ==> r == BadRequest("") && db.productos == old(db.productos)
      ensures id == productos.productoId ==>
        match FindFirst(old(db.productos), ProductoMatches, id)
        case None => r == NotFound && db.productos == old(db.productos)
        case Some(k) => r == NoContent && db.productos == old(db.productos)[k := productos]
    {
      if id != productos.productoId {
        return BadRequest("");
      }
      var found := FindFirst(db.productos, ProductoMatches, id);
      if found.None? {
        return NotFound;
      }
      db.ReplaceProducto(found.value, productos);
      r := NoContent;
    }

    /**
     * `PostProductos(dto)`.  The name is `[Required]`, which the framework enforces
     * before the action runs.  The DTO lets the description and the image URL be
     * null, but `Productos` marks both `[Required]`, which makes their columns
     * NOT NULL: such an insert throws, and the action does not catch it.
     */
    method PostProductos(dto: ProductoDto) returns (r: ActionResult<ProductoReadDto>)
      requires db.Valid() && dto.nombre.Some?
      modifies db
      ensures db.Valid() && db.OnlyProductosChanged()
      ensures (exists i :: 0 <= i < |old(db.productos)| && NombreIgual(dto.nombre.value, old(db.productos)[i])) ==>
        r == Conflict(ConflictoNombre) && db.productos == old(db.productos) && db.nextProductoId == old(db.nextProductoId)
      ensures (forall i :: 0 <= i < |old(db.productos)| ==> !NombreIgual(dto.nombre.value, old(db.productos)[i])) &&
              (dto.descripcion.None? || dto.imagenUrl.None?) ==>
        r == ServerError && db.productos == old(db.productos) && db.nextProductoId == old(db.nextProductoId)
      ensures (forall i :: 0 <= i < |old(db.productos)| ==> !NombreIgual(dto.nombre.value, old(db.productos)[i])) &&
              dto.descripcion.Some? && dto.imagenUrl.Some? ==>
        var p := Productos(old(db.nextProductoId), dto.nombre, dto.categoria, dto.descripcion, dto.precio, dto.imagenUrl);
        && db.productos == old(db.productos) + [p]
        && db.nextProductoId == old(db.nextProductoId) + 1
        && r == Created(ToProductoReadDto(p))
    {
      var existe := FindFirst(db.productos, NombreIgual, dto.nombre.value);
      if existe.Some? {
        return Conflict(ConflictoNombre);
      }
      if dto.descripcion.None? || dto.imagenUrl.None? {
        return ServerError;
      }
      var producto := Productos(db.nextProductoId, dto.nombre, dto.categoria, dto.descripcion, dto.precio, dto.imagenUrl);
      db.AddProducto(producto);
      r := Created(ToProductoReadDto(producto));
    }

    /** `DeleteProductos(id)` */
    method DeleteProductos(id: int) returns (r: ActionResult<()>)
      requires db.Valid()
      modifies db
      ensures db.Valid() && db.OnlyProductosChanged() && db.nextProductoId == old(db.nextProductoId)
      ensures match FindFirst(old(db.productos), ProductoMatches, id)
        case None => r == NotFound && db.productos == old(db.productos)
        case Some(k) => r == NoContent && db.productos == RemoveAt(old(db.productos), k)
    {
      var found := FindFirst(db.productos, ProductoMatches, id);
      if found.None? {
        return NotFound;
      }
      db.RemoveProducto(found.value);
      r := NoContent;
    }
  }

  /** Once a product is stored, inserting any name equal to its name ignoring case is refused. */
  lemma StoredNameConflicts(rows: seq<Productos>, p: Productos, nombre: string)
    requires p.nombre.Some? && ToLower(nombre) == ToLower(p.nombre.value)
    ensures exists i :: 0 <= i < |rows + [p]| && NombreIgual(nombre, (rows + [p])[i])
  {
    assert (rows + [p])[|rows|] == p;
  }

  /** A name that differs from a stored one only by trailing spaces conflicts too, as the store compares. */
  lemma PaddedNameConflicts(rows: seq<Productos>, p: Productos, n: nat)
    requires p.nombre.Some?
    ensures exists i :: 0 <= i < |rows + [p]| && NombreIgual(p.nombre.value + Spaces(n), (rows + [p])[i])
  {
    var nombre := p.nombre.value;
    assert ToLower(nombre + Spaces(n)) == ToLower(nombre) + Spaces(n);
    TrailingSpacesIgnored(ToLower(nombre), n);
    assert (rows + [p])[|rows|] == p;
  }

  /** After a delete no product has the deleted key, and every other product is still there, in order. */
  lemma DeletedProductGone(rows: seq<Productos>, next: int, k: nat)
    requires KeysIncreasing(rows, ProductoKey, next) && k < |rows|
    ensures FindFirst(RemoveAt(rows, k), ProductoMatches, rows[k].productoId).None?
    ensures RemoveAt(rows, k) == rows[..k] + rows[k + 1..]
  {
    var r := RemoveAt(rows, k);
    forall j | 0 <= j < |r| ensures !ProductoMatches(rows[k].productoId, r[j]) {
      var j' := if j < k then j else j + 1;
      assert r[j] == rows[j'];
    }
  }

  /** After an update the key finds the row just written. */
  lemma UpdatedProductFound(rows: seq<Productos>, next: int, k: nat, p: Productos)
    requires KeysIncreasing(rows, ProductoKey, next) && k < |rows| && p.productoId == rows[k].productoId
    ensures FindFirst(rows[k := p], ProductoMatches, p.productoId) == Some(k)
  {
    var r := rows[k := p];
    assert ProductoMatches(p.productoId, r[k]);
    forall j | 0 <= j < k ensures !ProductoMatches(p.productoId, r[j]) {
      assert ProductoKey(rows[j]) < ProductoKey(rows[k]);
    }
  }

  /** A product just inserted under the next key is found by that key, at the end of the table. */
  lemma InsertedProductFound(rows: seq<Productos>, next: int, p: Productos)
    requires KeysIncreasing(rows, ProductoKey, next) && p.productoId == next
    ensures FindFirst(rows + [p], ProductoMatches, next) == Some(|rows|)
  {
    var r := rows + [p];
    assert ProductoMatches(next, r[|rows|]);
    forall j | 0 <= j < |rows| ensures !ProductoMatches(next, r[j]) {
      assert r[j] == rows[j] && ProductoKey(rows[j]) < next;
    }
  }
}
