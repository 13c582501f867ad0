/**
 * The entities of the store: users, products, orders and order lines.
 * Timestamps are integer seconds; `decimal` money amounts are integer cents
 * (the columns are `decimal(18,2)`).
 */
module Models {
  import opened Wrappers
  import opened Clr
  import opened Validation

  const RolCliente := "Cliente"
  const RolEmpleado := "Empleado"
  const RolAdministrador := "Administrador"

  /** A user account, field for field.  `intentosAccesoFallidos` is a C# `int`. */
  datatype Usuario = Usuario(
    usuarioId: int,
    email: string,
    passwordHash: string,
    nombre: string,
    apellido: string,
    telefono: Option<string>,
    rol: string,
    activo: bool,
    emailConfirmado: bool,
    fechaCreacion: int,
    fechaActualizacion: Option<int>,
    ultimoAcceso: Option<int>,
    intentosAccesoFallidos: Int32,
    bloqueoHasta: Option<int>,
    refreshToken: Option<string>,
    refreshTokenExpiracion: Option<int>,
    emailConfirmacionToken: Option<string>,
    emailConfirmacionTokenExpiracion: Option<int>,
    passwordResetToken: Option<string>,
    passwordResetTokenExpiracion: Option<int>)

  function UsuarioKey(u: Usuario): int { u.usuarioId }

  /** A catalogue product; `precio` in cents. */
  datatype Productos = Productos(
    productoId: int,
    nombre: Option<string>,
    categoria: Option<string>,
    descripcion: Option<string>,
    precio: int,
    imagenUrl: Option<string>)

  function ProductoKey(p: Productos): int { p.productoId }

  /** A placed order; `total` in cents. */
  datatype Order = Order(
    orderId: int,
    usuarioId: int,
    total: int,
    estado: string,
    metodoPago: string,
    payPalOrderId: Option<string>,
    payPalPayerId: Option<string>,
    fechaCreacion: int,
    fechaActualizacion: int)

  function OrderKey(o: Order): int { o.orderId }

  /** One product line of an order; `precio` in cents. */
  datatype OrderItem = OrderItem(
    orderItemId: int,
    orderId: int,
    productoId: int,
    nombre: string,
    cantidad: int,
    precio: int)

  function OrderItemKey(i: OrderItem): int { i.orderItemId }

  // ---------------------------------------------------------------------
  // The validation attributes of Productos
  // ---------------------------------------------------------------------

  predicate ProductoNombreValido(v: Option<string>) {
    Required(v) && StringLength(v, 0, 100) && RegularExpression(v, LettersAndSpaces(3, 50))
  }

  predicate ProductoCategoriaValida(v: Option<string>) {
    Required(v) && StringLength(v, 0, 50) && RegularExpression(v, LettersAndSpaces(3, 30))
  }

  predicate ProductoDescripcionValida(v: Option<string>) {
    Required(v) && StringLength(v, 0, 255)
  }

  /** `[Range(0.01, 999999.99)]` on a price held in cents. */
  predicate ProductoPrecioValido(cents: int) {
    1 <= cents <= 99_999_999
  }

  /** `[Required]` plus the scheme prefix demanded by both `[Url]` and the URL pattern. */
  predicate ProductoImagenUrlValida(v: Option<string>) {
    Required(v) && RegularExpression(v, HttpUrl)
  }

  predicate ProductoValido(p: Productos) {
    && ProductoNombreValido(p.nombre)
    && ProductoCategoriaValida(p.categoria)
    && ProductoDescripcionValida(p.descripcion)
    && ProductoPrecioValido(p.precio)
    && ProductoImagenUrlValida(p.imagenUrl)
  }

  /** A `[Required]` string has a character that is not white space, so it is never empty. */
  lemma RequiredNotEmpty(v: Option<string>)
    requires Required(v)
    ensures v.Some? && |v.value| >= 1
  {
  }

  /** A price in cents is valid exactly when, read as a decimal amount, it lies in [0.01, 999999.99]. */
  lemma ProductoPrecioEnRango(cents: int)
    ensures ProductoPrecioValido(cents) <==> 0.01 <= cents as real / 100.0 <= 999999.99
  {
    if cents as real / 100.0 >= 0.01 {
      assert cents as real >= 1.0;
    }
    if cents as real / 100.0 <= 999999.99 {
      assert cents as real <= 99999999.0;
    }
  }

  /** A product name: 3..50 letters and spaces, not all spaces; the pattern is tighter than the 100-character limit. */
  lemma ProductoNombreMeaning(v: Option<string>)
    ensures ProductoNombreValido(v) <==>
      && v.Some?
      && 3 <= |v.value| <= 50
      && (forall j :: 0 <= j < |v.value| ==> IsNameChar(v.value[j]))
      && (exists j :: 0 <= j < |v.value| && !IsWhiteSpace(v.value[j]))
  {
  }

  /** A category: 3..30 letters and spaces, not all spaces. */
  lemma ProductoCategoriaMeaning(v: Option<string>)
    ensures ProductoCategoriaValida(v) <==>
      && v.Some?
      && 3 <= |v.value| <= 30
      && (forall j :: 0 <= j < |v.value| ==> IsNameChar(v.value[j]))
      && (exists j :: 0 <= j < |v.value| && !IsWhiteSpace(v.value[j]))
  {
  }

  /** A description: present, not blank, at most 255 characters. */
  lemma ProductoDescripcionMeaning(v: Option<string>)
    ensures ProductoDescripcionValida(v) <==>
      v.Some? && |v.value| <= 255 && exists j :: 0 <= j < |v.value| && !IsWhiteSpace(v.value[j])
  {
  }

  /** An image URL: present and starting with `http://` or `https://`. */
  lemma ProductoImagenUrlMeaning(v: Option<string>)
    ensures ProductoImagenUrlValida(v) ==>
      v.Some? && (StartsWith(v.value, "http://") || StartsWith(v.value, "https://"))
  {
  }
}
