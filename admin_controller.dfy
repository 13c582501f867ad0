/**
 * The administrator's actions on accounts: listing, role and status changes,
 * deletion, unlocking, and the system statistics.  The caller's id (read from
 * the token's claims) is a parameter; the role check on the controller is
 * left to the framework.
 */
module AdminControllers {
  import opened Wrappers
  import opened Clr
  import opened Tables
  import opened Grouping
  import opened Models
  import opened Dtos
  import opened DataContext
  import opened Actions
  import opened UsuarioServices

  const RolesValidos: seq<string> := [RolCliente, RolEmpleado, RolAdministrador]

  /** The listing: the row count and every account as its read projection, in table order. */
  datatype ListaUsuarios = ListaUsuarios(total: nat, data: seq<UsuarioReadDto>)

  datatype EstadisticasUsuarios = EstadisticasUsuarios(
    total: nat, activos: nat, inactivos: int, porRol: seq<Grupo<string>>)

  datatype EstadisticasProductos = EstadisticasProductos(total: nat, porCategoria: seq<Grupo<Option<string>>>)

  datatype Estadisticas = Estadisticas(usuarios: EstadisticasUsuarios, productos: EstadisticasProductos)

  /** The `Rol` column. */
  function Roles(rows: seq<Usuario>): (r: seq<string>)
    ensures |r| == |rows| && forall i :: 0 <= i < |rows| ==> r[i] == rows[i].rol
  {
    seq(|rows|, i requires 0 <= i < |rows| => rows[i].rol)
  }

  /** The `Activo` column. */
  function ActivoColumna(rows: seq<Usuario>): (r: seq<bool>)
    ensures |r| == |rows| && forall i :: 0 <= i < |rows| ==> r[i] == rows[i].activo
  {
    seq(|rows|, i requires 0 <= i < |rows| => rows[i].activo)
  }

  /** The `Categoria` column. */
  function Categorias(rows: seq<Productos>): (r: seq<Option<string>>)
    ensures |r| == |rows| && forall i :: 0 <= i < |rows| ==> r[i] == rows[i].categoria
  {
    seq(|rows|, i requires 0 <= i < |rows| => rows[i].categoria)
  }

  /** The key SQL Server's `GROUP BY` compares a category by: null is a group of its own, and trailing spaces do not count. */
  function ClaveCategoria(c: Option<string>): (k: Option<string>)
    ensures k.Some? <==> c.Some?
    ensures c.Some? ==> SqlEquals(k.value, c.value)
  {
    MapOption(c, TrimTrailingSpaces)
  }

  /** Two categories that differ only by trailing spaces are counted in one group. */
  lemma PaddedCategoriesShareGroup(c: string, n: nat)
    ensures ClaveCategoria(Some(c + Spaces(n))) == ClaveCategoria(Some(c))
  {
    TrailingSpacesIgnored(c, n);
  }

  /** The account as `DesbloquearUsuario` saves it. */
  function Desbloqueado(u: Usuario, now: int): (v: Usuario)
    ensures !Bloqueado(v, now) && v.intentosAccesoFallidos == 0
  {
    u.(intentosAccesoFallidos := 0, bloqueoHasta := None, fechaActualizacion := Some(now))
  }

  class AdminController {
    const db: Context

    constructor (db: Context)
      ensures this.db == db
    {
      this.db := db;
    }

    /** `GetUsuarios` */
    function GetUsuarios(): (r: ListaUsuarios)
      reads db
      ensures r.total == |r.data| == |db.usuarios|
      ensures forall i :: 0 <= i < |db.usuarios| ==> r.data[i] == ToReadDto(db.usuarios[i])
    {
      ListaUsuarios(|db.usuarios|, seq(|db.usuarios|, i requires 0 <= i < |db.usuarios| reads db => ToReadDto(db.usuarios[i])))
    }

    /** `GetUsuario(id)` */
    function GetUsuario(id: int): (r: ActionResult<UsuarioReadDto>)
      reads db
      ensures r.NotFound? <==> forall i :: 0 <= i < |db.usuarios| ==> db.usuarios[i].usuarioId != id
      ensures r.NotFound? || r.Ok?
      ensures r.Ok? ==> exists i :: 0 <= i < |db.usuarios| && db.usuarios[i].usuarioId == id &&
                                    r.value == ToReadDto(db.usuarios[i])
    {
      match FindFirst(db.usuarios, UsuarioMatches, PorId(id))
      case None => NotFound
      case Some(k) => Ok(ToReadDto(db.usuarios[k]))
    }

    /** `CambiarRol`: the account is looked up before the role is checked against the whitelist. */
    method CambiarRol(id: int, nuevoRol: string, now: int) returns (r: ActionResult<UsuarioReadDto>)
      requires db.Valid()
      modifies db
      ensures db.Valid() && db.OnlyUsuariosChanged() && db.nextUsuarioId == old(db.nextUsuarioId)
      ensures match FindFirst(old(db.usuarios), UsuarioMatches, PorId(id))
        case None => r == NotFound && db.usuarios == old(db.usuarios)
        case Some(k) =>
          if nuevoRol !in RolesValidos then r == BadRequest("Rol inválido") && db.usuarios == old(db.usuarios)
          else
            var u := old(db.usuarios)[k].(rol := nuevoRol, fechaActualizacion := Some(now));
            db.usuarios == old(db.usuarios)[k := u] && r == Ok(ToReadDto(u))
    {
      var found := FindFirst(db.usuarios, UsuarioMatches, PorId(id));
      if found.None? {
        return NotFound;
      }
      if nuevoRol !in RolesValidos {
        return BadRequest("Rol inválido");
      }
      var k := found.value;
      var usuario := db.usuarios[k].(rol := nuevoRol, fechaActualizacion := Some(now));
      db.ReplaceUsuario(k, usuario);
      r := Ok(ToReadDto(usuario));
    }

    /** `CambiarEstado` */
    method CambiarEstado(id: int, activo: bool, now: int) returns (r: ActionResult<UsuarioReadDto>)
      requires db.Valid()
      modifies db
      ensures db.Valid() && db.OnlyUsuariosChanged() && db.nextUsuarioId == old(db.nextUsuarioId)
      ensures match FindFirst(old(db.usuarios), UsuarioMatches, PorId(id))
        case None => r == NotFound && db.usuarios == old(db.usuarios)
        case Some(k) =>
          var u := old(db.usuarios)[k].(activo := activo, fechaActualizacion := Some(now));
          db.usuarios == old(db.usuarios)[k := u] && r == Ok(ToReadDto(u))
    {
      var found := FindFirst(db.usuarios, UsuarioMatches, PorId(id));
      if found.None? {
        return NotFound;
      }
      var k := found.value;
      var usuario := db.usuarios[k].(activo := activo, fechaActualizacion := Some(now));
      db.ReplaceUsuario(k, usuario);
      r := Ok(ToReadDto(usuario));
    }

    /**
     * `DeleteUsuario`, `callerId` being the administrator's own id.  An account
     * that still has orders cannot be removed: the restricting foreign key makes
     * the save throw, and the action does not catch it.
     */
    method DeleteUsuario(id: int, callerId: int) returns (r: ActionResult<()>)
      requires db.Valid()
      modifies db
      ensures db.Valid() && db.OnlyUsuariosChanged() && db.nextUsuarioId == old(db.nextUsuarioId)
      ensures match FindFirst(old(db.usuarios), UsuarioMatches, PorId(id))
        case None => r == NotFound && db.usuarios == old(db.usuarios)
        case Some(k) =>
          if id == callerId then
            r == BadRequest("No puedes eliminar tu propia cuenta") && db.usuarios == old(db.usuarios)
          else if exists i :: 0 <= i < |old(db.orders)| && old(db.orders)[i].usuarioId == id then
            r == ServerError && db.usuarios == old(db.usuarios)
          else
            r == NoContent && db.usuarios == RemoveAt(old(db.usuarios), k)
    {
      var found := FindFirst(db.usuarios, UsuarioMatches, PorId(id));
      if found.None? {
        return NotFound;
      }
      if id == callerId {
        return BadRequest("No puedes eliminar tu propia cuenta");
      }
      var k := found.value;
      var referenced := FindFirst(db.orders, OrderDeUsuario, id);
      if referenced.Some? {
        return ServerError;
      }
      db.RemoveUsuario(k);
      r := NoContent;
    }

    /** `DesbloquearUsuario` */
    method DesbloquearUsuario(id: int, now: int) returns (r: ActionResult<UsuarioReadDto>)
      requires db.Valid()
      modifies db
      ensures db.Valid() && db.OnlyUsuariosChanged() && db.nextUsuarioId == old(db.nextUsuarioId)
      ensures match FindFirst(old(db.usuarios), UsuarioMatches, PorId(id))
        case None => r == NotFound && db.usuarios == old(db.usuarios)
        case Some(k) =>
          var u := Desbloqueado(old(db.usuarios)[k], now);
          db.usuarios == old(db.usuarios)[k := u] && r == Ok(ToReadDto(u))
    {
      var found := FindFirst(db.usuarios, UsuarioMatches, PorId(id));
      if found.None? {
        return NotFound;
      }
      var k := found.value;
      var usuario := db.usuarios[k].(intentosAccesoFallidos := 0, bloqueoHasta := None);
      usuario := usuario.(fechaActualizacion := Some(now));
      db.ReplaceUsuario(k, usuario);
      r := Ok(ToReadDto(usuario));
    }

    /**
     * `GetEstadisticas`.  The groups are formed by SQL Server, whose comparison
     * ignores trailing spaces, so keys that differ only there share one group.
     */
    function GetEstadisticas(): (e: Estadisticas)
      reads db
      ensures e.usuarios.total == |db.usuarios| && e.productos.total == |db.productos|
      ensures e.usuarios.activos == Count(ActivoColumna(db.usuarios), true)
      ensures e.usuarios.inactivos == Count(ActivoColumna(db.usuarios), false)
      ensures Total(e.usuarios.porRol) == e.usuarios.total
      ensures ClavesDistintas(e.usuarios.porRol, TrimTrailingSpaces)
      ensures forall i :: 0 <= i < |e.usuarios.porRol| ==> e.usuarios.porRol[i].clave in Roles(db.usuarios)
      ensures forall n :: CantidadDe(e.usuarios.porRol, TrimTrailingSpaces, n) == CountBy(Roles(db.usuarios), TrimTrailingSpaces, n)
      ensures Total(e.productos.porCategoria) == e.productos.total
      ensures ClavesDistintas(e.productos.porCategoria, ClaveCategoria)
      ensures forall i :: 0 <= i < |e.productos.porCategoria| ==> e.productos.porCategoria[i].clave in Categorias(db.productos)
      ensures forall n :: CantidadDe(e.productos.porCategoria, ClaveCategoria, n) == CountBy(Categorias(db.productos), ClaveCategoria, n)
    {
      var activos := Count(ActivoColumna(db.usuarios), true);
      CountBoth(ActivoColumna(db.usuarios));
      GroupCountMeaning(Roles(db.usuarios), TrimTrailingSpaces);
      GroupCountMeaning(Categorias(db.productos), ClaveCategoria);
      Estadisticas(
        EstadisticasUsuarios(|db.usuarios|, activos, |db.usuarios| - activos, GroupCount(Roles(db.usuarios), TrimTrailingSpaces)),
        EstadisticasProductos(|db.productos|, GroupCount(Categorias(db.productos), ClaveCategoria)))
    }
  }

  /** `o.UsuarioId == id`: the orders the restricting foreign key protects. */
  predicate OrderDeUsuario(id: int, o: Order) { o.usuarioId == id }

  /**
   * After an unlock the login lock guard never fires, and the account may again
   * fail four times in a row before a wrong password locks it.
   */
  lemma UnlockRestoresAttempts(u: Usuario, now: int, xs: seq<Intento>, t: string, later: int, ok: bool)
    requires |xs| == 4 && forall i :: 0 <= i < |xs| ==> !xs[i].passwordOk
    ensures forall at :: !Bloqueado(Desbloqueado(u, now), at)
    ensures LoginStep(Desbloqueado(u, now), ok, t, later).error.Some? ==>
            !LoginStep(Desbloqueado(u, now), ok, t, later).error.value.CuentaBloqueada?
    ensures Intentos(Desbloqueado(u, now), xs).intentosAccesoFallidos == 4
    ensures !Bloqueado(Intentos(Desbloqueado(u, now), xs), later)
  {
    WrongPasswordsAccumulate(Desbloqueado(u, now), xs);
  }
}
