/**
 * The account service: registration, login with failed-attempt lockout,
 * profile read and update, password change and refresh-token rotation.
 *
 * The clock is the parameter `now` (seconds); the access token and the
 * refresh token the token service would generate are parameters too, and a
 * freshly generated refresh token is taken to be held by no account.
 */
module UsuarioServices {
  import opened Wrappers
  import opened Clr
  import opened Tables
  import opened Models
  import opened Dtos
  import opened PasswordHashing
  import opened DataContext

  /** The fifth consecutive failure locks the account. */
  const MaxIntentosFallidos: Int32 := 5
  /** `AddMinutes(15)` */
  const BloqueoSegundos := 15 * 60
  /** `AddDays(7)` */
  const RefreshTokenSegundos := 7 * 24 * 60 * 60
  /** `AddHours(1)` */
  const AccessTokenSegundos := 60 * 60

  datatype Error =
    | EmailYaRegistrado
    | CredencialesInvalidas
    | CuentaBloqueada(minutos: nat)
    | BloqueadaPorIntentos
    | CuentaDesactivadaContacte
    | UsuarioNoEncontrado
    | PasswordActualIncorrecta
    | ErrorCambiarPassword
    | TokenInvalido
    | TokenExpirado
    | CuentaDesactivada

  /** The number a string of decimal digits spells, most significant digit first. */
  function DigitsValue(s: string): nat
    requires forall i :: 0 <= i < |s| ==> '0' <= s[i] <= '9'
  {
    if s == [] then 0 else DigitsValue(s[..|s| - 1]) * 10 + (s[|s| - 1] - '0') as nat
  }

  /** The decimal digits of `n`, as string interpolation prints an `int`: they spell `n`, with no leading zero. */
  function DecimalString(n: nat): (s: string)
    ensures |s| >= 1 && forall i :: 0 <= i < |s| ==> '0' <= s[i] <= '9'
    ensures DigitsValue(s) == n
    ensures s[0] == '0' ==> s == "0"
  {
    if n < 10 then ['0' + n as char] else DecimalString(n / 10) + ['0' + (n % 10) as char]
  }

  /** The message the service returns with each failure. */
  function Mensaje(e: Error): string {
    match e
    case EmailYaRegistrado => "El email ya está registrado"
    case CredencialesInvalidas => "Credenciales inválidas"
    case CuentaBloqueada(m) => "Cuenta bloqueada. Intente nuevamente en " + DecimalString(m) + " minutos"
    case BloqueadaPorIntentos => "Cuenta bloqueada por 15 minutos debido a múltiples intentos fallidos"
    case CuentaDesactivadaContacte => "Cuenta desactivada. Contacte al administrador"
    case UsuarioNoEncontrado => "Usuario no encontrado"
    case PasswordActualIncorrecta => "La contraseña actual es incorrecta"
    case ErrorCambiarPassword => "Error al cambiar contraseña"
    case TokenInvalido => "Token inválido"
    case TokenExpirado => "Token expirado"
    case CuentaDesactivada => "Cuenta desactivada"
  }

  /** The `(Exito, Mensaje, Data)` tuple: data on success, the failure otherwise. */
  datatype Respuesta<T> = Exito(data: T) | Fallo(error: Error)

  /** The lookup key of an e-mail: `email.ToLower().Trim()`. */
  function NormalizeEmail(email: string): string {
    Trim(ToLower(email))
  }

  /** A normalized e-mail is its own lower-case form, so it is stored as the key it is looked up by. */
  lemma NormalizedEmailIsLower(email: string)
    ensures ToLower(NormalizeEmail(email)) == NormalizeEmail(email)
  {
    TrimToLowerCommute(ToLower(email));
    ToLowerIdempotent(email);
  }

  /** Two inputs that differ only in letter case and surrounding white space share one key. */
  lemma NormalizeEmailIgnoresCaseAndSpace(a: string, b: string)
    requires ToLower(Trim(a)) == ToLower(Trim(b))
    ensures NormalizeEmail(a) == NormalizeEmail(b)
  {
    TrimToLowerCommute(a);
    TrimToLowerCommute(b);
  }

  /** `AnyAsync(u => u.Email.ToLower() == key)` */
  predicate EmailRegistrado(rows: seq<Usuario>, key: string) {
    exists i :: 0 <= i < |rows| && ToLower(rows[i].email) == key
  }

  // ---------------------------------------------------------------------
  // Login and refresh as steps on one account
  // ---------------------------------------------------------------------

  predicate Bloqueado(u: Usuario, now: int) {
    u.bloqueoHasta.Some? && u.bloqueoHasta.value > now
  }

  /** The minutes component of the remaining lock time (`TimeSpan.Minutes`). */
  function MinutosRestantes(u: Usuario, now: int): (m: nat)
    requires Bloqueado(u, now)
    ensures m < 60
  {
    ((u.bloqueoHasta.value - now) / 60) % 60
  }

  /** The account as the step leaves it, and the failure if the step fails. */
  datatype Paso = Paso(usuario: Usuario, error: Option<Error>)

  /**
   * One login attempt on the account found by e-mail, `passwordOk` being the
   * verdict of `VerifyPassword` and `refreshToken` the token to issue.
   */
  function LoginStep(u: Usuario, passwordOk: bool, refreshToken: string, now: int): (p: Paso)
    ensures p.usuario.usuarioId == u.usuarioId && p.usuario.email == u.email
    ensures p.usuario.passwordHash == u.passwordHash && p.usuario.activo == u.activo
  {
    if Bloqueado(u, now) then
      Paso(u, Some(CuentaBloqueada(MinutosRestantes(u, now))))
    else if !passwordOk then
      var intentos := Increment(u.intentosAccesoFallidos);
      if intentos >= MaxIntentosFallidos then
        Paso(u.(intentosAccesoFallidos := intentos, bloqueoHasta := Some(now + BloqueoSegundos)),
             Some(BloqueadaPorIntentos))
      else
        Paso(u.(intentosAccesoFallidos := intentos), Some(CredencialesInvalidas))
    else if !u.activo then
      Paso(u, Some(CuentaDesactivadaContacte))
    else
      Paso(u.(intentosAccesoFallidos := 0, bloqueoHasta := None, ultimoAcceso := Some(now),
              refreshToken := Some(refreshToken),
              refreshTokenExpiracion := Some(now + RefreshTokenSegundos)),
           None)
  }

  /** A null expiry compares false with `<`, so it never expires. */
  predicate RefreshExpirado(u: Usuario, now: int) {
    u.refreshTokenExpiracion.Some? && u.refreshTokenExpiracion.value < now
  }

  /** One refresh on the account holding the presented token, `nuevo` being the token to issue. */
  function RefreshStep(u: Usuario, nuevo: string, now: int): (p: Paso)
    ensures p.usuario.usuarioId == u.usuarioId && p.usuario.email == u.email
  {
    if RefreshExpirado(u, now) then Paso(u, Some(TokenExpirado))
    else if !u.activo then Paso(u, Some(CuentaDesactivada))
    else Paso(u.(refreshToken := Some(nuevo), refreshTokenExpiracion := Some(now + RefreshTokenSegundos)), None)
  }

  /** The response of a step that issues tokens. */
  function Autenticado(p: Paso, token: string, refreshToken: string, now: int): Respuesta<AuthResponseDto> {
    if p.error.Some? then Fallo(p.error.value)
    else Exito(AuthResponseDto(token, refreshToken, now + AccessTokenSegundos, ToReadDto(p.usuario)))
  }

  /** `VerifyPassword` on a possibly null password: a null one throws inside and verifies nothing. */
  predicate PasswordActualOk(ps: PasswordService, actual: Option<string>, hash: string) {
    actual.Some? && ps.Matches(actual.value, hash)
  }

  /** The account `RegistrarAsync` stores: key `id`, hash `hash`, and the refresh token issued right after insertion. */
  function Registrado(dto: RegistroUsuarioDto, id: int, hash: string, refreshToken: string, now: int): (u: Usuario)
    ensures u.email == NormalizeEmail(dto.email) && u.rol == RolCliente && u.activo && !u.emailConfirmado
    ensures u.intentosAccesoFallidos == 0 && u.bloqueoHasta.None? && u.refreshToken == Some(refreshToken)
  {
    Usuario(id, NormalizeEmail(dto.email), hash, Trim(dto.nombre), Trim(dto.apellido), MapOption(dto.telefono, Trim),
            RolCliente, true, false, now, None, None, 0, None,
            Some(refreshToken), Some(now + RefreshTokenSegundos), None, None, None, None)
  }

  class UsuarioService {
    const db: Context
    const passwords: PasswordService

    constructor (db: Context, passwords: PasswordService)
      ensures this.db == db && this.passwords == passwords
    {
      this.db := db;
      this.passwords := passwords;
    }

    /** `RegistrarAsync`, with the salt of the new hash passed in. */
    method Registrar(dto: RegistroUsuarioDto, salt: Salt, token: string, refreshToken: string, now: int)
      returns (r: Respuesta<AuthResponseDto>)
      requires db.Valid() && RefreshTokenUnused(db.usuarios, refreshToken)
      modifies db
      ensures db.Valid() && db.OnlyUsuariosChanged()
      ensures EmailRegistrado(old(db.usuarios), NormalizeEmail(dto.email)) ==>
        r == Fallo(EmailYaRegistrado) && db.usuarios == old(db.usuarios) && db.nextUsuarioId == old(db.nextUsuarioId)
      ensures !EmailRegistrado(old(db.usuarios), NormalizeEmail(dto.email)) ==>
        var u := Registrado(dto, old(db.nextUsuarioId), passwords.Encoded(dto.password, salt), refreshToken, now);
        && db.usuarios == old(db.usuarios) + [u]
        && db.nextUsuarioId == old(db.nextUsuarioId) + 1
        && r == Exito(AuthResponseDto(token, refreshToken, now + AccessTokenSegundos, ToReadDto(u)))
    {
      var email := NormalizeEmail(dto.email);
      var existe := FindFirst(db.usuarios, UsuarioMatches, PorEmail(email));
      if existe.Some? {
        assert UsuarioMatches(PorEmail(email), db.usuarios[existe.value]);
        return Fallo(EmailYaRegistrado);
      }
      assert !EmailRegistrado(db.usuarios, email);
      var hash := passwords.HashPassword(dto.password, salt);
      var registrado := Registrado(dto, db.nextUsuarioId, hash, refreshToken, now);
      assert forall i :: 0 <= i < |db.usuarios| ==> ToLower(db.usuarios[i].email) != ToLower(registrado.email) by {
        NormalizedEmailIsLower(dto.email);
        assert forall i :: 0 <= i < |db.usuarios| ==> !UsuarioMatches(PorEmail(email), db.usuarios[i]);
      }
      Insertar(registrado);
      r := Exito(AuthResponseDto(token, refreshToken, now + AccessTokenSegundos, ToReadDto(registrado)));
    }

    /**
     * The two saves of `RegistrarAsync`: the account is inserted without a
     * refresh token, then the token is stored on it.
     */
    method Insertar(registrado: Usuario)
      requires db.Valid() && registrado.usuarioId == db.nextUsuarioId
      requires registrado.refreshToken.Some? && RefreshTokenUnused(db.usuarios, registrado.refreshToken.value)
      requires forall i :: 0 <= i < |db.usuarios| ==> ToLower(db.usuarios[i].email) != ToLower(registrado.email)
      modifies db
      ensures db.Valid() && db.OnlyUsuariosChanged()
      ensures db.usuarios == old(db.usuarios) + [registrado] && db.nextUsuarioId == old(db.nextUsuarioId) + 1
    {
      var usuario := registrado.(refreshToken := None, refreshTokenExpiracion := None);
      db.AddUsuario(usuario);
      AppendKeepsTokenUnused(old(db.usuarios), usuario, registrado.refreshToken.value);
      db.ReplaceUsuario(|db.usuarios| - 1, registrado);
      assert db.usuarios == old(db.usuarios) + [registrado];
    }

    /** `LoginAsync`: the account is found by normalized e-mail and then goes through `LoginStep`. */
    method Login(dto: LoginDto, token: string, refreshToken: string, now: int) returns (r: Respuesta<AuthResponseDto>)
      requires db.Valid() && RefreshTokenUnused(db.usuarios, refreshToken)
      modifies db
      ensures db.Valid() && db.OnlyUsuariosChanged() && db.nextUsuarioId == old(db.nextUsuarioId)
      ensures match FindFirst(old(db.usuarios), UsuarioMatches, PorEmail(NormalizeEmail(dto.email)))
        case None => r == Fallo(CredencialesInvalidas) && db.usuarios == old(db.usuarios)
        case Some(k) =>
          var u := old(db.usuarios)[k];
          var p := LoginStep(u, passwords.Matches(dto.password, u.passwordHash), refreshToken, now);
          db.usuarios == old(db.usuarios)[k := p.usuario] && r == Autenticado(p, token, refreshToken, now)
    {
      var found := FindFirst(db.usuarios, UsuarioMatches, PorEmail(NormalizeEmail(dto.email)));
      if found.None? {
        return Fallo(CredencialesInvalidas);
      }
      r := Intentar(found.value, dto.password, token, refreshToken, now);
    }

    /** `LoginAsync` on the account at row `k`: the lock guard, the password check, then `Verificado`. */
    method Intentar(k: nat, password: string, token: string, refreshToken: string, now: int)
      returns (r: Respuesta<AuthResponseDto>)
      requires db.Valid() && k < |db.usuarios| && RefreshTokenUnused(db.usuarios, refreshToken)
      modifies db
      ensures db.Valid() && db.OnlyUsuariosChanged() && db.nextUsuarioId == old(db.nextUsuarioId)
      ensures var u := old(db.usuarios)[k];
        var p := LoginStep(u, passwords.Matches(password, u.passwordHash), refreshToken, now);
        db.usuarios == old(db.usuarios)[k := p.usuario] && r == Autenticado(p, token, refreshToken, now)
    {
      var usuario := db.usuarios[k];
      if usuario.bloqueoHasta.Some? && usuario.bloqueoHasta.value > now {
        return Fallo(CuentaBloqueada(((usuario.bloqueoHasta.value - now) / 60) % 60));
      }
      var ok := passwords.VerifyPassword(password, usuario.passwordHash);
      var p := Verificado(k, ok, refreshToken, now);
      if p.error.Some? {
        return Fallo(p.error.value);
      }
      r := Exito(AuthResponseDto(token, refreshToken, now + AccessTokenSegundos, ToReadDto(p.usuario)));
    }

    /**
     * The rest of `LoginAsync` once the lock guard has passed and the password
     * has been checked: a wrong password counts (and may lock), an inactive
     * account is refused unchanged, and a success resets the counters and
     * stores the new refresh token.
     */
    method Verificado(k: nat, ok: bool, refreshToken: string, now: int) returns (p: Paso)
      requires db.Valid() && k < |db.usuarios| && !Bloqueado(db.usuarios[k], now)
      requires RefreshTokenUnused(db.usuarios, refreshToken)
      modifies db
      ensures db.Valid() && db.OnlyUsuariosChanged() && db.nextUsuarioId == old(db.nextUsuarioId)
      ensures p == LoginStep(old(db.usuarios)[k], ok, refreshToken, now)
      ensures db.usuarios == old(db.usuarios)[k := p.usuario]
    {
      var usuario := db.usuarios[k];
      if !ok {
        usuario := usuario.(intentosAccesoFallidos := Increment(usuario.intentosAccesoFallidos));
        if usuario.intentosAccesoFallidos >= MaxIntentosFallidos {
          usuario := usuario.(bloqueoHasta := Some(now + BloqueoSegundos));
          db.ReplaceUsuario(k, usuario);
          return Paso(usuario, Some(BloqueadaPorIntentos));
        }
        db.ReplaceUsuario(k, usuario);
        return Paso(usuario, Some(CredencialesInvalidas));
      }
      if !usuario.activo {
        assert db.usuarios == old(db.usuarios)[k := usuario];
        return Paso(usuario, Some(CuentaDesactivadaContacte));
      }
      usuario := usuario.(intentosAccesoFallidos := 0, bloqueoHasta := None, ultimoAcceso := Some(now));
      usuario := usuario.(refreshToken := Some(refreshToken), refreshTokenExpiracion := Some(now + RefreshTokenSegundos));
      db.ReplaceUsuario(k, usuario);
      p := Paso(usuario, None);
    }

    /** `ObtenerPerfilAsync` */
    function ObtenerPerfil(usuarioId: int): (r: Respuesta<UsuarioReadDto>)
      reads db
      ensures r.Fallo? <==> forall i :: 0 <= i < |db.usuarios| ==> db.usuarios[i].usuarioId != usuarioId
      ensures r.Fallo? ==> r.error == UsuarioNoEncontrado
      ensures r.Exito? ==> exists i :: 0 <= i < |db.usuarios| && db.usuarios[i].usuarioId == usuarioId &&
                                       r.data == ToReadDto(db.usuarios[i])
    {
      match FindFirst(db.usuarios, UsuarioMatches, PorId(usuarioId))
      case None => Fallo(UsuarioNoEncontrado)
      case Some(k) => Exito(ToReadDto(db.usuarios[k]))
    }

    /** `ActualizarPerfilAsync`: names and phone are stored trimmed. */
    method ActualizarPerfil(usuarioId: int, dto: ActualizarUsuarioDto, now: int) returns (r: Respuesta<UsuarioReadDto>)
      requires db.Valid()
      modifies db
      ensures db.Valid() && db.OnlyUsuariosChanged() && db.nextUsuarioId == old(db.nextUsuarioId)
      ensures match FindFirst(old(db.usuarios), UsuarioMatches, PorId(usuarioId))
        case None => r == Fallo(UsuarioNoEncontrado) && db.usuarios == old(db.usuarios)
        case Some(k) =>
          var u := old(db.usuarios)[k].(nombre := Trim(dto.nombre), apellido := Trim(dto.apellido),
                                        telefono := MapOption(dto.telefono, Trim), fechaActualizacion := Some(now));
          db.usuarios == old(db.usuarios)[k := u] && r == Exito(ToReadDto(u))
    {
      var found := FindFirst(db.usuarios, UsuarioMatches, PorId(usuarioId));
      if found.None? {
        return Fallo(UsuarioNoEncontrado);
      }
      var k := found.value;
      var usuario := db.usuarios[k].(nombre := Trim(dto.nombre), apellido := Trim(dto.apellido));
      usuario := usuario.(telefono := MapOption(dto.telefono, Trim), fechaActualizacion := Some(now));
      db.ReplaceUsuario(k, usuario);
      r := Exito(ToReadDto(usuario));
    }

    /**
     * `CambiarPasswordAsync`, with the salt of the new hash passed in.  A null new
     * password makes `HashPassword` throw; the service catches it and saves nothing.
     */
    method CambiarPassword(usuarioId: int, dto: CambiarPasswordDto, salt: Salt, now: int) returns (r: Respuesta<()>)
      requires db.Valid()
      modifies db
      ensures db.Valid() && db.OnlyUsuariosChanged() && db.nextUsuarioId == old(db.nextUsuarioId)
      ensures match FindFirst(old(db.usuarios), UsuarioMatches, PorId(usuarioId))
        case None => r == Fallo(UsuarioNoEncontrado) && db.usuarios == old(db.usuarios)
        case Some(k) =>
          var u := old(db.usuarios)[k];
          if !PasswordActualOk(passwords, dto.passwordActual, u.passwordHash) then
            r == Fallo(PasswordActualIncorrecta) && db.usuarios == old(db.usuarios)
          else if dto.passwordNuevo.None? then
            r == Fallo(ErrorCambiarPassword) && db.usuarios == old(db.usuarios)
          else
            r == Exito(()) &&
            db.usuarios == old(db.usuarios)[k := u.(passwordHash := passwords.Encoded(dto.passwordNuevo.value, salt),
                                                    fechaActualizacion := Some(now))]
    {
      var found := FindFirst(db.usuarios, UsuarioMatches, PorId(usuarioId));
      if found.None? {
        return Fallo(UsuarioNoEncontrado);
      }
      var k := found.value;
      var usuario := db.usuarios[k];
      var ok := false;
      if dto.passwordActual.Some? {
        ok := passwords.VerifyPassword(dto.passwordActual.value, usuario.passwordHash);
      }
      if !ok {
        return Fallo(PasswordActualIncorrecta);
      }
      if dto.passwordNuevo.None? {
        return Fallo(ErrorCambiarPassword);
      }
      var hash := passwords.HashPassword(dto.passwordNuevo.value, salt);
      usuario := usuario.(passwordHash := hash, fechaActualizacion := Some(now));
      db.ReplaceUsuario(k, usuario);
      r := Exito(());
    }

    /** `RefreshTokenAsync`: the account holding the presented token goes through `RefreshStep`. */
    method RefreshToken(refreshToken: string, token: string, nuevoRefreshToken: string, now: int)
      returns (r: Respuesta<AuthResponseDto>)
      requires db.Valid() && RefreshTokenUnused(db.usuarios, nuevoRefreshToken)
      modifies db
      ensures db.Valid() && db.OnlyUsuariosChanged() && db.nextUsuarioId == old(db.nextUsuarioId)
      ensures match FindFirst(old(db.usuarios), UsuarioMatches, PorRefreshToken(refreshToken))
        case None => r == Fallo(TokenInvalido) && db.usuarios == old(db.usuarios)
        case Some(k) =>
          var p := RefreshStep(old(db.usuarios)[k], nuevoRefreshToken, now);
          db.usuarios == old(db.usuarios)[k := p.usuario] && r == Autenticado(p, token, nuevoRefreshToken, now)
    {
      var found := FindFirst(db.usuarios, UsuarioMatches, PorRefreshToken(refreshToken));
      if found.None? {
        return Fallo(TokenInvalido);
      }
      var k := found.value;
      var usuario := db.usuarios[k];
      if usuario.refreshTokenExpiracion.Some? && usuario.refreshTokenExpiracion.value < now {
        return Fallo(TokenExpirado);
      }
      if !usuario.activo {
        return Fallo(CuentaDesactivada);
      }
      usuario := usuario.(refreshToken := Some(nuevoRefreshToken), refreshTokenExpiracion := Some(now + RefreshTokenSegundos));
      db.ReplaceUsuario(k, usuario);
      r := Exito(AuthResponseDto(token, nuevoRefreshToken, now + AccessTokenSegundos, ToReadDto(usuario)));
    }
  }

  // ---------------------------------------------------------------------
  // Registration
  // ---------------------------------------------------------------------

  /**
   * Once an account is stored under the key of `e`, registering any e-mail that
   * differs from `e` only in case and surrounding white space is refused.
   */
  lemma RegisteredEmailBlocksVariants(rows: seq<Usuario>, u: Usuario, e: string, variant: string)
    requires u.email == NormalizeEmail(e)
    requires ToLower(Trim(variant)) == ToLower(Trim(e))
    ensures EmailRegistrado(rows + [u], NormalizeEmail(variant))
  {
    NormalizedEmailIsLower(e);
    NormalizeEmailIgnoresCaseAndSpace(variant, e);
    assert (rows + [u])[|rows|] == u;
  }

  // ---------------------------------------------------------------------
  // Login: the lockout policy
  // ---------------------------------------------------------------------

  /** A locked account refuses every attempt, right password or not, and nothing about it changes. */
  lemma LockedRefusesAll(u: Usuario, passwordOk: bool, t: string, now: int)
    requires Bloqueado(u, now)
    ensures LoginStep(u, passwordOk, t, now).usuario == u
    ensures LoginStep(u, passwordOk, t, now).error.Some? && LoginStep(u, passwordOk, t, now).error.value.CuentaBloqueada?
  {
  }

  /**
   * On an unlocked account a wrong password adds one to the counter (modulo
   * 2^32), locks the account exactly when the counter reaches 5, and changes nothing else.
   */
  lemma WrongPasswordCounts(u: Usuario, t: string, now: int)
    requires !Bloqueado(u, now)
    ensures var p := LoginStep(u, false, t, now);
      && (u.intentosAccesoFallidos < MaxInt32 ==> p.usuario.intentosAccesoFallidos as int == u.intentosAccesoFallidos as int + 1)
      && (Bloqueado(p.usuario, now) <==> p.usuario.intentosAccesoFallidos >= MaxIntentosFallidos)
      && (Bloqueado(p.usuario, now) ==> p.usuario.bloqueoHasta == Some(now + BloqueoSegundos) && p.error == Some(BloqueadaPorIntentos))
      && (!Bloqueado(p.usuario, now) ==> p.usuario.bloqueoHasta == u.bloqueoHasta && p.error == Some(CredencialesInvalidas))
      && p.usuario.(intentosAccesoFallidos := u.intentosAccesoFallidos, bloqueoHasta := u.bloqueoHasta) == u
  {
  }

  /** The password is checked before the active flag: a deactivated account still counts failures, and a right password resets nothing. */
  lemma InactiveAccount(u: Usuario, t: string, now: int)
    requires !Bloqueado(u, now) && !u.activo
    ensures LoginStep(u, true, t, now) == Paso(u, Some(CuentaDesactivadaContacte))
    ensures LoginStep(u, false, t, now).usuario.intentosAccesoFallidos == Increment(u.intentosAccesoFallidos)
  {
  }

  /** Login succeeds exactly on an unlocked, active account with the right password, and then clears the lockout and issues the token. */
  lemma LoginSucceedsIff(u: Usuario, passwordOk: bool, t: string, now: int)
    ensures var p := LoginStep(u, passwordOk, t, now);
      && (p.error.None? <==> !Bloqueado(u, now) && passwordOk && u.activo)
      && (p.error.None? ==>
            && p.usuario.intentosAccesoFallidos == 0 && p.usuario.bloqueoHasta.None?
            && p.usuario.ultimoAcceso == Some(now)
            && p.usuario.refreshToken == Some(t)
            && p.usuario.refreshTokenExpiracion == Some(now + RefreshTokenSegundos))
  {
  }

  /** The counter is not reset when a lock expires: the next wrong password locks again at once. */
  lemma ExpiredLockRelocks(u: Usuario, t: string, now: int)
    requires u.bloqueoHasta.Some? && u.bloqueoHasta.value <= now
    requires MaxIntentosFallidos <= u.intentosAccesoFallidos < MaxInt32
    ensures LoginStep(u, false, t, now).error == Some(BloqueadaPorIntentos)
    ensures LoginStep(u, false, t, now).usuario.bloqueoHasta == Some(now + BloqueoSegundos)
  {
  }

  /** One attempt: whether the password verified, the token to issue on success, and the time. */
  datatype Intento = Intento(passwordOk: bool, refreshToken: string, now: int)

  /** The account after a sequence of login attempts. */
  function Intentos(u: Usuario, xs: seq<Intento>): Usuario
    decreases |xs|
  {
    if xs == [] then u
    else Intentos(LoginStep(u, xs[0].passwordOk, xs[0].refreshToken, xs[0].now).usuario, xs[1..])
  }

  /** Wrong passwords on an account that stays unlocked add up one by one while fewer than five. */
  lemma {:induction false} WrongPasswordsAccumulate(u: Usuario, xs: seq<Intento>)
    requires 0 <= u.intentosAccesoFallidos as int && u.intentosAccesoFallidos as int + |xs| < MaxIntentosFallidos as int
    requires forall i :: 0 <= i < |xs| ==> !xs[i].passwordOk && !Bloqueado(u, xs[i].now)
    ensures Intentos(u, xs) == u.(intentosAccesoFallidos := (u.intentosAccesoFallidos as int + |xs|) as Int32)
    decreases |xs|
  {
    if xs != [] {
      var v := LoginStep(u, false, xs[0].refreshToken, xs[0].now).usuario;
      assert v == u.(intentosAccesoFallidos := u.intentosAccesoFallidos + 1);
      assert forall i :: 0 <= i < |xs[1..]| ==> xs[1..][i] == xs[i + 1];
      WrongPasswordsAccumulate(v, xs[1..]);
    }
  }

  /** Starting from zero, the fifth wrong password in a row locks the account for 15 minutes. */
  lemma FifthFailureLocks(u: Usuario, xs: seq<Intento>, t: string, now: int)
    requires u.intentosAccesoFallidos == 0 && |xs| == 4
    requires forall i :: 0 <= i < |xs| ==> !xs[i].passwordOk && !Bloqueado(u, xs[i].now)
    requires !Bloqueado(u, now)
    ensures LoginStep(Intentos(u, xs), false, t, now).error == Some(BloqueadaPorIntentos)
    ensures Bloqueado(LoginStep(Intentos(u, xs), false, t, now).usuario, now)
  {
    WrongPasswordsAccumulate(u, xs);
  }

  /** Four wrong passwords and then the right one: the login succeeds and the counter is back to zero. */
  lemma FourFailuresThenSuccess(u: Usuario, xs: seq<Intento>, t: string, now: int)
    requires u.intentosAccesoFallidos == 0 && u.activo && |xs| == 4
    requires forall i :: 0 <= i < |xs| ==> !xs[i].passwordOk && !Bloqueado(u, xs[i].now)
    requires !Bloqueado(u, now)
    ensures LoginStep(Intentos(u, xs), true, t, now).error.None?
    ensures LoginStep(Intentos(u, xs), true, t, now).usuario.intentosAccesoFallidos == 0
  {
    WrongPasswordsAccumulate(u, xs);
  }

  /**
   * While a lock set at `now` lasts, the message reports the whole minutes left:
   * `(now + 900 - later) / 60`, at most 15.
   */
  lemma LockMessageMinutes(u: Usuario, t: string, now: int, later: int, ok: bool, t2: string)
    requires !Bloqueado(u, now) && LoginStep(u, false, t, now).error == Some(BloqueadaPorIntentos)
    requires now <= later < now + BloqueoSegundos
    ensures var v := LoginStep(u, false, t, now).usuario;
      && LoginStep(v, ok, t2, later).error == Some(CuentaBloqueada((now + BloqueoSegundos - later) / 60))
      && (now + BloqueoSegundos - later) / 60 <= 15
  {
  }

  /** A lock set at `now` refuses even the right password for the next 15 minutes and lifts after them. */
  lemma LockLastsFifteenMinutes(u: Usuario, t: string, now: int, later: int, ok: bool, t2: string)
    requires !Bloqueado(u, now) && LoginStep(u, false, t, now).error == Some(BloqueadaPorIntentos)
    ensures var v := LoginStep(u, false, t, now).usuario;
      && (now <= later < now + BloqueoSegundos ==> LoginStep(v, ok, t2, later).error.value.CuentaBloqueada?)
      && (later >= now + BloqueoSegundos ==> !Bloqueado(v, later))
  {
  }

  // ---------------------------------------------------------------------
  // Password change and refresh tokens
  // ---------------------------------------------------------------------

  /**
   * After a password change the new password logs in (the account being
   * unlocked and active, and base64 decoding undoing its encoding).
   */
  lemma ChangedPasswordLogsIn(ps: PasswordService, u: Usuario, nuevo: string, salt: Salt, t: string, now: int, later: int)
    requires ps.fromBase64(ps.toBase64(StoredBytes(salt, ps.pbkdf2(nuevo, salt, Iterations))))
             == Some(StoredBytes(salt, ps.pbkdf2(nuevo, salt, Iterations)))
    requires !Bloqueado(u, later) && u.activo
    ensures var v := u.(passwordHash := ps.Encoded(nuevo, salt), fechaActualizacion := Some(now));
      LoginStep(v, ps.Matches(nuevo, v.passwordHash), t, later).error.None?
  {
    EncodedMatches(ps, nuevo, salt);
  }

  /** Refresh refuses an expired token, then an inactive account, and otherwise rotates the token and extends it by 7 days. */
  lemma RefreshStepMeaning(u: Usuario, nuevo: string, now: int)
    ensures var p := RefreshStep(u, nuevo, now);
      && (p.error == Some(TokenExpirado) <==> RefreshExpirado(u, now))
      && (p.error == Some(CuentaDesactivada) <==> !RefreshExpirado(u, now) && !u.activo)
      && (p.error.Some? ==> p.usuario == u)
      && (p.error.None? ==> p.usuario == u.(refreshToken := Some(nuevo), refreshTokenExpiracion := Some(now + RefreshTokenSegundos)))
  {
  }

  /** A token that was unused when it was stored on account `k` finds exactly that account. */
  lemma FreshTokenFindsAccount(rows: seq<Usuario>, k: nat, u: Usuario, token: string)
    requires k < |rows| && RefreshTokenUnused(rows, token) && u.refreshToken == Some(token)
    ensures FindFirst(rows[k := u], UsuarioMatches, PorRefreshToken(token)) == Some(k)
  {
    var r := rows[k := u];
    assert UsuarioMatches(PorRefreshToken(token), r[k]);
  }

  /** After rotation the replaced token finds no account any more. */
  lemma ReplacedTokenFindsNothing(rows: seq<Usuario>, next: int, k: nat, u: Usuario, old_token: string)
    requires UsuariosValid(rows, next) && k < |rows|
    requires rows[k].refreshToken == Some(old_token) && u.refreshToken != Some(old_token)
    ensures FindFirst(rows[k := u], UsuarioMatches, PorRefreshToken(old_token)).None?
  {
    var r := rows[k := u];
    forall j | 0 <= j < |r| ensures !UsuarioMatches(PorRefreshToken(old_token), r[j]) {
      if j > k {
        assert rows[k].refreshToken != rows[j].refreshToken;
      }
    }
  }

  /** A successful refresh leaves the presented token dead and the new one naming the same account. */
  lemma RotationMovesToken(rows: seq<Usuario>, next: int, token: string, nuevo: string, now: int)
    requires UsuariosValid(rows, next) && RefreshTokenUnused(rows, nuevo)
    requires FindFirst(rows, UsuarioMatches, PorRefreshToken(token)).Some?
    requires RefreshStep(rows[FindFirst(rows, UsuarioMatches, PorRefreshToken(token)).value], nuevo, now).error.None?
    ensures var k := FindFirst(rows, UsuarioMatches, PorRefreshToken(token)).value;
      var rows' := rows[k := RefreshStep(rows[k], nuevo, now).usuario];
      && FindFirst(rows', UsuarioMatches, PorRefreshToken(token)).None?
      && FindFirst(rows', UsuarioMatches, PorRefreshToken(nuevo)) == Some(k)
  {
    var k := FindFirst(rows, UsuarioMatches, PorRefreshToken(token)).value;
    var u := RefreshStep(rows[k], nuevo, now).usuario;
    assert rows[k].refreshToken == Some(token);
    assert token != nuevo;
    ReplacedTokenFindsNothing(rows, next, k, u, token);
    FreshTokenFindsAccount(rows, k, u, nuevo);
  }
}
