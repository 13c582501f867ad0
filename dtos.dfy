/**
 * Request and response shapes, and the validation attributes of the three request DTOs
 * whose attributes carry a policy: registration, password change and profile update.
 * Money is integer cents, as in `Models`.
 */
module Dtos {
  import opened Wrappers
  import opened Clr
  import opened Validation
  import opened Models

  datatype RegistroUsuarioDto = RegistroUsuarioDto(
    email: string, password: string, nombre: string, apellido: string, telefono: Option<string>)

  datatype LoginDto = LoginDto(email: string, password: string)

  datatype ActualizarUsuarioDto = ActualizarUsuarioDto(nombre: string, apellido: string, telefono: Option<string>)

  datatype CambiarPasswordDto = CambiarPasswordDto(passwordActual: Option<string>, passwordNuevo: Option<string>)

  datatype OrderProductDto = OrderProductDto(productoId: int, nombre: string, cantidad: int, precio: int)

  datatype CreateOrderDto = CreateOrderDto(
    usuarioId: int, total: int, productos: seq<OrderProductDto>,
    paypalOrderId: string, paypalPayerId: Option<string>)

  datatype ProductoDto = ProductoDto(
    nombre: Option<string>, categoria: Option<string>, descripcion: Option<string>,
    precio: int, imagenUrl: Option<string>)

  /** What a client may see of a user (the AutoMapper projection of the same-named fields). */
  datatype UsuarioReadDto = UsuarioReadDto(
    usuarioId: int, email: string, nombre: string, apellido: string, telefono: Option<string>,
    rol: string, activo: bool, emailConfirmado: bool, fechaCreacion: int)

  function ToReadDto(u: Usuario): (d: UsuarioReadDto)
    ensures d.usuarioId == u.usuarioId && d.email == u.email && d.rol == u.rol && d.activo == u.activo
  {
    UsuarioReadDto(u.usuarioId, u.email, u.nombre, u.apellido, u.telefono,
                   u.rol, u.activo, u.emailConfirmado, u.fechaCreacion)
  }

  datatype AuthResponseDto = AuthResponseDto(
    token: string, refreshToken: string, expiracion: int, usuario: UsuarioReadDto)

  // ---------------------------------------------------------------------
  // The shared field policies
  // ---------------------------------------------------------------------

  /** `[Required] [StringLength(100, MinimumLength = 8)] [RegularExpression(strong password)]`. */
  predicate PasswordFieldValid(v: Option<string>) {
    Required(v) && StringLength(v, 8, 100) && RegularExpression(v, StrongPassword)
  }

  /** `[Required] [StringLength(100)] [RegularExpression(letters and spaces, 2..100)]`. */
  predicate NameFieldValid(v: Option<string>) {
    Required(v) && StringLength(v, 0, 100) && RegularExpression(v, LettersAndSpaces(2, 100))
  }

  /** `[StringLength(20)]` on the optional phone (the `[Phone]` format check is not modelled). */
  predicate TelefonoFieldValid(v: Option<string>) {
    StringLength(v, 0, 20)
  }

  // ---------------------------------------------------------------------
  // RegistroUsuarioDto
  // ---------------------------------------------------------------------

  /** `[Required] [StringLength(256)]` (the `[EmailAddress]` format check is not modelled). */
  predicate RegistroEmailValido(d: RegistroUsuarioDto) {
    Required(Some(d.email)) && StringLength(Some(d.email), 0, 256)
  }

  predicate RegistroPasswordValida(d: RegistroUsuarioDto) { PasswordFieldValid(Some(d.password)) }
  predicate RegistroNombreValido(d: RegistroUsuarioDto) { NameFieldValid(Some(d.nombre)) }
  predicate RegistroApellidoValido(d: RegistroUsuarioDto) { NameFieldValid(Some(d.apellido)) }
  predicate RegistroTelefonoValido(d: RegistroUsuarioDto) { TelefonoFieldValid(d.telefono) }

  predicate RegistroValido(d: RegistroUsuarioDto) {
    && RegistroEmailValido(d) && RegistroPasswordValida(d) && RegistroNombreValido(d)
    && RegistroApellidoValido(d) && RegistroTelefonoValido(d)
  }

  // ---------------------------------------------------------------------
  // CambiarPasswordDto
  // ---------------------------------------------------------------------

  predicate CambiarPasswordValido(d: CambiarPasswordDto) {
    Required(d.passwordActual) && PasswordFieldValid(d.passwordNuevo)
  }

  // ---------------------------------------------------------------------
  // ActualizarUsuarioDto
  // ---------------------------------------------------------------------

  predicate ActualizarValido(d: ActualizarUsuarioDto) {
    NameFieldValid(Some(d.nombre)) && NameFieldValid(Some(d.apellido)) && TelefonoFieldValid(d.telefono)
  }

  // ---------------------------------------------------------------------
  // What the attribute combinations accept, in plain terms
  // ---------------------------------------------------------------------

  /** The password policy: 8..100 characters on one line with a lower-case letter, an upper-case letter and a digit. */
  ghost predicate PasswordPolicy(p: string) {
    && 8 <= |p| <= 100
    && (forall j :: 0 <= j < |p| ==> p[j] != '\n')
    && (exists i :: 0 <= i < |p| && IsAsciiLower(p[i]))
    && (exists i :: 0 <= i < |p| && IsAsciiUpper(p[i]))
    && (exists i :: 0 <= i < |p| && IsAsciiDigit(p[i]))
  }

  /** The name policy: 2..100 letters and spaces, not all of them white space. */
  ghost predicate NamePolicy(s: string) {
    && 2 <= |s| <= 100
    && (forall j :: 0 <= j < |s| ==> IsNameChar(s[j]))
    && (exists j :: 0 <= j < |s| && !IsWhiteSpace(s[j]))
  }

  lemma PasswordFieldMeaning(v: Option<string>)
    ensures PasswordFieldValid(v) <==> v.Some? && PasswordPolicy(v.value)
  {
    if v.Some? {
      StrongPasswordMeaning(v.value);
      if PasswordPolicy(v.value) {
        var i :| 0 <= i < |v.value| && IsAsciiLower(v.value[i]);
        assert !IsWhiteSpace(v.value[i]);
      }
    }
  }

  lemma NameFieldMeaning(v: Option<string>)
    ensures NameFieldValid(v) <==> v.Some? && NamePolicy(v.value)
  {
  }

  /** The e-mail policy: 1..256 characters, not all of them white space. */
  ghost predicate EmailPolicy(e: string) {
    |e| <= 256 && exists j :: 0 <= j < |e| && !IsWhiteSpace(e[j])
  }

  /** A registration is accepted exactly when each field meets its policy. */
  lemma RegistroValidoMeaning(d: RegistroUsuarioDto)
    ensures RegistroValido(d) <==>
      && EmailPolicy(d.email)
      && PasswordPolicy(d.password)
      && NamePolicy(d.nombre)
      && NamePolicy(d.apellido)
      && (d.telefono.Some? ==> |d.telefono.value| <= 20)
  {
    assert RegistroEmailValido(d) <==> EmailPolicy(d.email);
    assert RegistroPasswordValida(d) <==> PasswordPolicy(d.password) by {
      PasswordFieldMeaning(Some(d.password));
    }
    assert RegistroNombreValido(d) <==> NamePolicy(d.nombre) by {
      NameFieldMeaning(Some(d.nombre));
    }
    assert RegistroApellidoValido(d) <==> NamePolicy(d.apellido) by {
      NameFieldMeaning(Some(d.apellido));
    }
  }

  /** The new password of a password change obeys exactly the registration policy; the current one need only be present. */
  lemma CambiarPasswordMeaning(d: CambiarPasswordDto)
    ensures CambiarPasswordValido(d) <==>
      && d.passwordActual.Some? && (exists j :: 0 <= j < |d.passwordActual.value| && !IsWhiteSpace(d.passwordActual.value[j]))
      && d.passwordNuevo.Some?
      && RegistroPasswordValida(RegistroUsuarioDto("", d.passwordNuevo.value, "", "", None))
  {
    PasswordFieldMeaning(d.passwordNuevo);
  }

  /** A profile update accepts a name exactly when registration does. */
  lemma ActualizarValidoMeaning(d: ActualizarUsuarioDto)
    ensures ActualizarValido(d) <==>
      && NamePolicy(d.nombre) && NamePolicy(d.apellido)
      && (d.telefono.Some? ==> |d.telefono.value| <= 20)
    ensures ActualizarValido(d) ==>
      RegistroNombreValido(RegistroUsuarioDto("", "", d.nombre, d.apellido, d.telefono)) &&
      RegistroApellidoValido(RegistroUsuarioDto("", "", d.nombre, d.apellido, d.telefono))
  {
    NameFieldMeaning(Some(d.nombre));
    NameFieldMeaning(Some(d.apellido));
  }
}
