# ApiFarmacia accounts, orders and catalogue — a Dafny model

ApiFarmacia is an ASP.NET Core web API for an online pharmacy. This project models its core in Dafny and proves properties of that model. The model covers:

- the account service: registration, login with a failed-attempt lockout, profile read and update, password change, and refresh-token rotation;
- the PBKDF2 password hash layout and its verification loop;
- the administrator's account actions and the statistics;
- order creation and the order queries;
- the product catalogue;
- the validation attributes on the request DTOs and on `Productos`.

The database context is a class `DataContext.Context` with one `seq` field per table: `usuarios`, `productos`, `orders` and `orderItems`. Rows are in key order. The class also holds one identity counter per table.

`Context.Valid()` is kept by every write. It states:

- the store-assigned keys are positive and increase with the row position;
- e-mails are unique ignoring case (the unique index);
- a refresh token belongs to at most one account;
- every order refers to an existing account, and every order line to an existing order (the foreign keys).

Each service and controller is a class holding `const db: Context`. An operation that saves changes is a `method` with `modifies db`. Its `ensures` states the new tables as a function of the old ones, case by case, in the source's guard order. Read-only actions are functions with `reads db`.

The `Login` and `RefreshToken` steps on one account are also pure functions, `LoginStep` and `RefreshStep`. The lockout policy is proved about those functions, including over sequences of attempts (`Intentos`). The methods' contracts then connect each method to its step function.

PBKDF2, the random salt and base64 are outside the model, and so are the two token generators, the clock and the claims of the caller:

- PBKDF2 is a function field of `PasswordService`, and base64 is two more.
- The salt, the generated tokens and the current time `now` (integer seconds) are parameters.
- The caller's id and role are parameters of the controller actions.

## Behaviour of the code worth knowing

- Registration does not check password strength in the service. The `[RegularExpression]`/`[StringLength]` attributes of `RegistroUsuarioDto`, enforced before the action runs, are the only check. The model therefore has the policy in `Dtos`, not in `Registrar`.
- Registration sets no e-mail confirmation token. It stores the account with `emailConfirmado = false` and the four confirmation/reset fields null. The model does the same.
- `DeleteUsuario` does not catch the failure the restricting foreign key on `Orders.UsuarioId` causes (`DAL/Context.cs` lines 50-53). Deleting an account that still has orders therefore ends in a server error with nothing removed, not in `NoContent`.
- `CambiarPasswordAsync` with a null new password throws inside `HashPassword`. The catch-all turns this into a failure with nothing saved (`ErrorCambiarPassword`).
- `ProductoDto` lets the description and the image URL be null, but `Productos` marks both `[Required]`, which makes their columns NOT NULL. `PostProductos` does not catch the failed insert, so such a request ends in a server error with nothing stored.
- `CreateOrder` saves the order and its lines in two separate `SaveChangesAsync` calls. A line price too large for the `decimal(18,2)` column fails the second save and leaves the order stored without lines.
- The duplicate-name check of `PostProductos` runs in SQL Server, whose `=` ignores trailing spaces: a name that differs from a stored one only by trailing spaces conflicts.
- For the same reason the statistics count categories that differ only by trailing spaces, such as `Abc` and `Abc ` (both accepted by `ProductoDto` and stored untrimmed), as one group.

## Model

| member | source | states |
|---|---|---|
| Clr.ToLower | Services/UsuarioService.cs:34 | `ToLower` keeps the length, leaves no upper-case letter, keeps every character that is not an upper-case letter in place, and moves each upper-case letter to its lower-case partner |
| Clr.TrimStart | Services/UsuarioService.cs:42-46 | `TrimStart` yields a suffix of the input; everything it dropped is white space, and the result does not start with white space |
| Clr.TrimEnd | Services/UsuarioService.cs:42-46 | `TrimEnd` yields a prefix of the input; everything it dropped is white space, and the result does not end with white space |
| Clr.Trim | Services/UsuarioService.cs:42-46 | the trimmed string is a contiguous piece of the input; everything before and after it is white space, and it is empty or starts and ends with a non-white-space character |
| Clr.TrimToLowerCommute | Services/UsuarioService.cs:34 | `s.ToLower().Trim()` equals `s.Trim().ToLower()` |
| Clr.ToLowerIdempotent | Services/UsuarioService.cs:34 | lower-casing twice is lower-casing once |
| Clr.TrimIdempotent | Services/UsuarioService.cs:44-46 | trimming twice is trimming once |
| Clr.Increment | Services/UsuarioService.cs:102 | the unchecked `++` on a 32-bit `int`: the successor modulo 2^32, the plain successor below `int.MaxValue` |
| Tables.FindFirst | Services/UsuarioService.cs:85-86 | `FirstOrDefault`: a returned index matches and no earlier row matches; no index is returned exactly when no row matches |
| Tables.RemoveAt | Controllers/AdminController.cs:156-157 | removing a row keeps every other row, in order |
| Tables.KeyNamesOneRow | Models/Productos.cs:7-8 | with store-assigned increasing keys, a key names at most one row |
| Tables.AppendKeepsKeysIncreasing | Controllers/ProductosController.cs:105-106 | inserting under the next key keeps the keys increasing |
| Tables.RemoveKeepsKeysIncreasing | Controllers/ProductosController.cs:131-132 | removing a row keeps the keys increasing |
| Tables.ReplaceKeepsKeysIncreasing | Controllers/ProductosController.cs:60-64 | overwriting a row with one of the same key keeps the keys increasing |
| Tables.TrimTrailingSpaces | Controllers/ProductosController.cs:90-91 | the string without its trailing spaces: a prefix of the input, everything dropped is a space, and the result does not end in a space |
| Tables.TrailingSpacesIgnored | Program.cs:15-17 | in the SQL Server comparison the query runs as, a string followed by spaces equals the string |
| Validation.StrongPasswordMeaning | Dto/UsuarioDtos.cs:14 | the strong-password pattern matches exactly the strings of 8 or more characters without a line break that contain a lower-case letter, an upper-case letter and a digit |
| Models.RequiredNotEmpty | Models/Productos.cs:10 | a `[Required]` value is present and non-empty |
| Models.ProductoNombreMeaning | Models/Productos.cs:10-13 | a product name is valid exactly when it has 3..50 characters, all letters, accented letters or white space, not all white space |
| Models.ProductoCategoriaMeaning | Models/Productos.cs:15-18 | a category is valid exactly when it has 3..30 such characters, not all white space |
| Models.ProductoDescripcionMeaning | Models/Productos.cs:20-22 | a description is valid exactly when it is present, not blank and at most 255 characters |
| Models.ProductoPrecioEnRango | Models/Productos.cs:24-25 | a price held in cents is valid exactly when its decimal value lies in [0.01, 999999.99] |
| Models.ProductoImagenUrlMeaning | Models/Productos.cs:27-30 | a valid image URL is present and starts with `http://` or `https://` |
| Dtos.PasswordFieldMeaning | Dto/UsuarioDtos.cs:12-16 | the password attributes accept exactly a present password of 8..100 characters on one line with a lower-case letter, an upper-case letter and a digit |
| Dtos.NameFieldMeaning | Dto/UsuarioDtos.cs:18-21 | the name attributes accept exactly a present name of 2..100 letters, accented letters or white space, not all white space |
| Dtos.RegistroValidoMeaning | Dto/UsuarioDtos.cs:5-31 | a registration is accepted exactly when the e-mail is non-blank and at most 256 characters, the password meets the policy, both names meet the name policy, and a phone, if given, has at most 20 characters |
| Dtos.CambiarPasswordMeaning | Dto/CambiarPasswordDto.cs:5-15 | a password change is accepted exactly when the current password is present and not blank and the new one is accepted by the registration password policy |
| Dtos.ActualizarValidoMeaning | Dto/ActualizarUsuarioDto.cs:5-20 | a profile update is accepted exactly when both names meet the name policy and the phone has at most 20 characters; any accepted name is accepted by registration |
| PasswordHashing.StoredBytes | Services/PasswordService.cs:23-25 | the stored buffer has 48 bytes: bytes 0..15 are the salt and bytes 16..47 the derived key |
| PasswordHashing.ArrayCopy | Services/PasswordService.cs:24-25 | `Array.Copy` writes exactly the target range when both ranges fit, and fails without writing otherwise |
| PasswordHashing.PasswordService.HashPassword | Services/PasswordService.cs:11-28 | the hash is base64 of salt followed by PBKDF2(password, salt, 100000, 32) |
| PasswordHashing.PasswordService.VerifyPassword | Services/PasswordService.cs:30-59 | returns true exactly when the decoded hash has at least 48 bytes and bytes 16..47 equal the key derived with bytes 0..15 as salt; undecodable input gives false |
| PasswordHashing.HashThenVerify | Services/PasswordService.cs:11-53 | a hash verifies against the password it was made from |
| PasswordHashing.EncodedMatches | Services/PasswordService.cs:11-53 | through base64, if decoding undoes encoding, `VerifyPassword(p, HashPassword(p))` holds |
| PasswordHashing.ShortNeverVerifies | Services/PasswordService.cs:36-37 | decoded input shorter than 48 bytes never verifies |
| PasswordHashing.TrailingBytesIgnored | Services/PasswordService.cs:36-51 | bytes after index 47 do not affect the result |
| PasswordHashing.VerifiesBytewise | Services/PasswordService.cs:47-53 | verification is the byte-by-byte equality of bytes 16..47 with the recomputed key |
| DataContext.UpdateKeepsUsuariosValid | DAL/Context.cs:26 | rewriting an account with the same key and e-mail, and a kept, cleared or fresh refresh token, keeps the user table valid |
| DataContext.AppendKeepsUsuariosValid | DAL/Context.cs:26 | inserting an account under the next key with an e-mail new to the unique index keeps the table valid |
| DataContext.RemoveKeepsUsuariosValid | Controllers/AdminController.cs:156 | removing an account keeps the rest valid |
| DataContext.RemoveKeepsUsuarioReferences | DAL/Context.cs:50-53 | removing an account no order refers to keeps every order's foreign key |
| DataContext.ReplaceKeepsUsuarioReferences | DAL/Context.cs:50-53 | rewriting an account without changing its key keeps every order's foreign key |
| DataContext.AppendKeepsUsuarioReferences | DAL/Context.cs:50-53 | inserting an account keeps every order's foreign key |
| DataContext.ReplaceKeepsOrderReferences | DAL/Context.cs:62-65 | rewriting an order without changing its key keeps every line's foreign key |
| DataContext.AppendKeepsOrderReferences | DAL/Context.cs:62-65 | inserting an order keeps every line's foreign key |
| DataContext.Context.ReplaceUsuario | Services/UsuarioService.cs:107 | saving a tracked account rewrites exactly its row and keeps the database valid |
| DataContext.Context.AddUsuario | Services/UsuarioService.cs:53-54 | an insert appends the account under the next key and keeps the database valid |
| DataContext.Context.RemoveUsuario | Controllers/AdminController.cs:156-157 | a delete removes exactly that row and keeps the database valid |
| DataContext.Context.AddProducto | Controllers/ProductosController.cs:105-106 | an insert appends the product under the next key |
| DataContext.Context.ReplaceProducto | Controllers/ProductosController.cs:60-64 | an update rewrites exactly that row |
| DataContext.Context.RemoveProducto | Controllers/ProductosController.cs:131-132 | a delete removes exactly that row |
| DataContext.Context.AddOrder | Controllers/OrdersController.cs:54-55 | an insert appends the order under the next key; the account it refers to must exist |
| DataContext.Context.ReplaceOrder | Controllers/OrdersController.cs:145-148 | saving a tracked order rewrites exactly its row |
| DataContext.Context.AddOrderItem | Controllers/OrdersController.cs:67-70 | an insert appends the line under the next key; its order must exist |
| UsuarioServices.DecimalString | Services/UsuarioService.cs:94-95 | the interpolated number is a non-empty string of decimal digits that spells `n` (`DigitsValue`), with no leading zero |
| UsuarioServices.NormalizedEmailIsLower | Services/UsuarioService.cs:34-42 | the stored e-mail is its own lower-case form, so the `ToLower` lookup finds it |
| UsuarioServices.NormalizeEmailIgnoresCaseAndSpace | Services/UsuarioService.cs:34 | e-mails that differ only in case and surrounding white space have one lookup key |
| UsuarioServices.RegisteredEmailBlocksVariants | Services/UsuarioService.cs:33-37 | once an e-mail is registered, every case or edge-white-space variant of it counts as registered |
| UsuarioServices.MinutosRestantes | Services/UsuarioService.cs:94 | `TimeSpan.Minutes` of the remaining lock is a minute count below 60; its value after a lock is stated by `LockMessageMinutes` |
| UsuarioServices.LoginStep | Services/UsuarioService.cs:92-130 | a login step on one account keeps its key, e-mail, hash and active flag |
| UsuarioServices.RefreshStep | Services/UsuarioService.cs:230-241 | a refresh step on one account keeps its key and e-mail |
| UsuarioServices.Registrado | Services/UsuarioService.cs:40-51 | the registered account has the normalized e-mail, role "Cliente", is active and unconfirmed, and has no attempts, no lock and the issued refresh token; the optional phone goes through `x?.Trim()`, whose definition is `Wrappers.MapOption` |
| UsuarioServices.UsuarioService.Registrar | Services/UsuarioService.cs:28-79 | a registered e-mail key fails with nothing changed; otherwise exactly one account is appended under the next key, with the hash of the password, the defaults and the refresh token, and its read projection is returned |
| UsuarioServices.UsuarioService.Insertar | Services/UsuarioService.cs:53-63 | the two saves of registration append exactly the finished account |
| UsuarioServices.UsuarioService.Login | Services/UsuarioService.cs:81-146 | an unknown normalized e-mail fails with nothing changed; otherwise the first account with that key goes through `LoginStep` with the verdict of `VerifyPassword`, its row is replaced by the step's result, and the response is the step's error or the issued tokens |
| UsuarioServices.UsuarioService.Intentar | Services/UsuarioService.cs:92-140 | on a found account: the lock guard, the password check and the rest of the login, as `LoginStep` |
| UsuarioServices.UsuarioService.Verificado | Services/UsuarioService.cs:99-130 | past the lock guard: counting a wrong password (and locking at 5), refusing an inactive account unchanged, or resetting the counters and storing the refresh token, as `LoginStep` |
| UsuarioServices.UsuarioService.ObtenerPerfil | Services/UsuarioService.cs:148-164 | fails with "Usuario no encontrado" exactly when no account has the id, and otherwise returns that account's read projection (`Dtos.ToReadDto`, the field-for-field definition of `UsuarioReadDto`) |
| UsuarioServices.UsuarioService.ActualizarPerfil | Services/UsuarioService.cs:166-190 | an unknown id fails with nothing changed; otherwise only the trimmed names and phone and the update time of that row change |
| UsuarioServices.UsuarioService.CambiarPassword | Services/UsuarioService.cs:192-218 | an unknown id, then a wrong or missing current password, then a missing new password, each fail with nothing changed; otherwise only the hash (of the new password) and the update time change |
| UsuarioServices.UsuarioService.RefreshToken | Services/UsuarioService.cs:220-258 | a token no account holds fails with nothing changed; otherwise that account goes through `RefreshStep` and its row is replaced by the result |
| UsuarioServices.LockedRefusesAll | Services/UsuarioService.cs:92-96 | a locked account refuses every attempt, right password or not, and nothing about it changes |
| UsuarioServices.WrongPasswordCounts | Services/UsuarioService.cs:99-112 | a wrong password adds exactly one to the counter, locks for 15 minutes exactly when the counter reaches 5, and changes nothing else |
| UsuarioServices.InactiveAccount | Services/UsuarioService.cs:99-117 | on an inactive account the right password fails without resetting anything and a wrong one still counts |
| UsuarioServices.LoginSucceedsIff | Services/UsuarioService.cs:92-130 | login succeeds exactly on an unlocked, active account with the right password, and then sets counter 0, no lock, last access now and the new refresh token for 7 days |
| UsuarioServices.ExpiredLockRelocks | Services/UsuarioService.cs:102-106 | the counter is not reset when a lock expires, so the next wrong password locks again at once |
| UsuarioServices.WrongPasswordsAccumulate | Services/UsuarioService.cs:99-112 | consecutive wrong passwords below five add up one by one and change nothing else |
| UsuarioServices.FifthFailureLocks | Services/UsuarioService.cs:104-108 | from zero, the fifth wrong password in a row locks the account |
| UsuarioServices.FourFailuresThenSuccess | Services/UsuarioService.cs:99-120 | four wrong passwords and then the right one log in and reset the counter |
| UsuarioServices.LockMessageMinutes | Services/UsuarioService.cs:92-106 | while a lock set at `t` lasts, the refusal reports `(t + 900 - later) / 60` minutes, at most 15 |
| UsuarioServices.LockLastsFifteenMinutes | Services/UsuarioService.cs:92-106 | a lock refuses even the right password for 15 minutes and lifts after them |
| UsuarioServices.ChangedPasswordLogsIn | Services/UsuarioService.cs:203-207 | after a password change the new password verifies and logs in an unlocked active account |
| UsuarioServices.RefreshStepMeaning | Services/UsuarioService.cs:230-241 | refresh fails on an expired token (a null expiry never expires), then on an inactive account, each leaving the account unchanged, and otherwise rotates the token for 7 days |
| UsuarioServices.FreshTokenFindsAccount | Services/UsuarioService.cs:224-225 | a fresh token stored on an account finds exactly that account |
| UsuarioServices.ReplacedTokenFindsNothing | Services/UsuarioService.cs:240-242 | after rotation the replaced token finds no account |
| UsuarioServices.RotationMovesToken | Services/UsuarioService.cs:224-242 | a successful refresh leaves the old token dead and the new one naming the same account |
| Grouping.Count | Controllers/AdminController.cs:174 | the count of a value is at most the length and positive exactly when the value occurs |
| Grouping.CountBoth | Controllers/AdminController.cs:173-195 | active and inactive counts add up to the total |
| Grouping.CountBy | Controllers/AdminController.cs:175-183 | the number of rows whose key has a given normal form is at most the row count, and positive exactly when some row has it |
| Grouping.Agregar | Controllers/AdminController.cs:175-177 | counting one more value adds one to the total, extends the group of its normal form or appends a new group of one keyed by the value |
| Grouping.AgregarCuenta | Controllers/AdminController.cs:175-177 | with distinct normal forms, counting one more value keeps them distinct and adds one to exactly the group of that value's normal form |
| Grouping.NoClaveNoCantidad | Controllers/AdminController.cs:175-177 | a normal form without a group has count 0 |
| Grouping.GroupCount | Controllers/AdminController.cs:175-183 | the group sizes sum to the number of rows |
| Grouping.GroupCountMeaning | Controllers/AdminController.cs:175-183 | the groups have distinct normal forms, are non-empty, are keyed by one of the rows' values, and each group's size is the number of rows with its normal form |
| Grouping.CantidadDeGrupo | Controllers/AdminController.cs:177 | with distinct normal forms, a group's size is the size read for its key |
| Grouping.GroupsAreCounts | Controllers/AdminController.cs:175-183 | every group's key is one of the rows' values, and exactly `cantidad` rows share its normal form |
| AdminControllers.Desbloqueado | Controllers/AdminController.cs:220-222 | an unlocked account is not locked at any time and has no failed attempts |
| AdminControllers.AdminController.GetUsuarios | Controllers/AdminController.cs:32-46 | the listing has the row count and every account's read projection, in order |
| AdminControllers.AdminController.GetUsuario | Controllers/AdminController.cs:54-63 | NotFound exactly when no account has the id, and otherwise that account's read projection (`Dtos.ToReadDto`, the field-for-field definition of `UsuarioReadDto`) |
| AdminControllers.AdminController.CambiarRol | Controllers/AdminController.cs:72-104 | an unknown id gives NotFound, then a role outside the whitelist gives BadRequest, each with nothing changed; otherwise only the role and the update time of that row change |
| AdminControllers.AdminController.CambiarEstado | Controllers/AdminController.cs:112-134 | an unknown id gives NotFound with nothing changed; otherwise only the active flag (set to the requested value) and the update time change |
| AdminControllers.AdminController.DeleteUsuario | Controllers/AdminController.cs:143-164 | an unknown id gives NotFound, then the caller's own id gives BadRequest, then an account with orders gives a server error, each with nothing removed; otherwise exactly that account is removed |
| AdminControllers.AdminController.DesbloquearUsuario | Controllers/AdminController.cs:213-234 | an unknown id gives NotFound; otherwise the counter becomes 0, the lock null and the update time now, and nothing else changes |
| AdminControllers.ClaveCategoria | Controllers/AdminController.cs:181-183 | the key a category is grouped by is null exactly for a null category and otherwise equals it up to trailing spaces |
| AdminControllers.PaddedCategoriesShareGroup | Controllers/AdminController.cs:181-183 | a category followed by spaces falls into the same group as the category |
| AdminControllers.AdminController.GetEstadisticas | Controllers/AdminController.cs:171-205 | the totals are the row counts, active plus inactive is the total, the role and category groups have keys that are distinct up to trailing spaces and are values of the column, sum to the totals, and each group's size is the number of rows equal to its key up to trailing spaces, as SQL Server's `GROUP BY` compares; the grouped columns are the definitions `Roles`, `ActivoColumna` and `Categorias`, one entry per row in table order |
| AdminControllers.UnlockRestoresAttempts | Controllers/AdminController.cs:220-224 | after an unlock the lock guard never fires, and four more wrong passwords leave the account unlocked |
| OrdersControllers.ItemsDe | Controllers/OrdersController.cs:92 | an order's lines are exactly the rows carrying its key |
| OrdersControllers.OrdersDe | Controllers/OrdersController.cs:124 | an account's orders are exactly the rows carrying its id |
| OrdersControllers.ItemsForRoundTrip | Controllers/OrdersController.cs:59-66 | each stored line carries the new order's key and gives back its basket line; the lines are the definition `ItemsFor`, one per basket line under consecutive keys |
| OrdersControllers.ItemsDeAppend | Controllers/OrdersController.cs:72 | selecting an order's lines distributes over concatenation |
| OrdersControllers.ItemsDeNone | Controllers/OrdersController.cs:72 | no row with the key selects nothing |
| OrdersControllers.ItemsDeAll | Controllers/OrdersController.cs:72 | all rows with the key select everything |
| OrdersControllers.NewOrderLines | Controllers/OrdersController.cs:57-72 | the lines loaded for a new order are exactly those just stored for it |
| OrdersControllers.InsertDesc | Controllers/OrdersController.cs:125 | inserting into a newest-first list keeps it sorted and adds exactly the one order |
| OrdersControllers.PrependSorted | Controllers/OrdersController.cs:125 | a newer head stays sorted ahead of the insertion into the tail |
| OrdersControllers.SortDesc | Controllers/OrdersController.cs:125 | the result is sorted newest first and is a permutation of the input |
| OrdersControllers.OrdersController.CreateOrder | Controllers/OrdersController.cs:32-83 | an order for someone else gives BadRequest, then an account that no longer exists or a total beyond the `decimal(18,2)` column gives a server error, each with nothing added; then a line price beyond its column gives a server error with the order stored and no lines; otherwise exactly one order (total from the request, "COMPLETADO", "PayPal", the PayPal ids) and one line per basket line are added, and the response carries exactly those lines |
| OrdersControllers.OrdersController.AddItems | Controllers/OrdersController.cs:57-70 | the loop appends one line per basket line, in order, under consecutive keys |
| OrdersControllers.OrdersController.GetOrder | Controllers/OrdersController.cs:89-107 | NotFound exactly when no order has the id; Forbid exactly when the caller is neither its owner nor an administrator; otherwise the order with its lines |
| OrdersControllers.OrdersController.GetUserOrders | Controllers/OrdersController.cs:113-131 | Forbid exactly when the caller is neither the owner nor an administrator; otherwise the account's orders, newest first, as a permutation of its rows, each with its lines; `OrdersOf` is the definition that reads the orders back out of the response |
| OrdersControllers.OrdersController.UpdateOrderStatus | Controllers/OrdersController.cs:138-153 | an unknown id gives NotFound with nothing changed; otherwise only the status and the update time of that order change |
| OrdersControllers.UserOrdersAreTheOwners | Controllers/OrdersController.cs:122-126 | the listing holds exactly the account's orders, as many as it has |
| ProductosControllers.ProductosController.GetProductos | Controllers/ProductosController.cs:31-35 | one read projection per product, in order |
| ProductosControllers.ProductosController.GetProducto | Controllers/ProductosController.cs:39-47 | NotFound exactly when no product has the id, and otherwise that product's projection |
| ProductosControllers.ProductosController.PutProductos | Controllers/ProductosController.cs:53-79 | a route id that differs from the body's gives BadRequest, then a missing product gives NotFound, each with nothing changed; otherwise exactly that row is replaced by the body |
| ProductosControllers.ProductosController.PostProductos | Controllers/ProductosController.cs:85-119 | a name equal to a stored one ignoring case and trailing spaces gives Conflict with nothing changed; otherwise a null description or image URL gives a server error with nothing changed; otherwise exactly one product with the request's fields is appended under the next key and returned |
| ProductosControllers.ProductosController.DeleteProductos | Controllers/ProductosController.cs:123-135 | an unknown id gives NotFound with nothing changed; otherwise exactly that product is removed and the others stay, in order |
| ProductosControllers.StoredNameConflicts | Controllers/ProductosController.cs:90-94 | once a product is stored, any name equal to its name ignoring case conflicts |
| ProductosControllers.PaddedNameConflicts | Controllers/ProductosController.cs:90-94 | once a product is stored, its name followed by any number of spaces conflicts |
| ProductosControllers.DeletedProductGone | Controllers/ProductosController.cs:131-132 | after a delete no product has the deleted key and the others stay, in order |
| ProductosControllers.UpdatedProductFound | Controllers/ProductosController.cs:60-64 | after an update the key finds the row just written |
| ProductosControllers.InsertedProductFound | Controllers/ProductosController.cs:105-110 | a product just inserted is found by its new key, at the end of the table |

## Left out

- Email confirmation, confirmation resend and password reset: the controller calls service methods that have no implementation, so there is nothing to model. The four fields exist on `Usuario` and are only ever stored as null.
- `EmailService`, `TokenService`, `Program.cs` and the AutoMapper profiles are not part of this model. JWT creation and the refresh-token generator are replaced by token parameters, and the mappers by field-for-field projections. The date-string formatting of `OrderResponseDto` is left out.
- `UsuariosController` is not part of this model. HTTP status mapping, claim parsing (`int.Parse` of the id claim), `[Authorize]` and the framework's model-state validation are framework work. The caller's id and role are parameters, and the validation predicates stand on their own.
- Async/await, concurrent requests and the race between the e-mail pre-check and the insert: each operation is one sequential step on the tables.
- The catch-all exception handlers of the service are not modelled, except the one path a modelled input reaches (a null new password). The `ex.Message` texts and the success messages are left out, and so are the message bodies of `NotFound`, `Ok` and `BadRequest` other than the modelled strings.
- Console and logger audit lines.
- `DateTime`: time is integer seconds, one `now` per operation. The source reads the clock several times within an operation. Overflow of `AddDays` near `DateTime.MaxValue` is not modelled.
- `decimal` amounts are integer cents. The `decimal(18,2)` bound of the order columns is modelled in `CreateOrder`; the product price is bounded by its `[Range]` well inside its column. `ProductoDto` (`[Required]` on the name and category, `[StringLength]`, `[Range]`, `[Url]`), `CreateOrderDto` (`[Required]`, `[Range]`, `[MinLength(1)]` on the basket, `[StringLength(255)]`) and `OrderProductDto` (`[Required]`, `[StringLength(100)]`, `[Range]`) are validated by the framework before the action runs. They are plain data here, with no validation predicate; the one attribute an action depends on, `[Required]` on `ProductoDto.Nombre`, is the precondition of `PostProductos`.
- `[EmailAddress]`, `[Phone]` and `[Url]` format checks are library validators and are not modelled; their length and `[Required]` companions are.
- Dtos.RegistroEmailValido: states `[Required]` and `[StringLength(256)]` only, because `[EmailAddress]` is not modelled.
- Models.ProductoImagenUrlValida: checks only the `http://` or `https://` prefix of the URL pattern; the host and path part of the pattern and `[Url]` are not modelled.
- Models.ProductoImagenUrlMeaning: one direction only, since the URL predicate is itself only the scheme prefix.
- Validation.StringLength: lengths, and the character counts of `.` and `{m,n}` in the patterns (`FullMatch`, `DotRun`), are counted in Unicode scalar values. .NET counts UTF-16 code units, so text with characters outside the Basic Multilingual Plane is measured differently: the password `Abc1` followed by two U+1F600 is 8 units in .NET and 6 characters here.
- Validation.IsAsciiDigit: `\d` in .NET also matches non-ASCII Unicode digits; the model takes ASCII `0`-`9`.
- Clr.ToLowerChar: lower-cases A-Z and the Latin-1 capitals only; other Unicode case mappings are not modelled. `IsWhiteSpace` is the full `char.IsWhiteSpace` set.
- ProductosControllers.ProductosController.PostProductos: requires the name to be present. `[Required]` on `ProductoDto.Nombre` is enforced before the action, and the action would dereference it.
- ProductosControllers.ProductosController.PutProductos: the rethrow of a concurrency exception while the row still exists needs a concurrent writer and is not modelled.
- UsuarioServices.UsuarioService.Registrar: requires the new refresh token to be held by no account, as a freshly generated random token is taken to be. `Login` and `RefreshToken` carry the same requirement.
- UsuarioServices.UsuarioService.RefreshToken: the token lookup compares exactly. SQL Server's `=` ignores trailing spaces, so a presented token followed by spaces finds its account in the source and not in the model. The e-mail lookups are unaffected, since both sides are trimmed.
- The database collation is not part of the source. Comparisons the store runs are modelled as case-sensitive, apart from the explicit `ToLower` calls.
- UsuarioServices.Mensaje: gives the failure texts; `CuentaBloqueada` carries the `TimeSpan.Minutes` value the message interpolates.
- Grouping.GroupCount: groups come in order of first appearance, keyed by the first value of each normal form. The database specifies neither the order of `GROUP BY` results nor which of the values that compare equal it reports, so only the normal forms of the keys and the sizes are meaningful.
- OrdersControllers.SortDesc: is a stable sort; `OrderByDescending` in the database leaves the order of equal creation times unspecified, so the contract states only sortedness and the permutation.
- The tables are sequences in key order rather than maps from id to record: `FindAsync` and `FirstOrDefault` are the first matching row, and increasing keys make the id lookup unique.
- Identity keys are modelled as a counter per table that never reuses a key; store-side gaps and seeds do not matter to any property here. A failed insert is modelled as consuming no identity value.
