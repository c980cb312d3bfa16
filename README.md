# Minimarket back end — a Dafny model

This project models the business layer of a small minimarket back end and the SQLite tables it relies on. The back end is a Python application: inventory, tills, sales, users, clients and suppliers.

Each table becomes a class. It holds a map from row id to record (`filas`) and the next AUTOINCREMENT id (`siguienteId`, ids start at 1). Each repository call becomes a method on that class. Each write is specified by a pure function over the map, such as `ConStock`, `ConBaja` or `ConCierre`, and the lemmas are stated about those functions. Each service becomes a module of methods that call the repositories in the same order as the source. An exception becomes the `Err` side of a `Result`, and a `None` answer becomes an `Option`.

The centre of the model is the sale, `VentaServicio.ProcesarVenta`, which proceeds in five steps:
- It refuses the sale when no till is open.
- It validates every line against the product table before any write. The error raised is that of the first failing line.
- It sums `precio * cantidad` into the total.
- It appends one header, plus one detail row per line that captures the unit price.
- It debits each line's quantity from the product's stock.

The contract covers the whole effect:
- The error cases and the untouched tables on error.
- The header's fields, and the fact that its till is the most recently opened open till.
- Each new detail row.
- The stock table, which equals `Debitar(old, items)`.

Lemmas then relate these pieces:
- The total equals the sum of the detail subtotals.
- Each product's stock drops by exactly the quantity its lines request.
- When no product appears on two lines, no sold product goes below zero.

Three holes in the validation are exhibited on concrete inputs:
- The same product on two lines is checked twice against the same stock, so stock 3 with two lines of 2 ends at -1.
- Quantities are never checked for sign.
- Inactive products are still sold.

The till is a two-state machine. Because the open-till query ignores the user, at most one till is open in the whole system. Opening a till keeps that invariant, closing a till leaves none open, and in between every sale is refused.

Hashing and tokens are library code. SHA-256, bcrypt and the token codec enter as function parameters, and the clock enters as an integer. Two behaviours of the source are proved:
- `UsuarioService` stores bcrypt hashes, while `login` compares SHA-256 hashes. A user created through that service therefore cannot log in (`AuthControlador.OtroHashNoAbreSesion`).
- `login` looks users up among active rows only, so its "deactivated" answer is never returned.

The stock update follows its callers and the repository test: `stock = stock + delta`. The repository as written stores the argument as the new stock. That form is modelled too and shown to break the debit (see Findings).

## Model

| member | source | states |
|---|---|---|
| `ProductoModelo.NuevoProducto` | app/models/producto.py:8-15 | a product built with the omitted arguments has stock 0, minimum 5, is active and unsaved; the given fields are kept |
| `ProductoModelo.ToDict` | app/models/producto.py:17-27 | the dictionary copies every stored field and `alerta_stock` holds exactly when stock ≤ minimum |
| `ProductoModelo.AlertaStock` | app/models/producto.py:26 | the alert is on exactly when stock ≤ minimum; its behaviour is pinned by `AlertaStockEjemplos` and `ReponerSoloApagaAlerta` |
| `ProductoModelo.LecturaRechazada` | app/models/producto.py:8 | as written, the keywords the repository's reads pass include `codigo_barras`, which the constructor does not take, so the call raises |
| `ProductoModelo.LecturaAceptadaCorregida` | app/repositories/producto_repository.py:33 | with `codigo_barras` among the constructor's parameters, every keyword of the reads is accepted |
| `ProductoModelo.ValoresPorDefecto` | app/models/producto.py:8 | a product built with the defaults has stock 0, minimum 5, is active and is already in alert |
| `ProductoModelo.AlertaStockEjemplos` | app/models/producto.py:26 | the alert on 5/10, 10/10 and 0/5 is on, on 15/10 off |
| `ProductoModelo.ReponerSoloApagaAlerta` | app/models/producto.py:26 | adding a positive quantity can switch the alert off but never on |
| `ProductoRepositorio.Activos` | app/repositories/producto_repository.py:26-33 | `listar` returns exactly the rows with activo set, unchanged |
| `ProductoRepositorio.BuscarProducto` | app/repositories/producto_repository.py:36-45 | `obtener_por_id` finds a row whether or not it is active, None exactly when absent |
| `ProductoLectura.LeerPorPosicionEfecto` | app/repositories/producto_repository.py:33 | a positional read with distinct field names: field i gets the row's i-th value, and only named fields are filled |
| `ProductoLectura.LeerComoEscrito` | app/repositories/producto_repository.py:44 | the read as written fills `activo` from position 6 and `codigo_barras` from position 7 |
| `ProductoLectura.LeerPorColumna` | app/database/connection.py:42-53 | the intended read: every column of the schema fills the field of its own name, and no other field |
| `ProductoLectura.LecturaPorColumnaCorrecta` | app/database/connection.py:50-51 | for every row of the schema's table, the intended read takes `activo` from position 7 and `codigo_barras` from position 6, and the as-written read takes them the other way round |
| `ProductoLectura.LecturaIntercambiaColumnas` | app/repositories/producto_repository.py:44 | an active product with barcode "7701234" reads back, as written, with activo "7701234" and barcode 1 |
| `ProductoRepositorio.BajoStock` | tests/repositories/test_producto_repository.py:187 | the low-stock query returns exactly the active rows with stock ≤ minimum |
| `ProductoRepositorio.ConDatos` | app/repositories/producto_repository.py:48-60 | `actualizar` overwrites every column of that one row except id and activo; other rows and the key set are unchanged |
| `ProductoRepositorio.ConStock` | tests/repositories/test_producto_repository.py:165 | the stock update in delta form: only that row's stock moves, by exactly the delta |
| `ProductoRepositorio.ConStockAbsoluto` | app/repositories/producto_repository.py:62-69 | the stock update as written: that row's stock becomes the argument, nothing else changes |
| `ProductoRepositorio.ConBaja` | app/repositories/producto_repository.py:71-79 | soft delete: only activo of that row becomes false |
| `ProductoRepositorio.BajaOcultaPeroConserva` | app/repositories/producto_repository.py:71-79 | after deletion the product leaves the listing (the listing loses exactly that id) and is still found by id |
| `ProductoRepositorio.StockAbsolutoNoDebita` | app/repositories/producto_repository.py:66 | with a non-zero stock, the absolute form does not leave `stock - c` after a debit of c, while the delta form does |
| `ProductoRepositorio.StockAbsolutoEjemplo` | app/repositories/producto_repository.py:66 | stock 10: a sale of 2 leaves -2 instead of 8, a restock of 5 leaves 5 instead of 15 |
| `ProductoRepositorio.ProductoRepository.Crear` | app/repositories/producto_repository.py:10-23 | stores the product under a fresh id, returns it with that id, keeps the table well formed |
| `ProductoRepositorio.ProductoRepository.Listar` | app/repositories/producto_repository.py:26-33 | exactly the active rows, as stored |
| `ProductoRepositorio.ProductoRepository.ObtenerPorId` | app/repositories/producto_repository.py:36-45 | None exactly for an absent id, the row, active or not, otherwise |
| `ProductoRepositorio.ProductoRepository.ObtenerProductosBajoStock` | tests/repositories/test_producto_repository.py:187 | exactly the active rows with stock ≤ minimum, as stored |
| `ProductoRepositorio.ProductoRepository.Actualizar` | app/repositories/producto_repository.py:48-60 | the table becomes `ConDatos` of the old one |
| `ProductoRepositorio.ProductoRepository.ActualizarStock` | app/repositories/producto_repository.py:62-69 | the table becomes `ConStock` of the old one (delta form) |
| `ProductoRepositorio.ProductoRepository.Eliminar` | app/repositories/producto_repository.py:71-79 | the table becomes `ConBaja` of the old one; the id leaves `Listar` and `ObtenerPorId` returns the deactivated row |
| `Orden.InsertarDescendente` | app/repositories/caja_repository.py:61-68 | inserting into a list sorted by descending key keeps it sorted and adds exactly that element (multiset) |
| `CajaRepositorio.BuscarCaja` | app/repositories/caja_repository.py:25-34 | None exactly for an absent id, the row otherwise |
| `CajaRepositorio.ConCierre` | app/repositories/caja_repository.py:49-58 | closing sets closing date, final amount and Cerrada on that row only; opening data and other rows stay |
| `CajaRepositorio.AbiertaMasRecienteUnica` | app/repositories/caja_repository.py:37-46 | with at most one open till, the open-till query has a single possible answer |
| `CajaRepositorio.CierreDejaSinAbierta` | app/services/caja_service.py:40-44 | closing the one open till leaves no till open |
| `CajaRepositorio.CajaRepository.Crear` | app/repositories/caja_repository.py:11-22 | stores the till under a fresh id with no closing date and no final amount, since the INSERT names neither column; returns the caller's object with that id |
| `CajaRepositorio.CajaRepository.ObtenerPorId` | app/repositories/caja_repository.py:25-34 | None exactly for an absent id, the row otherwise |
| `CajaRepositorio.CajaRepository.ObtenerCajaAbierta` | app/repositories/caja_repository.py:37-46 | None exactly when no till (of any user) is open; otherwise a stored open till whose opening date no open till exceeds |
| `CajaRepositorio.CajaRepository.CerrarCaja` | app/repositories/caja_repository.py:49-58 | the table becomes `ConCierre` of the old one |
| `CajaRepositorio.CajaRepository.Listar` | app/repositories/caja_repository.py:61-68 | every till exactly once, nothing else, sorted by opening date descending |
| `CajaServicio.NuevaCaja` | app/services/caja_service.py:22-27 | the new till is open, has no closing data, and carries the given amount, user and date |
| `CajaServicio.ResumenCierre` | app/services/caja_service.py:46-53 | the summary carries the till's id and amounts, and initial + difference = final |
| `CajaServicio.AbrirCaja` | app/services/caja_service.py:12-28 | refused while any till is open, then for a negative amount (zero accepted), writing nothing; otherwise adds exactly one open till, which becomes the open-till answer and keeps at most one open |
| `CajaServicio.CerrarCaja` | app/services/caja_service.py:31-53 | refused with no open till, then for a negative amount, writing nothing; otherwise closes the most recent open till, returns `final - initial`, leaves none open and keeps at most one open |
| `CajaServicio.ObtenerCajaActual` | app/services/caja_service.py:56-61 | None exactly when no till is open, else the most recently opened open till |
| `CajaServicio.ListarCajas` | app/services/caja_service.py:64-67 | every till exactly once, most recently opened first |
| `CajaServicio.CierreBloqueaVentasHastaReabrir` | app/services/caja_service.py:12-53 | after closing the open till, a sale fails with no open till and writes nothing, and a new till opens |
| `VentaRepositorio.BuscarVenta` | app/repositories/venta_repository.py:39-48 | None exactly for an absent id, the row otherwise |
| `VentaRepositorio.DetallesDe` | app/repositories/venta_repository.py:51-58 | exactly the detail rows whose `fk_venta` is the sale, unchanged |
| `VentaRepositorio.SoloAgregaTransitivo` | app/repositories/venta_repository.py:8-68 | the ledger has only appends, so a row once stored survives any sequence of them |
| `VentaRepositorio.VentaRepository.Crear` | app/repositories/venta_repository.py:11-22 | appends the header under a fresh id; existing sales and all detail rows are unchanged |
| `VentaRepositorio.VentaRepository.CrearDetalle` | app/repositories/venta_repository.py:25-36 | appends the line under a fresh id; existing lines and all sales are unchanged |
| `VentaRepositorio.VentaRepository.ObtenerPorId` | app/repositories/venta_repository.py:39-48 | None exactly for an absent id, the header otherwise |
| `VentaRepositorio.VentaRepository.ObtenerDetalles` | app/repositories/venta_repository.py:51-58 | exactly the detail rows whose `fk_venta` is the sale, as stored |
| `VentaRepositorio.VentaRepository.Listar` | app/repositories/venta_repository.py:61-68 | every sale exactly once, nothing else, sorted by date descending |
| `VentaServicio.ErrorDeItem` | app/services/venta_service.py:27-31 | a line passes exactly when its product exists and its stock covers the quantity; an absent product gives `ProductoNoExiste` with its id, short stock gives `StockInsuficiente` with the product's name and stock |
| `VentaServicio.PrimerError` | app/services/venta_service.py:26-31 | no error exactly when every line passes; an error is that of a line all of whose predecessors pass |
| `VentaServicio.ValidadosExisten` | app/services/venta_service.py:26-29 | a validated sale names only stored products |
| `VentaServicio.ValidarItems` | app/services/venta_service.py:26-31 | the validation loop returns `PrimerError` of the table |
| `VentaServicio.InfoDe` | app/services/venta_service.py:37-44 | per line: the product as read, the quantity and `precio * cantidad` |
| `VentaServicio.CalcularTotal` | app/services/venta_service.py:34-44 | the loop returns `Total` and one `InfoDe` per line in order |
| `VentaServicio.LineaDe` | app/services/venta_service.py:58-64 | a detail row carries the sale id, product id, quantity, the product's price and the subtotal |
| `VentaServicio.Lineas` | app/services/venta_service.py:57-65 | one detail row per line |
| `VentaServicio.RegistrarLinea` | app/services/venta_service.py:58-68 | one pass of the loop: the line's detail row is stored under the next detail id with the sale's id, the product's id, quantity, unit price and subtotal, and that product's stock drops by the quantity; sales and other products are unchanged |
| `VentaServicio.RegistrarDetalles` | app/services/venta_service.py:57-68 | writes line i under id `first + i`, adds nothing else, changes no older line, and leaves the product table at `Debitar` of the old one |
| `VentaServicio.DetallesSonLineas` | app/services/venta_service.py:57-66 | the rows the write loop stores from the priced lines are exactly `Lineas` of the sale, and the debited pairs are the sale's own lines |
| `VentaServicio.ProcesarVenta` | app/services/venta_service.py:15-70 | no open till, then the first failing line, are reported with no table changed; otherwise the header (fresh id, date, total, client, user, most recent open till) and one row per line are appended and stock is debited |
| `VentaServicio.ObtenerVentaCompleta` | app/services/venta_service.py:73-83 | None for an unknown sale, else the header with exactly its detail rows |
| `VentaServicio.ListarVentas` | app/services/venta_service.py:86-89 | every sale exactly once, latest first |
| `VentaServicio.TotalEsSumaDeSubtotales` | app/services/venta_service.py:34-65 | the header total equals the sum of the subtotals on the detail rows |
| `VentaServicio.DebitarEfecto` | app/services/venta_service.py:57-68 | after the debits every product keeps its row and its other fields, and its stock drops by the total quantity its lines request (products not sold are untouched) |
| `VentaServicio.CantidadDeUnica` | app/services/venta_service.py:36-44 | without repeated products, a product's requested quantity is that of its one line |
| `VentaServicio.CantidadDeAusente` | app/services/venta_service.py:36-44 | a product no line names is requested in quantity zero |
| `VentaServicio.SinRepetidosNoSobregira` | app/services/venta_service.py:26-31 | with distinct products, a validated sale leaves every sold product with stock ≥ 0 |
| `VentaServicio.LineaRepetidaSobregira` | app/services/venta_service.py:26-31 | two lines of 2 on a stock of 3 pass validation and leave -1 |
| `VentaServicio.CantidadNegativaRepone` | app/services/venta_service.py:30-31 | a line of -5 passes validation and adds 5 units |
| `VentaServicio.ProductoInactivoSeVende` | app/services/venta_service.py:27-31 | a deactivated product with enough stock passes validation |
| `VentaServicio.VentaVacia` | app/services/venta_service.py:26-45 | a sale with no lines passes, totals 0 and debits nothing |
| `VentaServicio.EjemploTotal` | app/services/venta_service.py:34-44 | 2 × 50 + 3 × 75 = 325 |
| `InventarioServicio.AgregarProducto` | app/services/inventario_service.py:12-26 | negative price refused first, then negative stock (zeros accepted), writing nothing; otherwise stores a product with the constructor's defaults under a fresh id |
| `InventarioServicio.ActualizarProducto` | app/services/inventario_service.py:29-39 | unknown id refused with no write; otherwise only name, price and minimum change, and the updated product is returned |
| `InventarioServicio.AgregarStock` | app/services/inventario_service.py:42-53 | existence is checked before quantity; a quantity ≤ 0 is refused with no change; otherwise stock grows by exactly the quantity and the re-read row is returned |
| `InventarioServicio.Diccionarios` | app/services/inventario_service.py:62-65 | one dictionary per row, built by `to_dict` |
| `InventarioServicio.ObtenerAlertasStock` | app/services/inventario_service.py:56-59 | exactly the active products with stock ≤ minimum, each as the full `to_dict` of its row, which carries the alert flag |
| `InventarioServicio.ListarProductos` | app/services/inventario_service.py:62-65 | exactly the active products, as dictionaries |
| `InventarioServicio.BuscarProductoDict` | app/services/inventario_service.py:68-73 | None exactly for an absent id, the dictionary otherwise |
| `InventarioServicio.AlertasSonListadosMarcados` | app/services/inventario_service.py:56-65 | an alert is exactly a listed product whose dictionary carries the flag |
| `UsuarioRepositorio.ToDict` | app/models/usuario.py:15-22 | the dictionary carries every field but the hash |
| `UsuarioRepositorio.Activos` | app/repositories/usuario_repository.py:55-62 | `listar` returns exactly the active users |
| `UsuarioRepositorio.BuscarUsuario` | app/repositories/usuario_repository.py:30-40 | lookup by id ignores activo; None exactly when absent |
| `UsuarioRepositorio.FilaActualizada` | app/repositories/usuario_repository.py:65-86 | name, username and role come from the update; the hash only when it is non-empty; id and activo never change |
| `UsuarioRepositorio.ConBaja` | app/repositories/usuario_repository.py:89-95 | soft delete: only activo of that row becomes false |
| `UsuarioRepositorio.BajaOcultaPeroConserva` | app/repositories/usuario_repository.py:89-95 | a deactivated user leaves the listing and is still found by id |
| `UsuarioRepositorio.ActualizarConservaEsquema` | app/repositories/usuario_repository.py:70-82 | an update with an admitted role keeps a stored row within the schema (the kept hash is never null) |
| `UsuarioRepositorio.UsuarioRepository.Crear` | app/repositories/usuario_repository.py:11-27 | stores the user under a fresh id; a row without hash, with a role outside the CHECK, or with a username any row holds is refused and nothing is stored |
| `UsuarioRepositorio.UsuarioRepository.ObtenerPorId` | app/repositories/usuario_repository.py:30-40 | None exactly for an absent id, the row, active or not, otherwise |
| `UsuarioRepositorio.UsuarioRepository.Listar` | app/repositories/usuario_repository.py:55-62 | exactly the active rows, as stored |
| `UsuarioRepositorio.UsuarioRepository.ObtenerPorUsername` | app/repositories/usuario_repository.py:43-52 | None exactly when no ACTIVE row holds the username, else that row |
| `UsuarioRepositorio.UsuarioRepository.Actualizar` | app/repositories/usuario_repository.py:65-86 | an absent id changes nothing; a role outside the CHECK or a username another row holds raises with no change; otherwise the row becomes `FilaActualizada` |
| `UsuarioRepositorio.UsuarioRepository.Eliminar` | app/repositories/usuario_repository.py:89-95 | the table becomes `ConBaja` of the old one |
| `UsuarioServicio.HashNuevo` | app/services/usuario_service.py:51-55 | a non-empty password yields its bcrypt hash, an empty one None |
| `UsuarioServicio.AgregarUsuario` | app/services/usuario_service.py:16-24 | a username an active user holds is refused first; the user is stored with its bcrypt hash exactly when the role is admitted and no row holds the username |
| `UsuarioServicio.ActualizarUsuario` | app/services/usuario_service.py:37-58 | unknown id refused; a changed username an active user holds refused; otherwise the update succeeds exactly when the role is one of the three and no other row holds the username, and fails only with the store's IntegrityError; on success name, username and role are set, the hash kept for an empty password and replaced otherwise; every refusal writes nothing |
| `UsuarioServicio.EliminarUsuario` | app/services/usuario_service.py:61-64 | unknown id refused with no change, otherwise only deactivates |
| `UsuarioServicio.ListarUsuarios` | app/services/usuario_service.py:27-29 | exactly the active users, as hash-free dictionaries |
| `UsuarioServicio.BuscarUsuarioDict` | app/services/usuario_service.py:32-34 | None exactly for an absent id, the dictionary otherwise |
| `UsuarioServicio.ClaveVaciaConservaHash` | app/services/usuario_service.py:51-55 | an empty password keeps the stored hash, a non-empty one stores its new hash |
| `AuthServicio.HashPassword` | app/services/auth_service.py:15-17 | the SHA-256 hex digest of the password, unsalted, so equal passwords give equal hashes |
| `AuthServicio.VerifyPassword` | app/services/auth_service.py:20-22 | a password matches a hash exactly when its digest is that hash |
| `AuthServicio.GenerarToken` | app/services/auth_service.py:25-34 | the encoding of id, username, role and an expiry 86400 seconds (24 hours) after now; `TokenValido24Horas` states what decoding it gives |
| `AuthServicio.VerificaSuPropioHash` | app/services/auth_service.py:15-22 | every password verifies against its own hash |
| `AuthServicio.OtraClaveNoVerifica` | app/services/auth_service.py:20-22 | with an injective hash, a password verifies against the hash of p exactly when it is p |
| `AuthServicio.DecodificarToken` | app/services/auth_service.py:37-46 | None exactly when the text does not decode or has expired, else the decoded payload |
| `AuthServicio.TokenValido24Horas` | app/services/auth_service.py:25-46 | with a codec that reads back what it writes, a token decodes to its own payload exactly until 24 hours after issue |
| `AuthServicio.Nivel` | app/services/auth_service.py:51 | Admin 3, Cajero 2, Auxiliar 1, any other string 0 |
| `AuthServicio.VerificarRol` | app/services/auth_service.py:49-52 | passes exactly as the case table `Permitido` says: an unknown requirement passes everyone, Admin passes everything, Cajero everything but Admin, Auxiliar only Auxiliar |
| `AuthServicio.VerificarRolEsTabla` | app/services/auth_service.py:49-52 | the level comparison grants exactly the pairs of the case-by-case hierarchy table |
| `AuthServicio.AdminPasaTodo` | app/services/auth_service.py:52 | Admin passes every requirement |
| `AuthServicio.AuxiliarSoloAuxiliar` | app/services/auth_service.py:52 | Auxiliar passes exactly Auxiliar and unknown requirements |
| `AuthServicio.RolDesconocido` | app/services/auth_service.py:51-52 | an unknown user role passes exactly the unknown requirements |
| `AuthServicio.VerificarRolPreorden` | app/services/auth_service.py:52 | the role check is reflexive and transitive |
| `AuthControlador.DecidirLogin` | app/controllers/auth_controller.py:14-30 | not found, then deactivated, then wrong password; success exactly for an active user whose stored hash is that of the password, with a token for that user and its dictionary |
| `AuthControlador.Login` | app/controllers/auth_controller.py:12-30 | an unknown or inactive username gets "not found"; an active holder gets `DecidirLogin`; "deactivated" is never answered |
| `AuthControlador.OtroHashNoAbreSesion` | app/controllers/auth_controller.py:22-23 | a user stored with a hash other than SHA-256 of the password (bcrypt) is told the password is wrong |
| `AuthControlador.RegistrarUsuario` | app/controllers/auth_controller.py:33-58 | an active holder of the username is reported before the role, then an invalid role, with no write; otherwise the user is stored with the SHA-256 hash, and the insert raises exactly when an inactive row holds the username |
| `AuthControlador.ValidarToken` | app/controllers/auth_controller.py:61-67 | a payload exactly for a token that decodes and has not expired |
| `AuthControlador.VerificarPermiso` | app/controllers/auth_controller.py:70-76 | false for a bad or expired token, otherwise exactly the hierarchy table's answer for its role |
| `ClienteRepositorio.Activos` | app/repositories/cliente_repository.py:51-67 | `listar` returns exactly the active clients |
| `ClienteRepositorio.BuscarCliente` | app/repositories/cliente_repository.py:31-48 | lookup by id ignores activo; None exactly when absent |
| `ClienteRepositorio.ConDatos` | app/repositories/cliente_repository.py:70-85 | name, phone and email of that row change; id, activo and other rows stay |
| `ClienteRepositorio.ConBaja` | app/repositories/cliente_repository.py:88-97 | soft delete: only activo of that row becomes false |
| `ClienteRepositorio.BajaOcultaPeroConserva` | app/repositories/cliente_repository.py:88-97 | a deactivated client leaves the listing and is still found by id |
| `ClienteRepositorio.ClienteRepository.Crear` | app/repositories/cliente_repository.py:12-28 | stores the client under a fresh id and writes the id back |
| `ClienteRepositorio.ClienteRepository.ObtenerPorId` | app/repositories/cliente_repository.py:31-48 | None exactly for an absent id, the row, active or not, otherwise |
| `ClienteRepositorio.ClienteRepository.Listar` | app/repositories/cliente_repository.py:51-67 | exactly the active rows, as stored |
| `ClienteRepositorio.ClienteRepository.Actualizar` | app/repositories/cliente_repository.py:70-85 | the table becomes `ConDatos` of the old one |
| `ClienteRepositorio.ClienteRepository.Eliminar` | app/repositories/cliente_repository.py:88-97 | the table becomes `ConBaja` of the old one |
| `ClienteServicio.AgregarCliente` | app/services/cliente_service.py:12-22 | an empty name is refused with no write; otherwise one active client with the given (default None) phone and email |
| `ClienteServicio.ActualizarCliente` | app/services/cliente_service.py:25-36 | unknown id refused with no write; otherwise exactly name, phone and email are overwritten |
| `ClienteServicio.EliminarCliente` | app/services/cliente_service.py:39-46 | unknown id refused; otherwise deactivated, gone from the listing, still stored, and true returned |
| `ClienteServicio.ListarClientes` | app/services/cliente_service.py:49-52 | exactly the active clients |
| `ClienteServicio.BuscarClienteDict` | app/services/cliente_service.py:55-60 | None exactly for an absent id |
| `ProveedorRepositorio.Activos` | app/repositories/proveedor_repository.py:38-45 | `listar` returns exactly the active suppliers |
| `ProveedorRepositorio.BuscarProveedor` | app/repositories/proveedor_repository.py:25-35 | lookup by id ignores activo; None exactly when absent |
| `ProveedorRepositorio.ConDatos` | app/repositories/proveedor_repository.py:48-57 | name, phone and address of that row change; id, activo and other rows stay |
| `ProveedorRepositorio.ConBaja` | app/repositories/proveedor_repository.py:60-66 | soft delete: only activo of that row becomes false |
| `ProveedorRepositorio.BajaOcultaPeroConserva` | app/repositories/proveedor_repository.py:60-66 | a deactivated supplier leaves the listing and is still found by id |
| `ProveedorRepositorio.ProveedorRepository.Crear` | app/repositories/proveedor_repository.py:11-22 | stores the supplier under a fresh id |
| `ProveedorRepositorio.ProveedorRepository.ObtenerPorId` | app/repositories/proveedor_repository.py:25-35 | None exactly for an absent id, the row, active or not, otherwise |
| `ProveedorRepositorio.ProveedorRepository.Listar` | app/repositories/proveedor_repository.py:38-45 | exactly the active rows, as stored |
| `ProveedorRepositorio.ProveedorRepository.Actualizar` | app/repositories/proveedor_repository.py:48-57 | the table becomes `ConDatos` of the old one |
| `ProveedorRepositorio.ProveedorRepository.Eliminar` | app/repositories/proveedor_repository.py:60-66 | the table becomes `ConBaja` of the old one |
| `ProveedorServicio.AgregarProveedor` | app/services/proveedor_service.py:11-21 | an empty name is refused with no write; otherwise one active supplier with the given fields |
| `ProveedorServicio.ActualizarProveedor` | app/services/proveedor_service.py:24-34 | unknown id refused with no write; otherwise exactly name, phone and address are overwritten |
| `ProveedorServicio.EliminarProveedor` | app/services/proveedor_service.py:37-44 | unknown id refused with no write; otherwise deactivated, gone from the listing, and true returned |
| `ProveedorServicio.ListarProveedores` | app/services/proveedor_service.py:47-50 | exactly the active suppliers |
| `ProveedorServicio.BuscarProveedorDict` | app/services/proveedor_service.py:53-58 | None exactly for an absent id |

## Left out

- Connections, commits and `init_db` (app/database/connection.py) are not modelled. The schema's constraints are: `estado` in {Abierta, Cerrada}, which is a datatype here; `rol` in the three roles, a non-null `password_hash` and a unique `username`, which form the user table's invariant and the error of its writes.
- The HTTP layer (api_main.py), the controllers other than the auth controller, and static/js are not modelled. The remaining controllers only turn exceptions into messages.
- The till controller is not modelled. It calls `cerrar_caja` and `obtener_caja_actual` with an argument those functions do not take.
- SHA-256, bcrypt and the base64/JSON token codec are library calls. They are function parameters, and the message texts are datatype constructors.
- Timestamps are ISO strings in the source and an integer clock here. The orderings by date assume that the strings sort like the instants they denote.
- Prices and amounts are floating point in the source and exact integers (cents) here. Rounding is not modelled.
- Each repository call commits on its own connection. The model is sequential: it does not cover a crash between the header and the detail writes of a sale, or concurrent requests. For example, a concurrent `actualizar_producto` could write back a stock value that was read earlier.
- `to_dict` of tills, sales and detail rows copies every field, so the listings return the records themselves.
- CajaRepositorio.CajaRepository.ObtenerCajaAbierta: when two open tills share the latest date, SQL's `LIMIT 1` may return either. The contract promises only an open till with the latest date, not which one.
- CajaRepositorio.CajaRepository.Listar: rows with equal opening dates may come in any order, and the contract does not fix one. The same holds for VentaRepositorio.VentaRepository.Listar.
- ProductoModelo.NuevoProducto: the record carries `codigo_barras`, which the Python constructor (app/models/producto.py:8) lacks, so as written every product read raises (see Findings). The schema (app/database/connection.py:50-51) puts `codigo_barras` before `activo`, while the repository's positional reads (app/repositories/producto_repository.py:33,44) take them the other way round: once the constructor accepts the keyword, every read of a table the schema creates swaps the two fields, and `actualizar` writes the swapped value back into `codigo_barras` (see Findings). The model reads each field from its own column.
- InventarioServicio.ObtenerAlertasStock: app/services/inventario_service.py:58 calls `ProductoRepository.obtener_productos_bajo_stock`, which app/repositories/producto_repository.py does not define, so as written every call raises AttributeError. The model instead gives the query the meaning the repository test (tests/repositories/test_producto_repository.py:170-187) expects: the active rows whose stock is at or below their minimum (`ProductoRepositorio.BajoStock`, `ProductoRepositorio.ProductoRepository.ObtenerProductosBajoStock`). The failing call itself is not modelled.
- UsuarioServicio.AgregarUsuario: passlib's bcrypt is salted, so two hashes of one password differ. The model takes `bcrypt` as a deterministic function, and the stored `bcrypt(password)` stands for one salted output; the contract does not promise which.
- UsuarioServicio.ActualizarUsuario: the same holds for the hash it stores for a non-empty password.
- Python's dynamic values are not modelled: `None` names, strings passed as prices and the like. Typed fields stand for them, so the NOT NULL failures they would cause are not modelled either.

## Findings

| source | as written | input that shows it | evidently intended | confidence | as-written member | corrected member |
|---|---|---|---|---|---|---|
| app/models/producto.py:8 | `__init__` takes no `codigo_barras`, yet `listar` and `obtener_por_id` pass `codigo_barras=` (app/repositories/producto_repository.py:33,44) and `crear` reads `producto.codigo_barras` (line 18) | any stored product: `obtener_por_id(1)` raises TypeError (unexpected keyword argument), so every product read, and every sale, restock and update that reads first, fails | a `codigo_barras=None` parameter stored on the object | high; not executed | `ProductoModelo.LecturaRechazada` | `ProductoModelo.LecturaAceptadaCorregida` |
| app/repositories/producto_repository.py:44 | reads `activo=row[6]` and `codigo_barras=row[7]` by position from `SELECT *` | a table created by the schema (codigo_barras at position 6, activo at 7) holding an active product with barcode "7701234": the read gives activo "7701234" and barcode 1 | each field from its own column: `codigo_barras` from position 6, `activo` from 7 | medium, since a table extended with the column afterwards would have it last; not executed | `ProductoLectura.LecturaIntercambiaColumnas` | `ProductoLectura.LeerPorColumna` |
| app/repositories/producto_repository.py:66 | `SET stock = ?` stores the argument as the new stock | stock 10, the sale path calls `actualizar_stock(id, -2)` for 2 units: stock becomes -2, not 8 | `SET stock = stock + ?`, the delta both callers pass and the repository test expects | high; not executed | `ProductoRepositorio.StockAbsolutoEjemplo` | `ProductoRepositorio.ConStock` |
