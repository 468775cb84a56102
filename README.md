# Level-Up Store (labx) in Dafny

This project models the core of the labx Android shop app, "Level-Up Store", and proves properties of that model.
It covers six areas:

- **Cart and checkout.** The `carrito` table and its DAO, the cart repository, the cart view model (add, change quantity, remove, clear, pay), the cart and checkout screens' rules (discount, button enablement, input filters, events), and the `Carrito`/`ItemCarrito` totals.
- **Prices.** `precioFormateado` and `formatearPrecio`: truncation to an integer, then thousands grouping with ".".
- **Catalogue.** The `productos` table, the entity, DTO and `ResultadoApi` mappings, the repository, the hybrid API merge, the product view model and UI state, the home filters, the admin statistics and delete dialog, and the product form.
- **Registration.** The form validators, the registration view model and the `ErroresFormulario` summary.
- **Accounts and sessions.** The `usuarios` table, its repository, the customer session store, the admin preferences, and the user view model: registration, e-mail sign-in, sign-out, session restore and the referral code.
- **Sign-in screens and routes.** The universal and admin sign-in screens, and the `Rutas` route builders.

SQLite tables are sequences of rows kept in key order, each with an AUTOINCREMENT counter.
Room DAOs, view models and screen state holders are classes whose methods change their fields. Each method is specified against a pure function of the old state.
Pure Kotlin code (mappers, validators, formatting, derived getters) becomes functions, and the lemmas about them carry the properties.
Randomness, clocks, UUIDs, thrown exceptions and API responses are parameters.
Each suspending call runs to completion, except payment, which is split at its two-second delay.

The Dafny modules follow the app's packages:

- Shared: `Opciones`, `Sumas`, `Texto`, `OrdenTexto`, `Listas`, `Tabla`, `Formato`.
- Domain and data: `Dominio`, `Entidades`, `Dto`, `Remoto`, `CarritoDatos`, `ProductoDatos`, `UsuarioDatos`, `Preferencias`.
- State holders and screens: `VistaCarrito`, `PantallaCarrito`, `PantallaCheckout`, `VistaProductos`, `PantallaInicio`, `PantallaAdmin`, `PantallaFormularioProducto`, `Validacion`, `VistaRegistro`, `VistaUsuario`, `Login`.
- Routes: `Navegacion`.

## Model

| member | source | states |
|---|---|---|
| `Dominio.CarritoUiState.CarritoActual` | labx/app/src/main/java/com/example/labx/ui/state/CarritoUiState.kt:17-18 | the derived cart holds exactly the state's lines, and is empty exactly when there are no lines |
| `Dominio.Producto.PrecioFormateado` | labx/app/src/main/java/com/example/labx/domain/model/Producto.kt:23-26 | the price as "$" and its truncated integer part grouped in threes; `PrecioFormateadoAgrupa` and `PrecioFormateadoEjemplo` state what the text holds |
| `Dominio.Producto.HayStock` | labx/app/src/main/java/com/example/labx/domain/model/Producto.kt:31-32 | holds exactly when the stock is positive |
| `Dominio.ItemCarrito.Subtotal` | labx/app/src/main/java/com/example/labx/domain/model/ItemCarrito.kt:14-15 | price times quantity; `SubtotalCasos` and `SubtotalAditivo` state its behaviour |
| `Dominio.Carrito.CantidadTotal` | labx/app/src/main/java/com/example/labx/domain/model/Carrito.kt:13-14 | the sum of the lines' quantities; `TotalesPermutacion`, `TotalesConcat` and `CarritoPorDefecto` state its properties |
| `Dominio.Carrito.PrecioTotal` | labx/app/src/main/java/com/example/labx/domain/model/Carrito.kt:17-18 | the sum of the lines' subtotals; `TotalesPermutacion`, `TotalesConcat` and `PrecioTotalNoNegativo` state its properties |
| `Dominio.Carrito.EstaVacio` | labx/app/src/main/java/com/example/labx/domain/model/Carrito.kt:21-22 | holds exactly when there are no lines; `CarritoUiState.CarritoActual` ties it to the UI state |
| `Dominio.PrecioFormateadoAgrupa` | labx/app/src/main/java/com/example/labx/domain/model/Producto.kt:23-26 | a whole non-negative price is shown as "$" plus its decimal digits grouped in threes from the right; a "." appears exactly when the price reaches 1000 |
| `Dominio.PrecioFormateadoEjemplo` | labx/app/src/main/java/com/example/labx/domain/model/Producto.kt:19-26 | the documented example: 25000.0 is shown as "$25.000" |
| `Dominio.SubtotalCasos` | labx/app/src/main/java/com/example/labx/domain/model/ItemCarrito.kt:9-16 | with the default quantity (1) a line costs its product's price; zero units cost nothing |
| `Dominio.SubtotalAditivo` | labx/app/src/main/java/com/example/labx/domain/model/ItemCarrito.kt:14-15 | a line's subtotal is additive in the quantity |
| `Dominio.CarritoPorDefecto` | labx/app/src/main/java/com/example/labx/domain/model/Carrito.kt:9-22 | the default cart is empty, with zero units and zero total |
| `Dominio.TotalesPermutacion` | labx/app/src/main/java/com/example/labx/domain/model/Carrito.kt:13-18 | unit count and total price do not depend on the order of the lines |
| `Dominio.TotalesConcat` | labx/app/src/main/java/com/example/labx/domain/model/Carrito.kt:13-18 | unit count and total price of two lists of lines together are the sums of each |
| `Dominio.PrecioTotalNoNegativo` | labx/app/src/main/java/com/example/labx/domain/model/Carrito.kt:17-18 | with non-negative prices and quantities the total is non-negative |
| `Dominio.CarritoUiStatePropiedades` | labx/app/src/main/java/com/example/labx/ui/state/CarritoUiState.kt:12-19 | the default state has no lines and is not loading; the loading flag does not affect the derived cart |
| `Formato.TruncarAEntero` | labx/app/src/main/java/com/example/labx/domain/model/Producto.kt:24 | `toInt()` truncates toward zero: the result is the whole part of the price, below it for positive prices and above it for negative ones |
| `Formato.AgruparMilesEsAgrupado` | labx/app/src/main/java/com/example/labx/domain/model/Producto.kt:25 | the reverse/chunk(3)/join(".")/reverse chain equals grouping in threes counted from the right |
| `Formato.AgrupadoCorrecto` | labx/app/src/main/java/com/example/labx/domain/model/Producto.kt:25 | grouping a non-empty run of digits and deleting the dots gives the run back; the groups are one to three characters and then exactly three each; there is a dot exactly when the run is longer than three |
| `Formato.LongitudDecimal` | labx/app/src/main/java/com/example/labx/domain/model/Producto.kt:25 | a number has at most k digits exactly when it is below 10^k, so a dot appears exactly from 1000 on |
| `Entidades.CarritoEntity.ToDomain` | labx/app/src/main/java/com/example/labx/data/local/entity/CarritoEntity.kt:31-41 | the product a cart row stands for has the row's product id, not the row key |
| `Entidades.FilaNuevaToDomain` | labx/app/src/main/java/com/example/labx/data/local/entity/CarritoEntity.kt:14-41 | a row built from a product converts back to exactly that product |
| `Entidades.ToDomainIgnoraClaveYCantidad` | labx/app/src/main/java/com/example/labx/data/local/entity/CarritoEntity.kt:31-41 | the conversion ignores the row key and the quantity |
| `Entidades.CarritoEntityPorDefecto` | labx/app/src/main/java/com/example/labx/data/local/entity/CarritoEntity.kt:14-26 | a row built with the defaults has key 0 (generate one) and quantity 1 |
| `Entidades.ProductoEntityIda` | labx/app/src/main/java/com/example/labx/data/local/entity/ProductoEntity.kt:27-48 | product to row and back gives the same product, id included |
| `Entidades.ProductoEntityVuelta` | labx/app/src/main/java/com/example/labx/data/local/entity/ProductoEntity.kt:27-48 | row to product and back gives the same row |
| `Entidades.ToProducto` | labx/app/src/main/java/com/example/labx/data/local/entity/ProductoEntity.kt:28-36 | copies every field of the row; `ProductoEntityIda` and `ProductoEntityVuelta` prove it inverse to `ToEntity` |
| `Entidades.ToEntity` | labx/app/src/main/java/com/example/labx/data/local/entity/ProductoEntity.kt:41-49 | copies every field of the product; `ProductoEntityIda` and `ProductoEntityVuelta` prove it inverse to `ToProducto` |
| `Entidades.ToProductos` | labx/app/src/main/java/com/example/labx/data/local/entity/ProductoEntity.kt:27-35 | converting a list of rows keeps its length and converts each row in place |
| `Entidades.ToEntities` | labx/app/src/main/java/com/example/labx/data/local/entity/ProductoEntity.kt:40-48 | converting a list of products keeps its length and converts each product in place |
| `Dto.AModeloConStock` | labx/app/src/main/java/com/example/labx/data/remote/dto/ProductoDto.kt:102-112 | the product gets exactly the stock given |
| `Dto.AModelo` | labx/app/src/main/java/com/example/labx/data/remote/dto/ProductoDto.kt:81-91 | every product from the remote catalogue gets stock 10 |
| `Dto.AModeloEsConStock` | labx/app/src/main/java/com/example/labx/data/remote/dto/ProductoDto.kt:81-112 | `aModelo` is `aModeloConStock` with the fixed stock of 10 |
| `Dto.ADtoDeAModelo` | labx/app/src/main/java/com/example/labx/data/remote/dto/ProductoDto.kt:81-134 | remote record to product and back gives the same record, whatever stock was chosen |
| `Dto.AModeloDeADto` | labx/app/src/main/java/com/example/labx/data/remote/dto/ProductoDto.kt:81-134 | product to remote record and back loses only the stock (replaced by 10, or restored when passed explicitly) |
| `Dto.ADto` | labx/app/src/main/java/com/example/labx/data/remote/dto/ProductoDto.kt:125-134 | copies every field but the stock; `ADtoDeAModelo` and `AModeloDeADto` state the round trips with `aModelo` |
| `Dto.AModelos` | labx/app/src/main/java/com/example/labx/data/remote/dto/ProductoDto.kt:143-145 | the list mapper keeps the length and converts each element in place |
| `Dto.ADtos` | labx/app/src/main/java/com/example/labx/data/remote/dto/ProductoDto.kt:152-154 | the list mapper keeps the length and converts each element in place |
| `Dto.ADtosDeAModelos` | labx/app/src/main/java/com/example/labx/data/remote/dto/ProductoDto.kt:143-154 | the list mappers round-trip element by element |
| `Remoto.ResultadoApi.ObtenerDatosONull` | labx/app/src/main/java/com/example/labx/data/remote/ResultadoApi.kt:111-116 | there is data exactly for a success, and it is the success's data |
| `Remoto.ResultadoApi.AlSerExitoso` | labx/app/src/main/java/com/example/labx/data/remote/ResultadoApi.kt:181-185 | the block runs once, with the data, exactly on success, and never otherwise |
| `Remoto.ResultadoApi.AlSerError` | labx/app/src/main/java/com/example/labx/data/remote/ResultadoApi.kt:199-203 | the block runs once, with the message, exactly on failure, and never otherwise |
| `Remoto.ResultadoApi.Mapear` | labx/app/src/main/java/com/example/labx/data/remote/ResultadoApi.kt:223-229 | mapping keeps the state: success maps the data, a failure keeps message, HTTP code and exception, loading stays loading |
| `Remoto.ResultadoApi.ObtenerMensajeError` | labx/app/src/main/java/com/example/labx/data/remote/ResultadoApi.kt:243-248 | a failure gives its message, anything else the default |
| `Remoto.ExactamenteUnEstado` | labx/app/src/main/java/com/example/labx/data/remote/ResultadoApi.kt:19-93 | every result is in exactly one of success, failure and loading |
| `Remoto.ResultadoApi.EstaEnError` | labx/app/src/main/java/com/example/labx/data/remote/ResultadoApi.kt:130-132 | holds exactly for a failure; `ExactamenteUnEstado` shows the three tests partition the results |
| `Remoto.ResultadoApi.EstaCargando` | labx/app/src/main/java/com/example/labx/data/remote/ResultadoApi.kt:148-150 | holds exactly while loading; `ExactamenteUnEstado` shows the three tests partition the results |
| `Remoto.ResultadoApi.FueExitoso` | labx/app/src/main/java/com/example/labx/data/remote/ResultadoApi.kt:165-167 | holds exactly for a success; `ExactamenteUnEstado` shows the three tests partition the results |
| `Remoto.MapearIdentidad` | labx/app/src/main/java/com/example/labx/data/remote/ResultadoApi.kt:223-229 | mapping with the identity changes nothing |
| `Remoto.MapearComposicion` | labx/app/src/main/java/com/example/labx/data/remote/ResultadoApi.kt:223-229 | two mappings in a row are one mapping of the composition |
| `Remoto.ErrorPorDefecto` | labx/app/src/main/java/com/example/labx/data/remote/ResultadoApi.kt:68-72 | a failure built with only a message has no HTTP code and no exception |
| `Remoto.MensajePorDefectoVacio` | labx/app/src/main/java/com/example/labx/data/remote/ResultadoApi.kt:243-248 | without an explicit default, a non-failure reports the empty message |
| `Entidades.FilaNueva` | labx/app/src/main/java/com/example/labx/data/repository/CarritoRepository.kt:56-65 | the row built for a product not yet in the cart asks for a generated key and copies the product id and the quantity |
| `CarritoDatos.PrimeroPorProductoCorrecto` | labx/app/src/main/java/com/example/labx/data/local/dao/CarritoDao.kt:49-50 | the lookup by product finds nothing exactly when no row has that product; otherwise a row of the table with that product |
| `CarritoDatos.PrimeroPorProductoEsPrimero` | labx/app/src/main/java/com/example/labx/data/local/dao/CarritoDao.kt:49-50 | the row found is the first of that product's rows in table order |
| `CarritoDatos.FijarCantidad` | labx/app/src/main/java/com/example/labx/data/local/dao/CarritoDao.kt:57-58 | the update sets the quantity of every row of the product and leaves every other row and the row count as they were |
| `CarritoDatos.QuitarProducto` | labx/app/src/main/java/com/example/labx/data/local/dao/CarritoDao.kt:64-65 | the delete keeps exactly the rows of other products |
| `CarritoDatos.TotalSql` | labx/app/src/main/java/com/example/labx/data/local/dao/CarritoDao.kt:41-42 | SQL's SUM is null exactly on an empty table |
| `CarritoDatos.ItemsDeFilas` | labx/app/src/main/java/com/example/labx/data/repository/CarritoRepository.kt:26-36 | one cart line per row, in row order, with the row's product and quantity |
| `CarritoDatos.CarritoDao.constructor` | labx/app/src/main/java/com/example/labx/data/local/dao/CarritoDao.kt:14-15 | a new table is empty and has used no key |
| `CarritoDatos.CarritoDao.ObtenerTodo` | labx/app/src/main/java/com/example/labx/data/local/dao/CarritoDao.kt:21-22 | every row, in key order |
| `CarritoDatos.CarritoDao.ObtenerTotal` | labx/app/src/main/java/com/example/labx/data/local/dao/CarritoDao.kt:41-42 | the SQL sum of price times quantity; `TotalSql` and `TotalesCoinciden` state its value |
| `CarritoDatos.CarritoDao.ObtenerPorProductoId` | labx/app/src/main/java/com/example/labx/data/local/dao/CarritoDao.kt:49-50 | the first row of that product; `PrimeroPorProductoCorrecto` and `PrimeroPorProductoEsPrimero` state it |
| `CarritoDatos.CarritoDao.Insertar` | labx/app/src/main/java/com/example/labx/data/local/dao/CarritoDao.kt:28-29 | key 0 appends the row under the next AUTOINCREMENT key; an explicit key already present aborts and changes nothing; an explicit new key is placed in key order |
| `CarritoDatos.CarritoDao.Vaciar` | labx/app/src/main/java/com/example/labx/data/local/dao/CarritoDao.kt:34-35 | the table is emptied and the key counter is kept |
| `CarritoDatos.CarritoDao.ActualizarCantidad` | labx/app/src/main/java/com/example/labx/data/local/dao/CarritoDao.kt:57-58 | the table becomes the update above |
| `CarritoDatos.CarritoDao.EliminarProducto` | labx/app/src/main/java/com/example/labx/data/local/dao/CarritoDao.kt:64-65 | the table becomes the delete above |
| `CarritoDatos.CarritoRepository.constructor` | labx/app/src/main/java/com/example/labx/data/repository/CarritoRepository.kt:20 | the repository wraps the given DAO |
| `CarritoDatos.CarritoRepository.ObtenerCarrito` | labx/app/src/main/java/com/example/labx/data/repository/CarritoRepository.kt:26-36 | one line per row; `ItemsDeFilas` states it |
| `CarritoDatos.CarritoRepository.ObtenerTotal` | labx/app/src/main/java/com/example/labx/data/repository/CarritoRepository.kt:102-105 | the SQL sum with null read as 0.0; `TotalesCoinciden` shows it is the lines' total |
| `CarritoDatos.CarritoRepository.AgregarProducto` | labx/app/src/main/java/com/example/labx/data/repository/CarritoRepository.kt:46-68 | the table becomes the look-up-then-update-or-insert result |
| `CarritoDatos.CarritoRepository.ModificarCantidad` | labx/app/src/main/java/com/example/labx/data/repository/CarritoRepository.kt:75-83 | a quantity of 0 or less deletes the product's rows; any other sets it |
| `CarritoDatos.CarritoRepository.EliminarProducto` | labx/app/src/main/java/com/example/labx/data/repository/CarritoRepository.kt:88-90 | the product's rows are deleted |
| `CarritoDatos.CarritoRepository.VaciarCarrito` | labx/app/src/main/java/com/example/labx/data/repository/CarritoRepository.kt:95-105 | the table is emptied and the total then reads 0.0 |
| `CarritoDatos.QuitarProductoOrdenada` | labx/app/src/main/java/com/example/labx/data/local/dao/CarritoDao.kt:64-65 | deleting a product keeps the rows in key order |
| `CarritoDatos.AgregadoMantieneUnicidad` | labx/app/src/main/java/com/example/labx/data/repository/CarritoRepository.kt:46-68 | adding through the repository keeps at most one row per product |
| `CarritoDatos.AgregadoNuevo` | labx/app/src/main/java/com/example/labx/data/repository/CarritoRepository.kt:54-67 | adding a product that has no row appends exactly one line: that product with that quantity |
| `CarritoDatos.AgregadoExistente` | labx/app/src/main/java/com/example/labx/data/repository/CarritoRepository.kt:50-53 | adding a product that already has a row inserts nothing and only raises that row's quantity by the amount added |
| `CarritoDatos.AgregadoCantidadTotal` | labx/app/src/main/java/com/example/labx/data/repository/CarritoRepository.kt:46-68 | adding n units raises the cart's unit count by exactly n |
| `CarritoDatos.CantidadTotalDeFilas` | labx/app/src/main/java/com/example/labx/data/repository/CarritoRepository.kt:26-36 | the cart's unit count is the sum of the rows' quantities |
| `CarritoDatos.SumaFijarCantidadUnica` | labx/app/src/main/java/com/example/labx/data/repository/CarritoRepository.kt:75-83 | setting the quantity of a product's only row to q changes the unit count by q minus the old quantity |
| `CarritoDatos.FijarCantidadSinCoincidencia` | labx/app/src/main/java/com/example/labx/data/local/dao/CarritoDao.kt:57-65 | updating or deleting a product that has no row changes nothing |
| `CarritoDatos.ModificarMantieneUnicidad` | labx/app/src/main/java/com/example/labx/data/repository/CarritoRepository.kt:75-90 | changing or deleting a quantity keeps at most one row per product |
| `CarritoDatos.QuitarProductoSubsecuencia` | labx/app/src/main/java/com/example/labx/data/local/dao/CarritoDao.kt:64-65 | deleting a product keeps at most one row per product |
| `CarritoDatos.TotalesCoinciden` | labx/app/src/main/java/com/example/labx/data/repository/CarritoRepository.kt:102-105 | the repository's total (SQL sum, null read as 0.0) equals the sum of the cart lines' subtotals |
| `VistaCarrito.DescuentoPropiedades` | labx/app/src/main/java/com/example/labx/ui/viewmodel/CarritoViewModel.kt:180-181 | on a non-negative subtotal the discount is between 0 and the subtotal; discount plus total is the subtotal; Duoc users pay nine tenths, others the subtotal; a discount is given exactly to a Duoc user with a positive subtotal |
| `VistaCarrito.MontoDescuento` | labx/app/src/main/java/com/example/labx/ui/viewmodel/CarritoViewModel.kt:180 | a tenth of the subtotal for a Duoc user, nothing otherwise; `DescuentoPropiedades` bounds it |
| `VistaCarrito.TotalFinal` | labx/app/src/main/java/com/example/labx/ui/viewmodel/CarritoViewModel.kt:181 | subtotal less discount; `DescuentoPropiedades` shows it is nine tenths for Duoc users and the subtotal otherwise |
| `VistaCarrito.IdTransaccionForma` | labx/app/src/main/java/com/example/labx/ui/viewmodel/CarritoViewModel.kt:186 | for a random UUID the transaction id is "TRX-" followed by eight characters |
| `VistaCarrito.OrdenCorrecta` | labx/app/src/main/java/com/example/labx/ui/viewmodel/CarritoViewModel.kt:175-201 | the recorded order keeps the lines read and their total, applies the discount of the buyer's kind, and carries the transaction id |
| `VistaCarrito.CarritoViewModel.constructor` | labx/app/src/main/java/com/example/labx/ui/viewmodel/CarritoViewModel.kt:36-50 | a new view model has sent no event, is not processing, and has no order |
| `VistaCarrito.CarritoViewModel.TotalCarrito` | labx/app/src/main/java/com/example/labx/ui/viewmodel/CarritoViewModel.kt:87-94 | the view model's total is the sum of the lines' subtotals, and equals the DAO's SQL total with null read as 0.0 |
| `VistaCarrito.CarritoViewModel.ItemsCarrito` | labx/app/src/main/java/com/example/labx/ui/viewmodel/CarritoViewModel.kt:60-85 | one line per row with the product rebuilt from the row; `TotalCarrito` and `CarritoDatos.TotalesCoinciden` relate it to the SQL total |
| `VistaCarrito.CarritoViewModel.AgregarAlCarrito` | labx/app/src/main/java/com/example/labx/ui/viewmodel/CarritoViewModel.kt:114-143 | adds one unit through the same look-up-then-update-or-insert as the repository, then sends "✅ <name> agregado" |
| `VistaCarrito.CarritoViewModel.VaciarCarrito` | labx/app/src/main/java/com/example/labx/ui/viewmodel/CarritoViewModel.kt:145-150 | empties the table (the total then reads 0.0) and sends the emptied message |
| `VistaCarrito.CarritoViewModel.ModificarCantidad` | labx/app/src/main/java/com/example/labx/ui/viewmodel/CarritoViewModel.kt:152-156 | writes the quantity as given, zero or negative included, and sends nothing |
| `VistaCarrito.CarritoViewModel.EliminarProducto` | labx/app/src/main/java/com/example/labx/ui/viewmodel/CarritoViewModel.kt:158-163 | deletes the product's rows and sends the removed message |
| `VistaCarrito.CarritoViewModel.IniciarPago` | labx/app/src/main/java/com/example/labx/ui/viewmodel/CarritoViewModel.kt:171-186 | before the delay: the processing flag is raised and the order is computed from the lines and total read now |
| `VistaCarrito.CarritoViewModel.CompletarPago` | labx/app/src/main/java/com/example/labx/ui/viewmodel/CarritoViewModel.kt:188-208 | after the delay: the order computed earlier is recorded, the table emptied, the flag lowered, and one navigation event sent with the transaction id |
| `VistaCarrito.CarritoViewModel.ProcesarPago` | labx/app/src/main/java/com/example/labx/ui/viewmodel/CarritoViewModel.kt:165-210 | a checkout with nothing interleaved records the order from the lines and total before it, ends with an empty cart and a total of 0.0, and sends exactly one navigation event |
| `VistaProductos.AlCargar` | labx/app/src/main/java/com/example/labx/ui/viewmodel/ProductoViewModel.kt:45 | a load raises the loading flag and changes nothing else |
| `VistaProductos.AlRecibir` | labx/app/src/main/java/com/example/labx/ui/viewmodel/ProductoViewModel.kt:56-63 | an emission replaces the list, clears the error and the loading flag; there are products exactly when the emission is non-empty |
| `VistaProductos.AlFallar` | labx/app/src/main/java/com/example/labx/ui/viewmodel/ProductoViewModel.kt:49-55 | a failure keeps the list, lowers the flag and records the exception's message, or "Error desconocido" when it has none |
| `VistaProductos.ProductoViewModel.constructor` | labx/app/src/main/java/com/example/labx/ui/viewmodel/ProductoViewModel.kt:24-37 | creating the view model starts exactly one load from the default state |
| `VistaProductos.ProductoViewModel.CargarProductos` | labx/app/src/main/java/com/example/labx/ui/viewmodel/ProductoViewModel.kt:42-45 | the state becomes the start of a load |
| `VistaProductos.ProductoViewModel.RecibirProductos` | labx/app/src/main/java/com/example/labx/ui/viewmodel/ProductoViewModel.kt:48-63 | the state becomes an emission of the repository's current listing |
| `VistaProductos.ProductoViewModel.RecibirError` | labx/app/src/main/java/com/example/labx/ui/viewmodel/ProductoViewModel.kt:49-55 | the state becomes a failure with the exception's message |
| `VistaProductos.ProductoViewModel.ObtenerProductoPorId` | labx/app/src/main/java/com/example/labx/ui/viewmodel/ProductoViewModel.kt:70 | the lookup is the repository's lookup by id |
| `VistaProductos.ProductoViewModel.AgregarProducto` | labx/app/src/main/java/com/example/labx/ui/viewmodel/ProductoViewModel.kt:75-79 | the product table becomes the single insert of the product's row |
| `VistaProductos.ProductoViewModel.ActualizarProducto` | labx/app/src/main/java/com/example/labx/ui/viewmodel/ProductoViewModel.kt:84-88 | the row with the product's id is replaced; with no such row the table is unchanged |
| `VistaProductos.ProductoViewModel.EliminarProducto` | labx/app/src/main/java/com/example/labx/ui/viewmodel/ProductoViewModel.kt:93-97 | the row with the product's id is removed |
| `VistaProductos.EstadoInicial` | labx/app/src/main/java/com/example/labx/ui/state/ProductoUiState.kt:11-18 | the default state is not loading, has no error and no products |
| `VistaProductos.HayProductosSoloDeLaLista` | labx/app/src/main/java/com/example/labx/ui/state/ProductoUiState.kt:17-18 | `hayProductos` holds exactly for a non-empty list and depends on nothing else |
| `VistaProductos.FalloConservaLista` | labx/app/src/main/java/com/example/labx/ui/viewmodel/ProductoViewModel.kt:49-63 | a failure after an emission still shows the emitted list; a later emission clears the failure |
| `VistaProductos.EmisionReemplaza` | labx/app/src/main/java/com/example/labx/ui/viewmodel/ProductoViewModel.kt:56-63 | the state after an emission depends only on what was emitted |
| `ProductoDatos.OrdenarPorNombre` | labx/app/src/main/java/com/example/labx/data/local/dao/ProductoDao.kt:25-26 | the listing is a permutation of the rows |
| `ProductoDatos.OrdenarPorNombreOrdenada` | labx/app/src/main/java/com/example/labx/data/local/dao/ProductoDao.kt:25-26 | the listing is in ascending name order |
| `ProductoDatos.InsertarPorNombre` | labx/app/src/main/java/com/example/labx/data/local/dao/ProductoDao.kt:25-26 | placing one row into a listing adds exactly that row |
| `ProductoDatos.InsertarPorNombreOrdenada` | labx/app/src/main/java/com/example/labx/data/local/dao/ProductoDao.kt:25-26 | placing a row into a name-ordered listing keeps it name-ordered |
| `ProductoDatos.ProductoDao.constructor` | labx/app/src/main/java/com/example/labx/data/local/dao/ProductoDao.kt:18-19 | a new table is empty and has used no key |
| `ProductoDatos.ProductoDao.ObtenerTodosLosProductos` | labx/app/src/main/java/com/example/labx/data/local/dao/ProductoDao.kt:25-26 | the table sorted stably by name; `OrdenarPorNombreOrdenada` states the order |
| `ProductoDatos.ProductoDao.ObtenerProductoPorId` | labx/app/src/main/java/com/example/labx/data/local/dao/ProductoDao.kt:31-32 | the row with that key, if any; `InsertarUnoValido` and `IdLocalSii` state what it finds |
| `ProductoDatos.ProductoDao.InsertarProducto` | labx/app/src/main/java/com/example/labx/data/local/dao/ProductoDao.kt:45-46 | the table becomes one INSERT OR REPLACE of the row; the returned key is the row's own key, or the next AUTOINCREMENT key for key 0 |
| `ProductoDatos.ProductoDao.InsertarProductos` | labx/app/src/main/java/com/example/labx/data/local/dao/ProductoDao.kt:38-39 | the table becomes one INSERT OR REPLACE per element, in list order |
| `ProductoDatos.ProductoDao.ActualizarProducto` | labx/app/src/main/java/com/example/labx/data/local/dao/ProductoDao.kt:51-52 | the row with the entity's key is rewritten; with no such row nothing changes |
| `ProductoDatos.ProductoDao.EliminarProducto` | labx/app/src/main/java/com/example/labx/data/local/dao/ProductoDao.kt:57-58 | the row with the entity's key is removed |
| `ProductoDatos.ProductoDao.EliminarTodosLosProductos` | labx/app/src/main/java/com/example/labx/data/local/dao/ProductoDao.kt:63-64 | the table is emptied |
| `ProductoDatos.InsertarUnoValido` | labx/app/src/main/java/com/example/labx/data/local/dao/ProductoDao.kt:45-46 | one REPLACE keeps keys ordered and under the counter, and files the row under its assigned key; key 0 gets a key not used before and the row goes last |
| `ProductoDatos.ConservaClaves` | labx/app/src/main/java/com/example/labx/data/local/dao/ProductoDao.kt:45-46 | REPLACE never loses a key that was present |
| `ProductoDatos.InsertarVariosContiene` | labx/app/src/main/java/com/example/labx/data/local/dao/ProductoDao.kt:38-39 | after a list insert every key present before and every non-zero key of the list is in the table |
| `ProductoDatos.InsertarVariosValido` | labx/app/src/main/java/com/example/labx/data/local/dao/ProductoDao.kt:38-39 | a list insert keeps the table well formed |
| `ProductoDatos.IdLocalSii` | labx/app/src/main/java/com/example/labx/data/repository/ProductoRepositoryImpl.kt:21-27 | a key is in the table exactly when the repository's listing shows a product with that id |
| `ProductoDatos.ProductoRepositoryImpl.constructor` | labx/app/src/main/java/com/example/labx/data/repository/ProductoRepositoryImpl.kt:17-19 | the repository wraps the given DAO |
| `ProductoDatos.ProductoRepositoryImpl.ObtenerProductos` | labx/app/src/main/java/com/example/labx/data/repository/ProductoRepositoryImpl.kt:21-27 | the listing has one product per row: converted back, it is a permutation of the table's rows, and its names are in ascending order |
| `ProductoDatos.ProductoRepositoryImpl.ObtenerProductoPorId` | labx/app/src/main/java/com/example/labx/data/repository/ProductoRepositoryImpl.kt:29-31 | the product found is the converted row with that id, and there is none exactly when the DAO has no such row |
| `ProductoDatos.ProductoRepositoryImpl.InsertarProductos` | labx/app/src/main/java/com/example/labx/data/repository/ProductoRepositoryImpl.kt:33-36 | the table becomes the list insert of the converted products |
| `ProductoDatos.ProductoRepositoryImpl.InsertarProducto` | labx/app/src/main/java/com/example/labx/data/repository/ProductoRepositoryImpl.kt:38-40 | the table becomes the single insert of the converted product, and its key is returned |
| `ProductoDatos.ProductoRepositoryImpl.ActualizarProducto` | labx/app/src/main/java/com/example/labx/data/repository/ProductoRepositoryImpl.kt:42-44 | the row with the product's id is replaced, or nothing changes |
| `ProductoDatos.ProductoRepositoryImpl.EliminarProducto` | labx/app/src/main/java/com/example/labx/data/repository/ProductoRepositoryImpl.kt:46-48 | the row with the product's id is removed |
| `ProductoDatos.ProductoRepositoryImpl.EliminarTodosLosProductos` | labx/app/src/main/java/com/example/labx/data/repository/ProductoRepositoryImpl.kt:50-52 | the listing becomes empty |
| `ProductoDatos.Convertidos` | labx/app/src/main/java/com/example/labx/domain/repository/ProductoHibridoRepository.kt:19-25 | the conversion keeps length and converts each element in place |
| `ProductoDatos.Nuevos` | labx/app/src/main/java/com/example/labx/domain/repository/ProductoHibridoRepository.kt:27-31 | the new products are exactly the converted ones whose id no local product has |
| `ProductoDatos.ProductoHibridoRepository.constructor` | labx/app/src/main/java/com/example/labx/domain/repository/ProductoHibridoRepository.kt:8-10 | the merger wraps the given local repository |
| `ProductoDatos.ProductoHibridoRepository.ObtenerProductosCombinados` | labx/app/src/main/java/com/example/labx/domain/repository/ProductoHibridoRepository.kt:12-43 | when the remote call fails the first local listing is returned and the table is untouched; otherwise the new products are inserted (only when there are some) and the listing is read again |
| `ProductoDatos.SegundaCombinacionNoInserta` | labx/app/src/main/java/com/example/labx/domain/repository/ProductoHibridoRepository.kt:27-35 | merging the same remote list a second time finds nothing new to insert |
| `ProductoDatos.ConvertidoQuedaLocal` | labx/app/src/main/java/com/example/labx/domain/repository/ProductoHibridoRepository.kt:27-38 | after a merge every converted product's id is in the local listing |
| `ProductoDatos.NuevosVacio` | labx/app/src/main/java/com/example/labx/domain/repository/ProductoHibridoRepository.kt:27-31 | when every converted id is already local, nothing is new |
| `PantallaInicio.ContenidoInicio` | labx/app/src/main/java/com/example/labx/ui/screen/HomeScreen.kt:127-139 | the spinner shows exactly while loading; the "no products" text exactly when not loading and the list is empty; otherwise the catalogue |
| `PantallaInicio.Insignia` | labx/app/src/main/java/com/example/labx/ui/screen/HomeScreen.kt:97-102 | the cart badge is hidden exactly for an empty cart, and otherwise shows the number of lines |
| `PantallaInicio.BotonCuenta` | labx/app/src/main/java/com/example/labx/ui/screen/HomeScreen.kt:92-94 | the account button goes to login exactly when nobody is signed in, and to the account screen otherwise |
| `PantallaInicio.FiltroInicio.constructor` | labx/app/src/main/java/com/example/labx/ui/screen/HomeScreen.kt:66-67 | the screen opens with blank search text and the "Todos" chip |
| `PantallaInicio.FiltroInicio.CambiarTexto` | labx/app/src/main/java/com/example/labx/ui/screen/HomeScreen.kt:143-145 | typing sets the search text |
| `PantallaInicio.FiltroInicio.ElegirCategoria` | labx/app/src/main/java/com/example/labx/ui/screen/HomeScreen.kt:163-175 | a chip selects its category; "Todos" clears the selection |
| `PantallaInicio.FiltradoEsSubsecuencia` | labx/app/src/main/java/com/example/labx/ui/screen/HomeScreen.kt:69-76 | the filtered list keeps the catalogue's order and holds exactly the products matching the text (blank, or in name or description ignoring case) and the category (none, or equal) |
| `PantallaInicio.SinFiltroMuestraTodo` | labx/app/src/main/java/com/example/labx/ui/screen/HomeScreen.kt:69-76 | with blank text and no category the whole catalogue is shown |
| `PantallaInicio.CategoriaExacta` | labx/app/src/main/java/com/example/labx/ui/screen/HomeScreen.kt:74 | with a chosen category every product shown has exactly that category |
| `PantallaInicio.BusquedaEncuentra` | labx/app/src/main/java/com/example/labx/ui/screen/HomeScreen.kt:71-73 | with non-blank text every product shown contains it, ignoring case, in its name or description |
| `PantallaInicio.CategoriasDistintas` | labx/app/src/main/java/com/example/labx/ui/screen/HomeScreen.kt:78-80 | the chips are exactly the catalogue's categories, each once, in order of first appearance, never more than the products |
| `PantallaInicio.ProductosFiltrados` | labx/app/src/main/java/com/example/labx/ui/screen/HomeScreen.kt:69-76 | the catalogue filtered by text and category; `FiltradoEsSubsecuencia`, `SinFiltroMuestraTodo`, `CategoriaExacta` and `BusquedaEncuentra` state which products it keeps |
| `PantallaInicio.Categorias` | labx/app/src/main/java/com/example/labx/ui/screen/HomeScreen.kt:78-80 | the catalogue's categories, each once; `CategoriasDistintas` states it |
| `PantallaInicio.InsigniaCuentaLineas` | labx/app/src/main/java/com/example/labx/ui/screen/HomeScreen.kt:99-101 | the badge counts lines, not units |
| `PantallaCarrito.FormatearPrecioEsPrecioFormateado` | labx/app/src/main/java/com/example/labx/ui/screen/CarritoScreen.kt:226-234 | the screen's formatter and the product's own agree on every price |
| `PantallaCarrito.FormatearPrecioAgrupa` | labx/app/src/main/java/com/example/labx/ui/screen/CarritoScreen.kt:226-234 | a whole non-negative amount is shown as "$" and its digits grouped in threes from the right, with a dot exactly from 1000 on |
| `PantallaCarrito.FormatearPrecio` | labx/app/src/main/java/com/example/labx/ui/screen/CarritoScreen.kt:226-232 | "$" and the truncated integer part grouped in threes; `FormatearPrecioEsPrecioFormateado` and `FormatearPrecioAgrupa` state what it shows |
| `PantallaCarrito.EsDuoc` | labx/app/src/main/java/com/example/labx/ui/screen/CarritoScreen.kt:59 | holds exactly for a signed-in Duoc user; `VistaCarrito.OrdenCorrecta` states the discount it selects |
| `PantallaCarrito.IrAPagarHabilitado` | labx/app/src/main/java/com/example/labx/ui/screen/CarritoScreen.kt:162 | holds exactly with lines in the cart and no payment running; `PeticionesMantienenPositivas` and `ReaccionA` cover the rest of the screen |
| `PantallaCarrito.PeticionMenos` | labx/app/src/main/java/com/example/labx/ui/screen/CarritoScreen.kt:298-300 | the "−" button is enabled exactly above one unit and then asks for one unit less, never below 1 |
| `PantallaCarrito.PeticionMas` | labx/app/src/main/java/com/example/labx/ui/screen/CarritoScreen.kt:311 | the "+" button asks for one unit more, at least 1 |
| `PantallaCarrito.SubtotalTachadoSii` | labx/app/src/main/java/com/example/labx/ui/screen/CarritoScreen.kt:121-140 | the struck-through subtotal and the discount label show exactly for a Duoc user with a positive subtotal |
| `PantallaCarrito.PeticionesMantienenPositivas` | labx/app/src/main/java/com/example/labx/ui/screen/CarritoScreen.kt:202-207 | since the view model writes quantities as given, the buttons alone keep every row at 1 or more |
| `PantallaCarrito.ReaccionA` | labx/app/src/main/java/com/example/labx/ui/screen/CarritoScreen.kt:73-85 | a message event shows a snackbar with its text; a navigation event navigates with its transaction id |
| `PantallaCheckout.FormularioCheckout.constructor` | labx/app/src/main/java/com/example/labx/ui/screen/CheckoutScreen.kt:49-55 | shipping fields start from the signed-in user (empty without one); payment starts as debit with empty card fields |
| `PantallaCheckout.FormularioCheckout.CambiarNombre` | labx/app/src/main/java/com/example/labx/ui/screen/CheckoutScreen.kt:139-144 | typing sets the name |
| `PantallaCheckout.FormularioCheckout.CambiarDireccion` | labx/app/src/main/java/com/example/labx/ui/screen/CheckoutScreen.kt:146-151 | typing sets the address |
| `PantallaCheckout.FormularioCheckout.CambiarTelefono` | labx/app/src/main/java/com/example/labx/ui/screen/CheckoutScreen.kt:153-159 | typing sets the phone |
| `PantallaCheckout.FormularioCheckout.ElegirMetodo` | labx/app/src/main/java/com/example/labx/ui/screen/CheckoutScreen.kt:169-179 | a chip selects debit or transfer |
| `PantallaCheckout.FormularioCheckout.CambiarNumeroTarjeta` | labx/app/src/main/java/com/example/labx/ui/screen/CheckoutScreen.kt:187-193 | an edit is taken only if it is all digits and at most 16 UTF-16 code units long, otherwise the old number stays |
| `PantallaCheckout.FormularioCheckout.CambiarFechaVencimiento` | labx/app/src/main/java/com/example/labx/ui/screen/CheckoutScreen.kt:204-206 | an edit is taken only if it is at most 5 UTF-16 code units long, otherwise the old date stays |
| `PantallaCheckout.FormularioCheckout.CambiarCvv` | labx/app/src/main/java/com/example/labx/ui/screen/CheckoutScreen.kt:212-216 | an edit is taken only if it is all digits and at most 3 UTF-16 code units long, otherwise the old code stays |
| `PantallaCheckout.FormularioCheckout.PulsarConfirmar` | labx/app/src/main/java/com/example/labx/ui/screen/CheckoutScreen.kt:56-114 | an enabled button (not processing, valid shipping, valid card or not debit) records the order from the cart before it, sends one navigation event, empties the cart and ends with processing off; a disabled one changes neither the order, the events, the cart nor the processing flag |
| `PantallaCheckout.FormularioCheckout.EsEnvioValido` | labx/app/src/main/java/com/example/labx/ui/screen/CheckoutScreen.kt:56 | name over 3, address over 5 and phone at least 8 UTF-16 code units; `PulsarConfirmar` states what it gates |
| `PantallaCheckout.FormularioCheckout.EsTarjetaValida` | labx/app/src/main/java/com/example/labx/ui/screen/CheckoutScreen.kt:58-60 | for debit, card number 16, expiry 5 and CVV 3 code units long; any other method needs no card; `PulsarConfirmar` states what it gates |
| `PantallaCheckout.FormularioCheckout.PagoHabilitado` | labx/app/src/main/java/com/example/labx/ui/screen/CheckoutScreen.kt:114 | not processing, valid shipping and a valid card; `PulsarConfirmar` states both outcomes |
| `PantallaCheckout.Navegaciones` | labx/app/src/main/java/com/example/labx/ui/screen/CheckoutScreen.kt:62-68 | the screen navigates only with ids of navigation events in the channel, at most one per event |
| `PantallaCheckout.NavegacionesConcat` | labx/app/src/main/java/com/example/labx/ui/screen/CheckoutScreen.kt:62-68 | navigations of two stretches of events are those of each, in order |
| `PantallaCheckout.NavegaTrasPago` | labx/app/src/main/java/com/example/labx/ui/screen/CheckoutScreen.kt:62-68 | a finished checkout makes the screen navigate exactly once more, with its transaction id; a message event causes no navigation |
| `PantallaAdmin.EstadisticasDe` | labx/app/src/main/java/com/example/labx/ui/screen/AdminPanelScreen.kt:274-294 | the product count is the catalogue's length; the category count is between 0 and it, and 0 exactly for an empty catalogue |
| `PantallaAdmin.EstadisticasAditivas` | labx/app/src/main/java/com/example/labx/ui/screen/AdminPanelScreen.kt:282-287 | stock total and inventory value of a catalogue split in two are the sums over the parts, whichever part is listed first |
| `PantallaAdmin.EstadisticasPermutacion` | labx/app/src/main/java/com/example/labx/ui/screen/AdminPanelScreen.kt:274-287 | any reordering of the same products gives the same product count, stock total and inventory value |
| `PantallaAdmin.ValorNoNegativo` | labx/app/src/main/java/com/example/labx/ui/screen/AdminPanelScreen.kt:283-287 | with non-negative prices and stocks the inventory value is non-negative |
| `PantallaAdmin.UnaSolaCategoria` | labx/app/src/main/java/com/example/labx/ui/screen/AdminPanelScreen.kt:288-291 | a catalogue whose products share one category counts one category |
| `PantallaAdmin.PanelAdmin.constructor` | labx/app/src/main/java/com/example/labx/ui/screen/AdminPanelScreen.kt:33-35 | the panel opens on the products tab, with no dialog, users hidden and nothing deleted |
| `PantallaAdmin.PanelAdmin.ElegirPestana` | labx/app/src/main/java/com/example/labx/ui/screen/AdminPanelScreen.kt:72-114 | selecting a tab; the add button shows exactly on the products tab |
| `PantallaAdmin.PanelAdmin.BotonAgregarVisible` | labx/app/src/main/java/com/example/labx/ui/screen/AdminPanelScreen.kt:73-74 | holds exactly on the products tab; `ElegirPestana` states it after each tab change |
| `PantallaAdmin.PanelAdmin.AlternarUsuarios` | labx/app/src/main/java/com/example/labx/ui/screen/AdminPanelScreen.kt:118-125 | the users button toggles the list |
| `PantallaAdmin.PanelAdmin.PedirEliminar` | labx/app/src/main/java/com/example/labx/ui/screen/AdminPanelScreen.kt:141-146 | the delete icon opens the dialog for that product and deletes nothing |
| `PantallaAdmin.PanelAdmin.Confirmar` | labx/app/src/main/java/com/example/labx/ui/screen/AdminPanelScreen.kt:158-165 | confirming deletes the pending product exactly once and closes the dialog |
| `PantallaAdmin.PanelAdmin.Descartar` | labx/app/src/main/java/com/example/labx/ui/screen/AdminPanelScreen.kt:153-171 | cancelling or tapping outside closes the dialog without deleting |
| `PantallaFormularioProducto.Construir` | labx/app/src/main/java/com/example/labx/ui/screen/FormularioProductoScreen.kt:228-238 | the saved product keeps the edited product's id (0 for a new one), trims its text fields, and takes a positive price and a non-negative stock from the digits typed |
| `PantallaFormularioProducto.NormalizarImagen` | labx/app/src/main/java/com/example/labx/ui/screen/FormularioProductoScreen.kt:158 | the image filter keeps the length and maps each character through lower-casing and space-to-underscore |
| `PantallaFormularioProducto.FormularioProducto.constructor` | labx/app/src/main/java/com/example/labx/ui/screen/FormularioProductoScreen.kt:37-43 | the form opens empty, or with the edited product's fields (the price as its whole part), with no error and nothing saved |
| `PantallaFormularioProducto.FormularioProducto.CambiarNombre` | labx/app/src/main/java/com/example/labx/ui/screen/FormularioProductoScreen.kt:92-95 | typing sets the name and clears the error |
| `PantallaFormularioProducto.FormularioProducto.CambiarDescripcion` | labx/app/src/main/java/com/example/labx/ui/screen/FormularioProductoScreen.kt:104-107 | typing sets the description and clears the error |
| `PantallaFormularioProducto.FormularioProducto.CambiarPrecio` | labx/app/src/main/java/com/example/labx/ui/screen/FormularioProductoScreen.kt:117-120 | typing keeps only the digits and clears the error |
| `PantallaFormularioProducto.FormularioProducto.CambiarStock` | labx/app/src/main/java/com/example/labx/ui/screen/FormularioProductoScreen.kt:131-134 | typing keeps only the digits and clears the error |
| `PantallaFormularioProducto.FormularioProducto.CambiarCategoria` | labx/app/src/main/java/com/example/labx/ui/screen/FormularioProductoScreen.kt:144-147 | typing sets the category and clears the error |
| `PantallaFormularioProducto.FormularioProducto.CambiarImagen` | labx/app/src/main/java/com/example/labx/ui/screen/FormularioProductoScreen.kt:157-160 | typing stores the normalised image id and clears the error |
| `PantallaFormularioProducto.FormularioProducto.PulsarGuardar` | labx/app/src/main/java/com/example/labx/ui/screen/FormularioProductoScreen.kt:206-242 | a failing check shows its message and saves nothing; passing checks hand exactly one built product to the save callback |
| `PantallaFormularioProducto.ValidarEsPrimerFallo` | labx/app/src/main/java/com/example/labx/ui/screen/FormularioProductoScreen.kt:209-227 | the chain reports the first failing check, in the source's order, and nothing exactly when every check passes |
| `PantallaFormularioProducto.Validar` | labx/app/src/main/java/com/example/labx/ui/screen/FormularioProductoScreen.kt:209-227 | the first failing check's message; `ValidarEsPrimerFallo` and `GuardadoSinBlancos` state its meaning |
| `PantallaFormularioProducto.PrecioValido` | labx/app/src/main/java/com/example/labx/ui/screen/FormularioProductoScreen.kt:216 | a non-blank text read as an integer above 0; `PrecioFiltrado` states which filtered inputs pass |
| `PantallaFormularioProducto.StockValido` | labx/app/src/main/java/com/example/labx/ui/screen/FormularioProductoScreen.kt:219 | a non-blank text read as an integer of at least 0; `StockFiltrado` states which filtered inputs pass |
| `PantallaFormularioProducto.GuardadoSinBlancos` | labx/app/src/main/java/com/example/labx/ui/screen/FormularioProductoScreen.kt:210-238 | a saved product has non-empty text fields, and its name starts and ends with a non-space |
| `PantallaFormularioProducto.PrecioFiltrado` | labx/app/src/main/java/com/example/labx/ui/screen/FormularioProductoScreen.kt:216-218 | after the digit filter a non-empty price is accepted exactly when its value is in 1..2147483647 |
| `PantallaFormularioProducto.StockFiltrado` | labx/app/src/main/java/com/example/labx/ui/screen/FormularioProductoScreen.kt:219-221 | after the digit filter a non-empty stock is accepted exactly when its value fits in an `Int` |
| `PantallaFormularioProducto.NormalizarImagenPropiedades` | labx/app/src/main/java/com/example/labx/ui/screen/FormularioProductoScreen.kt:158 | a normalised image id has no spaces and no upper-case ASCII letters, and normalising again changes nothing |
| `PantallaFormularioProducto.NormalizarCharPropiedades` | labx/app/src/main/java/com/example/labx/ui/screen/FormularioProductoScreen.kt:158 | one normalised character is neither a space nor upper-case ASCII, and is a fixed point |
| `PantallaFormularioProducto.IdGuardado` | labx/app/src/main/java/com/example/labx/ui/screen/FormularioProductoScreen.kt:231 | editing keeps the product's id; a new product is saved with id 0 so the table assigns one |
| `Validacion.CoincideEmailCorrecto` | labx/app/src/main/java/com/example/labx/domain/validator/ValidadorFormulario.kt:15-17 | the longest-run matcher accepts exactly the strings of the shape local part `[a-zA-Z0-9._-]+`, "@", `[a-z]+`, one or more dots, `[a-z]+` |
| `Validacion.CoincideEmailBienFormado` | labx/app/src/main/java/com/example/labx/domain/validator/ValidadorFormulario.kt:15-17 | what the matcher accepts has the pattern's shape |
| `Validacion.PartesCoincideEmail` | labx/app/src/main/java/com/example/labx/domain/validator/ValidadorFormulario.kt:15-17 | every string of the pattern's shape is accepted by the matcher |
| `Validacion.FinDeRachaExacto` | labx/app/src/main/java/com/example/labx/domain/validator/ValidadorFormulario.kt:15-17 | a run of matching characters ended by the end or a non-matching one is the longest such run |
| `Validacion.ValidarNombreCompleto` | labx/app/src/main/java/com/example/labx/domain/validator/ValidadorFormulario.kt:47-54 | no message exactly for a non-blank name of at least 3 UTF-16 code units (Kotlin's `length`) containing a space; a blank name gets the "obligatorio" message |
| `Validacion.ValidarEmail` | labx/app/src/main/java/com/example/labx/domain/validator/ValidadorFormulario.kt:56-62 | no message exactly for a string of the email pattern; a blank one gets the "obligatorio" message |
| `Validacion.ValidarTelefono` | labx/app/src/main/java/com/example/labx/domain/validator/ValidadorFormulario.kt:64-70 | no message exactly for nine ASCII digits; a blank one gets the "obligatorio" message |
| `Validacion.ValidarDireccion` | labx/app/src/main/java/com/example/labx/domain/validator/ValidadorFormulario.kt:72-78 | no message exactly for a non-blank address of at least 10 UTF-16 code units (Kotlin's `length`); a blank one gets the "obligatoria" message |
| `Validacion.ValidarPassword` | labx/app/src/main/java/com/example/labx/domain/validator/ValidadorFormulario.kt:80-87 | no message exactly for at least 8 characters with no line terminator, an upper-case letter and a digit; a blank one gets the "obligatoria" message |
| `Validacion.ValidarConfirmarPassword` | labx/app/src/main/java/com/example/labx/domain/validator/ValidadorFormulario.kt:89-95 | no message exactly for a non-blank confirmation equal to the password; a blank one gets the "Confirma" message |
| `Validacion.ValidarTerminos` | labx/app/src/main/java/com/example/labx/domain/validator/ValidadorFormulario.kt:97-103 | no message exactly when the terms are accepted |
| `Validacion.ErroresPorDefecto` | labx/app/src/main/java/com/example/labx/domain/model/ErroresFormulario.kt:9-27 | the default record has no error, and setting any one slot makes `hayErrores` true |
| `Validacion.ErroresFormulario.HayErrores` | labx/app/src/main/java/com/example/labx/domain/model/ErroresFormulario.kt:19-27 | holds exactly when some slot holds a message; `ErroresPorDefecto` and `SinErroresSiiAceptado` state its behaviour |
| `Validacion.ValidarFormulario` | labx/app/src/main/java/com/example/labx/domain/validator/ValidadorFormulario.kt:32-45 | each slot holds its own field's verdict; `SinErroresSiiAceptado` proves it finds no error exactly when every field is accepted |
| `Validacion.SinErroresSiiAceptado` | labx/app/src/main/java/com/example/labx/domain/validator/ValidadorFormulario.kt:32-45 | `validarFormulario` finds no error exactly when every field is accepted by its own rule |
| `Validacion.PatronesRechazanBlancos` | labx/app/src/main/java/com/example/labx/domain/validator/ValidadorFormulario.kt:15-27 | each of the three patterns rejects a blank string, so the blank check before them changes only the message |
| `Validacion.EmailEjemplo` | labx/app/src/main/java/com/example/labx/domain/validator/ValidadorFormulario.kt:56-62 | the sample address in the error message, "usuario@mail.com", is accepted |
| `Texto.Longitud` | labx/app/src/main/java/com/example/labx/domain/validator/ValidadorFormulario.kt:50 | `String.length` counts UTF-16 code units: between the number of characters and twice it, and equal to it exactly when no character lies above U+FFFF |
| `Texto.LongitudDigitos` | labx/app/src/main/java/com/example/labx/ui/screen/CheckoutScreen.kt:190 | for an all-digit text the length is the number of characters |
| `Texto.LongitudEmoji` | labx/app/src/main/java/com/example/labx/domain/validator/ValidadorFormulario.kt:50 | an emoji followed by a space is two characters but three code units long |
| `Validacion.NombreEmojiAceptado` | labx/app/src/main/java/com/example/labx/domain/validator/ValidadorFormulario.kt:47-54 | an emoji and a space pass the name check, since they are three code units long |
| `VistaRegistro.Aplicar` | labx/app/src/main/java/com/example/labx/ui/viewmodel/RegistroViewModel.kt:31-120 | one edit keeps the saving flags; only a password edit changes the password; only a confirmation edit changes the confirmation or its message, which is then clear exactly for a non-blank confirmation equal to the password stored at that moment |
| `VistaRegistro.AplicarTodas` | labx/app/src/main/java/com/example/labx/ui/viewmodel/RegistroViewModel.kt:31-120 | no sequence of edits touches the saving flags |
| `VistaRegistro.Registrado` | labx/app/src/main/java/com/example/labx/ui/viewmodel/RegistroViewModel.kt:156-169 | a successful registration keeps the form and messages and ends with success and not saving |
| `VistaRegistro.RegistroViewModel.constructor` | labx/app/src/main/java/com/example/labx/ui/viewmodel/RegistroViewModel.kt:25 | the screen starts from the default state |
| `VistaRegistro.RegistroViewModel.OnNombreChange` | labx/app/src/main/java/com/example/labx/ui/viewmodel/RegistroViewModel.kt:31-39 | the state becomes the name edit |
| `VistaRegistro.RegistroViewModel.OnEmailChange` | labx/app/src/main/java/com/example/labx/ui/viewmodel/RegistroViewModel.kt:44-52 | the state becomes the email edit |
| `VistaRegistro.RegistroViewModel.OnTelefonoChange` | labx/app/src/main/java/com/example/labx/ui/viewmodel/RegistroViewModel.kt:57-65 | the state becomes the phone edit |
| `VistaRegistro.RegistroViewModel.OnDireccionChange` | labx/app/src/main/java/com/example/labx/ui/viewmodel/RegistroViewModel.kt:70-78 | the state becomes the address edit |
| `VistaRegistro.RegistroViewModel.OnPasswordChange` | labx/app/src/main/java/com/example/labx/ui/viewmodel/RegistroViewModel.kt:83-91 | the state becomes the password edit, which does not re-check the confirmation |
| `VistaRegistro.RegistroViewModel.OnConfirmarPasswordChange` | labx/app/src/main/java/com/example/labx/ui/viewmodel/RegistroViewModel.kt:96-107 | the state becomes the confirmation edit, checked against the current password |
| `VistaRegistro.RegistroViewModel.OnTerminosChange` | labx/app/src/main/java/com/example/labx/ui/viewmodel/RegistroViewModel.kt:112-120 | the state becomes the terms edit |
| `VistaRegistro.RegistroViewModel.Registrar` | labx/app/src/main/java/com/example/labx/ui/viewmodel/RegistroViewModel.kt:156-169 | the success callback runs exactly when the form is valid; then the state records success, otherwise nothing changes |
| `VistaRegistro.SincronizadoInicial` | labx/app/src/main/java/com/example/labx/ui/viewmodel/RegistroViewModel.kt:25-147 | the initial state has every message in step with its field, and is not valid |
| `VistaRegistro.AplicarSincronizado` | labx/app/src/main/java/com/example/labx/ui/viewmodel/RegistroViewModel.kt:31-120 | every edit keeps each non-confirmation message in step with its field |
| `VistaRegistro.AplicarTodasSincronizado` | labx/app/src/main/java/com/example/labx/ui/viewmodel/RegistroViewModel.kt:31-120 | any sequence of edits from the initial state keeps the messages in step |
| `VistaRegistro.ValidoSincronizadoAcepta` | labx/app/src/main/java/com/example/labx/ui/viewmodel/RegistroViewModel.kt:129-147 | a valid state with messages in step has every field but the confirmation accepted and a non-blank confirmation |
| `VistaRegistro.AlcanzableValidoAcepta` | labx/app/src/main/java/com/example/labx/ui/viewmodel/RegistroViewModel.kt:129-147 | whatever the order of edits, a form reported valid has name, email, phone, address and password accepted and the terms checked |
| `VistaRegistro.ValidoSiiAceptado` | labx/app/src/main/java/com/example/labx/ui/viewmodel/RegistroViewModel.kt:129-147 | when the messages are those of validating the whole form, the form is reported valid exactly when every field is accepted |
| `VistaRegistro.RegistroViewModel.EsFormularioValido` | labx/app/src/main/java/com/example/labx/ui/viewmodel/RegistroViewModel.kt:129-147 | every field filled, the terms accepted and no message shown; `ValidoSiiAceptado`, `AlcanzableValidoAcepta` and `ConfirmacionDesfasada` state when it holds |
| `VistaRegistro.AplicarTodasAlFinal` | labx/app/src/main/java/com/example/labx/ui/viewmodel/RegistroViewModel.kt:31-120 | one more edit at the end of a sequence is applied last |
| `VistaRegistro.LlenadoEnOrden` | labx/app/src/main/java/com/example/labx/ui/viewmodel/RegistroViewModel.kt:31-120 | filling the fields top to bottom, once each, leaves exactly that form and the messages of validating it whole |
| `VistaRegistro.PasswordNuevaConservaValidez` | labx/app/src/main/java/com/example/labx/ui/viewmodel/RegistroViewModel.kt:83-91 | changing the password of a valid form to another acceptable one keeps it valid and keeps the old confirmation |
| `VistaRegistro.OtraPasswordAceptada` | labx/app/src/main/java/com/example/labx/domain/validator/ValidadorFormulario.kt:25-27 | "Otra4567" is an acceptable password |
| `VistaRegistro.EjemploAceptado` | labx/app/src/main/java/com/example/labx/domain/validator/ValidadorFormulario.kt:32-103 | the sample form ("Ana Soto", "ana@mail.cl", "912345678", "Los Olmos 1234", "Clave123" twice, terms accepted) passes every rule |
| `VistaRegistro.EdicionesDe` | labx/app/src/main/java/com/example/labx/ui/viewmodel/RegistroViewModel.kt:31-120 | filling a form takes one edit per field, seven in all |
| `VistaRegistro.ConfirmacionDesfasada` | labx/app/src/main/java/com/example/labx/ui/viewmodel/RegistroViewModel.kt:83-91 | as written: an accepted form filled in order and then given another acceptable password is still reported valid though password and confirmation differ |
| `VistaRegistro.AplicarCorregido` | labx/app/src/main/java/com/example/labx/ui/viewmodel/RegistroViewModel.kt:83-107 | corrected edit: identical to the original except that a password edit also re-checks a typed confirmation |
| `VistaRegistro.AplicarTodasCorregido` | labx/app/src/main/java/com/example/labx/ui/viewmodel/RegistroViewModel.kt:31-120 | corrected edits never touch the saving flags |
| `VistaRegistro.AplicarCorregidoConserva` | labx/app/src/main/java/com/example/labx/ui/viewmodel/RegistroViewModel.kt:83-107 | a corrected edit keeps the messages in step and a clear confirmation message matching the password |
| `VistaRegistro.AplicarTodasCorregidoConserva` | labx/app/src/main/java/com/example/labx/ui/viewmodel/RegistroViewModel.kt:31-120 | any sequence of corrected edits keeps both invariants |
| `VistaRegistro.CorregidoValidoAcepta` | labx/app/src/main/java/com/example/labx/ui/viewmodel/RegistroViewModel.kt:129-147 | with the correction, a form reported valid is accepted by every rule, the matching confirmation included |
| `UsuarioDatos.UsuarioDao.constructor` | labx/app/src/main/java/com/example/labx/data/local/dao/UsuarioDao.kt:6-7 | a new table is empty and has used no key |
| `UsuarioDatos.UsuarioDao.ObtenerUsuarioPorId` | labx/app/src/main/java/com/example/labx/data/local/dao/UsuarioDao.kt:11-12 | the row with that key, if any |
| `UsuarioDatos.UsuarioDao.ObtenerUsuarioPorEmail` | labx/app/src/main/java/com/example/labx/data/local/dao/UsuarioDao.kt:14-15 | the first row with that email; `RegistroEncontrable` and `EmailRepetidoDevuelveElAntiguo` state it |
| `UsuarioDatos.UsuarioDao.ObtenerUsuarioPorCodigo` | labx/app/src/main/java/com/example/labx/data/local/dao/UsuarioDao.kt:17-18 | the first row with that referral code; `CodigoRepetidoDevuelveElAntiguo` states it |
| `UsuarioDatos.UsuarioDao.ObtenerUsuarios` | labx/app/src/main/java/com/example/labx/data/local/dao/UsuarioDao.kt:20-21 | every row, in key order |
| `UsuarioDatos.UsuarioDao.InsertarUsuario` | labx/app/src/main/java/com/example/labx/data/local/dao/UsuarioDao.kt:8-9 | the table becomes one INSERT OR REPLACE of the row; the returned key is the row's own key, or the next AUTOINCREMENT key for key 0 |
| `UsuarioDatos.UsuarioDao.EliminarUsuario` | labx/app/src/main/java/com/example/labx/data/local/dao/UsuarioDao.kt:23-24 | the row with the entity's key is removed: lookup by that id then finds nothing and lookup by any other id is unchanged |
| `UsuarioDatos.UsuarioRepository.constructor` | labx/app/src/main/java/com/example/labx/data/repository/UsuarioRepository.kt:6-8 | the repository wraps the given DAO |
| `UsuarioDatos.UsuarioRepository.ObtenerUsuarioPorId` | labx/app/src/main/java/com/example/labx/data/repository/UsuarioRepository.kt:14-16 | delegates to the DAO's lookup by key |
| `UsuarioDatos.UsuarioRepository.ObtenerUsuarioPorEmail` | labx/app/src/main/java/com/example/labx/data/repository/UsuarioRepository.kt:18-20 | delegates to the DAO's lookup by email |
| `UsuarioDatos.UsuarioRepository.ObtenerUsuarioPorCodigo` | labx/app/src/main/java/com/example/labx/data/repository/UsuarioRepository.kt:22-24 | delegates to the DAO's lookup by referral code |
| `UsuarioDatos.UsuarioRepository.ObtenerUsuarios` | labx/app/src/main/java/com/example/labx/data/repository/UsuarioRepository.kt:26-28 | delegates to the DAO's listing |
| `UsuarioDatos.UsuarioRepository.RegistrarUsuario` | labx/app/src/main/java/com/example/labx/data/repository/UsuarioRepository.kt:10-12 | registration is the DAO insert, and returns its key |
| `UsuarioDatos.UsuarioRepository.EliminarUsuario` | labx/app/src/main/java/com/example/labx/data/repository/UsuarioRepository.kt:30-32 | deletion is the DAO delete |
| `UsuarioDatos.InsertarValida` | labx/app/src/main/java/com/example/labx/data/local/dao/UsuarioDao.kt:8-9 | one REPLACE keeps the table well formed and files the row under its assigned key; key 0 appends the row under a key not used before |
| `UsuarioDatos.RegistroEncontrable` | labx/app/src/main/java/com/example/labx/data/local/dao/UsuarioDao.kt:8-15 | a new account whose email no row has yet is exactly what the email lookup then finds, with its generated id |
| `UsuarioDatos.EmailRepetidoDevuelveElAntiguo` | labx/app/src/main/java/com/example/labx/data/local/dao/UsuarioDao.kt:8-15 | emails are not unique: registering again with a known email adds a row, and the email lookup still finds the older account |
| `UsuarioDatos.CodigoRepetidoDevuelveElAntiguo` | labx/app/src/main/java/com/example/labx/data/local/dao/UsuarioDao.kt:8-18 | the same holds for the referral-code lookup |
| `Preferencias.LeerUsuarioActivo` | labx/app/src/main/java/com/example/labx/data/local/SesionUsuarioManager.kt:14-17 | there is no active user exactly when the key is absent or holds -1; otherwise the stored id |
| `Preferencias.SesionUsuarioManager.constructor` | labx/app/src/main/java/com/example/labx/data/local/SesionUsuarioManager.kt:6-8 | the manager reads the given stored preferences |
| `Preferencias.SesionUsuarioManager.GuardarUsuarioActivo` | labx/app/src/main/java/com/example/labx/data/local/SesionUsuarioManager.kt:10-12 | the id is stored under "usuario_id" and nothing else changes |
| `Preferencias.SesionUsuarioManager.CerrarSesion` | labx/app/src/main/java/com/example/labx/data/local/SesionUsuarioManager.kt:19-21 | the whole store is cleared, so no user is active |
| `Preferencias.GuardarLeerUsuario` | labx/app/src/main/java/com/example/labx/data/local/SesionUsuarioManager.kt:10-21 | a stored id reads back (the id -1 reads as no session); the last id stored wins; an empty store has no session |
| `Preferencias.LeerCadena` | labx/app/src/main/java/com/example/labx/data/local/PreferenciasManager.kt:49-73 | a string read finds a value exactly when a string is stored under the key |
| `Preferencias.LeerBooleano` | labx/app/src/main/java/com/example/labx/data/local/PreferenciasManager.kt:64-66 | a flag reads true exactly when true is stored under the key; false by default |
| `Preferencias.PreferenciasManager.constructor` | labx/app/src/main/java/com/example/labx/data/local/PreferenciasManager.kt:21-28 | the manager reads the given stored preferences |
| `Preferencias.PreferenciasManager.GuardarFotoPerfil` | labx/app/src/main/java/com/example/labx/data/local/PreferenciasManager.kt:45-47 | the photo URI is stored and nothing else changes |
| `Preferencias.PreferenciasManager.GuardarSesionAdmin` | labx/app/src/main/java/com/example/labx/data/local/PreferenciasManager.kt:53-59 | the admin flag is set and the username stored |
| `Preferencias.PreferenciasManager.CerrarSesionAdmin` | labx/app/src/main/java/com/example/labx/data/local/PreferenciasManager.kt:78-84 | the admin flag and username are removed |
| `Preferencias.SesionAdmin` | labx/app/src/main/java/com/example/labx/data/local/PreferenciasManager.kt:45-84 | a fresh store has no admin session and no photo; a saved photo reads back; saving the session marks it open under that name and keeps the photo; closing clears both and keeps the photo |
| `Preferencias.ValidarCredencialesAdmin` | labx/app/src/main/java/com/example/labx/data/local/PreferenciasManager.kt:90-92 | holds exactly for "admin" and "admin123"; `Login.AdminSoloConCredenciales` states the sign-in it allows |
| `VistaUsuario.PrefijoCodigo` | labx/app/src/main/java/com/example/labx/ui/viewmodel/UsuarioViewModel.kt:145-150 | the prefix of a referral code is at least three characters long |
| `VistaUsuario.LetrasCodigo` | labx/app/src/main/java/com/example/labx/ui/viewmodel/UsuarioViewModel.kt:145-148 | at most three characters are taken, all of them letters |
| `VistaUsuario.GenerarCodigo` | labx/app/src/main/java/com/example/labx/ui/viewmodel/UsuarioViewModel.kt:144-154 | a code is the prefix followed by exactly three decimal digits whose value is the random number |
| `VistaUsuario.TresCifras` | labx/app/src/main/java/com/example/labx/ui/viewmodel/UsuarioViewModel.kt:152-153 | every number the random draw can give prints as three digits |
| `VistaUsuario.CodigoDeSeis` | labx/app/src/main/java/com/example/labx/ui/viewmodel/UsuarioViewModel.kt:144-154 | when no sharp s is taken, the prefix is the upper-cased letters padded with 'X' to three, and the code has six characters |
| `VistaUsuario.LetrasDeVeronica` | labx/app/src/main/java/com/example/labx/ui/viewmodel/UsuarioViewModel.kt:145-148 | the name "Veronica" gives the letters "Ver" |
| `VistaUsuario.MayusculasDeVer` | labx/app/src/main/java/com/example/labx/ui/viewmodel/UsuarioViewModel.kt:149 | "Ver" upper-cases to "VER" |
| `VistaUsuario.CodigoEjemplo` | labx/app/src/main/java/com/example/labx/ui/viewmodel/UsuarioViewModel.kt:143-154 | "Veronica" with the draw 123 gives the code "VER123" |
| `VistaUsuario.CodigoConEseLarga` | labx/app/src/main/java/com/example/labx/ui/viewmodel/UsuarioViewModel.kt:145-153 | a name starting with three sharp s letters gives a nine-character code, because each upper-cases to "SS" |
| `VistaUsuario.NuevoUsuario` | labx/app/src/main/java/com/example/labx/ui/viewmodel/UsuarioViewModel.kt:60-73 | the new account has trimmed text fields, the generated code, a referral code only when one was given and is not blank, no points and level 1 |
| `VistaUsuario.UsuarioViewModel.constructor` | labx/app/src/main/java/com/example/labx/ui/viewmodel/UsuarioViewModel.kt:34-43 | with a stored session, the current user is the account under that key, if any; otherwise the state is the default |
| `VistaUsuario.UsuarioViewModel.RegistrarUsuario` | labx/app/src/main/java/com/example/labx/ui/viewmodel/UsuarioViewModel.kt:46-92 | on success the account is inserted under a fresh key, that key becomes the stored session and the account with its key is the current user; on an exception nothing is stored and the error is the exception's message or the fallback |
| `VistaUsuario.UsuarioViewModel.LoginPorEmail` | labx/app/src/main/java/com/example/labx/ui/viewmodel/UsuarioViewModel.kt:95-124 | the trimmed email is looked up; a found account becomes the stored session and current user; no account gives the "no account" error and no user; an exception keeps the session and reports its message or the fallback |
| `VistaUsuario.UsuarioViewModel.CerrarSesion` | labx/app/src/main/java/com/example/labx/ui/viewmodel/UsuarioViewModel.kt:127-130 | the stored session is cleared and the state is back to the default |
| `VistaUsuario.UsuarioViewModel.CargarUsuarios` | labx/app/src/main/java/com/example/labx/ui/viewmodel/UsuarioViewModel.kt:133-141 | the list is every account in the table, or empty when the query throws |
| `VistaUsuario.RegistroLuegoIngreso` | labx/app/src/main/java/com/example/labx/ui/viewmodel/UsuarioViewModel.kt:62-109 | after registering an unused email, signing in with it (surrounding blanks aside) finds the new account with its key, and the stored session restores the same account |
| `Navegacion.DetalleConId` | labx/app/src/main/java/com/example/labx/navigation/Rutas.kt:20-22 | the id can be read back from the detail route as an integer argument |
| `Navegacion.FormularioEditar` | labx/app/src/main/java/com/example/labx/navigation/Rutas.kt:23-25 | the id can be read back from the edit route as an integer argument |
| `Navegacion.PagoExitosoConId` | labx/app/src/main/java/com/example/labx/navigation/Rutas.kt:26-28 | the transaction id can be read back from the payment route unchanged |
| `Navegacion.ArgumentoTras` | labx/app/src/main/java/com/example/labx/navigation/Rutas.kt:20-28 | there is an argument exactly when the route starts with the prefix, and prefix plus argument is the route |
| `Navegacion.RutasConIdInyectivas` | labx/app/src/main/java/com/example/labx/navigation/Rutas.kt:20-25 | different ids give different detail routes and different edit routes |
| `Navegacion.FormularioEditarSigueElPatron` | labx/app/src/main/java/com/example/labx/navigation/Rutas.kt:18-25 | the edit route is the form's route pattern with the id in place of the placeholder |
| `Navegacion.RutasFijasDistintas` | labx/app/src/main/java/com/example/labx/navigation/Rutas.kt:4-18 | the named routes are pairwise distinct |
| `Navegacion.RutasConArgumentoNoSonFijas` | labx/app/src/main/java/com/example/labx/navigation/Rutas.kt:4-28 | no detail route and no payment route is one of the named routes |
| `Login.Ingresar` | labx/app/src/main/java/com/example/labx/ui/screen/LoginUniversalScreen.kt:86-101 | the admin path is taken exactly for the admin credentials, the customer lookup exactly for other credentials with a non-blank input, and the missing-data message exactly for a blank input |
| `Login.IngresoClienteAvanza` | labx/app/src/main/java/com/example/labx/ui/screen/LoginUniversalScreen.kt:31-35 | a found customer that is not loading moves on to the customer home; a failed lookup or a loading state does not |
| `Login.LoginUniversal.constructor` | labx/app/src/main/java/com/example/labx/ui/screen/LoginUniversalScreen.kt:27-29 | both fields start empty with no message |
| `Login.LoginUniversal.CambiarInput` | labx/app/src/main/java/com/example/labx/ui/screen/LoginUniversalScreen.kt:63-66 | the input takes the new text, the password stays and the message is cleared |
| `Login.LoginUniversal.CambiarPassword` | labx/app/src/main/java/com/example/labx/ui/screen/LoginUniversalScreen.kt:73-76 | the password takes the new text, the input stays and the message is cleared |
| `Login.LoginUniversal.PulsarIngresar` | labx/app/src/main/java/com/example/labx/ui/screen/LoginUniversalScreen.kt:86-101 | the action taken is the one Ingresar chooses; only the admin path saves the admin session; only a blank input sets the missing-data message |
| `Login.IniciarSesionAdmin` | labx/app/src/main/java/com/example/labx/ui/screen/LoginAdminScreen.kt:105-118 | a blank field gives the incomplete-fields result; otherwise success exactly when the credential check passes |
| `Login.AdminSoloConCredenciales` | labx/app/src/main/java/com/example/labx/ui/screen/LoginAdminScreen.kt:105-118 | with the stored credential check, the admin screen lets in exactly the admin username and password |
| `Login.LoginAdmin.constructor` | labx/app/src/main/java/com/example/labx/ui/screen/LoginAdminScreen.kt:24-27 | the fields start empty, the password hidden and no message |
| `Login.LoginAdmin.CambiarUsername` | labx/app/src/main/java/com/example/labx/ui/screen/LoginAdminScreen.kt:65-68 | the username takes the new text, the rest stays and the message is cleared |
| `Login.LoginAdmin.CambiarPassword` | labx/app/src/main/java/com/example/labx/ui/screen/LoginAdminScreen.kt:78-81 | the password takes the new text, the rest stays and the message is cleared |
| `Login.LoginAdmin.PulsarIniciarSesion` | labx/app/src/main/java/com/example/labx/ui/screen/LoginAdminScreen.kt:103-119 | a session name is handed on exactly on success, and it is the username; the message is the incomplete-fields or wrong-credentials text for those results |
| `Listas.FiltrarEsSubsecuencia` | labx/app/src/main/java/com/example/labx/ui/screen/HomeScreen.kt:70-76 | the filtered catalogue keeps the products in their original order |
| `Listas.Distintas` | labx/app/src/main/java/com/example/labx/ui/screen/HomeScreen.kt:79 | the category list holds every category of the catalogue, each once, and nothing else |
| `Listas.DistintasEnOrden` | labx/app/src/main/java/com/example/labx/ui/screen/HomeScreen.kt:79 | categories are listed in the order of their first appearance |
| `Listas.PrimeroAlFinal` | labx/app/src/main/java/com/example/labx/data/local/dao/UsuarioDao.kt:14-15 | inserting a row at the end changes what a LIMIT 1 lookup returns only when no row matched before |
| `OrdenTexto.NoMayorTotal` | labx/app/src/main/java/com/example/labx/data/local/dao/ProductoDao.kt:25-26 | any two names are comparable under the ascending order by name |
| `OrdenTexto.NoMayorTransitiva` | labx/app/src/main/java/com/example/labx/data/local/dao/ProductoDao.kt:25-26 | the ascending order by name is transitive |
| `Texto.RecortarEsTramo` | labx/app/src/main/java/com/example/labx/ui/viewmodel/UsuarioViewModel.kt:63-66 | a trimmed field is a contiguous slice of the input with no blank at either end, and empty exactly when the input is blank |
| `Texto.AIntONullDeIntADecimal` | labx/app/src/main/java/com/example/labx/navigation/Rutas.kt:20-25 | every 32-bit id reads back from its decimal text in a route |
| `Sumas.SumaRPermutacion` | labx/app/src/main/java/com/example/labx/domain/model/Carrito.kt:17-18 | a sum of prices does not depend on the order of the cart's lines |

## Left out

- Coroutines, `Flow`/`StateFlow`, `stateIn`, the event `Channel`'s buffering and every interleaving of concurrent calls are not modelled: each public method is one sequential step. The one exception is payment, which is split at its `delay(2000)` into a start and a completion, so mutations between the two can be stated.
- Prices are `real`, so the 10% discount, the ×950 conversion and the sums are exact. Double rounding, and the saturation of `toInt()` beyond the 32-bit range, are not modelled. Truncation toward zero is modelled.
- The `Double` text printed for "Valor Inventario" on the admin panel is not modelled; its value is.
- Integers are unbounded. 32-bit overflow of ids, quantities, stock sums and `id + 100000` is not modelled.
- `String.length` is modelled as Kotlin counts it, in UTF-16 code units: a character above U+FFFF counts twice (`Texto.Longitud`). The password rule's `.{8,}` is a regular expression, which counts code points, so it stays on the number of characters.
- Character classes (`isWhitespace`, `isLetter`, `isDigit`, upper and lower case) are defined concretely on ASCII and Latin-1. Other Unicode characters count as non-letters and keep their case. The one length-changing case mapping kept is 'ß' → "SS".
- The regular expressions of the validators are written as explicit string predicates with the same languages.
- `Random.nextInt`, `UUID.randomUUID`, the date formatter and the clock are parameters of the operations that use them.
- The Retrofit/OkHttp network layer is not part of this model. An API response enters the hybrid merge as an input list, or as "throws".
- The PDF generator, image saving, the Room database singleton, the theme and all layout-only screens are not part of this model.
- `NavGraph.kt` and `MainActivity.kt` are not part of this model, so route arguments are only stated as readable back. An `IntType` argument is read as Kotlin's `toIntOrNull` reads it. The admin sign-in screen is modelled even though no route shows it.
- `ProductoInicializador.kt` (seed data) and the tests under `labx/temp_backup/` are not part of this model.
- `ORDER BY nombre` does not fix the order of equal names. The model keeps equal names in key order: a stable sort of the table.
- A `LIMIT 1` query that matches several rows returns the first in key order.
- The `Log.d` calls are not modelled.
- `LoginAdmin` has a `mostrarPassword` flag that nothing toggles. The model keeps it and proves that no operation changes it.
- VistaUsuario.UsuarioViewModel.LoginPorEmail: when the lookup finds no account, the current user is cleared but the stored session is kept. This is what the source does, and the model states exactly that.
- VistaUsuario.UsuarioViewModel.RegistrarUsuario: an exception is modelled only as thrown by the insert, before anything is written. An exception after the insert (from the session store) is not modelled.
- Login.LoginUniversal.PulsarIngresar: a customer lookup is returned as an action rather than run. `VistaUsuario.UsuarioViewModel.LoginPorEmail` states what that lookup does.
- Exceptions carry only an optional message. Their types and stack traces are not modelled.

## Findings

| source | as written | input that shows it | evidently intended | confidence | as-written member | corrected member |
|---|---|---|---|---|---|---|
| labx/app/src/main/java/com/example/labx/ui/viewmodel/RegistroViewModel.kt:83-91 | `onPasswordChange` re-validates only the password. The confirmation error, computed by `onConfirmarPasswordChange` against the password of that moment, is left as it was. | Fill the form with "Ana Soto", "ana@mail.cl", "912345678", "Los Olmos 1234", password "Clave123", confirmation "Clave123" and terms accepted. Then change the password to "Otra4567". `esFormularioValido` still holds, although the confirmation no longer matches. | A form reported valid has a confirmation equal to its password. | not executed; medium (the source may rely on the screen's field order) | `VistaRegistro.ConfirmacionDesfasada` | `VistaRegistro.CorregidoValidoAcepta` |
