# Perfulandia cart, user and product services — a Dafny model

This project models the service layer of three microservices of a perfume
shop backend:

- **UsuarioService** and **ProductoService**: keyed stores of users and
  products with `listar`, `guardar`, `buscar`/`buscarPorId` and
  `eliminar`. Each is a class over a `map<int, Record>` plus the next id
  the table's identity column hands out. Lookups are functions over the map.
  Saving and deleting are methods that change it.
- **CarritoService**, the core: carts (a user id plus a collection of lines
  `CarritoItem(productoId, cantidad)`) kept in a `map<int, Carrito>` by a
  class whose methods mirror the Java ones. Adding checks, in order, that
  the quantity is positive, that the cart exists, what the product service
  says about the product, and that the stock covers the requested quantity.
  It then merges into the product's existing line or appends a new one.
  Removing a quantity shrinks the line or deletes it. Removing a product
  deletes its line. Emptying clears the lines. Creating a cart first asks
  the user service about the user. Deleting a cart checks that it exists.

The user and product services, as the cart sees them, are
`Remote.Collaborator` objects. Each one answers every id with
`Found(record)`, `Missing` (an HTTP 404) or `Unreachable(detail)` (any
other failure). It also logs every id it is asked about, so contracts can
say whether it was consulted. `Remote.Classify` is the translation that
`obtenerDetallesUsuarioDesdeMS` and `obtenerDetallesProductoDesdeMS`
perform: a 404 becomes NotFound, and anything else becomes Unavailable
carrying the transport's message.

Cart lines are specified as values in module `CartItems`:
- `Wf`: at most one line per product, every quantity positive.
- `IndexOf`: the first line for a product.
- `Quantity`: the units of a product summed over all lines. This is the
  reference definition the operations are measured against.
- `Merge`, `Decrease`, `Without`: what add, remove-quantity and
  remove-product do to the lines.

The service methods are proved to keep every stored cart well formed. They
are proved to change the carts exactly as these functions say. On every
failure they are proved to leave the carts untouched. The lemmas beside
the functions state the effect on every product's quantity.

The exceptions are modelled as the `Outcomes.Error` kinds `NotFound`,
`InvalidArgument` and `Unavailable`. Each carries the message text the
service source builds, character for character as the source file holds
it. Ids in messages are written by `Decimal.Text`, as Java's string
concatenation writes a `long`. The `MessagesNameOneId` lemmas prove that
each message names exactly the id it was raised for.

Module `Scenarios` is client code verified against the contracts alone.
It follows the service's unit tests. It also covers one sequence: create a
cart, add 3 units of a product, add 2 more (one line of 5), then remove 5
(no line left).

Behaviour of the code worth noting:
- Repeated adds sum the quantities (`CarritoService.java:104`).
- The stock check compares the stock with the requested quantity only, not
  with the merged total (`CarritoService.java:93`). A line can therefore end
  up holding more units than the product has in stock.
- `ProductoService.eliminar` throws a message that reads "Usuario no
  encontrado" (`ProductoService.java:36`). `Productos.NoSePuedeEliminar`
  keeps that text as written.
- The non-positive-quantity message at `CarritoService.java:87` stores the
  accented letter of "número" as the two characters U+00C3 U+00BA
  ("nÃºmero"). `Carritos.CantidadNoPositiva` keeps those two characters.
  `CarritoServiceTest.java:129` expects "número" with U+00FA, so that
  assertion does not hold against the code as written.

## Model

| member | source | states |
|---|---|---|
| Usuarios.UsuarioService.Listar | usuarioservice/usuarioservice/src/main/java/com/perfulandia/usuarioservice/service/UsuarioService.java:20-22 | the listing holds exactly the stored users, one per stored id |
| Usuarios.UsuarioService.Guardar | usuarioservice/usuarioservice/src/main/java/com/perfulandia/usuarioservice/service/UsuarioService.java:24-26 | the user is saved with all its fields; a stored id is overwritten, any other user gets a fresh id; afterwards `buscar` of that id returns it |
| Usuarios.UsuarioService.Buscar | usuarioservice/usuarioservice/src/main/java/com/perfulandia/usuarioservice/service/UsuarioService.java:28-31 | returns the stored user exactly when the id is stored, otherwise NotFound "Usuario no encontrado con ID: <id>" |
| Usuarios.UsuarioService.Eliminar | usuarioservice/usuarioservice/src/main/java/com/perfulandia/usuarioservice/service/UsuarioService.java:33-38 | succeeds exactly when the id is stored and then removes that user only; otherwise NotFound and the store is unchanged |
| Productos.ProductoService.Listar | productservice/productservice/src/main/java/com/perfulandia/productservice/service/ProductoService.java:21-23 | the listing holds exactly the stored products, one per stored id |
| Productos.ProductoService.Guardar | productservice/productservice/src/main/java/com/perfulandia/productservice/service/ProductoService.java:25-27 | the product is saved with all its fields; a stored id is overwritten, any other product gets a fresh id; afterwards `buscarPorId` returns it |
| Productos.ProductoService.BuscarPorId | productservice/productservice/src/main/java/com/perfulandia/productservice/service/ProductoService.java:29-32 | returns the stored product exactly when the id is stored, otherwise NotFound "Producto no encontrado con ID: <id>" |
| Productos.ProductoService.Eliminar | productservice/productservice/src/main/java/com/perfulandia/productservice/service/ProductoService.java:34-38 | succeeds exactly when the id is stored and then removes that product only; otherwise NotFound and the store is unchanged |
| Carritos.MessagesNameOneId | carritoservice/carritoservice/src/main/java/com/perfulandia/carritoservice/service/CarritoService.java:37-148 | each cart-service message that carries an id (lines 37, 43, 53, 67, 129 and 148) names exactly one id: two messages of a kind are equal if and only if their ids are |
| Usuarios.MessagesNameOneId | usuarioservice/usuarioservice/src/main/java/com/perfulandia/usuarioservice/service/UsuarioService.java:28-36 | the "not found" and "cannot delete" messages are equal for two ids if and only if the ids are |
| Productos.MessagesNameOneId | productservice/productservice/src/main/java/com/perfulandia/productservice/service/ProductoService.java:29-37 | the "not found" and "cannot delete" messages are equal for two ids if and only if the ids are |
| Remote.Collaborator.Get | carritoservice/carritoservice/src/main/java/com/perfulandia/carritoservice/service/CarritoService.java:50 | a lookup returns the collaborator's answer for the id and logs the request |
| Remote.Classify | carritoservice/carritoservice/src/main/java/com/perfulandia/carritoservice/service/CarritoService.java:48-73 | a 404 becomes NotFound with the service's message; every other failure becomes Unavailable with the prefix and the transport's message; a found record is passed through |
| CartItems.IndexOf | carritoservice/carritoservice/src/main/java/com/perfulandia/carritoservice/service/CarritoService.java:97-99 | finds the first line for the product, or reports that no line has it |
| CartItems.FindFirst | carritoservice/carritoservice/src/main/java/com/perfulandia/carritoservice/service/CarritoService.java:126-129 | the scan over the lines stops at exactly the line `IndexOf` names, or finds none when there is none |
| CartItems.Quantity | carritoservice/carritoservice/src/main/java/com/perfulandia/carritoservice/service/CarritoService.java:131-137 | a product's total quantity is never negative over positive lines, and is 0 for a product without a line |
| CartItems.QuantityAt | carritoservice/carritoservice/src/main/java/com/perfulandia/carritoservice/service/CarritoService.java:131-137 | in well-formed lines a product's total quantity is the quantity of its one line |
| CartItems.PresentIffPositive | carritoservice/carritoservice/src/main/java/com/perfulandia/carritoservice/service/CarritoService.java:131-137 | in well-formed lines a product has a line exactly when its quantity is positive |
| CartItems.Line | carritoservice/carritoservice/src/main/java/com/perfulandia/carritoservice/service/CarritoService.java:101-115 | the line for a product is one of the lines, and in well-formed lines carries the product's whole quantity |
| CartItems.Merge | carritoservice/carritoservice/src/main/java/com/perfulandia/carritoservice/service/CarritoService.java:97-115 | adding keeps the lines well formed; the product's line is updated in place (count unchanged) or one line (fresh id, product, quantity) is appended; every other line is unchanged |
| CartItems.AddToLines | carritoservice/carritoservice/src/main/java/com/perfulandia/carritoservice/service/CarritoService.java:97-115 | finding the line and then raising it or appending a new one gives exactly `Merge`, and returns the product's resulting line |
| CartItems.MergeQuantity | carritoservice/carritoservice/src/main/java/com/perfulandia/carritoservice/service/CarritoService.java:102-114 | after an add of c units of p, p's quantity is the old quantity plus c and every other product's quantity is unchanged |
| CartItems.Decrease | carritoservice/carritoservice/src/main/java/com/perfulandia/carritoservice/service/CarritoService.java:131-137 | removing a quantity keeps the lines well formed and drops one line exactly when that line held no more than the quantity |
| CartItems.DecreaseQuantity | carritoservice/carritoservice/src/main/java/com/perfulandia/carritoservice/service/CarritoService.java:131-137 | after removing c units of p, p's quantity is the old quantity minus c, or 0 if it held no more than c; other products are unchanged |
| CartItems.Without | carritoservice/carritoservice/src/main/java/com/perfulandia/carritoservice/service/CarritoService.java:145-151 | removing a product keeps the lines well formed, drops exactly one line and leaves no line for that product |
| CartItems.WithoutQuantity | carritoservice/carritoservice/src/main/java/com/perfulandia/carritoservice/service/CarritoService.java:145-151 | after removing product p, p's quantity is 0 and every other product's quantity is unchanged |
| Carritos.CarritoService.ListarTodosLosCarritos | carritoservice/carritoservice/src/main/java/com/perfulandia/carritoservice/service/CarritoService.java:31-33 | the listing holds exactly the stored carts, one per stored id |
| Carritos.CarritoService.BuscarCarritoPorId | carritoservice/carritoservice/src/main/java/com/perfulandia/carritoservice/service/CarritoService.java:35-38 | returns the stored cart exactly when the id is stored, otherwise NotFound "Carrito no encontrado con ID: <id>" |
| Carritos.CarritoService.EliminarCarrito | carritoservice/carritoservice/src/main/java/com/perfulandia/carritoservice/service/CarritoService.java:40-46 | succeeds exactly when the cart exists and then deletes it with its lines; otherwise NotFound and nothing is deleted; afterwards the lookup fails |
| Carritos.CarritoService.CrearNuevoCarrito | carritoservice/carritoservice/src/main/java/com/perfulandia/carritoservice/service/CarritoService.java:75-82 | asks the user service once; succeeds exactly when it finds the user and then stores a new empty cart for that user under a fresh id; a 404 is NotFound, any other failure Unavailable, and then no cart is stored |
| Carritos.CarritoService.AgregarProductoAlCarrito | carritoservice/carritoservice/src/main/java/com/perfulandia/carritoservice/service/CarritoService.java:84-116 | runs the checks in the source's order: quantity, then cart (before the product service is asked), then product (404 vs other failure), then stock; succeeds exactly when all pass; then the cart's lines become `Merge` of the old ones and the product's line is returned; every failure leaves the carts unchanged |
| Carritos.CarritoService.MergeIntoCart | carritoservice/carritoservice/src/main/java/com/perfulandia/carritoservice/service/CarritoService.java:97-115 | commits the merge into the stored cart, takes a fresh line id only when a line is appended, and keeps every stored cart well formed |
| Carritos.CarritoService.EliminarProductoDelCarrito | carritoservice/carritoservice/src/main/java/com/perfulandia/carritoservice/service/CarritoService.java:118-139 | InvalidArgument for a non-positive quantity, NotFound for a missing cart or line, otherwise the cart's lines become `Decrease` of the old ones and the saved cart is returned; failures change nothing |
| Carritos.CarritoService.EliminarProductoCompletoDelCarrito | carritoservice/carritoservice/src/main/java/com/perfulandia/carritoservice/service/CarritoService.java:141-154 | NotFound for a missing cart or line, otherwise the cart's lines become `Without` of the old ones and the saved cart is returned; failures change nothing |
| Carritos.CarritoService.VaciarCarrito | carritoservice/carritoservice/src/main/java/com/perfulandia/carritoservice/service/CarritoService.java:156-161 | succeeds exactly when the cart exists and then leaves it with its id and user and no lines; otherwise NotFound and nothing changes |

## Left out

- HTTP controllers, the global exception handlers and the HATEOAS assemblers: routing, status-code mapping and link building, outside the service layer.
- JPA repositories and `@Transactional`: the tables are the classes' maps, and each method is atomic by construction.
- `RestTemplate` and the hard-coded service URLs: network I/O. The collaborators are oracles whose answer for an id is fixed when they are created.
- A collaborator that answers 200 with an empty body: `getForObject` then returns null. `crearNuevoCarrito` would still create the cart, and `agregarProductoAlCarrito` would fail dereferencing null. Neither is modelled.
- Null arguments (`Long` and `Integer` parameters may be null in Java).
- `Producto.precio`: a `double`. Only the name and the stock matter to the cart.
- Stock is read but never reserved or decremented, and concurrent requests may interleave. Concurrency is not modelled.
- The line's back-reference to its cart and Lombok's equality and hashing: a line lives inside its cart's value. The Java cart's `HashSet` is a sequence in insertion order here; with one line per product, the order never decides which line is found.
- The listing methods return sets, so the order of `findAll` is not modelled.
- Usuarios.UsuarioService.Guardar: a user whose non-zero id is not stored is modelled as an insertion under a fresh id, as Hibernate's merge of a generated-id entity does. Some Hibernate versions reject that case instead.
- Productos.ProductoService.Guardar: the same for a product whose non-zero id is not stored.
- CartItems.Merge: quantities are unbounded integers. Java's `Integer` sum at CarritoService.java:104 would wrap around past 2147483647; that overflow is not modelled.
- Carritos.CarritoService.AgregarProductoAlCarrito: the same unbounded sum; the Java `Integer` overflow is not modelled.
- CarritoServiceTest checks that the "user not found" message contains a text. Its exact wording is defined in `Carritos.UsuarioNoExiste` but is not restated as a lemma.
