/** The cart service (CarritoService): carts stored by id, each holding its
    lines, checked against the user and product services before it changes
    anything. Every operation is atomic: it either completes or fails and
    leaves the carts as they were. */
module Carritos {
  import opened Outcomes
  import opened CartItems
  import Decimal
  import Keyed
  import Remote
  import Usuarios
  import Productos

  /** A cart: its generated id, the user it was created for, and its lines. */
  datatype Carrito = Carrito(id: int, usuarioId: int, items: seq<CarritoItem>)

  function CarritoNoEncontrado(id: int): string
  {
    "Carrito no encontrado con ID: " + Decimal.Text(id)
  }

  function NoSePuedeEliminar(id: int): string
  {
    "No se puede eliminar. Carrito no encontrado con ID: " + Decimal.Text(id)
  }

  function UsuarioNoExiste(usuarioId: int): string
  {
    "No se puede operar con el usuario ID " + Decimal.Text(usuarioId) +
    " porque no existe en el microservicio de usuarios."
  }

  const ErrorServicioUsuarios := "Error al comunicarse con el servicio de usuarios: "

  function ProductoNoEncontrado(productoId: int): string
  {
    "Producto no encontrado con ID: " + Decimal.Text(productoId)
  }

  const ErrorServicioProductos := "Error al comunicarse con el servicio de productos: "

  /** The text as CarritoService.java:87 holds it: the accented letter is
      stored as the two characters U+00C3 U+00BA, not as U+00FA. */
  const CantidadNoPositiva := "La cantidad debe ser un n\U{C3}\U{BA}mero positivo."

  function StockInsuficiente(nombre: string, stock: int): string
  {
    "Stock insuficiente para el producto: " + nombre + ". Stock disponible: " + Decimal.Text(stock)
  }

  const CantidadAEliminarNoPositiva := "La cantidad a eliminar debe ser mayor que cero."

  function ProductoNoEnCarrito(productoId: int): string
  {
    "Producto con ID " + Decimal.Text(productoId) + " no encontrado en el carrito."
  }

  /** Each error message that carries an id names exactly that id. */
  lemma MessagesNameOneId(a: int, b: int)
    ensures CarritoNoEncontrado(a) == CarritoNoEncontrado(b) <==> a == b
    ensures NoSePuedeEliminar(a) == NoSePuedeEliminar(b) <==> a == b
    ensures UsuarioNoExiste(a) == UsuarioNoExiste(b) <==> a == b
    ensures ProductoNoEncontrado(a) == ProductoNoEncontrado(b) <==> a == b
    ensures ProductoNoEnCarrito(a) == ProductoNoEnCarrito(b) <==> a == b
  {
    Decimal.EmbeddedInjective("Carrito no encontrado con ID: ", a, b, "");
    Decimal.EmbeddedInjective("No se puede eliminar. Carrito no encontrado con ID: ", a, b, "");
    Decimal.EmbeddedInjective("No se puede operar con el usuario ID ", a, b,
                              " porque no existe en el microservicio de usuarios.");
    Decimal.EmbeddedInjective("Producto no encontrado con ID: ", a, b, "");
    Decimal.EmbeddedInjective("Producto con ID ", a, b, " no encontrado en el carrito.");
  }

  /** What the store keeps of a cart: stored under its own id, below the next
      id to hand out, with well-formed lines whose ids were all handed out. */
  ghost predicate Stored(c: Carrito, id: int, nextCarritoId: int, nextItemId: int)
  {
    && c.id == id
    && 1 <= id < nextCarritoId
    && Wf(c.items)
    && forall i :: 0 <= i < |c.items| ==> c.items[i].id < nextItemId
  }

  ghost predicate AllStored(m: map<int, Carrito>, nextCarritoId: int, nextItemId: int)
  {
    forall id :: id in m ==> Stored(m[id], id, nextCarritoId, nextItemId)
  }

  /** Replacing one cart, or raising the next line id, keeps the store's
      invariant. */
  lemma StoreCart(m: map<int, Carrito>, c: Carrito, nextCarritoId: int, nextItemId: int, nextItemId': int)
    requires AllStored(m, nextCarritoId, nextItemId) && nextItemId <= nextItemId'
    requires Stored(c, c.id, nextCarritoId, nextItemId')
    ensures AllStored(m[c.id := c], nextCarritoId, nextItemId')
  {
  }

  /** Merging into a stored cart's lines keeps it stored, once the fresh line
      id has been handed out. */
  lemma StoredAfterMerge(c: Carrito, nextCarritoId: int, nextItemId: int, p: int, cantidad: int)
    requires Stored(c, c.id, nextCarritoId, nextItemId) && cantidad > 0
    ensures Stored(c.(items := Merge(c.items, p, cantidad, nextItemId)), c.id, nextCarritoId, nextItemId + 1)
  {
  }

  class CarritoService {
    /** The cart table, by id; a cart's lines are deleted with it. */
    var carritos: map<int, Carrito>
    /** The next ids the identity columns of the cart and line tables hand out. */
    var nextCarritoId: int
    var nextItemId: int
    /** The user and product services, reached over HTTP. */
    const usuarios: Remote.Collaborator<Usuarios.Usuario>
    const productos: Remote.Collaborator<Productos.Producto>

    ghost predicate Valid()
      reads this
    {
      && nextCarritoId >= 1
      && nextItemId >= 1
      && AllStored(carritos, nextCarritoId, nextItemId)
    }

    constructor (usuarios: Remote.Collaborator<Usuarios.Usuario>, productos: Remote.Collaborator<Productos.Producto>)
      ensures Valid() && carritos == map[] && nextCarritoId == 1 && nextItemId == 1
      ensures this.usuarios == usuarios && this.productos == productos
    {
      carritos := map[];
      nextCarritoId := 1;
      nextItemId := 1;
      this.usuarios := usuarios;
      this.productos := productos;
    }

    /** `listarTodosLosCarritos`: every stored cart, each once. */
    function ListarTodosLosCarritos(): (r: set<Carrito>)
      reads this
      requires Valid()
      ensures forall c :: c in r <==> c.id in carritos && carritos[c.id] == c
      ensures |r| == |carritos|
    {
      assert Keyed.KeyedById(carritos, (c: Carrito) => c.id);
      Keyed.ValuesByKey(carritos, (c: Carrito) => c.id);
      Keyed.ValuesCount(carritos, (c: Carrito) => c.id);
      carritos.Values
    }

    /** `buscarCarritoPorId`: the stored cart, or NotFound naming the id. */
    function BuscarCarritoPorId(id: int): (r: Result<Carrito>)
      reads this
      ensures r.Success? <==> id in carritos
      ensures r.Success? ==> r.value == carritos[id]
      ensures r.Failure? ==> r.error == NotFound(CarritoNoEncontrado(id))
    {
      if id in carritos then Success(carritos[id]) else Failure(NotFound(CarritoNoEncontrado(id)))
    }

    /** `eliminarCarrito`: deletes the cart and its lines, or fails with
        NotFound and deletes nothing. */
    method EliminarCarrito(id: int) returns (r: Outcome)
      requires Valid()
      modifies this`carritos
      ensures Valid()
      ensures r.Pass? <==> id in old(carritos)
      ensures r.Fail? ==> r.error == NotFound(NoSePuedeEliminar(id))
      ensures carritos == old(carritos) - {id}
      ensures BuscarCarritoPorId(id).Failure?
    {
      if id !in carritos {
        return Fail(NotFound(NoSePuedeEliminar(id)));
      }
      carritos := carritos - {id};
      r := Pass;
    }

    /** `crearNuevoCarrito`: asks the user service about the user first; a
        404 there is NotFound and any other failure Unavailable, and then no
        cart is saved. Otherwise stores a new empty cart for that user under
        a fresh id. */
    method CrearNuevoCarrito(usuarioId: int) returns (r: Result<Carrito>)
      requires Valid()
      modifies this`carritos, this`nextCarritoId, usuarios
      ensures Valid()
      ensures usuarios.requests == old(usuarios.requests) + [usuarioId]
      ensures r.Success? <==> usuarios.answer(usuarioId).Found?
      ensures usuarios.answer(usuarioId).Missing? ==> r == Failure(NotFound(UsuarioNoExiste(usuarioId)))
      ensures usuarios.answer(usuarioId).Unreachable? ==>
        r == Failure(Unavailable(ErrorServicioUsuarios + usuarios.answer(usuarioId).detail))
      ensures r.Failure? ==> carritos == old(carritos) && nextCarritoId == old(nextCarritoId)
      ensures r.Success? ==>
        && r.value == Carrito(old(nextCarritoId), usuarioId, [])
        && r.value.id !in old(carritos)
        && carritos == old(carritos)[r.value.id := r.value]
        && nextCarritoId == old(nextCarritoId) + 1
    {
      var resp := usuarios.Get(usuarioId);
      var usuario := Remote.Classify(resp, UsuarioNoExiste(usuarioId), ErrorServicioUsuarios);
      if usuario.Failure? {
        return Failure(usuario.error);
      }
      var carrito := Carrito(nextCarritoId, usuarioId, []);
      carritos := carritos[carrito.id := carrito];
      nextCarritoId := nextCarritoId + 1;
      r := Success(carrito);
    }

    /** `agregarProductoAlCarrito`. The checks run in this order, each failure
        leaving the carts unchanged: a positive quantity (InvalidArgument), the
        cart (NotFound, before the product service is asked anything), the
        product (NotFound on a 404, Unavailable on any other failure), the
        stock, which must cover the requested quantity (InvalidArgument). Then
        the quantity is added to the product's line, or a new line is
        appended, and that line is returned. */
    method AgregarProductoAlCarrito(carritoId: int, productoId: int, cantidad: int) returns (r: Result<CarritoItem>)
      requires Valid()
      modifies this`carritos, this`nextItemId, productos
      ensures Valid()
      ensures cantidad <= 0 ==> r == Failure(InvalidArgument(CantidadNoPositiva))
      ensures cantidad > 0 && carritoId !in old(carritos) ==> r == Failure(NotFound(CarritoNoEncontrado(carritoId)))
      ensures cantidad <= 0 || carritoId !in old(carritos) ==> productos.requests == old(productos.requests)
      ensures cantidad > 0 && carritoId in old(carritos) ==>
        && productos.requests == old(productos.requests) + [productoId]
        && (productos.answer(productoId).Missing? ==> r == Failure(NotFound(ProductoNoEncontrado(productoId))))
        && (productos.answer(productoId).Unreachable? ==>
              r == Failure(Unavailable(ErrorServicioProductos + productos.answer(productoId).detail)))
        && (productos.answer(productoId).Found? && productos.answer(productoId).record.stock < cantidad ==>
              r == Failure(InvalidArgument(StockInsuficiente(productos.answer(productoId).record.nombre,
                                                             productos.answer(productoId).record.stock))))
      ensures r.Success? <==>
        && cantidad > 0
        && carritoId in old(carritos)
        && productos.answer(productoId).Found?
        && productos.answer(productoId).record.stock >= cantidad
      ensures r.Failure? ==> carritos == old(carritos) && nextItemId == old(nextItemId)
      ensures r.Success? && carritoId in old(carritos) ==>
        var before := old(carritos)[carritoId].items;
        var after := Merge(before, productoId, cantidad, old(nextItemId));
        && carritos == old(carritos)[carritoId := old(carritos)[carritoId].(items := after)]
        && r.value == Line(after, productoId)
        && nextItemId == if IndexOf(before, productoId).Some? then old(nextItemId) else old(nextItemId) + 1
    {
      if cantidad <= 0 {
        return Failure(InvalidArgument(CantidadNoPositiva));
      }
      var buscado := BuscarCarritoPorId(carritoId);
      if buscado.Failure? {
        return Failure(buscado.error);
      }
      var resp := productos.Get(productoId);
      var detalles := Remote.Classify(resp, ProductoNoEncontrado(productoId), ErrorServicioProductos);
      if detalles.Failure? {
        return Failure(detalles.error);
      }
      var producto := detalles.value;
      if producto.stock < cantidad {
        return Failure(InvalidArgument(StockInsuficiente(producto.nombre, producto.stock)));
      }
      var item := MergeIntoCart(carritoId, productoId, cantidad);
      r := Success(item);
    }

    /** The part of `agregarProductoAlCarrito` after every check has passed:
        the product's line in the cart grows by `cantidad`, or a new line with
        a fresh id is appended. */
    method MergeIntoCart(carritoId: int, productoId: int, cantidad: int) returns (item: CarritoItem)
      requires Valid() && carritoId in carritos && cantidad > 0
      modifies this`carritos, this`nextItemId
      ensures Valid()
      ensures
        var before := old(carritos)[carritoId].items;
        var after := Merge(before, productoId, cantidad, old(nextItemId));
        && carritos == old(carritos)[carritoId := old(carritos)[carritoId].(items := after)]
        && item == Line(after, productoId)
        && nextItemId == if IndexOf(before, productoId).Some? then old(nextItemId) else old(nextItemId) + 1
    {
      var carrito := carritos[carritoId];
      var items, line := AddToLines(carrito.items, productoId, cantidad, nextItemId);
      StoredAfterMerge(carrito, nextCarritoId, nextItemId, productoId, cantidad);
      var nextId := if |items| > |carrito.items| then nextItemId + 1 else nextItemId;
      StoreCart(carritos, carrito.(items := items), nextCarritoId, nextItemId, nextId);
      carritos := carritos[carritoId := carrito.(items := items)];
      nextItemId := nextId;
      item := line;
    }

    /** `eliminarProductoDelCarrito`: fails with InvalidArgument on a
        non-positive quantity, with NotFound when the cart or the product's
        line is missing; otherwise the line goes when it holds no more than
        the quantity, and shrinks by it when it holds more. Returns the saved
        cart. */
    method EliminarProductoDelCarrito(carritoId: int, productoId: int, cantidad: int) returns (r: Result<Carrito>)
      requires Valid()
      modifies this`carritos
      ensures Valid()
      ensures cantidad <= 0 ==> r == Failure(InvalidArgument(CantidadAEliminarNoPositiva))
      ensures cantidad > 0 && carritoId !in old(carritos) ==> r == Failure(NotFound(CarritoNoEncontrado(carritoId)))
      ensures cantidad > 0 && carritoId in old(carritos) && IndexOf(old(carritos)[carritoId].items, productoId).None? ==>
        r == Failure(NotFound(ProductoNoEnCarrito(productoId)))
      ensures r.Success? <==>
        cantidad > 0 && carritoId in old(carritos) && IndexOf(old(carritos)[carritoId].items, productoId).Some?
      ensures r.Failure? ==> carritos == old(carritos)
      ensures r.Success? && carritoId in old(carritos) ==>
        && IndexOf(old(carritos)[carritoId].items, productoId).Some?
        && r.value == old(carritos)[carritoId].(items := Decrease(old(carritos)[carritoId].items, productoId, cantidad))
        && carritos == old(carritos)[carritoId := r.value]
    {
      if cantidad <= 0 {
        return Failure(InvalidArgument(CantidadAEliminarNoPositiva));
      }
      var buscado := BuscarCarritoPorId(carritoId);
      if buscado.Failure? {
        return Failure(buscado.error);
      }
      var carrito := buscado.value;
      var found, k := FindFirst(carrito.items, productoId);
      if !found {
        return Failure(NotFound(ProductoNoEnCarrito(productoId)));
      }
      var item := carrito.items[k];
      var items;
      if item.cantidad <= cantidad {
        items := carrito.items[..k] + carrito.items[k + 1..];
      } else {
        items := carrito.items[k := item.(cantidad := item.cantidad - cantidad)];
      }
      assert items == Decrease(carrito.items, productoId, cantidad);
      carrito := carrito.(items := items);
      StoreCart(carritos, carrito, nextCarritoId, nextItemId, nextItemId);
      carritos := carritos[carritoId := carrito];
      r := Success(carrito);
    }

    /** `eliminarProductoCompletoDelCarrito`: removes the product's line
        whatever its quantity, or fails with NotFound when the cart or the
        line is missing. Returns the saved cart. */
    method EliminarProductoCompletoDelCarrito(carritoId: int, productoId: int) returns (r: Result<Carrito>)
      requires Valid()
      modifies this`carritos
      ensures Valid()
      ensures carritoId !in old(carritos) ==> r == Failure(NotFound(CarritoNoEncontrado(carritoId)))
      ensures carritoId in old(carritos) && IndexOf(old(carritos)[carritoId].items, productoId).None? ==>
        r == Failure(NotFound(ProductoNoEnCarrito(productoId)))
      ensures r.Success? <==> carritoId in old(carritos) && IndexOf(old(carritos)[carritoId].items, productoId).Some?
      ensures r.Failure? ==> carritos == old(carritos)
      ensures r.Success? && carritoId in old(carritos) ==>
        && IndexOf(old(carritos)[carritoId].items, productoId).Some?
        && r.value == old(carritos)[carritoId].(items := Without(old(carritos)[carritoId].items, productoId))
        && carritos == old(carritos)[carritoId := r.value]
    {
      var buscado := BuscarCarritoPorId(carritoId);
      if buscado.Failure? {
        return Failure(buscado.error);
      }
      var carrito := buscado.value;
      var found, k := FindFirst(carrito.items, productoId);
      if !found {
        return Failure(NotFound(ProductoNoEnCarrito(productoId)));
      }
      var items := carrito.items[..k] + carrito.items[k + 1..];
      assert items == Without(carrito.items, productoId);
      carrito := carrito.(items := items);
      StoreCart(carritos, carrito, nextCarritoId, nextItemId, nextItemId);
      carritos := carritos[carritoId := carrito];
      r := Success(carrito);
    }

    /** `vaciarCarrito`: removes every line and keeps the cart, with its id
        and user, or fails with NotFound. Returns the saved cart. */
    method VaciarCarrito(carritoId: int) returns (r: Result<Carrito>)
      requires Valid()
      modifies this`carritos
      ensures Valid()
      ensures r.Success? <==> carritoId in old(carritos)
      ensures r.Failure? ==> r.error == NotFound(CarritoNoEncontrado(carritoId)) && carritos == old(carritos)
      ensures r.Success? ==>
        && r.value == old(carritos)[carritoId].(items := [])
        && carritos == old(carritos)[carritoId := r.value]
        && BuscarCarritoPorId(carritoId) == Success(r.value)
    {
      var buscado := BuscarCarritoPorId(carritoId);
      if buscado.Failure? {
        return Failure(buscado.error);
      }
      var carrito := buscado.value.(items := []);
      carritos := carritos[carritoId := carrito];
      r := Success(carrito);
    }
  }
}
