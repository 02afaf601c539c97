/** Client code of the cart service, verified against the contracts alone,
    with fixed collaborators. It follows the service's unit tests and the
    sequence: create a cart, add 3 units of a product, add 2 more (one line of
    5), remove 5 (no line left). */
module Scenarios {
  import opened Outcomes
  import opened CartItems
  import Remote
  import Usuarios
  import Productos
  import Carritos
  import Decimal

  /** A user service that knows user 42 only, and a product service that
      knows product 7, with 10 units in stock. */
  method Fixture() returns (service: Carritos.CarritoService)
    ensures fresh(service) && service.Valid() && service.carritos == map[]
    ensures service.nextCarritoId == 1 && service.nextItemId == 1
    ensures fresh(service.usuarios) && fresh(service.productos)
    ensures service.usuarios.requests == [] && service.productos.requests == []
    ensures forall id :: (service.usuarios.answer(id) ==
      if id == 42 then Remote.Found(Usuarios.Usuario(42, "Carlos Bittner", "car.bittner@duocuc.cl", "CLIENTE"))
      else Remote.Missing)
    ensures forall id :: (service.productos.answer(id) ==
      if id == 7 then Remote.Found(Productos.Producto(7, "Halloween Man", 10)) else Remote.Missing)
  {
    var usuarios := new Remote.Collaborator<Usuarios.Usuario>((id: int) =>
      if id == 42 then Remote.Found(Usuarios.Usuario(42, "Carlos Bittner", "car.bittner@duocuc.cl", "CLIENTE"))
      else Remote.Missing);
    var productos := new Remote.Collaborator<Productos.Producto>((id: int) =>
      if id == 7 then Remote.Found(Productos.Producto(7, "Halloween Man", 10)) else Remote.Missing);
    service := new Carritos.CarritoService(usuarios, productos);
  }

  /** Create a cart for user 42, add 3 of product 7, add 2 more (the line
      merges to 5), remove 5 (the cart is empty again). */
  method AddAddRemove()
  {
    var service := Fixture();
    var creado := service.CrearNuevoCarrito(42);
    assert creado == Success(Carritos.Carrito(1, 42, []));

    var primero := service.AgregarProductoAlCarrito(1, 7, 3);
    assert primero == Success(CarritoItem(1, 7, 3));
    assert service.carritos[1].items == [CarritoItem(1, 7, 3)];

    var segundo := service.AgregarProductoAlCarrito(1, 7, 2);
    assert segundo == Success(CarritoItem(1, 7, 5));
    assert service.carritos[1].items == [CarritoItem(1, 7, 5)];

    var quitado := service.EliminarProductoDelCarrito(1, 7, 5);
    assert quitado == Success(Carritos.Carrito(1, 42, []));
  }

  /** Creating a cart for a user the user service answers 404 for. */
  method UnknownUser()
  {
    var service := Fixture();
    var r := service.CrearNuevoCarrito(1);
    assert r == Failure(NotFound(Carritos.UsuarioNoExiste(1)));
    assert service.carritos == map[];
  }

  /** Looking up, deleting and adding to cart 99, which does not exist. */
  method UnknownCart()
  {
    var service := Fixture();
    var buscado := service.BuscarCarritoPorId(99);
    assert buscado == Failure(NotFound(Carritos.CarritoNoEncontrado(99)));

    var eliminado := service.EliminarCarrito(99);
    assert eliminado == Fail(NotFound(Carritos.NoSePuedeEliminar(99)));

    var agregado := service.AgregarProductoAlCarrito(99, 1, 1);
    assert agregado == Failure(NotFound(Carritos.CarritoNoEncontrado(99)));
    assert service.productos.requests == [];
  }

  /** Adding an unknown product, a zero quantity and more than the stock. */
  method RejectedAdds()
  {
    var service := Fixture();
    var creado := service.CrearNuevoCarrito(42);

    var sinProducto := service.AgregarProductoAlCarrito(1, 1, 1);
    assert sinProducto == Failure(NotFound(Carritos.ProductoNoEncontrado(1)));

    var cero := service.AgregarProductoAlCarrito(1, 7, 0);
    assert cero == Failure(InvalidArgument(Carritos.CantidadNoPositiva));

    var demasiado := service.AgregarProductoAlCarrito(1, 7, 11);
    assert demasiado == Failure(InvalidArgument(Carritos.StockInsuficiente("Halloween Man", 10)));
    assert service.carritos[1].items == [];
  }

  /** The messages above, as the unit tests spell them out. */
  lemma UnknownCartMessages()
    ensures Carritos.CarritoNoEncontrado(99) == "Carrito no encontrado con ID: 99"
    ensures Carritos.NoSePuedeEliminar(99) == "No se puede eliminar. Carrito no encontrado con ID: 99"
  {
    assert Decimal.Text(99) == "99";
  }

  lemma UnknownProductMessage()
    ensures Carritos.ProductoNoEncontrado(1) == "Producto no encontrado con ID: 1"
  {
    assert Decimal.Text(1) == "1";
  }
}
