/** The product service: a keyed store of products (ProductoService over its
    JPA repository). */
module Productos {
  import opened Outcomes
  import Decimal
  import Keyed

  /** A product as the store and the cart see it; its `double` price is not
      part of this model. */
  datatype Producto = Producto(id: int, nombre: string, stock: int)

  function NoEncontrado(id: int): string
  {
    "Producto no encontrado con ID: " + Decimal.Text(id)
  }

  /** The message `eliminar` throws; it says "Usuario" although this is the
      product service, and is kept as written. */
  function NoSePuedeEliminar(id: int): string
  {
    "No se puede eliminar. Usuario no encontrado con ID: " + Decimal.Text(id)
  }

  /** Each error message names exactly the id it was raised for. */
  lemma MessagesNameOneId(a: int, b: int)
    ensures NoEncontrado(a) == NoEncontrado(b) <==> a == b
    ensures NoSePuedeEliminar(a) == NoSePuedeEliminar(b) <==> a == b
  {
    Decimal.EmbeddedInjective("Producto no encontrado con ID: ", a, b, "");
    Decimal.EmbeddedInjective("No se puede eliminar. Usuario no encontrado con ID: ", a, b, "");
  }

  class ProductoService {
    /** The product table, by id. */
    var repo: map<int, Producto>
    /** The next id the table's identity column hands out. */
    var nextId: int

    ghost predicate Valid()
      reads this
    {
      && nextId >= 1
      && Keyed.KeyedById(repo, (p: Producto) => p.id)
      && forall id :: id in repo ==> 1 <= id < nextId
    }

    constructor ()
      ensures Valid() && repo == map[] && nextId == 1
    {
      repo := map[];
      nextId := 1;
    }

    /** `listar`: every stored product, each once. */
    function Listar(): (r: set<Producto>)
      reads this
      requires Valid()
      ensures forall p :: p in r <==> p.id in repo && repo[p.id] == p
      ensures |r| == |repo|
    {
      Keyed.ValuesByKey(repo, (p: Producto) => p.id);
      Keyed.ValuesCount(repo, (p: Producto) => p.id);
      repo.Values
    }

    /** `buscarPorId`: the stored product, or NotFound naming the id. */
    function BuscarPorId(id: int): (r: Result<Producto>)
      reads this
      ensures r.Success? <==> id in repo
      ensures r.Success? ==> r.value == repo[id]
      ensures r.Failure? ==> r.error == NotFound(NoEncontrado(id))
    {
      if id in repo then Success(repo[id]) else Failure(NotFound(NoEncontrado(id)))
    }

    /** `guardar`: a product whose id is stored is overwritten; any other
        product (id 0 included) is inserted under a freshly generated id. The
        saved product keeps every other field. */
    method Guardar(p: Producto) returns (saved: Producto)
      requires Valid()
      modifies this
      ensures Valid()
      ensures saved == p.(id := if p.id in old(repo) then p.id else old(nextId))
      ensures p.id !in old(repo) ==> saved.id !in old(repo)
      ensures repo == old(repo)[saved.id := saved]
      ensures nextId == if p.id in old(repo) then old(nextId) else old(nextId) + 1
      ensures BuscarPorId(saved.id) == Success(saved)
    {
      if p.id in repo {
        saved := p;
      } else {
        saved := p.(id := nextId);
        nextId := nextId + 1;
      }
      repo := repo[saved.id := saved];
    }

    /** `eliminar`: removes exactly the product with that id, or fails with
        NotFound and changes nothing. */
    method Eliminar(id: int) returns (r: Outcome)
      requires Valid()
      modifies this`repo
      ensures Valid()
      ensures r.Pass? <==> id in old(repo)
      ensures r.Fail? ==> r.error == NotFound(NoSePuedeEliminar(id))
      ensures repo == old(repo) - {id}
      ensures BuscarPorId(id).Failure?
    {
      if id !in repo {
        return Fail(NotFound(NoSePuedeEliminar(id)));
      }
      repo := repo - {id};
      r := Pass;
    }
  }
}
