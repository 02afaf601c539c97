/** The user service: a keyed store of users (UsuarioService over its JPA
    repository). */
module Usuarios {
  import opened Outcomes
  import Decimal
  import Keyed

  datatype Usuario = Usuario(id: int, nombre: string, correo: string, rol: string)

  function NoEncontrado(id: int): string
  {
    "Usuario no encontrado con ID: " + Decimal.Text(id)
  }

  function NoSePuedeEliminar(id: int): string
  {
    "No se puede eliminar. Usuario no encontrado con ID: " + Decimal.Text(id)
  }

  /** Each error message names exactly the id it was raised for. */
  lemma MessagesNameOneId(a: int, b: int)
    ensures NoEncontrado(a) == NoEncontrado(b) <==> a == b
    ensures NoSePuedeEliminar(a) == NoSePuedeEliminar(b) <==> a == b
  {
    Decimal.EmbeddedInjective("Usuario no encontrado con ID: ", a, b, "");
    Decimal.EmbeddedInjective("No se puede eliminar. Usuario no encontrado con ID: ", a, b, "");
  }

  class UsuarioService {
    /** The user table, by id. */
    var repo: map<int, Usuario>
    /** The next id the table's identity column hands out. */
    var nextId: int

    ghost predicate Valid()
      reads this
    {
      && nextId >= 1
      && Keyed.KeyedById(repo, (u: Usuario) => u.id)
      && forall id :: id in repo ==> 1 <= id < nextId
    }

    constructor ()
      ensures Valid() && repo == map[] && nextId == 1
    {
      repo := map[];
      nextId := 1;
    }

    /** `listar`: every stored user, each once. */
    function Listar(): (r: set<Usuario>)
      reads this
      requires Valid()
      ensures forall u :: u in r <==> u.id in repo && repo[u.id] == u
      ensures |r| == |repo|
    {
      Keyed.ValuesByKey(repo, (u: Usuario) => u.id);
      Keyed.ValuesCount(repo, (u: Usuario) => u.id);
      repo.Values
    }

    /** `buscar`: the stored user, or NotFound naming the id. */
    function Buscar(id: int): (r: Result<Usuario>)
      reads this
      ensures r.Success? <==> id in repo
      ensures r.Success? ==> r.value == repo[id]
      ensures r.Failure? ==> r.error == NotFound(NoEncontrado(id))
    {
      if id in repo then Success(repo[id]) else Failure(NotFound(NoEncontrado(id)))
    }

    /** `guardar`: a user whose id is stored is overwritten; any other user
        (id 0 included) is inserted under a freshly generated id. The saved
        user keeps every other field. */
    method Guardar(u: Usuario) returns (saved: Usuario)
      requires Valid()
      modifies this
      ensures Valid()
      ensures saved == u.(id := if u.id in old(repo) then u.id else old(nextId))
      ensures u.id !in old(repo) ==> saved.id !in old(repo)
      ensures repo == old(repo)[saved.id := saved]
      ensures nextId == if u.id in old(repo) then old(nextId) else old(nextId) + 1
      ensures Buscar(saved.id) == Success(saved)
    {
      if u.id in repo {
        saved := u;
      } else {
        saved := u.(id := nextId);
        nextId := nextId + 1;
      }
      repo := repo[saved.id := saved];
    }

    /** `eliminar`: removes exactly the user with that id, or fails with
        NotFound and changes nothing. */
    method Eliminar(id: int) returns (r: Outcome)
      requires Valid()
      modifies this`repo
      ensures Valid()
      ensures r.Pass? <==> id in old(repo)
      ensures r.Fail? ==> r.error == NotFound(NoSePuedeEliminar(id))
      ensures repo == old(repo) - {id}
      ensures Buscar(id).Failure?
    {
      if id !in repo {
        return Fail(NotFound(NoSePuedeEliminar(id)));
      }
      repo := repo - {id};
      r := Pass;
    }
  }
}
