/** A collaborator service reached over HTTP (a `RestTemplate.getForObject`
    call). The network is not modelled: the collaborator's answer to each
    id is fixed when it is created, and every request it receives is
    logged, so that contracts can say whether it was consulted. */
module Remote {
  import opened Outcomes

  /** What a lookup can come back with: the record, an HTTP 404, or any other
      failure (another HTTP status, a refused connection, a timeout), with the
      exception's message. */
  datatype Response<T> = Found(record: T) | Missing | Unreachable(detail: string)

  class Collaborator<T> {
    /** The collaborator's answer for each id. */
    const answer: int -> Response<T>
    /** The ids it has been asked about, oldest first. */
    ghost var requests: seq<int>

    constructor (answer: int -> Response<T>)
      ensures this.answer == answer && requests == []
    {
      this.answer := answer;
      requests := [];
    }

    method Get(id: int) returns (r: Response<T>)
      modifies this
      ensures r == answer(id)
      ensures requests == old(requests) + [id]
    {
      r := answer(id);
      requests := requests + [id];
    }
  }

  /** The translation at the service boundary: a 404 becomes NotFound with
      the given message; every other failure becomes Unavailable, whose
      message is the prefix followed by the transport's own message; a
      transport failure is never passed on as such. */
  function Classify<T>(resp: Response<T>, notFound: string, unavailablePrefix: string): (r: Result<T>)
    ensures r.Success? <==> resp.Found?
    ensures resp.Found? ==> r.value == resp.record
    ensures resp.Missing? ==> r == Failure(NotFound(notFound))
    ensures resp.Unreachable? ==> r == Failure(Unavailable(unavailablePrefix + resp.detail))
    ensures r.Failure? ==> (r.error.NotFound? <==> resp.Missing?) && !r.error.InvalidArgument?
  {
    match resp
    case Found(x) => Success(x)
    case Missing => Failure(NotFound(notFound))
    case Unreachable(d) => Failure(Unavailable(unavailablePrefix + d))
  }
}
