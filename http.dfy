/**
 * The HTTP vocabulary shared by the services and the components. The network
 * and axios are not modelled: every call a component or service makes is
 * recorded in a `Backend` log, and its outcome is an input of the operation
 * that makes it, as the response the server (after the interceptor chain of
 * module `Api`) delivered. The session calls of `AuthService` instead go
 * through `Api.ApiClient`, whose token writes they state.
 */
module Http {
  import opened Wrappers
  import opened Decimal

  datatype Verb = GET | POST | PATCH | DELETE

  /**
   * JSON values as the application sends them. A field left `undefined` in
   * a payload is absent from the map, as `JSON.stringify` drops it. Numbers
   * that are not integers keep their source text: floating point is not
   * modelled.
   */
  datatype Json = JNull | JBool(b: bool) | JInt(i: int) | JStr(s: string) | JNumberText(text: string)

  type JsonObject = map<string, Json>

  /** A file chosen in a file input. */
  datatype FileRef = FileRef(name: string, size: nat)

  /** One entry of a `FormData`. */
  datatype Part = FilePart(file: FileRef) | TextPart(text: string)

  datatype Payload = NoBody | JsonBody(fields: JsonObject) | FormBody(parts: seq<(string, Part)>)

  /**
   * A request as issued: the verb, the path relative to the API base URL, the
   * query parameters handed to axios as `params`, and the body.
   */
  datatype Call = Call(verb: Verb, path: string, params: seq<(string, string)>, payload: Payload)

  /**
   * A rejected call: an HTTP error response whose body may carry `detail`
   * and `error` messages (the empty string standing for a missing one), or
   * a failure without any response.
   */
  datatype Failure = HttpError(status: int, detail: string, error: string) | NoResponse

  /** `err.response?.data?.detail || fallback`. */
  function DetailOr(f: Failure, fallback: string): (msg: string)
    ensures f.HttpError? && f.detail != "" ==> msg == f.detail
    ensures !(f.HttpError? && f.detail != "") ==> msg == fallback
  {
    if f.HttpError? && f.detail != "" then f.detail else fallback
  }

  /** The requests the backend has received, oldest first. */
  class Backend {
    var calls: seq<Call>

    constructor ()
      ensures calls == []
    {
      calls := [];
    }

    method Issue(c: Call)
      modifies this
      ensures calls == old(calls) + [c]
    {
      calls := calls + [c];
    }
  }

  /** `${collection}${id}/`: the address of one resource of a collection. */
  function ResourcePath(collection: string, id: int): (path: string)
    ensures |path| > |collection| + 1
    ensures path[..|collection|] == collection && path[|path| - 1] == '/'
  {
    collection + IntToString(id) + "/"
  }

  /** The id named by a resource path of `collection`, if it is one. */
  function ResourceId(collection: string, path: string): Option<int> {
    if |path| > |collection| && path[..|collection|] == collection && path[|path| - 1] == '/' then
      ParseInt(path[|collection|..|path| - 1])
    else None
  }

  /** A resource path names exactly the id it was built from. */
  lemma ResourcePathRoundTrip(collection: string, id: int)
    ensures ResourceId(collection, ResourcePath(collection, id)) == Some(id)
  {
    var path := ResourcePath(collection, id);
    assert path[|collection|..|path| - 1] == IntToString(id);
    IntToStringRoundTrip(id);
  }

  /** Distinct ids address distinct resources. */
  lemma ResourcePathInjective(collection: string, a: int, b: int)
    requires ResourcePath(collection, a) == ResourcePath(collection, b)
    ensures a == b
  {
    ResourcePathRoundTrip(collection, a);
    ResourcePathRoundTrip(collection, b);
  }

  /** `${collection}${id}/${action}/`: an action on one resource. */
  function ActionPath(collection: string, id: int, action: string): (path: string)
    ensures path == ResourcePath(collection, id) + action + "/"
  {
    collection + IntToString(id) + "/" + action + "/"
  }
}
