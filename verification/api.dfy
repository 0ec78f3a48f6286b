/** The client's request layer (application/frontend/src/utils/api.js):
    one axios instance with a JSON default content type, a request
    interceptor that adds the bearer token, four verb helpers and
    `logout`. The browser's localStorage entry "token" is passed in and
    returned explicitly; the server's reply is an input. */
module Api {

  import opened Wrappers
  import opened Text

  /** The localStorage entry "token": absent, or the stored string. */
  type TokenStore = Option<string>

  datatype Verb = Get | Post | Put | Delete

  /** A file the user picked, as the browser's `File` object. */
  datatype File = File(name: string, contentType: string)

  /** A JavaScript value in a JSON payload. `NumberOf(t)` is the result of
      `Number(t)`, which is not evaluated here. */
  datatype Value = Str(s: string) | Num(n: real) | NumberOf(text: string)

  /** A `FormData` entry: a string, or a file. */
  datatype Part = TextPart(text: string) | FilePart(file: File)

  datatype Body =
    | NoBody
    | JsonBody(fields: map<string, Value>)
    | FormBody(parts: seq<(string, Part)>)

  /** A request as the helper configures it for axios: verb, path, query
      parameters, headers and body. What axios's adapter then puts on the
      wire is not modelled. */
  datatype Request = Request(
    verb: Verb, path: string, params: map<string, Value>,
    headers: map<string, string>, body: Body)

  /** The server's answer, or none at all (a network failure). */
  datatype Response<D> = Answered(status: int, data: D) | NoAnswer

  /** How a verb helper's promise rejects. */
  datatype ApiError<D> = RequestError(status: int, data: D) | NetworkFailure

  /** The request actually sent, and what the helper resolves or rejects
      with. */
  datatype Exchange<D> = Exchange(sent: Request, result: Result<D, ApiError<D>>)

  const ContentType := "Content-Type"
  const Authorization := "Authorization"
  const Json := "application/json"

  /** The instance's default headers. */
  const DefaultHeaders: map<string, string> := map[ContentType := Json]

  /** The request interceptor: a truthy stored token becomes the
      `Authorization` header; nothing else changes. */
  function Intercept(req: Request, store: TokenStore): (r: Request)
    ensures Truthy(store) ==> Authorization in r.headers && r.headers[Authorization] == "Bearer " + store.value
    ensures !Truthy(store) ==> r == req
    ensures r.verb == req.verb && r.path == req.path && r.params == req.params && r.body == req.body
    ensures r.headers.Keys == req.headers.Keys + (if Truthy(store) then {Authorization} else {})
    ensures forall h :: h in req.headers && h != Authorization ==> r.headers[h] == req.headers[h]
  {
    if Truthy(store) then req.(headers := req.headers[Authorization := "Bearer " + store.value]) else req
  }

  /** axios rejects every status outside 2xx. */
  function Settle<D>(resp: Response<D>): (r: Result<D, ApiError<D>>)
    ensures r.Ok? <==> resp.Answered? && 200 <= resp.status < 300
    ensures r.Ok? ==> r.value == resp.data
    ensures resp.Answered? && !(200 <= resp.status < 300) ==> r == Err(RequestError(resp.status, resp.data))
    ensures resp.NoAnswer? ==> r == Err(NetworkFailure)
  {
    match resp
    case NoAnswer => Err(NetworkFailure)
    case Answered(status, data) =>
      if 200 <= status < 300 then Ok(data) else Err(RequestError(status, data))
  }

  function Send<D>(req: Request, store: TokenStore, resp: Response<D>): Exchange<D> {
    Exchange(Intercept(req, store), Settle(resp))
  }

  /** `getData(endpoint, params)`. */
  function GetData<D>(store: TokenStore, endpoint: string, params: map<string, Value>, resp: Response<D>)
    : (r: Exchange<D>)
    ensures r.sent.verb == Get && r.sent.path == endpoint && r.sent.params == params && r.sent.body == NoBody
    ensures ContentType in r.sent.headers && r.sent.headers[ContentType] == Json
    ensures r.result == Settle(resp)
  {
    Send(Request(Get, endpoint, params, DefaultHeaders, NoBody), store, resp)
  }

  /** `postData(endpoint, data)`. */
  function PostData<D>(store: TokenStore, endpoint: string, data: Body, resp: Response<D>): (r: Exchange<D>)
    ensures r.sent.verb == Post && r.sent.path == endpoint && r.sent.params == map[] && r.sent.body == data
    ensures ContentType in r.sent.headers && r.sent.headers[ContentType] == Json
    ensures r.result == Settle(resp)
  {
    Send(Request(Post, endpoint, map[], DefaultHeaders, data), store, resp)
  }

  /** `putData(endpoint, data)`: a `FormData` body goes without the JSON
      content type, so the browser can set the multipart boundary. */
  function PutData<D>(store: TokenStore, endpoint: string, data: Body, resp: Response<D>): (r: Exchange<D>)
    ensures r.sent.verb == Put && r.sent.path == endpoint && r.sent.params == map[] && r.sent.body == data
    ensures data.FormBody? ==> ContentType !in r.sent.headers
    ensures !data.FormBody? ==> ContentType in r.sent.headers && r.sent.headers[ContentType] == Json
    ensures r.result == Settle(resp)
  {
    var headers := if data.FormBody? then DefaultHeaders - {ContentType} else DefaultHeaders;
    Send(Request(Put, endpoint, map[], headers, data), store, resp)
  }

  /** `deleteData(endpoint)`. */
  function DeleteData<D>(store: TokenStore, endpoint: string, resp: Response<D>): (r: Exchange<D>)
    ensures r.sent.verb == Delete && r.sent.path == endpoint && r.sent.params == map[] && r.sent.body == NoBody
    ensures ContentType in r.sent.headers && r.sent.headers[ContentType] == Json
    ensures r.result == Settle(resp)
  {
    Send(Request(Delete, endpoint, map[], DefaultHeaders, NoBody), store, resp)
  }

  /** Whichever helper sends it, a request carries `Bearer <token>` exactly
      when the stored token is truthy. */
  lemma EveryVerbAuthorized<D>(store: TokenStore, endpoint: string, data: Body, resp: Response<D>)
    ensures var sent := [GetData(store, endpoint, map[], resp).sent, PostData(store, endpoint, data, resp).sent,
                         PutData(store, endpoint, data, resp).sent, DeleteData(store, endpoint, resp).sent];
            forall i :: 0 <= i < |sent| ==>
              && (Authorization in sent[i].headers <==> Truthy(store))
              && (Truthy(store) ==> sent[i].headers[Authorization] == "Bearer " + store.value)
  {
  }

  /** `logout`: removes the entry. */
  function Logout(store: TokenStore): (r: TokenStore)
    ensures r.None? && !Truthy(r)
  {
    None
  }

  /** After `logout` no request is authorized, whatever was stored. */
  lemma LogoutDeauthorizes(store: TokenStore, req: Request)
    ensures Intercept(req, Logout(store)) == req
    ensures Logout(Logout(store)) == Logout(store)
  {
  }
}
