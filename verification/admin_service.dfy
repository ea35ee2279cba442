/** The service layer (src/services/adminService.js): fetchWithAuth, which attaches
    the bearer token and runs one refresh-and-retry cycle on a 401, and the calls
    built on it. Every fetch is an abstract input (a Reply); the requests that go
    out are recorded, in order, so that what was sent can be stated. */
module AdminService {
  import opened Web

  const AdminApiBaseUrl := "http://localhost:8086/admin/producers"
  const LoginApiBaseUrl := "http://localhost:8081/auth"

  /** The `options` a caller passes to fetchWithAuth. */
  datatype Options = Options(verb: string, headers: map<string, string>, body: Option<string>)

  /** One authenticated call: where it goes and with which options. */
  datatype Call = Call(url: string, options: Options)

  /** The JSON body of a successful refresh. */
  datatype Tokens = Tokens(accessToken: string, refreshToken: string)

  /** The replies to the (at most) three fetches of one fetchWithAuth call: the
      original request, the refresh call and the retry. A reply that is never
      asked for is ignored. */
  datatype Exchanges<T> = Exchanges(first: Reply<T>, refresh: Reply<Tokens>, retry: Reply<T>)

  /** What one fetchWithAuth call leaves behind: the store, the settled promise,
      the requests sent, and whether the page was sent back to the login. */
  datatype Cycle<T> = Cycle(store: Store, outcome: Result<Response<T>>, sent: seq<Request>, redirected: bool)

  // ---------------------------------------------------------------- headers

  /** The template `Bearer ${accessToken}`: a missing token prints as "null". */
  function Bearer(token: Option<string>): string {
    "Bearer " + (if token.Some? then token.value else "null")
  }

  /** `headers['Content-Type']` is truthy. */
  predicate HasContentType(h: map<string, string>) {
    "Content-Type" in h && h["Content-Type"] != ""
  }

  /** The headers of the outbound request: the bearer token, overridden by any
      caller header of the same name, and a JSON content type when a body is sent
      without one. */
  function BuildHeaders(access: Option<string>, opts: Options): (h: map<string, string>)
    ensures "Authorization" in h
    ensures h["Authorization"] == if "Authorization" in opts.headers then opts.headers["Authorization"] else Bearer(access)
    ensures HasContentType(opts.headers) ==> "Content-Type" in h && h["Content-Type"] == opts.headers["Content-Type"]
    ensures !HasContentType(opts.headers) && Truthy(opts.body) ==> "Content-Type" in h && h["Content-Type"] == "application/json"
    ensures forall k :: k in opts.headers && (k != "Content-Type" || HasContentType(opts.headers) || !Truthy(opts.body))
                        ==> k in h && h[k] == opts.headers[k]
    ensures forall k :: k in h ==> k in opts.headers || k == "Authorization" || (k == "Content-Type" && Truthy(opts.body))
  {
    var merged := map["Authorization" := Bearer(access)] + opts.headers;
    if !HasContentType(merged) && Truthy(opts.body) then merged["Content-Type" := "application/json"] else merged
  }

  /** The request fetchWithAuth sends first, from the store as it finds it. */
  function Outbound(s: Store, call: Call): Request {
    Request(call.url, call.options.verb, BuildHeaders(s.access, call.options), call.options.body)
  }

  /** The refresh call: a JSON POST of the refresh token (JSON string escaping is not modelled). */
  function RefreshRequest(refreshToken: string): Request {
    Request(LoginApiBaseUrl + "/refresh", "POST", map["Content-Type" := "application/json"],
            Some("{\"refreshToken\":\"" + refreshToken + "\"}"))
  }

  predicate Unauthorized<T>(r: Reply<T>) {
    r.Answered? && r.response.status == 401
  }

  /** The refresh call answered ok with a readable token pair. */
  predicate RefreshGranted(r: Reply<Tokens>) {
    r.Answered? && IsOk(r.response.status) && r.response.json.Some?
  }

  // ---------------------------------------------------------------- fetchWithAuth

  /** The effect of one fetchWithAuth call, starting from store `s`. */
  function AuthExchange<T>(s: Store, call: Call, net: Exchanges<T>): (c: Cycle<T>)
    // the original request always goes out first, carrying the stored access token
    ensures 1 <= |c.sent| <= 3 && c.sent[0] == Outbound(s, call)
    // a response other than 401 is returned as it is, after a single fetch, store untouched
    ensures net.first.Answered? && net.first.response.status != 401 ==>
              c == Cycle(s, Ok(net.first.response), [Outbound(s, call)], false)
    // a transport failure of the first fetch escapes the try block: store untouched
    ensures net.first.NetworkError? ==> c == Cycle(s, Err(TransportFailure), [Outbound(s, call)], false)
    // a 401 with no refresh token: no refresh call, both keys removed, rejected
    ensures Unauthorized(net.first) && !Truthy(s.refresh) ==>
              c == Cycle(Cleared, Err(SessionInvalid), [Outbound(s, call)], true)
    // a 401 with a refresh token: the refresh call is the second fetch
    ensures Unauthorized(net.first) && Truthy(s.refresh) ==>
              |c.sent| >= 2 && c.sent[1] == RefreshRequest(s.refresh.value)
    // a granted refresh stores the new pair and retries once with the new token;
    // whatever the retry answers, a second 401 included, is returned
    ensures Unauthorized(net.first) && Truthy(s.refresh) && RefreshGranted(net.refresh) && net.retry.Answered? ==>
              var t := net.refresh.response.json.value;
              && c.store == Store(Some(t.accessToken), Some(t.refreshToken))
              && c.outcome == Ok(net.retry.response)
              && |c.sent| == 3
              && c.sent[2] == c.sent[0].(headers := c.sent[0].headers["Authorization" := "Bearer " + t.accessToken])
              && !c.redirected
    // every other way through the refresh path ends the session
    ensures Unauthorized(net.first) && Truthy(s.refresh) && !(RefreshGranted(net.refresh) && net.retry.Answered?) ==>
              c.store == Cleared && c.outcome == Err(SessionInvalid) && c.redirected
    // a refused refresh sends no retry; a granted one always sends it, even if it then fails in transport
    ensures Unauthorized(net.first) && Truthy(s.refresh) && !RefreshGranted(net.refresh) ==> |c.sent| == 2
    ensures Unauthorized(net.first) && Truthy(s.refresh) && RefreshGranted(net.refresh) ==>
              |c.sent| == 3 && c.sent[2] == c.sent[0].(headers := c.sent[0].headers["Authorization" := "Bearer " + net.refresh.response.json.value.accessToken])
    // the session is invalidated exactly when the call is rejected as such, and then the store is empty
    ensures c.redirected <==> c.outcome == Err(SessionInvalid)
    ensures c.redirected ==> c.store == Cleared
    ensures c.outcome.Err? ==> c.outcome.fault == TransportFailure || c.outcome.fault == SessionInvalid
  {
    var req := Outbound(s, call);
    match net.first
    case NetworkError => Cycle(s, Err(TransportFailure), [req], false)
    case Answered(resp) =>
      if resp.status != 401 then Cycle(s, Ok(resp), [req], false)
      else if !Truthy(s.refresh) then Cycle(Cleared, Err(SessionInvalid), [req], true)
      else
        var refreshReq := RefreshRequest(s.refresh.value);
        if !RefreshGranted(net.refresh) then Cycle(Cleared, Err(SessionInvalid), [req, refreshReq], true)
        else
          var t := net.refresh.response.json.value;
          var retryReq := req.(headers := req.headers["Authorization" := "Bearer " + t.accessToken]);
          match net.retry
          case NetworkError => Cycle(Cleared, Err(SessionInvalid), [req, refreshReq, retryReq], true)
          case Answered(again) => Cycle(Store(Some(t.accessToken), Some(t.refreshToken)), Ok(again), [req, refreshReq, retryReq], false)
  }

  /** window.location.href after the call. */
  function Landing<T>(location: string, c: Cycle<T>): string {
    if c.redirected then "/" else location
  }

  /** fetchWithAuth (adminService.js:13-58), step by step on the browser's storage. */
  method FetchWithAuth<T>(b: Browser, call: Call, net: Exchanges<T>) returns (outcome: Result<Response<T>>, sent: seq<Request>)
    modifies b
    ensures var c := AuthExchange(old(b.store), call, net);
            && outcome == c.outcome && sent == c.sent
            && b.store == c.store && b.location == Landing(old(b.location), c)
  {
    var accessToken := b.GetItem(AccessToken);
    var headers := BuildHeaders(accessToken, call.options);
    var request := Request(call.url, call.options.verb, headers, call.options.body);
    sent := [request];
    if net.first.NetworkError? {
      return Err(TransportFailure), sent;
    }
    var response := net.first.response;
    if response.status == 401 {
      // the try block: `completed` is false when it throws
      var completed := false;
      var refreshToken := b.GetItem(RefreshToken);
      if Truthy(refreshToken) {
        sent := sent + [RefreshRequest(refreshToken.value)];
        if RefreshGranted(net.refresh) {
          var newTokens := net.refresh.response.json.value;
          b.SetItem(AccessToken, newTokens.accessToken);
          b.SetItem(RefreshToken, newTokens.refreshToken);
          request := request.(headers := request.headers["Authorization" := "Bearer " + newTokens.accessToken]);
          sent := sent + [request];
          if net.retry.Answered? {
            response := net.retry.response;
            completed := true;
          }
        }
      }
      if !completed {
        // the catch block
        b.RemoveItem(AccessToken);
        b.RemoveItem(RefreshToken);
        b.Navigate("/");
        return Err(SessionInvalid), sent;
      }
    }
    outcome := Ok(response);
  }

  // ---------------------------------------------------------------- reading responses

  /** `if (!response.ok) throw ...; return await response.json();` */
  function ReadJson<T>(o: Result<Response<T>>): (r: Result<T>)
    ensures r.Ok? <==> o.Ok? && IsOk(o.value.status) && o.value.json.Some?
    ensures r.Ok? ==> r.value == o.value.json.value
    ensures o.Err? ==> r == Err(o.fault)
    ensures o.Ok? && !IsOk(o.value.status) ==> r == Err(HttpFailure(o.value.status))
  {
    match o
    case Err(f) => Err(f)
    case Ok(resp) =>
      if !IsOk(resp.status) then Err(HttpFailure(resp.status))
      else if resp.json.None? then Err(MalformedBody)
      else Ok(resp.json.value)
  }

  /** `if (response.status !== 204) throw ...`: only 204 counts as success. */
  function RequireNoContent<T>(o: Result<Response<T>>): (r: Result<()>)
    ensures r.Ok? <==> o.Ok? && o.value.status == 204
    ensures o.Err? ==> r == Err(o.fault)
    ensures o.Ok? && o.value.status != 204 ==> r == Err(HttpFailure(o.value.status))
  {
    match o
    case Err(f) => Err(f)
    case Ok(resp) => if resp.status == 204 then Ok(()) else Err(HttpFailure(resp.status))
  }

  // ---------------------------------------------------------------- proposals

  datatype Status = Pending | Approved | Rejected

  function StatusName(s: Status): string {
    match s
    case Pending => "PENDING"
    case Approved => "APPROVED"
    case Rejected => "REJECTED"
  }

  /** One row of the listing endpoint; a field may be missing (None). */
  datatype Row = Row(userId: Option<string>, userName: Option<string>, email: Option<string>, sentAt: Option<string>)

  datatype Unidade = Unidade(nome: string, status: string)

  /** A proposal as the pages see it. `unidades` is None when it is not an array. */
  datatype Proposta = Proposta(userId: string, nome: string, email: string, enviadoEm: string,
                               tipo: string, status: Status, unidades: Option<seq<Unidade>>)

  const NomePlaceholder := "Nome não informado"
  const EmailPlaceholder := "E-mail não informado"
  const DataPlaceholder := "Data não informada"

  /** The JavaScript `value || fallback`. */
  function OrElse(v: Option<string>, fallback: string): (r: string)
    ensures Truthy(v) ==> r == v.value
    ensures !Truthy(v) ==> r == fallback
  {
    if Truthy(v) then v.value else fallback
  }

  /** One row mapped to a proposal of the queried status; `draw` is the text of the
      Math.random() value used for a missing userId. */
  function ToProposta(row: Row, status: Status, draw: string): (p: Proposta)
    ensures p.status == status && p.tipo == "novo_produtor" && p.unidades.None?
    ensures Truthy(row.userId) ==> p.userId == row.userId.value
    ensures !Truthy(row.userId) ==> p.userId == "id-" + draw
    ensures p.nome == (if Truthy(row.userName) then row.userName.value else NomePlaceholder)
    ensures p.email == (if Truthy(row.email) then row.email.value else EmailPlaceholder)
    ensures p.enviadoEm == (if Truthy(row.sentAt) then row.sentAt.value else DataPlaceholder)
    // no displayed field is ever empty
    ensures p.userId != "" && p.nome != "" && p.email != "" && p.enviadoEm != ""
  {
    Proposta(OrElse(row.userId, "id-" + draw), OrElse(row.userName, NomePlaceholder),
             OrElse(row.email, EmailPlaceholder), OrElse(row.sentAt, DataPlaceholder),
             "novo_produtor", status, None)
  }

  /** `data.map(...)`: one proposal per row, in the same order. */
  function MapRows(rows: seq<Row>, status: Status, draws: nat -> string): (ps: seq<Proposta>)
    ensures |ps| == |rows|
    ensures forall i :: 0 <= i < |rows| ==> ps[i] == ToProposta(rows[i], status, draws(i))
    ensures forall p :: p in ps ==> p.status == status && p.tipo == "novo_produtor"
  {
    seq(|rows|, i requires 0 <= i < |rows| => ToProposta(rows[i], status, draws(i)))
  }

  function ListingCall(status: Status): Call {
    Call(AdminApiBaseUrl + "?status=" + StatusName(status), Options("GET", map[], None))
  }

  /** getPropostas (adminService.js:65-79). */
  method GetPropostas(b: Browser, status: Status, net: Exchanges<seq<Row>>, draws: nat -> string)
    returns (r: Result<seq<Proposta>>, sent: seq<Request>)
    modifies b
    ensures var c := AuthExchange(old(b.store), ListingCall(status), net);
            && sent == c.sent && b.store == c.store && b.location == Landing(old(b.location), c)
            && r == match ReadJson(c.outcome)
                    case Ok(rows) => Ok(MapRows(rows, status, draws))
                    case Err(f) => Err(f)
  {
    var response;
    response, sent := FetchWithAuth(b, ListingCall(status), net);
    var data := ReadJson(response);
    if data.Err? {
      return Err(data.fault), sent;
    }
    r := Ok(MapRows(data.value, status, draws));
  }

  // ---------------------------------------------------------------- approve / reject

  /** The approve call: a POST with no body, so no content type is added. */
  function ApproveCall(userId: string): (c: Call)
    ensures c.options.verb == "POST" && c.options.body.None?
    ensures forall access :: "Content-Type" !in BuildHeaders(access, c.options)
  {
    Call(AdminApiBaseUrl + "/" + userId + "/approve", Options("POST", map[], None))
  }

  /** The reject call: the raw reason as a text/plain body; the explicit content
      type survives header building. */
  function RejectCall(userId: string, reason: string): (c: Call)
    ensures c.options.verb == "POST" && c.options.body == Some(reason)
    ensures forall access :: var h := BuildHeaders(access, c.options);
              "Content-Type" in h && h["Content-Type"] == "text/plain" && h["Authorization"] == Bearer(access)
  {
    Call(AdminApiBaseUrl + "/" + userId + "/reject", Options("POST", map["Content-Type" := "text/plain"], Some(reason)))
  }

  /** approveProducer (adminService.js:85-88). */
  method ApproveProducer(b: Browser, userId: string, net: Exchanges<()>) returns (r: Result<()>, sent: seq<Request>)
    modifies b
    ensures var c := AuthExchange(old(b.store), ApproveCall(userId), net);
            && r == RequireNoContent(c.outcome) && sent == c.sent
            && b.store == c.store && b.location == Landing(old(b.location), c)
  {
    var response;
    response, sent := FetchWithAuth(b, ApproveCall(userId), net);
    r := RequireNoContent(response);
  }

  /** rejectProducer (adminService.js:95-102). */
  method RejectProducer(b: Browser, userId: string, reason: string, net: Exchanges<()>) returns (r: Result<()>, sent: seq<Request>)
    modifies b
    ensures var c := AuthExchange(old(b.store), RejectCall(userId, reason), net);
            && r == RequireNoContent(c.outcome) && sent == c.sent
            && b.store == c.store && b.location == Landing(old(b.location), c)
  {
    var response;
    response, sent := FetchWithAuth(b, RejectCall(userId, reason), net);
    r := RequireNoContent(response);
  }

  // ---------------------------------------------------------------- details and login

  function DetailsCall(userId: string): Call {
    Call(AdminApiBaseUrl + "/" + userId, Options("GET", map[], None))
  }

  /** getProducerDetails (adminService.js:109-113). */
  method GetProducerDetails<D>(b: Browser, userId: string, net: Exchanges<D>) returns (r: Result<D>, sent: seq<Request>)
    modifies b
    ensures var c := AuthExchange(old(b.store), DetailsCall(userId), net);
            && r == ReadJson(c.outcome) && sent == c.sent
            && b.store == c.store && b.location == Landing(old(b.location), c)
  {
    var response;
    response, sent := FetchWithAuth(b, DetailsCall(userId), net);
    r := ReadJson(response);
  }

  /** The login reply body; either field may be missing. */
  datatype LoginFields = LoginFields(accessToken: Option<string>, refreshToken: Option<string>)

  /** The login request: a plain fetch, no bearer token (JSON string escaping is not modelled). */
  function LoginRequest(email: string, senha: string): Request {
    Request(LoginApiBaseUrl + "/login", "POST", map["Content-Type" := "application/json"],
            Some("{\"email\":\"" + email + "\",\"senha\":\"" + senha + "\"}"))
  }

  /** login (adminService.js:132-140): rejects unless the response is ok and its body reads. */
  function Login(reply: Reply<LoginFields>): (r: Result<LoginFields>)
    ensures r.Ok? <==> reply.Answered? && IsOk(reply.response.status) && reply.response.json.Some?
    ensures r.Ok? ==> r.value == reply.response.json.value
    ensures reply.NetworkError? ==> r == Err(TransportFailure)
    ensures reply.Answered? && !IsOk(reply.response.status) ==> r == Err(HttpFailure(reply.response.status))
  {
    match reply
    case NetworkError => Err(TransportFailure)
    case Answered(resp) => ReadJson(Ok(resp))
  }
}
