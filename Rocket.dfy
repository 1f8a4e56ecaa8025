/** The client object of the REST package: construction, the base URL, the random
    message id and the common request step (rest/rocket.go). */
module Rocket {
  import opened Results
  import opened Strings
  import Encoding

  /** The session the login collaborator hands back. */
  datatype AuthInfo = AuthInfo(token: string, id: string)

  /** What the caller passes to NewClient. */
  datatype RocketchatAuth = RocketchatAuth(Host: string, Port: string, Login: string, Passwd: string, TLS: bool)

  /** The client; it is never changed after NewClient returns it. */
  datatype Client = Client(Protocol: string, Host: string, Port: string, Debug: bool, auth: Option<AuthInfo>)

  /** NewClient: the protocol follows the TLS switch, host, port and debug flag are copied,
      and a failed login yields no client, only the login error. The login exchange itself
      is a collaborator: `login` is what it returned. */
  function NewClient(auth: RocketchatAuth, debug: bool, login: Result<AuthInfo>): (r: Result<Client>)
    ensures r.Err? <==> login.Err?
    ensures r.Err? ==> r.error == login.error
    ensures r.Ok? ==> r.value.Protocol == (if auth.TLS then "https" else "http")
    ensures r.Ok? ==> r.value.Host == auth.Host && r.value.Port == auth.Port && r.value.Debug == debug
    ensures r.Ok? ==> r.value.auth == Some(login.value)
  {
    var protocol := if auth.TLS then "https" else "http";
    match login
    case Err(e) => Err(e)
    case Ok(session) => Ok(Client(protocol, auth.Host, auth.Port, debug, Some(session)))
  }

  /** getUrl: "<protocol>://<host>:<port>". */
  function GetUrl(c: Client): string {
    c.Protocol + "://" + c.Host + ":" + c.Port
  }

  datatype UrlParts = UrlParts(protocol: string, host: string, port: string)

  /** Reads a base URL back into its parts: the protocol ends at the first ':', which
      must be followed by "//"; the host ends at the next ':'; the rest is the port. */
  function ParseUrl(u: string): (r: Option<UrlParts>)
    ensures r.Some? ==> ':' !in r.value.protocol && ':' !in r.value.host
  {
    match SplitAt(u, ':')
    case None => None
    case Some((protocol, rest)) =>
      if !HasPrefix(rest, "//") then None
      else match SplitAt(rest[2..], ':')
        case None => None
        case Some((host, port)) => Some(UrlParts(protocol, host, port))
  }

  /** The base URL determines protocol, host and port, as long as neither the protocol
      nor the host contains a ':' (the port may contain anything). */
  lemma UrlRoundTrip(c: Client)
    requires ':' !in c.Protocol && ':' !in c.Host
    ensures ParseUrl(GetUrl(c)) == Some(UrlParts(c.Protocol, c.Host, c.Port))
  {
    var hostPort := c.Host + [':'] + c.Port;
    var rest := "//" + hostPort;
    assert GetUrl(c) == c.Protocol + [':'] + rest;
    SplitAtJoin(c.Protocol, ':', rest);
    assert HasPrefix(rest, "//") && rest[2..] == hostPort;
    SplitAtJoin(c.Host, ':', c.Port);
  }

  /** The base URL of a client speaking http or https starts with "https://" exactly
      for https. */
  lemma UrlScheme(c: Client)
    requires c.Protocol == "https" || c.Protocol == "http"
    ensures HasPrefix(GetUrl(c), "https://") <==> c.Protocol == "https"
  {
    var u := GetUrl(c);
    if c.Protocol == "https" {
      assert u[..8] == "https://";
    } else {
      assert u[4] == ':';
      assert "https://"[4] == 's';
    }
  }

  /** The URL of a freshly built client starts with "https://" exactly when TLS was asked for,
      and carries the caller's host and port. */
  lemma NewClientUrl(auth: RocketchatAuth, debug: bool, login: Result<AuthInfo>)
    requires login.Ok? && ':' !in auth.Host
    ensures NewClient(auth, debug, login).Ok?
    ensures HasPrefix(GetUrl(NewClient(auth, debug, login).value), "https://") <==> auth.TLS
    ensures ParseUrl(GetUrl(NewClient(auth, debug, login).value))
         == Some(UrlParts(if auth.TLS then "https" else "http", auth.Host, auth.Port))
  {
    var c := NewClient(auth, debug, login).value;
    assert ':' !in c.Protocol by {
      assert forall k :: 0 <= k < |c.Protocol| ==> c.Protocol[k] != ':';
    }
    UrlRoundTrip(c);
    UrlScheme(c);
  }

  // ---------------------------------------------------------------- random ids

  const RandomIdBytes: nat := 17

  /** The 17 bytes GetRandomId draws from crypto/rand. */
  type RandomBlock = b: seq<Encoding.byte> | |b| == RandomIdBytes
    witness seq(RandomIdBytes, _ => 0 as Encoding.byte)

  /** GetRandomId: the lowercase hex of the drawn bytes, 34 characters, two per byte. */
  function GetRandomId(random: RandomBlock): (id: string)
    ensures |id| == 2 * RandomIdBytes == 34
    ensures Encoding.IsLowerHex(id)
    ensures Encoding.HexDecode(id) == Some(random)
  {
    Encoding.HexRoundTrip(random);
    Encoding.HexEncode(random)
  }

  // ---------------------------------------------------------------- doRequest

  const StatusOK: int := 200
  const AuthTokenHeader := "X-Auth-Token"
  const UserIdHeader := "X-User-Id"

  /** An outgoing HTTP request; only its header map is changed once it exists. */
  class Request {
    const verb: string
    const url: string
    var header: map<string, string>

    constructor (verb: string, url: string)
      ensures this.verb == verb && this.url == url && header == map[]
    {
      this.verb := verb;
      this.url := url;
      header := map[];
    }
  }

  /** What the transport produced: the status line and the outcome of reading the body. */
  datatype HttpResponse = HttpResponse(statusCode: int, status: string, body: Result<seq<Encoding.byte>>)

  /** The decision doRequest takes on an exchange: a transport error is returned as is;
      any status other than 200 is an error whatever the body; then a read error; and only
      then is the body decoded. */
  function RequestOutcome<T>(exchange: Result<HttpResponse>, decode: seq<Encoding.byte> -> Result<T>): (r: Result<T>)
    ensures exchange.Err? ==> r == Err(exchange.error)
    ensures exchange.Ok? && exchange.value.statusCode != StatusOK ==> r == Err(Status(exchange.value.status))
    ensures r.Ok? ==> exchange.Ok? && exchange.value.statusCode == StatusOK && exchange.value.body.Ok?
                      && r == decode(exchange.value.body.value)
    ensures exchange.Ok? && exchange.value.statusCode == StatusOK ==>
              r == (if exchange.value.body.Err? then Err(exchange.value.body.error)
                    else decode(exchange.value.body.value))
  {
    match exchange
    case Err(e) => Err(e)
    case Ok(response) =>
      if response.statusCode != StatusOK then Err(Status(response.status))
      else match response.body
        case Err(e) => Err(e)
        case Ok(bytes) => decode(bytes)
  }

  /** The header map after doRequest has attached the session, if there is one. */
  function WithSession(header: map<string, string>, auth: Option<AuthInfo>): (h: map<string, string>)
    ensures auth.None? ==> h == header
    ensures auth.Some? ==> h.Keys == header.Keys + {AuthTokenHeader, UserIdHeader}
                           && h[AuthTokenHeader] == auth.value.token && h[UserIdHeader] == auth.value.id
    ensures forall k :: k in header && k != AuthTokenHeader && k != UserIdHeader ==> k in h && h[k] == header[k]
  {
    match auth
    case None => header
    case Some(a) => header[AuthTokenHeader := a.token][UserIdHeader := a.id]
  }

  /** doRequest: sets the two session headers when the client holds a session, then sends
      the request and judges the exchange. `exchange` is what the HTTP transport returned
      and `decode` is json.Unmarshal into the caller's response type. */
  method DoRequest<T>(c: Client, request: Request, exchange: Result<HttpResponse>,
                      decode: seq<Encoding.byte> -> Result<T>) returns (r: Result<T>)
    modifies request
    ensures request.header == WithSession(old(request.header), c.auth)
    ensures r == RequestOutcome(exchange, decode)
  {
    if c.auth.Some? {
      request.header := request.header[AuthTokenHeader := c.auth.value.token];
      request.header := request.header[UserIdHeader := c.auth.value.id];
    }

    if exchange.Err? {
      return Err(exchange.error);
    }
    var response := exchange.value;
    if response.statusCode != StatusOK {
      return Err(Status(response.status));
    }
    if response.body.Err? {
      return Err(response.body.error);
    }
    r := decode(response.body.value);
  }
}
