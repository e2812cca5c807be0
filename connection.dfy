/** The `Connection` class: a session with an APIC-EM controller. The HTTP exchange
    is abstracted: each call returns the request it sends and takes the controller's
    reply to it, already decoded, as a parameter. */
module ApicEm {
  import opened Json

  const Https := "https://"
  const TicketPath := "/api/v1/ticket"
  const AuthTokenHeader := "X-Auth-Token"

  /** Request headers. `__init__` stores a Python set literal holding one string as its
      placeholder ticket, not a dict, so both shapes occur. */
  datatype Headers = HeaderSet(entries: set<string>) | HeaderDict(fields: map<string, Json>)

  const PlaceholderTicket := HeaderSet({"X-Auth-Token: <your-ticket>"})
  const JsonContentType := HeaderDict(map["Content-Type" := JStr("application/json")])

  datatype Verb = Post | Get

  /** An HTTP request as handed to the transport library. */
  datatype Request = Request(verb: Verb, url: string, headers: Headers, body: Option<Json>)

  /** What the transport library gives back: a connection error, or a status code and decoded content. */
  datatype HttpReply = ConnectionFailed(cause: string) | Reply(status: int, content: Json)

  /** The tuple a call returns: `(False, e)` on a connection error, `(False, "KeyError")`
      when `aaaLogin` catches a KeyError, `(status_code, content)` otherwise. */
  datatype Answer = NoConnection(cause: string) | KeyErrorReported | Answered(status: int, content: Json)

  /** A call either returns an answer or lets an exception escape. */
  datatype Outcome = Returned(answer: Answer) | Raised(error: PyError)

  /** `aaaLogin`'s `except KeyError`: a KeyError becomes a returned answer, any other exception escapes. */
  function Caught(e: PyError): Outcome {
    if e == KeyError then Returned(KeyErrorReported) else Raised(e)
  }

  /** `content["response"]["serviceTicket"]`. */
  function TicketOf(content: Json): (r: Result<Json>)
    ensures r.Ok? <==> content.JObj? && "response" in content.fields
                       && content.fields["response"].JObj? && "serviceTicket" in content.fields["response"].fields
    ensures r.Ok? ==> r.value == content.fields["response"].fields["serviceTicket"]
  {
    match Lookup(content, "response")
    case Err(e) => Err(e)
    case Ok(response) => Lookup(response, "serviceTicket")
  }

  /** What `aaaLogin` makes of a reply: `(False, e)` on a connection error, `(False, "KeyError")`
      when `version` or `response.serviceTicket` is missing, `(status_code, content)` when both
      are there; a TypeError from subscripting a non-dict is not caught and escapes. */
  function LoginOutcome(reply: HttpReply): (o: Outcome)
    ensures o.Returned? && o.answer.Answered? <==>
      reply.Reply? && Lookup(reply.content, "version").Ok? && TicketOf(reply.content).Ok?
    ensures o.Returned? && o.answer.Answered? ==> o.answer == Answered(reply.status, reply.content)
    ensures o.Returned? && o.answer.NoConnection? <==> reply.ConnectionFailed?
    ensures o.Raised? ==> o.error == TypeError
  {
    match reply
    case ConnectionFailed(cause) => Returned(NoConnection(cause))
    case Reply(status, content) =>
      match Lookup(content, "version")
      case Err(e) => Caught(e)
      case Ok(_) =>
        match TicketOf(content)
        case Err(e) => Caught(e)
        case Ok(_) => Returned(Answered(status, content))
  }

  /** What `genericGET` makes of a reply: `(False, e)` on a connection error, otherwise
      `(status_code, content["response"])`, whose lookup errors are not caught. */
  function GetOutcome(reply: HttpReply): (o: Outcome)
    ensures o.Returned? && o.answer.Answered? <==>
      reply.Reply? && reply.content.JObj? && "response" in reply.content.fields
    ensures o.Returned? && o.answer.Answered? ==>
      o.answer == Answered(reply.status, reply.content.fields["response"])
    ensures o.Returned? ==> !o.answer.KeyErrorReported?
    ensures o.Raised? ==> reply.Reply? && (o.error == KeyError <==> reply.content.JObj?)
  {
    match reply
    case ConnectionFailed(cause) => Returned(NoConnection(cause))
    case Reply(status, content) =>
      match Lookup(content, "response")
      case Err(e) => Raised(e)
      case Ok(response) => Returned(Answered(status, response))
  }

  /** The JSON body of the login POST. */
  function Credentials(username: string, password: string): Json {
    JObj(map["username" := JStr(username), "password" := JStr(password)])
  }

  class Connection {
    var version: Json
    const transport: string
    var controllername: string
    var username: string
    var password: string
    const header: Headers
    var serviceTicket: Headers

    /** The ticket is either the placeholder of `__init__` or the one-entry header a login stored. */
    ghost predicate Valid()
      reads this
    {
      && transport == Https
      && header == JsonContentType
      && (serviceTicket == PlaceholderTicket
          || (serviceTicket.HeaderDict? && serviceTicket.fields.Keys == {AuthTokenHeader}))
    }

    /** `__init__`: the defaults, with no ticket yet. */
    constructor ()
      ensures Valid()
      ensures version == JStr("1.0") && controllername == "192.0.2.1"
      ensures username == "admin" && password == "admin"
      ensures serviceTicket == PlaceholderTicket
    {
      version := JStr("1.0");
      transport := Https;
      controllername := "192.0.2.1";
      username := "admin";
      password := "admin";
      header := JsonContentType;
      serviceTicket := PlaceholderTicket;
    }

    /** `aaaLogin`: records the controller name, posts the credentials to the ticket URL and,
        from the reply, first stores `version` and then the service ticket. A reply with a
        version but no ticket still overwrites `version`. The credentials are sent, not stored. */
    method AaaLogin(controllername: string, username: string, password: string, reply: HttpReply)
      returns (request: Request, out: Outcome)
      requires Valid()
      modifies this
      ensures Valid()
      ensures this.controllername == controllername
      ensures this.username == old(this.username) && this.password == old(this.password)
      ensures request.verb == Post && request.headers == JsonContentType
      ensures request.url == Https + controllername + TicketPath
      ensures request.body == Some(Credentials(username, password))
      ensures out == LoginOutcome(reply)
      ensures reply.ConnectionFailed? ==>
        && out == Returned(NoConnection(reply.cause))
        && version == old(version) && serviceTicket == old(serviceTicket)
      ensures reply.Reply? && Lookup(reply.content, "version").Err? ==>
        && out == Caught(Lookup(reply.content, "version").error)
        && version == old(version) && serviceTicket == old(serviceTicket)
      ensures reply.Reply? && Lookup(reply.content, "version").Ok? ==>
        && version == reply.content.fields["version"]
        && (TicketOf(reply.content).Err? ==>
              out == Caught(TicketOf(reply.content).error) && serviceTicket == old(serviceTicket))
        && (TicketOf(reply.content).Ok? ==>
              && out == Returned(Answered(reply.status, reply.content))
              && serviceTicket == HeaderDict(map[AuthTokenHeader := TicketOf(reply.content).value]))
    {
      this.controllername := controllername;
      var url := transport + this.controllername + TicketPath;
      request := Request(Post, url, header, Some(Credentials(username, password)));
      if reply.ConnectionFailed? {
        return request, Returned(NoConnection(reply.cause));
      }
      var content := reply.content;
      var v := Lookup(content, "version");
      if v.Err? {
        return request, Caught(v.error);
      }
      version := v.value;
      var ticket := TicketOf(content);
      if ticket.Err? {
        return request, Caught(ticket.error);
      }
      serviceTicket := HeaderDict(map[AuthTokenHeader := ticket.value]);
      out := Returned(Answered(reply.status, content));
    }

    /** `genericGET`: sends a GET for `path` on the stored controller with the stored ticket as
        headers and returns the status code (whatever it is) with the reply's `response` entry.
        A reply without that entry raises KeyError, a reply that is not a dict TypeError. */
    method GenericGet(path: string, reply: HttpReply) returns (request: Request, out: Outcome)
      ensures request == Request(Get, transport + controllername + path, serviceTicket, None)
      ensures out == GetOutcome(reply)
      ensures reply.ConnectionFailed? ==> out == Returned(NoConnection(reply.cause))
      ensures reply.Reply? ==>
        && (out.Returned? <==> reply.content.JObj? && "response" in reply.content.fields)
        && (out.Returned? ==> out.answer == Answered(reply.status, reply.content.fields["response"]))
        && (out.Raised? ==> (out.error == KeyError <==> reply.content.JObj?))
    {
      var url := transport + controllername + path;
      request := Request(Get, url, serviceTicket, None);
      if reply.ConnectionFailed? {
        return request, Returned(NoConnection(reply.cause));
      }
      var response := Lookup(reply.content, "response");
      if response.Err? {
        return request, Raised(response.error);
      }
      out := Returned(Answered(reply.status, response.value));
    }
  }

  /** The session of the class's usage note: a fresh connection logs in and then issues one GET.
      The login's result is what `aaaLogin` makes of the login reply and the GET's what
      `genericGET` makes of its reply. The GET carries the ticket from the login reply exactly
      when the login was answered with one; after any other returned answer it still carries
      the placeholder. An exception escaping the login means no GET is issued. */
  method LoginThenGet(host: string, username: string, password: string, loginReply: HttpReply,
                      path: string, getReply: HttpReply)
    returns (login: Outcome, get: Option<Request>, fetched: Option<Outcome>)
    ensures login == LoginOutcome(loginReply)
    ensures fetched.Some? ==> fetched.value == GetOutcome(getReply)
    ensures get.Some? <==> login.Returned?
    ensures fetched.Some? <==> login.Returned?
    ensures get.Some? ==> get.value.verb == Get && get.value.url == Https + host + path
    ensures login.Returned? && login.answer.Answered? ==>
      && loginReply.Reply? && TicketOf(loginReply.content).Ok?
      && get.value.headers == HeaderDict(map[AuthTokenHeader := TicketOf(loginReply.content).value])
    ensures login.Returned? && !login.answer.Answered? ==> get.value.headers == PlaceholderTicket
  {
    var conn := new Connection();
    var loginRequest;
    loginRequest, login := conn.AaaLogin(host, username, password, loginReply);
    if login.Raised? {
      return login, None, None;
    }
    var request, out := conn.GenericGet(path, getReply);
    get, fetched := Some(request), Some(out);
  }
}
