/**
 * The hub web application's per-request URL handling: the one-time
 * computation of the server's own URL (from configuration, or else from the
 * first request's server variables) and the canonical-host redirect.
 */
module ServerUrl {
  import opened Wrappers
  import opened Strings

  // ---------------------------------------------------------------------
  // SetServerUrl

  /** The configuration values read: protocol and domain default to "", the port to null. */
  datatype Config = Config(serverProtocol: string, serverDomainName: string, serverPort: Option<int>)

  /** The request's server variables (each may be missing) and its application path. */
  datatype RequestContext = RequestContext(
    serverPort: Option<string>,        // SERVER_PORT
    serverPortSecure: Option<string>,  // SERVER_PORT_SECURE
    serverName: Option<string>,        // SERVER_NAME
    applicationPath: string)

  /** The static state: the init-once flag, Server.ServerUrl and Server.ServerHostName. */
  datatype ServerState = ServerState(isInitialised: bool, serverUrl: Option<string>, serverHostName: Option<string>)

  /** Protocol and domain are not blank, and a port is configured. */
  predicate ConfigComplete(cfg: Config, cc: CharClasses) {
    !IsNullOrWhiteSpace(Some(cfg.serverDomainName), cc) && !IsNullOrWhiteSpace(Some(cfg.serverProtocol), cc)
    && cfg.serverPort.Some?
  }

  /** The URL from configuration: only port 80 is left out. */
  function ConfiguredUrl(cfg: Config): string
    requires cfg.serverPort.Some?
  {
    cfg.serverProtocol + cfg.serverDomainName
    + (if cfg.serverPort.value == 80 then "" else ":" + IntToString(cfg.serverPort.value)) + "/"
  }

  /** From the request: no suffix for a missing, "80" or "443" port. */
  function RequestPortSuffix(port: Option<string>): string {
    if port.None? || port.value == "80" || port.value == "443" then "" else ":" + port.value
  }

  function RequestProtocol(secure: Option<string>): string {
    if secure.None? || secure.value == "0" then "http://" else "https://"
  }

  /** The URL from the first request; a missing SERVER_NAME concatenates as "". */
  function RequestUrl(ctx: RequestContext): string {
    RequestProtocol(ctx.serverPortSecure) + ctx.serverName.GetOr("") + RequestPortSuffix(ctx.serverPort) + ctx.applicationPath
  }

  /** What SetServerUrl does to the static state. */
  function Initialise(s: ServerState, cfg: Config, context: Option<RequestContext>, cc: CharClasses): ServerState {
    if s.isInitialised then s
    else if ConfigComplete(cfg, cc) then ServerState(true, Some(ConfiguredUrl(cfg)), Some(cfg.serverDomainName))
    else if context.None? then s
    else ServerState(true, Some(RequestUrl(context.value)), context.value.serverName)
  }

  /** Once initialised, nothing changes. */
  lemma InitialiseOnce(s: ServerState, cfg: Config, context: Option<RequestContext>, cc: CharClasses,
                       cfg': Config, context': Option<RequestContext>)
    requires Initialise(s, cfg, context, cc).isInitialised
    ensures Initialise(Initialise(s, cfg, context, cc), cfg', context', cc) == Initialise(s, cfg, context, cc)
  {
  }

  /** Incomplete configuration and no request: the flag stays down, so a later call tries again. */
  lemma InitialiseWaitsForRequest(s: ServerState, cfg: Config, cc: CharClasses)
    requires !ConfigComplete(cfg, cc)
    ensures Initialise(s, cfg, None, cc) == s
  {
  }

  /** With complete configuration, port 80 is dropped but every other port, 443 included, is kept. */
  lemma ConfiguredPort(s: ServerState, cfg: Config, cc: CharClasses)
    requires !s.isInitialised && ConfigComplete(cfg, cc)
    ensures var r := Initialise(s, cfg, None, cc);
      && r.isInitialised && r.serverHostName == Some(cfg.serverDomainName)
      && (cfg.serverPort.value == 80 ==> r.serverUrl == Some(cfg.serverProtocol + cfg.serverDomainName + "/"))
      && (cfg.serverPort.value != 80 ==>
            r.serverUrl == Some(cfg.serverProtocol + cfg.serverDomainName + ":" + IntToString(cfg.serverPort.value) + "/"))
      && (cfg.serverPort.value == 443 ==> r.serverUrl == Some(cfg.serverProtocol + cfg.serverDomainName + ":443/"))
  {
    var a := cfg.serverProtocol + cfg.serverDomainName;
    if cfg.serverPort.value == 80 {
      assert ConfiguredUrl(cfg) == a + "" + "/" == a + "/";
    } else {
      var t := IntToString(cfg.serverPort.value);
      assert ConfiguredUrl(cfg) == a + (":" + t) + "/" == a + ":" + t + "/";
      if cfg.serverPort.value == 443 {
        assert IntToString(443) == "443" by {
          assert NatToString(4) == "4";
          assert NatToString(44) == "44";
        }
        assert a + ":" + "443" + "/" == a + ":443/";
      }
    }
  }

  /**
   * Without configuration, the first request decides: the protocol comes
   * from SERVER_PORT_SECURE, and the port is kept, behind ':', unless it is
   * missing, 80 or 443.
   */
  lemma RequestDecides(s: ServerState, cfg: Config, ctx: RequestContext, cc: CharClasses)
    requires !s.isInitialised && !ConfigComplete(cfg, cc)
    ensures var r := Initialise(s, cfg, Some(ctx), cc);
      var p, n := RequestProtocol(ctx.serverPortSecure), ctx.serverName.GetOr("");
      && r.isInitialised && r.serverHostName == ctx.serverName
      && StartsWith(r.serverUrl.value, p)
      && (p == "https://" <==> ctx.serverPortSecure.Some? && ctx.serverPortSecure.value != "0")
      && (p == "http://" <==> ctx.serverPortSecure.None? || ctx.serverPortSecure.value == "0")
      && ((ctx.serverPort.None? || ctx.serverPort == Some("80") || ctx.serverPort == Some("443")) ==>
            r.serverUrl == Some(p + n + ctx.applicationPath))
      && (!(ctx.serverPort.None? || ctx.serverPort == Some("80") || ctx.serverPort == Some("443")) ==>
            r.serverUrl == Some(p + n + ":" + ctx.serverPort.value + ctx.applicationPath))
  {
    var r := Initialise(s, cfg, Some(ctx), cc);
    var p, n := RequestProtocol(ctx.serverPortSecure), ctx.serverName.GetOr("");
    assert r.serverUrl.value == p + (n + RequestPortSuffix(ctx.serverPort) + ctx.applicationPath);
    if ctx.serverPort.None? || ctx.serverPort == Some("80") || ctx.serverPort == Some("443") {
      assert RequestUrl(ctx) == p + n + "" + ctx.applicationPath == p + n + ctx.applicationPath;
    } else {
      assert RequestUrl(ctx) == p + n + (":" + ctx.serverPort.value) + ctx.applicationPath
                             == p + n + ":" + ctx.serverPort.value + ctx.applicationPath;
    }
  }

  /** The application's static server state. */
  class MvcApplication {
    var isInitialised: bool
    var serverUrl: Option<string>
    var serverHostName: Option<string>

    constructor ()
      ensures State() == ServerState(false, None, None)
    {
      isInitialised, serverUrl, serverHostName := false, None, None;
    }

    function State(): ServerState
      reads this
    {
      ServerState(isInitialised, serverUrl, serverHostName)
    }

    method SetServerUrl(config: Config, context: Option<RequestContext>, cc: CharClasses)
      modifies this
      ensures State() == Initialise(old(State()), config, context, cc)
    {
      if !isInitialised {
        if !IsNullOrWhiteSpace(Some(config.serverDomainName), cc) && !IsNullOrWhiteSpace(Some(config.serverProtocol), cc)
           && config.serverPort.Some? {
          serverUrl := Some(config.serverProtocol + config.serverDomainName
                            + (if config.serverPort.value == 80 then "" else ":" + IntToString(config.serverPort.value)) + "/");
          serverHostName := Some(config.serverDomainName);
        } else {
          if context.None? {
            return;
          }
          var ctx := context.value;
          var port := RequestPortSuffix(ctx.serverPort);
          var protocol := RequestProtocol(ctx.serverPortSecure);
          serverHostName := ctx.serverName;
          var url := protocol + ctx.serverName.GetOr("") + port + ctx.applicationPath;
          serverUrl := Some(url);
        }
        isInitialised := true;
      }
    }
  }

  // ---------------------------------------------------------------------
  // NormalizeUrl and RedirectToCanonicalUrl

  /** The parts of Request.Url that are inspected. */
  datatype Request = Request(pathAndQuery: string, host: string, scheme: string)

  /** The response status line and the headers added, in order. */
  datatype Response = Response(status: Option<string>, headers: seq<(string, string)>)

  const MovedPermanently := "301 Moved Permanently"
  const CanonicalOrigin := "https://fr8.co"

  /** RedirectToCanonicalUrl */
  function Redirected(req: Request, resp: Response): Response {
    Response(Some(MovedPermanently), resp.headers + [("Location", CanonicalOrigin + req.pathAndQuery)])
  }

  /** API, authentication callback and dev hosts are left alone (lower-cased comparison). */
  predicate Exempt(req: Request) {
    StartsWith(ToLower(req.pathAndQuery), "/api") || StartsWith(ToLower(req.pathAndQuery), "/authenticationcallback")
    || Contains(ToLower(req.host), "dev")
  }

  /** What NormalizeUrl does to the response. */
  function Normalized(req: Request, resp: Response): Response {
    if Exempt(req) then resp
    else
      var r1 := if Contains(req.host, "fr8.company") || StartsWith(req.host, "www.") then Redirected(req, resp) else resp;
      if !StartsWith(req.host, "fr8.co") then r1
      else if req.scheme == "https" then r1.(headers := r1.headers + [("Strict-Transport-Security", "max-age=300")])
      else if req.scheme == "http" then Redirected(req, r1)
      else r1
  }

  /** Exempt requests are not touched. */
  lemma NormalizedExempt(req: Request, resp: Response)
    requires Exempt(req)
    ensures Normalized(req, resp) == resp
  {
  }

  /** NormalizeUrl only adds headers, and sets the status to 301 or leaves it. */
  lemma NormalizedAppends(req: Request, resp: Response)
    ensures var r := Normalized(req, resp);
      |resp.headers| <= |r.headers| <= |resp.headers| + 2 && r.headers[..|resp.headers|] == resp.headers
      && (r.status == resp.status || r.status == Some(MovedPermanently))
  {
    var r := Normalized(req, resp);
    if !Exempt(req) {
      var r1 := if Contains(req.host, "fr8.company") || StartsWith(req.host, "www.") then Redirected(req, resp) else resp;
      assert r1.headers[..|resp.headers|] == resp.headers;
      assert r.headers[..|r1.headers|] == r1.headers;
      assert r.headers[..|resp.headers|] == r.headers[..|r1.headers|][..|resp.headers|];
    }
  }

  /** An old host (fr8.company or www.) is sent to https://fr8.co with the same path and query. */
  lemma NormalizedOldHost(req: Request, resp: Response)
    requires !Exempt(req) && (Contains(req.host, "fr8.company") || StartsWith(req.host, "www."))
    ensures var r := Normalized(req, resp);
      r.status == Some(MovedPermanently)
      && r.headers[|resp.headers|] == ("Location", CanonicalOrigin + req.pathAndQuery)
  {
    var r := Normalized(req, resp);
    var r1 := Redirected(req, resp);
    assert r.headers[..|r1.headers|] == r1.headers;
    assert r.headers[|resp.headers|] == r.headers[..|r1.headers|][|resp.headers|];
  }

  /** A current host (starting "fr8.co", neither fr8.company nor www.) over https gets the HSTS header and no redirect. */
  lemma NormalizedProductionHttps(req: Request, resp: Response)
    requires !Exempt(req) && StartsWith(req.host, "fr8.co") && !Contains(req.host, "fr8.company")
    requires !StartsWith(req.host, "www.") && req.scheme == "https"
    ensures Normalized(req, resp) == resp.(headers := resp.headers + [("Strict-Transport-Security", "max-age=300")])
  {
  }

  /** A current host over http is redirected once, with no HSTS header. */
  lemma NormalizedProductionHttp(req: Request, resp: Response)
    requires !Exempt(req) && StartsWith(req.host, "fr8.co") && !Contains(req.host, "fr8.company")
    requires !StartsWith(req.host, "www.") && req.scheme == "http"
    ensures Normalized(req, resp) == Redirected(req, resp)
    ensures Normalized(req, resp).headers == resp.headers + [("Location", CanonicalOrigin + req.pathAndQuery)]
  {
  }

  /** The exact production host qualifies: "fr8.co" contains no "fr8.company" and does not start with "www.". */
  lemma ProductionHostIsCurrent(host: string)
    requires host == "fr8.co"
    ensures StartsWith(host, "fr8.co") && !Contains(host, "fr8.company") && !StartsWith(host, "www.")
  {
    assert host[0] != "www."[0];
    if Contains(host, "fr8.company") {
      ContainsNotLonger(host, "fr8.company");
    }
  }

  /**
   * An old fr8.company host also starts with "fr8.co": over http it is
   * redirected twice, so the response carries two Location headers.
   */
  lemma NormalizedOldHostHttpTwice(req: Request, resp: Response)
    requires !Exempt(req) && StartsWith(req.host, "fr8.company") && req.scheme == "http"
    ensures Normalized(req, resp).headers
         == resp.headers + [("Location", CanonicalOrigin + req.pathAndQuery), ("Location", CanonicalOrigin + req.pathAndQuery)]
  {
    assert StartsWith(req.host, "fr8.co") by {
      assert req.host[..6] == req.host[..11][..6];
    }
    assert Contains(req.host, "fr8.company");
  }

  /** The response object the handlers write to. */
  class HttpResponse {
    var Status: Option<string>
    var Headers: seq<(string, string)>

    constructor ()
      ensures Value() == Response(None, [])
    {
      Status, Headers := None, [];
    }

    function Value(): Response
      reads this
    {
      Response(Status, Headers)
    }

    method AddHeader(name: string, value: string)
      modifies this
      ensures Value() == old(Value()).(headers := old(Headers) + [(name, value)])
    {
      Headers := Headers + [(name, value)];
    }
  }

  method RedirectToCanonicalUrl(request: Request, response: HttpResponse)
    modifies response
    ensures response.Value() == Redirected(request, old(response.Value()))
  {
    var path := CanonicalOrigin + request.pathAndQuery;
    response.Status := Some(MovedPermanently);
    response.AddHeader("Location", path);
  }

  method NormalizeUrl(request: Request, response: HttpResponse)
    modifies response
    ensures response.Value() == Normalized(request, old(response.Value()))
  {
    if StartsWith(ToLower(request.pathAndQuery), "/api")
       || StartsWith(ToLower(request.pathAndQuery), "/authenticationcallback")
       || Contains(ToLower(request.host), "dev") {
      return;
    }
    if Contains(request.host, "fr8.company") || StartsWith(request.host, "www.") {
      RedirectToCanonicalUrl(request, response);
    }
    if StartsWith(request.host, "fr8.co") {
      if request.scheme == "https" {
        response.AddHeader("Strict-Transport-Security", "max-age=300");
      } else if request.scheme == "http" {
        RedirectToCanonicalUrl(request, response);
      }
    }
  }
}
