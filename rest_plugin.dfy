/**
 * The REST specialisation of a Nagios plugin: its connection fields, the
 * option processing that fills them in and picks the protocol, and the
 * query that turns them into a request.
 */
module RestPlugin {
  import opened Wrappers
  import opened RestQuery

  /** The option values the plugin reads back from its command line. */
  datatype Options = Options(
    host: Option<string>,
    port: Option<int>,
    user: Option<string>,
    password: Option<string>,
    useSsl: bool)

  /**
   * The shared validators for host, user, password and port. Their rules
   * belong to a helper library and are not part of this model, so they are
   * supplied as predicates: true means the value is accepted.
   */
  datatype Validators = Validators(
    host: Option<string> -> bool,
    user: Option<string> -> bool,
    password: Option<string> -> bool,
    port: Option<int> -> bool)

  /** Why option processing ends the run with a usage error. */
  datatype Reason = ExtraArguments | InvalidHost | InvalidUser | InvalidPassword | InvalidPort

  datatype Outcome = Processed | UsageError(reason: Reason)

  /**
   * The validators run in the order host, user, password, port; the first
   * one that rejects its value ends processing.
   */
  function Validate(opts: Options, checks: Validators): (r: Outcome)
    ensures r.Processed? <==>
      checks.host(opts.host) && checks.user(opts.user) && checks.password(opts.password) && checks.port(opts.port)
    ensures r != UsageError(ExtraArguments)
    ensures r == UsageError(InvalidHost) <==> !checks.host(opts.host)
    ensures r == UsageError(InvalidUser) ==> checks.host(opts.host) && !checks.user(opts.user)
    ensures r == UsageError(InvalidPassword) ==>
      checks.host(opts.host) && checks.user(opts.user) && !checks.password(opts.password)
    ensures r == UsageError(InvalidPort) ==>
      checks.host(opts.host) && checks.user(opts.user) && checks.password(opts.password) && !checks.port(opts.port)
  {
    if !checks.host(opts.host) then UsageError(InvalidHost)
    else if !checks.user(opts.user) then UsageError(InvalidUser)
    else if !checks.password(opts.password) then UsageError(InvalidPassword)
    else if !checks.port(opts.port) then UsageError(InvalidPort)
    else Processed
  }

  /**
   * The protocol after the SSL flag is looked at: plain "http" becomes
   * "https" when the flag is set, and nothing else ever changes.
   */
  function Upgrade(protocol: string, useSsl: bool): (r: string)
    ensures r == protocol || (protocol == "http" && r == "https")
    ensures useSsl && protocol == "http" ==> r == "https"
    ensures !useSsl ==> r == protocol
    ensures r == "http" ==> !useSsl
  {
    if useSsl && protocol == "http" then "https" else protocol
  }

  /** Upgrading a second time with the same flag changes nothing. */
  lemma UpgradeIdempotent(protocol: string, useSsl: bool)
    ensures Upgrade(Upgrade(protocol, useSsl), useSsl) == Upgrade(protocol, useSsl)
  {
  }

  /** The scheme of the URL follows the SSL flag when the protocol starts out as plain "http". */
  lemma UrlSchemeFollowsSslFlag(useSsl: bool, host: string, port: string, path: Option<string>)
    ensures var url := BuildUrl(Upgrade("http", useSsl), host, port, path);
      if useSsl then |url| >= 8 && url[..8] == "https://" else |url| >= 7 && url[..7] == "http://"
  {
    // The URL starts with the prefix, and the prefix with the scheme and "://".
    var protocol := Upgrade("http", useSsl);
    var url := BuildUrl(protocol, host, port, path);
    assert url[..|protocol| + 3] == Prefix(protocol, host, port)[..|protocol| + 3];
  }

  /** How `str.format` renders an optional host: `None` prints as "None". */
  function HostText(host: Option<string>): (s: string)
    ensures host.Some? ==> s == host.value
    ensures host.None? ==> s == "None"
  {
    match host
    case None => "None"
    case Some(h) => h
  }

  /** How `str.format` renders an optional port: `None` prints as "None", a number in decimal. */
  function PortText(port: Option<int>): (s: string)
    ensures s != [] && '/' !in s
    ensures s == "None" <==> port.None?
  {
    match port
    case None => "None"
    case Some(p) => IntToText(p)
  }

  /**
   * Exactly one slash separates the port from the path: the URL is the
   * scheme, host and port, then one "/", then a rest that does not start with
   * "/", and the port text holds no slash.
   */
  lemma {:induction false} OneSlashAfterPort(protocol: string, host: Option<string>, port: Option<int>, path: Option<string>)
    ensures var url := BuildUrl(protocol, HostText(host), PortText(port), path);
      var head := protocol + "://" + HostText(host) + ":" + PortText(port);
      |head| < |url| && url[..|head|] == head && url[|head|] == '/' && '/' !in PortText(port) &&
      (|url| == |head| + 1 || url[|head| + 1] != '/')
  {
  }

  class RestNagiosPlugin {
    var name: Option<string>
    var defaultHost: string
    var defaultPort: int
    var defaultUser: Option<string>
    var defaultPassword: Option<string>
    var host: Option<string>
    var port: Option<int>
    var user: Option<string>
    var password: Option<string>
    var protocol: string
    var msg: string
    /** The API path of a concrete check; subclasses assign it, the base leaves it unset. */
    var path: Option<string>

    /** A fresh plugin: local defaults, nothing read from the command line yet, plain HTTP, no path. */
    constructor ()
      ensures name == None
      ensures defaultHost == "localhost" && defaultPort == 80
      ensures defaultUser == None && defaultPassword == None
      ensures host == None && port == None && user == None && password == None
      ensures protocol == "http"
      ensures msg == "rest msg not defined yet"
      ensures path == None
    {
      name := None;
      defaultHost := "localhost";
      defaultPort := 80;
      defaultUser := None;
      defaultPassword := None;
      host := None;
      port := None;
      user := None;
      password := None;
      protocol := "http";
      msg := "rest msg not defined yet";
      path := None;
    }

    /**
     * Reads the connection options into the fields and validates them.
     * Positional arguments are refused before anything is read. The four
     * fields are assigned before validation, so they hold the option values
     * even when a validator then refuses one; the protocol is upgraded only
     * when every validator accepts. No other field changes.
     */
    method ProcessOptions(args: seq<string>, opts: Options, checks: Validators) returns (outcome: Outcome)
      modifies this`host, this`port, this`user, this`password, this`protocol
      ensures args != [] ==> outcome == UsageError(ExtraArguments)
      ensures args != [] ==>
        host == old(host) && port == old(port) && user == old(user) && password == old(password)
      ensures args == [] ==> outcome == Validate(opts, checks)
      ensures args == [] ==>
        host == opts.host && port == opts.port && user == opts.user && password == opts.password
      ensures protocol == if outcome.Processed? then Upgrade(old(protocol), opts.useSsl) else old(protocol)
    {
      if args != [] {
        return UsageError(ExtraArguments);
      }
      host := opts.host;
      port := opts.port;
      user := opts.user;
      password := opts.password;
      if !checks.host(host) {
        return UsageError(InvalidHost);
      }
      if !checks.user(user) {
        return UsageError(InvalidUser);
      }
      if !checks.password(password) {
        return UsageError(InvalidPassword);
      }
      if !checks.port(port) {
        return UsageError(InvalidPort);
      }
      var useSsl := opts.useSsl;
      if useSsl && protocol == "http" {
        protocol := "https";
      }
      outcome := Processed;
    }

    /**
     * The request the plugin sends: its URL from the protocol, host, port and
     * path, its credentials from the user and password. Changes nothing.
     */
    method Query() returns (req: Request)
      ensures req.url == BuildUrl(protocol, HostText(host), PortText(port), path)
      ensures req.auth == Auth(user, password)
    {
      var url := Prefix(protocol, HostText(host), PortText(port));
      if Truthy(path) {
        url := url + LStripSlash(path.value);
      }
      var auth := None;
      if Truthy(user) && Truthy(password) {
        auth := Some(Credentials(user.value, password.value));
      }
      req := Request(url, auth);
    }
  }
}
