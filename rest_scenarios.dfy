/**
 * End-to-end runs of the plugin: a fresh instance, its options processed,
 * and the request it would send.
 */
module RestPluginScenarios {
  import opened Wrappers
  import opened RestQuery
  import opened RestPlugin

  /** The URL of a query to localhost on port 80 over plain HTTP with no path. */
  lemma LocalDefaultsUrl()
    ensures BuildUrl("http", HostText(Some("localhost")), PortText(Some(80)), None) == "http://localhost:80/"
  {
    assert NatToDecimal(8) == "8";
    assert PortText(Some(80)) == "80";
    assert Prefix("http", "localhost", "80") == "http://localhost:80/";
  }

  /** Port 443 renders as "443". */
  lemma PortText443()
    ensures PortText(Some(443)) == "443"
  {
    assert NatToDecimal(4) == "4";
    assert NatToDecimal(44) == "44";
  }

  /** The path "/status" on api.example.com:443 over HTTPS. */
  lemma StatusUrl()
    ensures BuildUrl("https", "api.example.com", "443", Some("/status")) == "https://api.example.com:443/status"
  {
    assert LStripSlash("/status") == "status" by {
      assert LStripSlash("/status") == LStripSlash("status") == "status";
    }
  }

  /** The URL of a query to api.example.com on port 443 over HTTPS with path "/status". */
  lemma SslStatusUrl()
    ensures BuildUrl(Upgrade("http", true), HostText(Some("api.example.com")), PortText(Some(443)), Some("/status"))
      == "https://api.example.com:443/status"
  {
    PortText443();
    StatusUrl();
  }

  /** Host "localhost", port 80, no path, no SSL, no credentials: GET http://localhost:80/ without auth. */
  method QueryLocalDefaults(checks: Validators) returns (outcome: Outcome, req: Request)
    requires checks.host(Some("localhost")) && checks.port(Some(80))
    requires checks.user(None) && checks.password(None)
    ensures outcome == Processed
    ensures req == Request("http://localhost:80/", None)
  {
    LocalDefaultsUrl();
    var plugin := new RestNagiosPlugin();
    outcome := plugin.ProcessOptions([], Options(Some("localhost"), Some(80), None, None, false), checks);
    req := plugin.Query();
  }

  /** Host "api.example.com", port 443, path "/status", SSL flag set: GET https://api.example.com:443/status. */
  method QuerySslStatus(checks: Validators) returns (outcome: Outcome, req: Request)
    requires checks.host(Some("api.example.com")) && checks.port(Some(443))
    requires checks.user(None) && checks.password(None)
    ensures outcome == Processed
    ensures req == Request("https://api.example.com:443/status", None)
  {
    SslStatusUrl();
    var plugin := new RestNagiosPlugin();
    plugin.path := Some("/status");
    outcome := plugin.ProcessOptions([], Options(Some("api.example.com"), Some(443), None, None, true), checks);
    assert plugin.protocol == Upgrade("http", true);
    req := plugin.Query();
  }

  /** User "alice" with password "secret": the request carries exactly those credentials. */
  method QueryWithCredentials(checks: Validators, host: string, port: int) returns (outcome: Outcome, req: Request)
    requires checks.host(Some(host)) && checks.port(Some(port))
    requires checks.user(Some("alice")) && checks.password(Some("secret"))
    ensures outcome == Processed
    ensures req.auth == Some(Credentials("alice", "secret"))
  {
    var plugin := new RestNagiosPlugin();
    outcome := plugin.ProcessOptions([], Options(Some(host), Some(port), Some("alice"), Some("secret"), false), checks);
    req := plugin.Query();
  }

  /** A port the port validator refuses ends processing with a usage error, and the protocol stays plain. */
  method RejectRefusedPort(checks: Validators, host: string, useSsl: bool) returns (outcome: Outcome, protocol: string)
    requires checks.host(Some(host)) && checks.user(None) && checks.password(None)
    requires !checks.port(Some(99999))
    ensures outcome == UsageError(InvalidPort)
    ensures protocol == "http"
  {
    var plugin := new RestNagiosPlugin();
    outcome := plugin.ProcessOptions([], Options(Some(host), Some(99999), None, None, useSsl), checks);
    protocol := plugin.protocol;
  }
}
