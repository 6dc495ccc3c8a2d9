# RestNagiosPlugin: request construction

This project models the part of `RestNagiosPlugin` that decides which request a
REST-polling Nagios check sends. `RestNagiosPlugin` is the abstract base of the
REST checks in the `harisekhon` Python library. The model covers three things:

- **State.** The plugin's connection fields and their defaults at construction.
  Option processing copies host, port, user and password from the command line,
  runs the four validators, and upgrades the protocol from `http` to `https`
  when the SSL flag is set.
- **URL.** The query's URL is `{protocol}://{host}:{port}/`. When the path is
  truthy, the path follows with every leading `/` removed.
- **Credentials.** The query's basic-auth credentials are `(user, password)`
  when both are truthy, and `None` otherwise.

Layout:

- `wrappers.dfy`: module `Wrappers`, the `Option` type. Python's `None` is `None`.
- `rest_query.dfy`: module `RestQuery`, pure functions and lemmas.
  - Python truthiness of an optional string (`None` and `""` are false).
  - `str.lstrip('/')`.
  - Python's `str()` of an integer.
  - The URL and the credentials of a query.
- `rest_plugin.dfy`: module `RestPlugin`.
  - The class `RestNagiosPlugin`, whose fields the methods update in place.
  - The validation order and the protocol upgrade rule, as functions.
  - How `str.format` renders the host and the port.
- `rest_scenarios.dfy`: module `RestPluginScenarios`, end-to-end runs of a fresh
  plugin: construct it, process options, query.

The validators (`validate_host`, `validate_user`, `validate_password`,
`validate_port`) live in a helper library whose rules are not part of this
model. `ProcessOptions` therefore takes them as a `Validators` value of four
predicates, and no port range or hostname grammar is assumed. Reading the
options (`get_opt`) becomes an `Options` parameter. The positional arguments
that `no_args` refuses become an `args` parameter.

Three details of the code that the model keeps:

- Host, port, user and password are assigned before any validator runs. After
  a usage error from a validator they already hold the option values, and the
  protocol stays as it was.
- The SSL flag upgrades only a protocol that is exactly `"http"`. Another preset
  protocol is left unchanged, with or without the flag.
- `str.format` renders an unset host or port as `None`, so the model renders
  `None` as the text `"None"`.

## Model

| member | source | states |
|---|---|---|
| `RestQuery.Truthy` | harisekhon/nagiosplugin/rest_nagiosplugin.py:111-114 | an optional string is truthy exactly when it is neither `None` nor `""`, as in `if self.path` and `if self.user and self.password` |
| `RestQuery.Prefix` | harisekhon/nagiosplugin/rest_nagiosplugin.py:108-110 | the format string gives `protocol`, then `://`, host, `:` and port, ending in `/`; its length is the three parts' lengths plus 5 |
| `RestQuery.PathPart` | harisekhon/nagiosplugin/rest_nagiosplugin.py:111-112 | what is appended is empty when the path is `None` or empty; otherwise it is the path minus a run of leading slashes; it never starts with `/` |
| `RestQuery.LStripSlash` | harisekhon/nagiosplugin/rest_nagiosplugin.py:112 | `path.lstrip('/')`: the input is a run of slashes followed by the result, and the result does not start with `/` |
| `RestQuery.LStripSlashUnique` | harisekhon/nagiosplugin/rest_nagiosplugin.py:112 | a string splits in only one way into slashes plus a rest that does not start with `/`, and stripping returns that rest |
| `RestQuery.LStripSlashIdempotent` | harisekhon/nagiosplugin/rest_nagiosplugin.py:112 | stripping an already-stripped path changes nothing |
| `RestQuery.LStripSlashIgnoresLeadingSlashes` | harisekhon/nagiosplugin/rest_nagiosplugin.py:112 | any number of extra leading slashes give the same stripped path |
| `RestQuery.BuildUrl` | harisekhon/nagiosplugin/rest_nagiosplugin.py:108-112 | the URL starts with `{proto}://{host}:{port}/`; with a `None` or empty path it is exactly that prefix; otherwise the rest is the path minus a run of leading slashes; the rest never starts with `/` |
| `RestQuery.BuildUrlWithPath` | harisekhon/nagiosplugin/rest_nagiosplugin.py:111-112 | a path made of slashes followed by a rest that is empty or does not start with `/` gives exactly prefix + rest |
| `RestQuery.BuildUrlIgnoresLeadingSlashes` | harisekhon/nagiosplugin/rest_nagiosplugin.py:111-112 | `"/status"`, `"//status"` and `"status"` (any number of leading slashes) give the same URL, even when only slashes remain |
| `RestQuery.BuildUrlDeterminesPath` | harisekhon/nagiosplugin/rest_nagiosplugin.py:108-112 | for one connection, two paths give the same URL if and only if their appended parts agree |
| `RestQuery.Auth` | harisekhon/nagiosplugin/rest_nagiosplugin.py:113-116 | credentials are absent if and only if the user or the password is `None` or empty; when present they are exactly the user and the password |
| `RestQuery.NatToDecimal` | harisekhon/nagiosplugin/rest_nagiosplugin.py:108-110 | the port number is rendered as a non-empty string of decimal digits with no leading zero |
| `RestQuery.DecimalRoundTrip` | harisekhon/nagiosplugin/rest_nagiosplugin.py:108-110 | reading the rendered digits back gives the original number |
| `RestQuery.IntToText` | harisekhon/nagiosplugin/rest_nagiosplugin.py:108-110 | `str()` of an integer is non-empty and has no `/`; it starts with `-` exactly when the value is negative, and with a digit otherwise |
| `RestQuery.IntToTextRoundTrip` | harisekhon/nagiosplugin/rest_nagiosplugin.py:108-110 | the digits of `str()` of an integer, after the sign, read back as its magnitude |
| `RestPlugin.Validate` | harisekhon/nagiosplugin/rest_nagiosplugin.py:94-97 | processing passes if and only if all four validators accept; the error names the first refusing validator, in the order host, user, password, port |
| `RestPlugin.Upgrade` | harisekhon/nagiosplugin/rest_nagiosplugin.py:98-101 | the protocol never downgrades: it stays as it was or goes from `http` to `https`; with the flag and `http` it is `https`; without the flag it is unchanged |
| `RestPlugin.UpgradeIdempotent` | harisekhon/nagiosplugin/rest_nagiosplugin.py:100-101 | applying the upgrade rule twice with the same flag equals applying it once |
| `RestPlugin.UrlSchemeFollowsSslFlag` | harisekhon/nagiosplugin/rest_nagiosplugin.py:100-110 | starting from `http`, the URL begins with `https://` when the SSL flag is set and with `http://` otherwise |
| `RestPlugin.HostText` | harisekhon/nagiosplugin/rest_nagiosplugin.py:108-110 | `format` prints an unset host as `"None"` and a set host verbatim |
| `RestPlugin.PortText` | harisekhon/nagiosplugin/rest_nagiosplugin.py:108-110 | the rendered port is non-empty and has no `/`; it is `"None"` exactly when the port is unset, so no set port renders the same text |
| `RestPlugin.OneSlashAfterPort` | harisekhon/nagiosplugin/rest_nagiosplugin.py:108-112 | the URL is scheme, host and port, then exactly one `/`, then a rest that does not start with `/` |
| `RestPlugin.RestNagiosPlugin.constructor` | harisekhon/nagiosplugin/rest_nagiosplugin.py:56-73 | a fresh plugin has protocol `http`, no path, default host `localhost`, default port 80, unset host, port, user and password, and the placeholder message |
| `RestPlugin.RestNagiosPlugin.ProcessOptions` | harisekhon/nagiosplugin/rest_nagiosplugin.py:88-101 | positional arguments are a usage error and change nothing. Otherwise host, port, user and password become the option values, the outcome is the validators' verdict, and the protocol is upgraded only when every validator accepts. No other field changes |
| `RestPlugin.RestNagiosPlugin.Query` | harisekhon/nagiosplugin/rest_nagiosplugin.py:107-116 | the request's URL is `BuildUrl` of the current protocol, host, port and path; its credentials are `Auth` of the current user and password; no field changes |
| `RestPluginScenarios.QueryLocalDefaults` | harisekhon/nagiosplugin/rest_nagiosplugin.py:88-116 | host `localhost`, port 80, no path, no SSL flag, no credentials: GET `http://localhost:80/` without credentials |
| `RestPluginScenarios.QuerySslStatus` | harisekhon/nagiosplugin/rest_nagiosplugin.py:88-116 | host `api.example.com`, port 443, path `/status`, SSL flag set: GET `https://api.example.com:443/status` |
| `RestPluginScenarios.QueryWithCredentials` | harisekhon/nagiosplugin/rest_nagiosplugin.py:88-116 | user `alice` with password `secret`: the request carries exactly those credentials |
| `RestPluginScenarios.RejectRefusedPort` | harisekhon/nagiosplugin/rest_nagiosplugin.py:88-101 | a port that the port validator refuses ends processing with the port usage error, and the protocol stays `http` even with the SSL flag |

## Left out

- Option registration (`add_options`, `add_ssl_option`, lines 76-86) is left out. It registers options with the base class's option parser, which is not part of this model.
- `get_opt` and `no_args` (lines 89-93, 98) belong to the base class. Their results are modelled as the `Options` and `args` parameters. `no_args` is taken to refuse any positional argument.
- `validate_host`, `validate_user`, `validate_password` and `validate_port` (line 39, lines 94-97) are not part of this model. They are supplied as predicates, and their rules (port range, hostname grammar) are not stated.
- A refused option ends the process in the source. The model returns a `UsageError` outcome instead; the exit code is not modelled.
- The HTTP GET through `RequestHandler` (lines 72, 117) is network I/O and is left out. `Query` returns the request that would be sent.
- `run` and `parse` (lines 103-105, 120-122) are left out. `parse` is abstract and has no behaviour here.
- Logging (`log_option`, `log.info`, lines 99 and 115) and the status the base class sets with `self.ok()` (line 74) are side effects of code outside this model.
- The import-failure exit with code 4 (lines 36-44) is left out.
- Subclasses that override `protocol` or `path` are represented by assigning those fields after construction, as a subclass's constructor would.
- RestPlugin.PortText: assumes the option parser yields the port as an integer or `None`. A port given as a string would be rendered verbatim, and that case is not modelled.
