/**
 * The request a REST check sends: the URL built from the connection
 * fields and the optional basic-auth credentials. Everything here is pure;
 * the plugin class in module RestPlugin calls these functions.
 */
module RestQuery {
  import opened Wrappers

  /** Basic-auth credentials: the pair `(user, password)`. */
  datatype Credentials = Credentials(user: string, password: string)

  /** What the plugin hands to its HTTP client: one GET of `url`, with `auth` or none. */
  datatype Request = Request(url: string, auth: Option<Credentials>)

  /** Python truthiness of an optional string: `None` and `""` are both false. */
  predicate Truthy(o: Option<string>)
    ensures Truthy(o) <==> o != None && o != Some("")
  {
    o.Some? && o.value != ""
  }

  /** `k` slash characters. */
  function Slashes(k: nat): (r: string)
    ensures |r| == k
  {
    seq(k, _ => '/')
  }

  lemma SlashesAdd(k: nat, m: nat)
    ensures Slashes(k) + Slashes(m) == Slashes(k + m)
  {
  }

  /**
   * `s.lstrip('/')`: every leading slash removed. The result is what is
   * left of `s` after a run of slashes, and it does not itself start with one.
   */
  function LStripSlash(s: string): (r: string)
    ensures |r| <= |s|
    ensures s == Slashes(|s| - |r|) + r
    ensures r == [] || r[0] != '/'
  {
    if s != [] && s[0] == '/' then LStripSlash(s[1..]) else s
  }

  /**
   * A string splits in only one way into a run of slashes and a rest that does
   * not start with a slash, and LStripSlash returns that rest.
   */
  lemma LStripSlashUnique(k: nat, t: string)
    requires t == [] || t[0] != '/'
    ensures LStripSlash(Slashes(k) + t) == t
  {
    var s := Slashes(k) + t;
    var r := LStripSlash(s);
    var m := |s| - |r|;
    assert s == Slashes(m) + r;
    assert forall i :: 0 <= i < k ==> s[i] == '/';
    assert forall i :: 0 <= i < m ==> s[i] == '/';
    assert r == s[m..] && t == s[k..];
    assert m == k;
  }

  /** Stripping twice strips nothing more. */
  lemma LStripSlashIdempotent(s: string)
    ensures LStripSlash(LStripSlash(s)) == LStripSlash(s)
  {
    var r := LStripSlash(s);
    assert Slashes(0) + r == r;
    LStripSlashUnique(0, r);
  }

  /** Leading slashes added in front make no difference: "/status", "//status" and "status" agree. */
  lemma LStripSlashIgnoresLeadingSlashes(k: nat, s: string)
    ensures LStripSlash(Slashes(k) + s) == LStripSlash(s)
  {
    var r := LStripSlash(s);
    var m := |s| - |r|;
    SlashesAdd(k, m);
    assert Slashes(k) + s == Slashes(k + m) + r;
    LStripSlashUnique(k + m, r);
  }

  /** The URL of a query before any path: `{proto}://{host}:{port}/`. */
  function Prefix(protocol: string, host: string, port: string): (p: string)
    ensures |p| == |protocol| + |host| + |port| + 5
    ensures p[..|protocol| + 3] == protocol + "://"
    ensures p[|p| - 1] == '/'
  {
    protocol + "://" + host + ":" + port + "/"
  }

  /** What the query appends to the prefix: the path without its leading slashes, if the path is truthy. */
  function PathPart(path: Option<string>): (r: string)
    ensures !Truthy(path) ==> r == ""
    ensures Truthy(path) ==> |r| <= |path.value| && path.value == Slashes(|path.value| - |r|) + r
    ensures r == [] || r[0] != '/'
  {
    if Truthy(path) then LStripSlash(path.value) else ""
  }

  /**
   * The URL a query sends its GET to. It starts with the prefix; with no
   * (or an empty) path it is the prefix alone; otherwise the rest is the path
   * with its leading slashes removed, so it never starts with a second slash.
   */
  function BuildUrl(protocol: string, host: string, port: string, path: Option<string>): (url: string)
    ensures |Prefix(protocol, host, port)| <= |url|
    ensures url[..|Prefix(protocol, host, port)|] == Prefix(protocol, host, port)
    ensures !Truthy(path) ==> url == Prefix(protocol, host, port)
    ensures Truthy(path) ==>
      var rest := url[|Prefix(protocol, host, port)|..];
      |rest| <= |path.value| && path.value == Slashes(|path.value| - |rest|) + rest
    ensures |url| == |Prefix(protocol, host, port)| || url[|Prefix(protocol, host, port)|] != '/'
  {
    var prefix := Prefix(protocol, host, port);
    var url := prefix + PathPart(path);
    assert url[..|prefix|] == prefix;
    assert url[|prefix|..] == PathPart(path);
    url
  }

  /** Leading slashes on the path do not change the URL. */
  lemma BuildUrlIgnoresLeadingSlashes(protocol: string, host: string, port: string, k: nat, path: string)
    ensures BuildUrl(protocol, host, port, Some(Slashes(k) + path)) == BuildUrl(protocol, host, port, Some(path))
  {
    LStripSlashIgnoresLeadingSlashes(k, path);
    if path == "" {
      assert Slashes(k) + path == Slashes(k);
      assert Slashes(k) == Slashes(k) + "";
      LStripSlashUnique(k, "");
    }
  }

  /** A path with leading slashes before a slash-free rest yields exactly the prefix followed by that rest. */
  lemma BuildUrlWithPath(protocol: string, host: string, port: string, k: nat, path: string)
    requires path == [] || path[0] != '/'
    ensures BuildUrl(protocol, host, port, Some(Slashes(k) + path)) == Prefix(protocol, host, port) + path
  {
    LStripSlashUnique(k, path);
    assert Prefix(protocol, host, port) + [] == Prefix(protocol, host, port);
  }

  /** Same connection, same URL exactly when the stripped paths agree. */
  lemma BuildUrlDeterminesPath(protocol: string, host: string, port: string, a: Option<string>, b: Option<string>)
    ensures BuildUrl(protocol, host, port, a) == BuildUrl(protocol, host, port, b) <==> PathPart(a) == PathPart(b)
  {
  }

  /**
   * The basic-auth credentials of a query: the pair exactly when both the
   * user and the password are truthy, and `None` when either is `None` or empty.
   */
  function Auth(user: Option<string>, password: Option<string>): (r: Option<Credentials>)
    ensures r.None? <==> (user == None || user == Some("") || password == None || password == Some(""))
    ensures r.Some? ==> r.value.user == user.value && r.value.password == password.value
  {
    if Truthy(user) && Truthy(password) then Some(Credentials(user.value, password.value)) else None
  }

  /** A decimal digit character. */
  function DigitChar(d: nat): (c: char)
    requires d < 10
    ensures '0' <= c <= '9'
  {
    ('0' as int + d) as char
  }

  predicate IsDigits(s: string)
  {
    forall i :: 0 <= i < |s| ==> '0' <= s[i] <= '9'
  }

  /** Python's `str(n)` for a natural number: decimal digits, no leading zero. */
  function NatToDecimal(n: nat): (s: string)
    ensures s != [] && IsDigits(s)
    ensures s[0] == '0' ==> s == "0"
    decreases n
  {
    if n < 10 then [DigitChar(n)] else NatToDecimal(n / 10) + [DigitChar(n % 10)]
  }

  /** The number a string of decimal digits denotes. */
  function DecimalValue(s: string): nat
    requires IsDigits(s)
  {
    if s == [] then 0 else DecimalValue(s[..|s| - 1]) * 10 + (s[|s| - 1] as int - '0' as int)
  }

  /** Rendering a number in decimal loses nothing: reading the digits back gives the number. */
  lemma {:induction false} DecimalRoundTrip(n: nat)
    ensures DecimalValue(NatToDecimal(n)) == n
    decreases n
  {
    var s := NatToDecimal(n);
    if n >= 10 {
      DecimalRoundTrip(n / 10);
      assert s[..|s| - 1] == NatToDecimal(n / 10);
    }
  }

  /** Python's `str(i)` for an integer: a minus sign before the digits of a negative one. */
  function IntToText(i: int): (s: string)
    ensures s != [] && '/' !in s
    ensures s[0] == '-' <==> i < 0
    ensures s[0] != '-' ==> '0' <= s[0] <= '9'
  {
    if i < 0 then "-" + NatToDecimal(-i) else NatToDecimal(i)
  }

  /** The text of an integer reads back as that integer: its digits, after the sign, give its magnitude. */
  lemma IntToTextRoundTrip(i: int)
    ensures var s := IntToText(i);
      if i < 0 then IsDigits(s[1..]) && DecimalValue(s[1..]) == -i
      else IsDigits(s) && DecimalValue(s) == i
  {
    if i < 0 {
      DecimalRoundTrip(-i);
      assert IntToText(i)[1..] == NatToDecimal(-i);
    } else {
      DecimalRoundTrip(i);
    }
  }
}
