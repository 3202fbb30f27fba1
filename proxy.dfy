/** The proxy configuration, the per-attempt proxy identity built from it
    (app.py 31-48, 437-451) and the launch options the driver derives from
    that identity (app.py 148-154). */
module Proxy {
  import opened Base

  /** The four settings read from the environment; `None` when unset. */
  datatype ProxyConfig = ProxyConfig(
    host: Option<string>, port: Option<string>, baseUser: Option<string>, pass: Option<string>)

  /** Python truthiness of an environment value: set and non-empty. */
  predicate Present(v: Option<string>)
  {
    v.Some? && v.value != ""
  }

  /** `PROXY_CONFIGURED = all([PROXY_HOST, PROXY_PORT, PROXY_BASE_USER, PROXY_PASS])`. */
  predicate Configured(c: ProxyConfig)
  {
    Present(c.host) && Present(c.port) && Present(c.baseUser) && Present(c.pass)
  }

  /** The names listed in the "Missing:" warning, in the source's order. */
  function MissingSettings(c: ProxyConfig): (names: seq<string>)
    ensures names == [] <==> Configured(c)
    ensures "PROXY_PASS" in names <==> !Present(c.pass)
    ensures "PROXY_HOST" in names <==> !Present(c.host)
    ensures "PROXY_PORT" in names <==> !Present(c.port)
    ensures "PROXY_BASE_USER" in names <==> !Present(c.baseUser)
  {
    (if Present(c.host) then [] else ["PROXY_HOST"]) +
    (if Present(c.port) then [] else ["PROXY_PORT"]) +
    (if Present(c.baseUser) then [] else ["PROXY_BASE_USER"]) +
    (if Present(c.pass) then [] else ["PROXY_PASS"])
  }

  /** The `dynamic_proxy_details` dictionary handed to the driver. */
  datatype ProxyDetails = ProxyDetails(host: string, port: string, user: string, pass: string)

  /** The routing hint the proxy service reads from the user name. */
  const ZipTag: string := ";zip."

  /** `f"{PROXY_BASE_USER};zip.{current_zip}"`. */
  function SessionUser(baseUser: string, zip: string): string
  {
    baseUser + ZipTag + zip
  }

  /** Recovers the zip from a session user name built on `baseUser`. */
  function ZipOfUser(baseUser: string, user: string): (z: Option<string>)
    ensures z.Some? ==> SessionUser(baseUser, z.value) == user
  {
    var k := |baseUser| + |ZipTag|;
    if k <= |user| && user[..k] == baseUser + ZipTag then Some(user[k..]) else None
  }

  /** The zip can be read back from the session user name. */
  lemma ZipOfSessionUser(baseUser: string, zip: string)
    ensures ZipOfUser(baseUser, SessionUser(baseUser, zip)) == Some(zip)
  {
    var u := SessionUser(baseUser, zip);
    assert u[..|baseUser| + |ZipTag|] == baseUser + ZipTag;
    assert u[|baseUser| + |ZipTag|..] == zip;
  }

  /** Different zips give different session users, so every attempt of a
      run, which uses a fresh zip, asks the proxy service for its own exit. */
  lemma SessionUserInjective(baseUser: string, z1: string, z2: string)
    ensures SessionUser(baseUser, z1) == SessionUser(baseUser, z2) ==> z1 == z2
  {
    ZipOfSessionUser(baseUser, z1);
    ZipOfSessionUser(baseUser, z2);
  }

  /** The proxy details for one attempt (437-451). */
  function ProxyFor(c: ProxyConfig, zip: string): Option<ProxyDetails>
  {
    if Configured(c) then
      Some(ProxyDetails(c.host.value, c.port.value, SessionUser(c.baseUser.value, zip), c.pass.value))
    else
      None
  }

  /** The details are `None` unless the proxy is fully configured; otherwise
      host, port and password are copied and the zip can be read back from
      the user name. */
  lemma ProxyForFields(c: ProxyConfig, zip: string)
    ensures ProxyFor(c, zip).Some? <==> Configured(c)
    ensures var d := ProxyFor(c, zip);
            d.Some? ==> d.value.host == c.host.value && d.value.port == c.port.value &&
                        d.value.pass == c.pass.value &&
                        ZipOfUser(c.baseUser.value, d.value.user) == Some(zip)
  {
    if Configured(c) {
      ZipOfSessionUser(c.baseUser.value, zip);
    }
  }

  // ---------------------------------------------------------------------
  // Launch options

  /** The Playwright `proxy` launch option. */
  datatype ProxyOptions = ProxyOptions(server: string, username: string, password: string)

  const Scheme: string := "http://"

  /** `f"http://{host}:{port}"`. */
  function ServerString(host: string, port: string): string
  {
    Scheme + host + ":" + port
  }

  /** Index of the first `c` in `s`, or `|s|` when there is none. */
  function IndexOf(s: string, c: char): (k: nat)
    ensures k <= |s| && (k < |s| ==> s[k] == c)
    ensures forall i :: 0 <= i < k ==> s[i] != c
  {
    if s == [] then 0 else if s[0] == c then 0 else 1 + IndexOf(s[1..], c)
  }

  /** Reads host and port back from a server string. */
  function SplitServer(server: string): Option<(string, string)>
  {
    if |Scheme| <= |server| && server[..|Scheme|] == Scheme then
      var rest := server[|Scheme|..];
      var k := IndexOf(rest, ':');
      if k < |rest| then Some((rest[..k], rest[k + 1..])) else None
    else
      None
  }

  /** The server string names exactly the configured host and port, as long
      as the host has no colon of its own. */
  lemma ServerStringRoundTrip(host: string, port: string)
    requires ':' !in host
    ensures SplitServer(ServerString(host, port)) == Some((host, port))
  {
    var s := ServerString(host, port);
    assert s[..|Scheme|] == Scheme;
    var rest := s[|Scheme|..];
    assert rest == host + (":" + port);
    IndexOfPrefix(host, ":" + port, ':');
    var k := IndexOf(rest, ':');
    assert k == |host| && k < |rest|;
    assert rest[..k] == host;
    assert rest[k + 1..] == port;
  }

  /** The first `c` in `a + b` is in `b` when `a` has none. */
  lemma {:induction false} IndexOfPrefix(a: string, b: string, c: char)
    requires c !in a && b != [] && b[0] == c
    ensures IndexOf(a + b, c) == |a|
  {
    if a != [] {
      assert (a + b)[1..] == a[1..] + b;
      IndexOfPrefix(a[1..], b, c);
    } else {
      assert a + b == b;
    }
  }

  /** `proxy_options`: built only when proxy details were given. */
  function OptionsFor(d: Option<ProxyDetails>): (o: Option<ProxyOptions>)
    ensures o.Some? <==> d.Some?
    ensures d.Some? ==> o.value.username == d.value.user && o.value.password == d.value.pass
  {
    match d
    case None => None
    case Some(p) => Some(ProxyOptions(ServerString(p.host, p.port), p.user, p.pass))
  }

  /** The launch options point at the configured host and port. */
  lemma OptionsNameServer(d: ProxyDetails)
    requires ':' !in d.host
    ensures SplitServer(OptionsFor(Some(d)).value.server) == Some((d.host, d.port))
  {
    ServerStringRoundTrip(d.host, d.port);
  }
}
