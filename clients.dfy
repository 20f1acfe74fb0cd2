/**
 * The client manager's pure decisions: the proxy configuration derived from the environment
 * (and its cache), the proxy tuple handed to Telethon, the base64 check of a userbot session
 * string, and the status summary.
 */
module Clients {
  import opened Wrappers
  import opened Text

  /** The process environment: a variable that is not set is absent from the map. */
  type Env = map<string, string>

  /** `os.getenv(name)` followed by Python's truth check: set and non-empty. */
  predicate Truthy(env: Env, name: string) {
    name in env && env[name] != ""
  }

  /** The proxy dictionary `{'scheme', 'hostname', 'port'}`. */
  datatype ProxyConfig = ProxyConfig(scheme: string, hostname: string, port: int)

  /** `_get_proxy_config()`. */
  function GetProxyConfig(env: Env): (r: Option<ProxyConfig>)
    // all three TELEGRAM_PROXY_* set: their values, port as an integer, or nothing if the port is not one
    ensures Truthy(env, "TELEGRAM_PROXY_SCHEME") && Truthy(env, "TELEGRAM_PROXY_HOST") && Truthy(env, "TELEGRAM_PROXY_PORT") ==>
      match ParseInt(env["TELEGRAM_PROXY_PORT"])
      case Some(p) => r == Some(ProxyConfig(env["TELEGRAM_PROXY_SCHEME"], env["TELEGRAM_PROXY_HOST"], p))
      case None => r == None
    // otherwise OTHER_PROXY_URL, as an http proxy on port 8080
    ensures !(Truthy(env, "TELEGRAM_PROXY_SCHEME") && Truthy(env, "TELEGRAM_PROXY_HOST") && Truthy(env, "TELEGRAM_PROXY_PORT")) ==>
      r == (if Truthy(env, "OTHER_PROXY_URL") then Some(ProxyConfig("http", env["OTHER_PROXY_URL"], 8080)) else None)
  {
    if Truthy(env, "TELEGRAM_PROXY_SCHEME") && Truthy(env, "TELEGRAM_PROXY_HOST") && Truthy(env, "TELEGRAM_PROXY_PORT") then
      match ParseInt(env["TELEGRAM_PROXY_PORT"])
      case Some(p) => Some(ProxyConfig(env["TELEGRAM_PROXY_SCHEME"], env["TELEGRAM_PROXY_HOST"], p))
      case None => None
    else if Truthy(env, "OTHER_PROXY_URL") then Some(ProxyConfig("http", env["OTHER_PROXY_URL"], 8080))
    else None
  }

  /** A malformed TELEGRAM_PROXY_PORT disables the proxy even when OTHER_PROXY_URL is set. */
  lemma BadPortIgnoresOtherProxy(env: Env)
    requires Truthy(env, "TELEGRAM_PROXY_SCHEME") && Truthy(env, "TELEGRAM_PROXY_HOST") && Truthy(env, "TELEGRAM_PROXY_PORT")
    requires forall i :: 0 <= i < |env["TELEGRAM_PROXY_PORT"]| ==> !IsDigit(env["TELEGRAM_PROXY_PORT"][i])
    ensures GetProxyConfig(env) == None
  {
    ParseIntNeedsDigit(env["TELEGRAM_PROXY_PORT"]);
  }

  /** With the three TELEGRAM_PROXY_* variables set, OTHER_PROXY_URL plays no part. */
  lemma TelegramProxyTakesPrecedence(env: Env)
    requires Truthy(env, "TELEGRAM_PROXY_SCHEME") && Truthy(env, "TELEGRAM_PROXY_HOST") && Truthy(env, "TELEGRAM_PROXY_PORT")
    ensures GetProxyConfig(env) == GetProxyConfig(env - {"OTHER_PROXY_URL"})
  {
  }

  /** The `(scheme, hostname, port)` tuple of `_get_telethon_proxy`: `https` is downgraded to `http`. */
  function TelethonTuple(cfg: Option<ProxyConfig>): (r: Option<(string, string, int)>)
    ensures r.Some? <==> cfg.Some?
    ensures r.Some? ==> r.value.1 == cfg.value.hostname && r.value.2 == cfg.value.port
    ensures r.Some? ==> (r.value.0 == "http" <==> cfg.value.scheme in {"http", "https"})
    ensures r.Some? && cfg.value.scheme != "https" ==> r.value.0 == cfg.value.scheme
  {
    match cfg
    case None => None
    case Some(c) =>
      if c.scheme in ["socks5", "socks4"] then Some((c.scheme, c.hostname, c.port))
      else Some((if c.scheme == "https" then "http" else c.scheme, c.hostname, c.port))
  }

  /** What `get_client_status()` reports. */
  datatype ClientStatus = ClientStatus(
    telethonBot: bool, pyrogramBot: bool, userbot: bool, sessionConfigured: bool, proxyEnabled: bool)

  /**
   * The client manager's state: which clients exist and, for the Pyrogram ones, whether they are
   * connected (`None` = no client); `proxyCache` is `_proxy_config`.
   */
  class ClientManager {
    var bot: bool
    var pyrogramBot: Option<bool>
    var userbot: Option<bool>
    var proxyCache: Option<ProxyConfig>

    constructor ()
      ensures !bot && pyrogramBot == None && userbot == None && proxyCache == None
    {
      bot := false;
      pyrogramBot := None;
      userbot := None;
      proxyCache := None;
    }

    /** The `proxy_config` property: computed on first use and cached, but only once it is not `None`. */
    method ProxyConfigProperty(env: Env) returns (r: Option<ProxyConfig>)
      modifies this`proxyCache
      ensures old(proxyCache).Some? ==> r == old(proxyCache) && proxyCache == old(proxyCache)
      ensures old(proxyCache).None? ==> r == GetProxyConfig(env) && proxyCache == r
    {
      if proxyCache.None? {
        proxyCache := GetProxyConfig(env);
      }
      r := proxyCache;
    }

    /** `_get_telethon_proxy()`: reads the property (the dictionary is truthy whenever it exists). */
    method GetTelethonProxy(env: Env) returns (r: Option<(string, string, int)>)
      modifies this`proxyCache
      ensures old(proxyCache).Some? ==> r == TelethonTuple(old(proxyCache)) && proxyCache == old(proxyCache)
      ensures old(proxyCache).None? ==> r == TelethonTuple(GetProxyConfig(env)) && proxyCache == GetProxyConfig(env)
    {
      var cfg := ProxyConfigProperty(env);
      r := TelethonTuple(cfg);
    }

    /** `_get_pyrogram_proxy()`: the property itself. */
    method GetPyrogramProxy(env: Env) returns (r: Option<ProxyConfig>)
      modifies this`proxyCache
      ensures old(proxyCache).Some? ==> r == old(proxyCache) && proxyCache == old(proxyCache)
      ensures old(proxyCache).None? ==> r == GetProxyConfig(env) && proxyCache == r
    {
      r := ProxyConfigProperty(env);
    }

    /** `get_client_status()`; `session` is the configured SESSION setting. */
    method GetClientStatus(env: Env, session: Option<string>) returns (s: ClientStatus)
      modifies this`proxyCache
      ensures s.telethonBot == bot
      ensures s.pyrogramBot == (pyrogramBot == Some(true)) && s.userbot == (userbot == Some(true))
      ensures s.sessionConfigured == session.Some?
      ensures s.proxyEnabled == proxyCache.Some?
      ensures old(proxyCache).None? ==> proxyCache == GetProxyConfig(env)
      ensures old(proxyCache).Some? ==> proxyCache == old(proxyCache)
    {
      var cfg := ProxyConfigProperty(env);
      s := ClientStatus(bot, pyrogramBot == Some(true), userbot == Some(true), session.Some?, cfg.Some?);
    }
  }

  // ---------------------------------------------------------------- session strings

  /** The base64 alphabet of section 4 of RFC 4648, without the pad character. */
  predicate InAlphabet(c: char) {
    'A' <= c <= 'Z' || 'a' <= c <= 'z' || '0' <= c <= '9' || c == '+' || c == '/'
  }

  /** `re.sub(r'[^A-Za-z0-9+/=]', '', s)`. */
  function Clean(s: string): (r: string)
    ensures forall i :: 0 <= i < |r| ==> InAlphabet(r[i]) || r[i] == '='
    ensures |r| <= |s|
    ensures (forall i :: 0 <= i < |s| ==> !InAlphabet(s[i]) && s[i] != '=') ==> r == []
    decreases |s|
  {
    if s == [] then []
    else (if InAlphabet(s[0]) || s[0] == '=' then [s[0]] else []) + Clean(s[1..])
  }

  /** `re.match(r'^[A-Za-z0-9+/]*={0,2}$', t)` for a cleaned string `t` (which holds no newline). */
  predicate PaddedShape(t: string) {
    PaddedWith(t, 0) || PaddedWith(t, 1) || PaddedWith(t, 2)
  }

  /** `t` is alphabet characters followed by exactly `k` pad characters. */
  predicate PaddedWith(t: string, k: nat) {
    k <= |t|
    && (forall i :: 0 <= i < |t| - k ==> InAlphabet(t[i]))
    && (forall i :: |t| - k <= i < |t| ==> t[i] == '=')
  }

  /** A well-formed base64 text as in section 4 of RFC 4648: whole quanta of four characters from the alphabet,
      with at most two pad characters, all at the end. */
  predicate WellFormedBase64(t: string) {
    |t| % 4 == 0
    && (forall i :: 0 <= i < |t| - 2 ==> InAlphabet(t[i]))
    && (|t| >= 2 ==> (InAlphabet(t[|t| - 2]) || t[|t| - 2] == '=') && (InAlphabet(t[|t| - 1]) || t[|t| - 1] == '='))
    && (|t| >= 2 && t[|t| - 2] == '=' ==> t[|t| - 1] == '=')
  }

  /** The shape check plus the length check are exactly well-formedness in the sense of RFC 4648. */
  lemma ShapeAndLengthIsWellFormed(t: string)
    requires forall i :: 0 <= i < |t| ==> InAlphabet(t[i]) || t[i] == '='
    ensures PaddedShape(t) && |t| % 4 == 0 <==> WellFormedBase64(t)
  {
    if WellFormedBase64(t) {
      var k := if |t| >= 1 && t[|t| - 1] == '=' then (if |t| >= 2 && t[|t| - 2] == '=' then 2 else 1) else 0;
      assert PaddedWith(t, k);
    }
  }

  /** How `_validate_session` ends: `True`, `False`, or the `AttributeError` of calling the undefined `self.logger`. */
  datatype SessionCheck = SessionValid | SessionInvalid | SessionRaises

  /** `_validate_session(session_string)`; `decodes` is `base64.b64decode` succeeding on its argument. */
  function ValidateSession(s: string, decodes: string -> bool): (r: SessionCheck)
    // the length check counts the raw characters, before cleaning
    ensures |s| < 10 ==> r == SessionInvalid
    // every rejection after the length check raises instead of returning False
    ensures r != SessionInvalid <==> |s| >= 10
    ensures r == SessionValid <==> |s| >= 10 && WellFormedBase64(Clean(s)) && decodes(Clean(s))
  {
    ShapeAndLengthIsWellFormed(Clean(s));
    if s == [] || |s| < 10 then SessionInvalid
    else
      var t := Clean(s);
      if !PaddedShape(t) then SessionRaises
      else if |t| % 4 != 0 then SessionRaises
      else if decodes(t) then SessionValid
      else SessionRaises
  }

  /** Ten or more characters none of which is base64 clean down to `""`, which passes. */
  lemma NoiseValidates(s: string, decodes: string -> bool)
    requires |s| >= 10 && forall i :: 0 <= i < |s| ==> !InAlphabet(s[i]) && s[i] != '='
    requires decodes([])
    ensures ValidateSession(s, decodes) == SessionValid
  {
    assert Clean(s) == [];
  }
}
