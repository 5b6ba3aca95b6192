/**
 * Host strings of the public chat client: trailing-slash trimming, the HTTP host derived
 * from the websocket host, and the defaults read from the build-time environment.
 */
module Hosts {
  import opened Wrappers
  import opened JsString

  /**
   * `value.replace(/\/+$/, "")`: removes the whole run of `/` at the end of `value`.
   * The result is a prefix of `value`, does not end in `/`, and only `/` was removed.
   */
  function TrimTrailingSlash(value: string): (r: string)
    ensures r <= value
    ensures |r| == 0 || r[|r| - 1] != '/'
    ensures forall i :: |r| <= i < |value| ==> value[i] == '/'
  {
    if |value| > 0 && value[|value| - 1] == '/' then TrimTrailingSlash(value[..|value| - 1])
    else value
  }

  /** Trimming twice is trimming once. */
  lemma TrimTrailingSlashIdempotent(value: string)
    ensures TrimTrailingSlash(TrimTrailingSlash(value)) == TrimTrailingSlash(value)
  {
  }

  /** The three properties of TrimTrailingSlash's contract determine its result. */
  lemma TrimTrailingSlashUnique(value: string, r: string)
    requires r <= value
    requires |r| == 0 || r[|r| - 1] != '/'
    requires forall i :: |r| <= i < |value| ==> value[i] == '/'
    ensures r == TrimTrailingSlash(value)
  {
  }

  const SecureWsScheme: string := "wss://"
  const PlainWsScheme: string := "ws://"
  const SecureHttpScheme: string := "https://"
  const PlainHttpScheme: string := "http://"

  /**
   * `resolveHttpHost(wsHost, httpHost)`: a truthy `httpHost` wins, trimmed of trailing
   * slashes; otherwise the trimmed websocket host with `wss://` turned into `https://`
   * or `ws://` into `http://`, and any other host only trimmed. The result never ends in `/`.
   */
  function ResolveHttpHost(wsHost: string, httpHost: Option<string>): (r: string)
    ensures Truthy(httpHost) ==> r == TrimTrailingSlash(httpHost.value)
    ensures !Truthy(httpHost) ==>
      var n := TrimTrailingSlash(wsHost);
      && (StartsWith(n, SecureWsScheme) ==> r == SecureHttpScheme + n[|SecureWsScheme|..])
      && (StartsWith(n, PlainWsScheme) ==> r == PlainHttpScheme + n[|PlainWsScheme|..])
      && (!StartsWith(n, SecureWsScheme) && !StartsWith(n, PlainWsScheme) ==> r == n)
    ensures |r| == 0 || r[|r| - 1] != '/'
  {
    if Truthy(httpHost) then TrimTrailingSlash(httpHost.value)
    else
      var normalized := TrimTrailingSlash(wsHost);
      SchemesExclusive(normalized);
      if StartsWith(normalized, SecureWsScheme) then
        ReplaceFirstOfPrefix(normalized, SecureWsScheme, SecureHttpScheme);
        assert normalized[|normalized| - 1] != '/';
        ReplaceFirst(normalized, SecureWsScheme, SecureHttpScheme)
      else if StartsWith(normalized, PlainWsScheme) then
        ReplaceFirstOfPrefix(normalized, PlainWsScheme, PlainHttpScheme);
        assert normalized[|normalized| - 1] != '/';
        ReplaceFirst(normalized, PlainWsScheme, PlainHttpScheme)
      else normalized
  }

  /** A host that starts with `wss://` never also starts with `ws://`: at most one rewrite applies. */
  lemma SchemesExclusive(host: string)
    ensures !(StartsWith(host, SecureWsScheme) && StartsWith(host, PlainWsScheme))
  {
    if StartsWith(host, SecureWsScheme) {
      assert host[2] == SecureWsScheme[2] != PlainWsScheme[2];
    }
  }

  const DefaultLocalWsHost: string := "ws://localhost:4000"

  /** `env[key]`, or `undefined` when the variable is not set. */
  function EnvVar(env: map<string, string>, key: string): Option<string> {
    if key in env then Some(env[key]) else None
  }

  /**
   * `NEXT_PUBLIC_SOUL_ENGINE_WS_URL || NEXT_PUBLIC_HOCUS_POCUS_HOST || "ws://localhost:4000"`:
   * the first truthy variable, else the local default; never empty.
   */
  function DefaultWsHost(env: map<string, string>): (r: string)
    ensures r != ""
    ensures Truthy(EnvVar(env, "NEXT_PUBLIC_SOUL_ENGINE_WS_URL")) ==> r == env["NEXT_PUBLIC_SOUL_ENGINE_WS_URL"]
    ensures !Truthy(EnvVar(env, "NEXT_PUBLIC_SOUL_ENGINE_WS_URL")) && Truthy(EnvVar(env, "NEXT_PUBLIC_HOCUS_POCUS_HOST"))
      ==> r == env["NEXT_PUBLIC_HOCUS_POCUS_HOST"]
    ensures !Truthy(EnvVar(env, "NEXT_PUBLIC_SOUL_ENGINE_WS_URL")) && !Truthy(EnvVar(env, "NEXT_PUBLIC_HOCUS_POCUS_HOST"))
      ==> r == DefaultLocalWsHost
  {
    var primary := EnvVar(env, "NEXT_PUBLIC_SOUL_ENGINE_WS_URL");
    var secondary := EnvVar(env, "NEXT_PUBLIC_HOCUS_POCUS_HOST");
    if Truthy(primary) then primary.value
    else if Truthy(secondary) then secondary.value
    else DefaultLocalWsHost
  }

  /** `NEXT_PUBLIC_SOUL_ENGINE_HTTP_URL`, possibly unset. */
  function DefaultHttpHost(env: map<string, string>): Option<string> {
    EnvVar(env, "NEXT_PUBLIC_SOUL_ENGINE_HTTP_URL")
  }

  /** A client's two hosts: the trimmed default websocket host and the HTTP host derived from it. */
  datatype ClientHosts = ClientHosts(wsHost: string, httpHost: string)

  function HostsFromEnv(env: map<string, string>): ClientHosts {
    var wsHost := TrimTrailingSlash(DefaultWsHost(env));
    ClientHosts(wsHost, ResolveHttpHost(wsHost, DefaultHttpHost(env)))
  }

  /** The websocket address of one organization: `${wsHost}/${organizationSlug}/experience`. */
  function ExperienceUrl(wsHost: string, organizationSlug: string): string {
    wsHost + "/" + organizationSlug + "/experience"
  }

  /** The token endpoint the client posts to: `${httpHost}/auth/token`. */
  function TokenUrl(httpHost: string): string {
    httpHost + "/auth/token"
  }

  /**
   * Neither host the client derives from its environment ends in `/`, whatever slashes the
   * configured values end in.
   */
  lemma HostsFromEnvTrimmed(env: map<string, string>)
    ensures var hosts := HostsFromEnv(env);
      && (|hosts.wsHost| == 0 || hosts.wsHost[|hosts.wsHost| - 1] != '/')
      && (|hosts.httpHost| == 0 || hosts.httpHost[|hosts.httpHost| - 1] != '/')
  {
  }
}
