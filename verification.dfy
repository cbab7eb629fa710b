/**
 * The inputs getHandleResponse hands to the verification library: which
 * token, and which remote IP. The library call itself is a parameter of the
 * manager's methods.
 */
module Verification {
  import opened Wrappers
  import opened Php

  /** What the manager reads from the current HTTP request. */
  datatype Request = Request(responseField: Option<string>, clientIp: Option<string>)

  /** The library's verification client, built from the secret key; `socketPost` when `allow_url_fopen` is off. */
  datatype Driver = Driver(secret: Option<string>, socketPost: bool)

  /** The library's verdict; `errorCodes` is passed through uninterpreted. */
  datatype Response = Response(success: bool, errorCodes: seq<string>)

  /** The token: the explicit value when given, else the `g-recaptcha-response` request field. */
  function ResolveToken(value: Option<string>, request: Request): (token: Option<string>)
    ensures value.Some? ==> token == value
    ensures value.None? ==> token == request.responseField
  {
    if value.Some? then value else request.responseField
  }

  /**
   * The remote IP: `null` sends the client's IP, an `empty()` IP ("" or "0")
   * sends none, any other IP is sent unchanged.
   */
  function ResolveRemoteIp(ip: Option<string>, clientIp: Option<string>): (remote: Option<string>)
    ensures ip.None? ==> remote == clientIp
    ensures ip.Some? && EmptyString(ip.value) ==> remote == None
    ensures Truthy(ip) ==> remote == ip
  {
    if ip.None? then clientIp
    else if EmptyString(ip.value) then None
    else ip
  }

  /** An IP is sent exactly when one is given and non-empty, or none is given and the client's is known; it is never made up. */
  lemma RemoteIpSent(ip: Option<string>, clientIp: Option<string>)
    ensures ResolveRemoteIp(ip, clientIp).Some? <==> Truthy(ip) || (ip.None? && clientIp.Some?)
    ensures ResolveRemoteIp(ip, clientIp) in {None, ip, clientIp}
  {
  }

  /** The client the manager builds on first use. */
  function NewDriver(secret: Option<string>, allowUrlFopen: bool): (d: Driver)
    ensures d.secret == secret
    ensures d.socketPost <==> !allowUrlFopen
  {
    Driver(secret, !allowUrlFopen)
  }
}
