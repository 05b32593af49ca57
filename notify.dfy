/** The completion webhook (Upload.SendNotify): a fixed chain of preflight guards, each
    returning its own error, before one body-less request is handed to the transport.
    The foreign steps (URL parsing, reading the CA file, PEM decoding, building the
    request, the round trip) are given by an environment record. */
module Notify {
  import opened Base
  import opened Config

  const Version: string := "0.12"
  const UserAgent: string := "MyUpload-Handler_v" + Version

  /** A parsed URL: its scheme and its re-serialised text (url.String()). */
  datatype Url = Url(scheme: string, text: string)

  /** What reading the CA file yields: nothing, or contents holding some number of
      PEM certificates that x509 can add to a pool. */
  datatype CaFile = Unreadable | Read(certificates: nat)

  datatype NotifyEnv = NotifyEnv(
    url: Option<Url>,           // url.Parse(NotifyURL)
    caFile: CaFile,             // ioutil.ReadFile(CAPath)
    requestBuilds: bool,        // http.NewRequestWithContext succeeds
    transport: Option<nat>)     // httpClient.Do: None on error, else the response status

  /** The request handed to the transport, with the TLS policy it is sent under. */
  datatype NotifyRequest = NotifyRequest(
    verb: string,
    url: string,
    userAgent: string,
    body: Option<seq<byte>>,
    skipVerify: bool,
    customRoots: bool)

  /** The guards, in the order the code runs them; each names the error it returns. */
  datatype Guard = UrlParse | InsecureScheme | CaPathScheme | CaRead | PemParse | RequestBuild | Transport

  function Rank(g: Guard): nat
  {
    match g
    case UrlParse => 0
    case InsecureScheme => 1
    case CaPathScheme => 2
    case CaRead => 3
    case PemParse => 4
    case RequestBuild => 5
    case Transport => 6
  }

  /** The condition under which guard g rejects, read on its own. */
  predicate Fails(c: UploadConfig, env: NotifyEnv, g: Guard)
  {
    match g
    case UrlParse => env.url.None?
    case InsecureScheme => env.url.Some? && c.insecureSkipVerify && env.url.value.scheme != "https"
    case CaPathScheme => env.url.Some? && c.caPath != "" && env.url.value.scheme != "https"
    case CaRead => c.caPath != "" && env.caFile.Unreadable?
    case PemParse => c.caPath != "" && env.caFile.Read? && env.caFile.certificates == 0
    case RequestBuild => !env.requestBuilds
    case Transport => env.transport.None?
  }

  /** `sent` is the request given to the transport, if one was; `err` the error returned. */
  datatype NotifyResult = NotifyResult(sent: Option<NotifyRequest>, err: Option<Guard>)

  /** The guard chain of notify.go:14-104. */
  function SendNotify(c: UploadConfig, env: NotifyEnv): NotifyResult
  {
    match env.url
    case None => NotifyResult(None, Some(UrlParse))
    case Some(u) =>
      if c.insecureSkipVerify && u.scheme != "https" then NotifyResult(None, Some(InsecureScheme))
      else if c.caPath != "" && u.scheme != "https" then NotifyResult(None, Some(CaPathScheme))
      else if c.caPath != "" && env.caFile.Unreadable? then NotifyResult(None, Some(CaRead))
      else if c.caPath != "" && env.caFile.certificates == 0 then NotifyResult(None, Some(PemParse))
      else if !env.requestBuilds then NotifyResult(None, Some(RequestBuild))
      else
        var req := NotifyRequest(c.notifyMethod, u.text, UserAgent, None, c.insecureSkipVerify, c.caPath != "");
        match env.transport
        case None => NotifyResult(Some(req), Some(Transport))
        case Some(_) => NotifyResult(Some(req), None)
  }

  /** What SendNotify returns, read against the guards on their own: the error is the
      first guard, in code order, that rejects; a request reaches the transport exactly
      when every preflight guard passes; and what is sent is the configured method with no
      body, the fixed user agent, and TLS options that are only in force over https. */
  lemma SendNotifyOutcome(c: UploadConfig, env: NotifyEnv)
    ensures var r := SendNotify(c, env);
      && (r.err.Some? ==> Fails(c, env, r.err.value))
      && (r.err.Some? ==> forall g :: Rank(g) < Rank(r.err.value) ==> !Fails(c, env, g))
      && (r.err.None? <==> forall g :: !Fails(c, env, g))
      && (r.sent.Some? <==> forall g :: g != Transport ==> !Fails(c, env, g))
      && (r.sent.None? ==> r.err.Some? && r.err != Some(Transport))
    ensures var r := SendNotify(c, env);
      r.sent.Some? ==>
        && env.url.Some? && r.sent.value.url == env.url.value.text
        && r.sent.value.verb == c.notifyMethod && r.sent.value.body == None
        && r.sent.value.userAgent == "MyUpload-Handler_v0.12"
        && r.sent.value.skipVerify == c.insecureSkipVerify
        && r.sent.value.customRoots == (c.caPath != "")
        && (r.sent.value.skipVerify || r.sent.value.customRoots ==> env.url.value.scheme == "https")
  {
    match env.url
    case None =>
      assert Fails(c, env, UrlParse);
    case Some(u) =>
      if c.insecureSkipVerify && u.scheme != "https" {
        assert Fails(c, env, InsecureScheme);
      } else if c.caPath != "" && u.scheme != "https" {
        assert Fails(c, env, CaPathScheme);
      } else if c.caPath != "" && env.caFile.Unreadable? {
        assert Fails(c, env, CaRead);
      } else if c.caPath != "" && env.caFile.certificates == 0 {
        assert Fails(c, env, PemParse);
      } else if !env.requestBuilds {
        assert Fails(c, env, RequestBuild);
      } else if env.transport.None? {
        assert Fails(c, env, Transport);
      }
  }

  /** The response is not inspected: any status the server answers with is success. */
  lemma AnyStatusIsSuccess(c: UploadConfig, env: NotifyEnv, status: nat)
    requires SendNotify(c, env).sent.Some?
    ensures SendNotify(c, env.(transport := Some(status))).err == None
  {
    var env' := env.(transport := Some(status));
    SendNotifyOutcome(c, env);
    SendNotifyOutcome(c, env');
    assert forall g :: g != Transport ==> (Fails(c, env', g) <==> Fails(c, env, g));
    assert !Fails(c, env', Transport);
  }

  /** Neither TLS option is accepted over a non-https URL: nothing is sent, whatever the
      CA file, the request builder and the transport would have done. */
  lemma TlsOptionsNeedHttps(c: UploadConfig, env: NotifyEnv)
    requires env.url.Some? && env.url.value.scheme != "https"
    requires c.insecureSkipVerify || c.caPath != ""
    ensures SendNotify(c, env).sent == None
    ensures SendNotify(c, env).err == Some(if c.insecureSkipVerify then InsecureScheme else CaPathScheme)
  {
  }
}
