/** The gateway that loads a rendered configuration: whom it accepts, and where its routes lead. */
module RenderedGateway {
  import opened Clock
  import opened Common
  import opened Controllers
  import opened Rendering
  import opened Routing
  import opened Verifiers

  /** Load, on a configuration that reads back from its YAML: defaults, and no start without routes or services. */
  function Loaded(cfg: GatewayConfig): (c: Option<GatewayConfig>) {
    if cfg.routes == [] || cfg.services == [] then None
    else Some(cfg.(audience := if cfg.audience == "" then "gateway" else cfg.audience))
  }

  /** The verifier the gateway starts with, unless it has no keys or a bad one. */
  function VerifierOf(p: Platform, cfg: GatewayConfig): (c: Option<Config>) {
    if cfg.clientKeys == [] || KeysOf(p, cfg.clientKeys).None? then None
    else Some(Config(KeysOf(p, cfg.clientKeys).value, cfg.issuer, cfg.audience))
  }

  /** The audience the gateway of a resource answers to. */
  function AudienceOf(spec: Spec): (aud: string) {
    if spec.audience == "" then "gateway" else spec.audience
  }

  /** The gateway of a resource starts exactly when there are routes, services and keys, each key 32 bytes of base64. */
  lemma {:induction false} StartsIff(p: Platform, spec: Spec, keys: seq<Registration>, redisUrl: string,
                                     tlsSecret: string)
    ensures var c := Loaded(Rendered(spec, keys, redisUrl, tlsSecret));
            && (c.Some? <==> spec.routes != [] && spec.services != [])
            && (c.Some? ==>
                  (VerifierOf(p, c.value).Some? <==>
                   keys != [] && forall i | 0 <= i < |keys| :: DecodesTo32(p, keys[i].pubBase64)))
  {
    KeysOnFields(p, keys);
  }

  /** The claims are for the gateway of this resource and for this moment, in nanoseconds. */
  ghost predicate MeantFor(spec: Spec, c: Claims, now: int) {
    && (spec.issuer == "" || c.iss == spec.issuer) && c.aud == AudienceOf(spec) && c.jti != ""
    && c.exp != 0 && now <= c.exp * 1_000_000_000
    && (c.iat == 0 || c.iat * 1_000_000_000 <= now + 30_000_000_000)
  }

  /**
   * Whom the gateway of a resource lets past its checks: exactly the holders of properly signed tokens of the
   * resource's issuer for the resource's audience, in their time; the keys are those of the Secret, by their last
   * registrations.
   */
  lemma {:induction false} AcceptsIff(p: Platform, spec: Spec, keys: seq<Registration>, redisUrl: string,
                                      tlsSecret: string,
                                      loaded: GatewayConfig, cfg: Config, token: string, now: int, v: Verified)
    requires Loaded(Rendered(spec, keys, redisUrl, tlsSecret)) == Some(loaded) && VerifierOf(p, loaded) == Some(cfg)
    ensures Registers(p, keys, cfg.keys)
    ensures Authenticate(p, cfg, token, now) == Ok(v) <==> Authentic(p, cfg, token, v) && MeantFor(spec, v.claims, now)
  {
    LoadedFields(p, spec, keys, redisUrl, tlsSecret, loaded, cfg);
    AuthenticateIff(p, cfg, token, now, v);
    CurrentIsMeant(spec, cfg, v.claims, now);
  }

  lemma {:induction false} LoadedFields(p: Platform, spec: Spec, keys: seq<Registration>, redisUrl: string,
                                        tlsSecret: string, loaded: GatewayConfig, cfg: Config)
    requires Loaded(Rendered(spec, keys, redisUrl, tlsSecret)) == Some(loaded) && VerifierOf(p, loaded) == Some(cfg)
    ensures cfg.issuer == spec.issuer && cfg.audience == AudienceOf(spec) && Registers(p, keys, cfg.keys)
  {
    KeysOnFields(p, keys);
  }

  lemma {:induction false} CurrentIsMeant(spec: Spec, cfg: Config, c: Claims, now: int)
    requires cfg.issuer == spec.issuer && cfg.audience == AudienceOf(spec)
    ensures Current(cfg, c, now) <==> MeantFor(spec, c, now)
  {
  }

  /** The port of service k's addresses: the last positive one among services 0..k, else 8443. */
  ghost predicate PortOf(services: seq<ServiceSpec>, k: nat, port: int) {
    || (exists i :: LastPositive(services, k, i) && port == services[i].port)
    || (port == 8443 && forall i | 0 <= i <= k && i < |services| :: services[i].port <= 0)
  }

  lemma {:induction false} CarriedPortOf(services: seq<ServiceSpec>, k: nat)
    requires k < |services|
    ensures PortOf(services, k, CarriedPort(services, k + 1)) && CarriedPort(services, k + 1) > 0
  {
    CarriedPortMeaning(services, k);
  }

  /** The address stands for this backend, in this namespace, on this port. */
  ghost predicate AddressOf(addr: string, id: string, namespace: string, port: int) {
    exists digits ::
      && addr == "https://" + id + "." + namespace + ".svc.cluster.local:" + digits
      && DecimalDigits(digits) && ReadDecimal(digits) == port
  }

  /** A rendered service is the resource's: its name, its health path, and one address per backend on its port. */
  ghost predicate Serves(spec: Spec, k: nat, out: ServiceOut)
    requires k < |spec.services|
  {
    var s := spec.services[k];
    && out.name == s.name && out.healthPath == (if s.healthPath == "" then "/healthz" else s.healthPath)
    && |out.backends| == |s.backends|
    && exists port :: PortOf(spec.services, k, port)
         && forall i | 0 <= i < |s.backends| ::
              out.backends[i].id == s.backends[i] && AddressOf(out.backends[i].addr, s.backends[i], spec.namespace,
                                                               port)
  }

  lemma {:induction false} ServiceAtServes(spec: Spec, k: nat)
    requires k < |spec.services|
    ensures Serves(spec, k, ServiceAt(spec, k))
  {
    var s, out, port := spec.services[k], ServiceAt(spec, k), CarriedPort(spec.services, k + 1);
    CarriedPortOf(spec.services, k);
    forall i | 0 <= i < |s.backends|
      ensures out.backends[i].id == s.backends[i] && AddressOf(out.backends[i].addr, s.backends[i], spec.namespace,
                                                               port)
    {
      var digits := AddressMeaning(s.backends[i], spec.namespace, port);
    }
  }

  /**
   * Where the routes lead: a path goes to the first of the resource's routes whose prefix it has, with that route's
   * service and scope; and every service is rendered as the resource describes it.
   */
  lemma {:induction false} RoutesLead(spec: Spec, keys: seq<Registration>, redisUrl: string, tlsSecret: string,
                                      loaded: GatewayConfig, path: string)
    requires Loaded(Rendered(spec, keys, redisUrl, tlsSecret)) == Some(loaded)
    ensures match FirstMatch(loaded.routes, path)
            case Some(r) => exists i :: IsFirst(spec.routes, path, i) && spec.routes[i] == r
            case None => forall i | 0 <= i < |spec.routes| :: !(spec.routes[i].prefix <= path)
    ensures |loaded.services| == |spec.services|
    ensures forall k: nat | k < |spec.services| :: Serves(spec, k, loaded.services[k])
  {
    FirstMatchMeaning(spec.routes, path);
    forall k: nat | k < |spec.services|
      ensures Serves(spec, k, loaded.services[k])
    {
      ServiceAtServes(spec, k);
    }
  }

  /**
   * What a reconcile renders, on the fields of the resources it read: TLS exactly when an issuer or a Secret is named.
   */
  lemma {:induction false} ReconcileRenders(i: Inputs)
    requires RenderedBy(i).Some?
    ensures var cfg, spec := RenderedBy(i).value, i.resource.value;
            && cfg.issuer == spec.issuer && cfg.audience == spec.audience && cfg.nonceTtl == spec.nonceTtl
            && cfg.routes == spec.routes && cfg.clientKeys == i.keys.value
            && cfg.redisUrl == (if i.redis.Some? then i.redis.value else "")
            && (cfg.listenCert != "" <==> i.tls.FromIssuer? || (i.tls.FromSecret? && i.tls.name != ""))
            && (cfg.listenKey != "" <==> cfg.listenCert != "")
  {
  }
}
