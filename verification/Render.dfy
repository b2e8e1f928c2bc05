/** Rendering the gateway's configuration from a custom resource and a Secret of client keys. */
module Rendering {
  import opened Base64Url
  import opened Common
  import opened Headers
  import opened Routing
  import opened Verifiers

  const DEFAULT_PORT := 8443

  datatype ServiceSpec = ServiceSpec(name: string, healthPath: string, port: int, backends: seq<string>)

  datatype Spec = Spec(
    issuer: string, audience: string, nonceTtl: string,
    namespace: string, services: seq<ServiceSpec>, routes: seq<Route>)

  datatype BackendOut = BackendOut(id: string, addr: string)

  datatype ServiceOut = ServiceOut(name: string, healthPath: string, backends: seq<BackendOut>)

  datatype GatewayConfig = GatewayConfig(
    listenAddr: string, metricsAddr: string,
    issuer: string, audience: string, nonceTtl: string,
    redisUrl: string, listenCert: string, listenKey: string,
    caCert: string, gatewayCert: string, gatewayKey: string,
    clientKeys: seq<Registration>, services: seq<ServiceOut>, routes: seq<Route>)

  /** The port variable after service k: services without one inherit it from the services before. */
  function CarriedPort(services: seq<ServiceSpec>, k: nat): (port: int)
    requires k <= |services|
  {
    if k == 0 then DEFAULT_PORT
    else if services[k - 1].port > 0 then services[k - 1].port
    else CarriedPort(services, k - 1)
  }

  /** The port documented for a service: its own, else 8443. */
  function DocumentedPort(s: ServiceSpec): (port: int) {
    if s.port > 0 then s.port else DEFAULT_PORT
  }

  /** Service i has the last positive Port among services 0..k. */
  ghost predicate LastPositive(services: seq<ServiceSpec>, k: int, i: int) {
    0 <= i <= k < |services| && services[i].port > 0 && forall j | i < j <= k :: services[j].port <= 0
  }

  /** Service k's addresses use the last positive Port among services 0..k, else 8443. */
  lemma {:induction false} CarriedPortMeaning(services: seq<ServiceSpec>, k: nat)
    requires k < |services|
    ensures || (exists i :: LastPositive(services, k, i) && CarriedPort(services, k + 1) == services[i].port)
            || ((forall i | 0 <= i <= k :: services[i].port <= 0) && CarriedPort(services, k + 1) == DEFAULT_PORT)
  {
    if services[k].port > 0 {
      assert LastPositive(services, k, k);
    } else if k > 0 {
      CarriedPortMeaning(services, k - 1);
      if i :| LastPositive(services, k - 1, i) && CarriedPort(services, k) == services[i].port {
        assert LastPositive(services, k, i);
      }
    }
  }

  /** An unset Port directly after a set one only where that one is 8443. */
  ghost predicate NoLeak(services: seq<ServiceSpec>) {
    forall k | 0 < k < |services| && services[k].port <= 0 && services[k - 1].port > 0 ::
      services[k - 1].port == DEFAULT_PORT
  }

  /** Every service gets its documented port. */
  ghost predicate PortsAsDocumented(services: seq<ServiceSpec>) {
    forall k: nat | k < |services| :: CarriedPort(services, k + 1) == DocumentedPort(services[k])
  }

  /**
   * The carried port agrees with the documented default exactly when no set port other than 8443 leaks into a service
   * without one.
   */
  lemma {:induction false} PortsAsDocumentedIff(services: seq<ServiceSpec>)
    ensures PortsAsDocumented(services) <==> NoLeak(services)
    ensures (forall k | 0 <= k < |services| :: services[k].port > 0) ==> PortsAsDocumented(services)
  {
    if NoLeak(services) {
      forall k: nat | k < |services|
        ensures CarriedPort(services, k + 1) == DocumentedPort(services[k])
      {
        NoLeakPort(services, k);
      }
    } else {
      var k :| 0 < k < |services| && services[k].port <= 0 && services[k - 1].port > 0
          && services[k - 1].port != DEFAULT_PORT;
      assert CarriedPort(services, k + 1) == CarriedPort(services, k) == services[k - 1].port;
    }
  }

  lemma {:induction false} NoLeakPort(services: seq<ServiceSpec>, k: nat)
    requires NoLeak(services) && k < |services|
    ensures CarriedPort(services, k + 1) == DocumentedPort(services[k])
  {
    if services[k].port <= 0 && k > 0 {
      NoLeakPort(services, k - 1);
    }
  }

  /** Two services, the first on 9443 and the second without a port: the second is rendered on 9443 too. */
  lemma {:induction false} PortLeaks(a: ServiceSpec, b: ServiceSpec)
    requires a.port == 9443 && b.port == 0
    ensures CarriedPort([a, b], 2) == 9443 && DocumentedPort(b) == 8443 && !PortsAsDocumented([a, b])
  {
    assert CarriedPort([a, b], 1) == 9443;
  }

  function Decimal(n: nat): (s: string) {
    if n < 10 then ['0' + n as char] else Decimal(n / 10) + ['0' + (n % 10) as char]
  }

  function Address(id: string, namespace: string, port: int): (addr: string) {
    "https://" + id + "." + namespace + ".svc.cluster.local:"
        + (if port < 0 then "-" + Decimal(-port) else Decimal(port))
  }

  /** The number a text of decimal digits stands for. */
  ghost function ReadDecimal(s: string): int {
    if s == "" then 0 else ReadDecimal(s[..|s| - 1]) * 10 + (s[|s| - 1] as int - 48)
  }

  ghost predicate DecimalDigits(s: string) {
    s != "" && forall i | 0 <= i < |s| :: 48 <= s[i] as int <= 57
  }

  /** Printing a number and reading it back gives the number. */
  lemma {:induction false} DecimalReadsBack(n: nat)
    ensures DecimalDigits(Decimal(n)) && ReadDecimal(Decimal(n)) == n
  {
    if n < 10 {
      assert Decimal(n)[..0] == "";
    } else {
      DecimalReadsBack(n / 10);
      var s := Decimal(n);
      assert s[..|s| - 1] == Decimal(n / 10);
    }
  }

  /** The address of a backend: the scheme, its name in its namespace, and digits that read back as the port. */
  lemma {:induction false} AddressMeaning(id: string, namespace: string, port: nat) returns (digits: string)
    ensures Address(id, namespace, port) == "https://" + id + "." + namespace + ".svc.cluster.local:" + digits
    ensures DecimalDigits(digits) && ReadDecimal(digits) == port
  {
    digits := Decimal(port);
    DecimalReadsBack(port);
  }

  function BackendsOut(s: ServiceSpec, namespace: string, port: int): (out: seq<BackendOut>) {
    seq(|s.backends|, i requires 0 <= i < |s.backends| =>
          BackendOut(s.backends[i], Address(s.backends[i], namespace, port)))
  }

  function ServiceAt(spec: Spec, k: nat): (out: ServiceOut)
    requires k < |spec.services|
  {
    var s := spec.services[k];
    ServiceOut(s.name, if s.healthPath == "" then "/healthz" else s.healthPath,
               BackendsOut(s, spec.namespace, CarriedPort(spec.services, k + 1)))
  }

  /** renderConfig up to the YAML encoding. */
  function Rendered(spec: Spec, keys: seq<Registration>, redisUrl: string, tlsSecret: string): (cfg: GatewayConfig) {
    GatewayConfig(
      ":8080", ":9090", spec.issuer, spec.audience, spec.nonceTtl,
      redisUrl,
      if tlsSecret == "" then "" else "/etc/gateway/listener-tls/tls.crt",
      if tlsSecret == "" then "" else "/etc/gateway/listener-tls/tls.key",
      "/etc/gateway/certs/ca.crt", "/etc/gateway/certs/gateway.crt", "/etc/gateway/certs/gateway.key",
      keys,
      seq(|spec.services|, k requires 0 <= k < |spec.services| => ServiceAt(spec, k)),
      spec.routes)
  }

  method RenderServices(spec: Spec) returns (out: seq<ServiceOut>)
    ensures |out| == |spec.services|
    ensures forall k: nat | k < |out| :: out[k] == ServiceAt(spec, k)
  {
    out := [];
    var port := DEFAULT_PORT;
    for k := 0 to |spec.services|
      invariant |out| == k && port == CarriedPort(spec.services, k)
      invariant forall j: nat | j < k :: out[j] == ServiceAt(spec, j)
    {
      var svc := spec.services[k];
      if svc.port > 0 {
        port := svc.port;
      }
      var hp := svc.healthPath;
      if hp == "" {
        hp := "/healthz";
      }
      var backends := [];
      for i := 0 to |svc.backends|
        invariant |backends| == i && forall j | 0 <= j < i :: backends[j] == BackendsOut(svc, spec.namespace, port)[j]
      {
        backends := backends + [BackendOut(svc.backends[i], Address(svc.backends[i], spec.namespace, port))];
      }
      assert backends == BackendsOut(svc, spec.namespace, port);
      out := out + [ServiceOut(svc.name, hp, backends)];
    }
  }

  method RenderConfig(spec: Spec, keys: seq<Registration>, redisUrl: string, tlsSecret: string)
    returns (cfg: GatewayConfig)
    ensures cfg == Rendered(spec, keys, redisUrl, tlsSecret)
    ensures cfg.issuer == spec.issuer && cfg.audience == spec.audience && cfg.nonceTtl == spec.nonceTtl
    ensures cfg.clientKeys == keys && cfg.redisUrl == redisUrl && cfg.routes == spec.routes
    ensures (cfg.listenCert != "" <==> tlsSecret != "") && (cfg.listenKey != "" <==> tlsSecret != "")
  {
    var services := RenderServices(spec);
    var cert, certKey := "", "";
    if tlsSecret != "" {
      cert, certKey := "/etc/gateway/listener-tls/tls.crt", "/etc/gateway/listener-tls/tls.key";
    }
    cfg := GatewayConfig(":8080", ":9090", spec.issuer, spec.audience, spec.nonceTtl, redisUrl, cert, certKey,
                         "/etc/gateway/certs/ca.crt", "/etc/gateway/certs/gateway.crt",
                         "/etc/gateway/certs/gateway.key",
                         keys, services, spec.routes);
  }

  type Parser = seq<Byte> -> Option<Registration>

  /** The entries of a Secret that parse, in the order the map is iterated. */
  function KeysInOrder(parse: Parser, data: map<string, seq<Byte>>, order: seq<string>): (keys: seq<Registration>)
    requires forall k | k in order :: k in data
  {
    if order == [] then [] else
    var rest := KeysInOrder(parse, data, order[..|order| - 1]);
    var entry := parse(data[order[|order| - 1]]);
    if entry.None? then rest else rest + [entry.value]
  }

  method FetchClientKeys(parse: Parser, data: map<string, seq<Byte>>) returns (keys: seq<Registration>)
    ensures exists order :: Enumerates(order, data.Keys) && keys == KeysInOrder(parse, data, order)
  {
    ghost var order: seq<string> := [];
    keys := [];
    var todo := data.Keys;
    while todo != {}
      invariant todo <= data.Keys
      invariant forall k :: k in order <==> k in data.Keys && k !in todo
      invariant forall i, j | 0 <= i < j < |order| :: order[i] != order[j]
      invariant keys == KeysInOrder(parse, data, order)
      decreases todo
    {
      var k :| k in todo;
      todo := todo - {k};
      ghost var longer := order + [k];
      assert longer[..|order|] == order;
      var entry := parse(data[k]);
      if entry.Some? {
        keys := keys + [entry.value];
      }
      order := longer;
    }
    assert Enumerates(order, data.Keys);
  }

  ghost function EntryOf(parse: Parser, data: map<string, seq<Byte>>, k: string): multiset<Registration> {
    if k !in data || parse(data[k]).None? then multiset{} else multiset{parse(data[k]).value}
  }

  /** The same entries as a bag. */
  ghost function KeysBag(parse: Parser, data: map<string, seq<Byte>>, order: seq<string>): multiset<Registration> {
    if order == [] then multiset{}
    else KeysBag(parse, data, order[..|order| - 1]) + EntryOf(parse, data, order[|order| - 1])
  }

  lemma {:induction false} KeysAreBag(parse: Parser, data: map<string, seq<Byte>>, order: seq<string>)
    requires forall k | k in order :: k in data
    ensures multiset(KeysInOrder(parse, data, order)) == KeysBag(parse, data, order)
  {
    if order != [] {
      KeysAreBag(parse, data, order[..|order| - 1]);
    }
  }

  function Without(order: seq<string>, i: nat): (rest: seq<string>)
    requires i < |order|
  {
    order[..i] + order[i + 1..]
  }

  lemma {:induction false} WithoutLast(order: seq<string>, i: nat)
    requires i < |order| - 1
    ensures var rest := Without(order, i); var n := |order| - 1;
            rest != [] && rest[..|rest| - 1] == Without(order[..n], i) && rest[|rest| - 1] == order[n]
  {
  }

  lemma {:induction false} BagSwap(x: multiset<Registration>, a: multiset<Registration>, b: multiset<Registration>)
    ensures x + a + b == x + b + a
  {
  }

  /** Removing a key from an enumeration removes its entry from the bag. */
  lemma {:induction false} BagWithout(parse: Parser, data: map<string, seq<Byte>>, order: seq<string>, i: nat)
    requires i < |order|
    ensures KeysBag(parse, data, order) == KeysBag(parse, data, Without(order, i)) + EntryOf(parse, data, order[i])
  {
    var n := |order| - 1;
    if i == n {
      assert Without(order, i) == order[..n];
    } else {
      WithoutLast(order, i);
      BagWithout(parse, data, order[..n], i);
      BagSwap(KeysBag(parse, data, Without(order[..n], i)), EntryOf(parse, data, order[i]),
              EntryOf(parse, data, order[n]));
    }
  }

  /** Two enumerations of the same Secret give the same keys up to order. */
  lemma {:induction false} BagUpToOrder(parse: Parser, data: map<string, seq<Byte>>, keys: set<string>, a: seq<string>,
                                        b: seq<string>)
    requires keys <= data.Keys && Enumerates(a, keys) && Enumerates(b, keys)
    ensures KeysBag(parse, data, a) == KeysBag(parse, data, b)
    decreases |a|
  {
    if a == [] {
      HeadIn(b);
    } else {
      var n := |a| - 1;
      var k := a[n];
      assert k in b;
      var i :| 0 <= i < |b| && b[i] == k;
      EnumeratesWithout(a, keys, n);
      EnumeratesWithout(b, keys, i);
      BagWithout(parse, data, b, i);
      assert Without(a, n) == a[..n];
      BagUpToOrder(parse, data, keys - {k}, a[..n], Without(b, i));
    }
  }

  lemma {:induction false} HeadIn(s: seq<string>)
    ensures s == [] || s[0] in s
  {
  }

  lemma {:induction false} EnumeratesWithout(order: seq<string>, keys: set<string>, i: nat)
    requires Enumerates(order, keys) && i < |order|
    ensures Enumerates(Without(order, i), keys - {order[i]})
  {
    var rest := Without(order, i);
    assert forall j | 0 <= j < |rest| :: rest[j] == order[if j < i then j else j + 1];
    forall k
      ensures k in rest <==> k in keys - {order[i]}
    {
      if k in keys && k != order[i] {
        var j :| 0 <= j < |order| && order[j] == k;
        assert rest[if j < i then j else j - 1] == k;
      }
    }
  }

  /**
   * Two enumerations of one Secret render configurations equal up to the order of client_keys, and
   * when no two entries share a kid the gateway builds the same key map from both, or fails on both.
   */
  lemma {:induction false} RenderUpToKeyOrder(p: Platform, parse: Parser, data: map<string, seq<Byte>>, a: seq<string>,
                                              b: seq<string>, spec: Spec, redisUrl: string, tlsSecret: string)
    requires Enumerates(a, data.Keys) && Enumerates(b, data.Keys)
    ensures var ca := Rendered(spec, KeysInOrder(parse, data, a), redisUrl, tlsSecret);
            var cb := Rendered(spec, KeysInOrder(parse, data, b), redisUrl, tlsSecret);
            && ca == cb.(clientKeys := ca.clientKeys) && multiset(ca.clientKeys) == multiset(cb.clientKeys)
            && (Agree(p, ca.clientKeys) ==> KeysOf(p, ca.clientKeys) == KeysOf(p, cb.clientKeys))
  {
    KeysAreBag(parse, data, a);
    KeysAreBag(parse, data, b);
    BagUpToOrder(parse, data, data.Keys, a, b);
    var ka, kb := KeysInOrder(parse, data, a), KeysInOrder(parse, data, b);
    if Agree(p, ka) {
      AgreeingOrders(p, ka, kb);
    }
  }
}
