/** Reconciling a custom resource into the cluster: several writes, any of which may fail or be the last. */
module Controllers {
  import opened Common
  import opened Rendering
  import opened Verifiers

  /** The controller's own writes, in the order they took effect. */
  datatype Event = WroteConfig(yaml: string) | WroteHash(hash: string)

  datatype ConfigMap = ConfigMap(yaml: string, hash: string)

  /** `late` are writes whose client gave up waiting and which may still take effect. */
  datatype Cluster = Cluster(configMap: Option<ConfigMap>, deployment: Option<string>, history: seq<Event>,
                             late: seq<Event>)

  /**
   * A write to the API server: an error may hide a write that took effect, or one that may do so at any later moment.
   */
  datatype Write = Done | DoneButFailed | Late | NotDone

  /** YAML and SHA-256, seen only as functions. */
  datatype Encoding = Encoding(yaml: GatewayConfig -> Option<string>, hash: string -> string)

  datatype Tls = NoTls | FromIssuer | FromSecret(name: string)

  /**
   * What one reconcile meets: the resources it reads, how each call ends, which late writes land between its own
   * two, and the step before which the process stops.
   */
  datatype Inputs = Inputs(
    resource: Option<Spec>, tls: Tls, keys: Option<seq<Registration>>, redis: Option<string>,
    certificateOk: bool, configMap: Write, policyOk: bool, between: seq<nat>, deployment: Write, stopBefore: nat)

  /** What step 5 renders, when the reconcile gets that far. */
  function RenderedBy(i: Inputs): (cfg: Option<GatewayConfig>) {
    if i.resource.None? || i.keys.None? || (i.tls.FromIssuer? && !i.certificateOk) || i.stopBefore <= 5 then None
    else Some(Rendered(i.resource.value, i.keys.value, if i.redis.Some? then i.redis.value else "", TlsSecret(i.tls)))
  }

  function TlsSecret(t: Tls): (name: string) {
    match t
    case NoTls => ""
    case FromIssuer => "gateway-listener-tls"
    case FromSecret(name) => name
  }

  function WithConfig(c: Cluster, yaml: string, hash: string): (c': Cluster) {
    c.(configMap := Some(ConfigMap(yaml, hash)), history := c.history + [WroteConfig(yaml)])
  }

  function WithHash(c: Cluster, hash: string): (c': Cluster) {
    c.(deployment := Some(hash), history := c.history + [WroteHash(hash)])
  }

  /** A late write takes effect. */
  function Landed(e: Encoding, c: Cluster, k: nat): (c': Cluster) {
    if k >= |c.late| then c else
    var rest := c.(late := c.late[..k] + c.late[k + 1..]);
    match c.late[k]
    case WroteConfig(yaml) => WithConfig(rest, yaml, e.hash(yaml))
    case WroteHash(hash) => WithHash(rest, hash)
  }

  function LandedAll(e: Encoding, c: Cluster, ks: seq<nat>): (c': Cluster) {
    if ks == [] then c else Landed(e, LandedAll(e, c, ks[..|ks| - 1]), ks[|ks| - 1])
  }

  /** A write as the API server sees it. */
  function Written(c: Cluster, w: Write, now: Cluster, event: Event): (c': Cluster) {
    if w == NotDone then c else if w == Late then c.(late := c.late + [event]) else now
  }

  /** One reconcile as a function: the cluster it leaves and whether it reports success. */
  function Reconciled(e: Encoding, c: Cluster, i: Inputs): (r: (Cluster, bool)) {
    var yaml := YamlOf(e, i);
    if yaml.None? then (c, false) else
    var hash := e.hash(yaml.value);
    var c1 := Written(c, i.configMap, WithConfig(c, yaml.value, hash), WroteConfig(yaml.value));
    if i.configMap != Done then (c1, false) else
    var c2 := LandedAll(e, c1, i.between);
    if !i.policyOk || i.stopBefore <= 9 then (c2, false) else
    (Written(c2, i.deployment, WithHash(c2, hash), WroteHash(hash)), i.deployment == Done)
  }

  /** The text a reconcile is about to write, when it gets as far as the ConfigMap. */
  function YamlOf(e: Encoding, i: Inputs): (yaml: Option<string>) {
    if RenderedBy(i).None? || i.stopBefore <= 7 then None else e.yaml(RenderedBy(i).value)
  }

  class Controller {
    const encoding: Encoding
    var cluster: Cluster

    constructor (encoding: Encoding, cluster: Cluster)
      ensures this.encoding == encoding && this.cluster == cluster
    {
      this.encoding := encoding;
      this.cluster := cluster;
    }

    /** patchConfigMap, with its POST when there is none to patch. */
    method PatchConfigMap(yaml: string, hash: string, w: Write) returns (ok: bool)
      modifies this
      ensures cluster == Written(old(cluster), w, WithConfig(old(cluster), yaml, hash), WroteConfig(yaml))
              && (ok <==> w == Done)
    {
      if w == Late {
        cluster := cluster.(late := cluster.late + [WroteConfig(yaml)]);
      } else if w != NotDone {
        cluster := WithConfig(cluster, yaml, hash);
      }
      return w == Done;
    }

    /** patchDeploymentAnnotation */
    method PatchDeployment(hash: string, w: Write) returns (ok: bool)
      modifies this
      ensures cluster == Written(old(cluster), w, WithHash(old(cluster), hash), WroteHash(hash)) && (ok <==> w == Done)
    {
      if w == Late {
        cluster := cluster.(late := cluster.late + [WroteHash(hash)]);
      } else if w != NotDone {
        cluster := WithHash(cluster, hash);
      }
      return w == Done;
    }

    /** The numbered steps of the source; step 8 covers the network policy, whose deletion never fails the reconcile. */
    method Reconcile(i: Inputs) returns (ok: bool)
      modifies this
      ensures (cluster, ok) == Reconciled(encoding, old(cluster), i)
    {
      if i.resource.None? {
        return false;
      }
      if i.keys.None? {
        return false;
      }
      var redisUrl := "";
      if i.redis.Some? {
        redisUrl := i.redis.value;
      }
      var tlsSecret := "";
      match i.tls {
        case FromIssuer =>
          tlsSecret := "gateway-listener-tls";
          if !i.certificateOk {
            return false;
          }
        case FromSecret(name) =>
          tlsSecret := name;
        case NoTls =>
      }
      if i.stopBefore <= 5 {
        return false;
      }
      var cfg := RenderConfig(i.resource.value, i.keys.value, redisUrl, tlsSecret);
      var rendered := encoding.yaml(cfg);
      if rendered.None? || i.stopBefore <= 7 {
        return false;
      }
      ok := WriteBoth(rendered.value, i);
    }

    /** Steps 6 to 9. */
    method WriteBoth(yaml: string, i: Inputs) returns (ok: bool)
      requires YamlOf(encoding, i) == Some(yaml)
      modifies this
      ensures (cluster, ok) == Reconciled(encoding, old(cluster), i)
    {
      var hash := encoding.hash(yaml);
      ok := PatchConfigMap(yaml, hash, i.configMap);
      if !ok {
        return;
      }
      cluster := LandedAll(encoding, cluster, i.between);
      if !i.policyOk || i.stopBefore <= 9 {
        return false;
      }
      ok := PatchDeployment(hash, i.deployment);
    }
  }

  /** What happens to the cluster: a reconcile, or a late write taking effect. */
  datatype Move = Reconcile(inputs: Inputs) | Land(k: nat)

  function Next(e: Encoding, c: Cluster, m: Move): (c': Cluster) {
    match m
    case Reconcile(i) => Reconciled(e, c, i).0
    case Land(k) => Landed(e, c, k)
  }

  function Run(e: Encoding, c: Cluster, moves: seq<Move>): (c': Cluster) {
    if moves == [] then c else Next(e, Run(e, c, moves[..|moves| - 1]), moves[|moves| - 1])
  }

  // ---------------------------------------------------------------- every hash is backed

  /** A configuration with this hash is among the first n events. */
  ghost predicate Backed(e: Encoding, history: seq<Event>, n: nat, hash: string) {
    exists j :: 0 <= j < n && j < |history| && history[j].WroteConfig? && e.hash(history[j].yaml) == hash
  }

  /** Every hash written is that of a configuration written before it, and so is every hash still to land. */
  ghost predicate AllBacked(e: Encoding, c: Cluster) {
    && (forall i | 0 <= i < |c.history| && c.history[i].WroteHash? :: Backed(e, c.history, i, c.history[i].hash))
    && (forall k | 0 <= k < |c.late| && c.late[k].WroteHash? :: Backed(e, c.history, |c.history|, c.late[k].hash))
  }

  /** The ConfigMap's annotation is the hash of its content, once the controller has written it. */
  ghost predicate Annotated(e: Encoding, c: Cluster) {
    (exists j :: 0 <= j < |c.history| && c.history[j].WroteConfig?) ==>
      c.configMap.Some? && c.configMap.value.hash == e.hash(c.configMap.value.yaml)
  }

  ghost predicate Inv(e: Encoding, c: Cluster) {
    AllBacked(e, c) && Annotated(e, c)
  }

  lemma {:induction false} BackedGrows(e: Encoding, history: seq<Event>, more: seq<Event>, n: nat, m: nat, hash: string)
    requires Backed(e, history, n, hash) && history <= more && n <= m
    ensures Backed(e, more, m, hash)
  {
    var j :| 0 <= j < n && j < |history| && history[j].WroteConfig? && e.hash(history[j].yaml) == hash;
    assert more[j] == history[j];
  }

  /** One more event that is a configuration or a backed hash, and late writes that are backed or were late before. */
  lemma {:induction false} OneMoreEvent(e: Encoding, c: Cluster, c': Cluster, event: Event)
    requires AllBacked(e, c) && c'.history == c.history + [event]
    requires event.WroteHash? ==> Backed(e, c.history, |c.history|, event.hash)
    requires forall x | x in c'.late :: x in c.late
    ensures AllBacked(e, c')
  {
    forall i | 0 <= i < |c'.history| && c'.history[i].WroteHash?
      ensures Backed(e, c'.history, i, c'.history[i].hash)
    {
      BackedGrows(e, c.history, c'.history, i, i, c'.history[i].hash);
    }
    forall k | 0 <= k < |c'.late| && c'.late[k].WroteHash?
      ensures Backed(e, c'.history, |c'.history|, c'.late[k].hash)
    {
      assert c'.late[k] in c.late;
      BackedGrows(e, c.history, c'.history, |c.history|, |c'.history|, c'.late[k].hash);
    }
  }

  lemma {:induction false} LandedKeeps(e: Encoding, c: Cluster, k: nat)
    requires Inv(e, c)
    ensures Inv(e, Landed(e, c, k)) && c.history <= Landed(e, c, k).history
  {
    if k < |c.late| {
      OneMoreEvent(e, c, Landed(e, c, k), c.late[k]);
      if c.late[k].WroteHash? {
        assert forall j | 0 <= j < |c.history| :: Landed(e, c, k).history[j] == c.history[j];
      }
    }
  }

  lemma {:induction false} LandedAllKeeps(e: Encoding, c: Cluster, ks: seq<nat>)
    requires Inv(e, c)
    ensures Inv(e, LandedAll(e, c, ks)) && c.history <= LandedAll(e, c, ks).history
  {
    if ks != [] {
      LandedAllKeeps(e, c, ks[..|ks| - 1]);
      LandedKeeps(e, LandedAll(e, c, ks[..|ks| - 1]), ks[|ks| - 1]);
    }
  }

  lemma {:induction false} ConfigWriteKeeps(e: Encoding, c: Cluster, w: Write, yaml: string)
    requires Inv(e, c)
    ensures var c' := Written(c, w, WithConfig(c, yaml, e.hash(yaml)), WroteConfig(yaml));
            Inv(e, c') && (w == Done ==> Backed(e, c'.history, |c'.history|, e.hash(yaml)))
  {
    if w == Done || w == DoneButFailed {
      var c' := WithConfig(c, yaml, e.hash(yaml));
      OneMoreEvent(e, c, c', WroteConfig(yaml));
      assert c'.history[|c.history|] == WroteConfig(yaml);
    }
  }

  lemma {:induction false} HashWriteKeeps(e: Encoding, c: Cluster, w: Write, hash: string)
    requires Inv(e, c) && Backed(e, c.history, |c.history|, hash)
    ensures Inv(e, Written(c, w, WithHash(c, hash), WroteHash(hash)))
  {
    if w == Done || w == DoneButFailed {
      var c' := WithHash(c, hash);
      OneMoreEvent(e, c, c', WroteHash(hash));
      assert forall j | 0 <= j < |c.history| :: c'.history[j] == c.history[j];
    }
  }

  lemma {:induction false} ReconciledKeeps(e: Encoding, c: Cluster, i: Inputs)
    requires Inv(e, c)
    ensures Inv(e, Reconciled(e, c, i).0)
  {
    var yaml := YamlOf(e, i);
    if yaml.Some? {
      var hash := e.hash(yaml.value);
      ConfigWriteKeeps(e, c, i.configMap, yaml.value);
      if i.configMap == Done {
        var c1 := WithConfig(c, yaml.value, hash);
        LandedAllKeeps(e, c1, i.between);
        var c2 := LandedAll(e, c1, i.between);
        BackedGrows(e, c1.history, c2.history, |c1.history|, |c2.history|, hash);
        HashWriteKeeps(e, c2, i.deployment, hash);
      }
    }
  }

  /**
   * Across any sequence of reconciles, each failing or stopping anywhere, and of late writes landing at any
   * moment, every hash written on the Deployment is that of a configuration already written to the ConfigMap.
   */
  lemma {:induction false} HashesAlwaysBacked(e: Encoding, c: Cluster, moves: seq<Move>)
    requires c.history == [] && c.late == []
    ensures AllBacked(e, Run(e, c, moves)) && Annotated(e, Run(e, c, moves))
  {
    if moves != [] {
      var before := moves[..|moves| - 1];
      HashesAlwaysBacked(e, c, before);
      match moves[|moves| - 1]
      case Reconcile(i) => ReconciledKeeps(e, Run(e, c, before), i);
      case Land(k) => LandedKeeps(e, Run(e, c, before), k);
    }
  }

  /** Event i, if it wrote a hash, directly follows the configuration with that hash. */
  ghost predicate FollowsConfig(e: Encoding, history: seq<Event>, i: int) {
    0 <= i < |history| && history[i].WroteHash? ==>
      i > 0 && history[i - 1].WroteConfig? && e.hash(history[i - 1].yaml) == history[i].hash
  }

  /**
   * As long as no late write lands, every hash goes to the Deployment while the ConfigMap holds the configuration it
   * is of.
   */
  lemma {:induction false} HashesFollowConfigs(e: Encoding, c: Cluster, moves: seq<Move>)
    requires c.history == [] && forall k | 0 <= k < |moves| :: moves[k].Reconcile? && moves[k].inputs.between == []
    ensures forall i | 0 <= i < |Run(e, c, moves).history| :: FollowsConfig(e, Run(e, c, moves).history, i)
  {
    if moves != [] {
      var n := |moves| - 1;
      HashesFollowConfigs(e, c, moves[..n]);
      assert moves[n].Reconcile? && moves[n].inputs.between == [];
      ReconciledFollows(e, Run(e, c, moves[..n]), moves[n].inputs);
    }
  }

  lemma {:induction false} ReconciledFollows(e: Encoding, c: Cluster, i: Inputs)
    requires i.between == [] && forall k | 0 <= k < |c.history| :: FollowsConfig(e, c.history, k)
    ensures var after := Reconciled(e, c, i).0.history; forall k | 0 <= k < |after| :: FollowsConfig(e, after, k)
  {
    var before, after := c.history, Reconciled(e, c, i).0.history;
    assert before <= after && |after| <= |before| + 2;
    forall k | 0 <= k < |after|
      ensures FollowsConfig(e, after, k)
    {
      if k < |before| {
        assert FollowsConfig(e, before, k);
      }
    }
  }

  // ---------------------------------------------------------------- when the two annotations agree

  /** The reconcile gets its configuration into the ConfigMap. */
  predicate WritesConfig(e: Encoding, i: Inputs) {
    YamlOf(e, i).Some? && (i.configMap == Done || i.configMap == DoneButFailed)
  }

  /** The reconcile gets its hash onto the Deployment as well. */
  predicate WritesHash(e: Encoding, i: Inputs) {
    && YamlOf(e, i).Some? && i.configMap == Done && i.policyOk && i.stopBefore > 9
    && (i.deployment == Done || i.deployment == DoneButFailed)
  }

  /** A move that leaves both annotations alone: a reconcile that does not reach the ConfigMap. */
  ghost predicate Idle(e: Encoding, m: Move) {
    m.Reconcile? && !WritesConfig(e, m.inputs)
  }

  lemma {:induction false} IdleKeeps(e: Encoding, c: Cluster, m: Move)
    requires Idle(e, m)
    ensures Next(e, c, m).configMap == c.configMap && Next(e, c, m).deployment == c.deployment
  {
  }

  /** The cluster when a reconcile that reached the ConfigMap turns to the Deployment. */
  function Midway(e: Encoding, c: Cluster, i: Inputs): (c': Cluster)
    requires WritesConfig(e, i)
  {
    var yaml := YamlOf(e, i).value;
    var c1 := WithConfig(c, yaml, e.hash(yaml));
    if i.configMap == Done then LandedAll(e, c1, i.between) else c1
  }

  /** Both annotations are as this reconcile, run on cluster `before`, left them. */
  ghost predicate DecidedBy(e: Encoding, before: Cluster, i: Inputs, c: Cluster)
    requires WritesConfig(e, i)
  {
    && c.configMap == Midway(e, before, i).configMap
    && c.deployment == if WritesHash(e, i) then Some(e.hash(YamlOf(e, i).value)) else Midway(e, before, i).deployment
  }

  lemma {:induction false} WriterDecides(e: Encoding, c: Cluster, i: Inputs)
    requires WritesConfig(e, i)
    ensures DecidedBy(e, c, i, Reconciled(e, c, i).0)
  {
  }

  lemma {:induction false} RunMore(e: Encoding, c: Cluster, moves: seq<Move>, n: nat)
    requires |moves| == n + 1
    ensures Run(e, c, moves) == Next(e, Run(e, c, moves[..n]), moves[n])
  {
  }

  /**
   * The last reconcile that reached the ConfigMap decides both annotations until the next write takes effect: the
   * ConfigMap holds what it rendered or what landed on top of it, and the Deployment its hash exactly if it got
   * that far.
   */
  lemma {:induction false} LastWriterDecides(e: Encoding, c: Cluster, moves: seq<Move>, k: nat)
    requires k < |moves| && moves[k].Reconcile? && WritesConfig(e, moves[k].inputs)
    requires forall j | k < j < |moves| :: Idle(e, moves[j])
    ensures DecidedBy(e, Run(e, c, moves[..k]), moves[k].inputs, Run(e, c, moves))
  {
    var n := |moves| - 1;
    RunMore(e, c, moves, n);
    if k < n {
      assert moves[..n][..k] == moves[..k];
      LastWriterDecides(e, c, moves[..n], k);
      assert Idle(e, moves[n]);
      IdleKeeps(e, Run(e, c, moves[..n]), moves[n]);
    } else {
      WriterDecides(e, Run(e, c, moves[..n]), moves[n].inputs);
    }
  }

  /** The last configuration, and the last hash, among the events. */
  function LastConfig(history: seq<Event>): (yaml: Option<string>) {
    if history == [] then None else
    var last := history[|history| - 1];
    if last.WroteConfig? then Some(last.yaml) else LastConfig(history[..|history| - 1])
  }

  function LastHash(history: seq<Event>): (hash: Option<string>) {
    if history == [] then None else
    var last := history[|history| - 1];
    if last.WroteHash? then Some(last.hash) else LastHash(history[..|history| - 1])
  }

  /** What the cluster holds is what was written last, or what it held at the start. */
  ghost predicate HoldsLast(e: Encoding, start: Cluster, c: Cluster) {
    && (match LastConfig(c.history)
        case Some(yaml) => c.configMap == Some(ConfigMap(yaml, e.hash(yaml)))
        case None => c.configMap == start.configMap)
    && (match LastHash(c.history)
        case Some(hash) => c.deployment == Some(hash)
        case None => c.deployment == start.deployment)
  }

  lemma {:induction false} EventHolds(e: Encoding, start: Cluster, c: Cluster, yaml: string, hash: string)
    requires HoldsLast(e, start, c)
    ensures HoldsLast(e, start, WithConfig(c, yaml, e.hash(yaml))) && HoldsLast(e, start, WithHash(c, hash))
  {
    assert (c.history + [WroteConfig(yaml)])[..|c.history|] == c.history;
    assert (c.history + [WroteHash(hash)])[..|c.history|] == c.history;
  }

  lemma {:induction false} LandedHolds(e: Encoding, start: Cluster, c: Cluster, k: nat)
    requires HoldsLast(e, start, c)
    ensures HoldsLast(e, start, Landed(e, c, k))
  {
    if k < |c.late| {
      var rest := c.(late := c.late[..k] + c.late[k + 1..]);
      match c.late[k]
      case WroteConfig(yaml) => EventHolds(e, start, rest, yaml, "");
      case WroteHash(hash) => EventHolds(e, start, rest, "", hash);
    }
  }

  lemma {:induction false} LandedAllHolds(e: Encoding, start: Cluster, c: Cluster, ks: seq<nat>)
    requires HoldsLast(e, start, c)
    ensures HoldsLast(e, start, LandedAll(e, c, ks))
  {
    if ks != [] {
      LandedAllHolds(e, start, c, ks[..|ks| - 1]);
      LandedHolds(e, start, LandedAll(e, c, ks[..|ks| - 1]), ks[|ks| - 1]);
    }
  }

  lemma {:induction false} ReconciledHolds(e: Encoding, start: Cluster, c: Cluster, i: Inputs)
    requires HoldsLast(e, start, c)
    ensures HoldsLast(e, start, Reconciled(e, c, i).0)
  {
    var yaml := YamlOf(e, i);
    if yaml.Some? {
      var hash := e.hash(yaml.value);
      EventHolds(e, start, c, yaml.value, hash);
      if i.configMap == Done {
        var c1 := WithConfig(c, yaml.value, hash);
        LandedAllHolds(e, start, c1, i.between);
        EventHolds(e, start, LandedAll(e, c1, i.between), "", hash);
      }
    }
  }

  lemma {:induction false} RunHolds(e: Encoding, c: Cluster, moves: seq<Move>)
    requires c.history == []
    ensures HoldsLast(e, c, Run(e, c, moves))
  {
    if moves != [] {
      var before := moves[..|moves| - 1];
      RunHolds(e, c, before);
      match moves[|moves| - 1]
      case Reconcile(i) => ReconciledHolds(e, c, Run(e, c, before), i);
      case Land(k) => LandedHolds(e, c, Run(e, c, before), k);
    }
  }

  /** Both annotations are there and equal. */
  ghost predicate Agrees(c: Cluster) {
    c.configMap.Some? && c.deployment == Some(c.configMap.value.hash)
  }

  /**
   * In every run, whatever fails, stops or lands: the ConfigMap holds the last configuration written and the
   * Deployment the last hash.  So once both have been written, their annotations agree if and only if the last
   * configuration has the last hash.
   */
  lemma {:induction false} LastWritesDecide(e: Encoding, c: Cluster, moves: seq<Move>)
    requires c.history == []
    ensures var c' := Run(e, c, moves); var yaml, hash := LastConfig(c'.history), LastHash(c'.history);
            && HoldsLast(e, c, c')
            && (yaml.Some? && hash.Some? ==> (Agrees(c') <==> e.hash(yaml.value) == hash.value))
  {
    RunHolds(e, c, moves);
  }

  /**
   * A reconcile that cannot read what it needs, or whose Certificate or rendering fails, writes nothing and says so.
   */
  lemma {:induction false} StopsBeforeWriting(e: Encoding, c: Cluster, i: Inputs)
    requires || i.resource.None? || i.keys.None? || (i.tls.FromIssuer? && !i.certificateOk) || i.stopBefore <= 7
             || (RenderedBy(i).Some? && e.yaml(RenderedBy(i).value).None?)
    ensures Reconciled(e, c, i) == (c, false)
  {
  }

  /**
   * A failed network policy keeps the hash off the Deployment; a failed ConfigMap write keeps everything after it
   * away.
   */
  lemma {:induction false} FailureKeepsHashOff(e: Encoding, c: Cluster, i: Inputs)
    requires i.between == [] && (!i.policyOk || i.configMap != Done)
    ensures Reconciled(e, c, i).0.deployment == c.deployment && !Reconciled(e, c, i).1
  {
  }

  /** When a reconcile reports success. */
  lemma {:induction false} SuccessIff(e: Encoding, c: Cluster, i: Inputs)
    ensures Reconciled(e, c, i).1 <==> WritesHash(e, i) && i.deployment == Done
  {
  }

  /** The hash a write would leave in its annotation. */
  function HashOf(e: Encoding, event: Event): (hash: string) {
    match event
    case WroteConfig(yaml) => e.hash(yaml)
    case WroteHash(hash) => hash
  }

  /** Every configuration still to land has this hash. */
  ghost predicate LateConfigsHave(e: Encoding, late: seq<Event>, hash: string) {
    forall x | x in late && x.WroteConfig? :: e.hash(x.yaml) == hash
  }

  lemma {:induction false} LandedKeepsConfigHash(e: Encoding, c: Cluster, k: nat, hash: string)
    requires c.configMap.Some? && c.configMap.value.hash == hash && LateConfigsHave(e, c.late, hash)
    ensures var c' := Landed(e, c, k);
            c'.configMap.Some? && c'.configMap.value.hash == hash && LateConfigsHave(e, c'.late, hash)
  {
    if k < |c.late| {
      assert c.late[k] in c.late;
      assert forall x | x in Landed(e, c, k).late :: x in c.late;
    }
  }

  lemma {:induction false} LandedAllKeepsConfigHash(e: Encoding, c: Cluster, ks: seq<nat>, hash: string)
    requires c.configMap.Some? && c.configMap.value.hash == hash && LateConfigsHave(e, c.late, hash)
    ensures var c' := LandedAll(e, c, ks);
            c'.configMap.Some? && c'.configMap.value.hash == hash && LateConfigsHave(e, c'.late, hash)
  {
    if ks != [] {
      LandedAllKeepsConfigHash(e, c, ks[..|ks| - 1], hash);
      LandedKeepsConfigHash(e, LandedAll(e, c, ks[..|ks| - 1]), ks[|ks| - 1], hash);
    }
  }

  lemma {:induction false} LandedOne(e: Encoding, c: Cluster, k: nat)
    ensures LandedAll(e, c, [k]) == Landed(e, c, k)
  {
    assert [k][..0] == [];
  }

  /** The reconcile succeeds and leaves both annotations equal, whatever lands between its two writes. */
  ghost predicate ConvergesAlways(e: Encoding, c: Cluster, i: Inputs) {
    forall ks: seq<nat> :: Reconciled(e, c, i.(between := ks)).1 && Agrees(Reconciled(e, c, i.(between := ks)).0)
  }

  /** What a successful reconcile leaves, for the late writes that land between its two. */
  lemma {:induction false} SuccessLeaves(e: Encoding, c: Cluster, i: Inputs, ks: seq<nat>)
    requires WritesHash(e, i) && i.deployment == Done
    ensures var yaml := YamlOf(e, i).value; var hash := e.hash(yaml);
            && Reconciled(e, c, i.(between := ks)).1
            && Reconciled(e, c, i.(between := ks)).0 == WithHash(LandedAll(e, WithConfig(c, yaml, hash), ks), hash)
  {
  }

  /**
   * Exactly when a reconcile that reports success leaves both annotations equal to the hash of what it rendered,
   * whatever lands meanwhile: when every configuration still to land has that hash.  And with nothing landing,
   * always, until the next move that writes.
   */
  lemma {:induction false} SuccessConverges(e: Encoding, c: Cluster, i: Inputs)
    requires WritesHash(e, i) && i.deployment == Done
    ensures ConvergesAlways(e, c, i) <==> LateConfigsHave(e, c.late, e.hash(YamlOf(e, i).value))
    ensures var c' := Reconciled(e, c, i.(between := [])).0;
            Agrees(c') && c'.deployment == Some(e.hash(YamlOf(e, i).value))
  {
    var yaml := YamlOf(e, i).value;
    var hash := e.hash(yaml);
    var c1 := WithConfig(c, yaml, hash);
    SuccessLeaves(e, c, i, []);
    if LateConfigsHave(e, c.late, hash) {
      forall ks: seq<nat>
        ensures Reconciled(e, c, i.(between := ks)).1 && Agrees(Reconciled(e, c, i.(between := ks)).0)
      {
        SuccessLeaves(e, c, i, ks);
        LandedAllKeepsConfigHash(e, c1, ks, hash);
      }
    } else {
      var k :| 0 <= k < |c.late| && c.late[k].WroteConfig? && e.hash(c.late[k].yaml) != hash;
      SuccessLeaves(e, c, i, [k]);
      LandedOne(e, c1, k);
      assert !Agrees(Reconciled(e, c, i.(between := [k])).0);
    }
  }

  /** Both annotations stay equal, whatever lands. */
  ghost predicate StaysConverged(e: Encoding, c: Cluster) {
    forall ks: seq<nat> :: Agrees(LandedAll(e, c, ks))
  }

  /**
   * Exactly when agreement survives everything still to land: when all of it, configurations and hashes, has the hash
   * already there.
   */
  lemma {:induction false} StaysConvergedIff(e: Encoding, c: Cluster)
    requires Agrees(c)
    ensures StaysConverged(e, c) <==> forall x | x in c.late :: HashOf(e, x) == c.deployment.value
  {
    if forall x | x in c.late :: HashOf(e, x) == c.deployment.value {
      forall ks: seq<nat>
        ensures Agrees(LandedAll(e, c, ks))
      {
        LandedAllAgrees(e, c, ks);
      }
    } else {
      var k :| 0 <= k < |c.late| && HashOf(e, c.late[k]) != c.deployment.value;
      LandedOne(e, c, k);
      assert !Agrees(LandedAll(e, c, [k]));
    }
  }

  lemma {:induction false} LandedAllAgrees(e: Encoding, c: Cluster, ks: seq<nat>)
    requires Agrees(c) && forall x | x in c.late :: HashOf(e, x) == c.deployment.value
    ensures var c' := LandedAll(e, c, ks);
            Agrees(c') && c'.deployment == c.deployment && forall x | x in c'.late :: x in c.late
  {
    if ks != [] {
      LandedAllAgrees(e, c, ks[..|ks| - 1]);
      var before, k := LandedAll(e, c, ks[..|ks| - 1]), ks[|ks| - 1];
      if k < |before.late| {
        assert before.late[k] in c.late;
        assert forall x | x in Landed(e, before, k).late :: x in before.late;
      }
    }
  }

  /**
   * A run from a cluster with nothing pending: the first reconcile's ConfigMap write times out, and lands between the
   * two writes of the second, which renders something else.  The second reports success, and the annotations differ.
   */
  lemma {:induction false} LateWriteSplits(e: Encoding, c: Cluster, first: Inputs, second: Inputs)
    requires c.late == [] && YamlOf(e, first).Some? && first.configMap == Late
    requires WritesHash(e, second) && second.deployment == Done && second.between == [0]
    requires e.hash(YamlOf(e, first).value) != e.hash(YamlOf(e, second).value)
    ensures Reconciled(e, Run(e, c, [Reconcile(first)]), second).1
    ensures var c' := Run(e, c, [Reconcile(first), Reconcile(second)]);
            c'.configMap.Some? && c'.deployment.Some? && !Agrees(c')
  {
    var yaml := YamlOf(e, second).value;
    var c1 := c.(late := [WroteConfig(YamlOf(e, first).value)]);
    assert [Reconcile(first)][..0] == [] && [Reconcile(first), Reconcile(second)][..1] == [Reconcile(first)];
    assert Run(e, c, [Reconcile(first)]) == c1;
    SuccessLeaves(e, c1, second, [0]);
    LandedOne(e, WithConfig(c1, yaml, e.hash(yaml)), 0);
    assert second.(between := [0]) == second;
  }
}
