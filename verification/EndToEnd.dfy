/**
 * From the client to the backend: what becomes of a request that presents a token minted with default flags, and whose
 * name the backend gets to see.
 */
module EndToEnd {
  import MemoryReplay
  import opened Base64Url
  import opened Clock
  import opened Common
  import opened Gateway
  import opened GatewayReplay
  import opened GatewaySafety
  import opened HandlerRuns
  import opened Headers
  import opened Routing
  import opened Tokens
  import opened Verifiers

  // ---------------------------------------------------------------- the token in the header

  /** No character of the text is white space. */
  ghost predicate NoWhite(s: string) {
    forall i | 0 <= i < |s| :: !White(s[i])
  }

  lemma {:induction false} DigitsNotWhite(s: string)
    requires AllDigits(s)
    ensures NoWhite(s)
  {
  }

  lemma {:induction false} MintedNotWhite(p: Platform, key: ClientKey, o: Options, now: int, jti: string)
    ensures NoWhite(Mint(p, key, o, now, jti)) && Mint(p, key, o, now, jti) != ""
  {
    var h := p.headerJson(Header("EdDSA", "JWT", KidOf(key, o)));
    var c := p.claimsJson(ClaimsOf(key, o, now, jti));
    var s := p.sign(key.seed, Bytes(SigningInput(p, key, o, now, jti)));
    StripPadRoundTrip(h, "");
    StripPadRoundTrip(c, "");
    StripPadRoundTrip(s, "");
    DigitsNotWhite(Unpadded(h));
    DigitsNotWhite(Unpadded(c));
    DigitsNotWhite(Unpadded(s));
    ThreeNotWhite(Unpadded(h), Unpadded(c), Unpadded(s));
  }

  lemma {:induction false} ThreeNotWhite(a: string, b: string, c: string)
    requires NoWhite(a) && NoWhite(b) && NoWhite(c)
    ensures NoWhite(a + "." + b + "." + c) && a + "." + b + "." + c != ""
  {
    assert NoWhite(".");
    assert NoWhite(a + ".");
    assert NoWhite(a + "." + b);
    assert NoWhite(a + "." + b + ".");
  }

  /** A token without white space after the scheme and one space is the request's token. */
  lemma {:induction false} PresentedToken(fields: Fields, scheme: string, token: string)
    requires Presents(fields, scheme, token) && NoWhite(token) && token != ""
    ensures Bearer(fields) == token
  {
    var a, b := BearerMeaning(fields, scheme, token);
    NoBlankEnds(a, Bearer(fields), b);
  }

  lemma {:induction false} NoBlankEnds(a: string, m: string, b: string)
    requires NoWhite(a + m + b) && Blank(a) && Blank(b)
    ensures a == "" && b == "" && a + m + b == m
  {
    var s := a + m + b;
    assert forall i | 0 <= i < |a| :: a[i] == s[i];
    assert forall i | 0 <= i < |b| :: b[i] == s[|a| + |m| + i];
    assert NoWhite(a) && NoWhite(b);
    if a != "" {
      WhiteOrNot(a);
      assert false;
    }
    if b != "" {
      WhiteOrNot(b);
      assert false;
    }
  }

  lemma {:induction false} WhiteOrNot(s: string)
    requires s != ""
    ensures !(NoWhite(s) && Blank(s))
  {
    assert White(s[0]) || !White(s[0]);
  }

  // ---------------------------------------------------------------- through the verifier

  /** The request is still on its way to the nonce store, which has not changed. */
  ghost predicate OnTheWay(s: State, t: nat, req: Request, route: Route, v: Verified, now: int, items: map<string,
      int>) {
    && t in s.threads && s.replay.clock == now && s.replay.items == items
    && var th, start := s.threads[t], NewThread(req);
    || th == start
    || th == start.(route := Some(route), pc := Verifying(Bearer(req.headers)))
    || (th == start.(route := Some(route), pc := Storing(v)) && t in s.replay.pending)
  }

  /** The request is past the verifier and not refused by it. */
  ghost predicate Past(th: Thread, route: Route, v: Verified) {
    && th.verified == Some(v) && th.route == Some(route) && th.authCounted == []
    && !th.pc.Arrived? && !th.pc.Verifying? && !th.pc.Storing? && !th.pc.CountingAuth?
    && (th.pc.Counting? ==> !th.pc.series.reason.IsAuth())
    && (th.pc.Erroring? || th.pc.Finished? ==> |th.counted| == 1 && !th.counted[0].reason.IsAuth())
  }

  /** The request lacks the scope, and is being told so. */
  ghost predicate Unscoped(th: Thread, route: Route) {
    var l := Label(route.prefix, Denied, MissingScope);
    && (th.pc.Counting? || th.pc.CountingAuth? || th.pc.Erroring? || th.pc.Finished?)
    && (th.pc.Counting? ==> th.pc.series == l)
    && (th.pc.CountingAuth? || th.pc.Erroring? || th.pc.Finished? ==> th.counted == [l])
  }

  ghost predicate HasScopeFor(c: Claims, route: Route) {
    route.requiredScope == "" || route.requiredScope in c.scope
  }

  ghost predicate Through(s: State, t: nat, req: Request, route: Route, v: Verified, now: int, items: map<string,
      int>) {
    || OnTheWay(s, t, req, route, v, now, items)
    || (t in s.threads && HasScopeFor(v.claims, route) && Past(s.threads[t], route, v))
    || (t in s.threads && !HasScopeFor(v.claims, route) && Unscoped(s.threads[t], route))
  }

  /** The request is one the checks accept now, with a nonce not seen. */
  ghost predicate Admissible(u: Setup, req: Request, route: Route, v: Verified, now: int, items: map<string, int>) {
    && FirstMatch(u.routes, req.path) == Some(route) && Bearer(req.headers) != ""
    && Authenticate(u.platform, u.cfg, Bearer(req.headers), now) == Ok(v) && v.claims.jti !in items
  }

  lemma {:induction false} PastStep(th: Thread, o: Seen, route: Route, v: Verified)
    requires Past(th, route, v) && Bookkeeping(th)
    ensures Past(Step(th, o).0, route, v)
  {
  }

  lemma {:induction false} UnscopedStep(th: Thread, o: Seen, route: Route)
    requires Unscoped(th, route) && Bookkeeping(th)
    ensures Unscoped(Step(th, o).0, route)
  {
  }

  lemma {:induction false} StoredStep(th: Thread, route: Route, v: Verified, next: nat)
    requires th.pc == Storing(v) && th.route == Some(route) && th.authCounted == [] && th.counted == []
    ensures var th' := Step(th, SeenNonce(true, next)).0;
            if HasScopeFor(v.claims, route) then Past(th', route, v) else Unscoped(th', route)
  {
  }

  lemma {:induction false} CheckPending(r: MemoryReplay.State, t: nat, c: Claims)
    requires CheckTime(r.clock, c.iat, c.exp) == InWindow && c.jti != ""
    ensures var r' := MemoryReplay.Next(r, MemoryReplay.Check(t, c.jti, c.iat, c.exp));
            r'.clock == r.clock && r'.items == r.items && t in r'.pending
  {
  }

  lemma {:induction false} WayStep(u: Setup, s: State, t: nat, c: Choice, req: Request, route: Route, v: Verified,
                                   now: int,
                                   items: map<string, int>)
    requires OnTheWay(s, t, req, route, v, now, items) && Admissible(u, req, route, v, now, items)
    ensures Through(Next(u, s, Act(t, c)), t, req, route, v, now, items)
  {
    var th := s.threads[t];
    if th.pc.Verifying? {
      AuthenticatedInWindow(u, Bearer(req.headers), now, v);
      CheckPending(s.replay, t, v.claims);
      assert Step(th, SeenToken(Ok(v))) == (th.(pc := Storing(v)), PassCheck(v.claims));
    } else if th.pc.Storing? {
      StoredStep(th, route, v, |s.replay.log|);
    }
  }

  lemma {:induction false} GoesThrough(u: Setup, from: State, t: nat, choices: seq<Choice>, req: Request, route: Route,
                                       v: Verified, now: int, items: map<string, int>)
    requires t in from.threads && from.threads[t] == NewThread(req)
    requires OnTheWay(from, t, req, route, v, now, items) && Admissible(u, req, route, v, now, items)
    ensures Through(Acts(u, from, t, choices), t, req, route, v, now, items)
  {
    if choices != [] {
      var n := |choices| - 1;
      var s := Acts(u, from, t, choices[..n]);
      GoesThrough(u, from, t, choices[..n], req, route, v, now, items);
      ActsAccounted(u, from, t, choices[..n], Ref("", ""), Label("", Denied, NoRoute), NoRoute);
      if OnTheWay(s, t, req, route, v, now, items) {
        WayStep(u, s, t, choices[n], req, route, v, now, items);
      } else if HasScopeFor(v.claims, route) {
        PastStep(s.threads[t], Observe(u, s, s.threads[t], choices[n]), route, v);
      } else {
        UnscopedStep(s.threads[t], Observe(u, s, s.threads[t], choices[n]), route);
      }
    }
  }

  /**
   * A request the checks accept, served to its end on a store that has not seen its nonce: it is past the verifier with
   * its claims and registered subject, and ends in anything but an authentication failure, exactly when it has the
   * route's scope; otherwise it ends in missing_scope.
   */
  lemma {:induction false} AdmissibleIsServed(run: Trace, s: State, req: Request, route: Route, v: Verified, now: int)
    requires run.from == Begun(run.u, s, run.t, req, now) && run.t !in s.threads && s.replay.clock <= now
    requires Mine(run, Here(run)).pc == Finished && Admissible(run.u, req, route, v, now, s.replay.items)
    ensures var th := Mine(run, Here(run));
            && |th.counted| == 1
            && (HasScopeFor(v.claims, route) ==>
                  th.verified == Some(v) && !th.counted[0].reason.IsAuth() && th.authCounted == [])
            && (!HasScopeFor(v.claims, route) ==> th.counted == [Label(route.prefix, Denied, MissingScope)])
  {
    BegunOnTheWay(run.u, s, run.t, req, route, v, now);
    GoesThrough(run.u, run.from, run.t, run.choices, req, route, v, now, s.replay.items);
    assert Through(Here(run), run.t, req, route, v, now, s.replay.items);
  }

  lemma {:induction false} BegunOnTheWay(u: Setup, s: State, t: nat, req: Request, route: Route, v: Verified, now: int)
    requires t !in s.threads && s.replay.clock <= now
    ensures var from := Begun(u, s, t, req, now);
            && t in from.threads && from.threads[t] == NewThread(req)
            && OnTheWay(from, t, req, route, v, now, s.replay.items)
  {
  }

  /** The gateway knows the key, and is the one the token is minted for. */
  ghost predicate Knows(u: Setup, key: ClientKey) {
    && Lawful(u.platform) && key.kid in u.cfg.keys && u.cfg.keys[key.kid].pub == u.platform.publicKey(key.seed)
    && (u.cfg.issuer == "" || u.cfg.issuer == ISSUER) && u.cfg.audience == AUDIENCE
  }

  /**
   * The whole way: a request whose first Authorization value is "Bearer", in any case, a space and a default token of a
   * registered key, on a route whose scope the key has, in the token's time and presented for the first time, gets past
   * the verifier under the registered subject.
   */
  lemma {:induction false} DefaultTokenGetsThrough(run: Trace, s: State, req: Request, route: Route, now: int,
                                                   key: ClientKey,
                                                   minted: nat, jti: string, scheme: string)
    requires run.from == Begun(run.u, s, run.t, req, now) && run.t !in s.threads && s.replay.clock <= now
    requires Mine(run, Here(run)).pc == Finished && Knows(run.u, key) && jti != "" && jti !in s.replay.items
    requires Presents(req.headers, scheme, Mint(run.u.platform, key, Defaults, minted, jti)) && Usable(minted, now)
    requires FirstMatch(run.u.routes, req.path) == Some(route)
    requires route.requiredScope == "" || route.requiredScope in key.scopes
    ensures var th := Mine(run, Here(run));
            && th.verified.Some? && th.verified.value.subject == run.u.cfg.keys[key.kid].sub
            && th.verified.value.claims.jti == jti && th.verified.value.claims.scope == key.scopes
            && |th.counted| == 1 && !th.counted[0].reason.IsAuth() && th.authCounted == []
  {
    var p, cfg := run.u.platform, run.u.cfg;
    var token, v := Mint(p, key, Defaults, minted, jti),
        Verified(ClaimsOf(key, Defaults, minted, jti), cfg.keys[key.kid].sub);
    MintedNotWhite(p, key, Defaults, minted, jti);
    PresentedToken(req.headers, scheme, token);
    MintedAcceptedOnce(p, cfg, s.replay.items, 0, key, minted, jti, now, now);
    VerdictReasons(p, cfg, s.replay.items, token, now);
    AdmissibleIsServed(run, s, req, route, v, now);
  }

  // ---------------------------------------------------------------- the name the backend sees

  /** The token behind a forward, taken apart. */
  lemma {:induction false} ForwardedAnatomy(u: Setup, events: seq<Event>, t: nat) returns (a: Anatomy)
    requires t in Run(u, events).threads && Run(u, events).threads[t].attempts != []
    ensures var th := Run(u, events).threads[t];
            th.verified.Some? && SignedOver(u.platform, u.cfg, Bearer(th.req.headers), th.verified.value, a)
  {
    EveryRequest(u, events, t);
    var th := Run(u, events).threads[t];
    var entry := Run(u, events).replay.log[th.entry.value];
    a := AcceptedIsSignedOver(u.platform, u.cfg, Bearer(th.req.headers), entry.checkedAt
                              + entry.offset, th.verified.value);
  }

  /** The registration behind a key. */
  lemma {:induction false} RegistrationOf(p: Platform, regs: seq<Registration>, cfg: Config, kid: string)
    returns (i: nat)
    requires KeysOf(p, regs) == Some(cfg.keys) && kid in cfg.keys
    ensures LastOfKid(regs, i) && regs[i].kid == kid && HasFieldsOf(p, cfg.keys[kid], regs[i])
  {
    KeysOnFields(p, regs);
    i :| LastOfKid(regs, i) && regs[i].kid == kid;
  }

  lemma {:induction false} ForwardedHeaders(u: Setup, events: seq<Event>, t: nat, k: nat, n: string)
    requires t in Run(u, events).threads && k < |Run(u, events).threads[t].attempts|
    requires var a := Run(u, events).threads[t].attempts[k]; a.headers.Some? && n in a.headers.value
    ensures var th := Run(u, events).threads[t];
            && th.verified.Some? && Values(th.attempts[k].headers.value, "X-Forwarded-Sub")
            == [th.verified.value.subject]
            && (Lower(n) == "x-forwarded-sub" ==> n == "X-Forwarded-Sub") && Lower(n) != "authorization"
  {
    ThreadProvenance(u, events, t);
    var th := Run(u, events).threads[t];
    assert GoodAttempt(th.req, th.verified.value, th.attempts[k]);
    BackendSees(th.req.headers, th.verified.value.subject, th.req.rid, th.attempts[k].headers.value, n);
  }

  /**
   * Whose name a backend sees, in every run: the subject of the last registration of the kid in the request's token,
   * whose public key verified the token's signature; and it sees no other.
   */
  lemma {:induction false} BackendSeesRegisteredSubject(u: Setup, regs: seq<Registration>, events: seq<Event>, t: nat,
                                                        k: nat, n: string)
    returns (a: Anatomy, i: nat)
    requires KeysOf(u.platform, regs) == Some(u.cfg.keys)
    requires t in Run(u, events).threads && k < |Run(u, events).threads[t].attempts|
    requires var x := Run(u, events).threads[t].attempts[k]; x.headers.Some? && n in x.headers.value
    ensures var th := Run(u, events).threads[t]; var h := th.attempts[k].headers.value;
            && th.verified.Some? && SignedOver(u.platform, u.cfg, Bearer(th.req.headers), th.verified.value, a)
            && LastOfKid(regs, i) && regs[i].kid == a.kid
            && u.platform.decodeStd(regs[i].pubBase64) == Some(u.cfg.keys[a.kid].pub)
            && Values(h, "X-Forwarded-Sub") == [regs[i].subject]
            && (Lower(n) == "x-forwarded-sub" ==> n == "X-Forwarded-Sub") && Lower(n) != "authorization"
  {
    a := ForwardedAnatomy(u, events, t);
    i := RegistrationOf(u.platform, regs, u.cfg, a.kid);
    ForwardedHeaders(u, events, t, k, n);
  }
}
