/** JWT verification: key registration, the checks in their order, and the replay store last. */
module Verifiers {
  import opened Base64Url
  import opened Clock
  import opened Common
  import opened NonceCaches

  /** Why a request ends the way it does: the auth reasons first, then the proxy's own. */
  datatype Reason =
    | NoToken | UnknownKid | BadSignature | BadClaims | Expired | NotYetValid | Replay
    | MissingScope | WrongAudience | WrongIssuer
    | NoRoute | NoHealthyBackend | UpstreamError | Success
  {
    predicate IsAuth() {
      !(NoRoute? || NoHealthyBackend? || UpstreamError? || Success?)
    }
  }

  const PUBLIC_KEY_SIZE := 32

  datatype Header = Header(alg: string, typ: string, kid: string)

  datatype Claims = Claims(iss: string, sub: string, aud: string, iat: int, exp: int, jti: string, scope: seq<string>)

  /** Ed25519, JSON and standard base64, seen only through what the gateway and its client call. */
  datatype Platform = Platform(
    publicKey: seq<Byte> -> seq<Byte>,
    sign: (seq<Byte>, seq<Byte>) -> seq<Byte>,
    verify: (seq<Byte>, seq<Byte>, seq<Byte>) -> bool,
    headerJson: Header -> seq<Byte>,
    parseHeader: seq<Byte> -> Option<Header>,
    claimsJson: Claims -> seq<Byte>,
    parseClaims: seq<Byte> -> Option<Claims>,
    decodeStd: string -> Option<seq<Byte>>)

  /** The only laws used: a signature verifies under its own key and is 64 bytes, and JSON reads back what it wrote. */
  ghost predicate Lawful(p: Platform) {
    && (forall seed, msg :: p.verify(p.publicKey(seed), msg, p.sign(seed, msg)) && |p.sign(seed, msg)| == 64)
    && (forall h :: p.parseHeader(p.headerJson(h)) == Some(h))
    && (forall c :: p.parseClaims(p.claimsJson(c)) == Some(c))
  }

  datatype Registration = Registration(kid: string, pubBase64: string, subject: string, scopes: seq<string>)

  datatype Key = Key(pub: seq<Byte>, sub: string, scopes: set<string>)

  /** The key a registration stands for, if its public key is 32 bytes of valid base64. */
  function KeyOf(p: Platform, r: Registration): (k: Option<Key>) {
    var raw := p.decodeStd(r.pubBase64);
    if raw.None? || |raw.value| != PUBLIC_KEY_SIZE then None
    else Some(Key(raw.value, r.subject, set s | s in r.scopes))
  }

  /** The map built from registrations, later ones overwriting earlier ones of the same kid. */
  function KeysOf(p: Platform, regs: seq<Registration>): (keys: Option<map<string, Key>>) {
    if regs == [] then Some(map[]) else
    var last := regs[|regs| - 1];
    var before := KeysOf(p, regs[..|regs| - 1]);
    if before.None? || KeyOf(p, last).None? then None
    else Some(before.value[last.kid := KeyOf(p, last).value])
  }

  /** The text is the standard base64 of exactly 32 bytes. */
  predicate DecodesTo32(p: Platform, pubBase64: string) {
    p.decodeStd(pubBase64).Some? && |p.decodeStd(pubBase64).value| == 32
  }

  /** Registration i is the last one of its kid. */
  ghost predicate LastOfKid(regs: seq<Registration>, i: nat) {
    i < |regs| && forall j | i < j < |regs| :: regs[j].kid != regs[i].kid
  }

  /** The key is the one these fields register. */
  ghost predicate HasFieldsOf(p: Platform, k: Key, r: Registration) {
    && k.sub == r.subject && p.decodeStd(r.pubBase64) == Some(k.pub) && |k.pub| == 32
    && forall s :: s in k.scopes <==> s in r.scopes
  }

  /** Each kid registered has a key, with the fields of its last registration, and no other kid has one. */
  ghost predicate Registers(p: Platform, regs: seq<Registration>, m: map<string, Key>) {
    && (forall i: nat | LastOfKid(regs, i) :: regs[i].kid in m && HasFieldsOf(p, m[regs[i].kid], regs[i]))
    && (forall kid | kid in m :: exists i: nat :: LastOfKid(regs, i) && regs[i].kid == kid)
  }

  lemma {:induction false} KeyFields(p: Platform, r: Registration)
    ensures KeyOf(p, r).Some? <==> DecodesTo32(p, r.pubBase64)
    ensures KeyOf(p, r).Some? ==> HasFieldsOf(p, KeyOf(p, r).value, r)
  {
  }

  lemma {:induction false} LastIndex(regs: seq<Registration>, kid: string, r: Registration) returns (i: nat)
    requires r in regs && r.kid == kid
    ensures LastOfKid(regs, i) && regs[i].kid == kid
  {
    i := |regs| - 1;
    while regs[i].kid != kid
      invariant i < |regs| && forall j | i < j < |regs| :: regs[j].kid != kid
      decreases i
    {
      if i == 0 {
        assert false;
      }
      i := i - 1;
    }
  }

  /**
   * The key map on the fields of the registrations: it cannot be built exactly when some public key does not decode to
   * 32 bytes, and otherwise holds what the last registration of each kid says.
   */
  lemma {:induction false} KeysOnFields(p: Platform, regs: seq<Registration>)
    ensures KeysOf(p, regs).None? <==> exists i :: 0 <= i < |regs| && !DecodesTo32(p, regs[i].pubBase64)
    ensures KeysOf(p, regs).Some? ==> Registers(p, regs, KeysOf(p, regs).value)
  {
    KeysOfMeaning(p, regs);
    forall r: Registration {
      KeyFields(p, r);
    }
    if KeysOf(p, regs).Some? {
      RegistersAll(p, regs);
    } else {
      var r :| r in regs && KeyOf(p, r).None?;
      var i :| 0 <= i < |regs| && regs[i] == r;
      assert !DecodesTo32(p, regs[i].pubBase64);
    }
  }

  lemma {:induction false} RegistersAll(p: Platform, regs: seq<Registration>)
    requires KeysOf(p, regs).Some?
    ensures Registers(p, regs, KeysOf(p, regs).value)
  {
    var m := KeysOf(p, regs).value;
    forall i: nat | LastOfKid(regs, i)
      ensures regs[i].kid in m && HasFieldsOf(p, m[regs[i].kid], regs[i])
    {
      LastRegistrationWins(p, regs, i);
      KeyFields(p, regs[i]);
    }
    KeysOfMeaning(p, regs);
    forall kid | kid in m
      ensures exists i: nat :: LastOfKid(regs, i) && regs[i].kid == kid
    {
      var r :| r in regs && r.kid == kid;
      var i := LastIndex(regs, kid, r);
    }
  }

  method BuildKeys(p: Platform, regs: seq<Registration>) returns (keys: Option<map<string, Key>>)
    ensures keys == if regs == [] then None else KeysOf(p, regs)
    ensures keys.None? <==> regs == [] || exists i :: 0 <= i < |regs| && !DecodesTo32(p, regs[i].pubBase64)
    ensures keys.Some? ==> Registers(p, regs, keys.value)
  {
    KeysOnFields(p, regs);
    if |regs| == 0 {
      return None;
    }
    var m: map<string, Key> := map[];
    for i := 0 to |regs|
      invariant KeysOf(p, regs[..i]) == Some(m)
    {
      var r := regs[i];
      assert regs[..i + 1][..i] == regs[..i];
      var raw := p.decodeStd(r.pubBase64);
      if raw.None? || |raw.value| != PUBLIC_KEY_SIZE {
        KeysOfPrefix(p, regs, i + 1);
        return None;
      }
      m := m[r.kid := Key(raw.value, r.subject, set s | s in r.scopes)];
    }
    assert regs[..|regs|] == regs;
    return Some(m);
  }

  lemma {:induction false} KeysOfPrefix(p: Platform, regs: seq<Registration>, n: nat)
    requires n <= |regs| && KeysOf(p, regs[..n]).None?
    ensures KeysOf(p, regs).None?
  {
    if n == |regs| {
      assert regs[..n] == regs;
    } else {
      assert regs[..|regs| - 1][..n] == regs[..n];
      KeysOfPrefix(p, regs[..|regs| - 1], n);
    }
  }

  /**
   * What the key map holds: it exists when every registration is good, and each kid maps to a key registered for it.
   */
  lemma {:induction false} KeysOfMeaning(p: Platform, regs: seq<Registration>)
    ensures KeysOf(p, regs).Some? <==> forall r | r in regs :: KeyOf(p, r).Some?
    ensures KeysOf(p, regs).Some? ==>
              var m := KeysOf(p, regs).value;
              && (forall r | r in regs :: r.kid in m)
              && (forall kid | kid in m :: exists r :: r in regs && r.kid == kid && KeyOf(p, r) == Some(m[kid]))
  {
    if regs != [] {
      var n := |regs| - 1;
      KeysOfMeaning(p, regs[..n]);
      assert forall r :: r in regs <==> r in regs[..n] || r == regs[n];
    }
  }

  /** The last registration of a kid is the one that counts. */
  lemma {:induction false} LastRegistrationWins(p: Platform, regs: seq<Registration>, i: nat)
    requires i < |regs| && KeysOf(p, regs).Some? && forall j | i < j < |regs| :: regs[j].kid != regs[i].kid
    ensures regs[i].kid in KeysOf(p, regs).value && KeyOf(p, regs[i]) == Some(KeysOf(p, regs).value[regs[i].kid])
  {
    var n := |regs| - 1;
    if i < n {
      LastRegistrationWins(p, regs[..n], i);
    }
  }

  /** Registrations of the same kid stand for the same key. */
  ghost predicate Agree(p: Platform, regs: seq<Registration>) {
    forall a, b | a in regs && b in regs && a.kid == b.kid :: KeyOf(p, a) == KeyOf(p, b)
  }

  /** Every order of the registrations builds the same key map, or every order fails. */
  ghost predicate OrderIrrelevant(p: Platform, regs: seq<Registration>) {
    forall other: seq<Registration> | multiset(other) == multiset(regs) :: KeysOf(p, other) == KeysOf(p, regs)
  }

  lemma {:induction false} SameMembers(a: seq<Registration>, b: seq<Registration>)
    requires multiset(a) == multiset(b)
    ensures forall r :: r in a <==> r in b
  {
    assert forall r :: r in a <==> r in multiset(a);
    assert forall r :: r in b <==> r in multiset(b);
  }

  lemma {:induction false} LookupAgrees(p: Platform, regs: seq<Registration>, r: Registration)
    requires Agree(p, regs) && KeysOf(p, regs).Some? && r in regs
    ensures r.kid in KeysOf(p, regs).value && KeyOf(p, r) == Some(KeysOf(p, regs).value[r.kid])
  {
    KeysOfMeaning(p, regs);
    var m := KeysOf(p, regs).value;
    var r' :| r' in regs && r'.kid == r.kid && KeyOf(p, r') == Some(m[r.kid]);
  }

  lemma {:induction false} KidWitness(p: Platform, regs: seq<Registration>, kid: string) returns (r: Registration)
    requires KeysOf(p, regs).Some? && kid in KeysOf(p, regs).value
    ensures r in regs && r.kid == kid
  {
    KeysOfMeaning(p, regs);
    r :| r in regs && r.kid == kid;
  }

  lemma {:induction false} SameFailures(p: Platform, regs: seq<Registration>, other: seq<Registration>)
    requires multiset(other) == multiset(regs)
    ensures KeysOf(p, other).Some? <==> KeysOf(p, regs).Some?
  {
    SameMembers(regs, other);
    KeysOfMeaning(p, regs);
    KeysOfMeaning(p, other);
  }

  lemma {:induction false} AgreeingOrders(p: Platform, regs: seq<Registration>, other: seq<Registration>)
    requires Agree(p, regs) && multiset(other) == multiset(regs)
    ensures KeysOf(p, other) == KeysOf(p, regs)
  {
    SameMembers(regs, other);
    SameFailures(p, regs, other);
    if KeysOf(p, regs).Some? {
      var m, m' := KeysOf(p, regs).value, KeysOf(p, other).value;
      forall kid | kid in m || kid in m'
        ensures kid in m && kid in m' && m[kid] == m'[kid]
      {
        var r := KidWitness(p, if kid in m then regs else other, kid);
        LookupAgrees(p, regs, r);
        LookupAgrees(p, other, r);
      }
      assert m == m';
    }
  }

  /** The order of registrations matters exactly when two of the same kid differ and none is bad. */
  lemma {:induction false} OrderIrrelevantIff(p: Platform, regs: seq<Registration>)
    ensures OrderIrrelevant(p, regs) <==> Agree(p, regs) || exists r :: r in regs && KeyOf(p, r).None?
  {
    if Agree(p, regs) {
      forall other: seq<Registration> | multiset(other) == multiset(regs)
        ensures KeysOf(p, other) == KeysOf(p, regs)
      {
        AgreeingOrders(p, regs, other);
      }
    } else if r :| r in regs && KeyOf(p, r).None? {
      forall other: seq<Registration> | multiset(other) == multiset(regs)
        ensures KeysOf(p, other) == KeysOf(p, regs)
      {
        SameFailures(p, regs, other);
        KeysOfMeaning(p, regs);
      }
    } else {
      var a, b :| a in regs && b in regs && a.kid == b.kid && KeyOf(p, a) != KeyOf(p, b);
      var aLast := LastWins(p, regs, a);
      var bLast := LastWins(p, regs, b);
      assert KeysOf(p, aLast) != KeysOf(p, bLast);
    }
  }

  /** Moving a registration to the end makes its key the one of its kid. */
  lemma {:induction false} LastWins(p: Platform, regs: seq<Registration>, r: Registration)
    returns (other: seq<Registration>)
    requires r in regs && forall x | x in regs :: KeyOf(p, x).Some?
    ensures multiset(other) == multiset(regs)
    ensures KeysOf(p, other).Some? && r.kid in KeysOf(p, other).value
            && KeysOf(p, other).value[r.kid] == KeyOf(p, r).value
  {
    var i :| 0 <= i < |regs| && regs[i] == r;
    assert regs == regs[..i] + [r] + regs[i + 1..];
    other := regs[..i] + regs[i + 1..] + [r];
    SameMembers(regs, other);
    KeysOfMeaning(p, other);
  }

  datatype Config = Config(keys: map<string, Key>, issuer: string, audience: string)

  /** strings.Split on a one-character separator. */
  function Split(s: string, sep: char): (parts: seq<string>)
    ensures |parts| >= 1
  {
    if s == "" then [""] else
    var rest := Split(s[1..], sep);
    if s[0] == sep then [""] + rest else [[s[0]] + rest[0]] + rest[1..]
  }

  function Bytes(s: string): (b: seq<Byte>) {
    seq(|s|, i requires 0 <= i < |s| => s[i] as int % 256)
  }

  datatype Verified = Verified(claims: Claims, subject: string)

  /** Every check of Verify up to the nonce store, in the order the code makes them. */
  function Authenticate(p: Platform, cfg: Config, token: string, now: int): (r: Result<Verified, Reason>) {
    var parts := Split(token, '.');
    if |parts| != 3 then Err(BadClaims) else AuthenticateParts(p, cfg, parts[0], parts[1], parts[2], now)
  }

  function AuthenticateParts(p: Platform, cfg: Config, head: string, body: string, tail: string, now: int)
    : (r: Result<Verified, Reason>)
  {
    var hdrRaw := DecodeRaw(head);
    if hdrRaw.None? then Err(BadClaims) else
    var hdr := p.parseHeader(hdrRaw.value);
    if hdr.None? || hdr.value.alg != "EdDSA" then Err(BadClaims)
    else if hdr.value.kid !in cfg.keys then Err(UnknownKid) else
    var sig := DecodeRaw(tail);
    if sig.None? then Err(BadClaims)
    else if !p.verify(cfg.keys[hdr.value.kid].pub, Bytes(head + "." + body), sig.value) then Err(BadSignature) else
    var payload := DecodeRaw(body);
    if payload.None? then Err(BadClaims) else
    var c := p.parseClaims(payload.value);
    if c.None? then Err(BadClaims)
    else JudgeClaims(cfg, c.value, cfg.keys[hdr.value.kid].sub, now)
  }

  /** The checks on the claims of an authentic token. */
  function JudgeClaims(cfg: Config, c: Claims, sub: string, now: int): (r: Result<Verified, Reason>) {
    if cfg.issuer != "" && c.iss != cfg.issuer then Err(WrongIssuer)
    else if c.aud != cfg.audience then Err(WrongAudience)
    else match CheckTime(now, c.iat, c.exp)
      case PastExpiry => Err(Expired)
      case BeforeIssue => Err(NotYetValid)
      case InWindow => if c.jti == "" then Err(BadClaims) else Ok(Verified(c, sub))
  }

  /** A registered EdDSA key signed these segments, which carry these claims. */
  ghost predicate SignedParts(p: Platform, cfg: Config, head: string, body: string, tail: string, v: Verified) {
    && DecodeRaw(head).Some? && DecodeRaw(body).Some? && DecodeRaw(tail).Some?
    && p.parseHeader(DecodeRaw(head).value).Some?
    && var hdr := p.parseHeader(DecodeRaw(head).value).value;
    && hdr.alg == "EdDSA" && hdr.kid in cfg.keys
    && p.verify(cfg.keys[hdr.kid].pub, Bytes(head + "." + body), DecodeRaw(tail).value)
    && p.parseClaims(DecodeRaw(body).value) == Some(v.claims)
    && v.subject == cfg.keys[hdr.kid].sub
  }

  /** What an authentic token is: three dot-free segments, properly signed. */
  ghost predicate Authentic(p: Platform, cfg: Config, token: string, v: Verified) {
    exists head: string, body: string, tail: string ::
      && '.' !in head && '.' !in body && '.' !in tail && token == head + "." + body + "." + tail
      && SignedParts(p, cfg, head, body, tail, v)
  }

  /** The claims are for this gateway and for this moment. */
  ghost predicate Current(cfg: Config, c: Claims, now: int) {
    && (cfg.issuer == "" || c.iss == cfg.issuer) && c.aud == cfg.audience
    && c.exp != 0 && now <= Unix(c.exp) && (c.iat == 0 || Unix(c.iat) <= now + CLOCK_SKEW)
    && c.jti != ""
  }

  lemma {:induction false} AuthenticatePartsIff(p: Platform, cfg: Config, head: string, body: string, tail: string,
                                                now: int, v: Verified)
    ensures AuthenticateParts(p, cfg, head, body, tail, now) == Ok(v)
            <==> SignedParts(p, cfg, head, body, tail, v) && Current(cfg, v.claims, now)
  {
  }

  /** Text that decodes is made of digits of the alphabet and line breaks: all of them ASCII. */
  lemma {:induction false} DecodableIsAscii(s: string)
    requires DecodeRaw(s).Some?
    ensures forall i | 0 <= i < |s| :: s[i] as int < 128
  {
    DigitsOnly(DropLineBreaks(s));
    KeptOrBreak(s);
  }

  lemma {:induction false} DigitsOnly(s: string)
    requires FromDigits(s).Some?
    ensures forall i | 0 <= i < |s| :: Value(s[i]).Some?
  {
    if |s| > 4 {
      DigitsOnly(s[4..]);
      assert forall i | 4 <= i < |s| :: s[i] == s[4..][i - 4];
    }
  }

  lemma {:induction false} KeptOrBreak(s: string)
    ensures forall i | 0 <= i < |s| :: s[i] == '\r' || s[i] == '\n' || s[i] in DropLineBreaks(s)
  {
    if s != "" {
      KeptOrBreak(s[1..]);
      assert forall i | 1 <= i < |s| :: s[i] == s[1..][i - 1];
    }
  }

  /** The message is the text, one byte per character. */
  ghost predicate Spells(msg: seq<Byte>, text: string) {
    |msg| == |text| && forall i | 0 <= i < |text| :: msg[i] == text[i] as int
  }

  lemma {:induction false} AsciiBytes(s: string)
    requires forall i | 0 <= i < |s| :: s[i] as int < 128
    ensures Spells(Bytes(s), s)
  {
  }

  /**
   * What an accepted token carries: three dot-free segments, and a signature over exactly the first two and their dot.
   */
  datatype Anatomy = Anatomy(head: string, body: string, tail: string, kid: string, msg: seq<Byte>, sig: seq<Byte>)

  ghost predicate SignedOver(p: Platform, cfg: Config, token: string, v: Verified, a: Anatomy) {
    && token == a.head + "." + a.body + "." + a.tail && '.' !in a.head && '.' !in a.body && '.' !in a.tail
    && DecodeRaw(a.head).Some? && DecodeRaw(a.body).Some? && DecodeRaw(a.tail) == Some(a.sig)
    && p.parseHeader(DecodeRaw(a.head).value).Some? && p.parseHeader(DecodeRaw(a.head).value).value.kid == a.kid
    && p.parseClaims(DecodeRaw(a.body).value) == Some(v.claims)
    && a.kid in cfg.keys && v.subject == cfg.keys[a.kid].sub
    && Spells(a.msg, a.head + "." + a.body) && p.verify(cfg.keys[a.kid].pub, a.msg, a.sig)
  }

  /**
   * Whenever the checks accept, a registered key verified a signature over exactly the bytes of the token up to its
   * second dot.
   */
  lemma {:induction false} AcceptedIsSignedOver(p: Platform, cfg: Config, token: string, now: int, v: Verified)
    returns (a: Anatomy)
    requires Authenticate(p, cfg, token, now) == Ok(v)
    ensures SignedOver(p, cfg, token, v, a)
  {
    var parts := Split(token, '.');
    SplitParts(token, '.');
    JoinThree(parts, '.');
    var head, body, tail := parts[0], parts[1], parts[2];
    AuthenticatePartsIff(p, cfg, head, body, tail, now, v);
    var signed := head + "." + body;
    DecodableIsAscii(head);
    DecodableIsAscii(body);
    AsciiBytes(signed);
    a := Anatomy(head, body, tail, p.parseHeader(DecodeRaw(head).value).value.kid, Bytes(signed),
                 DecodeRaw(tail).value);
  }

  /** One signature verifies one message at most. */
  ghost predicate OneMessageEach(p: Platform) {
    forall pub, m1, m2, sig | p.verify(pub, m1, sig) && p.verify(pub, m2, sig) :: m1 == m2
  }

  lemma {:induction false} SpellsOnce(msg: seq<Byte>, a: string, b: string)
    requires Spells(msg, a) && Spells(msg, b)
    ensures a == b
  {
    assert forall i | 0 <= i < |a| :: a[i] as int == b[i] as int;
  }

  lemma {:induction false} FirstDotSplits(a: string, b: string, c: string, d: string)
    requires a + "." + b == c + "." + d && '.' !in a && '.' !in c
    ensures a == c && b == d
  {
    FirstDot(a, b);
    FirstDot(c, d);
    var s, t := a + "." + b, c + "." + d;
    assert |a| == |c|;
    assert a == s[..|a|] && c == t[..|c|] && b == s[|a| + 1..] && d == t[|c| + 1..];
  }

  lemma {:induction false} FirstDot(a: string, b: string)
    requires '.' !in a
    ensures var s := a + "." + b; s[|a|] == '.' && forall i | 0 <= i < |a| :: s[i] != '.'
  {
  }

  /**
   * No claims can be swapped under a signature: where one signature verifies one message only, two accepted tokens
   * whose keys and signatures are the same carry the same header and claims segments, and the same claims.
   */
  lemma {:induction false} SignatureBindsClaims(p: Platform, cfg: Config, t1: string, v1: Verified, a1: Anatomy,
                                                t2: string, v2: Verified, a2: Anatomy)
    requires OneMessageEach(p) && SignedOver(p, cfg, t1, v1, a1) && SignedOver(p, cfg, t2, v2, a2)
    requires cfg.keys[a1.kid].pub == cfg.keys[a2.kid].pub && a1.sig == a2.sig
    ensures a1.head == a2.head && a1.body == a2.body && v1 == v2
  {
    assert p.verify(cfg.keys[a1.kid].pub, a1.msg, a1.sig) && p.verify(cfg.keys[a1.kid].pub, a2.msg, a1.sig);
    SpellsOnce(a1.msg, a1.head + "." + a1.body, a2.head + "." + a2.body);
    FirstDotSplits(a1.head, a1.body, a2.head, a2.body);
  }

  /**
   * Each refusal on the claims of an authentic token, exactly, in nanoseconds: the issuer first, then the audience,
   * the times, the jti.
   */
  lemma {:induction false} ClaimsRefusedIff(cfg: Config, c: Claims, sub: string, now: int)
    ensures var r := JudgeClaims(cfg, c, sub, now);
            var issuerOk, audienceOk := cfg.issuer == "" || c.iss == cfg.issuer, c.aud == cfg.audience;
            var over := c.exp == 0 || now > c.exp * 1_000_000_000;
            var early := c.iat != 0 && now + 30_000_000_000 < c.iat * 1_000_000_000;
            && (r == Err(WrongIssuer) <==> !issuerOk)
            && (r == Err(WrongAudience) <==> issuerOk && !audienceOk)
            && (r == Err(Expired) <==> issuerOk && audienceOk && over)
            && (r == Err(NotYetValid) <==> issuerOk && audienceOk && !over && early)
            && (r == Err(BadClaims) <==> issuerOk && audienceOk && !over && !early && c.jti == "")
            && (r == Ok(Verified(c, sub)) <==> issuerOk && audienceOk && !over && !early && c.jti != "")
  {
  }

  /** Each refusal before the claims are looked at, exactly. */
  lemma {:induction false} SegmentsRefusedIff(p: Platform, cfg: Config, head: string, body: string, tail: string,
                                              now: int, hdr: Header)
    requires DecodeRaw(head).Some? && p.parseHeader(DecodeRaw(head).value) == Some(hdr)
    ensures var r := AuthenticateParts(p, cfg, head, body, tail, now);
            && (hdr.alg != "EdDSA" ==> r == Err(BadClaims))
            && (r == Err(UnknownKid) <==> hdr.alg == "EdDSA" && hdr.kid !in cfg.keys)
            && (r == Err(BadSignature) <==>
                && hdr.alg == "EdDSA" && hdr.kid in cfg.keys && DecodeRaw(tail).Some?
                && !p.verify(cfg.keys[hdr.kid].pub, Bytes(head + "." + body), DecodeRaw(tail).value))
  {
    if DecodeRaw(body).Some? && p.parseClaims(DecodeRaw(body).value).Some? && hdr.kid in cfg.keys {
      ClaimsRefusedIff(cfg, p.parseClaims(DecodeRaw(body).value).value, cfg.keys[hdr.kid].sub, now);
    }
  }

  /** The checks accept exactly the authentic, current tokens, with the registered subject. */
  lemma {:induction false} AuthenticateIff(p: Platform, cfg: Config, token: string, now: int, v: Verified)
    ensures Authenticate(p, cfg, token, now) == Ok(v) <==> Authentic(p, cfg, token, v) && Current(cfg, v.claims, now)
  {
    if Authenticate(p, cfg, token, now) == Ok(v) {
      var parts := Split(token, '.');
      SplitParts(token, '.');
      JoinThree(parts, '.');
      AuthenticatePartsIff(p, cfg, parts[0], parts[1], parts[2], now, v);
      assert token == parts[0] + "." + parts[1] + "." + parts[2];
    }
    if Authentic(p, cfg, token, v) && Current(cfg, v.claims, now) {
      var head: string, body: string, tail: string :|
        && '.' !in head && '.' !in body && '.' !in tail && token == head + "." + body + "." + tail
        && SignedParts(p, cfg, head, body, tail, v);
      SplitThree(head, body, tail);
      AuthenticatePartsIff(p, cfg, head, body, tail, now, v);
    }
  }

  /**
   * An authentic token that is otherwise current is still accepted at the very instant of its expiry, where the
   * documentation says it is refused.
   */
  lemma {:induction false} AcceptedAtExpiry(p: Platform, cfg: Config, token: string, now: int, v: Verified)
    requires Authentic(p, cfg, token, v) && now == Unix(v.claims.exp)
    requires (cfg.issuer == "" || v.claims.iss == cfg.issuer) && v.claims.aud == cfg.audience && v.claims.jti != ""
    requires v.claims.exp != 0 && (v.claims.iat == 0 || Unix(v.claims.iat) <= now + CLOCK_SKEW)
    ensures Authenticate(p, cfg, token, now) == Ok(v) && ExpiredAsDocumented(now, v.claims.exp)
  {
    AuthenticateIff(p, cfg, token, now, v);
  }

  /** Splitting peels off a leading part without the separator. */
  lemma {:induction false} SplitPeel(part: string, rest: string, sep: char)
    requires sep !in part
    ensures Split(part + [sep] + rest, sep) == [part] + Split(rest, sep)
    ensures Split(part, sep) == [part]
  {
    var s := part + [sep] + rest;
    if part == "" {
      assert s[1..] == rest;
    } else {
      SplitPeel(part[1..], rest, sep);
      assert s[1..] == part[1..] + [sep] + rest;
      assert part == [part[0]] + part[1..];
    }
  }

  lemma {:induction false} SplitThree(a: string, b: string, c: string)
    requires '.' !in a && '.' !in b && '.' !in c
    ensures Split(a + "." + b + "." + c, '.') == [a, b, c]
  {
    SplitPeel(c, "", '.');
    SplitPeel(b, c, '.');
    SplitPeel(a, b + "." + c, '.');
    assert a + "." + b + "." + c == a + "." + (b + "." + c);
  }

  function Join(parts: seq<string>, sep: char): (s: string)
    requires |parts| >= 1
  {
    if |parts| == 1 then parts[0] else parts[0] + [sep] + Join(parts[1..], sep)
  }

  /** Joining the parts gives the text back, and no part holds the separator. */
  lemma {:induction false} SplitParts(s: string, sep: char)
    ensures Join(Split(s, sep), sep) == s
    ensures forall i | 0 <= i < |Split(s, sep)| :: sep !in Split(s, sep)[i]
  {
    if s != "" {
      SplitParts(s[1..], sep);
      assert s == [s[0]] + s[1..];
    }
  }

  lemma {:induction false} JoinThree(parts: seq<string>, sep: char)
    requires |parts| == 3
    ensures Join(parts, sep) == parts[0] + [sep] + parts[1] + [sep] + parts[2]
  {
    assert Join(parts[1..], sep) == parts[1] + [sep] + parts[2];
  }

  /** Verify as one function of the store: the result, and the store it leaves. */
  function Verdict(p: Platform, cfg: Config, items: map<string, int>, token: string, now: int)
    : (r: Result<Verified, Reason>)
  {
    match Authenticate(p, cfg, token, now)
    case Err(e) => Err(e)
    case Ok(v) => if v.claims.jti in items then Err(Replay) else Ok(v)
  }

  function StoreAfter(p: Platform, cfg: Config, items: map<string, int>, ttl: int, token: string, now: int)
    : (items': map<string, int>)
  {
    match Authenticate(p, cfg, token, now)
    case Err(_) => items
    case Ok(v) => Stored(items, ttl, v.claims.jti, Unix(v.claims.exp), now)
  }

  class Verifier {
    const platform: Platform
    const cfg: Config
    const nonces: NonceCache

    constructor (platform: Platform, cfg: Config, nonces: NonceCache)
      ensures this.platform == platform && this.cfg == cfg && this.nonces == nonces
    {
      this.platform := platform;
      this.cfg := cfg;
      this.nonces := nonces;
    }

    method Verify(token: string, now: int) returns (r: Result<Verified, Reason>)
      modifies nonces
      ensures r == Verdict(platform, cfg, old(nonces.items), token, now)
      ensures nonces.items == StoreAfter(platform, cfg, old(nonces.items), nonces.ttl, token, now)
    {
      var parts := Split(token, '.');
      if |parts| != 3 {
        return Err(BadClaims);
      }
      var hdrRaw := DecodeRaw(parts[0]);
      if hdrRaw.None? {
        return Err(BadClaims);
      }
      var hdr := platform.parseHeader(hdrRaw.value);
      if hdr.None? {
        return Err(BadClaims);
      }
      if hdr.value.alg != "EdDSA" {
        return Err(BadClaims);
      }
      if hdr.value.kid !in cfg.keys {
        return Err(UnknownKid);
      }
      var key := cfg.keys[hdr.value.kid];
      var sig := DecodeRaw(parts[2]);
      if sig.None? {
        return Err(BadClaims);
      }
      if !platform.verify(key.pub, Bytes(parts[0] + "." + parts[1]), sig.value) {
        return Err(BadSignature);
      }
      var payload := DecodeRaw(parts[1]);
      if payload.None? {
        return Err(BadClaims);
      }
      var parsed := platform.parseClaims(payload.value);
      if parsed.None? {
        return Err(BadClaims);
      }
      var c := parsed.value;
      if cfg.issuer != "" && c.iss != cfg.issuer {
        return Err(WrongIssuer);
      }
      if c.aud != cfg.audience {
        return Err(WrongAudience);
      }
      if c.exp == 0 || now > Unix(c.exp) {
        return Err(Expired);
      }
      if c.iat != 0 && now + CLOCK_SKEW < Unix(c.iat) {
        return Err(NotYetValid);
      }
      if c.jti == "" {
        return Err(BadClaims);
      }
      var isNew := nonces.CheckAndStore(c.jti, Unix(c.exp), now);
      if !isNew {
        return Err(Replay);
      }
      return Ok(Verified(c, key.sub));
    }
  }

  /** An empty requirement means any authenticated caller. */
  ghost predicate InScope(c: Claims, required: string) {
    required == "" || required in c.scope
  }

  method HasScope(c: Claims, required: string) returns (ok: bool)
    ensures ok <==> InScope(c, required)
  {
    if required == "" {
      return true;
    }
    for i := 0 to |c.scope|
      invariant required !in c.scope[..i]
    {
      if c.scope[i] == required {
        return true;
      }
    }
    return false;
  }
}
