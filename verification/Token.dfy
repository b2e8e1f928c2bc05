/** The Python client: minting a token, tampering with one, and what the verifier makes of them. */
module Tokens {
  import opened Base64Url
  import opened Clock
  import opened Common
  import opened Verifiers

  const ISSUER := "secure-svc-gw"
  const AUDIENCE := "secure-svc-gw"

  datatype ClientKey = ClientKey(kid: string, sub: string, scopes: seq<string>, seed: seq<Byte>)

  /** The keyword arguments of mint_jwt; `Defaults` are its defaults. */
  datatype Options = Options(
    scopes: Option<seq<string>>,
    issuer: string,
    audience: string,
    ttlSeconds: int,
    expired: bool,
    wrongAud: bool,
    rogueKid: Option<string>)

  const Defaults := Options(None, ISSUER, AUDIENCE, 60, false, false, None)

  function KidOf(key: ClientKey, o: Options): (kid: string) {
    if o.rogueKid.Some? && o.rogueKid.value != "" then o.rogueKid.value else key.kid
  }

  /** The claims minted at `now` whole seconds with fresh random `jti`. */
  function ClaimsOf(key: ClientKey, o: Options, now: int, jti: string): (c: Claims) {
    Claims(o.issuer, key.sub, if o.wrongAud then "not-the-gateway" else o.audience,
           now, if o.expired then now - 60 else now + o.ttlSeconds, jti,
           if o.scopes.Some? then o.scopes.value else key.scopes)
  }

  function SigningInput(p: Platform, key: ClientKey, o: Options, now: int, jti: string): (s: string) {
    Unpadded(p.headerJson(Header("EdDSA", "JWT", KidOf(key, o)))) + "."
        + Unpadded(p.claimsJson(ClaimsOf(key, o, now, jti)))
  }

  function Mint(p: Platform, key: ClientKey, o: Options, now: int, jti: string): (token: string) {
    var input := SigningInput(p, key, o, now, jti);
    input + "." + Unpadded(p.sign(key.seed, Bytes(input)))
  }

  lemma {:induction false} UnpaddedHasNoDot(b: seq<Byte>)
    ensures '.' !in Unpadded(b)
  {
    StripPadRoundTrip(b, "");
  }

  /**
   * A minted token splits back into exactly its signed segments and signature, and each decodes to what was encoded.
   */
  lemma {:induction false} MintedSplits(p: Platform, key: ClientKey, o: Options, now: int, jti: string)
    requires Lawful(p)
    ensures var parts := Split(Mint(p, key, o, now, jti), '.');
            && |parts| == 3 && parts[0] + "." + parts[1] == SigningInput(p, key, o, now, jti)
            && DecodeRaw(parts[0]) == Some(p.headerJson(Header("EdDSA", "JWT", KidOf(key, o))))
            && DecodeRaw(parts[1]) == Some(p.claimsJson(ClaimsOf(key, o, now, jti)))
            && DecodeRaw(parts[2]) == Some(p.sign(key.seed, Bytes(parts[0] + "." + parts[1])))
  {
    var h := p.headerJson(Header("EdDSA", "JWT", KidOf(key, o)));
    var c := p.claimsJson(ClaimsOf(key, o, now, jti));
    var s := p.sign(key.seed, Bytes(SigningInput(p, key, o, now, jti)));
    UnpaddedHasNoDot(h);
    UnpaddedHasNoDot(c);
    UnpaddedHasNoDot(s);
    DecodeRoundTrip(h);
    DecodeRoundTrip(c);
    DecodeRoundTrip(s);
    SplitThree(Unpadded(h), Unpadded(c), Unpadded(s));
  }

  lemma {:induction false} MintedReadsBack(p: Platform, key: ClientKey, o: Options, now: int, jti: string, hdr: Header,
                                           c: Claims)
    requires Lawful(p)
    requires var parts := Split(Mint(p, key, o, now, jti), '.');
             && |parts| == 3 && DecodeRaw(parts[0]).Some? && p.parseHeader(DecodeRaw(parts[0]).value) == Some(hdr)
             && DecodeRaw(parts[1]).Some? && p.parseClaims(DecodeRaw(parts[1]).value) == Some(c)
    ensures hdr == Header("EdDSA", "JWT", KidOf(key, o)) && c == ClaimsOf(key, o, now, jti)
  {
    MintedSplits(p, key, o, now, jti);
    var parts := Split(Mint(p, key, o, now, jti), '.');
    var h, claims := Header("EdDSA", "JWT", KidOf(key, o)), ClaimsOf(key, o, now, jti);
    assert p.parseHeader(p.headerJson(h)) == Some(h) && p.parseClaims(p.claimsJson(claims)) == Some(claims);
    assert DecodeRaw(parts[0]) == Some(p.headerJson(h)) && DecodeRaw(parts[1]) == Some(p.claimsJson(claims));
  }

  /** What a minted token says, field by field, for any flags. */
  lemma {:induction false} MintedFields(p: Platform, key: ClientKey, o: Options, now: int, jti: string, hdr: Header,
                                        c: Claims)
    requires Lawful(p)
    requires var parts := Split(Mint(p, key, o, now, jti), '.');
             && |parts| == 3 && DecodeRaw(parts[0]).Some? && p.parseHeader(DecodeRaw(parts[0]).value) == Some(hdr)
             && DecodeRaw(parts[1]).Some? && p.parseClaims(DecodeRaw(parts[1]).value) == Some(c)
    ensures hdr.alg == "EdDSA" && hdr.typ == "JWT"
    ensures hdr.kid == if o.rogueKid.None? || o.rogueKid.value == "" then key.kid else o.rogueKid.value
    ensures c.iss == o.issuer && c.sub == key.sub && c.jti == jti && c.iat == now
    ensures c.aud == if o.wrongAud then "not-the-gateway" else o.audience
    ensures c.exp == if o.expired then now - 60 else now + o.ttlSeconds
    ensures c.scope == if o.scopes.None? then key.scopes else o.scopes.value
  {
    MintedReadsBack(p, key, o, now, jti, hdr, c);
  }

  /** The default flags: this gateway as issuer and audience, a minute to live, the key's own kid and scopes. */
  lemma {:induction false} DefaultFields(key: ClientKey, now: int, jti: string)
    ensures var c := ClaimsOf(key, Defaults, now, jti);
            && c.iss == "secure-svc-gw" && c.aud == "secure-svc-gw" && c.exp == now + 60 && c.scope == key.scopes
            && KidOf(key, Defaults) == key.kid
  {
  }

  /** The verdict on three segments that carry a header, claims, and a signature made with a seed. */
  lemma {:induction false} SignedSegmentsVerdict(p: Platform, cfg: Config, seed: seq<Byte>, kid: string, c: Claims,
                                                 head: string, body: string, tail: string, now: int)
    requires Lawful(p)
    requires DecodeRaw(head) == Some(p.headerJson(Header("EdDSA", "JWT", kid)))
    requires DecodeRaw(body) == Some(p.claimsJson(c))
    requires DecodeRaw(tail) == Some(p.sign(seed, Bytes(head + "." + body)))
    ensures AuthenticateParts(p, cfg, head, body, tail, now)
            == if kid !in cfg.keys then Err(UnknownKid)
               else if !p.verify(cfg.keys[kid].pub, Bytes(head + "." + body), p.sign(seed, Bytes(head + "." + body)))
               then Err(BadSignature)
               else JudgeClaims(cfg, c, cfg.keys[kid].sub, now)
  {
    var hdr := Header("EdDSA", "JWT", kid);
    assert p.parseHeader(p.headerJson(hdr)) == Some(hdr);
    assert p.parseClaims(p.claimsJson(c)) == Some(c);
  }

  /** The exact verdict on any minted token, whatever the flags and whatever is registered under the kid it names. */
  lemma {:induction false} MintedVerdict(p: Platform, cfg: Config, key: ClientKey, o: Options, minted: int, jti: string,
                                         now: int)
    requires Lawful(p)
    ensures var kid, input := KidOf(key, o), Bytes(SigningInput(p, key, o, minted, jti));
            && Authenticate(p, cfg, Mint(p, key, o, minted, jti), now)
               == (if kid !in cfg.keys then Err(UnknownKid)
                   else if !p.verify(cfg.keys[kid].pub, input, p.sign(key.seed, input)) then Err(BadSignature)
                   else JudgeClaims(cfg, ClaimsOf(key, o, minted, jti), cfg.keys[kid].sub, now))
            && p.verify(p.publicKey(key.seed), input, p.sign(key.seed, input))
  {
    MintedSplits(p, key, o, minted, jti);
    var parts := Split(Mint(p, key, o, minted, jti), '.');
    SignedSegmentsVerdict(p, cfg, key.seed, KidOf(key, o), ClaimsOf(key, o, minted, jti), parts[0], parts[1], parts[2],
                          now);
  }

  /** From the skew before its minting up to and including its expiry; a token stamped 0 has no lower end. */
  ghost predicate Usable(minted: int, t: int) {
    (minted == 0 || Unix(minted) - CLOCK_SKEW <= t) && t <= Unix(minted + 60)
  }

  /**
   * A token minted with default flags by a registered key: a first presentation is let in, with the
   * minted claims and the registered subject, exactly in its window; once let in, every further
   * presentation in the window is a replay for as long as the store keeps the entry.
   */
  lemma {:induction false} MintedAcceptedOnce(p: Platform, cfg: Config, items: map<string, int>, ttl: int,
                                              key: ClientKey, minted: nat, jti: string, now: int, later: int)
    requires Lawful(p) && key.kid in cfg.keys && cfg.keys[key.kid].pub == p.publicKey(key.seed)
    requires (cfg.issuer == "" || cfg.issuer == ISSUER) && cfg.audience == AUDIENCE
    requires jti != "" && jti !in items
    ensures var token := Mint(p, key, Defaults, minted, jti);
            var v := Verified(ClaimsOf(key, Defaults, minted, jti), cfg.keys[key.kid].sub);
            && (Verdict(p, cfg, items, token, now) == Ok(v) <==> Usable(minted, now))
            && (Usable(minted, now) && Usable(minted, later) ==>
                  Verdict(p, cfg, StoreAfter(p, cfg, items, ttl, token, now), token, later) == Err(Replay))
  {
    MintedVerdict(p, cfg, key, Defaults, minted, jti, now);
    MintedVerdict(p, cfg, key, Defaults, minted, jti, later);
  }

  /** raw[0] ^= 0x01 */
  function FlipLowBit(x: Byte): (y: Byte)
    ensures y != x && y / 2 == x / 2
  {
    if x % 2 == 0 then x + 1 else x - 1
  }

  function Flipped(sig: seq<Byte>): (r: seq<Byte>)
    requires sig != []
    ensures r != sig && r != [] && r[0 := sig[0]] == sig
  {
    sig[0 := FlipLowBit(sig[0])]
  }

  /** Tampering as a function: fails where the source raises, else replaces the signature's first byte. */
  function Tampered(token: string): (r: Option<string>) {
    var parts := Split(token, '.');
    if |parts| != 3 then None else
    var raw := DecodePadded(Pad(parts[2]));
    if raw.None? || raw.value == [] then None
    else Some(parts[0] + "." + parts[1] + "." + Unpadded(Flipped(raw.value)))
  }

  method Tamper(token: string) returns (r: Option<string>)
    ensures r == Tampered(token)
  {
    var parts := Split(token, '.');
    if |parts| != 3 {
      return None;
    }
    var decoded := DecodePadded(Pad(parts[2]));
    if decoded.None? || |decoded.value| == 0 {
      return None;
    }
    var bytes := decoded.value;
    var raw := new Byte[|bytes|](i requires 0 <= i < |bytes| => bytes[i]);
    assert raw[..] == bytes;
    raw[0] := FlipLowBit(raw[0]);
    assert raw[..] == bytes[0 := FlipLowBit(bytes[0])];
    return Some(parts[0] + "." + parts[1] + "." + Unpadded(raw[..]));
  }

  function Assemble(head: string, body: string, sig: seq<Byte>): (token: string) {
    head + "." + body + "." + Unpadded(sig)
  }

  lemma {:induction false} FlippedTwice(sig: seq<Byte>)
    requires sig != []
    ensures Flipped(Flipped(sig)) == sig
  {
    assert FlipLowBit(FlipLowBit(sig[0])) == sig[0];
  }

  lemma {:induction false} TamperOnce(head: string, body: string, sig: seq<Byte>)
    requires '.' !in head && '.' !in body && sig != []
    ensures Tampered(Assemble(head, body, sig)) == Some(Assemble(head, body, Flipped(sig)))
  {
    UnpaddedHasNoDot(sig);
    SplitThree(head, body, Unpadded(sig));
    DecodeRoundTrip(sig);
  }

  /**
   * On any text head.body._b64(sig), tampering keeps the signed segments, changes one bit of the signature, and undoes
   * itself.
   */
  lemma {:induction false} TamperInvolution(head: string, body: string, sig: seq<Byte>)
    requires '.' !in head && '.' !in body && sig != []
    ensures var bad := Tampered(Assemble(head, body, sig));
            && bad == Some(Assemble(head, body, Flipped(sig)))
            && bad.value != Assemble(head, body, sig)
            && Tampered(bad.value) == Some(Assemble(head, body, sig))
  {
    TamperOnce(head, body, sig);
    TamperOnce(head, body, Flipped(sig));
    FlippedTwice(sig);
    UnpaddedInjective(head + "." + body + ".", sig, Flipped(sig));
  }

  lemma {:induction false} UnpaddedInjective(prefix: string, a: seq<Byte>, b: seq<Byte>)
    ensures prefix + Unpadded(a) == prefix + Unpadded(b) <==> a == b
  {
    DecodeRoundTrip(a);
    DecodeRoundTrip(b);
    assert (prefix + Unpadded(a))[|prefix|..] == Unpadded(a);
    assert (prefix + Unpadded(b))[|prefix|..] == Unpadded(b);
  }

  /** So on minted tokens tamper leaves the signed segments alone and is its own inverse. */
  lemma {:induction false} TamperMinted(p: Platform, key: ClientKey, o: Options, now: int, jti: string)
    requires Lawful(p)
    ensures var token := Mint(p, key, o, now, jti); var bad := Tampered(token);
            && bad.Some? && bad.value != token && Tampered(bad.value) == Some(token)
            && Split(bad.value, '.')[..2] == Split(token, '.')[..2]
  {
    var h := Unpadded(p.headerJson(Header("EdDSA", "JWT", KidOf(key, o))));
    var c := Unpadded(p.claimsJson(ClaimsOf(key, o, now, jti)));
    var input := SigningInput(p, key, o, now, jti);
    var s := p.sign(key.seed, Bytes(input));
    UnpaddedHasNoDot(p.headerJson(Header("EdDSA", "JWT", KidOf(key, o))));
    UnpaddedHasNoDot(p.claimsJson(ClaimsOf(key, o, now, jti)));
    assert input == h + "." + c;
    TamperInvolution(h, c, s);
    UnpaddedHasNoDot(s);
    UnpaddedHasNoDot(Flipped(s));
    SplitThree(h, c, Unpadded(s));
    SplitThree(h, c, Unpadded(Flipped(s)));
  }
}
