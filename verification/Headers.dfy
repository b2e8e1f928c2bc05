/** HTTP header maps as net/http keeps them, and the copy the proxy makes. Names are ASCII. */
module Headers {

  type Fields = map<string, seq<string>>

  /** The characters of a header field name (section 3.2.6 of RFC 7230). */
  predicate IsTokenChar(c: char) {
    'a' <= c <= 'z' || 'A' <= c <= 'Z' || '0' <= c <= '9'
        || c in {'!', '#', '$', '%', '&', '\'', '*', '+', '-', '.', '^', '_', '`', '|', '~'}
  }

  /** The same by character codes. */
  lemma {:induction false} TokenCharCodes(c: char)
    ensures var k := c as int;
            IsTokenChar(c) <==>
            || k == 33 || 35 <= k <= 39 || k == 42 || k == 43 || k == 45 || k == 46
            || 48 <= k <= 57 || 65 <= k <= 90 || 94 <= k <= 122 || k == 124 || k == 126
  {
  }

  function ToLower(c: char): (r: char) {
    if 'A' <= c <= 'Z' then c - 'A' + 'a' else c
  }

  function ToUpper(c: char): (r: char) {
    if 'a' <= c <= 'z' then c - 'a' + 'A' else c
  }

  function Lower(s: string): (r: string) {
    seq(|s|, i requires 0 <= i < |s| => ToLower(s[i]))
  }

  /** A capital at the start and after each '-', small elsewhere. */
  function CanonChar(name: string, i: int): (c: char)
    requires 0 <= i < |name|
  {
    if i == 0 || name[i - 1] == '-' then ToUpper(name[i]) else ToLower(name[i])
  }

  predicate IsToken(name: string) {
    forall i | 0 <= i < |name| :: IsTokenChar(name[i])
  }

  /** textproto.CanonicalMIMEHeaderKey: names with other characters stay as they are. */
  function Canon(name: string): (r: string) {
    if IsToken(name) then seq(|name|, i requires 0 <= i < |name| => CanonChar(name, i)) else name
  }

  lemma {:induction false} CharCase(c: char, d: char)
    requires d == ToUpper(c) || d == ToLower(c)
    ensures (IsTokenChar(d) <==> IsTokenChar(c)) && (d == '-' <==> c == '-')
    ensures ToLower(d) == ToLower(c) && ToUpper(d) == ToUpper(c)
  {
    if c != d {
      assert 'a' <= c <= 'z' || 'A' <= c <= 'Z';
      assert 'a' <= d <= 'z' || 'A' <= d <= 'Z';
    }
  }

  /** Canonical spelling is stable, and differs from the original only in case. */
  lemma {:induction false} CanonMeaning(name: string)
    ensures Canon(Canon(name)) == Canon(name)
    ensures Lower(Canon(name)) == Lower(name)
  {
    if IsToken(name) {
      var c := Canon(name);
      forall i | 0 <= i < |name|
        ensures IsTokenChar(c[i]) && (c[i] == '-' <==> name[i] == '-')
        ensures ToLower(c[i]) == ToLower(name[i]) && ToUpper(c[i]) == ToUpper(name[i])
      {
        CharCase(name[i], c[i]);
      }
    }
  }

  /** Letters move 32 places between the cases, everything else stays. */
  lemma {:induction false} CaseMeaning(s: string, i: nat)
    requires i < |s|
    ensures |Lower(s)| == |s| && Lower(s)[i] as int == s[i] as int + (if 65 <= s[i] as int <= 90 then 32 else 0)
    ensures ToUpper(s[i]) as int == s[i] as int - (if 97 <= s[i] as int <= 122 then 32 else 0)
  {
  }

  /** The canonical spelling of a name: a capital at the start and after each '-', small letters elsewhere. */
  lemma {:induction false} CanonForm(name: string, i: nat)
    requires IsToken(name) && i < |name|
    ensures |Canon(name)| == |name|
    ensures i == 0 || name[i - 1] == '-' ==> !('a' <= Canon(name)[i] <= 'z')
    ensures i > 0 && name[i - 1] != '-' ==> !('A' <= Canon(name)[i] <= 'Z')
  {
  }

  /** Two names have one canonical spelling exactly when they differ in letter case only. */
  lemma {:induction false} SameNameIff(a: string, b: string)
    requires IsToken(a) && IsToken(b)
    ensures Canon(a) == Canon(b) <==> Lower(a) == Lower(b)
  {
    CanonMeaning(a);
    CanonMeaning(b);
    if Lower(a) == Lower(b) {
      assert |a| == |b|;
      forall i | 0 <= i < |a|
        ensures ToLower(a[i]) == ToLower(b[i]) && ToUpper(a[i]) == ToUpper(b[i]) && (a[i] == '-' <==> b[i] == '-')
      {
        assert Lower(a)[i] == Lower(b)[i];
        CharCase(a[i], ToLower(a[i]));
        CharCase(b[i], ToLower(b[i]));
      }
      assert forall i | 0 <= i < |a| :: CanonChar(a, i) == CanonChar(b, i);
    }
  }

  const HOP_BY_HOP := {"connection", "keep-alive", "proxy-authenticate", "proxy-authorization",
                       "te", "trailer", "transfer-encoding", "upgrade"}

  predicate IsHopByHop(name: string) {
    Lower(name) in HOP_BY_HOP
  }

  function Values(h: Fields, name: string): (vs: seq<string>) {
    if name in h then h[name] else []
  }

  /** What Add of each value in turn does to the entry of one name. */
  function AddAll(h: Fields, name: string, vs: seq<string>): (h': Fields) {
    if vs == [] then h else h[Canon(name) := Values(h, Canon(name)) + vs]
  }

  lemma {:induction false} AddAllMore(h: Fields, name: string, vs: seq<string>, v: string)
    ensures AddAll(AddAll(h, name, vs), name, [v]) == AddAll(h, name, vs + [v])
  {
    var k := Canon(name);
    if vs == [] {
      assert vs + [v] == [v];
    } else {
      assert Values(h, k) + vs + [v] == Values(h, k) + (vs + [v]);
    }
  }

  /** Copying the names of `order` one after another. */
  function CopyInOrder(src: Fields, dst: Fields, order: seq<string>): (h: Fields)
    requires forall k | k in order :: k in src
  {
    if order == [] then dst else
    var k := order[|order| - 1];
    var h := CopyInOrder(src, dst, order[..|order| - 1]);
    if IsHopByHop(k) then h else AddAll(h, k, src[k])
  }

  /** An iteration order of a map: every key once. */
  predicate Enumerates(order: seq<string>, keys: set<string>) {
    && (forall k | k in order :: k in keys)
    && (forall k | k in keys :: k in order)
    && (forall i, j | 0 <= i < j < |order| :: order[i] != order[j])
  }

  /** No two keys of a header map name the same field; every map parsed by net/http is like this. */
  ghost predicate DistinctNames(h: Fields) {
    forall a, b | a in h && b in h && Canon(a) == Canon(b) :: a == b
  }

  /** Key k of the source puts values under `name`. */
  predicate Feeds(src: Fields, k: string, name: string) {
    k in src && !IsHopByHop(k) && Canon(k) == name && src[k] != []
  }

  /** What a name holds after copying: its old values, then those of the one source key that feeds it. */
  lemma {:induction false} CopiedValues(src: Fields, dst: Fields, order: seq<string>, name: string)
    requires DistinctNames(src) && forall k | k in order :: k in src
    requires forall i, j | 0 <= i < j < |order| :: order[i] != order[j]
    ensures var h := CopyInOrder(src, dst, order);
            && (name in h <==> name in dst || exists k :: k in order && Feeds(src, k, name))
            && (forall k | k in order && Feeds(src, k, name) :: Values(h, name) == Values(dst, name) + src[k])
            && ((forall k | k in order :: !Feeds(src, k, name)) ==> Values(h, name) == Values(dst, name))
  {
    if order != [] {
      var n := |order| - 1;
      var before, last := order[..n], order[n];
      CopiedValues(src, dst, before, name);
      assert forall k :: k in order <==> k in before || k == last;
      assert last !in before;
    }
  }

  /** Copying adds to what is there: the values of a name so far come first. */
  lemma {:induction false} CopyKeepsValues(src: Fields, dst: Fields, order: seq<string>, name: string)
    requires forall k | k in order :: k in src
    ensures Values(dst, name) <= Values(CopyInOrder(src, dst, order), name)
  {
    if order != [] {
      CopyKeepsValues(src, dst, order[..|order| - 1], name);
    }
  }

  /** Whatever order the source map is iterated in, the copy is the same. */
  lemma {:induction false} CopyOrderIrrelevant(src: Fields, dst: Fields, order: seq<string>, other: seq<string>)
    requires DistinctNames(src) && Enumerates(order, src.Keys) && Enumerates(other, src.Keys)
    ensures CopyInOrder(src, dst, order) == CopyInOrder(src, dst, other)
  {
    var h, h' := CopyInOrder(src, dst, order), CopyInOrder(src, dst, other);
    forall name
      ensures name in h <==> name in h'
      ensures name in h ==> h[name] == h'[name]
    {
      CopiedValues(src, dst, order, name);
      CopiedValues(src, dst, other, name);
    }
  }

  class HeaderMap {
    var fields: Fields

    constructor ()
      ensures fields == map[]
    {
      fields := map[];
    }

    method Add(name: string, value: string)
      modifies this
      ensures fields == AddAll(old(fields), name, [value])
    {
      var k := Canon(name);
      fields := fields[k := Values(fields, k) + [value]];
    }

    method Set(name: string, value: string)
      modifies this
      ensures fields == old(fields)[Canon(name) := [value]]
    {
      fields := fields[Canon(name) := [value]];
    }

    method Del(name: string)
      modifies this
      ensures fields == old(fields) - {Canon(name)}
    {
      fields := fields - {Canon(name)};
    }
  }

  /** copyHeaders: the loop picks keys in any order; the ghost result says which it was. */
  method CopyHeaders(src: Fields, dst: HeaderMap) returns (ghost order: seq<string>)
    modifies dst
    ensures Enumerates(order, src.Keys)
    ensures dst.fields == CopyInOrder(src, old(dst.fields), order)
  {
    order := [];
    var todo := src.Keys;
    while todo != {}
      invariant todo <= src.Keys
      invariant forall k :: k in order <==> k in src.Keys && k !in todo
      invariant forall i, j | 0 <= i < j < |order| :: order[i] != order[j]
      invariant dst.fields == CopyInOrder(src, old(dst.fields), order)
      decreases todo
    {
      var k :| k in todo;
      todo := todo - {k};
      ghost var before := dst.fields;
      ghost var longer := order + [k];
      assert longer[..|order|] == order;
      if !IsHopByHop(k) {
        var vs := src[k];
        for i := 0 to |vs|
          invariant dst.fields == AddAll(before, k, vs[..i])
        {
          dst.Add(k, vs[i]);
          AddAllMore(before, k, vs[..i], vs[i]);
          assert vs[..i + 1] == vs[..i] + [vs[i]];
        }
        assert vs[..|vs|] == vs;
      }
      order := longer;
    }
  }

  const AUTHORIZATION := "Authorization"
  const FORWARDED_SUB := "X-Forwarded-Sub"
  const REQUEST_ID := "X-Request-Id"

  /** A letter or dash that already has the case its position asks for. */
  predicate InCase(name: string, i: int)
    requires 0 <= i < |name|
  {
    || name[i] == '-'
    || (if i == 0 || name[i - 1] == '-' then 'A' <= name[i] <= 'Z' else 'a' <= name[i] <= 'z')
  }

  lemma {:induction false} InCaseChar(name: string, i: int)
    requires 0 <= i < |name| && InCase(name, i)
    ensures IsTokenChar(name[i]) && CanonChar(name, i) == name[i]
  {
  }

  lemma {:induction false} InCaseIsCanonical(name: string)
    requires forall i | 0 <= i < |name| :: InCase(name, i)
    ensures Canon(name) == name
  {
    forall i | 0 <= i < |name|
      ensures IsTokenChar(name[i]) && CanonChar(name, i) == name[i]
    {
      InCaseChar(name, i);
    }
  }

  lemma {:induction false} NotHopByHop(name: string)
    requires |name| > 0 && name[0] == 'X'
    ensures !IsHopByHop(name)
  {
    assert Lower(name)[0] == 'x';
  }

  lemma {:induction false} OwnNamesAreCanonical()
    ensures Canon(AUTHORIZATION) == AUTHORIZATION && Canon(FORWARDED_SUB) == FORWARDED_SUB
            && Canon(REQUEST_ID) == REQUEST_ID
    ensures !IsHopByHop(FORWARDED_SUB) && !IsHopByHop(REQUEST_ID)
  {
    InCaseIsCanonical(AUTHORIZATION);
    InCaseIsCanonical(FORWARDED_SUB);
    InCaseIsCanonical(REQUEST_ID);
    NotHopByHop(FORWARDED_SUB);
    NotHopByHop(REQUEST_ID);
  }

  /** The headers a backend receives, for one iteration order of the client's. */
  function Forwarded(src: Fields, order: seq<string>, sub: string, rid: string): (h: Fields)
    requires forall k | k in order :: k in src
  {
    (CopyInOrder(src, map[], order) - {AUTHORIZATION})[FORWARDED_SUB := [sub]][REQUEST_ID := [rid]]
  }

  /** The names the gateway itself decides. */
  predicate Owned(name: string) {
    name == AUTHORIZATION || name == FORWARDED_SUB || name == REQUEST_ID
  }

  /**
   * What a backend may rely on: the subject and request id are the gateway's alone, no spelling of
   * Authorization or of a hop-by-hop name is present, and every other field has the client's
   * values in the client's order.
   */
  ghost predicate ProperlyForwarded(src: Fields, sub: string, rid: string, h: Fields) {
    && Values(h, FORWARDED_SUB) == [sub] && Values(h, REQUEST_ID) == [rid]
    && (forall n | n in h :: Canon(n) == n && n != AUTHORIZATION && !IsHopByHop(n))
    && (forall n | n in h && !Owned(n) :: exists k :: Feeds(src, k, n))
    && (DistinctNames(src) ==> forall k, n | Feeds(src, k, n) && !Owned(n) :: Values(h, n) == src[k])
  }

  lemma {:induction false} LettersAreToken(name: string, word: string)
    requires Lower(name) == word && forall i | 0 <= i < |word| :: 'a' <= word[i] <= 'z' || word[i] == '-'
    ensures IsToken(name)
  {
    assert |name| == |word|;
    forall i | 0 <= i < |name|
      ensures IsTokenChar(name[i])
    {
      assert ToLower(name[i]) == word[i];
    }
  }

  /** A field whose name is a canonical one in other letters is that one. */
  lemma {:induction false} OnlySpelling(n: string, canonical: string, word: string)
    requires Canon(n) == n && Canon(canonical) == canonical && Lower(n) == word && Lower(canonical) == word
    requires forall i | 0 <= i < |word| :: 'a' <= word[i] <= 'z' || word[i] == '-'
    ensures n == canonical
  {
    LettersAreToken(n, word);
    LettersAreToken(canonical, word);
    SameNameIff(n, canonical);
  }

  lemma {:induction false} LowerOwnNames()
    ensures Lower(AUTHORIZATION) == "authorization" && Lower(FORWARDED_SUB) == "x-forwarded-sub"
  {
  }

  lemma {:induction false} NotAuthorization(n: string)
    requires Canon(n) == n && n != AUTHORIZATION
    ensures Lower(n) != "authorization"
  {
    if Lower(n) == "authorization" {
      OwnNamesAreCanonical();
      LowerOwnNames();
      OnlySpelling(n, AUTHORIZATION, "authorization");
    }
  }

  lemma {:induction false} OneSubject(n: string)
    requires Canon(n) == n && Lower(n) == "x-forwarded-sub"
    ensures n == FORWARDED_SUB
  {
    OwnNamesAreCanonical();
    LowerOwnNames();
    OnlySpelling(n, FORWARDED_SUB, "x-forwarded-sub");
  }

  /** The eight hop-by-hop names, in small letters. */
  ghost predicate HopByHopWord(word: string) {
    || word == "connection" || word == "keep-alive" || word == "proxy-authenticate" || word == "proxy-authorization"
    || word == "te" || word == "trailer" || word == "transfer-encoding" || word == "upgrade"
  }

  lemma {:induction false} HopByHopNames(n: string)
    ensures IsHopByHop(n) <==> HopByHopWord(Lower(n))
  {
  }

  /**
   * What a backend sees, name by name: the subject and the request id, each once and in one spelling, and no field
   * named Authorization or like one of the eight hop-by-hop fields, in whatever letter case.
   */
  lemma {:induction false} BackendSees(src: Fields, sub: string, rid: string, h: Fields, n: string)
    requires ProperlyForwarded(src, sub, rid, h) && n in h
    ensures Values(h, "X-Forwarded-Sub") == [sub] && Values(h, "X-Request-Id") == [rid]
    ensures Lower(n) != "authorization" && !HopByHopWord(Lower(n))
    ensures Lower(n) == "x-forwarded-sub" ==> n == "X-Forwarded-Sub"
  {
    NotAuthorization(n);
    HopByHopNames(n);
    if Lower(n) == "x-forwarded-sub" {
      OneSubject(n);
    }
  }

  /** Copying never invents a name: each is the canonical spelling of a copied one. */
  lemma {:induction false} CopiedNames(src: Fields, order: seq<string>, name: string)
    requires forall k | k in order :: k in src
    requires name in CopyInOrder(src, map[], order)
    ensures exists k :: Feeds(src, k, name)
  {
    var n := |order| - 1;
    if name in CopyInOrder(src, map[], order[..n]) {
      CopiedNames(src, order[..n], name);
    } else {
      assert Feeds(src, order[n], name);
    }
  }

  lemma {:induction false} ForwardedProperly(src: Fields, order: seq<string>, sub: string, rid: string)
    requires Enumerates(order, src.Keys)
    ensures ProperlyForwarded(src, sub, rid, Forwarded(src, order, sub, rid))
  {
    OwnNamesAreCanonical();
    var copied := CopyInOrder(src, map[], order);
    var h := Forwarded(src, order, sub, rid);
    forall n | n in h && !Owned(n)
      ensures Canon(n) == n && !IsHopByHop(n) && exists k :: Feeds(src, k, n)
    {
      CopiedNames(src, order, n);
      var k :| Feeds(src, k, n);
      CanonMeaning(k);
    }
    if DistinctNames(src) {
      forall k, n | Feeds(src, k, n) && !Owned(n)
        ensures Values(h, n) == src[k]
      {
        CopiedValues(src, map[], order, n);
      }
    }
  }
}
