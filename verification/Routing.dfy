/** Matching a path to a route, finding the bearer token, and the labels the proxy counts. */
module Routing {
  import opened Common
  import opened Headers
  import opened Verifiers

  datatype Route = Route(prefix: string, service: string, requiredScope: string)

  /** match: the first configured route whose prefix the path has. */
  function FirstMatch(routes: seq<Route>, path: string): (r: Option<Route>) {
    if routes == [] then None
    else if routes[0].prefix <= path then Some(routes[0])
    else FirstMatch(routes[1..], path)
  }

  /** Route i is the first whose prefix the path has. */
  ghost predicate IsFirst(routes: seq<Route>, path: string, i: int) {
    0 <= i < |routes| && routes[i].prefix <= path && forall j | 0 <= j < i :: !(routes[j].prefix <= path)
  }

  lemma {:induction false} FirstMatchMeaning(routes: seq<Route>, path: string)
    ensures match FirstMatch(routes, path)
            case Some(r) => exists i :: IsFirst(routes, path, i) && routes[i] == r
            case None => forall i | 0 <= i < |routes| :: !(routes[i].prefix <= path)
  {
    if routes != [] {
      if routes[0].prefix <= path {
        assert IsFirst(routes, path, 0);
      } else {
        FirstMatchMeaning(routes[1..], path);
        if i :| IsFirst(routes[1..], path, i) && FirstMatch(routes, path) == Some(routes[1..][i]) {
          assert forall j | 0 < j < i + 1 :: routes[j] == routes[1..][j - 1];
          assert IsFirst(routes, path, i + 1);
        }
      }
    }
  }

  predicate IsSpace(c: char) {
    c == ' ' || '\t' <= c <= '\r'
  }

  function TrimSpace(s: string): (r: string)
    ensures r == "" || (!IsSpace(r[0]) && !IsSpace(r[|r| - 1]))
  {
    if s == "" then ""
    else if IsSpace(s[0]) then TrimSpace(s[1..])
    else if IsSpace(s[|s| - 1]) then TrimSpace(s[..|s| - 1])
    else s
  }

  /** White space: tab, line feed, vertical tab, form feed, carriage return, space. */
  ghost predicate White(c: char) {
    9 <= c as int <= 13 || c as int == 32
  }

  ghost predicate Blank(s: string) {
    forall i | 0 <= i < |s| :: White(s[i])
  }

  lemma {:induction false} BlankEnds(c: char, s: string)
    ensures Blank([c] + s) <==> White(c) && Blank(s)
    ensures Blank(s + [c]) <==> White(c) && Blank(s)
  {
    if Blank([c] + s) {
      assert ([c] + s)[0] == c && forall i | 0 <= i < |s| :: ([c] + s)[i + 1] == s[i];
    }
    if Blank(s + [c]) {
      assert (s + [c])[|s|] == c && forall i | 0 <= i < |s| :: (s + [c])[i] == s[i];
    }
  }

  lemma {:induction false} SpaceIsWhite(c: char)
    ensures IsSpace(c) <==> White(c)
  {
  }

  lemma {:induction false} Reassociate(c: char, a: string, m: string, b: string)
    ensures [c] + (a + m + b) == ([c] + a) + m + b && (a + m + b) + [c] == a + m + (b + [c])
  {
  }

  /** Trimming takes white space off both ends and nothing else. */
  lemma {:induction false} TrimMeaning(s: string) returns (a: string, b: string)
    ensures s == a + TrimSpace(s) + b && Blank(a) && Blank(b)
    ensures TrimSpace(s) == "" <==> Blank(s)
  {
    a, b := "", "";
    if s == "" {
      return;
    }
    var n := |s| - 1;
    SpaceIsWhite(s[0]);
    SpaceIsWhite(s[n]);
    if IsSpace(s[0]) {
      var rest := s[1..];
      assert s == [s[0]] + rest;
      a, b := TrimMeaning(rest);
      BlankEnds(s[0], rest);
      BlankEnds(s[0], a);
      Reassociate(s[0], a, TrimSpace(rest), b);
      a := [s[0]] + a;
    } else if IsSpace(s[n]) {
      var rest := s[..n];
      assert s == rest + [s[n]];
      a, b := TrimMeaning(rest);
      BlankEnds(s[n], rest);
      BlankEnds(s[n], b);
      Reassociate(s[n], a, TrimSpace(rest), b);
      b := b + [s[n]];
    }
  }

  /** The token after "Bearer " in any letter case, or "" when there is none. */
  function Bearer(fields: Fields): (token: string) {
    var vs := Values(fields, AUTHORIZATION);
    var h := if vs == [] then "" else vs[0];
    if |h| <= 7 || Lower(h[..7]) != "bearer " then "" else TrimSpace(h[7..])
  }

  /** The scheme, in any letter case. */
  ghost predicate SaysBearer(scheme: string) {
    |scheme| == 6 && forall i | 0 <= i < 6 :: scheme[i] == "bearer"[i] || scheme[i] == "BEARER"[i]
  }

  /** The first Authorization value is a bearer scheme, a space, and `rest`. */
  ghost predicate Presents(fields: Fields, scheme: string, rest: string) {
    && "Authorization" in fields && fields["Authorization"] != []
    && SaysBearer(scheme) && fields["Authorization"][0] == scheme + " " + rest
  }

  lemma {:induction false} LowerIsBearer(h: string)
    requires |h| >= 7
    ensures Lower(h[..7]) == "bearer " <==> SaysBearer(h[..6]) && h[6] == ' '
  {
    var l, w := Lower(h[..7]), "bearer ";
    assert forall i | 0 <= i < 7 :: l[i] == ToLower(h[i]);
    if SaysBearer(h[..6]) && h[6] == ' ' {
      forall i | 0 <= i < 7
        ensures l[i] == w[i]
      {
        if i < 6 {
          assert h[..6][i] == h[i];
        }
      }
    }
    if l == w {
      forall i | 0 <= i < 6
        ensures h[..6][i] == "bearer"[i] || h[..6][i] == "BEARER"[i]
      {
        assert l[i] == w[i];
      }
      assert l[6] == w[6];
    }
  }

  /**
   * The token of a request, on the header value itself: what follows the scheme and one space, without the white space
   * around it.
   */
  lemma {:induction false} BearerMeaning(fields: Fields, scheme: string, rest: string) returns (a: string, b: string)
    requires Presents(fields, scheme, rest)
    ensures var token := Bearer(fields);
            && rest == a + token + b && Blank(a) && Blank(b) && (token == "" <==> Blank(rest))
            && (token != "" ==> !White(token[0]) && !White(token[|token| - 1]))
  {
    var h := fields["Authorization"][0];
    assert h[..6] == scheme && h[6] == ' ' && h[7..] == rest;
    LowerIsBearer(h);
    a, b := TrimMeaning(rest);
    var token := Bearer(fields);
    assert token == TrimSpace(rest);
    if token != "" {
      SpaceIsWhite(token[0]);
      SpaceIsWhite(token[|token| - 1]);
    }
  }

  /** There is a token exactly when the first Authorization value presents one that is not blank. */
  lemma {:induction false} BearerIff(fields: Fields)
    ensures Bearer(fields) != "" <==> exists scheme, rest :: Presents(fields, scheme, rest) && !Blank(rest)
  {
    if Bearer(fields) != "" {
      var h := fields["Authorization"][0];
      LowerIsBearer(h);
      var scheme, rest := h[..6], h[7..];
      assert h == scheme + " " + rest;
      assert Presents(fields, scheme, rest);
      var a, b := BearerMeaning(fields, scheme, rest);
    }
    if scheme, rest :| Presents(fields, scheme, rest) && !Blank(rest) {
      var a, b := BearerMeaning(fields, scheme, rest);
    }
  }

  datatype Decision = Allowed | Denied

  datatype Label = Label(route: string, decision: Decision, reason: Reason)

  /**
   * What the verifier's answer can be: an auth reason of its own, or a token that passed every check and was not
   * stored.
   */
  lemma {:induction false} VerdictReasons(p: Platform, cfg: Config, items: map<string, int>, token: string, now: int)
    ensures match Verdict(p, cfg, items, token, now)
            case Err(e) => e.IsAuth() && e != NoToken && e != MissingScope
            case Ok(v) => v.claims.jti !in items && Authenticate(p, cfg, token, now) == Ok(v)
  {
  }

  /** The numbers a client gets: 403 for a missing scope, 401 for any other failed authentication, and so on. */
  ghost predicate RightStatus(reason: Reason, status: int) {
    && (reason == MissingScope <==> status == 403)
    && (reason.IsAuth() && reason != MissingScope <==> status == 401)
    && (reason == NoRoute <==> status == 404)
    && (reason == UpstreamError <==> status == 502)
    && (reason == NoHealthyBackend <==> status == 503)
  }

  lemma {:induction false} StatusIsRight(reason: Reason)
    ensures RightStatus(reason, StatusOf(reason))
  {
  }

  /** The status that goes with each refusal. */
  function StatusOf(reason: Reason): (status: int) {
    match reason
    case NoRoute => 404
    case MissingScope => 403
    case NoHealthyBackend => 503
    case UpstreamError => 502
    case Success => 0
    case _ => 401
  }
}
