/** `HttpUtil`'s HTTP Digest helpers (section 3.2.2 of RFC 2617): reading the server's
    `WWW-Authenticate` challenge, computing the request digest and writing the `Authorization`
    header. The HTTP exchanges themselves are not modelled. */
module HttpUtil {
  import opened Base
  import opened Primitives
  import opened Nonce
  import opened Md5Util

  // ---------------------------------------------------------------------
  // parseAuthHeaders

  /** The characters Java's regex `.` does not match. */
  predicate IsLineTerminator(c: char) {
    c == '\n' || c == '\r' || c as int == 0x85 || c as int == 0x2028 || c as int == 0x2029
  }

  predicate NoLineBreak(v: string) {
    forall m :: 0 <= m < |v| ==> !IsLineTerminator(v[m])
  }

  /** The pattern `key="(.*?)"` matches at `k` capturing `v`. */
  predicate Quoted(h: string, key: string, k: nat, v: string) {
    IsAt(h, key + "=\"" + v + "\"", k) && '"' !in v && NoLineBreak(v)
  }

  /** What the pattern captures when the match starts at `k`: the shortest text up to a `"`, which
      fails when a line terminator comes first. */
  function MatchAt(h: string, key: string, k: nat): Option<string> {
    var open := key + "=\"";
    if !IsAt(h, open, k) then None
    else
      var start := k + |open|;
      var e := IndexOf(h, "\"", start);
      if e == -1 || !NoLineBreak(h[start..e]) then None else Some(h[start..e])
  }

  /** A capture is a quoted value. */
  lemma MatchAtSound(h: string, key: string, k: nat, v: string)
    requires MatchAt(h, key, k) == Some(v)
    ensures Quoted(h, key, k, v)
  {
    var open := key + "=\"";
    var start := k + |open|;
    var e := IndexOf(h, "\"", start);
    assert h[k..start] == open;
    assert IsAt(h, "\"", e) && h[e] == '"';
    assert h[k..e + 1] == open + v + "\"";
    if '"' in v {
      var m :| 0 <= m < |v| && v[m] == '"';
      assert IsAt(h, "\"", start + m) by {
        assert h[start + m..start + m + 1] == [h[start + m]];
      }
    }
  }

  /** A quoted value at `k` is what the pattern captures there. */
  lemma MatchAtComplete(h: string, key: string, k: nat, v: string)
    requires Quoted(h, key, k, v)
    ensures MatchAt(h, key, k) == Some(v)
  {
    var open := key + "=\"";
    var start := k + |open|;
    var p := open + v + "\"";
    assert h[k..k + |p|] == p;
    assert h[k..start] == open by {
      assert p[..|open|] == open;
    }
    var e := start + |v|;
    assert |p| == |open| + |v| + 1 && k + |p| <= |h|;
    assert h[start..e] == v by {
      forall m | 0 <= m < |v| ensures h[start + m] == v[m] {
        assert h[start + m] == h[k..k + |p|][|open| + m] == p[|open| + m];
      }
    }
    assert h[e] == '"' by {
      assert h[e] == p[|p| - 1];
    }
    assert IsAt(h, "\"", e) by {
      assert h[e..e + 1] == [h[e]];
    }
    forall m | start <= m < e ensures !IsAt(h, "\"", m) {
      assert h[m] == v[m - start];
      assert h[m..m + 1] == [h[m]];
    }
    assert IndexOf(h, "\"", start) == e;
  }

  lemma MatchAtIff(h: string, key: string, k: nat, v: string)
    ensures MatchAt(h, key, k) == Some(v) <==> Quoted(h, key, k, v)
  {
    if MatchAt(h, key, k) == Some(v) {
      MatchAtSound(h, key, k, v);
    }
    if Quoted(h, key, k, v) {
      MatchAtComplete(h, key, k, v);
    }
  }

  /** `pattern.matcher(h).find()` from position `from`, and its `group(1)`: the leftmost match. */
  function Find(h: string, key: string, from: nat): Option<string>
    decreases |h| + 1 - from
  {
    if from > |h| then None
    else if MatchAt(h, key, from).Some? then MatchAt(h, key, from)
    else Find(h, key, from + 1)
  }

  /** `find()` succeeds exactly when the pattern matches somewhere, and captures at the leftmost
      place it matches. */
  lemma {:induction false} FindMeaning(h: string, key: string, from: nat)
    ensures Find(h, key, from).Some? ==>
      exists k :: from <= k && Quoted(h, key, k, Find(h, key, from).value) &&
                  forall m, w :: from <= m < k ==> !Quoted(h, key, m, w)
    ensures Find(h, key, from).None? ==> forall k, w :: from <= k ==> !Quoted(h, key, k, w)
    decreases |h| + 1 - from
  {
    if from > |h| {
      forall k, w | from <= k ensures !Quoted(h, key, k, w) {
      }
    } else {
      forall w ensures MatchAt(h, key, from) == Some(w) <==> Quoted(h, key, from, w) {
        MatchAtIff(h, key, from, w);
      }
      if MatchAt(h, key, from).None? {
        FindMeaning(h, key, from + 1);
      }
    }
  }

  /** The `nonce` pattern also matches inside a `cnonce="…"` parameter. */
  lemma NonceInsideCnonce(h: string, k: nat, v: string)
    requires Quoted(h, "cnonce", k, v)
    ensures Quoted(h, "nonce", k + 1, v)
  {
    var p := "cnonce" + "=\"" + v + "\"";
    var q := "nonce" + "=\"" + v + "\"";
    assert p[1..] == q;
    assert h[k + 1..k + 1 + |q|] == h[k..k + |p|][1..];
  }

  /** The three values `parseAuthHeaders` returns. */
  datatype Challenge = Challenge(qop: string, realm: string, nonce: string)

  /** The value for `key`: from the last header in which the pattern matches, or "". */
  function AuthValue(headers: seq<string>, key: string): string {
    if |headers| == 0 then ""
    else
      match Find(headers[|headers| - 1], key, 0)
      case Some(v) => v
      case None => AuthValue(headers[..|headers| - 1], key)
  }

  function ChallengeOf(headers: seq<string>): Challenge {
    Challenge(AuthValue(headers, "qop"), AuthValue(headers, "realm"), AuthValue(headers, "nonce"))
  }

  /** `parseAuthHeaders(authHeaders)`: each header's match overwrites the value kept so far. */
  method ParseAuthHeaders(authHeaders: seq<string>) returns (r: Challenge)
    ensures r == ChallengeOf(authHeaders)
  {
    var qop, realm, nonce := "", "", "";
    for i := 0 to |authHeaders|
      invariant qop == AuthValue(authHeaders[..i], "qop")
      invariant realm == AuthValue(authHeaders[..i], "realm")
      invariant nonce == AuthValue(authHeaders[..i], "nonce")
    {
      var header := authHeaders[i];
      assert authHeaders[..i + 1][..i] == authHeaders[..i] && authHeaders[..i + 1][i] == header;
      var m := Find(header, "qop", 0);
      if m.Some? {
        qop := m.value;
      }
      m := Find(header, "realm", 0);
      if m.Some? {
        realm := m.value;
      }
      m := Find(header, "nonce", 0);
      if m.Some? {
        nonce := m.value;
      }
    }
    assert authHeaders[..|authHeaders|] == authHeaders;
    r := Challenge(qop, realm, nonce);
  }

  /** Header `i` is the last one in which the pattern for `key` matches. */
  predicate LastMatch(headers: seq<string>, key: string, i: nat) {
    i < |headers| && Find(headers[i], key, 0).Some? &&
    forall j :: i < j < |headers| ==> Find(headers[j], key, 0).None?
  }

  /** A value is "" when no header matches; otherwise it is the capture in the last header that
      matches, later headers overwriting earlier ones. */
  lemma {:induction false} AuthValueMeaning(headers: seq<string>, key: string)
    ensures (forall i :: 0 <= i < |headers| ==> Find(headers[i], key, 0).None?) ==> AuthValue(headers, key) == ""
    ensures forall i: nat :: LastMatch(headers, key, i) ==> AuthValue(headers, key) == Find(headers[i], key, 0).value
  {
    if |headers| > 0 {
      var n := |headers| - 1;
      var init := headers[..n];
      AuthValueMeaning(init, key);
      if Find(headers[n], key, 0).None? {
        forall i: nat | LastMatch(headers, key, i) ensures LastMatch(init, key, i) {
          assert i != n;
        }
        forall i | 0 <= i < |init| ensures init[i] == headers[i] {
        }
      }
    }
  }

  // ---------------------------------------------------------------------
  // The digest

  /** `createMd5Data(*params)`. */
  function CreateMd5Data(params: seq<string>): string {
    Join(params, ":")
  }

  /** The parts are recovered from the joined text when none holds a colon. */
  lemma Md5DataFields(params: seq<string>)
    requires |params| >= 1 && forall i :: 0 <= i < |params| ==> ':' !in params[i]
    ensures Split(CreateMd5Data(params), ":") == params
  {
    SplitJoin(params, ":");
  }

  /** The request count, always the first request. */
  const Nc: string := "00000001"

  /** `HA1 = MD5(user:realm:password)`. */
  function Ha1(lib: Library, user: string, realm: string, psd: string): string {
    Md5Of(lib, CreateMd5Data([user, realm, psd]))
  }

  /** `HA2 = MD5(method:uri)`. */
  function Ha2(lib: Library, requestMethod: string, uri: string): string {
    Md5Of(lib, CreateMd5Data([requestMethod, uri]))
  }

  /** The text whose MD5 is the response: `HA1:nonce:nc:cnonce:qop:HA2`. */
  function ResponseData(lib: Library, user: string, realm: string, psd: string, requestMethod: string, uri: string,
                        nonce: string, cnonce: string, qop: string): string {
    CreateMd5Data([Ha1(lib, user, realm, psd), nonce, Nc, cnonce, qop, Ha2(lib, requestMethod, uri)])
  }

  /** With MD5 available, the response is the hexadecimal MD5 of a text that splits at the colons
      into HA1, the server nonce, `00000001`, the client nonce, qop and HA2, where HA1 and HA2
      are themselves lower-case hexadecimal MD5s of `user:realm:password` and
      `method:uri`. */
  lemma ResponseComposition(lib: Library, user: string, realm: string, psd: string, requestMethod: string,
                            uri: string, nonce: string, cnonce: string, qop: string)
    requires lib.md5.Some?
    requires ':' !in nonce && ':' !in cnonce && ':' !in qop
    ensures var ha1 := Ha1(lib, user, realm, psd);
      var ha2 := Ha2(lib, requestMethod, uri);
      var data := ResponseData(lib, user, realm, psd, requestMethod, uri, nonce, cnonce, qop);
      Split(data, ":") == [ha1, nonce, Nc, cnonce, qop, ha2] &&
      IsLowerHex(ha1) && IsLowerHex(ha2) && IsLowerHex(Md5Of(lib, data))
  {
    var ha1 := Ha1(lib, user, realm, psd);
    var ha2 := Ha2(lib, requestMethod, uri);
    var parts := [ha1, nonce, Nc, cnonce, qop, ha2];
    forall i | 0 <= i < |parts| ensures ':' !in parts[i] {
      if i == 0 || i == 5 {
        assert IsLowerHex(parts[i]);
      }
    }
    Md5DataFields(parts);
  }

  /** `buildAuthorizationHeader(user, realm, nonce, uri, cnonce, nc, responseData, qop)`. */
  function BuildAuthorizationHeader(user: string, realm: string, nonce: string, uri: string, cnonce: string,
                                    nc: string, responseData: string, qop: string): string {
    "Digest username=\"" + user + "\",realm=\"" + realm + "\",nonce=\"" + nonce + "\",uri=\"" + uri +
    "\",cnonce=\"" + cnonce + "\",nc=" + nc + ",response=\"" + responseData + "\",qop=\"" + qop + "\""
  }

  /** A parameter of the header: its name, its value and whether the value is quoted. */
  datatype Param = Param(name: string, value: string, quoted: bool)

  function ParamText(p: Param): string {
    p.name + "=" + (if p.quoted then "\"" + p.value + "\"" else p.value)
  }

  function ParamTexts(ps: seq<Param>): (r: seq<string>)
    ensures |r| == |ps| && forall i :: 0 <= i < |ps| ==> r[i] == ParamText(ps[i])
  {
    if |ps| == 0 then [] else [ParamText(ps[0])] + ParamTexts(ps[1..])
  }

  /** A `Digest` credentials header written from its parameters: the scheme, a space, and the
      parameters separated by commas, in order. */
  function Credentials(ps: seq<Param>): string {
    "Digest " + Join(ParamTexts(ps), ",")
  }

  /** Regrouping a concatenation. */
  lemma Assoc(a: string, b: string, c: string)
    ensures a + b + c == a + (b + c)
  {
  }

  /** One quoted parameter, read from the right: the literal before the value is the closing
      quote of the previous one, a comma, the name and `="`. */
  lemma QuotedStep(lit: string, close: string, name: string, v: string, tail: string)
    requires lit == close + "," + name + "=\""
    ensures lit + (v + ("\"" + tail)) == close + ("," + (ParamText(Param(name, v, true)) + tail))
  {
  }

  /** The same for the unquoted `nc`. */
  lemma PlainStep(lit: string, close: string, name: string, v: string, tail: string)
    requires lit == close + "," + name + "="
    ensures lit + (v + tail) == close + ("," + (ParamText(Param(name, v, false)) + tail))
  {
  }

  /** The scheme and the first parameter. */
  lemma OpenStep(user: string, tail: string)
    ensures "Digest username=\"" + (user + ("\"" + tail)) == "Digest " + (ParamText(Param("username", user, true)) + tail)
  {
  }

  /** Eight parameter texts joined by commas, grouped from the right. */
  lemma JoinEight(ts: seq<string>)
    requires |ts| == 8
    ensures Join(ts, ",") == ts[0] + ("," + (ts[1] + ("," + (ts[2] + ("," + (ts[3] + ("," + (ts[4] + ("," + (ts[5] + ("," + (ts[6] + ("," + (ts[7]))))))))))))))
  {
    JoinCons(ts[6], [ts[7]], ",");
    assert [ts[6]] + [ts[7]] == ts[6..];
    Assoc(ts[6], ",", ts[7]);
    JoinCons(ts[5], ts[6..], ",");
    assert [ts[5]] + ts[6..] == ts[5..];
    Assoc(ts[5], ",", Join(ts[6..], ","));
    JoinCons(ts[4], ts[5..], ",");
    assert [ts[4]] + ts[5..] == ts[4..];
    Assoc(ts[4], ",", Join(ts[5..], ","));
    JoinCons(ts[3], ts[4..], ",");
    assert [ts[3]] + ts[4..] == ts[3..];
    Assoc(ts[3], ",", Join(ts[4..], ","));
    JoinCons(ts[2], ts[3..], ",");
    assert [ts[2]] + ts[3..] == ts[2..];
    Assoc(ts[2], ",", Join(ts[3..], ","));
    JoinCons(ts[1], ts[2..], ",");
    assert [ts[1]] + ts[2..] == ts[1..];
    Assoc(ts[1], ",", Join(ts[2..], ","));
    JoinCons(ts[0], ts[1..], ",");
    assert [ts[0]] + ts[1..] == ts;
    Assoc(ts[0], ",", Join(ts[1..], ","));
  }

  /** The header with its pieces grouped to the right. */
  lemma RightGrouped(user: string, realm: string, nonce: string, uri: string, cnonce: string,
                 nc: string, responseData: string, qop: string)
    ensures BuildAuthorizationHeader(user, realm, nonce, uri, cnonce, nc, responseData, qop) ==
      "Digest username=\"" + (user + ("\",realm=\"" + (realm + ("\",nonce=\"" + (nonce + ("\",uri=\"" + (uri + ("\",cnonce=\"" + (cnonce + ("\",nc=" + (nc + (",response=\"" + (responseData + ("\",qop=\"" + (qop + ("\""))))))))))))))))
  {
    var r15 := qop + "\"";
    var r14 := "\",qop=\"" + r15;
    var r13 := responseData + r14;
    var r12 := ",response=\"" + r13;
    var r11 := nc + r12;
    var r10 := "\",nc=" + r11;
    var r9 := cnonce + r10;
    var r8 := "\",cnonce=\"" + r9;
    var r7 := uri + r8;
    var r6 := "\",uri=\"" + r7;
    var r5 := nonce + r6;
    var r4 := "\",nonce=\"" + r5;
    var r3 := realm + r4;
    var r2 := "\",realm=\"" + r3;
    var r1 := user + r2;
    var p1 := "Digest username=\"" + user;
    var p2 := p1 + "\",realm=\"";
    var p3 := p2 + realm;
    var p4 := p3 + "\",nonce=\"";
    var p5 := p4 + nonce;
    var p6 := p5 + "\",uri=\"";
    var p7 := p6 + uri;
    var p8 := p7 + "\",cnonce=\"";
    var p9 := p8 + cnonce;
    var p10 := p9 + "\",nc=";
    var p11 := p10 + nc;
    var p12 := p11 + ",response=\"";
    var p13 := p12 + responseData;
    var p14 := p13 + "\",qop=\"";
    var p15 := p14 + qop;
    assert BuildAuthorizationHeader(user, realm, nonce, uri, cnonce, nc, responseData, qop) == p15 + "\"";
    Assoc(p14, qop, "\"");
    Assoc(p13, "\",qop=\"", r15);
    Assoc(p12, responseData, r14);
    Assoc(p11, ",response=\"", r13);
    Assoc(p10, nc, r12);
    Assoc(p9, "\",nc=", r11);
    Assoc(p8, cnonce, r10);
    Assoc(p7, "\",cnonce=\"", r9);
    Assoc(p6, uri, r8);
    Assoc(p5, "\",uri=\"", r7);
    Assoc(p4, nonce, r6);
    Assoc(p3, "\",nonce=\"", r5);
    Assoc(p2, realm, r4);
    Assoc(p1, "\",realm=\"", r3);
    Assoc("Digest username=\"", user, r2);
  }

  /** The header grouped from the right is the parameter texts joined by commas, grouped from
      the right. */
  lemma HeaderFromRight(user: string, realm: string, nonce: string, uri: string, cnonce: string,
                 nc: string, responseData: string, qop: string)
    ensures var t := ParamTexts([Param("username", user, true), Param("realm", realm, true), Param("nonce", nonce, true),
                     Param("uri", uri, true), Param("cnonce", cnonce, true), Param("nc", nc, false),
                     Param("response", responseData, true), Param("qop", qop, true)]);
      "Digest username=\"" + (user + ("\",realm=\"" + (realm + ("\",nonce=\"" + (nonce + ("\",uri=\"" + (uri +
      ("\",cnonce=\"" + (cnonce + ("\",nc=" + (nc + (",response=\"" + (responseData + ("\",qop=\"" + (qop + "\""))))))))))))))) ==
      "Digest " + (t[0] + ("," + (t[1] + ("," + (t[2] + ("," + (t[3] + ("," + (t[4] + ("," + (t[5] + ("," + (t[6] + ("," + (t[7])))))))))))))))
  {
    var t := ParamTexts([Param("username", user, true), Param("realm", realm, true), Param("nonce", nonce, true),
                     Param("uri", uri, true), Param("cnonce", cnonce, true), Param("nc", nc, false),
                     Param("response", responseData, true), Param("qop", qop, true)]);
    var j7 := t[7];
    QuotedStep("\",qop=\"", "\"", "qop", qop, "");
    assert qop + "\"" == qop + ("\"" + "") && t[7] + "" == t[7];
    var s7 := "\",qop=\"" + (qop + "\"");
    assert s7 == "\"" + ("," + j7);
    var j6 := t[6] + ("," + j7);
    QuotedStep(",response=\"", "", "response", responseData, "," + j7);
    var s6 := ",response=\"" + (responseData + s7);
    assert s6 == "," + j6;
    var j5 := t[5] + ("," + j6);
    PlainStep("\",nc=", "\"", "nc", nc, "," + j6);
    var s5 := "\",nc=" + (nc + s6);
    assert s5 == "\"" + ("," + j5);
    var j4 := t[4] + ("," + j5);
    QuotedStep("\",cnonce=\"", "\"", "cnonce", cnonce, "," + j5);
    var s4 := "\",cnonce=\"" + (cnonce + s5);
    assert s4 == "\"" + ("," + j4);
    var j3 := t[3] + ("," + j4);
    QuotedStep("\",uri=\"", "\"", "uri", uri, "," + j4);
    var s3 := "\",uri=\"" + (uri + s4);
    assert s3 == "\"" + ("," + j3);
    var j2 := t[2] + ("," + j3);
    QuotedStep("\",nonce=\"", "\"", "nonce", nonce, "," + j3);
    var s2 := "\",nonce=\"" + (nonce + s3);
    assert s2 == "\"" + ("," + j2);
    var j1 := t[1] + ("," + j2);
    QuotedStep("\",realm=\"", "\"", "realm", realm, "," + j2);
    var s1 := "\",realm=\"" + (realm + s2);
    assert s1 == "\"" + ("," + j1);
    var j0 := t[0] + ("," + j1);
    OpenStep(user, "," + j1);
  }

  /** The header carries username, realm, nonce, uri, cnonce, nc, response and qop in that order,
      every value quoted except nc. */
  lemma AuthorizationHeaderParams(user: string, realm: string, nonce: string, uri: string, cnonce: string,
                                  nc: string, responseData: string, qop: string)
    ensures BuildAuthorizationHeader(user, realm, nonce, uri, cnonce, nc, responseData, qop) ==
      Credentials([Param("username", user, true), Param("realm", realm, true), Param("nonce", nonce, true),
                   Param("uri", uri, true), Param("cnonce", cnonce, true), Param("nc", nc, false),
                   Param("response", responseData, true), Param("qop", qop, true)])
  {
    RightGrouped(user, realm, nonce, uri, cnonce, nc, responseData, qop);
    HeaderFromRight(user, realm, nonce, uri, cnonce, nc, responseData, qop);
    JoinEight(ParamTexts([Param("username", user, true), Param("realm", realm, true), Param("nonce", nonce, true),
                          Param("uri", uri, true), Param("cnonce", cnonce, true), Param("nc", nc, false),
                          Param("response", responseData, true), Param("qop", qop, true)]));
  }

  /** `generateNonce()`: 32 draws from the alphabet, appended one by one. */
  method GenerateNonce(random: nat -> Draw) returns (r: string)
    ensures r == NonceOf(random)
    ensures forall k :: 0 <= k < |r| ==> IsAlphanumeric(r[k])
  {
    var nonce := "";
    var i := 0;
    while i < Length
      invariant i <= Length && |nonce| == i
      invariant forall k :: 0 <= k < i ==> nonce[k] == Chars[random(k)]
    {
      var index := random(i);
      nonce := nonce + [Chars[index]];
      i := i + 1;
    }
    NonceIsAlphanumeric(random);
    r := nonce;
  }

  /** The header `digestHttp` sends for a client nonce `cnonce`. */
  function AuthorizationOf(lib: Library, user: string, psd: string, requestMethod: string, uriPath: string,
                           nonce: string, realm: string, qop: string, cnonce: string): string {
    BuildAuthorizationHeader(user, realm, nonce, uriPath, cnonce, Nc,
                             Md5Of(lib, ResponseData(lib, user, realm, psd, requestMethod, uriPath, nonce, cnonce, qop)), qop)
  }

  /** The header computation of `digestHttp`: a fresh client nonce, then HA1, HA2 and the
      response. */
  method DigestAuthorization(lib: Library, user: string, psd: string, requestMethod: string, disgestUriPath: string,
                             nonce: string, realm: string, qop: string, random: nat -> Draw)
    returns (authorizationHeader: string)
    ensures authorizationHeader == AuthorizationOf(lib, user, psd, requestMethod, disgestUriPath, nonce, realm, qop, NonceOf(random))
  {
    var nc := "00000001";
    var cnonce := GenerateNonce(random);
    var ha1 := Md5Encode(lib, CreateMd5Data([user, realm, psd]));
    var ha2 := Md5Encode(lib, CreateMd5Data([requestMethod, disgestUriPath]));
    var ha3 := Md5Encode(lib, CreateMd5Data([ha1, nonce, nc, cnonce, qop, ha2]));
    var responseData := ha3;
    authorizationHeader := BuildAuthorizationHeader(user, realm, nonce, disgestUriPath, cnonce, nc, responseData, qop);
  }

  // ---------------------------------------------------------------------
  // The digest URI

  /** `url.substringAfter(host)`, the `uri` of the digest in `getImageWithDigestAuth`. */
  function UriPath(url: string, host: string): string {
    SubstringAfter(url, host)
  }

  /** For an `http://` URL whose host starts with a digit (an IPv4 address), the digest URI is all
      that follows the host, so a port stays in it. */
  lemma UriPathAfterHost(host: string, rest: string)
    requires |host| > 0 && IsDigit(host[0])
    ensures UriPath("http://" + host + rest, host) == rest
  {
    var url := "http://" + host + rest;
    assert IsAt(url, host, 7) by {
      assert url[7..7 + |host|] == host;
    }
    var k := IndexOf(url, host, 0);
    assert k != -1 && k <= 7;
    assert url[k] == host[0] by {
      assert url[k..k + |host|][0] == url[k];
    }
    assert url[..7] == "http://";
    assert k == 7;
    assert url[7 + |host|..] == rest;
  }

  /** A host that also occurs inside `http://` is found there first: for `http://tp/a` with
      host `tp` the digest URI is `://tp/a`, not `/a`. */
  lemma UriPathHostInScheme(url: string, host: string)
    requires url == "http://tp/a" && host == "tp"
    ensures UriPath(url, host) == "://tp/a"
  {
    assert |url| == 11 && |host| == 2;
    assert url[0] == 'h' && url[1] == 't' && url[2] == 't' && url[3] == 'p';
    assert host[0] == 't' && host[1] == 'p';
    assert url[0..2][0] != host[0];
    assert url[1..3][1] != host[1];
    assert url[2..4] == host by {
      assert url[2..4][0] == host[0] && url[2..4][1] == host[1];
    }
    assert IndexOf(url, host, 2) == 2;
    assert IndexOf(url, host, 0) == 2;
    assert url[4..] == "://tp/a";
  }
}
