/** The bytes an authorization signature covers, up to the hash. */
module Sign {
  import opened Domain
  import opened StringOrder
  import opened Json
  import opened JsonRoundTrip
  import opened JsonWriter

  const APP_ID: string := "privy-app-id"
  const IDEMPOTENCY_KEY: string := "privy-idempotency-key"

  type Headers = map<string, Json>

  function SignedHeaders(appId: string, headers: Headers): Headers {
    map[APP_ID := Str(appId)] + headers
  }

  function Payload(method_: string, url: string, body: Json, appId: string, headers: Headers): Json {
    Obj(map[
      "version" := Num("1"),
      "method" := Str(Upper(method_)),
      "url" := Str(url),
      "body" := body,
      "headers" := Obj(SignedHeaders(appId, headers))])
  }

  /** Copies the headers over the app id, builds the payload and prints it. */
  method SignedBytes(method_: string, url: string, body: Json, appId: string,
    headers: Headers) returns (bytes: string)
    ensures bytes == Print(Payload(method_, url, body, appId, headers))
  {
    var signed: Headers := map[APP_ID := Str(appId)];
    var rest := headers.Keys;
    while rest != {}
      invariant rest <= headers.Keys
      invariant signed == map[APP_ID := Str(appId)] + (headers - rest)
    {
      var k :| k in rest;
      signed := signed[k := headers[k]];
      rest := rest - {k};
    }
    assert headers - {} == headers;
    bytes := CanonicalJson(Obj(map[
      "version" := Num("1"),
      "method" := Str(Upper(method_)),
      "url" := Str(url),
      "body" := body,
      "headers" := Obj(signed)]));
  }

  ghost predicate ValidHeaders(headers: Headers) {
    forall k | k in headers :: Valid(headers[k])
  }

  lemma PayloadValid(method_: string, url: string, body: Json, appId: string, headers: Headers)
    requires Valid(body) && ValidHeaders(headers)
    ensures Valid(Payload(method_, url, body, appId, headers))
  {
    var h := Obj(SignedHeaders(appId, headers));
    assert Valid(h);
    assert IsNumber("1") by {
      assert "1"[1..] == "";
      assert SkipDigits("1") == "";
    }
  }

  /** Every part of the payload can be read off its stripped form. */
  lemma StrippedPayload(method_: string, url: string, body: Json, appId: string, headers: Headers)
    ensures var m := Strip(Payload(method_, url, body, appId, headers)).members;
            && "method" in m && m["method"] == Str(Upper(method_))
            && "url" in m && m["url"] == Str(url)
            && "headers" in m && m["headers"] == Strip(Obj(SignedHeaders(appId, headers)))
            && Strip(body) == (if "body" in m then m["body"] else Null)
  {
  }

  /** The parts of a request the payload carries, up to null members. */
  ghost predicate SameParts(m: string, u: string, b: Json, a: string, h: Headers,
                            m': string, u': string, b': Json, a': string, h': Headers) {
    && Upper(m) == Upper(m') && u == u' && Strip(b) == Strip(b')
    && Strip(Obj(SignedHeaders(a, h))) == Strip(Obj(SignedHeaders(a', h')))
  }

  lemma StripInsert(members: map<string, Json>, k: string, v: Json)
    ensures Strip(Obj(members[k := v])) ==
            Obj(if Strip(v).Null? then Strip(Obj(members)).members - {k}
              else Strip(Obj(members)).members[k := Strip(v)])
  {
    StripKeepsNull(v);
  }

  lemma StripEmpty()
    ensures Strip(Obj(map[])) == Obj(map[])
    ensures Strip(Num("1")) == Num("1")
    ensures forall s :: Strip(Str(s)) == Str(s)
    ensures forall m :: Strip(Obj(m)).Obj?
  {
  }

  function StrippedMembers(m: string, u: string, b: Json, h: Json): map<string, Json> {
    var before := map["version" := Num("1"), "method" := Str(m), "url" := Str(u)];
    (if b.Null? then before - {"body"} else before["body" := b])["headers" := h]
  }

  lemma StrippedPayloadIs(m: string, u: string, b: Json, a: string, h: Headers)
    ensures Strip(Payload(m, u, b, a, h)) ==
            Obj(StrippedMembers(Upper(m), u, Strip(b), Strip(Obj(SignedHeaders(a, h)))))
  {
    hide Upper, SignedHeaders;
    var m1 := map["version" := Num("1")];
    var m2 := m1["method" := Str(Upper(m))];
    var m3 := m2["url" := Str(u)];
    StripInsert(map[], "version", Num("1"));
    StripInsert(m1, "method", Str(Upper(m)));
    StripInsert(m2, "url", Str(u));
    StripInsert(m3, "body", b);
    StripInsert(m3["body" := b], "headers", Obj(SignedHeaders(a, h)));
    StripEmpty();
    hide Strip;
    assert Payload(m, u, b, a, h) == Obj(m3["body" := b]["headers" := Obj(SignedHeaders(a, h))]);
  }

  lemma SamePartsSameStrip(m: string, u: string, b: Json, a: string, h: Headers,
                           m': string, u': string, b': Json, a': string, h': Headers)
    requires SameParts(m, u, b, a, h, m', u', b', a', h')
    ensures Strip(Payload(m, u, b, a, h)) == Strip(Payload(m', u', b', a', h'))
  {
    hide Strip, Payload, StrippedMembers;
    StrippedPayloadIs(m, u, b, a, h);
    StrippedPayloadIs(m', u', b', a', h');
  }

  /** Two payloads have equal bytes exactly when their parts agree. */
  lemma PayloadIdentifiesRequest(m: string, u: string, b: Json, a: string, h: Headers,
                                 m': string, u': string, b': Json, a': string, h': Headers)
    requires Valid(b) && Valid(b') && ValidHeaders(h) && ValidHeaders(h')
    ensures Print(Payload(m, u, b, a, h)) == Print(Payload(m', u', b', a', h')) <==>
            SameParts(m, u, b, a, h, m', u', b', a', h')
  {
    PayloadValid(m, u, b, a, h);
    PayloadValid(m', u', b', a', h');
    PrintIdentifies(Payload(m, u, b, a, h), Payload(m', u', b', a', h'));
    StrippedPayload(m, u, b, a, h);
    StrippedPayload(m', u', b', a', h');
    if SameParts(m, u, b, a, h, m', u', b', a', h') {
      SamePartsSameStrip(m, u, b, a, h, m', u', b', a', h');
    }
  }

  /** The headers a call signs: its idempotency key, when it has one. */
  function CallHeaders(idempotencyKey: string): Headers {
    if idempotencyKey == "" then map[] else map[IDEMPOTENCY_KEY := Str(idempotencyKey)]
  }

  lemma StrippedCallHeaders(appId: string, idem: string)
    ensures var m := Strip(Obj(SignedHeaders(appId, CallHeaders(idem)))).members;
            && APP_ID in m && m[APP_ID] == Str(appId)
            && idem == (if IDEMPOTENCY_KEY in m && m[IDEMPOTENCY_KEY].Str? then m[IDEMPOTENCY_KEY].s else "")
  {
    assert APP_ID != IDEMPOTENCY_KEY by {
      assert |APP_ID| != |IDEMPOTENCY_KEY|;
    }
  }

  lemma CallHeadersValid(idem: string)
    ensures ValidHeaders(CallHeaders(idem))
  {
  }

  /** Two signed calls cover the same bytes exactly when they agree in upper-cased
      method, URL, app id, idempotency key, and body up to null members. */
  lemma CallIdentifiesRequest(m: string, u: string, b: Json, a: string, idem: string,
                              m': string, u': string, b': Json, a': string, idem': string)
    requires Valid(b) && Valid(b')
    ensures Print(Payload(m, u, b, a, CallHeaders(idem))) == Print(Payload(m', u', b', a', CallHeaders(idem'))) <==>
            Upper(m) == Upper(m') && u == u' && Strip(b) == Strip(b') && a == a' && idem == idem'
  {
    hide Payload, Print, Strip, Upper, SignedHeaders, CallHeaders, ValidHeaders;
    CallHeadersValid(idem);
    CallHeadersValid(idem');
    PayloadIdentifiesRequest(m, u, b, a, CallHeaders(idem), m', u', b', a', CallHeaders(idem'));
    StrippedCallHeaders(a, idem);
    StrippedCallHeaders(a', idem');
  }

  /* ------------------------------------------------------------ the bytes in full */

  const PAYLOAD_KEYS: seq<string> := ["body", "headers", "method", "url", "version"]

  lemma PayloadKeysInOrder()
    ensures forall i, j | 0 <= i < j < 5 :: Before(PAYLOAD_KEYS[i], PAYLOAD_KEYS[j])
  {
    forall i, j | 0 <= i < j < 5 ensures Before(PAYLOAD_KEYS[i], PAYLOAD_KEYS[j]) {
      assert BeforeAt(PAYLOAD_KEYS[i], PAYLOAD_KEYS[j], 0);
    }
  }

  /** A body that is null is left out. */
  function KeysFor(body: Json): seq<string> {
    if body == Null then PAYLOAD_KEYS[1..] else PAYLOAD_KEYS
  }

  lemma PayloadInOrder(method_: string, url: string, body: Json, appId: string, headers: Headers)
    ensures InOrder(Payload(method_, url, body, appId, headers), KeysFor(body))
  {
    hide Before, SignedHeaders, Upper;
    PayloadKeysInOrder();
    var v := Payload(method_, url, body, appId, headers);
    assert v.members.Keys == {"body", "headers", "method", "url", "version"};
  }

  lemma PayloadMembers(method_: string, url: string, body: Json, appId: string, headers: Headers)
    ensures Payload(method_, url, body, appId, headers).Obj?
    ensures var m := Payload(method_, url, body, appId, headers).members;
            && m.Keys == {"body", "headers", "method", "url", "version"}
            && m["body"] == body && m["headers"] == Obj(SignedHeaders(appId, headers))
            && m["method"] == Str(Upper(method_)) && m["url"] == Str(url) && m["version"] == Num("1")
  {
    hide SignedHeaders, Upper;
  }

  /** The pairs of an object for four or five keys. */
  lemma PairsOf(v: Json, lead: seq<string>, a: string, b: string, c: string, d: string)
    requires v.Obj? && forall k | k in lead + [a, b, c, d] :: k in v.members
    requires forall k | k in lead :: k in v.members
    ensures a in v.members && b in v.members && c in v.members && d in v.members
    ensures Pairs(v, lead + [a, b, c, d]) ==
            Pairs(v, lead) + [Pair(a, Print(v.members[a])), Pair(b, Print(v.members[b])), Pair(c, Print(v.members[c])),
                              Pair(d, Print(v.members[d]))]
  {
    hide Pair, Print;
    var ks := lead + [a, b, c, d];
    assert ks[|lead|] == a && ks[|lead| + 1] == b && ks[|lead| + 2] == c && ks[|lead| + 3] == d;
  }

  lemma PayloadPairs(method_: string, url: string, body: Json, appId: string, headers: Headers)
    ensures var v := Payload(method_, url, body, appId, headers);
            && (forall k | k in KeysFor(body) :: k in v.members)
            && Pairs(v, KeysFor(body)) == (if body == Null then [] else [Pair("body", Print(body))]) +
                 [Pair("headers", Print(Obj(SignedHeaders(appId, headers)))),
                  Pair("method", Quote(Upper(method_))), Pair("url", Quote(url)), Pair("version", "1")]
  {
    ScalarTexts(method_, url);
    PayloadMembers(method_, url, body, appId, headers);
    KeysSplit(body);
    hide Payload, SignedHeaders, Pair, Quote, Upper, Print, KeysFor;
    var v, lead := Payload(method_, url, body, appId, headers), if body == Null then [] else ["body"];
    PairsOf(v, lead, "headers", "method", "url", "version");
    assert Pairs(v, lead) == if body == Null then [] else [Pair("body", Print(body))];
  }

  lemma KeysSplit(body: Json)
    ensures KeysFor(body) == (if body == Null then [] else ["body"]) + ["headers", "method", "url", "version"]
  {
  }

  /** The signed text in full: body, headers, method, URL and version, in that order,
      with the body as its own canonical text unless it is null, the method in upper
      case and the version the number one. */
  lemma PayloadText(method_: string, url: string, body: Json, appId: string, headers: Headers)
    ensures Print(Payload(method_, url, body, appId, headers)) ==
            "{" + Joined((if body == Null then [] else [Pair("body", Print(body))]) +
                         [Pair("headers", Print(Obj(SignedHeaders(appId, headers)))),
                          Pair("method", Quote(Upper(method_))), Pair("url", Quote(url)), Pair("version", "1")]) + "}"
  {
    hide InOrder, SignedHeaders, Joined, Pair, Quote, Upper, Pairs, Print, KeysFor;
    PayloadInOrder(method_, url, body, appId, headers);
    PayloadPairs(method_, url, body, appId, headers);
    ObjectText(Payload(method_, url, body, appId, headers), KeysFor(body));
  }

  lemma ScalarTexts(method_: string, url: string)
    ensures Print(Str(Upper(method_))) == Quote(Upper(method_)) && Print(Str(url)) == Quote(url)
    ensures Print(Num("1")) == "1"
  {
  }

  function HeaderKeys(idem: string): seq<string> {
    if idem == "" then [APP_ID] else [APP_ID, IDEMPOTENCY_KEY]
  }

  lemma HeadersInOrder(appId: string, idem: string)
    ensures InOrder(Obj(SignedHeaders(appId, CallHeaders(idem))), HeaderKeys(idem))
  {
    assert APP_ID[..6] == "privy-" == IDEMPOTENCY_KEY[..6];
    assert BeforeAt(APP_ID, IDEMPOTENCY_KEY, 6);
    assert |APP_ID| != |IDEMPOTENCY_KEY|;
    assert Before(APP_ID, IDEMPOTENCY_KEY);
    hide Before, BeforeAt;
    var v := Obj(SignedHeaders(appId, CallHeaders(idem)));
    assert v.members.Keys == if idem == "" then {APP_ID} else {APP_ID, IDEMPOTENCY_KEY};
  }

  /** A call's headers in full: the app id, then the idempotency key when it has one. */
  lemma CallHeadersText(appId: string, idem: string)
    ensures Print(Obj(SignedHeaders(appId, CallHeaders(idem)))) ==
            "{" + Joined(if idem == "" then [Pair("privy-app-id", Quote(appId))]
                         else [Pair("privy-app-id", Quote(appId)), Pair("privy-idempotency-key", Quote(idem))]) + "}"
  {
    hide InOrder, Joined, Pair, Quote;
    var v := Obj(SignedHeaders(appId, CallHeaders(idem)));
    HeadersInOrder(appId, idem);
    ObjectText(v, HeaderKeys(idem));
    HeaderValues(appId, idem);
    hide Print;
    if idem == "" {
      assert Pairs(v, HeaderKeys(idem)) == [Pair(APP_ID, Quote(appId))];
    } else {
      assert Pairs(v, HeaderKeys(idem)) == [Pair(APP_ID, Quote(appId)), Pair(IDEMPOTENCY_KEY, Quote(idem))];
    }
  }

  lemma HeaderValues(appId: string, idem: string)
    ensures var m := SignedHeaders(appId, CallHeaders(idem));
            && APP_ID in m && Print(m[APP_ID]) == Quote(appId)
            && (idem != "" ==> IDEMPOTENCY_KEY in m && Print(m[IDEMPOTENCY_KEY]) == Quote(idem))
  {
    assert |APP_ID| != |IDEMPOTENCY_KEY|;
  }

  /** Every header sent is signed as it is, and the app id besides, unless a header of
      that name takes its place. */
  lemma HeadersOverride(appId: string, headers: Headers)
    ensures var signed := SignedHeaders(appId, headers);
            && signed.Keys == headers.Keys + {"privy-app-id"}
            && (forall k | k in headers :: signed[k] == headers[k])
            && (APP_ID !in headers ==> signed[APP_ID] == Str(appId))
  {
  }
}
