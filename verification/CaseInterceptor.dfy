/** The two ends of the key-case round trip (mobile/lib/core/api/case_interceptor.dart). */
module CaseInterceptor {
  import opened Basics
  import opened CaseConverter
  import opened JsonKeys

  class RequestOptions {
    var data: Json
    var queryParameters: seq<Entry>
    const skipCaseTransform: bool
    const contentType: Option<string>
    const contentTypeHeader: Option<string>

    constructor (data: Json, queryParameters: seq<Entry>, skip: bool,
                 contentType: Option<string>, contentTypeHeader: Option<string>)
      ensures this.data == data && this.queryParameters == queryParameters
      ensures skipCaseTransform == skip
      ensures this.contentType == contentType && this.contentTypeHeader == contentTypeHeader
    {
      this.data, this.queryParameters := data, queryParameters;
      skipCaseTransform := skip;
      this.contentType, this.contentTypeHeader := contentType, contentTypeHeader;
    }
  }

  class Response {
    var data: Json
    const requestOptions: RequestOptions

    constructor (data: Json, requestOptions: RequestOptions)
      ensures this.data == data && this.requestOptions == requestOptions
    {
      this.data, this.requestOptions := data, requestOptions;
    }
  }

  function Lowered(s: string): string {
    Map(s, ToLower)
  }

  predicate ContainsText(s: string, part: string) {
    part <= s || (s != "" && ContainsText(s[1..], part))
  }

  predicate IsJsonRequest(contentType: Option<string>, header: Option<string>) {
    var ct := if contentType.Some? then contentType else header;
    ct.None? || ContainsText(Lowered(ct.value), "application/json")
  }

  /** The body sent for a body handed to the client. */
  function SentBody(skip: bool, json: bool, data: Json): Json {
    if skip || !json then data else Converted(data, TO_SNAKE)
  }

  /** The body handed back for a body received. */
  function ReceivedBody(skip: bool, data: Json): Json {
    if skip then data else Converted(data, TO_CAMEL)
  }

  /** JSON is the default; a content type, of the options before the header, must name it in any case. */
  ghost predicate IsSentAsJson(contentType: Option<string>, header: Option<string>) {
    if contentType.Some? then NamesJson(contentType.value) else header.None? || NamesJson(header.value)
  }

  const JSON_TYPE := "application/json"

  /** Somewhere in the text the name of the type stands, whatever the case of its letters. */
  ghost predicate NamesJson(text: string) {
    exists i: nat :: StandsAt(text, i)
  }

  predicate StandsAt(text: string, i: nat) {
    i + |JSON_TYPE| <= |text| && forall k :: 0 <= k < |JSON_TYPE| ==> ToLower(text[i + k]) == JSON_TYPE[k]
  }

  predicate SliceAt(s: string, i: nat, part: string) {
    i + |part| <= |s| && s[i..i + |part|] == part
  }

  lemma {:induction false} LaterSlice(s: string, i: nat, part: string)
    requires s != ""
    ensures SliceAt(s[1..], i, part) <==> SliceAt(s, i + 1, part)
  {
    if i + 1 + |part| <= |s| {
      assert s[1..][i..i + |part|] == s[i + 1..i + 1 + |part|];
    }
  }

  lemma {:induction false} ContainsAt(s: string, part: string)
    ensures ContainsText(s, part) <==> exists i: nat :: SliceAt(s, i, part)
  {
    assert part <= s <==> SliceAt(s, 0, part);
    if s != "" {
      ContainsAt(s[1..], part);
      forall i: nat ensures SliceAt(s[1..], i, part) <==> SliceAt(s, i + 1, part) {
        LaterSlice(s, i, part);
      }
      forall i: nat | SliceAt(s, i, part) && i > 0 ensures SliceAt(s[1..], i - 1, part) {
        LaterSlice(s, i - 1, part);
      }
    }
  }

  lemma {:induction false} SliceStands(text: string, i: nat)
    ensures SliceAt(Lowered(text), i, JSON_TYPE) <==> StandsAt(text, i)
  {
    if i + |JSON_TYPE| <= |text| {
      var slice := Lowered(text)[i..i + |JSON_TYPE|];
      assert |slice| == |JSON_TYPE| && forall k :: 0 <= k < |JSON_TYPE| ==> slice[k] == ToLower(text[i + k]);
      if slice == JSON_TYPE {
        assert forall k :: 0 <= k < |JSON_TYPE| ==> ToLower(text[i + k]) == JSON_TYPE[k];
      }
    }
  }

  lemma {:induction false} ContainsJson(text: string)
    ensures ContainsText(Lowered(text), JSON_TYPE) <==> NamesJson(text)
  {
    ContainsAt(Lowered(text), JSON_TYPE);
    forall i: nat ensures StandsAt(text, i) <==> SliceAt(Lowered(text), i, JSON_TYPE) {
      SliceStands(text, i);
    }
  }

  lemma {:induction false} JsonRequests(contentType: Option<string>, header: Option<string>)
    ensures IsJsonRequest(contentType, header) <==> IsSentAsJson(contentType, header)
  {
    if contentType.Some? {
      ContainsJson(contentType.value);
    } else if header.Some? {
      ContainsJson(header.value);
    }
  }

  method OnRequest(options: RequestOptions)
    modifies options
    ensures if !options.skipCaseTransform && IsSentAsJson(options.contentType, options.contentTypeHeader)
            then options.data == Converted(old(options.data), TO_SNAKE) &&
                 options.queryParameters == ConvertedEntries(old(options.queryParameters), TO_SNAKE)
            else options.data == old(options.data) && options.queryParameters == old(options.queryParameters)
    ensures options.data == SentBody(options.skipCaseTransform,
                                     IsJsonRequest(options.contentType, options.contentTypeHeader), old(options.data))
    ensures options.queryParameters ==
            if options.skipCaseTransform || !IsJsonRequest(options.contentType, options.contentTypeHeader)
            then old(options.queryParameters)
            else ConvertedEntries(old(options.queryParameters), TO_SNAKE)
  {
    JsonRequests(options.contentType, options.contentTypeHeader);
    if options.skipCaseTransform || !IsJsonRequest(options.contentType, options.contentTypeHeader) {
      return;
    }
    if options.data.Object? || options.data.List? {
      options.data := ConvertKeys(options.data, TO_SNAKE);
    }
    if options.queryParameters != [] {
      var converted := ConvertKeys(Object(options.queryParameters), TO_SNAKE);
      options.queryParameters := converted.entries;
    }
  }

  method OnResponse(response: Response)
    modifies response
    ensures response.data == ReceivedBody(response.requestOptions.skipCaseTransform, old(response.data))
    ensures response.data == if response.requestOptions.skipCaseTransform then old(response.data)
                             else Converted(old(response.data), TO_CAMEL)
  {
    if response.requestOptions.skipCaseTransform {
      return;
    }
    if response.data.Object? || response.data.List? {
      response.data := ConvertKeys(response.data, TO_CAMEL);
    }
  }

  /** A tree of camel keys holds no '_' at all, so the response converter leaves it alone. */
  lemma {:induction false} CamelTreeFixed(v: Json)
    requires MapTree(v) && CamelTree(v)
    ensures Converted(v, TO_CAMEL) == v
    decreases v, 0
  {
    match v
    case Object(es) => CamelEntriesFixed(es);
    case List(js) => CamelItemsFixed(js);
    case Leaf(_) =>
  }

  lemma {:induction false} CamelEntriesFixed(es: seq<Entry>)
    requires MapEntries(es) && CamelEntries(es) && NoDuplicates(Keys(es))
    ensures ConvertedEntries(es, TO_CAMEL) == es
    decreases es, 1
  {
    if es != [] {
      assert es decreases to es[|es| - 1];
      PrefixDistinct(es);
      CamelEntriesFixed(es[..|es| - 1]);
      CamelTreeFixed(es[|es| - 1].val);
      FixedKey(es[|es| - 1].key);
      FixedLast(es, es[..|es| - 1], es[|es| - 1]);
    }
  }

  lemma {:induction false} FixedKey(k: Key)
    requires CamelKey(k)
    ensures NewKey(k, TO_CAMEL) == k
  {
    CamelWithoutUnderscore(k.text);
  }

  lemma {:induction false} FixedLast(es: seq<Entry>, front: seq<Entry>, e: Entry)
    requires es != [] && front == es[..|es| - 1] && e == es[|es| - 1]
    requires ConvertedEntries(front, TO_CAMEL) == front && e.key !in Keys(front)
    requires NewKey(e.key, TO_CAMEL) == e.key && Converted(e.val, TO_CAMEL) == e.val
    ensures ConvertedEntries(es, TO_CAMEL) == es
  {
    ConvertedLast(es, TO_CAMEL, front, e);
    assert es == front + [e];
  }

  lemma {:induction false} CamelItemsFixed(js: seq<Json>)
    requires MapItems(js) && CamelItems(js)
    ensures ConvertedItems(js, TO_CAMEL) == js
    decreases js, 1
  {
    if js != [] {
      CamelItemsFixed(js[..|js| - 1]);
      CamelTreeFixed(js[|js| - 1]);
      assert js == js[..|js| - 1] + [js[|js| - 1]];
    }
  }

  // ---------------------------------------------------------------- what reaches the backend

  /** Every key is a text of the form the backend uses. */
  ghost predicate SnakeTree(v: Json) {
    match v
    case Object(es) => SnakeEntries(es)
    case List(js) => SnakeItems(js)
    case Leaf(_) => true
  }

  ghost predicate SnakeEntries(es: seq<Entry>) {
    es == [] ||
    var e := es[|es| - 1];
    assert es decreases to e;
    SnakeEntries(es[..|es| - 1]) && e.key.Text? && IsSnakeKey(e.key.text) && SnakeTree(e.val)
  }

  ghost predicate SnakeItems(js: seq<Json>) {
    js == [] || (SnakeItems(js[..|js| - 1]) && SnakeTree(js[|js| - 1]))
  }

  lemma {:induction false} SnakePut(es: seq<Entry>, k: Key, v: Json)
    requires SnakeEntries(es) && k.Text? && IsSnakeKey(k.text) && SnakeTree(v)
    ensures SnakeEntries(Put(es, k, v))
  {
    if !HasKey(es, k) {
      assert (es + [Entry(k, v)])[..|es|] == es;
    } else if es[|es| - 1].key != k {
      SnakePut(es[..|es| - 1], k, v);
      assert Put(es, k, v)[..|Put(es, k, v)| - 1] == Put(es[..|es| - 1], k, v);
    }
  }

  /** A tree of canonical camel keys goes out with backend keys only. */
  lemma {:induction false} SentKeys(v: Json)
    requires CamelTree(v)
    ensures SnakeTree(Converted(v, TO_SNAKE))
    decreases v, 0
  {
    match v
    case Object(es) => SentEntryKeys(es);
    case List(js) => SentItemKeys(js);
    case Leaf(_) =>
  }

  lemma {:induction false} SentEntryKeys(es: seq<Entry>)
    requires CamelEntries(es)
    ensures SnakeEntries(ConvertedEntries(es, TO_SNAKE))
    decreases es, 1
  {
    if es != [] {
      var e := es[|es| - 1];
      assert es decreases to e;
      SentEntryKeys(es[..|es| - 1]);
      SentKeys(e.val);
      SnakeIsSnakeKey(e.key.text);
      SnakePut(ConvertedEntries(es[..|es| - 1], TO_SNAKE), Text(SnakeOf(e.key.text)), Converted(e.val, TO_SNAKE));
    }
  }

  lemma {:induction false} SentItemKeys(js: seq<Json>)
    requires CamelItems(js)
    ensures SnakeItems(ConvertedItems(js, TO_SNAKE))
    decreases js, 1
  {
    if js != [] {
      SentItemKeys(js[..|js| - 1]);
      SentKeys(js[|js| - 1]);
    }
  }

  lemma {:induction false} BackendImages(es: seq<Entry>)
    requires SnakeEntries(es)
    ensures |Images(es, TO_CAMEL)| == |es|
    ensures forall i :: 0 <= i < |es| ==>
              es[i].key.Text? && IsSnakeKey(es[i].key.text) &&
              Images(es, TO_CAMEL)[i] == Text(CamelOf(es[i].key.text))
  {
    if es != [] {
      BackendImages(es[..|es| - 1]);
    }
  }

  /** Distinct backend keys stay distinct on the client. */
  lemma {:induction false} FreshOnClient(front: seq<Entry>, k: Key)
    requires SnakeEntries(front) && k.Text? && IsSnakeKey(k.text) && k !in Keys(front)
    ensures NewKey(k, TO_CAMEL) !in Keys(ConvertedEntries(front, TO_CAMEL))
  {
    BackendImages(front);
    KeysIndexed(front);
    ConvertedKeys(front, TO_CAMEL);
    DedupMembers(Images(front, TO_CAMEL));
    forall i | 0 <= i < |front| ensures Images(front, TO_CAMEL)[i] != NewKey(k, TO_CAMEL) {
      ConvertersInjective(front[i].key.text, k.text);
      assert Keys(front)[i] in Keys(front);
    }
  }

  /** A converted entry that stands last comes back last. */
  lemma {:induction false} LastReturns(sent: seq<Entry>, last: Entry, front: seq<Entry>, e: Entry)
    requires ConvertedEntries(sent, TO_SNAKE) == front && e.key !in Keys(front)
    requires NewKey(last.key, TO_SNAKE) == e.key && Converted(last.val, TO_SNAKE) == e.val
    ensures ConvertedEntries(sent + [last], TO_SNAKE) == front + [e]
  {
    var all := sent + [last];
    assert all[..|all| - 1] == sent && all[|all| - 1] == last;
    ConvertedLast(all, TO_SNAKE, front, e);
  }

  lemma {:induction false} BackendKeyReturns(k: Key)
    requires k.Text? && IsSnakeKey(k.text)
    ensures NewKey(NewKey(k, TO_CAMEL), TO_SNAKE) == k
  {
    SnakeRoundTrip(k.text);
  }

  lemma {:induction false} LastBack(es: seq<Entry>, front: seq<Entry>, e: Entry)
    requires es != [] && front == es[..|es| - 1] && e == es[|es| - 1]
    requires SnakeEntries(front) && e.key.Text? && IsSnakeKey(e.key.text) && e.key !in Keys(front)
    requires ConvertedEntries(ConvertedEntries(front, TO_CAMEL), TO_SNAKE) == front
    requires Converted(Converted(e.val, TO_CAMEL), TO_SNAKE) == e.val
    ensures ConvertedEntries(ConvertedEntries(es, TO_CAMEL), TO_SNAKE) == es
  {
    var sent := ConvertedEntries(front, TO_CAMEL);
    var last := Entry(NewKey(e.key, TO_CAMEL), Converted(e.val, TO_CAMEL));
    FreshOnClient(front, e.key);
    ConvertedLast(es, TO_CAMEL, sent, last);
    BackendKeyReturns(e.key);
    LastReturns(sent, last, front, e);
    assert es == front + [e];
  }

  /** What the backend sends comes back to it unchanged, when its keys are backend keys. */
  lemma {:induction false} BackendTreeRoundTrip(v: Json)
    requires MapTree(v) && SnakeTree(v)
    ensures Converted(Converted(v, TO_CAMEL), TO_SNAKE) == v
    decreases v, 0
  {
    match v
    case Object(es) => BackendEntriesRoundTrip(es);
    case List(js) => BackendItemsRoundTrip(js);
    case Leaf(_) =>
  }

  lemma {:induction false} BackendEntriesRoundTrip(es: seq<Entry>)
    requires MapEntries(es) && SnakeEntries(es) && NoDuplicates(Keys(es))
    ensures ConvertedEntries(ConvertedEntries(es, TO_CAMEL), TO_SNAKE) == es
    decreases es, 1
  {
    if es != [] {
      var front, e := es[..|es| - 1], es[|es| - 1];
      assert es decreases to e;
      PrefixDistinct(es);
      BackendEntriesRoundTrip(front);
      BackendTreeRoundTrip(e.val);
      LastBack(es, front, e);
    }
  }

  lemma {:induction false} BackendItemsRoundTrip(js: seq<Json>)
    requires MapItems(js) && SnakeItems(js)
    ensures ConvertedItems(ConvertedItems(js, TO_CAMEL), TO_SNAKE) == js
    decreases js, 1
  {
    if js != [] {
      BackendItemsRoundTrip(js[..|js| - 1]);
      BackendTreeRoundTrip(js[|js| - 1]);
      var sent := ConvertedItems(js[..|js| - 1], TO_CAMEL);
      var last := Converted(js[|js| - 1], TO_CAMEL);
      assert (sent + [last])[..|sent|] == sent;
      assert js == js[..|js| - 1] + [js[|js| - 1]];
    }
  }

  /** Under the header every client request carries, canonical bodies arrive with backend keys only. */
  method SendDefault(data: Json, queryParameters: seq<Entry>) returns (options: RequestOptions)
    requires CamelTree(data) && CamelEntries(queryParameters)
    ensures options.data == Converted(data, TO_SNAKE) && SnakeTree(options.data)
    ensures SnakeEntries(options.queryParameters)
  {
    options := new RequestOptions(data, queryParameters, false, None, Some("application/json"));
    assert StandsAt("application/json", 0);
    OnRequest(options);
    SentKeys(data);
    SentEntryKeys(queryParameters);
  }

  // ---------------------------------------------------------------- round trips

  /**
   A body with canonical camel keys that the backend echoes comes back unchanged, whatever the
   opt-out flag and the content type; when both ends convert, no other body does.
   */
  lemma {:induction false} EchoedBodyUnchanged(skip: bool, json: bool, data: Json)
    requires MapTree(data)
    ensures CamelTree(data) ==> ReceivedBody(skip, SentBody(skip, json, data)) == data
    ensures !skip && json ==> (ReceivedBody(skip, SentBody(skip, json, data)) == data <==> CamelTree(data))
  {
    TreeRoundTrip(data);
    if CamelTree(data) {
      CamelTreeFixed(data);
    }
  }

  /** The same statement about the two interceptor calls on real request and response objects. */
  method Echo(options: RequestOptions) returns (response: Response)
    requires MapTree(options.data)
    modifies options
    ensures CamelTree(old(options.data)) ==> response.data == old(options.data)
    ensures !options.skipCaseTransform && IsJsonRequest(options.contentType, options.contentTypeHeader) ==>
              (response.data == old(options.data) <==> CamelTree(old(options.data)))
  {
    ghost var sent := options.data;
    OnRequest(options);
    response := new Response(options.data, options);
    OnResponse(response);
    EchoedBodyUnchanged(options.skipCaseTransform,
                        IsJsonRequest(options.contentType, options.contentTypeHeader), sent);
  }
}
