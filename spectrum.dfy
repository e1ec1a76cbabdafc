/**
 * The `Spectrum` client for the CA Spectrum OneClick REST API: how it turns model
 * handles, attribute ids, updates and search filters into requests, and how it turns
 * the responses into values or errors.
 *
 * The HTTP exchange itself is a parameter: every operation that talks to the server
 * takes `send`, which maps the request the client builds to the response the server
 * gives (its status code and its already-parsed XML document). The client's own
 * logic is everything on either side of that call.
 */
module SpectrumClient {
  import opened Wrappers
  import opened Numerals
  import opened ElementTree
  import opened Filters

  // ----- errors -----

  /** The client's exceptions, and the Python built-in ones its code lets escape. */
  datatype Error =
    | ConfigError(message: string)             // ValueError: no url
    | AuthError(message: string)               // SpectrumClientAuthException: HTTP 401
    | TransportError(status: int)              // HTTPError raised by requests' raise_for_status
    | ParameterError(detail: Option<string>)   // SpectrumClientParameterError; its message may be None
    | MissingElement                           // AttributeError: `.get` on a `find` that found nothing
    | EmptyList                                // IndexError: `[0]` of an empty list of updates or filters
    | NotAList                                 // TypeError: a list concatenated with a tuple

  const MissingUrlMessage := "Spectrum (OneClick) url must be provided either in the constructor or as an environment variable"
  const AuthFailureMessage := "Authorization Failure. Invalid user name or password."

  // ----- identifiers and values -----

  /** A Python value the client accepts where an id or a value goes: an int or a str. */
  datatype Scalar = Int(i: int) | Str(s: string)

  /**
   * A model handle or attribute id as the client sends it: `hex(n)` for an int, a
   * string unchanged.
   */
  function IdText(x: Scalar): (r: string)
    ensures x.Int? ==> ParseHex(r) == Some(x.i)
    ensures x.Str? ==> r == x.s
  {
    match x
    case Int(n) => HexRoundTrip(n); Hex(n)
    case Str(s) => s
  }

  /** A value as `str()` and string formatting write it: decimal for an int, a string unchanged. */
  function ValueText(x: Scalar): (r: string)
    ensures x.Int? ==> ParseDecimal(r) == Some(x.i)
    ensures x.Str? ==> r == x.s
  {
    match x
    case Int(n) => DecimalRoundTrip(n); Decimal(n)
    case Str(s) => s
  }

  /** An argument the client takes either as one item or as a list of items. */
  datatype OneOrMany<T> = One(item: T) | Many(items: seq<T>)

  /**
   * `if isinstance(x[0], (str, int)): x = [x]`: a bare item becomes a one-item list, a
   * list is kept, and indexing an empty list raises IndexError.
   */
  function AsList<T>(a: OneOrMany<T>): (r: Result<seq<T>, Error>)
    ensures a.One? ==> r.Success? && r.value == [a.item]
    ensures a.Many? ==> (r.Success? <==> |a.items| > 0)
    ensures a.Many? && r.Success? ==> r.value == a.items
    ensures r.Failure? ==> r.error == EmptyList
  {
    match a
    case One(x) => Success([x])
    case Many(xs) => if |xs| == 0 then Failure(EmptyList) else Success(xs)
  }

  // ----- requests and responses -----

  datatype Method = HttpGet | HttpPut | HttpPost

  /** What a request carries besides its query parameters. */
  datatype Body =
    | NoBody
      /** The model-search template around a filter. */
    | ModelSearch(throttleSize: nat, filter: string, requested: seq<string>)
      /** The event template: the address looked up, the event type and the varbinds. */
    | EventByIp(throttleSize: nat, address: string, eventType: string, varBinds: string)

  datatype Request = Request(verb: Method, url: string, params: seq<(string, string)>, body: Body)

  /** A response: its HTTP status and the XML document of its body. */
  datatype Response = Response(status: int, root: Element)

  const ResponseNamespace := "http://www.ca.com/spectrum/restful/schema/response"

  /** A tag of the response schema, as the prefix "ca" resolves in the client's queries. */
  function Ca(local: string): string {
    QName(ResponseNamespace, local)
  }

  /** The attributes every model search asks for. */
  const DefaultAttributes: seq<string> := [
    "0x129fa", // model handle
    "0x1006e", // model name
    "0x1000a", // condition
    "0x11ee8", // model class
    "0x129e7", // site id
    "0x12d7f", // IP address
    "0x1290c", // criticality
    "0x10000", // model type name
    "0x10001", // model type handle
    "0x23000e", // device type
    "0x11d42", // landscape name
    "0x1295d", // isManaged
    "0x11564", // notes
    "0x12db9" // ServiceDesk asset id
  ]

  const SearchThrottleSize := 9999
  const EventThrottleSize := 10

  // ----- error markers of a read -----

  /** A response element that may carry an `error` attribute, and the prefix of the message it raises. */
  datatype Marker = Marker(local: string, prefix: string)

  /** The markers a read inspects, in the order it inspects them. */
  const GetErrorMarkers: seq<Marker> := [
    Marker("model", "Model Error: "),
    Marker("attribute", ""),
    Marker("attribute-list", ""),
    Marker("model-responses", "Responses Error: ")
  ]

  /** The `error` attribute of the first element with that tag, None when there is no such element or attribute. */
  function ErrorOf(root: Element, local: string): Option<string> {
    match Find(root, Ca(local))
    case None => None
    case Some(e) => Get(e, "error")
  }

  /** A marker fires when its element is there and its `error` is a non-empty string (Python truthiness). */
  predicate Fires(root: Element, m: Marker) {
    var err := ErrorOf(root, m.local);
    err.Some? && err.value != ""
  }

  /** The index of the first marker that fires, or |ms| when none does. */
  function FirstFiring(root: Element, ms: seq<Marker>): (k: nat)
    ensures k <= |ms|
    ensures forall j :: 0 <= j < k ==> !Fires(root, ms[j])
    ensures k < |ms| ==> Fires(root, ms[k])
  {
    if ms == [] then 0
    else if Fires(root, ms[0]) then 0
    else 1 + FirstFiring(root, ms[1..])
  }

  /** Unfolds FirstFiring over the four markers of a read. */
  lemma FirstFiringOfGetMarkers(root: Element)
    ensures FirstFiring(root, GetErrorMarkers) ==
      if Fires(root, GetErrorMarkers[0]) then 0
      else if Fires(root, GetErrorMarkers[1]) then 1
      else if Fires(root, GetErrorMarkers[2]) then 2
      else if Fires(root, GetErrorMarkers[3]) then 3
      else 4
    ensures Fires(root, GetErrorMarkers[1]) ==> MarkerMessage(root, GetErrorMarkers[1]) == ErrorOf(root, "attribute").value
    ensures Fires(root, GetErrorMarkers[2]) ==> MarkerMessage(root, GetErrorMarkers[2]) == ErrorOf(root, "attribute-list").value
  {
    var ms := GetErrorMarkers;
    assert forall v: string :: "" + v == v;
    assert ms[1..][1..][1..][1..] == [];
    assert ms[1..][0] == ms[1] && ms[1..][1..][0] == ms[2] && ms[1..][1..][1..][0] == ms[3];
  }

  /** The message a fired marker raises. */
  function MarkerMessage(root: Element, m: Marker): string
    requires Fires(root, m)
  {
    m.prefix + ErrorOf(root, m.local).value
  }

  // ----- search results -----

  /** The result of a search: model handle to (attribute id to attribute text); a missing attribute or text is None. */
  type ModelMap = map<Option<string>, map<Option<string>, Option<string>>>

  /** Whether no later pair has the same key as pair `i`. */
  predicate LastOfKey<K(==), V>(pairs: seq<(K, V)>, i: int)
    requires 0 <= i < |pairs|
  {
    forall j :: i < j < |pairs| ==> pairs[j].0 != pairs[i].0
  }

  /** A Python dict comprehension over pairs in order: each pair in turn sets its key, later pairs overwriting earlier ones. */
  function Dict<K(==), V>(pairs: seq<(K, V)>): map<K, V> {
    if pairs == [] then map[]
    else
      var n := |pairs| - 1;
      Dict(pairs[..n])[pairs[n].0 := pairs[n].1]
  }

  /** The keys of the dict are exactly the keys of the pairs. */
  lemma {:induction false} DictKeys<K, V>(pairs: seq<(K, V)>)
    ensures Dict(pairs).Keys == set i | 0 <= i < |pairs| :: pairs[i].0
  {
    if pairs != [] {
      var n := |pairs| - 1;
      var init := pairs[..n];
      DictKeys(init);
      var before := set i | 0 <= i < n :: init[i].0;
      var after := set i | 0 <= i < |pairs| :: pairs[i].0;
      assert before + {pairs[n].0} == after by {
        forall k | k in after ensures k in before + {pairs[n].0} {
          var i :| 0 <= i < |pairs| && pairs[i].0 == k;
          if i < n { assert init[i] == pairs[i]; }
        }
        forall k | k in before ensures k in after {
          var i :| 0 <= i < n && init[i].0 == k;
          assert pairs[i] == init[i];
        }
      }
    }
  }

  /** When pair i is keyed by item i, the keys of the dict are the keys of the items. */
  lemma DictKeysOf<T, K, V>(items: seq<T>, pairs: seq<(K, V)>, key: T -> K)
    requires |pairs| == |items|
    requires forall i :: 0 <= i < |items| ==> pairs[i].0 == key(items[i])
    ensures Dict(pairs).Keys == set x | x in items :: key(x)
  {
    DictKeys(pairs);
    assert (set i | 0 <= i < |pairs| :: pairs[i].0) == set x | x in items :: key(x) by {
      forall x | x in items ensures key(x) in set i | 0 <= i < |pairs| :: pairs[i].0 {
        var i :| 0 <= i < |items| && items[i] == x;
        assert pairs[i].0 == key(x);
      }
    }
  }

  /** A key maps to the value of its last pair. */
  lemma {:induction false} DictLast<K, V>(pairs: seq<(K, V)>, i: int)
    requires 0 <= i < |pairs| && LastOfKey(pairs, i)
    ensures pairs[i].0 in Dict(pairs) && Dict(pairs)[pairs[i].0] == pairs[i].1
  {
    var n := |pairs| - 1;
    if i < n {
      var init := pairs[..n];
      assert init[i] == pairs[i];
      assert LastOfKey(init, i) by {
        forall j | i < j < n ensures init[j].0 != init[i].0 {
          assert init[j] == pairs[j];
        }
      }
      DictLast(init, i);
      assert pairs[n].0 != pairs[i].0;
    }
  }

  /** `{attr.get("id"): attr.text for attr in model.getchildren()}`. */
  function AttributeMap(model: Element): (r: map<Option<string>, Option<string>>)
    ensures r.Keys == set a | a in model.children :: Get(a, "id")
  {
    var cs := model.children;
    var pairs := seq(|cs|, i requires 0 <= i < |cs| => (Get(cs[i], "id"), cs[i].text));
    DictKeysOf(cs, pairs, a => Get(a, "id"));
    Dict(pairs)
  }

  /** `{model.get("mh"): ... for model in root.findall(".//ca:model")}`. */
  function ModelMapOf(root: Element): (r: ModelMap)
    ensures r.Keys == set m | m in FindAll(root, Ca("model")) :: Get(m, "mh")
  {
    var ms := FindAll(root, Ca("model"));
    var pairs := seq(|ms|, i requires 0 <= i < |ms| => (Get(ms[i], "mh"), AttributeMap(ms[i])));
    DictKeysOf(ms, pairs, m => Get(m, "mh"));
    Dict(pairs)
  }

  // ----- filters -----

  /** A filter as the client takes it: (attribute id, operation, value). */
  type Triple = (Scalar, string, Scalar)

  /** The criterion a triple becomes: the id through `hex` when it is an int, the value through `str`. */
  function ToClause(t: Triple): Clause {
    Clause(t.1, IdText(t.0), ValueText(t.2))
  }

  function ToClauses(ts: seq<Triple>): (cs: seq<Clause>)
    ensures |cs| == |ts| && forall i :: 0 <= i < |ts| ==> cs[i] == ToClause(ts[i])
  {
    seq(|ts|, i requires 0 <= i < |ts| => ToClause(ts[i]))
  }

  const ModelHandleAttribute := "0x129fa"

  /** How far above a landscape's first model handle its last one lies. */
  const LandscapeSpan := 0xfffff

  /** The two bounds on the model handle that keep a search inside landscape `landscape`. */
  function LandscapeClauses(landscape: int): seq<Clause> {
    [Clause("greater-than", ModelHandleAttribute, Hex(landscape)),
     Clause("less-than", ModelHandleAttribute, Hex(landscape + LandscapeSpan))]
  }

  /** `if landscape:`: no landscape, and landscape 0, leave the search unbounded. */
  predicate LandscapeGiven(landscape: Option<int>) {
    landscape.Some? && landscape.value != 0
  }

  /** The filter `devices_by_filters` puts before the caller's: models derived from the Device model type. */
  const DeviceOnly: Triple := (Int(0x10001), "is-derived-from", Int(0x1004b))

  const ModelNameAttribute := "0x1006e"

  function EqualsTriple(attr: Scalar, value: Scalar): Triple {
    (attr, "equals", value)
  }

  function NameTriple(regex: string): Triple {
    (Str(ModelNameAttribute), "has-pcre", Str(regex))
  }

  /** The landscape bounds a search carries: none without a landscape. */
  function Bounds(landscape: Option<int>): seq<Clause> {
    if LandscapeGiven(landscape) then LandscapeClauses(landscape.value) else []
  }

  /** A triple whose text cannot end a field of its criterion early. */
  predicate TriplePlain(t: Triple) {
    && Lacks(t.1, '>')
    && (t.0.Str? ==> Lacks(t.0.s, '"'))
    && (t.2.Str? ==> Lacks(t.2.s, '<'))
  }

  /** The criteria of a search, in the order the `<and>` block lists them: the landscape bounds, then the filters. */
  function Criteria(filters: OneOrMany<Triple>, landscape: Option<int>): Result<seq<Clause>, Error> {
    var ts :- AsList(filters);
    Success(Bounds(landscape) + ToClauses(ts))
  }

  /**
   * A search fails only on an empty list, and otherwise lists the two landscape bounds first
   * (when a landscape is given) and then one criterion per filter, in the caller's order.
   */
  lemma CriteriaLayout(filters: OneOrMany<Triple>, landscape: Option<int>)
    ensures Criteria(filters, landscape).Success? <==> AsList(filters).Success?
    ensures Criteria(filters, landscape).Failure? ==> Criteria(filters, landscape).error == EmptyList
    ensures Criteria(filters, landscape).Success? ==>
      var r, ts := Criteria(filters, landscape).value, AsList(filters).value;
      var n := if LandscapeGiven(landscape) then 2 else 0;
      && |r| == n + |ts|
      && (LandscapeGiven(landscape) ==> r[..2] == LandscapeClauses(landscape.value))
      && r[n..] == ToClauses(ts)
  {
    if AsList(filters).Success? {
      CriteriaOfList(filters, landscape);
      var ts := AsList(filters).value;
      var r, b, cs := Criteria(filters, landscape).value, Bounds(landscape), ToClauses(ts);
      var n := if LandscapeGiven(landscape) then 2 else 0;
      assert r == b + cs && |b| == n;
      assert r[..n] == b && r[n..] == cs;
    } else {
      assert Criteria(filters, landscape) == Failure(EmptyList);
    }
  }

  // ----- update parameters -----

  /**
   * The query parameters of an update: for each (attribute id, value) pair, an "attr"
   * parameter with the normalised id followed by a "val" parameter with the value.
   */
  function UpdateParams(updates: seq<(Scalar, Scalar)>): (r: seq<(string, string)>)
    ensures |r| == 2 * |updates|
  {
    if updates == [] then []
    else [("attr", IdText(updates[0].0)), ("val", ValueText(updates[0].1))] + UpdateParams(updates[1..])
  }

  /** Pair `i` of the updates sits at positions 2i and 2i+1 of the parameters, in that order. */
  lemma {:induction false} UpdateParamsAt(updates: seq<(Scalar, Scalar)>, i: nat)
    requires i < |updates|
    ensures UpdateParams(updates)[2 * i] == ("attr", IdText(updates[i].0))
    ensures UpdateParams(updates)[2 * i + 1] == ("val", ValueText(updates[i].1))
  {
    var head := [("attr", IdText(updates[0].0)), ("val", ValueText(updates[0].1))];
    var rest := UpdateParams(updates[1..]);
    assert UpdateParams(updates) == head + rest;
    if i > 0 {
      UpdateParamsAt(updates[1..], i - 1);
      assert updates[1..][i - 1] == updates[i];
      assert 2 * i == 2 + 2 * (i - 1);
      assert (head + rest)[2 * i] == rest[2 * (i - 1)];
      assert (head + rest)[2 * i + 1] == rest[2 * (i - 1) + 1];
    }
  }

  // ----- varbinds -----

  /** One variable binding of an event, key and value written with `str`, the id unquoted. */
  function VarBind(key: Scalar, value: Scalar): string {
    "<rs:varbind id=" + ValueText(key) + ">" + ValueText(value) + "</rs:varbind>"
  }

  /** The bindings one after the other, in the order of the variables. */
  function VarBindsText(variables: seq<(Scalar, Scalar)>): string {
    if variables == [] then ""
    else
      var n := |variables| - 1;
      VarBindsText(variables[..n]) + VarBind(variables[n].0, variables[n].1)
  }

  // ----- the client -----

  /** `url[:-1]` when the url ends with "/", the url itself otherwise. */
  function StripTrailingSlash(url: string): (r: string)
    ensures |url| > 0 && url[|url| - 1] == '/' ==> r + "/" == url
    ensures !(|url| > 0 && url[|url| - 1] == '/') ==> r == url
  {
    if |url| > 0 && url[|url| - 1] == '/' then url[..|url| - 1] else url
  }

  class Spectrum {
    /** The server's base url, without a trailing "/". */
    const url: string
    const username: Option<string>
    const password: Option<string>

    /** The client for a url that was given (not None). */
    constructor (url: string, username: Option<string>, password: Option<string>)
      ensures this.url == StripTrailingSlash(url)
      ensures this.username == username && this.password == password
    {
      this.url := StripTrailingSlash(url);
      this.username := username;
      this.password := password;
    }

    /** `Spectrum(url, username, password)`: raises ValueError when there is no url. */
    static method Connect(url: Option<string>, username: Option<string>, password: Option<string>)
      returns (r: Result<Spectrum, Error>)
      ensures url.None? ==> r == Failure(ConfigError(MissingUrlMessage))
      ensures url.Some? ==> r.Success? && fresh(r.value) && r.value.url == StripTrailingSlash(url.value)
    {
      if url.None? {
        return Failure(ConfigError(MissingUrlMessage));
      }
      var client := new Spectrum(url.value, username, password);
      return Success(client);
    }

    /** `_check_http_response`: 401 is an authentication failure, any other 4xx or 5xx a transport failure. */
    static function CheckHttpResponse(status: int): (r: Result<(), Error>)
      ensures r.Success? <==> !(400 <= status < 600)
      ensures status == 401 ==> r == Failure(AuthError(AuthFailureMessage))
      ensures 400 <= status < 600 && status != 401 ==> r == Failure(TransportError(status))
    {
      if status == 401 then Failure(AuthError(AuthFailureMessage))
      else if 400 <= status < 600 then Failure(TransportError(status))
      else Success(())
    }

    /** `_parse_get`: the HTTP check, then the error markers in order; the first that fires raises. */
    static function ParseGet(res: Response): (r: Result<(), Error>)
      ensures CheckHttpResponse(res.status).Failure? ==> r == Failure(CheckHttpResponse(res.status).error)
      ensures CheckHttpResponse(res.status).Success? ==>
        var k := FirstFiring(res.root, GetErrorMarkers);
        && (r.Success? <==> k == |GetErrorMarkers|)
        && (k < |GetErrorMarkers| ==> r == Failure(ParameterError(Some(MarkerMessage(res.root, GetErrorMarkers[k])))))
    {
      var _ :- CheckHttpResponse(res.status);
      var root := res.root;
      FirstFiringOfGetMarkers(root);
      var modelError := ErrorOf(root, "model");
      if modelError.Some? && modelError.value != "" then
        Failure(ParameterError(Some("Model Error: " + modelError.value)))
      else
        var attrError := ErrorOf(root, "attribute");
        if attrError.Some? && attrError.value != "" then
          Failure(ParameterError(Some(attrError.value)))
        else
          var listError := ErrorOf(root, "attribute-list");
          if listError.Some? && listError.value != "" then
            Failure(ParameterError(Some(listError.value)))
          else
            var responsesError := ErrorOf(root, "model-responses");
            if responsesError.Some? && responsesError.value != "" then
              Failure(ParameterError(Some("Responses Error: " + responsesError.value)))
            else
              Success(())
    }

    /**
     * `_parse_update`: the model element's `error` decides. "Success" returns, "PartialFailure"
     * raises the first attribute element's `error-message`, anything else the model element's.
     * A missing element raises AttributeError.
     */
    static function ParseUpdate(res: Response): (r: Result<(), Error>)
      ensures CheckHttpResponse(res.status).Failure? ==> r == Failure(CheckHttpResponse(res.status).error)
      ensures r.Success? <==>
        && CheckHttpResponse(res.status).Success?
        && Find(res.root, Ca("model")).Some?
        && Get(Find(res.root, Ca("model")).value, "error") == Some("Success")
      ensures CheckHttpResponse(res.status).Success? && Find(res.root, Ca("model")).None? ==> r == Failure(MissingElement)
      ensures CheckHttpResponse(res.status).Success? && Find(res.root, Ca("model")).Some? ==>
        var status := Get(Find(res.root, Ca("model")).value, "error");
        var attr := Find(res.root, Ca("attribute"));
        && (status == Some("PartialFailure") ==>
              r == if attr.Some? then Failure(ParameterError(Get(attr.value, "error-message"))) else Failure(MissingElement))
        && (status != Some("Success") && status != Some("PartialFailure") ==>
              r == Failure(ParameterError(Get(Find(res.root, Ca("model")).value, "error-message"))))
    {
      var _ :- CheckHttpResponse(res.status);
      match Find(res.root, Ca("model"))
      case None => Failure(MissingElement)
      case Some(model) =>
        if Get(model, "error") == Some("Success") then Success(())
        else if Get(model, "error") == Some("PartialFailure") then
          match Find(res.root, Ca("attribute"))
          case None => Failure(MissingElement)
          case Some(attr) => Failure(ParameterError(Get(attr, "error-message")))
        else
          Failure(ParameterError(Get(model, "error-message")))
    }

    /** The url of one model. */
    function ModelUrl(modelHandle: Scalar): string {
      url + "/spectrum/restful/model/" + IdText(modelHandle)
    }

    /** The request `get_attribute` sends: a GET of the model with the attribute as the "attr" parameter. */
    function GetAttributeRequest(modelHandle: Scalar, attrId: Scalar): (r: Request)
      ensures r.verb == HttpGet && r.body == NoBody
      ensures r.url == url + "/spectrum/restful/model/" + IdText(modelHandle)
      ensures r.params == [("attr", IdText(attrId))]
    {
      Request(HttpGet, ModelUrl(modelHandle), [("attr", IdText(attrId))], NoBody)
    }

    /**
     * `get_attribute`: once the read's checks pass, the first model element of the response,
     * or None when there is none.
     */
    function GetAttribute(modelHandle: Scalar, attrId: Scalar, send: Request -> Response): (r: Result<Option<Element>, Error>)
      ensures var res := send(GetAttributeRequest(modelHandle, attrId));
        && (r.Success? <==> ParseGet(res).Success?)
        && (r.Failure? ==> r.error == ParseGet(res).error)
        && (r.Success? ==> r.value == Find(res.root, Ca("model")))
    {
      var res := send(GetAttributeRequest(modelHandle, attrId));
      var _ :- ParseGet(res);
      Success(Find(res.root, Ca("model")))
    }

    /** The first element of the response with one of the read's tags, tried in the order model, attribute, attribute-list. */
    static function FirstOfReadTags(root: Element): (r: Option<Element>)
      ensures r.None? <==> Find(root, Ca("model")).None? && Find(root, Ca("attribute")).None? && Find(root, Ca("attribute-list")).None?
      ensures Find(root, Ca("model")).Some? ==> r == Find(root, Ca("model"))
      ensures Find(root, Ca("model")).None? && Find(root, Ca("attribute")).Some? ==> r == Find(root, Ca("attribute"))
      ensures Find(root, Ca("model")).None? && Find(root, Ca("attribute")).None? ==> r == Find(root, Ca("attribute-list"))
      ensures r.Some? ==> r.value in Descendants(root) && r.value.tag in {Ca("model"), Ca("attribute"), Ca("attribute-list")}
    {
      FindFindsDescendant(root, Ca("model"));
      FindFindsDescendant(root, Ca("attribute"));
      FindFindsDescendant(root, Ca("attribute-list"));
      match Find(root, Ca("model"))
      case Some(m) => Some(m)
      case None =>
        match Find(root, Ca("attribute"))
        case Some(a) => Some(a)
        case None => Find(root, Ca("attribute-list"))
    }

    /**
     * `get_attribute` as its three `try` blocks evidently intend: the first model element, and
     * only when there is none, the first attribute element, then the first attribute-list element.
     */
    function GetAttributeWithFallback(modelHandle: Scalar, attrId: Scalar, send: Request -> Response)
      : (r: Result<Option<Element>, Error>)
      ensures var res := send(GetAttributeRequest(modelHandle, attrId));
        && (r.Success? <==> ParseGet(res).Success?)
        && (r.Failure? ==> r.error == ParseGet(res).error)
        && (r.Success? ==> r.value == FirstOfReadTags(res.root))
    {
      var res := send(GetAttributeRequest(modelHandle, attrId));
      var _ :- ParseGet(res);
      Success(FirstOfReadTags(res.root))
    }

    /** The request `update_attributes` sends: a PUT of the model with the flattened pairs; an empty list raises first. */
    function UpdateRequest(modelHandle: Scalar, updates: OneOrMany<(Scalar, Scalar)>): (r: Result<Request, Error>)
      ensures r.Success? <==> AsList(updates).Success?
      ensures r.Failure? ==> r.error == EmptyList
      ensures r.Success? ==> r.value.verb == HttpPut && r.value.url == ModelUrl(modelHandle) && r.value.body == NoBody
      ensures r.Success? ==> r.value.params == UpdateParams(AsList(updates).value)
    {
      var pairs :- AsList(updates);
      Success(Request(HttpPut, ModelUrl(modelHandle), UpdateParams(pairs), NoBody))
    }

    /** `update_attributes`. */
    function UpdateAttributes(modelHandle: Scalar, updates: OneOrMany<(Scalar, Scalar)>, send: Request -> Response)
      : (r: Result<(), Error>)
      ensures UpdateRequest(modelHandle, updates).Failure? ==> r == Failure(EmptyList)
      ensures UpdateRequest(modelHandle, updates).Success? ==> r == ParseUpdate(send(UpdateRequest(modelHandle, updates).value))
    {
      var req :- UpdateRequest(modelHandle, updates);
      ParseUpdate(send(req))
    }

    /** `update_attribute`: one pair, sent as an "attr" and a "val" parameter. */
    function UpdateAttribute(modelHandle: Scalar, attrId: Scalar, value: Scalar, send: Request -> Response): (r: Result<(), Error>)
      ensures r == ParseUpdate(send(Request(HttpPut, ModelUrl(modelHandle), [("attr", IdText(attrId)), ("val", ValueText(value))], NoBody)))
    {
      assert UpdateParams([(attrId, value)]) == [("attr", IdText(attrId)), ("val", ValueText(value))] by {
        assert [(attrId, value)][1..] == [];
      }
      UpdateAttributes(modelHandle, One((attrId, value)), send)
    }

    /** `set_maintenance`: maintenance on means isManaged (0x1295d) "False", off means "True". */
    function SetMaintenance(modelHandle: Scalar, on: bool, send: Request -> Response): (r: Result<(), Error>)
      ensures r == ParseUpdate(send(Request(HttpPut, ModelUrl(modelHandle),
                                            [("attr", "0x1295d"), ("val", if on then "False" else "True")], NoBody)))
    {
      assert Hex(0x1295d) == "0x1295d";
      UpdateAttribute(modelHandle, Int(0x1295d), Str(if on then "False" else "True"), send)
    }

    /** `xml_landscape_filter`: the two landscape bounds as XML text. */
    static function XmlLandscapeFilter(landscape: int): (r: string)
      ensures ParseClauses(r + "</and>") == Some(LandscapeClauses(landscape))
    {
      LandscapeClausesPlain(landscape);
      ParseRenderClauses(LandscapeClauses(landscape));
      RenderClauses(LandscapeClauses(landscape))
    }

    /** `_build_filter`: the `<and>` block of the landscape bounds (when a landscape is given) and the filters. */
    static function BuildFilter(filters: OneOrMany<Triple>, landscape: Option<int>): (r: Result<string, Error>)
      ensures r.Success? <==> Criteria(filters, landscape).Success?
      ensures r.Failure? ==> r.error == EmptyList
      ensures r.Success? ==> r.value == RenderAnd(Criteria(filters, landscape).value)
    {
      var ts :- AsList(filters);
      var landscapeFilter := if LandscapeGiven(landscape) then XmlLandscapeFilter(landscape.value) else "";
      assert landscapeFilter == RenderClauses(Bounds(landscape));
      CriteriaOfList(filters, landscape);
      RenderAndAppend(Bounds(landscape), ToClauses(ts));
      Success("<and>" + landscapeFilter + RenderClauses(ToClauses(ts)) + "</and>")
    }

    /** The request a search sends: a POST of the model-search template around the filter. */
    function SearchRequest(filter: string): (r: Request)
      ensures r.verb == HttpPost && r.url == url + "/spectrum/restful/models" && r.params == []
      ensures r.body.ModelSearch? && r.body.filter == filter
      ensures r.body.throttleSize == 9999 && r.body.requested == DefaultAttributes
    {
      Request(HttpPost, url + "/spectrum/restful/models", [], ModelSearch(SearchThrottleSize, filter, DefaultAttributes))
    }

    /** `search_models`: after the HTTP check, each model element's handle mapped to its attributes. */
    static function SearchResult(res: Response): (r: Result<ModelMap, Error>)
      ensures r.Success? <==> CheckHttpResponse(res.status).Success?
      ensures r.Failure? ==> r.error == CheckHttpResponse(res.status).error
      ensures r.Success? ==> r.value == ModelMapOf(res.root)
    {
      var _ :- CheckHttpResponse(res.status);
      Success(ModelMapOf(res.root))
    }

    /** The request `models_by_filters` sends: a search for the criteria; an empty list raises first. */
    function ModelsSearch(filters: OneOrMany<Triple>, landscape: Option<int>): (r: Result<Request, Error>)
      ensures r.Success? <==> Criteria(filters, landscape).Success?
      ensures r.Failure? ==> r.error == EmptyList
      ensures r.Success? ==> r.value == SearchRequest(RenderAnd(Criteria(filters, landscape).value))
    {
      var filter :- BuildFilter(filters, landscape);
      Success(SearchRequest(filter))
    }

    /**
     * The request `devices_by_filters` sends: the Device filter goes before the caller's, after
     * the landscape bounds; a bare triple cannot be prepended to and raises TypeError.
     */
    function DevicesSearch(filters: OneOrMany<Triple>, landscape: Option<int>): (r: Result<Request, Error>)
      ensures r.Failure? <==> filters.One?
      ensures r.Failure? ==> r.error == NotAList
      ensures filters.Many? ==>
        r.value == SearchRequest(RenderAnd(Bounds(landscape) + [ToClause(DeviceOnly)] + ToClauses(filters.items)))
    {
      match filters
      case One(_) => Failure(NotAList)
      case Many(ts) =>
        PrependCriteria(DeviceOnly, ts, landscape);
        ModelsSearch(Many([DeviceOnly] + ts), landscape)
    }

    /** `models_by_filters`: the search for the criteria, or IndexError on an empty list before anything is sent. */
    function ModelsByFilters(filters: OneOrMany<Triple>, landscape: Option<int>, send: Request -> Response)
      : (r: Result<ModelMap, Error>)
      ensures Criteria(filters, landscape).Failure? ==> r == Failure(EmptyList)
      ensures Criteria(filters, landscape).Success? ==>
        r == SearchResult(send(SearchRequest(RenderAnd(Criteria(filters, landscape).value))))
    {
      var req :- ModelsSearch(filters, landscape);
      SearchResult(send(req))
    }

    /** `devices_by_filters`: the search for the bounds, the Device filter and the caller's filters, in that order. */
    function DevicesByFilters(filters: OneOrMany<Triple>, landscape: Option<int>, send: Request -> Response)
      : (r: Result<ModelMap, Error>)
      ensures filters.One? ==> r == Failure(NotAList)
      ensures filters.Many? ==>
        r == SearchResult(send(SearchRequest(RenderAnd(Bounds(landscape) + [ToClause(DeviceOnly)] + ToClauses(filters.items)))))
    {
      var req :- DevicesSearch(filters, landscape);
      SearchResult(send(req))
    }

    /** `devices_by_attr`: devices whose attribute equals the value. */
    function DevicesByAttr(attr: Scalar, value: Scalar, landscape: Option<int>, send: Request -> Response)
      : (r: Result<ModelMap, Error>)
      ensures r == SearchResult(send(SearchRequest(RenderAnd(
        Bounds(landscape) + [ToClause(DeviceOnly), Clause("equals", IdText(attr), ValueText(value))]))))
    {
      assert ToClauses([EqualsTriple(attr, value)]) == [ToClause(EqualsTriple(attr, value))];
      AppendTwo(Bounds(landscape), ToClause(DeviceOnly), ToClause(EqualsTriple(attr, value)));
      DevicesByFilters(Many([EqualsTriple(attr, value)]), landscape, send)
    }

    /** `devices_by_name`: devices whose name matches the pattern. */
    function DevicesByName(regex: string, landscape: Option<int>, send: Request -> Response): (r: Result<ModelMap, Error>)
      ensures r == SearchResult(send(SearchRequest(RenderAnd(
        Bounds(landscape) + [ToClause(DeviceOnly), Clause("has-pcre", ModelNameAttribute, regex)]))))
    {
      assert ToClauses([NameTriple(regex)]) == [ToClause(NameTriple(regex))];
      AppendTwo(Bounds(landscape), ToClause(DeviceOnly), ToClause(NameTriple(regex)));
      DevicesByFilters(Many([NameTriple(regex)]), landscape, send)
    }

    /** `models_by_attr`: models whose attribute equals the value. */
    function ModelsByAttr(attr: Scalar, value: Scalar, landscape: Option<int>, send: Request -> Response)
      : (r: Result<ModelMap, Error>)
      ensures r == SearchResult(send(SearchRequest(RenderAnd(Bounds(landscape) + [Clause("equals", IdText(attr), ValueText(value))]))))
    {
      CriteriaOfList(Many([EqualsTriple(attr, value)]), landscape);
      assert ToClauses([EqualsTriple(attr, value)]) == [ToClause(EqualsTriple(attr, value))];
      ModelsByFilters(Many([EqualsTriple(attr, value)]), landscape, send)
    }

    /** `models_by_name`: models whose name matches the pattern. */
    function ModelsByName(regex: string, landscape: Option<int>, send: Request -> Response): (r: Result<ModelMap, Error>)
      ensures r == SearchResult(send(SearchRequest(RenderAnd(Bounds(landscape) + [Clause("has-pcre", ModelNameAttribute, regex)]))))
    {
      CriteriaOfList(Many([NameTriple(regex)]), landscape);
      assert ToClauses([NameTriple(regex)]) == [ToClause(NameTriple(regex))];
      ModelsByFilters(Many([NameTriple(regex)]), landscape, send)
    }

    /** The varbinds of an event, appended one variable at a time. */
    static method VarBinds(variables: seq<(Scalar, Scalar)>) returns (s: string)
      ensures s == VarBindsText(variables)
    {
      s := "";
      for i := 0 to |variables|
        invariant s == VarBindsText(variables[..i])
      {
        assert variables[..i + 1][..i] == variables[..i];
        s := s + VarBind(variables[i].0, variables[i].1);
      }
      assert variables[..|variables|] == variables;
    }

    /** `generate_event_by_ip`: posts the event request and returns the response as it is. */
    method GenerateEventByIp(event: Scalar, address: Scalar, variables: seq<(Scalar, Scalar)>, send: Request -> Response)
      returns (res: Response)
      ensures res == send(Request(HttpPost, url + "/spectrum/restful/events", [],
                                  EventByIp(EventThrottleSize, ValueText(address), ValueText(event), VarBindsText(variables))))
    {
      var varBinds := VarBinds(variables);
      var body := EventByIp(EventThrottleSize, ValueText(address), ValueText(event), varBinds);
      res := send(Request(HttpPost, url + "/spectrum/restful/events", [], body));
    }
  }

  // ----- properties -----

  /** A 401 is an authentication failure for every operation, whatever the document says. */
  lemma UnauthorizedWhateverTheBody(res: Response)
    requires res.status == 401
    ensures Spectrum.ParseGet(res) == Failure(AuthError(AuthFailureMessage))
    ensures Spectrum.ParseUpdate(res) == Failure(AuthError(AuthFailureMessage))
    ensures Spectrum.SearchResult(res) == Failure(AuthError(AuthFailureMessage))
  {
  }

  /**
   * What `get_attribute` returns when it returns: the first model element of the response,
   * which carries no error (the check would have raised), or None when there is no model element.
   */
  lemma GetAttributeReturnsFirstModel(c: Spectrum, modelHandle: Scalar, attrId: Scalar, send: Request -> Response)
    ensures var res := send(c.GetAttributeRequest(modelHandle, attrId));
      var r := c.GetAttribute(modelHandle, attrId, send);
      var models := FindAll(res.root, Ca("model"));
      && (r.Success? && r.value.None? ==> models == [])
      && (r.Success? && r.value.Some? ==>
            && models != [] && r.value.value == models[0]
            && r.value.value.tag == Ca("model")
            && (Get(r.value.value, "error").None? || Get(r.value.value, "error").value == ""))
  {
    var res := send(c.GetAttributeRequest(modelHandle, attrId));
    FindIsFirstOfFindAll(res.root, Ca("model"));
    FindFindsDescendant(res.root, Ca("model"));
    if c.GetAttribute(modelHandle, attrId, send).Success? {
      assert FirstFiring(res.root, GetErrorMarkers) == |GetErrorMarkers|;
      assert !Fires(res.root, GetErrorMarkers[0]);
    }
  }

  /** A model error wins over every later marker, and its message carries the "Model Error: " prefix. */
  lemma ModelErrorComesFirst(res: Response)
    requires Spectrum.CheckHttpResponse(res.status).Success?
    requires ErrorOf(res.root, "model").Some? && ErrorOf(res.root, "model").value != ""
    ensures Spectrum.ParseGet(res) == Failure(ParameterError(Some("Model Error: " + ErrorOf(res.root, "model").value)))
  {
    FirstFiringOfGetMarkers(res.root);
  }

  /** Absent elements and empty errors raise nothing: a document with no markers passes the read's checks. */
  lemma NoMarkersPass(res: Response)
    requires Spectrum.CheckHttpResponse(res.status).Success?
    requires forall k :: 0 <= k < |GetErrorMarkers| ==> ErrorOf(res.root, GetErrorMarkers[k].local) in {None, Some("")}
    ensures Spectrum.ParseGet(res) == Success(())
  {
    FirstFiringOfGetMarkers(res.root);
    assert !Fires(res.root, GetErrorMarkers[0]);
  }

  /** An update of n pairs sends 2n parameters: pair i as "attr" at 2i and "val" at 2i+1. */
  lemma UpdateRequestLayout(c: Spectrum, modelHandle: Scalar, updates: seq<(Scalar, Scalar)>, i: nat)
    requires i < |updates|
    ensures var r := c.UpdateRequest(modelHandle, Many(updates));
      && r.Success?
      && |r.value.params| == 2 * |updates|
      && r.value.params[2 * i] == ("attr", IdText(updates[i].0))
      && r.value.params[2 * i + 1] == ("val", ValueText(updates[i].1))
  {
    UpdateParamsAt(updates, i);
  }

  /** The landscape bounds: strictly above the landscape handle and strictly below it plus 0xfffff, on the model handle. */
  lemma LandscapeBoundsReadBack(landscape: int)
    ensures var cs := LandscapeClauses(landscape);
      && |cs| == 2
      && cs[0].op == "greater-than" && cs[1].op == "less-than"
      && cs[0].attrId == ModelHandleAttribute && cs[1].attrId == ModelHandleAttribute
      && ParseHex(cs[0].value) == Some(landscape)
      && ParseHex(cs[1].value) == Some(landscape + 0xfffff)
  {
    HexRoundTrip(landscape);
    HexRoundTrip(landscape + LandscapeSpan);
  }

  lemma NumeralIsPlain(s: string)
    requires forall i :: 0 <= i < |s| ==> NumeralChar(s[i])
    ensures Lacks(s, '<') && Lacks(s, '>') && Lacks(s, '"')
  {
    assert forall i :: 0 <= i < |s| ==> s[i] != '<' && s[i] != '>' && s[i] != '"' by {
      forall i | 0 <= i < |s| ensures s[i] != '<' && s[i] != '>' && s[i] != '"' {
        assert NumeralChar(s[i]);
      }
    }
  }

  lemma ToClausePlain(t: Triple)
    requires TriplePlain(t)
    ensures Plain(ToClause(t))
  {
    if t.0.Int? { HexChars(t.0.i); NumeralIsPlain(Hex(t.0.i)); }
    if t.2.Int? { DecimalChars(t.2.i); NumeralIsPlain(Decimal(t.2.i)); }
  }

  lemma ToClausesPlain(ts: seq<Triple>)
    requires forall i :: 0 <= i < |ts| ==> TriplePlain(ts[i])
    ensures forall i :: 0 <= i < |ToClauses(ts)| ==> Plain(ToClauses(ts)[i])
  {
    forall i | 0 <= i < |ts| ensures Plain(ToClauses(ts)[i]) {
      ToClausePlain(ts[i]);
    }
  }

  lemma LandscapeClausesPlain(landscape: int)
    ensures forall i :: 0 <= i < |LandscapeClauses(landscape)| ==> Plain(LandscapeClauses(landscape)[i])
  {
    HexChars(landscape);
    NumeralIsPlain(Hex(landscape));
    HexChars(landscape + LandscapeSpan);
    NumeralIsPlain(Hex(landscape + LandscapeSpan));
  }

  lemma BoundsPlain(landscape: Option<int>)
    ensures forall i :: 0 <= i < |Bounds(landscape)| ==> Plain(Bounds(landscape)[i])
  {
    if LandscapeGiven(landscape) {
      LandscapeClausesPlain(landscape.value);
    }
  }

  /** A filter put before a list goes right after the landscape bounds. */
  lemma PrependCriteria(t: Triple, ts: seq<Triple>, landscape: Option<int>)
    ensures Criteria(Many([t] + ts), landscape) == Success(Bounds(landscape) + [ToClause(t)] + ToClauses(ts))
  {
    CriteriaOfList(Many([t] + ts), landscape);
    assert ToClauses([t] + ts) == [ToClause(t)] + ToClauses(ts);
    assert Bounds(landscape) + ([ToClause(t)] + ToClauses(ts)) == Bounds(landscape) + [ToClause(t)] + ToClauses(ts);
  }

  /** The criteria of a list of filters are the landscape bounds followed by the filters' criteria. */
  lemma CriteriaOfList(filters: OneOrMany<Triple>, landscape: Option<int>)
    requires AsList(filters).Success?
    ensures Criteria(filters, landscape) == Success(Bounds(landscape) + ToClauses(AsList(filters).value))
  {
  }

  /**
   * The filter text of a search reads back as its criteria, in order, with every value verbatim,
   * as long as the caller's filters hold no markup.
   */
  lemma SearchFilterReadsBack(filters: OneOrMany<Triple>, landscape: Option<int>)
    requires AsList(filters).Success?
    requires forall i :: 0 <= i < |AsList(filters).value| ==> TriplePlain(AsList(filters).value[i])
    ensures Spectrum.BuildFilter(filters, landscape).Success?
    ensures ParseAnd(Spectrum.BuildFilter(filters, landscape).value) == Some(Criteria(filters, landscape).value)
  {
    CriteriaOfList(filters, landscape);
    var b, ks := Bounds(landscape), ToClauses(AsList(filters).value);
    BoundsPlain(landscape);
    ToClausesPlain(AsList(filters).value);
    AllPlainAppend(b, ks);
    ParseRenderAnd(b + ks);
  }

  /** The Device filter: derived from model type 0x1004b, whose value `str` writes in decimal. */
  lemma DeviceOnlyClause()
    ensures ToClause(DeviceOnly) == Clause("is-derived-from", "0x10001", "65611")
  {
    assert Hex(0x10001) == "0x10001";
    assert Decimal(0x1004b) == "65611";
  }

  /** The filter text of a device search reads back as the bounds, the Device filter and the caller's filters. */
  lemma DevicesFilterReadsBack(c: Spectrum, ts: seq<Triple>, landscape: Option<int>)
    requires forall i :: 0 <= i < |ts| ==> TriplePlain(ts[i])
    ensures var req := c.DevicesSearch(Many(ts), landscape);
      && req.Success?
      && req.value.url == c.url + "/spectrum/restful/models"
      && req.value.body.ModelSearch?
      && ParseAnd(req.value.body.filter) == Some(Bounds(landscape) + [ToClause(DeviceOnly)] + ToClauses(ts))
  {
    var all := [DeviceOnly] + ts;
    assert TriplePlain(DeviceOnly) by {
      assert forall i :: 0 <= i < |"is-derived-from"| ==> "is-derived-from"[i] != '>';
    }
    assert forall i :: 0 <= i < |all| ==> TriplePlain(all[i]) by {
      forall i | 0 <= i < |all| ensures TriplePlain(all[i]) {
        if i > 0 { assert all[i] == ts[i - 1]; }
      }
    }
    SearchFilterReadsBack(Many(all), landscape);
    PrependCriteria(DeviceOnly, ts, landscape);
  }

  /**
   * `devices_by_name(regex)` searches for the landscape bounds, then the Device filter, then a
   * PCRE match of the model name (0x1006e) against the pattern as given.
   */
  lemma DevicesByNameSearches(c: Spectrum, regex: string, landscape: Option<int>, send: Request -> Response)
    requires Lacks(regex, '<')
    ensures var req := c.DevicesSearch(Many([NameTriple(regex)]), landscape);
      && req.Success?
      && req.value.url == c.url + "/spectrum/restful/models"
      && req.value.body.ModelSearch?
      && ParseAnd(req.value.body.filter)
         == Some(Bounds(landscape) + [Clause("is-derived-from", "0x10001", "65611"), Clause("has-pcre", "0x1006e", regex)])
      && c.DevicesByName(regex, landscape, send) == Spectrum.SearchResult(send(req.value))
  {
    var b := Bounds(landscape);
    var dc, nc := Clause("is-derived-from", "0x10001", "65611"), Clause("has-pcre", "0x1006e", regex);
    NameClause(regex);
    DeviceOnlyClause();
    AppendTwo(b, dc, nc);
    var criteria := b + [dc, nc];
    assert b + [ToClause(DeviceOnly)] + ToClauses([NameTriple(regex)]) == criteria;
    DevicesFilterReadsBack(c, [NameTriple(regex)], landscape);
    var req := c.DevicesSearch(Many([NameTriple(regex)]), landscape);
    assert req.value == c.SearchRequest(RenderAnd(criteria));
    assert c.DevicesByName(regex, landscape, send) == Spectrum.SearchResult(send(c.SearchRequest(RenderAnd(criteria))));
  }

  /**
   * Two appended one-item sequences are one appended two-item sequence. Stated apart because
   * the same step written as an assert inside the search functions is far slower to prove.
   */
  lemma AppendTwo<T>(s: seq<T>, x: T, y: T)
    ensures s + [x] + [y] == s + [x, y]
  {
  }

  /** The criterion of a name search: a PCRE match on the model name attribute, the pattern verbatim. */
  lemma NameClause(regex: string)
    requires Lacks(regex, '<')
    ensures TriplePlain(NameTriple(regex))
    ensures ToClauses([NameTriple(regex)]) == [Clause("has-pcre", "0x1006e", regex)]
  {
    assert forall i :: 0 <= i < |"has-pcre"| ==> "has-pcre"[i] != '>';
    assert forall i :: 0 <= i < |ModelNameAttribute| ==> ModelNameAttribute[i] != '"';
  }

  /**
   * `models_by_attr(attr, value)` searches for the landscape bounds, then equality of the
   * attribute (its id through `hex` when an int) with the value.
   */
  lemma ModelsByAttrSearches(c: Spectrum, attr: Scalar, value: Scalar, landscape: Option<int>, send: Request -> Response)
    requires TriplePlain(EqualsTriple(attr, value))
    ensures var req := c.ModelsSearch(Many([EqualsTriple(attr, value)]), landscape);
      && req.Success?
      && req.value.body.ModelSearch?
      && ParseAnd(req.value.body.filter) == Some(Bounds(landscape) + [Clause("equals", IdText(attr), ValueText(value))])
      && c.ModelsByAttr(attr, value, landscape, send) == Spectrum.SearchResult(send(req.value))
  {
    SearchFilterReadsBack(Many([EqualsTriple(attr, value)]), landscape);
    assert ToClauses([EqualsTriple(attr, value)]) == [Clause("equals", IdText(attr), ValueText(value))];
  }

  /**
   * As written, `get_attribute` never reaches its fallbacks: `find` returns None rather than
   * raising, so a response holding an attribute element but no model element gives None.
   */
  lemma AttributeOnlyResponse(c: Spectrum, modelHandle: Scalar, attrId: Scalar)
    ensures var attr := Element(Ca("attribute"), map["id" := "0x1006e"], Some("router1"), []);
      var send := (q: Request) => Response(200, Element(Ca("model-response-list"), map[], None, [attr]));
      && c.GetAttribute(modelHandle, attrId, send) == Success(None)
      && c.GetAttributeWithFallback(modelHandle, attrId, send) == Success(Some(attr))
  {
    var attr := Element(Ca("attribute"), map["id" := "0x1006e"], Some("router1"), []);
    var root := Element(Ca("model-response-list"), map[], None, [attr]);
    assert Ca("attribute") != Ca("model") && Ca("attribute") != Ca("model-responses") && Ca("attribute") != Ca("attribute-list");
    assert [attr][1..] == [];
    forall tag | tag != Ca("attribute") ensures Find(root, tag) == None {
      assert First(attr.children, tag) == None;
      assert First([attr][1..], tag) == None;
    }
    assert Find(root, Ca("attribute")) == Some(attr);
    assert Get(attr, "error") == None;
  }

  /** Landscape 0x10000 bounds handles between 0x10000 and 0x10ffff. */
  lemma LandscapeExample()
    ensures LandscapeClauses(0x10000)[0].value == "0x10000"
    ensures LandscapeClauses(0x10000)[1].value == "0x10ffff"
  {
    assert 0x10000 + LandscapeSpan == 0x10ffff;
    assert Hex(0x10ffff) == "0x10ffff";
  }

  /** A handle maps to the attributes of the last model element carrying it. */
  lemma ModelMapValue(root: Element, i: nat)
    requires i < |FindAll(root, Ca("model"))|
    requires var ms := FindAll(root, Ca("model"));
      forall j :: i < j < |ms| ==> Get(ms[j], "mh") != Get(ms[i], "mh")
    ensures var m := FindAll(root, Ca("model"))[i];
      Get(m, "mh") in ModelMapOf(root) && ModelMapOf(root)[Get(m, "mh")] == AttributeMap(m)
  {
    var ms := FindAll(root, Ca("model"));
    var pairs := seq(|ms|, i requires 0 <= i < |ms| => (Get(ms[i], "mh"), AttributeMap(ms[i])));
    assert LastOfKey(pairs, i) by {
      forall j | i < j < |pairs| ensures pairs[j].0 != pairs[i].0 {
        assert pairs[j].0 == Get(ms[j], "mh");
      }
    }
    DictLast(pairs, i);
  }

  /** An id maps to the text of the last child carrying it. */
  lemma AttributeMapValue(model: Element, i: nat)
    requires i < |model.children|
    requires forall j :: i < j < |model.children| ==> Get(model.children[j], "id") != Get(model.children[i], "id")
    ensures var a := model.children[i];
      Get(a, "id") in AttributeMap(model) && AttributeMap(model)[Get(a, "id")] == a.text
  {
    var cs := model.children;
    var pairs := seq(|cs|, i requires 0 <= i < |cs| => (Get(cs[i], "id"), cs[i].text));
    assert LastOfKey(pairs, i) by {
      forall j | i < j < |pairs| ensures pairs[j].0 != pairs[i].0 {
        assert pairs[j].0 == Get(cs[j], "id");
      }
    }
    DictLast(pairs, i);
  }

  /** Two model elements with different handles give a result with exactly those two handles. */
  lemma TwoModelsTwoKeys(root: Element)
    requires |FindAll(root, Ca("model"))| == 2
    requires Get(FindAll(root, Ca("model"))[0], "mh") != Get(FindAll(root, Ca("model"))[1], "mh")
    ensures var ms := FindAll(root, Ca("model"));
      ModelMapOf(root).Keys == {Get(ms[0], "mh"), Get(ms[1], "mh")} && |ModelMapOf(root)| == 2
  {
    var ms := FindAll(root, Ca("model"));
    assert (set m | m in ms :: Get(m, "mh")) == {Get(ms[0], "mh"), Get(ms[1], "mh")} by {
      assert ms == [ms[0], ms[1]];
    }
  }
}
