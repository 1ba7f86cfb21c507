/** What a `FetchRequest` sends, as functions of its read-only fields: the
    encoding the constructor settles on, the URL (with the payload in the
    query for GET), the body, the headers and the fetch options. */
module RequestShaping {
  import opened Wrappers
  import opened AsciiCase
  import opened FetchMappings
  import opened FormUrlEncoded

  type Headers = map<string, string>

  /** The read-only fields of a request: `method` (as `fetchMethod`), `encodingType`,
      `location.absoluteURL` and the optional `body`, a form payload given
      as its ordered list of entries. */
  datatype Descriptor = Descriptor(
    fetchMethod: FetchMethod,
    encodingType: EncodingType,
    absoluteUrl: string,
    body: Option<seq<Entry>>)

  /** JavaScript truthiness of a numeric enum value. */
  predicate Truthy(n: nat) { n != 0 }

  /** `encodingType || EncodingType.multipart_form_data`, as the constructor
      writes it: an omitted encoding and the JSON encoding (whose numeric
      value 0 is falsy) both become multipart; the other two are kept. */
  function DefaultEncoding(encodingType: Option<EncodingType>): (r: EncodingType)
    ensures r != ApplicationJson
    ensures r == ApplicationXWwwFormUrlencoded <==> encodingType == Some(ApplicationXWwwFormUrlencoded)
    ensures encodingType == None || encodingType == Some(ApplicationJson) ==> r == MultipartFormData
    ensures encodingType == Some(MultipartFormData) ==> r == MultipartFormData
  {
    if encodingType.Some? && Truthy(Ordinal(encodingType.value)) then encodingType.value
    else MultipartFormData
  }

  /** `isIdempotent`: true exactly for the request whose method string is
      `GET`. */
  predicate IsIdempotent(d: Descriptor): (r: bool)
    ensures r <==> MethodString(d.fetchMethod) == "GET"
  {
    MethodStringGet(d.fetchMethod);
    d.fetchMethod == Get
  }

  /** `entries`: the pairs of the body, none when there is no body. */
  function Entries(d: Descriptor): (r: seq<Entry>)
    ensures d.body == None ==> r == []
    ensures d.body != None ==> r == d.body.value
    ensures Serialize(r) == [] <==> d.body == None || d.body == Some([])
  {
    match d.body
    case None => []
    case Some(es) => es
  }

  /** The character that joins the query to the URL. */
  function Separator(url: string): char
  {
    if '?' in url then '&' else '?'
  }

  /** `url`: the absolute URL, extended by a separator and the serialized
      entries exactly when the method is GET and there are entries; the
      extension reads back as the entries, in order. */
  function Url(d: Descriptor): (r: string)
    ensures |r| >= |d.absoluteUrl| && r[..|d.absoluteUrl|] == d.absoluteUrl
    ensures r == d.absoluteUrl <==> !IsIdempotent(d) || Entries(d) == []
    ensures r != d.absoluteUrl ==>
      && r[|d.absoluteUrl|] == (if '?' in d.absoluteUrl then '&' else '?')
      && Parse(r[|d.absoluteUrl| + 1..]) == Entries(d)
  {
    var url := d.absoluteUrl;
    if IsIdempotent(d) then
      var query := Serialize(Entries(d));
      if |query| > 0 then
        var r := url + [Separator(url)] + query;
        assert r[..|url|] == url;
        assert r[|url| + 1..] == query;
        ParseSerialize(Entries(d));
        r
      else url
    else url
  }

  /** `params`: a fresh `URLSearchParams` with every entry appended in order. */
  method Params(d: Descriptor) returns (params: SearchParams)
    ensures fresh(params)
    ensures params.list == Entries(d)
  {
    var entries := Entries(d);
    params := new SearchParams();
    var i := 0;
    while i < |entries|
      invariant 0 <= i <= |entries|
      invariant params.list == entries[..i]
    {
      params.Append(entries[i].name, entries[i].value);
      i := i + 1;
    }
  }

  /** The `url` getter as the source computes it: the query is
      `params.toString()`, joined to the absolute URL only for a GET with a
      non-empty query. */
  method ResolveUrl(d: Descriptor) returns (url: string)
    ensures url == Url(d)
  {
    url := d.absoluteUrl;
    if IsIdempotent(d) {
      var params := Params(d);
      var query := params.ToString();
      if |query| > 0 {
        url := url + [Separator(url)] + query;
        UrlOfGet(d);
      }
    }
  }

  /** `bodyContent`: no body for GET, the request's body otherwise. */
  function BodyContent(d: Descriptor): (r: Option<seq<Entry>>)
    ensures r == None <==> IsIdempotent(d) || d.body == None
    ensures r != None ==> r == d.body
  {
    if IsIdempotent(d) then None else d.body
  }

  /** A payload never travels both in the query and in the body, and a
      non-empty payload always travels in one of them. */
  lemma PayloadTravelsOnce(d: Descriptor)
    ensures !(BodyContent(d) != None && Url(d) != d.absoluteUrl)
    ensures Entries(d) != [] ==> BodyContent(d) == d.body || Parse(Url(d)[|d.absoluteUrl| + 1..]) == Entries(d)
  {
  }

  /** The URL of a GET with entries, written out. */
  lemma UrlOfGet(d: Descriptor)
    requires IsIdempotent(d) && Entries(d) != []
    ensures Url(d) == d.absoluteUrl + [Separator(d.absoluteUrl)] + Serialize(Entries(d))
  {
  }

  /** The query of a single pair of unreserved characters is `name=value`. */
  lemma QueryOfOnePair(name: string, value: string)
    requires forall i :: 0 <= i < |name| ==> Unreserved(name[i])
    requires forall i :: 0 <= i < |value| ==> Unreserved(value[i])
    ensures Serialize([Entry(name, value)]) == name + "=" + value
  {
    EncodeUnreserved(name);
    EncodeUnreserved(value);
  }

  /** A GET to a URL that already has a query, such as `/items?sort=asc`
      with the pair `page=2`, gets the pair after `&`
      (`/items?sort=asc&page=2`) and has no body. */
  lemma GetWithQueryExample(url: string, encodingType: EncodingType, name: string, value: string)
    requires '?' in url
    requires forall i :: 0 <= i < |name| ==> Unreserved(name[i])
    requires forall i :: 0 <= i < |value| ==> Unreserved(value[i])
    ensures var d := Descriptor(Get, encodingType, url, Some([Entry(name, value)]));
            Url(d) == url + "&" + name + "=" + value && BodyContent(d) == None
  {
    var d := Descriptor(Get, encodingType, url, Some([Entry(name, value)]));
    QueryOfOnePair(name, value);
    UrlOfGet(d);
  }

  const AcceptValue := "text/html, application/xhtml+xml"

  /** `additionalHeaders`: what the delegate's optional
      `additionalHeadersForRequest` returns, or nothing when it has none. */
  function AdditionalHeaders(capability: Option<Headers>): (r: Headers)
    ensures capability == None ==> r == map[]
    ensures capability != None ==> r == capability.value
  {
    match capability
    case None => map[]
    case Some(h) => h
  }

  /** `headers`: `Accept` and `Content-Type` by default, every delegate
      header on top of them, the delegate winning on a shared key. */
  function RequestHeaders(e: EncodingType, capability: Option<Headers>): (r: Headers)
    ensures r.Keys == {"Accept", "Content-Type"} + AdditionalHeaders(capability).Keys
    ensures forall k :: k in AdditionalHeaders(capability) ==> r[k] == AdditionalHeaders(capability)[k]
    ensures "Accept" !in AdditionalHeaders(capability) ==> r["Accept"] == AcceptValue
    ensures "Content-Type" !in AdditionalHeaders(capability) ==> r["Content-Type"] == EncodingTypeToContentType(e)
    ensures capability == None ==> |r| == 2
  {
    map["Accept" := AcceptValue, "Content-Type" := EncodingTypeToContentType(e)] + AdditionalHeaders(capability)
  }

  /** The parts of `RequestInit` a request builds; the abort signal is the
      request's abort controller, which the lifecycle model holds. */
  datatype FetchOptions = FetchOptions(
    methodName: string,
    credentials: string,
    headers: Headers,
    redirect: string,
    body: Option<seq<Entry>>)

  /** `fetchOptions`: the method string parses back to the request's method,
      credentials stay same-origin, redirects are followed, and the headers
      and body are those of the request. */
  function FetchOptionsOf(d: Descriptor, capability: Option<Headers>): (o: FetchOptions)
    ensures FetchMethodFromString(o.methodName) == Some(d.fetchMethod)
    ensures forall i :: 0 <= i < |o.methodName| ==> !IsLower(o.methodName[i])
    ensures o.credentials == "same-origin" && o.redirect == "follow"
    ensures o.headers == RequestHeaders(d.encodingType, capability)
    ensures o.body == BodyContent(d)
  {
    MethodRoundTrip(d.fetchMethod);
    FetchOptions(MethodString(d.fetchMethod), "same-origin", RequestHeaders(d.encodingType, capability), "follow", BodyContent(d))
  }

  /** A POST asked to use JSON keeps its URL and sends its body, but, the
      constructor having turned JSON into multipart, it declares
      `multipart/form-data` as its content type. */
  lemma JsonPostSendsMultipart()
    ensures var body := Some([Entry("name", "x")]);
            var d := Descriptor(Post, DefaultEncoding(Some(ApplicationJson)), "/items", body);
            && Url(d) == "/items"
            && BodyContent(d) == body
            && RequestHeaders(d.encodingType, None)["Content-Type"] == "multipart/form-data"
  {
  }
}
