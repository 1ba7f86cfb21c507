/** The two enumerations of a fetch request and their string mappings:
    `FetchMethod` with `fetchMethodFromString`, and `EncodingType` with
    `encodingTypeFromString` and `encodingTypeToContentType`. */
module FetchMappings {
  import opened Wrappers
  import opened AsciiCase

  datatype FetchMethod = Get | Post | Put | Patch | Delete

  /** The enum member's own name, `FetchMethod[method]`. */
  function MethodName(m: FetchMethod): (r: string)
    ensures NoUpper(r) && r != []
  {
    match m
    case Get => "get"
    case Post => "post"
    case Put => "put"
    case Patch => "patch"
    case Delete => "delete"
  }

  /** The method string a request sends, `FetchMethod[method].toUpperCase()`:
      all upper case, and lower-casing it gives back the enum name. */
  function MethodString(m: FetchMethod): (r: string)
    ensures |r| == |MethodName(m)|
    ensures forall i :: 0 <= i < |r| ==> !IsLower(r[i])
    ensures ToLower(r) == MethodName(m)
  {
    LowerOfUpper(MethodName(m));
    ToUpper(MethodName(m))
  }

  /** `GET` is the method string of GET and of no other method. */
  lemma MethodStringGet(m: FetchMethod)
    ensures MethodString(m) == "GET" <==> m == Get
  {
    var upper := MethodString(Get);
    assert upper[0] == 'G' && upper[1] == 'E' && upper[2] == 'T';
    assert upper == "GET";
    var lower := ToLower("GET");
    assert lower[0] == 'g' && lower[1] == 'e' && lower[2] == 't';
    assert lower == "get";
  }

  /** `fetchMethodFromString`: the lower-cased input must be one of the five
      method names; there is no default. */
  function FetchMethodFromString(s: string): (r: Option<FetchMethod>)
    ensures forall m :: r == Some(m) <==> ToLower(s) == MethodName(m)
    ensures r == None <==> forall m :: ToLower(s) != MethodName(m)
  {
    var lower := ToLower(s);
    if lower == "get" then Some(Get)
    else if lower == "post" then Some(Post)
    else if lower == "put" then Some(Put)
    else if lower == "patch" then Some(Patch)
    else if lower == "delete" then Some(Delete)
    else None
  }

  /** Parsing ignores case: an upper-cased or lower-cased input parses to
      the same method, or to nothing, as the input itself. */
  lemma MethodParseIgnoresCase(s: string)
    ensures FetchMethodFromString(ToUpper(s)) == FetchMethodFromString(s)
    ensures FetchMethodFromString(ToLower(s)) == FetchMethodFromString(s)
  {
  }

  /** The method string written into the fetch options parses back to the
      method, and so does the bare enum name. */
  lemma MethodRoundTrip(m: FetchMethod)
    ensures FetchMethodFromString(MethodString(m)) == Some(m)
    ensures FetchMethodFromString(MethodName(m)) == Some(m)
  {
  }

  datatype EncodingType = ApplicationJson | ApplicationXWwwFormUrlencoded | MultipartFormData

  /** The numeric value TypeScript gives each member of the enum. */
  function Ordinal(e: EncodingType): nat
  {
    match e
    case ApplicationJson => 0
    case ApplicationXWwwFormUrlencoded => 1
    case MultipartFormData => 2
  }

  /** `encodingTypeToContentType`: distinct encodings get distinct content
      types, none of them with an upper-case letter. The source's fallback
      `""` after the switch is unreachable for a member of the enum. */
  function EncodingTypeToContentType(e: EncodingType): (r: string)
    ensures NoUpper(r) && r != []
  {
    match e
    case ApplicationJson => "application/json"
    case ApplicationXWwwFormUrlencoded => "application/x-www-form-urlencoded"
    case MultipartFormData => "multipart/form-data"
  }

  /** `encodingTypeFromString`: a recognised content type (in any case) gives
      its encoding, every other string gives multipart. */
  function EncodingTypeFromString(s: string): (r: EncodingType)
    ensures forall e :: ToLower(s) == EncodingTypeToContentType(e) ==> r == e
    ensures r != MultipartFormData ==> ToLower(s) == EncodingTypeToContentType(r)
  {
    var lower := ToLower(s);
    if lower == "application/json" then ApplicationJson
    else if lower == "application/x-www-form-urlencoded" then ApplicationXWwwFormUrlencoded
    else if lower == "multipart/form-data" then MultipartFormData
    else MultipartFormData
  }

  /** Distinct encodings have distinct content types. */
  lemma ContentTypeInjective(e: EncodingType, e': EncodingType)
    ensures EncodingTypeToContentType(e) == EncodingTypeToContentType(e') ==> e == e'
  {
  }

  /** Every string outside the three content types, whatever its case,
      parses to multipart. */
  lemma UnknownEncodingIsMultipart(s: string)
    requires forall e :: ToLower(s) != EncodingTypeToContentType(e)
    ensures EncodingTypeFromString(s) == MultipartFormData
  {
  }

  /** Parsing the content type of an encoding, in either case, gives back
      the encoding. */
  lemma EncodingRoundTrip(e: EncodingType)
    ensures EncodingTypeFromString(EncodingTypeToContentType(e)) == e
    ensures EncodingTypeFromString(ToUpper(EncodingTypeToContentType(e))) == e
  {
  }
}
