/**
 * The records of src/model: the HTTP method enumeration with its JSON wire
 * names, endpoint routes, the project scope flags and the project record.
 */
module Model {
  import opened Outcomes

  /** The five HTTP methods an endpoint route may use, in declaration order. */
  datatype HttpMethod = Get | Patch | Post | Put | Delete

  /** The Rust identifier of each variant. */
  function VariantName(m: HttpMethod): string {
    match m
    case Get => "Get"
    case Patch => "Patch"
    case Post => "Post"
    case Put => "Put"
    case Delete => "Delete"
  }

  /** ASCII upper-casing, as serde's `rename_all = "UPPERCASE"` applies it to identifiers. */
  function ToUpperAscii(s: string): (r: string)
    ensures |r| == |s|
    ensures forall i :: 0 <= i < |s| ==> r[i] == (if 'a' <= s[i] <= 'z' then (s[i] as int - 32) as char else s[i])
  {
    seq(|s|, i requires 0 <= i < |s| => if 'a' <= s[i] <= 'z' then (s[i] as int - 32) as char else s[i])
  }

  /** The JSON string a method is serialised as. */
  function WireName(m: HttpMethod): (s: string)
    ensures s == ToUpperAscii(VariantName(m))
  {
    match m
    case Get => "GET"
    case Patch => "PATCH"
    case Post => "POST"
    case Put => "PUT"
    case Delete => "DELETE"
  }

  /** Deserialising a JSON string into a method: only the exact wire names are accepted. */
  function ParseMethod(s: string): (r: Option<HttpMethod>)
    ensures r.Some? ==> WireName(r.value) == s
    ensures r.None? ==> forall m: HttpMethod :: WireName(m) != s
  {
    if s == "GET" then Some(Get)
    else if s == "PATCH" then Some(Patch)
    else if s == "POST" then Some(Post)
    else if s == "PUT" then Some(Put)
    else if s == "DELETE" then Some(Delete)
    else None
  }

  /** Decoding the wire name of a method gives the method back. */
  lemma ParseWireName(m: HttpMethod)
    ensures ParseMethod(WireName(m)) == Some(m)
  {
    match m
    case Get =>
    case Patch =>
    case Post =>
    case Put =>
    case Delete =>
  }

  /** Distinct methods have distinct wire names. */
  lemma WireNamesDistinct(m1: HttpMethod, m2: HttpMethod)
    ensures WireName(m1) == WireName(m2) <==> m1 == m2
  {
    ParseWireName(m1);
    ParseWireName(m2);
  }

  /** Matching is case-sensitive: the lower-case spelling of a method is refused. */
  lemma LowerCaseNameRefused()
    ensures ParseMethod("get") == None && ParseMethod("Get") == None
  {
  }

  /**
   * An opaque JSON value (`serde_json::Value`), held as its canonical text so
   * that equality of values is equality of texts.
   */
  datatype JsonValue = JsonValue(canonical: string)

  /** One REST endpoint of the generated server; equality is field by field. */
  datatype EndpointRoute = EndpointRoute(
    isRouteDynamic: bool,
    httpMethod: HttpMethod,
    requestBody: JsonValue,
    response: JsonValue,
    route: string)

  /** The three flags the architect derives from the project description. */
  datatype ProjectScope = ProjectScope(
    isCrudRequired: bool,
    isUserLoginAndLogoutRequired: bool,
    isExternalUrlsRequired: bool)

  /** The record the agents fill in, one after the other. */
  datatype Project = Project(
    description: string,
    scope: Option<ProjectScope>,
    externalUrls: Option<seq<string>>,
    backendCode: Option<string>,
    apiEndpointSchema: Option<seq<EndpointRoute>>)
}
