/**
 * The operations of `Godbolt` whose logic lies outside the transport (src/lib.rs:38-76,
 * 122-151), with the transport and serde's decoders passed in as functions.
 */
module Client {

  import opened Wrappers
  import opened Schema
  import opened Urls
  import opened MetadataMerge

  /** One GET round trip: the text of the response to a URL, or None on a transport failure. */
  type Fetch = string -> Option<string>

  /**
   * serde's two decodes of one response body: as `Vec<Compiler>` and as
   * `Vec<AdditionalFields>`, each None when the body does not have that shape.
   */
  datatype Codec = Codec(
    compilers: string -> Option<seq<Compiler>>,
    additionalFields: string -> Option<seq<AdditionalFields>>)

  /**
   * What a field-listing operation returns once its request has been answered. It fails
   * exactly when the transport or either decode of the one body fetched fails, and then
   * returns no partial list; otherwise it is the strict zip of the two decodes.
   */
  function FieldListing(response: Option<string>, codec: Codec): (r: Result<seq<Compiler>, Error>)
    ensures r.Success? <==>
      response.Some? && codec.compilers(response.value).Some? && codec.additionalFields(response.value).Some?
    ensures response.None? ==> r == Failure(TransportError)
    ensures r.Success? ==>
      r.value == ZipAttach(codec.compilers(response.value).value, codec.additionalFields(response.value).value)
  {
    match response
    case None => Failure(TransportError)
    case Some(body) => MergedListing(codec.compilers(body), codec.additionalFields(body))
  }

  /** `get_compilers_with_fields` (src/lib.rs:40-57): extra fields requested through the query. */
  method GetCompilersWithFields(fetch: Fetch, codec: Codec, fields: seq<string>) returns (r: Result<seq<Compiler>, Error>)
    ensures r == FieldListing(fetch(FieldsUrl(fields)), codec)
  {
    var additionalFields := Join(fields, ',');
    var response := fetch(FieldsUrlPrefix + additionalFields);
    if response.None? {
      return Failure(TransportError);
    }
    var body := response.value;
    r := MergeDecodes(codec.compilers(body), codec.additionalFields(body));
  }

  /** `get_compilers_with_all_fields` (src/lib.rs:60-76): every field requested. */
  method GetCompilersWithAllFields(fetch: Fetch, codec: Codec) returns (r: Result<seq<Compiler>, Error>)
    ensures r == FieldListing(fetch(AllFieldsUrl), codec)
  {
    var response := fetch(AllFieldsUrl);
    if response.None? {
      return Failure(TransportError);
    }
    var body := response.value;
    r := MergeDecodes(codec.compilers(body), codec.additionalFields(body));
  }

  /**
   * The two field-listing operations differ only in the URL they fetch: both methods'
   * postconditions go through the same `FieldListing`, so whenever the two URLs are
   * answered with the same body, the two results are equal.
   */
  lemma SameBodySameListing(fetch: Fetch, codec: Codec, fields: seq<string>)
    requires fetch(FieldsUrl(fields)) == fetch(AllFieldsUrl)
    ensures FieldListing(fetch(FieldsUrl(fields)), codec) == FieldListing(fetch(AllFieldsUrl), codec)
  {
  }

  /** A compile request: where it is posted, and the JSON body posted there. */
  datatype CompileRequest = CompileRequest(url: string, body: Source)

  /** `send_request_with_options` (src/lib.rs:140-151): the caller's options are sent as given. */
  function SendRequestWithOptions(compiler: string, source: string, options: Options): (req: CompileRequest)
    ensures req.url == CompileUrl(compiler)
    ensures req.body.source == source && req.body.options == options
  {
    CompileRequest(CompileUrl(compiler), Source(source, options))
  }

  /**
   * `send_request` (src/lib.rs:123-136): the source text unchanged, compiled with `-O` and
   * the default filters, posted to the compiler's compile endpoint.
   */
  function SendRequest(compiler: string, source: string): (req: CompileRequest)
    ensures req.url == CompileUrl(compiler)
    ensures req.body.source == source
    ensures req.body.options.userArguments == "-O"
    ensures forall t: Toggle :: req.body.options.filters.Enabled(t) <==> t in DefaultOn
  {
    var filters := DefaultFilters();
    var options := Options(DefaultUserArguments, filters);
    SendRequestWithOptions(compiler, source, options)
  }

  /** `send_request` is `send_request_with_options` with the default options. */
  lemma SendRequestIsDefaultOptions(compiler: string, source: string)
    ensures SendRequest(compiler, source) == SendRequestWithOptions(compiler, source, DefaultOptions())
  {
  }

  /** Different compilers or different sources never give the same request. */
  lemma SendRequestInjective(c1: string, s1: string, c2: string, s2: string)
    requires SendRequest(c1, s1) == SendRequest(c2, s2)
    ensures c1 == c2 && s1 == s2
  {
  }
}
