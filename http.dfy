/** flowthings_io_http.c: the full URL of a request, the authentication
    headers, which methods carry a body, the write callback that collects the
    response, and the request itself. The transfer (libcurl) is a `Transport`
    function the caller supplies: it sees the exchange the library prepared and
    answers with the chunks the callback receives and, when the transfer
    completes, the status. */
module Http {
  import opened Text

  /** `FLOWTHINGS_IO_MAX_URL_SIZE` and `FLOWTHINGS_IO_MAX_PATH_SIZE`. */
  const MAX_URL_SIZE: nat := 1000
  const MAX_PATH_SIZE: nat := 500

  /** The size of each authentication header array. */
  const HEADER_SIZE: nat := 100

  const METHOD_GET: CString := "GET"
  const METHOD_MGET: CString := "MGET"
  const METHOD_POST: CString := "POST"
  const METHOD_PUT: CString := "PUT"
  const METHOD_DELETE: CString := "DELETE"

  const CONTENT_TYPE: CString := "Content-Type: application/json"
  const ACCOUNT_PREFIX: CString := "x-auth-account: "
  const TOKEN_PREFIX: CString := "x-auth-token: "

  /** `flowthings_io_token`: the caller's credentials. */
  datatype Token = Token(account: CString, token: CString)

  /** The fields of a `flowthings_io_http` handle a URL is built from. */
  datatype Endpoint = Endpoint(creds: Token, version: CString, host: CString, basePath: CString, secure: bool)

  function Scheme(secure: bool): CString {
    if secure then "https://" else "http://"
  }

  /** What `__flowthings_io_makeurl` appends after the scheme, one strcat
      each. */
  function UrlParts(e: Endpoint, path: CString): seq<CString> {
    [e.host, "/v", e.version, "/", e.creds.account, e.basePath, path]
  }

  /** The full URL of a request for `path`. */
  function Url(e: Endpoint, path: CString): CString {
    Scheme(e.secure) + Concat(UrlParts(e, path))
  }

  /** Every strcat into the URL array succeeds. */
  predicate UrlFits(e: Endpoint, path: CString) {
    StrcatFits(|Scheme(e.secure)|, |Concat(UrlParts(e, path))|, MAX_URL_SIZE)
  }

  /** The URL is the scheme, the host, "/v" and the version, "/" and the
      account, then the service's base path and the request path, with nothing
      between the last three. */
  lemma UrlShape(e: Endpoint, path: CString)
    ensures Url(e, path)
            == Scheme(e.secure) + (e.host + ("/v" + (e.version + ("/" + (e.creds.account + (e.basePath + path))))))
    ensures UrlFits(e, path) <==> |Url(e, path)| < MAX_URL_SIZE
  {
    var ps := UrlParts(e, path);
    assert ps[6..][1..] == [];
    assert Concat(ps[6..]) == path;
    assert ps[5..][1..] == ps[6..];
    assert Concat(ps[5..]) == e.basePath + Concat(ps[6..]);
    assert ps[4..][1..] == ps[5..];
    assert Concat(ps[4..]) == e.creds.account + Concat(ps[5..]);
    assert ps[3..][1..] == ps[4..];
    assert Concat(ps[3..]) == "/" + Concat(ps[4..]);
    assert ps[2..][1..] == ps[3..];
    assert Concat(ps[2..]) == e.version + Concat(ps[3..]);
    assert ps[1..][1..] == ps[2..];
    assert Concat(ps[1..]) == "/v" + Concat(ps[2..]);
    assert Concat(ps) == e.host + Concat(ps[1..]);
  }

  /** An authentication header fits its 100-character array. */
  predicate HeaderFits(prefix: CString, value: CString) {
    StrcatFits(|prefix|, |value|, HEADER_SIZE)
  }

  /** Request data goes with every method except DELETE and GET. */
  predicate CarriesBody(httpMethod: string) {
    httpMethod != METHOD_DELETE && httpMethod != METHOD_GET
  }

  /** Of the library's five methods, POST, PUT and MGET carry data. */
  lemma CarriesBodyMethods(httpMethod: string)
    requires httpMethod in {METHOD_GET, METHOD_MGET, METHOD_POST, METHOD_PUT, METHOD_DELETE}
    ensures CarriesBody(httpMethod) <==> httpMethod in {METHOD_POST, METHOD_PUT, METHOD_MGET}
  {
  }

  /** What the library hands the transport. */
  datatype Exchange = Exchange(httpMethod: CString, url: CString, headers: seq<CString>, data: Option<CString>)

  /** What the transport does with it: the chunks it passes to the write
      callback, in order, and the response status when the transfer completes
      (`CURLE_OK`), nothing when it fails. */
  datatype Transfer = Transfer(chunks: seq<string>, status: Option<int>)

  type Transport = Exchange -> Transfer

  /** The chunks one after the other. */
  function Flatten(chunks: seq<string>): string {
    if chunks == [] then [] else Flatten(chunks[..|chunks| - 1]) + chunks[|chunks| - 1]
  }

  /** The exchange for a request that passed its checks. `data` is what this
      call attaches as `CURLOPT_POSTFIELDS`: the caller's data for POST, PUT
      and MGET, nothing for GET and DELETE. A body left on the shared curl
      handle by an earlier request is not part of the model. */
  function ExchangeOf(e: Endpoint, httpMethod: CString, path: CString, data: Option<CString>): Exchange {
    Exchange(httpMethod, Url(e, path),
             [CONTENT_TYPE, ACCOUNT_PREFIX + e.creds.account, TOKEN_PREFIX + e.creds.token],
             if CarriesBody(httpMethod) then data else None)
  }

  /** The URL and both headers fit their arrays. */
  predicate RequestFits(e: Endpoint, path: CString) {
    UrlFits(e, path) && HeaderFits(ACCOUNT_PREFIX, e.creds.account) && HeaderFits(TOKEN_PREFIX, e.creds.token)
  }

  /** What a request that reaches the transport reports back: the status
      (0 for a failed transfer) and the text the callback appended. */
  datatype Reply = Reply(status: int, text: string)

  function RequestOutcome(e: Endpoint, httpMethod: CString, path: CString, data: Option<CString>, net: Transport): Run<Reply> {
    if !RequestFits(e, path) then Abort
    else
      var t := net(ExchangeOf(e, httpMethod, path, data));
      Done(Reply(if t.status.Some? then t.status.value else 0, Flatten(t.chunks)))
  }

  /** A request aborts exactly when its URL or a header would overflow; when
      it goes out, it reports 0 exactly when the transfer fails or the server
      itself answered 0, and otherwise the server's status. The call attaches
      data only for POST, PUT and MGET. */
  lemma RequestOutcomeCases(e: Endpoint, httpMethod: CString, path: CString, data: Option<CString>, net: Transport)
    ensures RequestOutcome(e, httpMethod, path, data, net).Abort? <==> !RequestFits(e, path)
    ensures RequestOutcome(e, httpMethod, path, data, net).Done? ==>
              var t := net(ExchangeOf(e, httpMethod, path, data));
              (t.status.None? ==> RequestOutcome(e, httpMethod, path, data, net).value.status == 0) &&
              (t.status.Some? ==> RequestOutcome(e, httpMethod, path, data, net).value.status == t.status.value)
    ensures RequestFits(e, path) && CarriesBody(httpMethod) ==> ExchangeOf(e, httpMethod, path, data).data == data
    ensures !CarriesBody(httpMethod) ==> ExchangeOf(e, httpMethod, path, data).data.None?
  {
  }

  /** `flowthings_io_http`: the connection settings and the base path of the
      service the current request is for. */
  class HttpClient {
    const creds: Token
    const version: CString
    const host: CString
    const secure: bool
    var basePath: CString

    function Settings(): Endpoint
      reads this
    {
      Endpoint(creds, version, host, basePath, secure)
    }

    /** `flowthings_io_http_init`. It leaves `base_path` uninitialised, so the
        contract says nothing about `basePath`: a caller learns its value only
        once a service operation has set it. */
    constructor (version: CString, host: CString, secure: bool, creds: Token)
      ensures this.version == version && this.host == host && this.secure == secure && this.creds == creds
    {
      this.version := version;
      this.host := host;
      this.secure := secure;
      this.creds := creds;
      basePath := [];
    }
  }

  /** `__flowthings_io_makeurl(fhttp, url, path)`: the scheme with strcpy, then
      one bounded strcat per part; a part that does not fit is the FAIL. */
  method MakeUrl(fhttp: HttpClient, url: FixedText, path: CString) returns (ok: bool)
    requires url.Valid() && url.data.Length == MAX_URL_SIZE
    modifies url, url.data
    ensures url.Valid()
    ensures ok <==> UrlFits(fhttp.Settings(), path)
    ensures ok ==> url.Text() == Url(fhttp.Settings(), path)
  {
    url.Strcpy(Scheme(fhttp.secure));
    ok := url.StrcatAll(UrlParts(fhttp.Settings(), path));
  }

  /** `char header[100] = prefix;` followed by a bounded strcat of `value`. */
  method BuildHeader(prefix: CString, value: CString) returns (ok: bool, header: CString)
    requires |prefix| < HEADER_SIZE
    ensures ok <==> HeaderFits(prefix, value)
    ensures ok ==> header == prefix + value
  {
    var buffer := new FixedText(HEADER_SIZE, prefix);
    ok := buffer.Strcat(value);
    header := buffer.Text();
  }

  /** `flowthings_io_http_writefunc(ptr, size, nmemb, s)`: append the
      `size * nmemb` bytes at `ptr` to the response, terminate it, and report
      them all as taken. */
  method WriteFunc(data: string, size: nat, nmemb: nat, s: DynString) returns (taken: nat)
    requires s.Valid() && size * nmemb <= |data|
    modifies s
    ensures s.Valid() && fresh(s.ptr)
    ensures taken == size * nmemb
    ensures s.len == old(s.len) + taken
    ensures s.Text() == old(s.Text()) + data[..taken]
    ensures s.Text()[..old(s.len)] == old(s.Text())
  {
    taken := size * nmemb;
    s.Append(data[..taken]);
  }

  lemma FlattenStep(chunks: seq<string>, i: nat, before: string, t: string)
    requires i < |chunks|
    requires t == before + Flatten(chunks[..i]) + chunks[i]
    ensures t == before + Flatten(chunks[..i + 1])
  {
    assert chunks[..i + 1][..i] == chunks[..i];
  }

  /** `flowthings_io_http_request(fhttp, method, path, data, response)`:
      0 when an argument is missing; otherwise the URL and the headers are
      built (a FAIL when one does not fit), the transport runs, every chunk
      goes through `WriteFunc` into `response`, and the result is the status
      of a completed transfer or 0. */
  method Request(fhttp: HttpClient?, httpMethod: Option<CString>, path: Option<CString>, data: Option<CString>,
                 response: DynString?, net: Transport) returns (r: Run<int>)
    requires response != null ==> response.Valid()
    modifies response
    ensures response != null ==> response.Valid()
    ensures fhttp == null || httpMethod.None? || path.None? || response == null ==>
              r == Done(0) && (response != null ==> response.Text() == old(response.Text()))
    ensures fhttp != null && httpMethod.Some? && path.Some? && response != null ==>
              match RequestOutcome(fhttp.Settings(), httpMethod.value, path.value, data, net)
              case Abort => r.Abort?
              case Done(reply) => r == Done(reply.status) && response.Text() == old(response.Text()) + reply.text
  {
    if fhttp == null || httpMethod.None? || path.None? || response == null {
      return Done(0);
    }
    var e := fhttp.Settings();
    var url := new FixedText(MAX_URL_SIZE, "");
    var ok := MakeUrl(fhttp, url, path.value);
    if !ok {
      return Abort;
    }
    var account, token;
    ok, account := BuildHeader(ACCOUNT_PREFIX, fhttp.creds.account);
    if !ok {
      return Abort;
    }
    ok, token := BuildHeader(TOKEN_PREFIX, fhttp.creds.token);
    if !ok {
      return Abort;
    }
    var body := if CarriesBody(httpMethod.value) then data else None;
    var transfer := net(Exchange(httpMethod.value, url.Text(), [CONTENT_TYPE, account, token], body));
    assert transfer == net(ExchangeOf(e, httpMethod.value, path.value, data));
    Deliver(transfer.chunks, response);
    r := Done(if transfer.status.Some? then transfer.status.value else 0);
  }

  /** The transfer hands its chunks to `WriteFunc` one by one, in order,
      each as `nmemb` bytes of size 1. */
  method Deliver(chunks: seq<string>, response: DynString)
    requires response.Valid()
    modifies response
    ensures response.Valid()
    ensures response.Text() == old(response.Text()) + Flatten(chunks)
  {
    ghost var start := response.Text();
    var i := 0;
    while i < |chunks|
      invariant 0 <= i <= |chunks|
      invariant response.Valid()
      invariant response.Text() == start + Flatten(chunks[..i])
    {
      var chunk := chunks[i];
      var taken := WriteFunc(chunk, 1, |chunk|, response);
      assert response.Text() == start + Flatten(chunks[..i + 1]) by {
        assert chunk[..taken] == chunk;
        FlattenStep(chunks, i, start, response.Text());
      }
      i := i + 1;
    }
    assert chunks[..i] == chunks;
  }
}
