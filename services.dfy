/** flowthings_io_services.c: the generic service functions. Each one builds
    the request path in a `char path[500]`, points the HTTP handle at its
    kind's base path, makes one request, maps the status to a result code,
    requires a `body` member in the JSON reply and decodes it through the
    caller's callback, into one object or into an array of result slots. */
module Services {
  import opened Text
  import opened Params
  import opened IdLists
  import opened Json
  import opened Http
  import Registry

  /** The member of a reply that holds the result. */
  const BODY_KEY: CString := "body"
  /** The query string find_many sends. */
  const FLATTEN_QUERY: CString := "?flatten=flat"
  /** The key find adds for its filter. */
  const FILTER_KEY: CString := "filter"
  /** The members of a find_many request element. */
  const FLOW_ID_KEY: CString := "flowId"
  const PARAMS_KEY: CString := "params"

  /** `flowthings_io_result_code`. */
  datatype ResultCode =
    | Ok
    | CouldntDecode
    | CouldntEncode
    | NotInitialized
    | MalformedResponse
    | NotFound
    | Forbidden
    | BadRequest
    | ServerError
    | Unknown

  /** The status `switch` every operation runs when the status is outside
      200..399: the client and server errors of sections 15.5.1, 15.5.4,
      15.5.5 and 15.6.1 of RFC 9110 get their own code, anything else
      (0 for a failed transfer included) is `Unknown`. Inside 200..399 the
      operation goes on. */
  function StatusError(status: int): (r: Option<ResultCode>)
    ensures r.None? <==> 200 <= status < 400
    ensures r.Some? ==> r.value in {BadRequest, Forbidden, NotFound, ServerError, Unknown}
  {
    if 200 <= status < 400 then None
    else if status == 400 then Some(BadRequest)
    else if status == 403 then Some(Forbidden)
    else if status == 404 then Some(NotFound)
    else if status == 500 then Some(ServerError)
    else Some(Unknown)
  }

  /** Each specific error code comes from exactly one status. */
  lemma StatusErrorInverse(status: int)
    ensures StatusError(status) == Some(BadRequest) <==> status == 400
    ensures StatusError(status) == Some(Forbidden) <==> status == 403
    ensures StatusError(status) == Some(NotFound) <==> status == 404
    ensures StatusError(status) == Some(ServerError) <==> status == 500
    ensures StatusError(status) == Some(Unknown)
            <==> !(200 <= status < 400) && status !in {400, 403, 404, 500}
  {
  }

  /** The services' capabilities: the transport, cJSON_Parse (nothing for
      text it cannot parse) and cJSON_Print (`render`). */
  datatype Platform = Platform(net: Transport, parse: CString -> Option<Json>, render: Json -> CString)

  /** `cJSON_GetObjectItem(cJSON_Parse(response->ptr), "body")`: the parser
      reads the response up to its first NUL; a reply that does not parse has
      no body. */
  function BodyOf(p: Platform, text: string): Option<Json> {
    match p.parse(CPrefix(text))
    case None => None
    case Some(doc) => GetObjectItem(doc, BODY_KEY)
  }

  /** Where a reply leaves an operation: a result code, or a body to decode. */
  datatype Answer = Failed(code: ResultCode) | Answered(body: Json)

  /** The status check, then the body check. */
  function Handle(p: Platform, reply: Reply): Answer {
    match StatusError(reply.status)
    case Some(c) => Failed(c)
    case None =>
      match BodyOf(p, reply.text)
      case None => Failed(MalformedResponse)
      case Some(b) => Answered(b)
  }

  /** An error status decides the answer without looking at the reply text:
      no body is parsed. */
  lemma ErrorStatusIgnoresBody(p: Platform, q: Platform, reply: Reply)
    requires !(200 <= reply.status < 400)
    ensures Handle(p, reply) == Handle(q, reply) == Failed(StatusError(reply.status).value)
  {
  }

  /** A reply is answered exactly when its status is in 200..399 and it
      parses to a document with a `body` member. */
  lemma HandleAnswered(p: Platform, reply: Reply)
    ensures Handle(p, reply).Answered?
            <==> 200 <= reply.status < 400 && BodyOf(p, reply.text).Some?
    ensures Handle(p, reply).Answered? ==> Handle(p, reply).body == BodyOf(p, reply.text).value
    ensures Handle(p, reply) == Failed(MalformedResponse)
            <==> 200 <= reply.status < 400 && BodyOf(p, reply.text).None?
  {
  }

  /** The handle as a request for kind `svc` sees it. */
  function ForService(e: Endpoint, svc: Registry.ServiceType): Endpoint {
    e.(basePath := Registry.Info(svc).basePath)
  }

  /** One request through a handle with settings `e`, and what its reply
      means. */
  function Served(p: Platform, e: Endpoint, verb: CString, path: CString, data: Option<CString>): Run<Answer> {
    match RequestOutcome(e, verb, path, data, p.net)
    case Abort => Abort
    case Done(reply) => Done(Handle(p, reply))
  }

  /** ------------------------------------------------------------------
      Paths
      ------------------------------------------------------------------ */

  /** `__flowthings_io_add_path_ext`: "/" and the extension, or nothing. */
  function ExtPart(ext: Option<CString>): CString {
    if ext.None? then [] else "/" + ext.value
  }

  /** A path fits `char path[FLOWTHINGS_IO_MAX_PATH_SIZE]`. */
  predicate PathFits(path: string) {
    |path| < MAX_PATH_SIZE
  }

  /** The query string a caller's list contributes, if a list is given. */
  function QueryOf(params: Option<seq<Param>>): CString {
    if params.None? then [] else QueryString(params.value)
  }

  /** The pairs of a caller's list, if a list is given. */
  function ListPairs(params: ParamList?): Option<seq<Param>>
    reads params
  {
    if params == null then None else Some(params.pairs)
  }

  /** The separator the operations put before an id or an extension. */
  const SLASH: CString := "/"

  /** The path of read: "<ext>/<id>" and the query string of `params`. */
  function ReadPath(ext: Option<CString>, id: CString, params: Option<seq<Param>>): CString {
    PathOf("", ext, [SLASH, id], params)
  }

  /** The path of create: the extension alone. */
  function CreatePath(ext: Option<CString>): CString {
    PathOf("", ext, [], None)
  }

  /** The path of update: "/<ext>/<id>". */
  function UpdatePath(ext: Option<CString>, id: CString): CString {
    PathOf(SLASH, ext, [SLASH, id], None)
  }

  /** The path of delete: "/<ext><id>", with no separator before the id. */
  function DeletePath(ext: Option<CString>, id: CString): CString {
    PathOf(SLASH, ext, [id], None)
  }

  /** The path of find: the extension and the query string of `pairs`. */
  function FindPath(ext: Option<CString>, pairs: seq<Param>): CString {
    PathOf("", ext, [], Some(pairs))
  }

  /** The path of find_many: the extension and "?flatten=flat". */
  function FindManyPath(ext: Option<CString>): CString {
    PathOf("", ext, [FLATTEN_QUERY], None)
  }

  lemma ReadPathShape(ext: Option<CString>, id: CString, params: Option<seq<Param>>)
    ensures ReadPath(ext, id, params) == ExtPart(ext) + SLASH + id + QueryOf(params)
  {
    var e, q := ExtPart(ext), QueryOf(params);
    assert Concat([SLASH, id]) == SLASH + id by {
      ConcatPair(SLASH, id);
    }
    assert "" + e == e;
    assert e + (SLASH + id) == e + SLASH + id;
  }

  lemma CreatePathShape(ext: Option<CString>)
    ensures CreatePath(ext) == ExtPart(ext)
  {
    assert Concat([]) == [];
    assert "" + ExtPart(ext) + [] + [] == ExtPart(ext);
  }

  lemma UpdatePathShape(ext: Option<CString>, id: CString)
    ensures UpdatePath(ext, id) == "/" + ExtPart(ext) + "/" + id
  {
    ConcatPair(SLASH, id);
    assert "/" + ExtPart(ext) + (SLASH + id) + [] == "/" + ExtPart(ext) + "/" + id;
  }

  lemma DeletePathShape(ext: Option<CString>, id: CString)
    ensures DeletePath(ext, id) == "/" + ExtPart(ext) + id
  {
    assert [id][1..] == [];
    assert Concat([id]) == id + [];
    assert "/" + ExtPart(ext) + id + [] == "/" + ExtPart(ext) + id;
  }

  lemma FindPathShape(ext: Option<CString>, pairs: seq<Param>)
    ensures FindPath(ext, pairs) == ExtPart(ext) + QueryString(pairs)
  {
    assert Concat([]) == [];
    assert "" + ExtPart(ext) + [] == ExtPart(ext);
  }

  lemma FindManyPathShape(ext: Option<CString>)
    ensures FindManyPath(ext) == ExtPart(ext) + FLATTEN_QUERY
  {
    assert [FLATTEN_QUERY][1..] == [];
    assert Concat([FLATTEN_QUERY]) == FLATTEN_QUERY + [];
    assert "" + ExtPart(ext) + (FLATTEN_QUERY + []) + [] == ExtPart(ext) + FLATTEN_QUERY;
  }

  /** update and delete start from "/" and so put "//" after the base path;
      delete has no "/" before the id. */
  lemma UpdateDeletePathShapes(ext: CString, id: CString)
    ensures UpdatePath(Some(ext), id) == "//" + ext + "/" + id
    ensures UpdatePath(None, id) == "//" + id
    ensures DeletePath(Some(ext), id) == "//" + ext + id
    ensures DeletePath(None, id) == "/" + id
  {
    assert UpdatePath(Some(ext), id) == "//" + ext + "/" + id by {
      UpdatePathShape(Some(ext), id);
      assert "/" + ("/" + ext) == "//" + ext;
    }
    assert UpdatePath(None, id) == "//" + id by {
      UpdatePathShape(None, id);
    }
    assert DeletePath(Some(ext), id) == "//" + ext + id by {
      DeletePathShape(Some(ext), id);
      assert "/" + ("/" + ext) == "//" + ext;
    }
    assert DeletePath(None, id) == "/" + id by {
      DeletePathShape(None, id);
    }
  }

  /** read puts the query string straight after the id, and find_many's path
      without an extension is its query alone. */
  lemma ReadFindManyPathShapes(id: CString, pairs: seq<Param>)
    ensures ReadPath(None, id, Some(pairs)) == "/" + id + QueryString(pairs)
    ensures FindManyPath(None) == FLATTEN_QUERY
  {
    assert ReadPath(None, id, Some(pairs)) == "/" + id + QueryString(pairs) by {
      ReadPathShape(None, id, Some(pairs));
    }
    assert FindManyPath(None) == FLATTEN_QUERY by {
      FindManyPathShape(None);
    }
  }

  /** `__flowthings_io_add_path_ext(path, path_ext)`. */
  method AddPathExt(path: FixedText, ext: Option<CString>) returns (ok: bool)
    requires path.Valid()
    modifies path, path.data
    ensures path.Valid()
    ensures ok <==> StrcatFits(|old(path.Text())|, |ExtPart(ext)|, path.data.Length)
    ensures ok ==> path.Text() == old(path.Text()) + ExtPart(ext)
  {
    if ext.None? {
      assert ExtPart(ext) == [];
      assert old(path.Text()) + [] == old(path.Text());
      return true;
    }
    ConcatPair("/", ext.value);
    ok := path.StrcatAll(["/", ext.value]);
  }

  /** What a path buffer holds after its initial text, the extension, a run
      of `flowthings_io_strcat`s and an optional `flowthings_io_params_to_url`. */
  function PathOf(init: CString, ext: Option<CString>, tail: seq<CString>, params: Option<seq<Param>>): CString {
    init + ExtPart(ext) + Concat(tail) + QueryOf(params)
  }

  /** The path-building steps of an operation on `char path[500]`: every step
      is a bounded strcat or `params_to_url`, so the first FAIL comes exactly
      when the whole path does not fit, and otherwise the buffer holds it. */
  method BuildPath(init: CString, ext: Option<CString>, tail: seq<CString>, params: ParamList?) returns (ok: bool, path: CString)
    requires |init| < MAX_PATH_SIZE
    ensures ok <==> PathFits(PathOf(init, ext, tail, old(ListPairs(params))))
    ensures ok ==> path == PathOf(init, ext, tail, old(ListPairs(params)))
  {
    path := [];
    ghost var query := ListPairs(params);
    var buffer := new FixedText(MAX_PATH_SIZE, init);
    ok := AddPathExt(buffer, ext);
    if !ok {
      return;
    }
    ok := buffer.StrcatAll(tail);
    if !ok {
      return;
    }
    if params != null {
      ok := params.ToUrl(buffer);
    }
    assert QueryOf(query) == if params == null then [] else QueryString(params.pairs);
    path := buffer.Text();
  }

  /** The start of every operation once its argument checks passed: point
      the handle at the kind's base path, then build the path. */
  method PreparePath(fhttp: HttpClient, svc: Registry.ServiceType, init: CString, ext: Option<CString>, tail: seq<CString>,
                     params: ParamList?) returns (ok: bool, path: CString)
    requires |init| < MAX_PATH_SIZE
    modifies fhttp
    ensures fhttp.Settings() == ForService(old(fhttp.Settings()), svc)
    ensures ok <==> PathFits(PathOf(init, ext, tail, old(ListPairs(params))))
    ensures ok ==> path == PathOf(init, ext, tail, old(ListPairs(params)))
  {
    fhttp.basePath := Registry.Info(svc).basePath;
    ok, path := BuildPath(init, ext, tail, params);
  }

  /** ------------------------------------------------------------------
      The decode loop of find and find_many
      ------------------------------------------------------------------ */

  datatype Decoded<R> = Decoded(ok: bool, obj: R)

  /** `flowthings_io_cb_decode_object`: fill the object from a JSON value and
      report success. What it leaves in the object when it fails is its own
      business, and is kept. */
  type Decoder<!R> = (Json, R) -> Decoded<R>

  /** What the encoder produces: the members it added, in order, to the
      fresh object the service created, so the printed document is always
      an object. */
  datatype Encoded = Encoded(ok: bool, members: seq<Field>)

  /** `flowthings_io_cb_encode_object`: the members it adds to an empty
      object, and the success flag the services never look at. */
  type Encoder<!R> = R -> Encoded

  /** The loop's result: how many slots decoded, the code it last assigned
      (nothing if it never ran) and the slots afterwards. */
  datatype LoopResult<R> = LoopResult(count: nat, code: Option<ResultCode>, slots: seq<R>)

  /** How many iterations the loop may run: `i < *result_count` and
      `i < cJSON_GetArraySize(body)`. */
  function Bound(limit: int, elems: seq<Json>): (b: nat)
    ensures b <= |elems| && b as int <= (if limit < 0 then 0 else limit)
    ensures b < |elems| ==> b as int == (if limit < 0 then 0 else limit)
  {
    if limit <= 0 then 0 else if limit < |elems| then limit else |elems|
  }

  function DecodeFrom<R>(dec: Decoder<R>, elems: seq<Json>, slots: seq<R>, i: nat, bound: nat, code: Option<ResultCode>): LoopResult<R>
    requires bound <= |elems| && bound <= |slots| && i <= bound
    decreases bound - i
  {
    if i == bound then LoopResult(i, code, slots)
    else
      var d := dec(elems[i], slots[i]);
      if d.ok then DecodeFrom(dec, elems, slots[i := d.obj], i + 1, bound, Some(Ok))
      else LoopResult(i, Some(CouldntDecode), slots[i := d.obj])
  }

  /** The `for` loop over the body's elements. */
  function DecodeLoop<R>(dec: Decoder<R>, elems: seq<Json>, slots: seq<R>, limit: int): LoopResult<R>
    requires limit <= |slots|
  {
    DecodeFrom(dec, elems, slots, 0, Bound(limit, elems), None)
  }

  lemma {:induction false} DecodeFromCharacterised<R>(dec: Decoder<R>, elems: seq<Json>, orig: seq<R>, cur: seq<R>,
                                                     i: nat, bound: nat, code: Option<ResultCode>)
    requires bound <= |elems| && bound <= |orig| && i <= bound && |cur| == |orig|
    requires forall j | i <= j < |orig| :: cur[j] == orig[j]
    requires forall j | 0 <= j < i :: dec(elems[j], orig[j]).ok
    requires code == (if i == 0 then None else Some(Ok))
    ensures var o := DecodeFrom(dec, elems, cur, i, bound, code);
            && i <= o.count <= bound
            && (forall j | i <= j < o.count :: dec(elems[j], orig[j]).ok)
            && (o.count < bound ==> !dec(elems[o.count], orig[o.count]).ok)
            && |o.slots| == |orig|
            && (forall j | 0 <= j < |orig| ::
                  o.slots[j] == if i <= j < bound && j <= o.count then dec(elems[j], orig[j]).obj else cur[j])
            && o.code == (if bound == 0 then None else if o.count == bound then Some(Ok) else Some(CouldntDecode))
    decreases bound - i
  {
    if i < bound {
      var d := dec(elems[i], cur[i]);
      assert d == dec(elems[i], orig[i]);
      if d.ok {
        DecodeFromCharacterised(dec, elems, orig, cur[i := d.obj], i + 1, bound, Some(Ok));
      }
    }
  }

  /** The loop decodes the elements in order, stops at the first failure and
      counts the successes before it: each slot up to and including the
      stopping point holds what the decoder made of it, every other slot is
      untouched, and the code is `Ok` when every element in range decoded,
      `CouldntDecode` when one failed, and unassigned when the loop never ran. */
  lemma DecodeLoopCharacterised<R>(dec: Decoder<R>, elems: seq<Json>, slots: seq<R>, limit: int)
    requires limit <= |slots|
    ensures var o := DecodeLoop(dec, elems, slots, limit);
            var b := Bound(limit, elems);
            && o.count <= b
            && (forall j | 0 <= j < o.count :: dec(elems[j], slots[j]).ok)
            && (o.count < b ==> !dec(elems[o.count], slots[o.count]).ok)
            && |o.slots| == |slots|
            && (forall j | 0 <= j < |slots| ::
                  o.slots[j] == if j < b && j <= o.count then dec(elems[j], slots[j]).obj else slots[j])
            && o.code == (if b == 0 then None else if o.count == b then Some(Ok) else Some(CouldntDecode))
  {
    DecodeFromCharacterised(dec, elems, slots, slots, 0, Bound(limit, elems), None);
  }

  /** The decode loop on the caller's result array: decode element `i` into
      slot `i`, and stop at the first failure; `count` is the final `i`. Slot
      `i` is the pre-allocated object `result[i]` points to, which the
      decoder fills. This is the corrected target: the source passes
      `&result[i]`, the pointer cell itself (see
      `FindDecodeAsWrittenOverruns`). */
  method DecodeInto<R>(dec: Decoder<R>, elems: seq<Json>, slots: array<R>, limit: int) returns (count: nat, code: Option<ResultCode>)
    requires limit <= slots.Length
    modifies slots
    ensures var o := DecodeLoop(dec, elems, old(slots[..]), limit);
            count == o.count && code == o.code && slots[..] == o.slots
  {
    ghost var goal := DecodeLoop(dec, elems, old(slots[..]), limit);
    var i := 0;
    code := None;
    while i < limit && i < |elems|
      invariant 0 <= i <= Bound(limit, elems)
      invariant code == (if i == 0 then None else Some(Ok))
      invariant DecodeFrom(dec, elems, slots[..], i, Bound(limit, elems), code) == goal
    {
      var d := dec(elems[i], slots[i]);
      slots[i] := d.obj;
      if !d.ok {
        code := Some(CouldntDecode);
        break;
      }
      code := Some(Ok);
      i := i + 1;
    }
    count := i;
  }

  /** The code find_many returns after its loop, which starts out `Unknown`. */
  function LoopCode(code: Option<ResultCode>): ResultCode {
    if code.None? then Unknown else code.value
  }

  /** find_many's result after a reply with a body: `Ok` exactly when the
      loop ran and every element in range decoded, `CouldntDecode` when one
      failed, `Unknown` when the loop never ran. */
  lemma LoopCodeMeaning<R>(dec: Decoder<R>, elems: seq<Json>, slots: seq<R>, limit: int)
    requires limit <= |slots|
    ensures var o := DecodeLoop(dec, elems, slots, limit);
            var b := Bound(limit, elems);
            && (LoopCode(o.code) == Ok <==> b > 0 && o.count == b)
            && (LoopCode(o.code) == CouldntDecode <==> o.count < b)
            && (LoopCode(o.code) == Unknown <==> b == 0)
  {
    DecodeLoopCharacterised(dec, elems, slots, limit);
  }

  /** find leaves `code` unassigned before its loop, so when the loop does not
      run (a body that is not an array, an empty array, or `*result_count`
      of 0) the code it returns is indeterminate. */
  function FindCodeAsWritten<R>(o: LoopResult<R>): Option<ResultCode> {
    o.code
  }

  lemma FindCodeAsWrittenIndeterminate<R>(dec: Decoder<R>, slots: seq<R>, limit: int)
    requires limit <= |slots|
    ensures FindCodeAsWritten(DecodeLoop(dec, Elements(JNull), slots, limit)).None?
    ensures FindCodeAsWritten(DecodeLoop(dec, [], slots, limit)).None?
  {
  }

  /** On a 64-bit target, cell `i` of the caller's `void *result[]` occupies
      bytes `[8 * i, 8 * i + 8)` of the array. */
  const POINTER_SIZE: nat := 8

  /** The bytes the decoder writes for element `i` in the loops of find and
      find_many as written. It is handed `&result[i]`, the address of the
      i-th pointer cell, not the object that cell points to. It fills an
      object of `objSize` bytes from there. */
  function DecodeWriteAsWritten(i: nat, objSize: nat): (range: (nat, nat)) {
    (i * POINTER_SIZE, i * POINTER_SIZE + objSize)
  }

  /** As written, the decoder writes into the pointer array itself. An object
      larger than a pointer spills into the next cell, and past the array for
      the last one. For a caller that passes a block of `n` contiguous
      objects, the writes follow the pointer stride rather than the object
      stride. With 4-byte objects and `*result_count` 10, element 5 already
      writes past the 40-byte block, and the bytes of object 1 are never
      written. */
  lemma FindDecodeAsWrittenOverruns()
    ensures forall i: nat, objSize: nat | objSize > POINTER_SIZE ::
              DecodeWriteAsWritten(i, objSize).1 > (i + 1) * POINTER_SIZE
    ensures DecodeWriteAsWritten(5, 4).1 > 10 * 4
    ensures forall i: nat :: DecodeWriteAsWritten(i, 4).1 <= 4 || DecodeWriteAsWritten(i, 4).0 >= 2 * 4
  {
    forall i: nat, objSize: nat | objSize > POINTER_SIZE
      ensures DecodeWriteAsWritten(i, objSize).1 > (i + 1) * POINTER_SIZE
    {
      assert (i + 1) * POINTER_SIZE == i * POINTER_SIZE + POINTER_SIZE;
    }
  }

  /** ------------------------------------------------------------------
      find_many's request document
      ------------------------------------------------------------------ */

  /** The members `cJSON_AddStringToObject` adds for a parameter list, in
      list order. */
  function ParamFields(pairs: seq<Param>): (r: seq<Field>)
    ensures |r| == |pairs|
    ensures forall j | 0 <= j < |pairs| :: r[j] == Field(pairs[j].key, JString(pairs[j].value))
  {
    if pairs == [] then [] else [Field(pairs[0].key, JString(pairs[0].value))] + ParamFields(pairs[1..])
  }

  /** One element of the find_many array: `{"flowId": id, "params": {...}}`. */
  function ManyItem(id: CString, pairs: seq<Param>): Json {
    JObject([Field(FLOW_ID_KEY, JString(id)), Field(PARAMS_KEY, JObject(ParamFields(pairs)))])
  }

  /** The find_many request: one element per id-list node, in list order. */
  function ManyRequest(entries: seq<IdItem<seq<Param>>>): (r: Json)
    ensures r.JArray? && |r.items| == |entries|
    ensures forall k | 0 <= k < |entries| :: r.items[k] == ManyItem(entries[k].id, entries[k].item)
  {
    if entries == [] then JArray([])
    else JArray([ManyItem(entries[0].id, entries[0].item)] + ManyRequest(entries[1..]).items)
  }

  /** The id list with each node's parameter list read out. */
  function Entries(items: seq<IdItem<ParamList>>): (r: seq<IdItem<seq<Param>>>)
    reads set k | 0 <= k < |items| :: items[k].item
    ensures |r| == |items|
    ensures forall k | 0 <= k < |items| :: r[k] == IdItem(items[k].id, items[k].item.pairs)
  {
    if items == [] then [] else [IdItem(items[0].id, items[0].item.pairs)] + Entries(items[1..])
  }

  /** Reading the request back: element `k` carries the `k`-th id under
      "flowId" and, under "params", an object whose `j`-th member is the
      `j`-th pair of that id's list; a key that occurs first at `j` reads back
      that pair's value. */
  lemma ManyRequestReadBack(entries: seq<IdItem<seq<Param>>>, k: nat, j: nat)
    requires k < |entries|
    ensures |Elements(ManyRequest(entries))| == |entries|
    ensures GetObjectItem(Elements(ManyRequest(entries))[k], FLOW_ID_KEY) == Some(JString(entries[k].id))
    ensures GetObjectItem(Elements(ManyRequest(entries))[k], PARAMS_KEY) == Some(JObject(ParamFields(entries[k].item)))
    ensures j < |entries[k].item| && (forall m | 0 <= m < j :: !SameKey(entries[k].item[m].key, entries[k].item[j].key)) ==>
              GetObjectItem(JObject(ParamFields(entries[k].item)), entries[k].item[j].key)
              == Some(JString(entries[k].item[j].value))
  {
    var fields := [Field(FLOW_ID_KEY, JString(entries[k].id)), Field(PARAMS_KEY, JObject(ParamFields(entries[k].item)))];
    assert !SameKey(fields[0].key, fields[1].key) by {
      assert Lower(fields[0].key[0]) != Lower(fields[1].key[0]);
    }
    GetFirstAdded(fields, 0);
    GetFirstAdded(fields, 1);
    var pairs := entries[k].item;
    if j < |pairs| && (forall m | 0 <= m < j :: !SameKey(pairs[m].key, pairs[j].key)) {
      var pf := ParamFields(pairs);
      forall m | 0 <= m < j
        ensures !SameKey(pf[m].key, pf[j].key)
      {
        assert pf[m].key == pairs[m].key;
      }
      GetFirstAdded(pf, j);
    }
  }

  /** The inner `while` loop of find_many: one string member per pair of a
      node's parameter list, first to last. */
  method BuildParams(list: ParamList) returns (members: seq<Field>)
    ensures members == ParamFields(list.pairs)
  {
    var pairs := list.pairs;
    members := [];
    var j := 0;
    while j < |pairs|
      invariant 0 <= j <= |pairs|
      invariant |members| == j
      invariant forall m | 0 <= m < j :: members[m] == Field(pairs[m].key, JString(pairs[m].value))
    {
      members := members + [Field(pairs[j].key, JString(pairs[j].value))];
      j := j + 1;
    }
  }

  /** The outer `while` loop of find_many: one object per id-list node,
      first to last. */
  method BuildManyRequest(items: seq<IdItem<ParamList>>) returns (doc: Json)
    ensures doc == ManyRequest(old(Entries(items)))
  {
    var elems: seq<Json> := [];
    var k := 0;
    while k < |items|
      invariant 0 <= k <= |items|
      invariant |elems| == k
      invariant forall m | 0 <= m < k :: elems[m] == ManyItem(items[m].id, items[m].item.pairs)
    {
      var node := items[k];
      var members := BuildParams(node.item);
      elems := elems + [JObject([Field(FLOW_ID_KEY, JString(node.id)), Field(PARAMS_KEY, JObject(members))])];
      k := k + 1;
    }
    doc := JArray(elems);
    ghost var spec := ManyRequest(Entries(items));
    assert elems == spec.items;
  }

  /** ------------------------------------------------------------------
      The operations
      ------------------------------------------------------------------ */

  /** `flowthings_io_api`: the handle the services use. */
  class Api {
    var fhttp: HttpClient?

    constructor (fhttp: HttpClient?)
      ensures this.fhttp == fhttp
    {
      this.fhttp := fhttp;
    }
  }

  /** A caller's preallocated object (`void *object`, `void *result`). */
  class Slot<R> {
    var value: R

    constructor (value: R)
      ensures this.value == value
    {
      this.value := value;
    }
  }

  /** The result of an operation on one object: its code and the object
      afterwards. */
  datatype Outcome<R> = Outcome(code: ResultCode, obj: R)

  /** The result of find and find_many: the code, `*result_count` and the
      result slots afterwards. */
  datatype ManyOutcome<R> = ManyOutcome(code: ResultCode, count: int, slots: seq<R>)

  /** A method's result agrees with a one-object specification: it aborts
      exactly when the specification does, and otherwise returns its code and
      leaves the object as it says. */
  ghost predicate OneMatches<R>(r: Run<ResultCode>, obj: R, spec: Run<Outcome<R>>) {
    (r.Abort? <==> spec.Abort?) && (spec.Done? ==> r == Done(spec.value.code) && obj == spec.value.obj)
  }

  /** The same for find and find_many, with `*result_count` and the slots. */
  ghost predicate ManyMatches<R>(r: Run<ResultCode>, count: int, slots: seq<R>, spec: Run<ManyOutcome<R>>) {
    (r.Abort? <==> spec.Abort?)
    && (spec.Done? ==> r == Done(spec.value.code) && count == spec.value.count && slots == spec.value.slots)
  }

  /** Decoding a body into one object. */
  function DecodeOne<R>(dec: Decoder<R>, body: Json, obj: R): Outcome<R> {
    var d := dec(body, obj);
    Outcome(if d.ok then Ok else CouldntDecode, d.obj)
  }

  /** Read, create and update once the path is built: one request, then the
      body is decoded into the object when a decoder is given; with none the
      operation succeeds on any reply that has a body. */
  function OneSpec<R>(p: Platform, e: Endpoint, verb: CString, path: CString,
                      data: Option<CString>, dec: Option<Decoder<R>>, obj: R): Run<Outcome<R>> {
    match Served(p, e, verb, path, data)
    case Abort => Abort
    case Done(Failed(c)) => Done(Outcome(c, obj))
    case Done(Answered(b)) => Done(if dec.None? then Outcome(Ok, obj) else DecodeOne(dec.value, b, obj))
  }

  /** `flowthings_io_service_read` once its argument checks passed. */
  function ReadSpec<R>(p: Platform, e: Endpoint, ext: Option<CString>, id: CString,
                       params: Option<seq<Param>>, dec: Decoder<R>, obj: R): Run<Outcome<R>> {
    var path := ReadPath(ext, id, params);
    if !PathFits(path) then Abort else OneSpec(p, e, METHOD_GET, path, None, Some(dec), obj)
  }

  /** `flowthings_io_service_create` once the encoder and object are known:
      the encoded object is POSTed as printed JSON. */
  function CreateSpec<R>(p: Platform, e: Endpoint, ext: Option<CString>,
                         enc: Encoder<R>, dec: Option<Decoder<R>>, obj: R): Run<Outcome<R>> {
    var path := CreatePath(ext);
    if !PathFits(path) then Abort else OneSpec(p, e, METHOD_POST, path, Some(p.render(JObject(enc(obj).members))), dec, obj)
  }

  /** `flowthings_io_service_update` once the encoder and object are known:
      the encoded object is PUT to the object's path. */
  function UpdateSpec<R>(p: Platform, e: Endpoint, ext: Option<CString>, id: CString,
                         enc: Encoder<R>, dec: Option<Decoder<R>>, obj: R): Run<Outcome<R>> {
    var path := UpdatePath(ext, id);
    if !PathFits(path) then Abort else OneSpec(p, e, METHOD_PUT, path, Some(p.render(JObject(enc(obj).members))), dec, obj)
  }

  /** `flowthings_io_service_delete` once the id is known: the status alone
      decides; the reply text is never read. */
  function DeleteSpec(p: Platform, e: Endpoint, ext: Option<CString>, id: CString): Run<ResultCode> {
    var path := DeletePath(ext, id);
    if !PathFits(path) then Abort
    else match RequestOutcome(e, METHOD_DELETE, path, None, p.net)
      case Abort => Abort
      case Done(reply) => Done(if StatusError(reply.status).Some? then StatusError(reply.status).value else Ok)
  }

  /** Find and find_many once the path is built: one request, then the
      decode loop over the body's elements. `count` is `*result_count` on
      entry; it is only written once a body is in hand. */
  function ManySpec<R>(p: Platform, e: Endpoint, verb: CString, path: CString, data: Option<CString>,
                       dec: Decoder<R>, slots: seq<R>, count: int): Run<ManyOutcome<R>>
    requires count <= |slots|
  {
    match Served(p, e, verb, path, data)
    case Abort => Abort
    case Done(Failed(c)) => Done(ManyOutcome(c, count, slots))
    case Done(Answered(b)) =>
      var o := DecodeLoop(dec, Elements(b), slots, count);
      Done(ManyOutcome(LoopCode(o.code), o.count, o.slots))
  }

  /** `flowthings_io_service_find` once its argument checks passed: the
      query carries the whole parameter list, the "filter" pair first. When
      the decode loop never runs the code is `Unknown`: this is the corrected
      start, since the source returns its uninitialised `code` there (see
      `FindCodeAsWrittenIndeterminate`). */
  function FindSpec<R>(p: Platform, e: Endpoint, ext: Option<CString>, pairs: seq<Param>,
                       dec: Decoder<R>, slots: seq<R>, count: int): Run<ManyOutcome<R>>
    requires count <= |slots|
  {
    var path := FindPath(ext, pairs);
    if !PathFits(path) then Abort else ManySpec(p, e, METHOD_GET, path, None, dec, slots, count)
  }

  /** `flowthings_io_service_find_many` once its decoder check passed: a
      missing id list is a bad request, found only after the path is built. */
  function FindManySpec<R>(p: Platform, e: Endpoint, ext: Option<CString>,
                           entries: Option<seq<IdItem<seq<Param>>>>, dec: Decoder<R>, slots: seq<R>, count: int): Run<ManyOutcome<R>>
    requires count <= |slots|
  {
    var path := FindManyPath(ext);
    if !PathFits(path) then Abort
    else if entries.None? then Done(ManyOutcome(BadRequest, count, slots))
    else ManySpec(p, e, METHOD_MGET, path, Some(p.render(ManyRequest(entries.value))), dec, slots, count)
  }

  /** The request of every operation but delete, into a fresh response
      string, and what its reply means. */
  method Exchange(p: Platform, fhttp: HttpClient, verb: CString, path: CString, data: Option<CString>) returns (r: Run<Answer>)
    ensures r == Served(p, fhttp.Settings(), verb, path, data)
  {
    var response := new DynString();
    var sent := Request(fhttp, Some(verb), Some(path), data, response, p.net);
    ghost var outcome := RequestOutcome(fhttp.Settings(), verb, path, data, p.net);
    if sent.Abort? {
      assert outcome.Abort?;
      return Abort;
    }
    assert outcome.Done? && outcome.value == Reply(sent.value, response.Text());
    r := Done(Handle(p, Reply(sent.value, response.Text())));
  }

  /** The tail shared by read, create and update. */
  method FetchOne<R>(p: Platform, fhttp: HttpClient, verb: CString, path: CString,
                     data: Option<CString>, dec: Option<Decoder<R>>, result: Slot<R>) returns (r: Run<ResultCode>)
    modifies result
    ensures OneMatches(r, result.value, OneSpec(p, fhttp.Settings(), verb, path, data, dec, old(result.value)))
  {
    var answer := Exchange(p, fhttp, verb, path, data);
    match answer
    case Abort =>
      r := Abort;
    case Done(Failed(c)) =>
      r := Done(c);
    case Done(Answered(b)) =>
      if dec.None? {
        r := Done(Ok);
      } else {
        var decoded := DecodeOne(dec.value, b, result.value);
        result.value := decoded.obj;
        r := Done(decoded.code);
      }
  }

  /** The tail shared by find and find_many. */
  method FetchMany<R>(p: Platform, fhttp: HttpClient, verb: CString, path: CString,
                      data: Option<CString>, dec: Decoder<R>, result: array<R>, count: int)
    returns (r: Run<ResultCode>, newCount: int)
    requires count <= result.Length
    modifies result
    ensures ManyMatches(r, newCount, result[..], ManySpec(p, fhttp.Settings(), verb, path, data, dec, old(result[..]), count))
  {
    newCount := count;
    var answer := Exchange(p, fhttp, verb, path, data);
    match answer
    case Abort =>
      r := Abort;
    case Done(Failed(c)) =>
      r := Done(c);
    case Done(Answered(b)) =>
      var n, code := DecodeInto(dec, Elements(b), result, count);
      newCount := n;
      r := Done(LoopCode(code));
  }

  /** `flowthings_io_service_read(svc, path_ext, api, id, params, decoder,
      result)`: GET "<ext>/<id>[?query]" and decode the body into `result`. */
  method Read<R>(p: Platform, svc: Registry.ServiceType, ext: Option<CString>, api: Api?, id: Option<CString>,
                 params: ParamList?, dec: Option<Decoder<R>>, result: Slot?<R>) returns (r: Run<ResultCode>)
    modifies if api != null && api.fhttp != null then {api.fhttp} else {}, result
    ensures api == null || api.fhttp == null ==> r == Done(NotInitialized) && (result != null ==> unchanged(result))
    ensures api != null && api.fhttp != null && (dec.None? || result == null) ==>
              r == Done(CouldntDecode) && unchanged(api.fhttp) && (result != null ==> unchanged(result))
    ensures api != null && api.fhttp != null && dec.Some? && result != null && id.None? ==> r.Abort?
    ensures api != null && api.fhttp != null && dec.Some? && result != null && id.Some? ==>
              && api.fhttp.Settings() == ForService(old(api.fhttp.Settings()), svc)
              && OneMatches(r, result.value,
                   ReadSpec(p, api.fhttp.Settings(), ext, id.value, old(ListPairs(params)), dec.value, old(result.value)))
  {
    if api == null || api.fhttp == null {
      return Done(NotInitialized);
    }
    if dec.None? || result == null {
      return Done(CouldntDecode);
    }
    if id.None? {
      return Abort;
    }
    r := ReadAt(p, svc, ext, api.fhttp, id.value, params, dec.value, result);
  }

  /** Read once its argument checks passed: set the base path, build the
      path, GET it and decode the body. */
  method ReadAt<R>(p: Platform, svc: Registry.ServiceType, ext: Option<CString>, fhttp: HttpClient, id: CString,
                   params: ParamList?, dec: Decoder<R>, result: Slot<R>) returns (r: Run<ResultCode>)
    modifies fhttp, result
    ensures fhttp.Settings() == ForService(old(fhttp.Settings()), svc)
    ensures OneMatches(r, result.value, ReadSpec(p, fhttp.Settings(), ext, id, old(ListPairs(params)), dec, old(result.value)))
  {
    var ok, path := PreparePath(fhttp, svc, "", ext, [SLASH, id], params);
    if !ok {
      return Abort;
    }
    r := FetchOne(p, fhttp, METHOD_GET, path, None, Some(dec), result);
  }

  /** `flowthings_io_service_create(svc, path_ext, api, params, encoder,
      decoder, object)`: POST the encoded object to "<ext>" and decode the
      reply into it if a decoder is given. `params` is not used. */
  method Create<R>(p: Platform, svc: Registry.ServiceType, ext: Option<CString>, api: Api?, params: ParamList?,
                   enc: Option<Encoder<R>>, dec: Option<Decoder<R>>, obj: Slot?<R>) returns (r: Run<ResultCode>)
    modifies if api != null && api.fhttp != null then {api.fhttp} else {}, obj
    ensures api == null || api.fhttp == null ==> r == Done(NotInitialized) && (obj != null ==> unchanged(obj))
    ensures api != null && api.fhttp != null ==> api.fhttp.Settings() == ForService(old(api.fhttp.Settings()), svc)
    ensures api != null && api.fhttp != null && !PathFits(CreatePath(ext)) ==> r.Abort?
    ensures api != null && api.fhttp != null && PathFits(CreatePath(ext)) && (enc.None? || obj == null) ==>
              r == Done(CouldntEncode) && (obj != null ==> unchanged(obj))
    ensures api != null && api.fhttp != null && enc.Some? && obj != null ==>
              OneMatches(r, obj.value, CreateSpec(p, api.fhttp.Settings(), ext, enc.value, dec, old(obj.value)))
  {
    if api == null || api.fhttp == null {
      return Done(NotInitialized);
    }
    var ok, path := PreparePath(api.fhttp, svc, "", ext, [], null);
    if !ok {
      return Abort;
    }
    if enc.None? || obj == null {
      return Done(CouldntEncode);
    }
    var doc := JObject(enc.value(obj.value).members);
    r := FetchOne(p, api.fhttp, METHOD_POST, path, Some(p.render(doc)), dec, obj);
  }

  /** `flowthings_io_service_update(svc, path_ext, api, id, params, encoder,
      decoder, object)`: PUT the encoded object to "/<ext>/<id>" and decode
      the reply into it if a decoder is given. `params` is not used. */
  method Update<R>(p: Platform, svc: Registry.ServiceType, ext: Option<CString>, api: Api?, id: Option<CString>,
                   params: ParamList?, enc: Option<Encoder<R>>, dec: Option<Decoder<R>>, obj: Slot?<R>) returns (r: Run<ResultCode>)
    modifies if api != null && api.fhttp != null then {api.fhttp} else {}, obj
    ensures api == null || api.fhttp == null ==> r == Done(NotInitialized) && (obj != null ==> unchanged(obj))
    ensures api != null && api.fhttp != null ==> api.fhttp.Settings() == ForService(old(api.fhttp.Settings()), svc)
    ensures api != null && api.fhttp != null && (id.None? || !PathFits(UpdatePath(ext, id.value))) ==> r.Abort?
    ensures api != null && api.fhttp != null && id.Some? && PathFits(UpdatePath(ext, id.value)) && (enc.None? || obj == null) ==>
              r == Done(CouldntEncode) && (obj != null ==> unchanged(obj))
    ensures api != null && api.fhttp != null && id.Some? && enc.Some? && obj != null ==>
              OneMatches(r, obj.value, UpdateSpec(p, api.fhttp.Settings(), ext, id.value, enc.value, dec, old(obj.value)))
  {
    if api == null || api.fhttp == null {
      return Done(NotInitialized);
    }
    if id.None? {
      api.fhttp.basePath := Registry.Info(svc).basePath;
      return Abort;
    }
    var ok, path := PreparePath(api.fhttp, svc, SLASH, ext, [SLASH, id.value], null);
    if !ok {
      return Abort;
    }
    if enc.None? || obj == null {
      return Done(CouldntEncode);
    }
    var doc := JObject(enc.value(obj.value).members);
    r := FetchOne(p, api.fhttp, METHOD_PUT, path, Some(p.render(doc)), dec, obj);
  }

  /** The request of delete: only its status is read. */
  method SendDelete(p: Platform, fhttp: HttpClient, path: CString) returns (r: Run<ResultCode>)
    ensures r == (match RequestOutcome(fhttp.Settings(), METHOD_DELETE, path, None, p.net)
                  case Abort => Abort
                  case Done(reply) => Done(if StatusError(reply.status).Some? then StatusError(reply.status).value else Ok))
  {
    var response := new DynString();
    var sent := Request(fhttp, Some(METHOD_DELETE), Some(path), None, response, p.net);
    ghost var outcome := RequestOutcome(fhttp.Settings(), METHOD_DELETE, path, None, p.net);
    if sent.Abort? {
      assert outcome.Abort?;
      return Abort;
    }
    assert outcome.Done? && outcome.value.status == sent.value;
    var failed := StatusError(sent.value);
    r := Done(if failed.Some? then failed.value else Ok);
  }

  /** `flowthings_io_service_delete(svc, path_ext, api, id, params)`: DELETE
      "/<ext><id>" and report the status. `params` is not used. */
  method Delete(p: Platform, svc: Registry.ServiceType, ext: Option<CString>, api: Api?, id: Option<CString>,
                params: ParamList?) returns (r: Run<ResultCode>)
    modifies if api != null && api.fhttp != null then {api.fhttp} else {}
    ensures api == null || api.fhttp == null ==> r == Done(NotInitialized)
    ensures api != null && api.fhttp != null ==> api.fhttp.Settings() == ForService(old(api.fhttp.Settings()), svc)
    ensures api != null && api.fhttp != null && id.None? ==> r.Abort?
    ensures api != null && api.fhttp != null && id.Some? ==> r == DeleteSpec(p, api.fhttp.Settings(), ext, id.value)
  {
    if api == null || api.fhttp == null {
      return Done(NotInitialized);
    }
    if id.None? {
      api.fhttp.basePath := Registry.Info(svc).basePath;
      return Abort;
    }
    var ok, path := PreparePath(api.fhttp, svc, SLASH, ext, [id.value], null);
    if !ok {
      return Abort;
    }
    r := SendDelete(p, api.fhttp, path);
  }

  /** `flowthings_io_service_find(svc, path_ext, api, filter, params,
      decoder, result, result_count)`: add the "filter" pair in front of the
      caller's list (or of a list of its own, released at the end), GET
      "<ext>?<query>" and decode the body's elements into the result slots.
      The pair is added before any other check, so a caller's list keeps it
      whatever the outcome. */
  method Find<R>(p: Platform, svc: Registry.ServiceType, ext: Option<CString>, api: Api?, filter: Option<CString>,
                 params: ParamList?, dec: Option<Decoder<R>>, result: array?<R>, count: int)
    returns (r: Run<ResultCode>, newCount: int)
    requires result != null ==> count <= result.Length
    modifies if api != null && api.fhttp != null then {api.fhttp} else {}, params, result
    ensures filter.None? ==> r.Abort?
    ensures filter.Some? && params != null ==> params.pairs == [Param(FILTER_KEY, filter.value)] + old(params.pairs)
    ensures filter.Some? && (api == null || api.fhttp == null) ==>
              r == Done(NotInitialized) && newCount == count && (result != null ==> unchanged(result))
    ensures filter.Some? && api != null && api.fhttp != null && (dec.None? || result == null) ==>
              r == Done(CouldntDecode) && newCount == count && unchanged(api.fhttp) && (result != null ==> unchanged(result))
    ensures filter.Some? && api != null && api.fhttp != null && dec.Some? && result != null ==>
              && api.fhttp.Settings() == ForService(old(api.fhttp.Settings()), svc)
              && ManyMatches(r, newCount, result[..],
                   FindSpec(p, api.fhttp.Settings(), ext,
                            [Param(FILTER_KEY, filter.value)] + (if params == null then [] else old(params.pairs)),
                            dec.value, old(result[..]), count))
  {
    var mine := params;
    if mine == null {
      mine := new ParamList();
    }
    if filter.None? {
      return Abort, count;
    }
    mine.Add(FILTER_KEY, filter.value);
    if api == null || api.fhttp == null {
      return Done(NotInitialized), count;
    }
    if dec.None? || result == null {
      return Done(CouldntDecode), count;
    }
    r, newCount := FindAt(p, svc, ext, api.fhttp, mine, dec.value, result, count);
    if params == null {
      var _ := mine.Cleanup();
    }
  }

  /** Find once its argument checks passed and the filter pair is in place:
      set the base path, build the path with the query, GET it and decode the
      body's elements. */
  method FindAt<R>(p: Platform, svc: Registry.ServiceType, ext: Option<CString>, fhttp: HttpClient,
                   params: ParamList, dec: Decoder<R>, result: array<R>, count: int)
    returns (r: Run<ResultCode>, newCount: int)
    requires count <= result.Length
    modifies fhttp, result
    ensures fhttp.Settings() == ForService(old(fhttp.Settings()), svc)
    ensures ManyMatches(r, newCount, result[..],
              FindSpec(p, fhttp.Settings(), ext, old(params.pairs), dec, old(result[..]), count))
  {
    var ok, path := PreparePath(fhttp, svc, "", ext, [], params);
    if !ok {
      return Abort, count;
    }
    r, newCount := FetchMany(p, fhttp, METHOD_GET, path, None, dec, result, count);
  }

  /** The end of find_many: build the request document from the id list,
      MGET it and decode the reply. */
  method SendMany<R>(p: Platform, fhttp: HttpClient, path: CString, items: seq<IdItem<ParamList>>,
                     dec: Decoder<R>, result: array<R>, count: int) returns (r: Run<ResultCode>, newCount: int)
    requires count <= result.Length
    modifies result
    ensures ManyMatches(r, newCount, result[..],
              ManySpec(p, fhttp.Settings(), METHOD_MGET, path, Some(p.render(ManyRequest(old(Entries(items))))), dec, old(result[..]), count))
  {
    var doc := BuildManyRequest(items);
    r, newCount := FetchMany(p, fhttp, METHOD_MGET, path, Some(p.render(doc)), dec, result, count);
  }

  /** `flowthings_io_service_find_many(svc, path_ext, api, decoder, idlist,
      result, result_count)`: MGET "<ext>?flatten=flat" with the id list as a
      JSON array and decode the body's elements into the result slots. */
  method FindMany<R>(p: Platform, svc: Registry.ServiceType, ext: Option<CString>, api: Api?, dec: Option<Decoder<R>>,
                     idlist: IdList?<ParamList>, result: array<R>, count: int)
    returns (r: Run<ResultCode>, newCount: int)
    requires count <= result.Length
    modifies if api != null && api.fhttp != null then {api.fhttp} else {}, result
    ensures api == null || api.fhttp == null ==> r == Done(NotInitialized) && newCount == count && unchanged(result)
    ensures api != null && api.fhttp != null && dec.None? ==>
              r == Done(CouldntDecode) && newCount == count && unchanged(api.fhttp) && unchanged(result)
    ensures api != null && api.fhttp != null && dec.Some? ==>
              && api.fhttp.Settings() == ForService(old(api.fhttp.Settings()), svc)
              && ManyMatches(r, newCount, result[..],
                   FindManySpec(p, api.fhttp.Settings(), ext,
                                if idlist == null then None else Some(old(Entries(idlist.items))),
                                dec.value, old(result[..]), count))
  {
    if api == null || api.fhttp == null {
      return Done(NotInitialized), count;
    }
    if dec.None? {
      return Done(CouldntDecode), count;
    }
    r, newCount := FindManyAt(p, svc, ext, api.fhttp, dec.value, idlist, result, count);
  }

  /** Find_many once its decoder check passed: set the base path, build the
      path, and send the id list unless it is missing. */
  method FindManyAt<R>(p: Platform, svc: Registry.ServiceType, ext: Option<CString>, fhttp: HttpClient,
                       dec: Decoder<R>, idlist: IdList?<ParamList>, result: array<R>, count: int)
    returns (r: Run<ResultCode>, newCount: int)
    requires count <= result.Length
    modifies fhttp, result
    ensures fhttp.Settings() == ForService(old(fhttp.Settings()), svc)
    ensures ManyMatches(r, newCount, result[..],
              FindManySpec(p, fhttp.Settings(), ext,
                           if idlist == null then None else Some(old(Entries(idlist.items))),
                           dec, old(result[..]), count))
  {
    ghost var entries := if idlist == null then None else Some(Entries(idlist.items));
    var ok, path := PreparePath(fhttp, svc, "", ext, [FLATTEN_QUERY], null);
    if !ok {
      return Abort, count;
    }
    r, newCount := FindManySend(p, fhttp, ext, path, dec, idlist, entries, result, count);
  }

  /** Find_many once its path is built: a missing id list is a bad request,
      and otherwise the id list goes out. */
  method FindManySend<R>(p: Platform, fhttp: HttpClient, ext: Option<CString>, path: CString,
                         dec: Decoder<R>, idlist: IdList?<ParamList>, ghost entries: Option<seq<IdItem<seq<Param>>>>,
                         result: array<R>, count: int)
    returns (r: Run<ResultCode>, newCount: int)
    requires path == FindManyPath(ext) && PathFits(path)
    requires entries == if idlist == null then None else Some(Entries(idlist.items))
    requires count <= result.Length
    modifies result
    ensures ManyMatches(r, newCount, result[..], FindManySpec(p, fhttp.Settings(), ext, entries, dec, old(result[..]), count))
  {
    if idlist == null {
      return Done(BadRequest), count;
    }
    r, newCount := SendMany(p, fhttp, path, idlist.items, dec, result, count);
  }
}
