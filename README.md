# flowthings C client — a Dafny model of its core

This project models the core of the flowthings C client, a small library that
talks to the flowthings REST/JSON platform. It models:

- **Text** (`text.dfy`). The C-string primitives of `flowthings_io.c`:
  - the growable `flowthings_io_string`, a class with `ptr` and `len`;
  - the capacity-checked `flowthings_io_strcat` on a caller's fixed-size
    `char` array, modelled as class `FixedText` over an `array<char>`;
  - the value-level `Strcat`, which a FAIL turns into `Abort`.
- **PercentEncoding** (`escape.dfy`). `flowthings_io_http_urlencode`, which is
  libcurl's escaping. It is modelled concretely as the percent-encoding of
  section 2.1 of RFC 3986, with a reference decoder as its inverse.
- **Params** (`params.dfy`) and **IdLists** (`idlist.dfy`). The two
  prepend-only linked lists of `flowthings_io.c`. Each is a class holding a
  sequence whose element 0 is the node `start` points to. `Params` also holds
  the query-string serialisation `flowthings_io_params_to_url` and a reference
  reader that parses it back.
- **Json** (`json.dfy`). The part of cJSON the services use: member lookup by
  key, ignoring case, and array elements.
- **Registry** (`registry.dfy`). The service table of
  `flowthings_io_services.h`: the nine kinds, their names and base paths, the
  verb masks and the convenience macros.
- **Http** (`http.dfy`). From `flowthings_io_http.c`:
  - the full URL of a request;
  - the authentication headers;
  - which methods carry data;
  - the write callback;
  - `flowthings_io_http_request`, over a `Transport` function that stands for
    libcurl.
- **Services** (`services.dfy`). The generic operations read, create, update,
  delete, find and find_many, with:
  - their path building into `char path[500]`;
  - the status-to-code mapping;
  - the required `body` member;
  - the decode loop over the result slots;
  - find_many's request document.

**Failures.** The library's `FAIL` macro prints a message and exits the
process. It is modelled as the outcome `Run.Abort` (or `ok == false` from a
buffer method, after which every caller stops). It is never a result code.

**The outside world.** The network, the JSON parser and the JSON printer are
function-valued fields of a `Platform` value, and the caller's encode and
decode callbacks are function values. Each operation is proved against a
specification function (`ReadSpec`, `FindSpec`, …). That function states:

- the code returned;
- the object or result slots afterwards;
- `*result_count`;
- the base path left on the HTTP handle.

**Code over documentation.** Where the documentation and the code disagree,
the model follows the code:

- `flowthings_io_params_to_url` emits a trailing `&` after the last pair,
  although its comment's example shows none.
- The read function's doc comment calls it a create.
- find adds its `filter` pair to the caller's list before it checks `api`, so
  the caller's list keeps the pair even when find returns `NotInitialized`.

## Model

| member | source | states |
|---|---|---|
| Text.CPrefix | src/flowthings_io_services.c:112 | What `cJSON_Parse(response->ptr)` reads is the prefix of the response up to its first NUL; it is the whole text when the text holds no NUL. |
| Text.Strcat | src/flowthings_io.c:70-80 | The bounded strcat succeeds exactly when `strlen(dest)+strlen(src)+1 <= max_length`, compared as `size_t`. For a non-negative `max_length` the result then stays below it; a negative `max_length` converts to a huge bound, so any append of real strings goes through. On success it yields `dest` followed by `src`, never truncated. |
| Text.StrcatEachAll | src/flowthings_io.c:70-80 | A run of bounded strcats into one buffer reaches FAIL exactly when the whole concatenation does not fit; otherwise the buffer holds the concatenation. |
| Text.PrependEachReverses | src/flowthings_io.c:165-188 | Prepending a run of nodes leaves the old list intact as the tail, with the additions in front, most recent first. |
| Text.StrcatCopyAsWrittenOverruns | src/flowthings_io.c:96 | As written, the memcpy of `new_len` bytes stays inside the reallocated buffer and the source exactly when the destination holds at most one character. |
| Text.StrcatCopyAsWrittenExample | src/flowthings_io.c:96 | Appending "c" to "ab" copies past both buffers. |
| Text.StrcatCopyInBounds | src/flowthings_io.c:91-96 | Copying `strlen(src)` bytes always stays in bounds. |
| Text.DynString.constructor | src/flowthings_io.c:30-48 | `flowthings_io_string_init` gives `len == 0`, an empty text and a terminator at index 0. |
| Text.DynString.Append | src/flowthings_io_http.c:109-114 | The realloc-copy-terminate step: the new length is the old length plus the appended count, the old text is a prefix of the new one, and the text is the old text followed by the appended characters. |
| Text.DynString.Strcat | src/flowthings_io.c:88-99 | `flowthings_io_string_strcat`: `len` grows by `strlen(src)`, the text becomes the old text followed by `src`, and `ptr[len]` is the terminator. This is the corrected copy count. |
| Text.FixedText.constructor | src/flowthings_io_services.c:79 | `char path[N] = init`: the buffer holds `init` and its terminator. |
| Text.FixedText.Strcpy | src/flowthings_io_http.c:45-48 | `strcpy` of a literal that fits replaces the text. |
| Text.FixedText.Strcat | src/flowthings_io.c:70-80 | `flowthings_io_strcat` on a caller's array: success exactly when the text, `src` and the terminator fit the capacity; then the text is the old text followed by `src`; otherwise it is unchanged. |
| Text.FixedText.StrcatAll | src/flowthings_io_http.c:50-56 | Consecutive strcats into one array: FAIL exactly when the whole concatenation does not fit, otherwise the text grows by exactly that concatenation. |
| PercentEncoding.HexDigit | src/flowthings_io_http.c:200-215 | The hex digit printed for a nibble is upper-case and decodes back to that nibble. |
| PercentEncoding.Escape | src/flowthings_io_http.c:200-215 | The escaped text holds only unreserved characters and "%", and it is between one and three times as long as the input. |
| PercentEncoding.UnescapeEscape | src/flowthings_io_http.c:200-215 | Percent-decoding the escaped form of any byte string gives the string back. |
| PercentEncoding.EscapeInjective | src/flowthings_io_http.c:200-215 | Two byte strings with the same escaped form are equal. |
| PercentEncoding.UrlEncode | src/flowthings_io_http.c:200-215 | `flowthings_io_http_urlencode` appends exactly the escaped input to the output string. |
| Params.QueryStringEndsWithAmpersand | src/flowthings_io.c:202-233 | A non-empty list's query string ends with "&" (the trailing separator the code emits). |
| Params.ParseQueryString | src/flowthings_io.c:202-233 | Reading the query string back yields every pair once, in list order, with its value restored, provided no key holds "=" or "&". |
| Params.QueryOfAdds | src/flowthings_io.c:165-233 | Pairs added one by one to a fresh list are serialised most recently added first. |
| Params.QueryPairsStep | src/flowthings_io.c:215-229 | One more pair extends the serialised prefix by exactly that pair's `key=escaped&` entry, and the prefix never exceeds the whole. |
| Params.AppendEntry | src/flowthings_io.c:220-229 | One loop pass: FAIL exactly when the pair's entry does not fit; otherwise the URL grows by `key "=" escaped "&"`. |
| Params.AppendEntries | src/flowthings_io.c:215-232 | The loop: FAIL exactly when all the entries do not fit; otherwise the URL grows by every entry in list order. |
| Params.ParamList.constructor | src/flowthings_io.c:112-123 | `flowthings_io_params_init` gives an empty list. |
| Params.ParamList.Add | src/flowthings_io.c:165-188 | The new pair, a copy of key and value, is at the front, and the old list is the tail. |
| Params.ParamList.ToUrl | src/flowthings_io.c:202-233 | An empty list leaves the URL unchanged. Otherwise FAIL happens exactly when "?" and every entry do not fit; if they fit, the URL grows by `?k=enc(v)&…`. |
| Params.ParamList.Cleanup | src/flowthings_io.c:134-154 | Every node is released, first to last, and the list is empty. |
| IdLists.IdList.constructor | src/flowthings_io.c:246-257 | `flowthings_io_idlist_init` gives an empty list. |
| IdLists.IdList.Add | src/flowthings_io.c:299-318 | An id of 40 or more characters is FAIL and links nothing. Otherwise a node with a copy of the id and the item pointer as given goes in front, and every id still fits its 40-character array. |
| IdLists.IdList.Cleanup | src/flowthings_io.c:268-286 | Only the list's own nodes are released, first to last: the list ends empty and no caller item is touched. |
| IdLists.AddedIds | src/flowthings_io.c:299-318 | After a run of adds to an empty list, the ids are in reverse order of adding. |
| Json.FindField | src/flowthings_io_services.c:115 | The member found for a key is the first whose key matches, ignoring case; no earlier member matches; absent means no member matches. |
| Json.GetObjectItem | src/flowthings_io_services.c:115 | A lookup succeeds exactly on an object with a member whose key matches. |
| Json.GetFirstAdded | src/flowthings_io_services.c:516-530 | In an object built by successive adds, a key whose first occurrence is at position k reads back the value added there. |
| Registry.Info | src/flowthings_io_services.h:68-78 | The table entry of kind i has id i, and its base path is "/" followed by its non-empty name. |
| Registry.ActionBitsDistinct | src/flowthings_io_services.h:44-47 | READ, CREATE, UPDATE and DELETE are single bits, and distinct verbs share no bit. |
| Registry.Masks | src/flowthings_io_services.h:69-77 | identity allows read and update; token and share allow read, create and delete; every other kind allows all four. |
| Registry.MacrosFollowMask | src/flowthings_io_services.h:135-236 | A read, create, update or delete macro exists for a kind exactly when the kind's mask allows the verb. |
| Registry.OnlyDropForwards | src/flowthings_io_services.h:135-297 | Only drop macros forward the caller's `path_ext`, and `drop_find_many` does not. |
| Http.UrlShape | src/flowthings_io_http.c:39-57 | The URL is scheme, host, "/v", version, "/", account, base path and path, with nothing else between them; it fits exactly when it is shorter than 1000. |
| Http.CarriesBodyMethods | src/flowthings_io_http.c:169-173 | Of GET, MGET, POST, PUT and DELETE, data is attached exactly for POST, PUT and MGET. |
| Http.RequestOutcomeCases | src/flowthings_io_http.c:135-189 | A request aborts exactly when the URL or a header would overflow. A failed transfer reports 0, a completed one the server's status. This call attaches data only for POST, PUT and MGET; for GET and DELETE it attaches none. |
| Http.HttpClient.constructor | src/flowthings_io_http.c:78-95 | `flowthings_io_http_init` records version, host, security and credentials; it promises nothing about the base path, which the source leaves uninitialised. |
| Http.MakeUrl | src/flowthings_io_http.c:39-57 | `__flowthings_io_makeurl`: FAIL exactly when the URL does not fit its 1000-character array, otherwise the array holds the URL. |
| Http.BuildHeader | src/flowthings_io_http.c:150-156 | An authentication header is its prefix followed by the credential. A credential that would not fit in 100 characters with the prefix and terminator is FAIL. |
| Http.WriteFunc | src/flowthings_io_http.c:103-117 | The callback appends exactly `size*nmemb` characters, leaves the old prefix unchanged, sets `len` to old plus `size*nmemb`, and returns `size*nmemb`. |
| Http.Deliver | src/flowthings_io_http.c:160-175 | The response receives the transfer's chunks through the callback, in order: the text grows by their concatenation. |
| Http.Request | src/flowthings_io_http.c:135-189 | 0 when the handle, method, path or response is missing. Otherwise FAIL exactly when the URL or a header does not fit; else the status of a completed transfer or 0, with the response grown by everything the transfer delivered. |
| Services.StatusError | src/flowthings_io_services.c:97-110 | The switch applies exactly outside 200..399, and its code is one of BadRequest, Forbidden, NotFound, ServerError and Unknown. |
| Services.StatusErrorInverse | src/flowthings_io_services.c:97-110 | BadRequest comes from 400 only, Forbidden from 403, NotFound from 404, ServerError from 500. Unknown comes from every other status outside 200..399, 0 included. |
| Services.ErrorStatusIgnoresBody | src/flowthings_io_services.c:97-112 | On an error status the code does not depend on the reply text or the parser: no body is parsed. |
| Services.HandleAnswered | src/flowthings_io_services.c:97-117 | A reply goes on to decoding exactly when its status is in 200..399 and it parses to a document with a `body` member. With such a status and no body the result is MalformedResponse. |
| Services.ReadPathShape | src/flowthings_io_services.c:79-92 | read's path is `[/ext]`, "/", the id, then the query string of the params if given. |
| Services.CreatePathShape | src/flowthings_io_services.c:155-164 | create's path is `[/ext]` alone; params play no part. |
| Services.UpdatePathShape | src/flowthings_io_services.c:238-250 | update's path is "/", `[/ext]`, "/" and the id; params play no part. |
| Services.DeletePathShape | src/flowthings_io_services.c:318-324 | delete's path is "/", `[/ext]` and the id, with no separator before the id. |
| Services.FindPathShape | src/flowthings_io_services.c:398-409 | find's path is `[/ext]` followed by the query string of the list, filter included. |
| Services.FindManyPathShape | src/flowthings_io_services.c:490-499 | find_many's path is `[/ext]` followed by "?flatten=flat". |
| Services.UpdateDeletePathShapes | src/flowthings_io_services.c:238-250 | update and delete paths start with "//" when an extension is given; without one, update's still starts with "//" and delete's is "/" followed by the id. |
| Services.ReadFindManyPathShapes | src/flowthings_io_services.c:79-92 | Without an extension, read's path is "/" followed by the id and the query string. |
| Services.AddPathExt | src/flowthings_io_services.c:34-40 | `__flowthings_io_add_path_ext` appends "/" and the extension when given, nothing otherwise; FAIL exactly when that does not fit. |
| Services.BuildPath | src/flowthings_io_services.c:79-92 | The path steps into `char path[500]` reach FAIL exactly when the whole path does not fit, and otherwise yield it. |
| Services.PreparePath | src/flowthings_io_services.c:84-92 | The handle's base path becomes the kind's and nothing else about it changes; the path is built as `BuildPath` states. |
| Services.Bound | src/flowthings_io_services.c:436 | The loop bound is at most the element count and at most `max(*result_count, 0)`, and equals the latter whenever elements remain. |
| Services.DecodeFromCharacterised | src/flowthings_io_services.c:436-443 | From any point of the loop on: every element before the stop decoded, the stopping element failed, slots after the stop are untouched, and the code follows. |
| Services.DecodeLoopCharacterised | src/flowthings_io_services.c:436-443 | The count is the number of elements decoded before the first failure, within the bound. Each slot up to and including the stop holds what the decoder made of it, and the rest are untouched. The code is Ok, CouldntDecode, or unassigned when the loop never ran. |
| Services.DecodeInto | src/flowthings_io_services.c:561-568 | The `for` loop on the caller's array computes exactly the count, code and slots of the loop specification. Slot i is the object `result[i]` points to, the corrected target from "## Findings". |
| Services.FindDecodeAsWrittenOverruns | src/flowthings_io_services.c:438 | As written, the decoder for element i writes at byte 8·i of the pointer array. An object larger than a pointer spills past its cell. With ten 4-byte objects, element 5 writes past the 40-byte block and object 1 is never written. |
| Services.LoopCodeMeaning | src/flowthings_io_services.c:481-568 | find_many returns Ok exactly when the loop ran and every element in range decoded, CouldntDecode exactly when one failed, and Unknown exactly when the loop never ran. |
| Services.FindCodeAsWrittenIndeterminate | src/flowthings_io_services.c:383 | A body that is not an array, or an empty array, leaves find's code unassigned. |
| Services.ManyRequest | src/flowthings_io_services.c:504-534 | One `{"flowId", "params"}` object per id-list node, in list order. |
| Services.ManyRequestReadBack | src/flowthings_io_services.c:504-534 | Element k of the request reads back the k-th id under "flowId" and that id's pairs under "params"; a key first seen at pair j reads back pair j's value. |
| Services.BuildParams | src/flowthings_io_services.c:519-529 | The inner `while` builds exactly the members of the node's parameter list. |
| Services.BuildManyRequest | src/flowthings_io_services.c:504-534 | The outer `while` builds exactly the request document of the id list. |
| Services.Exchange | src/flowthings_io_services.c:94-117 | The request and its reply handling for read, create, update, find and find_many, as the specification states. |
| Services.FetchOne | src/flowthings_io_services.c:94-121 | After the request: an error status or missing body gives its code with the object untouched. Otherwise, with no decoder, Ok; else Ok or CouldntDecode from the decoder, which fills the object. |
| Services.FetchMany | src/flowthings_io_services.c:414-443 | After the request: an error status or missing body gives its code with slots and count untouched; otherwise the decode loop decides slots, count and code. |
| Services.Read | src/flowthings_io_services.c:63-126 | NotInitialized without a handle; CouldntDecode without a decoder or result (handle untouched); FAIL without an id. Otherwise the base path is the kind's and the result is GET of `[/ext]/id[?query]` decoded into the object. |
| Services.ReadAt | src/flowthings_io_services.c:79-126 | read after its argument checks, as its specification states. |
| Services.Create | src/flowthings_io_services.c:146-208 | NotInitialized without a handle; the base path is set next, then a path that does not fit is FAIL. CouldntEncode without an encoder or object. Otherwise the encoded object is POSTed and decoded back if a decoder is given; the encoder's flag is ignored. |
| Services.Update | src/flowthings_io_services.c:229-295 | Like create, with FAIL for a missing id and a PUT to `/[/ext]/id`. |
| Services.SendDelete | src/flowthings_io_services.c:326-348 | The DELETE request: its status alone decides, Ok inside 200..399. |
| Services.Delete | src/flowthings_io_services.c:311-349 | NotInitialized without a handle; otherwise the base path is the kind's, a missing id is FAIL, and the result is the status code of DELETE `/[/ext]id`. |
| Services.Find | src/flowthings_io_services.c:375-452 | A missing filter is FAIL. Otherwise the `filter` pair goes in front of the caller's list before any other check. NotInitialized and CouldntDecode leave count and slots alone. Otherwise the base path is the kind's and the outcome is GET `[/ext]?query` with the decode loop. When the loop never runs, the result is Unknown: this is the corrected start from "## Findings", where the source returns an indeterminate value. |
| Services.FindAt | src/flowthings_io_services.c:398-445 | find after its argument checks, as its specification states. |
| Services.SendMany | src/flowthings_io_services.c:501-570 | The request document built from the id list is MGETed and its reply decoded into the slots. |
| Services.FindMany | src/flowthings_io_services.c:473-573 | NotInitialized without a handle; CouldntDecode without a decoder; both leave count and slots alone. Otherwise the base path is the kind's, a path that does not fit is FAIL, a missing id list is BadRequest, and the outcome is MGET `[/ext]?flatten=flat` of the id list's document with the decode loop. |
| Services.FindManyAt | src/flowthings_io_services.c:490-573 | find_many after its decoder check, as its specification states. |
| Services.FindManySend | src/flowthings_io_services.c:501-573 | find_many once its path is built: BadRequest with count and slots untouched for a missing id list, and otherwise the MGET of the id list's document with the decode loop, as its specification states. |

## Left out

- libcurl is a `Transport` function: an exchange (method, URL, headers, data) maps to the chunks handed to the write callback and an optional status. Handle setup, `curl_easy_setopt` and the build without `USING_HTTP_LIBRARY_CURL`, which always returns 0, are not modelled.
- cJSON parsing and printing are functions in `Platform`. The document model keeps only what the services read: objects with ordered members, arrays, strings, numbers, booleans and null.
- Http.Request: the `(int)rc` truncation of the `long` status is not modelled; the status is an unbounded integer.
- Text.DynString.Append: `size * nmemb` and `new_len + 1` are unbounded, so a `size_t` overflow is not modelled.
- Allocation failure (a NULL from `malloc` or `realloc`, which is FAIL) is not modelled.
- Memory leaks on early returns are not modelled; they are not observable. This covers the response string, find's own parameter list and the cJSON documents.
- `flowthings_io_string_cleanup`, `flowthings_io_http_cleanup` and the api init and cleanup (`flowthings_io_api.c`) only free memory and are left out. `Services.Api` stands for the handle.
- Null pointer arguments for which the source's only reaction is FAIL are non-null types. This covers:
  - `flowthings_io_strcat`'s `src` and `dest`;
  - `params_add`'s list, key and value;
  - `params_cleanup`'s list and `idlist_cleanup`'s list;
  - `idlist_add`'s list and id;
  - `params_to_url`'s list and URL.
  The null arguments that lead to a result code or a 0 are modelled as `Option` or nullable references.
- find and find_many dereference `result_count` without a NULL check, and find_many never checks `result`. Both are non-null in the model, as the doc comments require them to be allocated by the caller; a NULL there is undefined behaviour in the source and is not modelled.
- Http.HttpClient.constructor: `flowthings_io_http_init` leaves `base_path` uninitialised, so a request made directly through `flowthings_io_http_request` before any service sets it reads an indeterminate pointer. The constructor's contract promises nothing about `basePath`. `Http.Request` and `Http.MakeUrl` still read it as a well-defined string; that undefined behaviour is not modelled.
- Text.Strcat: the left side of the `size_t` comparison, `strlen(src) + strlen(dest) + 1`, could wrap only for strings near 2^64 characters, which cannot exist; the model takes it as unbounded. The array method `Text.FixedText.Strcat` takes the array's capacity as `max_length`, which is what every call site passes (40, 100, 500 or 1000), so its negative case does not arise there.
- find_many's `if (!item->id) FAIL` cannot fire, because a node's id is an array inside the node. A node added with a NULL item, as `idlist_add` allows, would crash find_many, which reads it as a parameter list; the model types the item as a `ParamList`.
- Params.ParseQueryString: the round trip is stated for keys without "=" or "&", because keys are not escaped and such a key cannot be read back by any reader.
- The shared `base_path` on the handle is a hazard for concurrent requests; the model runs one request at a time.
- `params` is accepted and ignored by create, update and delete, as in the source; the model takes it and does not use it.
- Services.Find: the caller's list keeps the `filter` pair afterwards. The list find creates itself is cleaned up on every path after the request, where the source only frees it on success; the leak is not observable.
- Http.Request: `CURLOPT_POSTFIELDS` is set only for POST, PUT and MGET and never cleared on the curl handle that every request of an api reuses, and the printed body it points to is never freed. A later GET or DELETE on the same handle therefore still sends the last body, while the model's exchange for GET and DELETE carries no data. The transport is modelled as a function of the current call's exchange alone.
- Services.DecodeInto: a slot is the object `result[i]` points to, which the decoder fills. This is the corrected target, and `Services.Find` and `Services.FindMany` use it. The source hands the decoder `&result[i]`, the pointer cell itself. Only the byte ranges that write covers are modelled (`Services.FindDecodeAsWrittenOverruns`); what it does to the caller's memory beyond them is not.
- Services.Find: when the decode loop never runs (a `body` that is not an array, an empty array, or `*result_count <= 0`), the source returns its uninitialised `code`. The model returns Unknown, the corrected start recorded under "## Findings"; the as-written behaviour is `Services.FindCodeAsWrittenIndeterminate`.
- The demo program (`flowthings_io_test.c`) is not part of this model.

## Findings

| source | as written | input that shows it | evidently intended | confidence | as-written member | corrected member |
|---|---|---|---|---|---|---|
| src/flowthings_io.c:96 | `memcpy(dest->ptr + dest->len, src, new_len)` copies `new_len = len + strlen(src)` bytes after the old text | appending "c" to "ab": 3 bytes go to indices 2..4 of a 4-byte buffer and are read from a 2-byte source | copy `strlen(src)` bytes (or `strlen(src) + 1` with the terminator) | not executed | Text.StrcatCopyAsWrittenExample | Text.DynString.Strcat |
| src/flowthings_io_services.c:438, 563 | find and find_many call `decoder(item, &result[i])`, handing over the address of the i-th cell of `void *result[]` | a decoder that fills an object of more than 8 bytes runs into the next cell; a caller passing ten 4-byte objects gets element 5 written past the 40-byte block and object 1 never written | `decoder(item, result[i])`, filling the pre-allocated object the cell points to, as read does at line 120 and the doc comment at lines 369-371 describes | not executed | Services.FindDecodeAsWrittenOverruns | Services.DecodeInto |
| src/flowthings_io_services.c:383 | find declares `code` without a value and returns it even when the decode loop never runs (line 451) | a reply whose `body` is not an array, an empty array, or `*result_count == 0` | start from `FLOWTHINGS_IO_ERROR_UNKNOWN`, as find_many does at line 481 | not executed | Services.FindCodeAsWrittenIndeterminate | Services.LoopCodeMeaning |
