/** `flowthings_io_params` (flowthings_io.c): a prepend-only list of key/value
    pairs and its serialisation into a URL query string. */
module Params {
  import opened Text
  import opened PercentEncoding

  /** A `flowthings_io_param`: its own copies of the key and the value. */
  datatype Param = Param(key: CString, value: CString)

  /** One pair as `flowthings_io_params_to_url` writes it: the key raw, the
      value escaped, and a "&" after every pair, the last one included. */
  function Entry(p: Param): CString {
    p.key + "=" + Escape(p.value) + "&"
  }

  function QueryPairs(ps: seq<Param>): CString {
    if ps == [] then [] else Entry(ps[0]) + QueryPairs(ps[1..])
  }

  /** The mark that opens a query string. */
  const QUERY_MARK: CString := "?"

  /** What `flowthings_io_params_to_url` appends to the URL: nothing for an
      empty list, otherwise "?" and every pair in list order. */
  function QueryString(ps: seq<Param>): CString {
    if ps == [] then [] else QUERY_MARK + QueryPairs(ps)
  }

  lemma {:induction false} QueryPairsAppend(a: seq<Param>, b: seq<Param>)
    ensures QueryPairs(a + b) == QueryPairs(a) + QueryPairs(b)
  {
    if a == [] {
      assert a + b == b;
    } else {
      assert (a + b)[1..] == a[1..] + b;
      QueryPairsAppend(a[1..], b);
    }
  }

  /** The key and value of each pair, as plain strings. */
  function Plain(ps: seq<Param>): seq<(string, string)> {
    if ps == [] then [] else [(ps[0].key, ps[0].value)] + Plain(ps[1..])
  }

  /** The text of `s` before the first `c`. */
  function Upto(s: string, c: char): (r: string)
    ensures |r| <= |s| && r == s[..|r|]
    ensures c !in r
    ensures |r| < |s| ==> s[|r|] == c
  {
    if s == [] || s[0] == c then [] else [s[0]] + Upto(s[1..], c)
  }

  lemma {:induction false} UptoDelimited(a: string, c: char, b: string)
    requires c !in a
    ensures Upto(a + [c] + b, c) == a
  {
    if a == [] {
      assert (a + [c] + b)[0] == c;
    } else {
      assert (a + [c] + b)[0] == a[0];
      assert (a + [c] + b)[1..] == a[1..] + [c] + b;
      UptoDelimited(a[1..], c, b);
    }
  }

  /** A reference reader for the pairs part of a query string: `key=value&`
      groups, each value percent-decoded. */
  function ParsePairs(s: string): Option<seq<(string, string)>>
    decreases |s|
  {
    if s == [] then Some([])
    else
      var key := Upto(s, '=');
      if |key| == |s| then None
      else
        var rest := s[|key| + 1..];
        var raw := Upto(rest, '&');
        if |raw| == |rest| then None
        else match ParsePairs(rest[|raw| + 1..])
          case None => None
          case Some(tail) => Some([(key, Unescape(raw))] + tail)
  }

  /** A reference reader for what `QueryString` produces. */
  function ParseQuery(q: string): Option<seq<(string, string)>> {
    if q == [] then Some([])
    else if q[0] == '?' then ParsePairs(q[1..])
    else None
  }

  /** Keys are not escaped: a key must not hold the query delimiters. */
  predicate SafeKey(k: string) {
    '=' !in k && '&' !in k
  }

  /** A pair the reader gets back unchanged: a safe key and a value of bytes. */
  predicate ReadableParam(p: Param) {
    SafeKey(p.key) && forall j | 0 <= j < |p.value| :: IsByte(p.value[j])
  }

  predicate Readable(ps: seq<Param>) {
    forall i | 0 <= i < |ps| :: ReadableParam(ps[i])
  }

  /** The reader takes one `key=value&` group off the front. */
  lemma ParsePairsEntry(key: string, e: string, tail: string)
    requires SafeKey(key) && '&' !in e
    ensures ParsePairs(key + "=" + e + "&" + tail)
            == match ParsePairs(tail)
               case None => None
               case Some(t) => Some([(key, Unescape(e))] + t)
  {
    var s := key + "=" + e + "&" + tail;
    var rest := e + ['&'] + tail;
    assert s == key + ['='] + rest;
    UptoDelimited(key, '=', rest);
    assert s[|key| + 1..] == rest;
    UptoDelimited(e, '&', tail);
    assert rest[|e| + 1..] == tail;
  }

  lemma EscapeHasNoAmpersand(s: string)
    ensures '&' !in Escape(s)
  {
    var e := Escape(s);
    forall i | 0 <= i < |e|
      ensures e[i] != '&'
    {
      assert EscapedChar(e[i]);
    }
  }

  lemma {:induction false} ParsePairsQueryPairs(ps: seq<Param>)
    requires Readable(ps)
    ensures ParsePairs(QueryPairs(ps)) == Some(Plain(ps))
  {
    if ps != [] {
      var p := ps[0];
      assert ReadableParam(p);
      EscapeHasNoAmpersand(p.value);
      ParsePairsEntry(p.key, Escape(p.value), QueryPairs(ps[1..]));
      UnescapeEscape(p.value);
      assert Readable(ps[1..]) by {
        forall i | 0 <= i < |ps[1..]|
          ensures ReadableParam(ps[1..][i])
        {
          assert ps[1..][i] == ps[i + 1];
        }
      }
      ParsePairsQueryPairs(ps[1..]);
    }
  }

  /** Every pair comes back out of the query string exactly once, in list
      order, with its value intact. */
  lemma ParseQueryString(ps: seq<Param>)
    requires Readable(ps)
    ensures ParseQuery(QueryString(ps)) == Some(Plain(ps))
  {
    if ps != [] {
      ParsePairsQueryPairs(ps);
      assert QueryString(ps)[1..] == QueryPairs(ps);
    }
  }

  /** The trailing "&": a non-empty list's query string ends with it. */
  lemma QueryStringEndsWithAmpersand(ps: seq<Param>)
    requires ps != []
    ensures QueryString(ps)[|QueryString(ps)| - 1] == '&'
  {
    QueryPairsAppend(ps[..|ps| - 1], [ps[|ps| - 1]]);
    assert ps[..|ps| - 1] + [ps[|ps| - 1]] == ps;
  }

  /** Adding pairs to a fresh list and serialising it emits every pair once,
      the most recently added first. */
  lemma QueryOfAdds(adds: seq<Param>)
    requires Readable(adds)
    ensures ParseQuery(QueryString(PrependEach([], adds))) == Some(Plain(Reversed(adds)))
  {
    PrependEachReverses([], adds);
    assert Reversed(adds) + [] == Reversed(adds);
    ReversedReadable(adds);
    ParseQueryString(Reversed(adds));
  }

  lemma {:induction false} ReversedReadable(ps: seq<Param>)
    requires Readable(ps)
    ensures Readable(Reversed(ps))
  {
    if ps != [] {
      assert Readable(ps[1..]) by {
        forall i | 0 <= i < |ps[1..]|
          ensures ReadableParam(ps[1..][i])
        {
          assert ps[1..][i] == ps[i + 1];
        }
      }
      ReversedReadable(ps[1..]);
      var r := Reversed(ps);
      forall i | 0 <= i < |r|
        ensures ReadableParam(r[i])
      {
        if i < |r| - 1 {
          assert r[i] == Reversed(ps[1..])[i];
        } else {
          assert r[i] == ps[0];
        }
      }
    }
  }

  lemma ConcatEntry(p: Param)
    ensures Concat([p.key, "=", Escape(p.value), "&"]) == Entry(p)
  {
    var parts := [p.key, "=", Escape(p.value), "&"];
    assert Concat(parts[3..]) == "&" by {
      assert parts[3..][1..] == [];
    }
    assert Concat(parts[2..]) == Escape(p.value) + "&" by {
      assert parts[2..][1..] == parts[3..];
    }
    assert Concat(parts[1..]) == "=" + Escape(p.value) + "&" by {
      assert parts[1..][1..] == parts[2..];
    }
  }

  /** The query text up to and including pair `i`, and how much follows it. */
  lemma QueryPairsStep(ps: seq<Param>, i: nat)
    requires i < |ps|
    ensures QueryPairs(ps[..i + 1]) == QueryPairs(ps[..i]) + Entry(ps[i])
    ensures |QueryPairs(ps[..i])| + |Entry(ps[i])| <= |QueryPairs(ps)|
  {
    assert ps[..i + 1] == ps[..i] + [ps[i]];
    QueryPairsSnoc(ps[..i], ps[i]);
    QueryPairsPrefix(ps, i + 1);
  }

  lemma QueryPairsSnoc(ps: seq<Param>, pair: Param)
    ensures QueryPairs(ps + [pair]) == QueryPairs(ps) + Entry(pair)
  {
    assert QueryPairs([pair]) == Entry(pair) by {
      assert [pair][1..] == [];
    }
    QueryPairsAppend(ps, [pair]);
  }

  lemma QueryPairsPrefix(ps: seq<Param>, k: nat)
    requires k <= |ps|
    ensures |QueryPairs(ps[..k])| <= |QueryPairs(ps)|
  {
    assert ps == ps[..k] + ps[k..];
    QueryPairsAppend(ps[..k], ps[k..]);
  }

  /** One pass of the `flowthings_io_params_to_url` loop: escape the value
      with `flowthings_io_http_urlencode` and append key, "=", the escaped
      value and "&", each with `flowthings_io_strcat`. */
  method AppendEntry(url: FixedText, param: Param) returns (ok: bool)
    requires url.Valid()
    modifies url, url.data
    ensures url.Valid()
    ensures ok <==> StrcatFits(|old(url.Text())|, |Entry(param)|, url.data.Length)
    ensures ok ==> url.Text() == old(url.Text()) + Entry(param)
  {
    var encoded := new DynString();
    UrlEncode(param.value, encoded);
    var escaped: CString := encoded.Text();
    assert escaped == Escape(param.value);
    ConcatEntry(param);
    ok := url.StrcatAll([param.key, "=", escaped, "&"]);
  }

  /** The loop of `flowthings_io_params_to_url`: one `AppendEntry` per pair,
      first to last, stopping at the first FAIL. */
  method AppendEntries(url: FixedText, ps: seq<Param>) returns (ok: bool)
    requires url.Valid()
    modifies url, url.data
    ensures url.Valid()
    ensures ok <==> StrcatFits(|old(url.Text())|, |QueryPairs(ps)|, url.data.Length)
    ensures ok ==> url.Text() == old(url.Text()) + QueryPairs(ps)
  {
    ghost var start := url.Text();
    var i := 0;
    while i < |ps|
      invariant 0 <= i <= |ps|
      invariant url.Valid()
      invariant url.Text() == start + QueryPairs(ps[..i])
    {
      ok := AppendNext(url, start, ps, i);
      if !ok {
        return;
      }
      i := i + 1;
    }
    assert ps[..i] == ps;
    ok := true;
  }

  /** One turn of the loop of `AppendEntries`: pair `i` goes on, or the
      whole query string does not fit. */
  method AppendNext(url: FixedText, ghost start: string, ps: seq<Param>, i: nat) returns (ok: bool)
    requires i < |ps| && url.Valid()
    requires url.Text() == start + QueryPairs(ps[..i])
    modifies url, url.data
    ensures url.Valid()
    ensures !ok ==> !StrcatFits(|start|, |QueryPairs(ps)|, url.data.Length)
    ensures ok ==> url.Text() == start + QueryPairs(ps[..i + 1])
  {
    ok := AppendEntry(url, ps[i]);
    if !ok {
      QueryOverflow(|start|, ps, i, url.data.Length);
      return;
    }
    QueryGrows(start, ps, i, url.Text());
  }

  /** The text after pair `i` is appended is the text up to pair `i + 1`. */
  lemma QueryGrows(start: string, ps: seq<Param>, i: nat, t: string)
    requires i < |ps|
    requires t == start + QueryPairs(ps[..i]) + Entry(ps[i])
    ensures t == start + QueryPairs(ps[..i + 1])
  {
    QueryPairsStep(ps, i);
  }

  /** When pair `i` does not fit, the whole query string does not fit. */
  lemma QueryOverflow(startLen: nat, ps: seq<Param>, i: nat, cap: int)
    requires i < |ps|
    requires !StrcatFits(startLen + |QueryPairs(ps[..i])|, |Entry(ps[i])|, cap)
    ensures !StrcatFits(startLen, |QueryPairs(ps)|, cap)
  {
    QueryPairsStep(ps, i);
  }

  /** `flowthings_io_params`: `pairs[0]` is the node `start` points to. */
  class ParamList {
    var pairs: seq<Param>

    /** `flowthings_io_params_init`: an empty list. */
    constructor ()
      ensures pairs == []
    {
      pairs := [];
    }

    /** `flowthings_io_params_add`: copy key and value into fresh strings and
        put the new pair in front; the old list stays intact behind it. */
    method Add(key: CString, value: CString)
      modifies this
      ensures pairs == [Param(key, value)] + old(pairs)
      ensures pairs[1..] == old(pairs)
    {
      var k := new DynString();
      var v := new DynString();
      k.Strcat(key);
      v.Strcat(value);
      var keyCopy: CString := k.Text();
      var valueCopy: CString := v.Text();
      assert keyCopy == key && valueCopy == value;
      pairs := [Param(keyCopy, valueCopy)] + pairs;
    }

    /** `flowthings_io_params_to_url`: append the query string to a caller's
        fixed-size URL array, with FAIL (`ok == false`) exactly when the
        result would not fit with its terminator. */
    method ToUrl(url: FixedText) returns (ok: bool)
      requires url.Valid()
      modifies url, url.data
      ensures url.Valid()
      ensures ok <==> StrcatFits(|old(url.Text())|, |QueryString(pairs)|, url.data.Length)
      ensures ok ==> url.Text() == old(url.Text()) + QueryString(pairs)
    {
      var ps := pairs;
      ghost var start := url.Text();
      if ps == [] {
        assert start + QueryString(ps) == start;
        return true;
      }
      ok := url.Strcat(QUERY_MARK);
      if ok {
        ok := AppendEntries(url, ps);
        assert start + QUERY_MARK + QueryPairs(ps) == start + QueryString(ps);
      }
    }

    /** `flowthings_io_params_cleanup`: unlink and release every node, first
        to last, with its key and value. */
    method Cleanup() returns (released: seq<Param>)
      modifies this
      ensures pairs == []
      ensures released == old(pairs)
    {
      released := [];
      while pairs != []
        invariant released + pairs == old(pairs)
        decreases |pairs|
      {
        var param := pairs[0];
        pairs := pairs[1..];
        released := released + [param];
      }
    }
  }
}
