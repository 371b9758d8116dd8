/** The text primitives of flowthings_io.c: C strings, the growable string
    `flowthings_io_string` and the capacity-checked `flowthings_io_strcat` on a
    caller's fixed-size char array. Every path, URL and header of the library
    is assembled with these. */
module Text {

  /** The result of a step that may run into the library's FAIL macro, which
      prints a message and exits the process. `Abort` is not a result code: no
      caller ever sees it, the process is gone. */
  datatype Run<+T> = Done(value: T) | Abort

  /** An argument or a lookup that may be absent (a NULL pointer in C). */
  datatype Option<+T> = None | Some(value: T)

  const NUL: char := '\0'

  predicate NoNul(s: string) {
    forall i | 0 <= i < |s| :: s[i] != NUL
  }

  /** A C string: the characters before its terminator. */
  type CString = s: string | NoNul(s)

  /** What a reader that stops at the terminator (strlen, cJSON_Parse) sees of
      a buffer that may hold arbitrary bytes. */
  function CPrefix(s: string): (r: CString)
    ensures |r| <= |s| && r == s[..|r|]
    ensures |r| < |s| ==> s[|r|] == NUL
    ensures NoNul(s) ==> r == s
  {
    if s == [] || s[0] == NUL then [] else [s[0]] + CPrefix(s[1..])
  }

  /** The concatenation of several C strings, in order. */
  function Concat(parts: seq<CString>): (r: CString)
  {
    if parts == [] then [] else parts[0] + Concat(parts[1..])
  }

  /** Two parts concatenate to their join. */
  lemma ConcatPair(a: CString, b: CString)
    ensures Concat([a, b]) == a + b
  {
    assert [a, b][1..] == [b];
    assert [b][1..] == [];
    assert Concat([b]) == b + [];
  }

  lemma {:induction false} ConcatSnoc(parts: seq<CString>, last: CString)
    ensures Concat(parts + [last]) == Concat(parts) + last
  {
    if parts == [] {
      assert parts + [last] == [last];
    } else {
      assert (parts + [last])[1..] == parts[1..] + [last];
      ConcatSnoc(parts[1..], last);
    }
  }

  lemma {:induction false} ConcatSplit(parts: seq<CString>, i: nat)
    requires i <= |parts|
    ensures Concat(parts) == Concat(parts[..i]) + Concat(parts[i..])
  {
    if i == 0 {
      assert parts[..0] == [] && parts[0..] == parts;
    } else {
      assert parts[..i][1..] == parts[1..][..i - 1];
      assert parts[i..] == parts[1..][i - 1..];
      ConcatSplit(parts[1..], i - 1);
    }
  }

  /** One more part: the prefix grows by it and stays within the whole. */
  lemma ConcatStep(parts: seq<CString>, i: nat)
    requires i < |parts|
    ensures Concat(parts[..i + 1]) == Concat(parts[..i]) + parts[i]
    ensures |Concat(parts[..i + 1])| <= |Concat(parts)|
  {
    ConcatSnoc(parts[..i], parts[i]);
    assert parts[..i] + [parts[i]] == parts[..i + 1];
    ConcatSplit(parts, i + 1);
  }

  /** The text after part `i` is appended, as the prefix of the parts. */
  lemma ConcatGrows(start: CString, parts: seq<CString>, i: nat, t: string)
    requires i < |parts|
    requires t == start + Concat(parts[..i]) + parts[i]
    ensures t == start + Concat(parts[..i + 1])
  {
    ConcatStep(parts, i);
  }

  /** The C `int` that `flowthings_io_strcat` takes as `max_length`. */
  type CInt = x: int | -0x8000_0000 <= x < 0x8000_0000

  /** One more than the largest `size_t` on a 64-bit platform. */
  const SIZE_MODULUS: int := 0x1_0000_0000_0000_0000

  /** The value `n` takes when the usual arithmetic conversions turn it into
      a `size_t`, as in the comparison with the string lengths: a negative
      `max_length` becomes a huge bound. */
  function AsSize(n: CInt): nat {
    if n < 0 then SIZE_MODULUS + n else n
  }

  /** The condition under which `flowthings_io_strcat` appends instead of
      calling FAIL: both strings and the terminator fit in `maxLength`. */
  predicate StrcatFits(destLen: nat, srcLen: nat, maxLength: int) {
    destLen + srcLen + 1 <= maxLength
  }

  /** `flowthings_io_strcat(dest, src, maxLength)` on values: the appended
      string, or FAIL when it would not fit. It never truncates. The check
      compares in `size_t`, so a non-negative `maxLength` leaves room for the
      terminator, while a negative one lets any append of real strings
      through unchecked. */
  function Strcat(dest: CString, src: CString, maxLength: CInt): (r: Run<CString>)
    ensures r.Done? <==> |dest| + |src| < AsSize(maxLength)
    ensures 0 <= maxLength ==> (r.Done? <==> |dest| + |src| < maxLength)
    ensures 0 <= maxLength && r.Done? ==> |r.value| < maxLength
    ensures maxLength < 0 && |dest| + |src| < SIZE_MODULUS - 0x8000_0000 ==> r.Done?
    ensures r.Done? ==> |r.value| == |dest| + |src|
    ensures r.Done? ==> r.value[..|dest|] == dest && r.value[|dest|..] == src
  {
    if StrcatFits(|dest|, |src|, AsSize(maxLength)) then Done(dest + src) else Abort
  }

  /** Appending the parts one `Strcat` at a time, stopping at the first FAIL. */
  function StrcatEach(dest: CString, parts: seq<CString>, maxLength: CInt): Run<CString>
    decreases |parts|
  {
    if parts == [] then Done(dest)
    else match Strcat(dest, parts[0], maxLength)
      case Abort => Abort
      case Done(d) => StrcatEach(d, parts[1..], maxLength)
  }

  /** A chain of strcat calls fails exactly when the whole concatenation does
      not fit: the text only grows, so the last check is the binding one. */
  lemma {:induction false} StrcatEachAll(dest: CString, parts: seq<CString>, maxLength: CInt)
    requires |dest| < AsSize(maxLength)
    ensures StrcatEach(dest, parts, maxLength)
            == if |dest| + |Concat(parts)| < AsSize(maxLength) then Done(dest + Concat(parts)) else Abort
    decreases |parts|
  {
    if parts != [] {
      assert Concat(parts) == parts[0] + Concat(parts[1..]);
      if |dest| + |parts[0]| < AsSize(maxLength) {
        assert Strcat(dest, parts[0], maxLength) == Done(dest + parts[0]);
        assert StrcatEach(dest, parts, maxLength) == StrcatEach(dest + parts[0], parts[1..], maxLength);
        StrcatEachAll(dest + parts[0], parts[1..], maxLength);
        assert dest + parts[0] + Concat(parts[1..]) == dest + Concat(parts);
      } else {
        assert Strcat(dest, parts[0], maxLength) == Abort;
      }
    } else {
      assert dest + Concat(parts) == dest;
    }
  }

  /** The list left behind by prepending each of `adds` in turn to `s`, as the
      `_add` functions of the linked lists do. */
  function PrependEach<T>(s: seq<T>, adds: seq<T>): seq<T>
    decreases |adds|
  {
    if adds == [] then s else PrependEach([adds[0]] + s, adds[1..])
  }

  function Reversed<T>(s: seq<T>): (r: seq<T>)
    ensures |r| == |s|
  {
    if s == [] then [] else Reversed(s[1..]) + [s[0]]
  }

  /** Prepending keeps the old list as the tail and puts the additions in
      front, the most recent first. */
  lemma {:induction false} PrependEachReverses<T>(s: seq<T>, adds: seq<T>)
    ensures PrependEach(s, adds) == Reversed(adds) + s
    decreases |adds|
  {
    if adds != [] {
      PrependEachReverses([adds[0]] + s, adds[1..]);
      assert Reversed(adds[1..]) + ([adds[0]] + s) == (Reversed(adds[1..]) + [adds[0]]) + s;
    }
  }

  /** The number of bytes `flowthings_io_string_strcat` hands to memcpy as
      written: `new_len`, the old length plus the source length. */
  function StrcatCopyCountAsWritten(destLen: nat, srcLen: nat): nat {
    destLen + srcLen
  }

  /** The number of bytes that append `src` after the old text: strlen(src). */
  function StrcatCopyCount(destLen: nat, srcLen: nat): nat {
    srcLen
  }

  /** A memcpy of `count` bytes to offset `destLen` of a buffer reallocated to
      `destLen + srcLen + 1` bytes, reading from a source of `srcLen` characters
      plus its terminator, stays inside both. */
  predicate CopyInBounds(destLen: nat, srcLen: nat, count: nat) {
    destLen + count <= destLen + srcLen + 1 && count <= srcLen + 1
  }

  /** As written, the copy runs past both buffers exactly when the destination
      already holds two or more characters. */
  lemma StrcatCopyAsWrittenOverruns(destLen: nat, srcLen: nat)
    ensures CopyInBounds(destLen, srcLen, StrcatCopyCountAsWritten(destLen, srcLen)) <==> destLen <= 1
  {
  }

  /** Concretely: appending "c" to "ab" copies three bytes into indices 2..4 of
      a four-byte buffer and reads two bytes past the end of "c". */
  lemma StrcatCopyAsWrittenExample()
    ensures !CopyInBounds(|"ab"|, |"c"|, StrcatCopyCountAsWritten(|"ab"|, |"c"|))
  {
  }

  /** The corrected count always stays in bounds. */
  lemma StrcatCopyInBounds(destLen: nat, srcLen: nat)
    ensures CopyInBounds(destLen, srcLen, StrcatCopyCount(destLen, srcLen))
  {
  }

  /** `flowthings_io_string`: a heap buffer `ptr` holding `len` characters and
      a terminator. The characters themselves may include NUL bytes when they
      come from the network. */
  class DynString {
    var ptr: array<char>
    var len: nat

    ghost predicate Valid()
      reads this, ptr
    {
      ptr.Length == len + 1 && ptr[len] == NUL
    }

    function Text(): string
      reads this, ptr
      requires Valid()
    {
      ptr[..len]
    }

    /** `flowthings_io_string_init`: an empty string. */
    constructor ()
      ensures Valid() && fresh(ptr)
      ensures len == 0 && Text() == []
    {
      len := 0;
      ptr := new char[1](_ => NUL);
    }

    /** The realloc-memcpy-terminate step: grow the buffer to the new length
        plus the terminator, keep the old characters, copy `src` after them. */
    method Append(src: string)
      requires Valid()
      modifies this
      ensures Valid() && fresh(ptr)
      ensures len == old(len) + |src|
      ensures Text() == old(Text()) + src
      ensures Text()[..old(len)] == old(Text())
    {
      var oldPtr, oldLen := ptr, len;
      var newLen := oldLen + |src|;
      var grown := new char[newLen + 1];
      var i := 0;
      while i < oldLen
        invariant 0 <= i <= oldLen
        invariant grown[..i] == oldPtr[..i]
      {
        grown[i] := oldPtr[i];
        i := i + 1;
      }
      var j := 0;
      while j < |src|
        invariant 0 <= j <= |src|
        invariant grown[..oldLen] == oldPtr[..oldLen]
        invariant grown[oldLen..oldLen + j] == src[..j]
      {
        grown[oldLen + j] := src[j];
        j := j + 1;
      }
      grown[newLen] := NUL;
      assert grown[..newLen] == grown[..oldLen] + grown[oldLen..newLen];
      ptr, len := grown, newLen;
    }

    /** `flowthings_io_string_strcat`: append a C string. The copy count is
        the corrected one (strlen(src)); the text afterwards is what the source
        intends and also what it produces when it does not overrun. */
    method Strcat(src: CString)
      requires Valid()
      modifies this
      ensures Valid() && fresh(ptr)
      ensures len == old(len) + |src|
      ensures Text() == old(Text()) + src
    {
      StrcatCopyInBounds(len, |src|);
      Append(src[..StrcatCopyCount(len, |src|)]);
    }
  }

  /** A caller's fixed-size char array (`char path[500]`, `char url[1000]`,
      the header arrays and the id field of an id-list node) holding a C
      string. Its capacity is the `max_length` every call site passes. */
  class FixedText {
    const data: array<char>
    var len: nat

    ghost predicate Valid()
      reads this, data
    {
      len < data.Length && data[len] == NUL && NoNul(data[..len])
    }

    function Text(): CString
      reads this, data
      requires Valid()
    {
      data[..len]
    }

    /** `char buf[capacity] = init;` */
    constructor (capacity: nat, init: CString)
      requires |init| < capacity
      ensures Valid() && fresh(data)
      ensures data.Length == capacity && Text() == init
    {
      data := new char[capacity]((i: int) => if 0 <= i < |init| then init[i] else NUL);
      len := |init|;
      new;
      assert data[..len] == init;
    }

    /** `strcpy(buf, src)`, which the source only uses with literals that fit. */
    method Strcpy(src: CString)
      requires Valid() && |src| < data.Length
      modifies this, data
      ensures Valid() && Text() == src
    {
      len := 0;
      data[0] := NUL;
      var ok := Strcat(src);
    }

    /** `flowthings_io_strcat(buf, src, capacity)`: append `src` when it fits
        with the terminator; otherwise leave the text alone and report the
        FAIL with `ok == false`, after which the caller stops. */
    method Strcat(src: CString) returns (ok: bool)
      requires Valid()
      modifies this, data
      ensures Valid()
      ensures ok <==> StrcatFits(old(len), |src|, data.Length)
      ensures Text() == if ok then old(Text()) + src else old(Text())
    {
      if !StrcatFits(len, |src|, data.Length) {
        return false;
      }
      var n := len;
      var j := 0;
      while j < |src|
        invariant 0 <= j <= |src|
        invariant data[..n] == old(data[..n])
        invariant data[n..n + j] == src[..j]
      {
        data[n + j] := src[j];
        j := j + 1;
      }
      data[n + |src|] := NUL;
      assert data[..n + |src|] == data[..n] + data[n..n + |src|];
      len := n + |src|;
      ok := true;
    }

    /** Several `flowthings_io_strcat` calls in a row, stopping at the first
        FAIL: it happens exactly when the whole concatenation does not fit. */
    method StrcatAll(parts: seq<CString>) returns (ok: bool)
      requires Valid()
      modifies this, data
      ensures Valid()
      ensures ok <==> StrcatFits(|old(Text())|, |Concat(parts)|, data.Length)
      ensures ok ==> Text() == old(Text()) + Concat(parts)
    {
      ghost var start := Text();
      var i := 0;
      while i < |parts|
        invariant 0 <= i <= |parts|
        invariant Valid()
        invariant Text() == start + Concat(parts[..i])
      {
        ok := Strcat(parts[i]);
        if !ok {
          assert !StrcatFits(|start|, |Concat(parts)|, data.Length) by {
            ConcatStep(parts, i);
          }
          return;
        }
        assert Text() == start + Concat(parts[..i + 1]) by {
          ConcatGrows(start, parts, i, Text());
        }
        i := i + 1;
      }
      assert parts[..i] == parts;
      ok := true;
    }
  }
}
