/** How an outbound body is split into provider-safe parts before delivery.
    The server measures and slices bodies as JavaScript strings, that is, in
    UTF-16 code units, so the parts are code-unit sequences. */
module Chunking {
  import opened Wrappers

  /** Longest part handed to the messaging provider, in code units. */
  const MaxPart: nat := 950

  /** A UTF-16 code unit: what a JavaScript string's `length` and `slice` count. */
  type CodeUnit = u: int | 0 <= u < 0x1_0000

  predicate IsHighSurrogate(u: CodeUnit)
  {
    0xD800 <= u < 0xDC00
  }

  predicate IsLowSurrogate(u: CodeUnit)
  {
    0xDC00 <= u < 0xE000
  }

  /** One character in UTF-16: itself below U+10000, a surrogate pair above. */
  function Utf16Char(c: char): (r: seq<CodeUnit>)
    ensures |r| == (if c as int < 0x1_0000 then 1 else 2)
    ensures |r| == 1 ==> !IsHighSurrogate(r[0]) && !IsLowSurrogate(r[0])
    ensures |r| == 2 ==> IsHighSurrogate(r[0]) && IsLowSurrogate(r[1])
  {
    var v := c as int;
    if v < 0x1_0000 then [v]
    else [0xD800 + (v - 0x1_0000) / 0x400, 0xDC00 + (v - 0x1_0000) % 0x400]
  }

  /** A string as the server sees it: the sequence of its UTF-16 code units. */
  function Utf16(s: string): (r: seq<CodeUnit>)
    ensures |s| <= |r| <= 2 * |s|
  {
    if s == [] then [] else Utf16Char(s[0]) + Utf16(s[1..])
  }

  /** Reading code units back as characters; `None` when a surrogate is unpaired. */
  function Decode(u: seq<CodeUnit>): Option<string>
    decreases |u|
  {
    if u == [] then Some([])
    else if IsHighSurrogate(u[0]) then
      if |u| >= 2 && IsLowSurrogate(u[1]) then
        match Decode(u[2..])
        case Some(rest) => Some([((u[0] as int - 0xD800) * 0x400 + (u[1] as int - 0xDC00) + 0x1_0000) as char] + rest)
        case None => None
      else None
    else if IsLowSurrogate(u[0]) then None
    else
      match Decode(u[1..])
      case Some(rest) => Some([u[0] as char] + rest)
      case None => None
  }

  lemma DecodeChar(c: char, rest: seq<CodeUnit>, s: string)
    requires Decode(rest) == Some(s)
    ensures Decode(Utf16Char(c) + rest) == Some([c] + s)
  {
    var u := Utf16Char(c) + rest;
    var v := c as int;
    if v < 0x1_0000 {
      assert u[1..] == rest;
    } else {
      assert u[2..] == rest;
      assert (u[0] as int - 0xD800) * 0x400 + (u[1] as int - 0xDC00) + 0x1_0000 == v;
    }
  }

  /** The encoding loses nothing: decoding it gives the string back. */
  lemma {:induction false} Utf16RoundTrip(s: string)
    ensures Decode(Utf16(s)) == Some(s)
  {
    if s != [] {
      Utf16RoundTrip(s[1..]);
      DecodeChar(s[0], Utf16(s[1..]), s[1..]);
      assert [s[0]] + s[1..] == s;
    }
  }

  /** The parts the splitting loop produces from offset `i` on: successive
      windows of `MaxPart` code units, the last one clamped to the end. */
  function ChunksFrom(body: seq<CodeUnit>, i: nat): seq<seq<CodeUnit>>
    decreases |body| - i
  {
    if i >= |body| then []
    else [body[i..Min(i + MaxPart, |body|)]] + ChunksFrom(body, i + MaxPart)
  }

  function Chunks(body: seq<CodeUnit>): seq<seq<CodeUnit>>
  {
    ChunksFrom(body, 0)
  }

  /** Joining the parts back together, in order. */
  function Concat(parts: seq<seq<CodeUnit>>): seq<CodeUnit>
  {
    if parts == [] then [] else parts[0] + Concat(parts[1..])
  }

  /** Every part is non-empty and at most `MaxPart` long; all but the last are full. */
  ghost predicate WellSized(parts: seq<seq<CodeUnit>>)
  {
    && (forall k :: 0 <= k < |parts| ==> 0 < |parts[k]| <= MaxPart)
    && (forall k :: 0 <= k < |parts| - 1 ==> |parts[k]| == MaxPart)
  }

  lemma ConcatCons(p: seq<CodeUnit>, rest: seq<seq<CodeUnit>>)
    ensures Concat([p] + rest) == p + Concat(rest)
  {
    assert ([p] + rest)[1..] == rest;
  }

  lemma {:induction false} ChunksFromConcat(body: seq<CodeUnit>, i: nat)
    requires i <= |body|
    ensures Concat(ChunksFrom(body, i)) == body[i..]
    decreases |body| - i
  {
    if i < |body| {
      var j := Min(i + MaxPart, |body|);
      ConcatCons(body[i..j], ChunksFrom(body, i + MaxPart));
      if i + MaxPart <= |body| {
        ChunksFromConcat(body, i + MaxPart);
      }
      assert body[i..] == body[i..j] + body[j..];
    }
  }

  lemma {:induction false} ChunksFromSizes(body: seq<CodeUnit>, i: nat)
    ensures WellSized(ChunksFrom(body, i))
    ensures |ChunksFrom(body, i)| == if i >= |body| then 0 else (|body| - i + MaxPart - 1) / MaxPart
    decreases |body| - i
  {
    if i < |body| {
      ChunksFromSizes(body, i + MaxPart);
      var parts := ChunksFrom(body, i);
      var rest := ChunksFrom(body, i + MaxPart);
      assert parts == [body[i..Min(i + MaxPart, |body|)]] + rest;
      forall k | 0 <= k < |parts| - 1
        ensures |parts[k]| == MaxPart
      {
        if k == 0 {
          assert rest != [];
        } else {
          assert parts[k] == rest[k - 1];
        }
      }
      forall k | 0 <= k < |parts|
        ensures 0 < |parts[k]| <= MaxPart
      {
        if k > 0 { assert parts[k] == rest[k - 1]; }
      }
    }
  }

  /** The promise of the splitting loop: the parts rebuild the body exactly,
      are well sized, there are ceil(|body| / MaxPart) of them, and an empty
      body yields none. */
  lemma ChunksRoundTrip(body: seq<CodeUnit>)
    ensures Concat(Chunks(body)) == body
    ensures WellSized(Chunks(body))
    ensures |Chunks(body)| == (|body| + MaxPart - 1) / MaxPart
    ensures Chunks(body) == [] <==> body == []
  {
    ChunksFromConcat(body, 0);
    ChunksFromSizes(body, 0);
  }

  /** The index loop of the sender: slices of `MaxPart` code units pushed in order. */
  method SplitBody(body: seq<CodeUnit>) returns (parts: seq<seq<CodeUnit>>)
    ensures parts == Chunks(body)
    ensures Concat(parts) == body && WellSized(parts)
    ensures parts == [] <==> body == []
  {
    parts := [];
    var i: nat := 0;
    while i < |body|
      invariant parts + ChunksFrom(body, i) == Chunks(body)
      decreases |body| - i
    {
      var part := body[i..Min(i + MaxPart, |body|)];
      assert ChunksFrom(body, i) == [part] + ChunksFrom(body, i + MaxPart);
      assert parts + ChunksFrom(body, i) == (parts + [part]) + ChunksFrom(body, i + MaxPart);
      parts := parts + [part];
      i := i + MaxPart;
    }
    assert parts + [] == parts;
    ChunksRoundTrip(body);
  }

  lemma {:induction false} Utf16Append(a: string, b: string)
    ensures Utf16(a + b) == Utf16(a) + Utf16(b)
  {
    if a != [] {
      Utf16Append(a[1..], b);
      assert (a + b)[1..] == a[1..] + b;
    } else {
      assert a + b == b;
    }
  }

  /** Characters below the surrogate range take one code unit each. */
  lemma {:induction false} Utf16Plain(s: string)
    requires forall k :: 0 <= k < |s| ==> s[k] as int < 0xD800
    ensures |Utf16(s)| == |s|
    ensures forall k :: 0 <= k < |s| ==> Utf16(s)[k] < 0xD800
  {
    if s != [] {
      Utf16Plain(s[1..]);
    }
  }

  /** Units below the surrogate range ending in a lone high surrogate do not decode. */
  lemma {:induction false} DanglingHighSurrogate(u: seq<CodeUnit>)
    requires |u| > 0 && IsHighSurrogate(u[|u| - 1])
    requires forall k :: 0 <= k < |u| - 1 ==> u[k] < 0xD800
    ensures Decode(u) == None
    decreases |u|
  {
    if |u| > 1 {
      DanglingHighSurrogate(u[1..]);
    }
  }

  /** Slicing by code units can cut a character in two: 949 letters and an
      emoji make 951 units, and the first part ends with the emoji's high
      surrogate, so that part alone is not a well-formed string. */
  lemma SplitCanCutPair()
    ensures var u := Utf16(seq(949, _ => 'a') + ['🙌']);
      && |Chunks(u)| == 2
      && IsHighSurrogate(Chunks(u)[0][MaxPart - 1])
      && Decode(Chunks(u)[0]) == None
  {
    var letters := seq(949, _ => 'a');
    var u := Utf16(letters + ['🙌']);
    Utf16Append(letters, ['🙌']);
    Utf16Plain(letters);
    assert Utf16(['🙌']) == Utf16Char('🙌') + Utf16([]);
    ChunksRoundTrip(u);
    assert Chunks(u)[0] == u[..MaxPart];
    DanglingHighSurrogate(u[..MaxPart]);
  }
}
