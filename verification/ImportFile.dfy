/** The import file prepared in the browser: size and format checks, and a base64
    encoding made in chunks of 24 KiB. The encoding is that of section 4 of RFC 4648. */
module ImportFile {
  import opened Wrappers

  type byte = x: int | 0 <= x < 256

  const MAX_SOURCE_BYTES: nat := 10 * 1024 * 1024
  const CHUNK: nat := 24 * 1024
  const MAX_BODY_BYTES: nat := (MAX_SOURCE_BYTES + 2) / 3 * 4 + 16 * 1024

  // ------------------------------------------------------------- the alphabet

  function Symbol(n: int): char
    requires 0 <= n < 64
  {
    if n < 26 then 'A' + n as char
    else if n < 52 then 'a' + (n - 26) as char
    else if n < 62 then '0' + (n - 52) as char
    else if n == 62 then '+'
    else '/'
  }

  function Index(c: char): (n: Option<int>)
    ensures n.Some? ==> 0 <= n.value < 64
  {
    if 'A' <= c <= 'Z' then Some((c - 'A') as int)
    else if 'a' <= c <= 'z' then Some((c - 'a') as int + 26)
    else if '0' <= c <= '9' then Some((c - '0') as int + 52)
    else if c == '+' then Some(62)
    else if c == '/' then Some(63)
    else None
  }

  lemma IndexOfSymbol(n: int)
    requires 0 <= n < 64
    ensures Index(Symbol(n)) == Some(n) && Symbol(n) != '='
  {
  }

  lemma SymbolOfIndex(c: char)
    requires Index(c).Some?
    ensures Symbol(Index(c).value) == c && c != '='
  {
  }

  // ------------------------------------------------------------- the encoding

  /** Four symbols for three bytes. */
  function Group(a: byte, b: byte, c: byte): (s: string)
    ensures |s| == 4
  {
    [Symbol(a / 4), Symbol(a % 4 * 16 + b / 16), Symbol(b % 16 * 4 + c / 64), Symbol(c % 64)]
  }

  /** Padded symbols for one or two last bytes. */
  function Tail(bytes: seq<byte>): (s: string)
    requires 1 <= |bytes| <= 2
    ensures |s| == 4
  {
    if |bytes| == 1 then [Symbol(bytes[0] / 4), Symbol(bytes[0] % 4 * 16), '=', '=']
    else [Symbol(bytes[0] / 4), Symbol(bytes[0] % 4 * 16 + bytes[1] / 16), Symbol(bytes[1] % 16 * 4), '=']
  }

  function Encode(bytes: seq<byte>): string {
    if |bytes| == 0 then ""
    else if |bytes| < 3 then Tail(bytes)
    else Group(bytes[0], bytes[1], bytes[2]) + Encode(bytes[3..])
  }

  function DecodeGroup(s: string): Option<seq<byte>>
    requires |s| == 4
  {
    var i, j, k, l := Index(s[0]), Index(s[1]), Index(s[2]), Index(s[3]);
    if i.None? || j.None? || k.None? || l.None? then None
    else Some([i.value * 4 + j.value / 16, j.value % 16 * 16 + k.value / 4, k.value % 4 * 64 + l.value])
  }

  function DecodeTail(s: string): Option<seq<byte>>
    requires |s| == 4
  {
    var i, j, k := Index(s[0]), Index(s[1]), Index(s[2]);
    if i.None? || j.None? || s[3] != '=' then None
    else if k.Some? && k.value % 4 == 0 then Some([i.value * 4 + j.value / 16, j.value % 16 * 16 + k.value / 4])
    else if s[2] == '=' && j.value % 16 == 0 then Some([i.value * 4 + j.value / 16])
    else None
  }

  /** The strict decoder: padding only at the end, and only with its spare bits zero. */
  function Decode(s: string): Option<seq<byte>> {
    if |s| == 0 then Some([])
    else if |s| < 4 then None
    else
      match DecodeGroup(s[..4])
      case None => if |s| == 4 then DecodeTail(s) else None
      case Some(head) =>
        match Decode(s[4..])
        case None => None
        case Some(rest) => Some(head + rest)
  }

  /** A high part and a low part below `base` are read back. */
  lemma PartsReadBack(high: nat, low: nat, base: nat)
    requires low < base && (base == 4 || base == 16 || base == 64)
    ensures (high * base + low) / base == high && (high * base + low) % base == low
  {
    if base == 4 {
      assert (high * 4 + low) / 4 == high;
    } else if base == 16 {
      assert (high * 16 + low) / 16 == high;
    } else {
      assert (high * 64 + low) / 64 == high;
    }
  }

  lemma GroupDecodes(a: byte, b: byte, c: byte)
    ensures DecodeGroup(Group(a, b, c)) == Some([a, b, c])
  {
    IndexOfSymbol(a / 4);
    IndexOfSymbol(a % 4 * 16 + b / 16);
    IndexOfSymbol(b % 16 * 4 + c / 64);
    IndexOfSymbol(c % 64);
    hide Index, Symbol;
    PartsReadBack(a % 4, b / 16, 16);
    PartsReadBack(b % 16, c / 64, 4);
  }

  lemma TailDecodes(bytes: seq<byte>)
    requires 1 <= |bytes| <= 2
    ensures DecodeGroup(Tail(bytes)).None? && DecodeTail(Tail(bytes)) == Some(bytes)
  {
    assert Index('=').None?;
    IndexOfSymbol(bytes[0] / 4);
    if |bytes| == 1 {
      IndexOfSymbol(bytes[0] % 4 * 16);
      assert bytes == [bytes[0]];
    } else {
      IndexOfSymbol(bytes[0] % 4 * 16 + bytes[1] / 16);
      IndexOfSymbol(bytes[1] % 16 * 4);
      PartsReadBack(bytes[0] % 4, bytes[1] / 16, 16);
      assert bytes == [bytes[0], bytes[1]];
    }
    hide Index, Symbol;
  }

  lemma GroupIsEncoded(s: string)
    requires |s| == 4 && DecodeGroup(s).Some?
    ensures var g := DecodeGroup(s).value; |g| == 3 && Group(g[0], g[1], g[2]) == s
  {
    SymbolOfIndex(s[0]);
    SymbolOfIndex(s[1]);
    SymbolOfIndex(s[2]);
    SymbolOfIndex(s[3]);
    hide Index, Symbol;
    var i, j, k, l := Index(s[0]).value, Index(s[1]).value, Index(s[2]).value, Index(s[3]).value;
    PartsReadBack(i, j / 16, 4);
    PartsReadBack(j % 16, k / 4, 16);
    PartsReadBack(k % 4, l, 64);
  }

  lemma TailIsEncoded(s: string)
    requires |s| == 4 && DecodeTail(s).Some?
    ensures var t := DecodeTail(s).value; 1 <= |t| <= 2 && Tail(t) == s
  {
    SymbolOfIndex(s[0]);
    SymbolOfIndex(s[1]);
    if Index(s[2]).Some? { SymbolOfIndex(s[2]); }
    hide Index, Symbol;
    var t := DecodeTail(s).value;
    var i, j := Index(s[0]).value, Index(s[1]).value;
    PartsReadBack(i, j / 16, 4);
    if |t| == 2 { PartsReadBack(j % 16, Index(s[2]).value / 4, 16); }
  }

  /** Decoding undoes encoding. */
  lemma {:induction false} DecodeOfEncode(bytes: seq<byte>)
    ensures Decode(Encode(bytes)) == Some(bytes)
    decreases |bytes|
  {
    hide Group, Tail, DecodeGroup, DecodeTail;
    if 1 <= |bytes| < 3 {
      TailDecodes(bytes);
      assert Tail(bytes)[..4] == Tail(bytes);
    } else if bytes != [] {
      var head := Group(bytes[0], bytes[1], bytes[2]);
      GroupDecodes(bytes[0], bytes[1], bytes[2]);
      DecodeOfEncode(bytes[3..]);
      assert Encode(bytes)[..4] == head && Encode(bytes)[4..] == Encode(bytes[3..]);
      assert bytes == [bytes[0], bytes[1], bytes[2]] + bytes[3..];
    }
  }

  /** And nothing else decodes: what decodes is the encoding of what it decodes to. */
  lemma {:induction false} EncodeOfDecode(s: string)
    requires Decode(s).Some?
    ensures Encode(Decode(s).value) == s
    decreases |s|
  {
    hide Group, Tail, DecodeGroup, DecodeTail;
    if s != "" {
      assert |s| == 4 ==> s[..4] == s;
      if DecodeGroup(s[..4]).Some? {
        GroupIsEncoded(s[..4]);
        EncodeOfDecode(s[4..]);
        var head, rest := DecodeGroup(s[..4]).value, Decode(s[4..]).value;
        assert head + rest == Decode(s).value && (head + rest)[3..] == rest;
        assert s == s[..4] + s[4..];
      } else {
        TailIsEncoded(s);
      }
    }
  }

  lemma {:induction false} EncodedLength(bytes: seq<byte>)
    ensures |Encode(bytes)| == (|bytes| + 2) / 3 * 4
    decreases |bytes|
  {
    hide Group, Tail;
    if |bytes| > 2 { EncodedLength(bytes[3..]); }
  }

  /** Only the last part of a split at a multiple of three is padded. */
  lemma {:induction false} EncodeConcatenates(a: seq<byte>, b: seq<byte>)
    requires |a| % 3 == 0
    ensures Encode(a + b) == Encode(a) + Encode(b)
    decreases |a|
  {
    hide Group;
    if a == [] {
      assert a + b == b;
    } else {
      assert (a + b)[3..] == a[3..] + b;
      EncodeConcatenates(a[3..], b);
      calc {
        Encode(a + b);
        Group(a[0], a[1], a[2]) + (Encode(a[3..]) + Encode(b));
        (Group(a[0], a[1], a[2]) + Encode(a[3..])) + Encode(b);
      }
    }
  }

  // ------------------------------------------------------------- the digest

  function HexDigit(n: int): char
    requires 0 <= n < 16
  {
    if n < 10 then '0' + n as char else 'a' + (n - 10) as char
  }

  function Hex(bytes: seq<byte>): string {
    if bytes == [] then "" else [HexDigit(bytes[0] / 16), HexDigit(bytes[0] % 16)] + Hex(bytes[1..])
  }

  /** Two lower-case digits a byte, so that different digests read differently. */
  lemma {:induction false} HexIsInjective(a: seq<byte>, b: seq<byte>)
    requires Hex(a) == Hex(b)
    ensures a == b
    decreases |a|
  {
    if a != [] && b != [] {
      assert Hex(a)[0] == HexDigit(a[0] / 16) && Hex(a)[1] == HexDigit(a[0] % 16);
      assert Hex(b)[0] == HexDigit(b[0] / 16) && Hex(b)[1] == HexDigit(b[0] % 16);
      assert Hex(a)[2..] == Hex(a[1..]) && Hex(b)[2..] == Hex(b[1..]);
      assert a[0] == a[0] / 16 * 16 + a[0] % 16 && b[0] == b[0] / 16 * 16 + b[0] % 16;
      HexIsInjective(a[1..], b[1..]);
      assert a == [a[0]] + a[1..] && b == [b[0]] + b[1..];
    }
  }

  // ---------------------------------------------------------- the preparation

  datatype Prepared = Prepared(format: string, sha256: string, sourceBase64: string)

  function Join(parts: seq<string>): string {
    if parts == [] then "" else Join(parts[..|parts| - 1]) + parts[|parts| - 1]
  }

  lemma JoinAppends(parts: seq<string>, part: string)
    ensures Join(parts + [part]) == Join(parts) + part
  {
    assert (parts + [part])[..|parts|] == parts;
  }

  lemma ChunkExtends(bytes: seq<byte>, offset: nat, end: nat)
    requires offset <= end <= |bytes| && offset % 3 == 0
    ensures Encode(bytes[..end]) == Encode(bytes[..offset]) + Encode(bytes[offset..end])
  {
    EncodeConcatenates(bytes[..offset], bytes[offset..end]);
    assert bytes[..offset] + bytes[offset..end] == bytes[..end];
  }

  predicate Accepts(format: string, size: int, bytes: seq<byte>) {
    (format == "csv" || format == "json") && 1 <= size <= MAX_SOURCE_BYTES && |bytes| == size
  }

  lemma AllowanceSuffices(n: nat)
    requires n <= MAX_SOURCE_BYTES
    ensures (n + 2) / 3 * 4 <= MAX_BODY_BYTES - 16 * 1024
  {
  }

  /** `subarray` stops at the end of the array. */
  function Clamped(bytes: seq<byte>, end: nat): (e: nat)
    ensures e <= |bytes| && e <= end && (end <= |bytes| ==> e == end)
  {
    if end < |bytes| then end else |bytes|
  }

  lemma NextChunk(offset: nat)
    requires offset % 3 == 0
    ensures (offset + CHUNK) % 3 == 0
  {
  }

  /** The loop over the chunks. */
  method EncodeInChunks(bytes: seq<byte>) returns (base64: string)
    ensures base64 == Encode(bytes)
  {
    var encoded: seq<string> := [];
    var offset := 0;
    assert Join(encoded) == "" && Encode(bytes[..0]) == "";
    hide Encode, Join, Clamped;
    while offset < |bytes|
      invariant offset % 3 == 0
      invariant Join(encoded) == Encode(bytes[..Clamped(bytes, offset)])
    {
      var part := Encode(bytes[offset..Clamped(bytes, offset + CHUNK)]);
      ChunkExtends(bytes, offset, Clamped(bytes, offset + CHUNK));
      JoinAppends(encoded, part);
      encoded := encoded + [part];
      NextChunk(offset);
      offset := offset + CHUNK;
    }
    assert bytes[..Clamped(bytes, offset)] == bytes;
    return Join(encoded);
  }

  /** `size` is what the file claims, `bytes` what was read and `hash` their SHA-256. None
      is the error `invalid_import_file`. */
  method Prepare(format: string, size: int, bytes: seq<byte>, hash: seq<byte>) returns (r: Option<Prepared>)
    ensures r.Some? <==> Accepts(format, size, bytes)
    ensures r.Some? ==> r.value == Prepared(format, Hex(hash), Encode(bytes))
    ensures r.Some? ==> Decode(r.value.sourceBase64) == Some(bytes)
    ensures r.Some? ==> |r.value.sourceBase64| == (|bytes| + 2) / 3 * 4 <= MAX_BODY_BYTES - 16 * 1024
  {
    if format != "csv" && format != "json" { return None; }
    if size < 1 || size > MAX_SOURCE_BYTES { return None; }
    if |bytes| != size || |bytes| < 1 || |bytes| > MAX_SOURCE_BYTES { return None; }
    var base64 := EncodeInChunks(bytes);
    DecodeOfEncode(bytes);
    EncodedLength(bytes);
    AllowanceSuffices(|bytes|);
    hide Encode, Decode, Hex;
    return Some(Prepared(format, Hex(hash), base64));
  }
}
