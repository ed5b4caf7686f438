/**
 * Percent-encoding of a return URL into a query parameter and its recovery.
 *
 * The builders call `encodeURIComponent`: the text is encoded as UTF-8 and every
 * byte outside the unreserved set is written as a percent-encoded octet, "%"
 * followed by two upper-case hexadecimal digits (section 2.1 of RFC 3986). The
 * unreserved set of `encodeURIComponent` is that of section 2.3 of RFC 3986
 * (ALPHA, DIGIT, "-", ".", "_", "~") plus the marks "!", "*", "'", "(", ")".
 *
 * The receiving page reads the parameter with `URLSearchParams.get`, which
 * parses the query as application/x-www-form-urlencoded: split at "&", split
 * each pair at its first "=", turn "+" into a space, percent-decode the bytes and
 * decode them as UTF-8, replacing malformed sequences by U+FFFD.
 */
module Uri {
  import opened Common

  type byte = x: int | 0 <= x < 256

  // ---------------------------------------------------------------------------
  // UTF-8
  // ---------------------------------------------------------------------------

  /** UTF-8 encoding of one Unicode scalar value. */
  function EncodeChar(c: char): (bs: seq<byte>)
    ensures 1 <= |bs| <= 4
    ensures bs[0] < 0x80 <==> c as int < 0x80
    ensures c as int < 0x80 ==> bs == [c as int]
  {
    var n := c as int;
    if n < 0x80 then [n]
    else if n < 0x800 then [0xC0 + n / 64, 0x80 + n % 64]
    else if n < 0x10000 then [0xE0 + n / 4096, 0x80 + (n / 64) % 64, 0x80 + n % 64]
    else [0xF0 + n / 0x40000, 0x80 + (n / 4096) % 64, 0x80 + (n / 64) % 64, 0x80 + n % 64]
  }

  function EncodeUtf8(s: string): seq<byte>
    decreases |s|
  {
    if s == [] then [] else EncodeChar(s[0]) + EncodeUtf8(s[1..])
  }

  /** Lowest and highest byte allowed at position `k` (1..3) after lead byte `b0`. */
  function ContLow(b0: byte, k: nat): byte {
    if k == 1 && b0 == 0xE0 then 0xA0
    else if k == 1 && b0 == 0xF0 then 0x90
    else 0x80
  }

  function ContHigh(b0: byte, k: nat): byte {
    if k == 1 && b0 == 0xED then 0x9F
    else if k == 1 && b0 == 0xF4 then 0x8F
    else 0xBF
  }

  /** Length of the sequence a lead byte announces; 0 when it cannot start one. */
  function SeqLength(b0: byte): nat {
    if b0 < 0x80 then 1
    else if 0xC2 <= b0 <= 0xDF then 2
    else if 0xE0 <= b0 <= 0xEF then 3
    else if 0xF0 <= b0 <= 0xF4 then 4
    else 0
  }

  /** How many bytes after the lead byte are acceptable continuation bytes, up to `want`. */
  function ValidConts(bs: seq<byte>, want: nat): (k: nat)
    requires bs != []
    ensures k <= want && k < |bs|
    ensures forall i :: 1 <= i <= k ==> ContLow(bs[0], i) <= bs[i] <= ContHigh(bs[0], i)
  {
    ValidContsFrom(bs, 1, want)
  }

  function ValidContsFrom(bs: seq<byte>, i: nat, want: nat): (k: nat)
    requires 1 <= i <= |bs|
    requires i <= want + 1
    ensures i - 1 <= k <= want && k < |bs|
    ensures forall j :: i <= j <= k ==> ContLow(bs[0], j) <= bs[j] <= ContHigh(bs[0], j)
    decreases want + 1 - i
  {
    if i > want || i == |bs| || !(ContLow(bs[0], i) <= bs[i] <= ContHigh(bs[0], i)) then i - 1
    else ValidContsFrom(bs, i + 1, want)
  }

  /** Code point of a complete, well-formed sequence of `len` bytes. */
  function CodePoint(bs: seq<byte>, len: nat): int
    requires 1 <= len <= 4 && len <= |bs|
  {
    var b0: int := bs[0];
    if len == 1 then b0
    else
      var b1: int := bs[1];
      if len == 2 then (b0 - 0xC0) * 64 + (b1 - 0x80)
      else
        var b2: int := bs[2];
        if len == 3 then (b0 - 0xE0) * 4096 + (b1 - 0x80) * 64 + (b2 - 0x80)
        else
          var b3: int := bs[3];
          (b0 - 0xF0) * 0x40000 + (b1 - 0x80) * 4096 + (b2 - 0x80) * 64 + (b3 - 0x80)
  }

  lemma CodePointIsScalar(bs: seq<byte>, len: nat)
    requires bs != [] && len == SeqLength(bs[0]) && 1 <= len <= |bs|
    requires forall i :: 1 <= i < len ==> ContLow(bs[0], i) <= bs[i] <= ContHigh(bs[0], i)
    ensures var cp := CodePoint(bs, len); 0 <= cp < 0xD800 || 0xE000 <= cp < 0x110000
  {
    if len == 3 {
      assert ContLow(bs[0], 1) <= bs[1] <= ContHigh(bs[0], 1);
      assert ContLow(bs[0], 2) <= bs[2] <= ContHigh(bs[0], 2);
    } else if len == 4 {
      assert ContLow(bs[0], 1) <= bs[1] <= ContHigh(bs[0], 1);
      assert ContLow(bs[0], 2) <= bs[2] <= ContHigh(bs[0], 2);
      assert ContLow(bs[0], 3) <= bs[3] <= ContHigh(bs[0], 3);
    } else if len == 2 {
      assert ContLow(bs[0], 1) <= bs[1] <= ContHigh(bs[0], 1);
    }
  }

  /**
   * Decodes the first character of a non-empty byte string and says how many
   * bytes it used. A malformed sequence yields U+FFFD and uses the lead byte
   * together with the continuation bytes that were still acceptable (the
   * "maximal subpart" rule of the WHATWG UTF-8 decoder).
   */
  function DecodeFirst(bs: seq<byte>): (r: (char, nat))
    requires bs != []
    ensures 1 <= r.1 <= |bs|
  {
    var len := SeqLength(bs[0]);
    if len == 0 then ('\U{FFFD}', 1)
    else
      var k := ValidConts(bs, len - 1);
      if k == len - 1 then
        CodePointIsScalar(bs, len);
        (CodePoint(bs, len) as char, len)
      else ('\U{FFFD}', k + 1)
  }

  /** UTF-8 decoding with replacement: it never fails. */
  function DecodeUtf8(bs: seq<byte>): string
    decreases |bs|
  {
    if bs == [] then []
    else
      var (c, n) := DecodeFirst(bs);
      [c] + DecodeUtf8(bs[n..])
  }

  lemma DivMod64(n: int)
    requires 0 <= n
    ensures n == (n / 64) * 64 + n % 64
    ensures n / 4096 == (n / 64) / 64
    ensures n / 0x40000 == (n / 4096) / 64
    ensures n / 64 == (n / 4096) * 64 + (n / 64) % 64
    ensures n / 4096 == (n / 0x40000) * 64 + (n / 4096) % 64
  {
  }

  /** Decoding the encoding of a character gives back that character and consumes exactly its bytes. */
  lemma DecodeFirstOfEncoding(c: char, rest: seq<byte>)
    ensures DecodeFirst(EncodeChar(c) + rest) == (c, |EncodeChar(c)|)
  {
    var n := c as int;
    if n < 0x80 {
    } else if n < 0x800 {
      DecodeTwoBytes(c, rest);
    } else if n < 0x10000 {
      DecodeThreeBytes(c, rest);
    } else {
      DecodeFourBytes(c, rest);
    }
  }

  lemma DecodeTwoBytes(c: char, rest: seq<byte>)
    requires 0x80 <= c as int < 0x800
    ensures DecodeFirst(EncodeChar(c) + rest) == (c, 2)
  {
    var n := c as int;
    var bs := EncodeChar(c) + rest;
    DivMod64(n);
    assert bs[0] == 0xC0 + n / 64 && bs[1] == 0x80 + n % 64;
    assert SeqLength(bs[0]) == 2;
    assert ValidConts(bs, 1) == 1 by {
      assert ContLow(bs[0], 1) <= bs[1] <= ContHigh(bs[0], 1);
    }
    assert CodePoint(bs, 2) == n;
  }

  lemma DecodeThreeBytes(c: char, rest: seq<byte>)
    requires 0x800 <= c as int < 0x10000
    ensures DecodeFirst(EncodeChar(c) + rest) == (c, 3)
  {
    var n := c as int;
    var bs := EncodeChar(c) + rest;
    DivMod64(n);
    assert bs[0] == 0xE0 + n / 4096 && bs[1] == 0x80 + (n / 64) % 64 && bs[2] == 0x80 + n % 64;
    assert SeqLength(bs[0]) == 3;
    assert ValidConts(bs, 2) == 2 by {
      assert ContLow(bs[0], 1) <= bs[1] <= ContHigh(bs[0], 1);
      assert ContLow(bs[0], 2) <= bs[2] <= ContHigh(bs[0], 2);
      assert ValidContsFrom(bs, 3, 2) == 2;
    }
    assert CodePoint(bs, 3) == n;
  }

  lemma DecodeFourBytes(c: char, rest: seq<byte>)
    requires 0x10000 <= c as int
    ensures DecodeFirst(EncodeChar(c) + rest) == (c, 4)
  {
    var n := c as int;
    var bs := EncodeChar(c) + rest;
    DivMod64(n);
    assert bs[0] == 0xF0 + n / 0x40000 && bs[1] == 0x80 + (n / 4096) % 64;
    assert bs[2] == 0x80 + (n / 64) % 64 && bs[3] == 0x80 + n % 64;
    assert SeqLength(bs[0]) == 4;
    assert ValidConts(bs, 3) == 3 by {
      assert ContLow(bs[0], 1) <= bs[1] <= ContHigh(bs[0], 1);
      assert ContLow(bs[0], 2) <= bs[2] <= ContHigh(bs[0], 2);
      assert ContLow(bs[0], 3) <= bs[3] <= ContHigh(bs[0], 3);
      assert ValidContsFrom(bs, 4, 3) == 3;
    }
    assert CodePoint(bs, 4) == n;
  }

  /** UTF-8 decoding inverts UTF-8 encoding. */
  lemma {:induction false} Utf8RoundTrip(s: string)
    ensures DecodeUtf8(EncodeUtf8(s)) == s
    decreases |s|
  {
    if s != [] {
      var e := EncodeChar(s[0]);
      var tail := EncodeUtf8(s[1..]);
      DecodeFirstOfEncoding(s[0], tail);
      assert (e + tail)[|e|..] == tail;
      Utf8RoundTrip(s[1..]);
      assert s == [s[0]] + s[1..];
    }
  }

  // ---------------------------------------------------------------------------
  // Percent-encoding (encodeURIComponent)
  // ---------------------------------------------------------------------------

  /** Characters `encodeURIComponent` leaves as they are. */
  predicate IsUnreserved(c: char) {
    || 'A' <= c <= 'Z' || 'a' <= c <= 'z' || '0' <= c <= '9'
    || c == '-' || c == '_' || c == '.' || c == '!' || c == '~' || c == '*'
    || c == '\'' || c == '(' || c == ')'
  }

  function HexDigit(d: nat): (c: char)
    requires d < 16
  {
    "0123456789ABCDEF"[d]
  }

  predicate IsHexChar(c: char) {
    '0' <= c <= '9' || 'A' <= c <= 'F' || 'a' <= c <= 'f'
  }

  function HexValue(c: char): (d: nat)
    requires IsHexChar(c)
    ensures d < 16
  {
    if '0' <= c <= '9' then c as int - '0' as int
    else if 'A' <= c <= 'F' then c as int - 'A' as int + 10
    else c as int - 'a' as int + 10
  }

  /** "%" HEXDIG HEXDIG for one octet. */
  function PercentOctet(b: byte): (r: string)
    ensures |r| == 3 && r[0] == '%'
  {
    ['%', HexDigit(b / 16), HexDigit(b % 16)]
  }

  /** One byte as `encodeURIComponent` writes it: itself when unreserved, else "%XX". */
  function EncodeByte(b: byte): string {
    if b < 0x80 && IsUnreserved(b as char) then [b as char] else PercentOctet(b)
  }

  function EncodeBytes(bs: seq<byte>): string
    decreases |bs|
  {
    if bs == [] then [] else EncodeByte(bs[0]) + EncodeBytes(bs[1..])
  }

  /** `encodeURIComponent(s)`. */
  function EncodeURIComponent(s: string): string {
    EncodeBytes(EncodeUtf8(s))
  }

  /** A character that can appear in the output of `encodeURIComponent`. */
  predicate IsEncodedChar(c: char) {
    IsUnreserved(c) || c == '%' || IsHexChar(c)
  }

  lemma {:induction false} EncodeBytesChars(bs: seq<byte>)
    ensures forall c :: c in EncodeBytes(bs) ==> IsEncodedChar(c)
    decreases |bs|
  {
    if bs != [] {
      EncodeBytesChars(bs[1..]);
      HexDigitValue(bs[0] / 16);
      HexDigitValue(bs[0] % 16);
    }
  }

  /**
   * The output of `encodeURIComponent` contains none of the characters that
   * delimit or alter a query: "&", "=", "#", "+", "?", or a space.
   */
  lemma EncodedIsQuerySafe(s: string)
    ensures forall c :: c in EncodeURIComponent(s) ==> IsEncodedChar(c)
    ensures forall c :: c in EncodeURIComponent(s) ==> c != '&' && c != '=' && c != '#' && c != '+' && c != '?' && c != ' '
  {
    EncodeBytesChars(EncodeUtf8(s));
  }

  // ---------------------------------------------------------------------------
  // application/x-www-form-urlencoded decoding (URLSearchParams)
  // ---------------------------------------------------------------------------

  predicate IsHexByte(b: byte) {
    b < 0x80 && IsHexChar(b as char)
  }

  /** Percent-decoding of bytes: "%" followed by two hex digits becomes one byte, everything else is kept. */
  function PercentDecode(bs: seq<byte>): seq<byte>
    decreases |bs|
  {
    if bs == [] then []
    else if |bs| >= 3 && bs[0] == 0x25 && IsHexByte(bs[1]) && IsHexByte(bs[2]) then
      [HexValue(bs[1] as char) * 16 + HexValue(bs[2] as char)] + PercentDecode(bs[3..])
    else [bs[0]] + PercentDecode(bs[1..])
  }

  function PlusToSpace(bs: seq<byte>): seq<byte>
    decreases |bs|
  {
    if bs == [] then [] else [if bs[0] == 0x2B then 0x20 else bs[0]] + PlusToSpace(bs[1..])
  }

  /** Decoding of one name or value of a form-urlencoded query. */
  function FormDecode(s: string): string {
    DecodeUtf8(PercentDecode(PlusToSpace(EncodeUtf8(s))))
  }

  /** One byte per character (the identity on ASCII text). */
  function AsciiBytes(s: string): (bs: seq<byte>)
    ensures |bs| == |s|
    ensures forall i :: 0 <= i < |s| && s[i] as int < 0x100 ==> bs[i] == s[i] as int
  {
    seq(|s|, i requires 0 <= i < |s| => if s[i] as int < 0x100 then s[i] as int else 0)
  }

  lemma {:induction false} EncodeUtf8Ascii(s: string)
    requires forall c :: c in s ==> c as int < 0x80
    ensures EncodeUtf8(s) == AsciiBytes(s)
    decreases |s|
  {
    if s != [] {
      var h, t := s[0], s[1..];
      assert h in s;
      assert forall c :: c in t ==> c in s;
      EncodeUtf8Ascii(t);
      assert EncodeUtf8(s) == [h as int] + AsciiBytes(t);
      assert s == [h] + t;
      AsciiBytesAppend([h], t);
    }
  }

  lemma AsciiBytesAppend(s: string, t: string)
    ensures AsciiBytes(s + t) == AsciiBytes(s) + AsciiBytes(t)
  {
  }

  lemma HexDigitValue(d: nat)
    requires d < 16
    ensures IsHexChar(HexDigit(d)) && HexValue(HexDigit(d)) == d && HexDigit(d) as int < 0x80
    ensures HexDigit(d) != '+'
  {
  }

  lemma {:induction false} EncodedIsAscii(bs: seq<byte>)
    ensures forall c :: c in EncodeBytes(bs) ==> c as int < 0x80 && c != '+'
    decreases |bs|
  {
    if bs != [] {
      EncodedIsAscii(bs[1..]);
      HexDigitValue(bs[0] / 16);
      HexDigitValue(bs[0] % 16);
    }
  }

  /** The bytes of one encoded octet contain no "+" and percent-decode back to the octet. */
  lemma EncodeByteDecodes(b: byte, rest: seq<byte>)
    ensures var hb := AsciiBytes(EncodeByte(b));
      && PlusToSpace(hb) == hb
      && PercentDecode(hb + rest) == [b] + PercentDecode(rest)
  {
    HexDigitValue(b / 16);
    HexDigitValue(b % 16);
    var hb := AsciiBytes(EncodeByte(b));
    if b < 0x80 && IsUnreserved(b as char) {
      assert hb == [b];
      assert (hb + rest)[1..] == rest;
    } else {
      assert hb == [0x25, HexDigit(b / 16) as int, HexDigit(b % 16) as int];
      assert (hb + rest)[3..] == rest;
    }
    NoPlusFixed(hb);
  }

  /** Percent-decoding (after the "+" rule) recovers the bytes that were percent-encoded. */
  lemma {:induction false} PercentRoundTrip(bs: seq<byte>)
    ensures PercentDecode(PlusToSpace(AsciiBytes(EncodeBytes(bs)))) == bs
    decreases |bs|
  {
    if bs != [] {
      var head := EncodeByte(bs[0]);
      var tail := EncodeBytes(bs[1..]);
      AsciiBytesAppend(head, tail);
      var hb := AsciiBytes(head);
      var tb := AsciiBytes(tail);
      PlusToSpaceAppend(hb, tb);
      EncodeByteDecodes(bs[0], PlusToSpace(tb));
      PercentRoundTrip(bs[1..]);
      assert bs == [bs[0]] + bs[1..];
    }
  }

  lemma {:induction false} PlusToSpaceAppend(xs: seq<byte>, ys: seq<byte>)
    ensures PlusToSpace(xs + ys) == PlusToSpace(xs) + PlusToSpace(ys)
    decreases |xs|
  {
    if xs == [] {
      assert xs + ys == ys;
    } else {
      assert (xs + ys)[0] == xs[0];
      assert (xs + ys)[1..] == xs[1..] + ys;
      PlusToSpaceAppend(xs[1..], ys);
    }
  }

  /** Form decoding recovers exactly the text that `encodeURIComponent` encoded. */
  lemma FormDecodeRoundTrip(s: string)
    ensures FormDecode(EncodeURIComponent(s)) == s
  {
    var bs := EncodeUtf8(s);
    var e := EncodeBytes(bs);
    EncodedIsAscii(bs);
    EncodeUtf8Ascii(e);
    PercentRoundTrip(bs);
    Utf8RoundTrip(s);
  }

  // ---------------------------------------------------------------------------
  // Query strings
  // ---------------------------------------------------------------------------

  /** `s.split(sep)`. */
  function Split(s: string, sep: char): (parts: seq<string>)
    ensures |parts| >= 1
    decreases |s|
  {
    if s == [] then [[]]
    else if s[0] == sep then [[]] + Split(s[1..], sep)
    else
      var rest := Split(s[1..], sep);
      [[s[0]] + rest[0]] + rest[1..]
  }

  lemma {:induction false} SplitWithoutSeparator(s: string, sep: char)
    requires sep !in s
    ensures Split(s, sep) == [s]
    decreases |s|
  {
    if s != [] {
      SplitWithoutSeparator(s[1..], sep);
      assert s == [s[0]] + s[1..];
    }
  }

  /** Index of the first occurrence of `c` in `s`, or |s|. */
  function IndexOf(s: string, c: char): (i: nat)
    ensures i <= |s|
    ensures c !in s[..i]
    ensures i < |s| ==> s[i] == c
    decreases |s|
  {
    if s == [] then 0
    else if s[0] == c then 0
    else
      var k := IndexOf(s[1..], c);
      assert s[..k + 1] == [s[0]] + s[1..][..k];
      1 + k
  }

  /** One name/value pair of a query, split at its first "=", both decoded. */
  function ParsePair(segment: string): (string, string) {
    var i := IndexOf(segment, '=');
    if i == |segment| then (FormDecode(segment), "")
    else (FormDecode(segment[..i]), FormDecode(segment[i + 1..]))
  }

  /** The pairs of a query string, in order; empty segments are skipped. */
  function ParseQuery(query: string): seq<(string, string)> {
    var segments := Split(query, '&');
    ParseSegments(segments)
  }

  function ParseSegments(segments: seq<string>): seq<(string, string)>
    decreases |segments|
  {
    if segments == [] then []
    else if segments[0] == "" then ParseSegments(segments[1..])
    else [ParsePair(segments[0])] + ParseSegments(segments[1..])
  }

  /** `URLSearchParams.get(key)`: the value of the first pair named `key`, or null. */
  function Get(pairs: seq<(string, string)>, key: string): Option<string>
    decreases |pairs|
  {
    if pairs == [] then None
    else if pairs[0].0 == key then Some(pairs[0].1)
    else Get(pairs[1..], key)
  }

  /** The query of a URL: what follows the first "?", up to any "#". */
  function QueryOf(url: string): string {
    var q := IndexOf(url, '?');
    if q == |url| then ""
    else
      var rest := url[q + 1..];
      rest[..IndexOf(rest, '#')]
  }

  /** `new URL(url).searchParams.get(key)`. */
  function SearchParam(url: string, key: string): Option<string> {
    Get(ParseQuery(QueryOf(url)), key)
  }

  /** A URL with one query parameter: `base + "?" + key + "=" + encodeURIComponent(value)`. */
  function WithParam(base: string, key: string, value: string): string {
    base + "?" + key + "=" + EncodeURIComponent(value)
  }

  /** A parameter name that needs no encoding: plain ASCII letters. */
  predicate IsPlainName(key: string) {
    key != "" && forall c :: c in key ==> 'a' <= c <= 'z' || 'A' <= c <= 'Z'
  }

  lemma PlainNameDecodes(key: string)
    requires IsPlainName(key)
    ensures FormDecode(key) == key
  {
    EncodeUtf8Ascii(key);
    var bs := AsciiBytes(key);
    forall i | 0 <= i < |bs| ensures bs[i] != 0x2B && bs[i] != 0x25 {
      assert key[i] in key;
    }
    PlainBytesFixed(bs);
    Utf8RoundTrip(key);
  }

  /** Bytes without "+" pass through the "+" rule unchanged. */
  lemma {:induction false} NoPlusFixed(bs: seq<byte>)
    requires forall i :: 0 <= i < |bs| ==> bs[i] != 0x2B
    ensures PlusToSpace(bs) == bs
    decreases |bs|
  {
    if bs != [] {
      NoPlusFixed(bs[1..]);
      assert bs == [bs[0]] + bs[1..];
    }
  }

  /** Bytes without "+" or "%" pass through the "+" rule and percent-decoding unchanged. */
  lemma {:induction false} PlainBytesFixed(bs: seq<byte>)
    requires forall i :: 0 <= i < |bs| ==> bs[i] != 0x2B && bs[i] != 0x25
    ensures PercentDecode(PlusToSpace(bs)) == bs
    decreases |bs|
  {
    if bs != [] {
      PlainBytesFixed(bs[1..]);
      var rest := PlusToSpace(bs[1..]);
      assert PlusToSpace(bs) == [bs[0]] + rest;
      assert ([bs[0]] + rest)[1..] == rest;
      assert bs == [bs[0]] + bs[1..];
    }
  }

  /** The first occurrence of `c` is at `k` when `s[k]` is `c` and no earlier character is. */
  lemma IndexOfAt(s: string, c: char, k: nat)
    requires k < |s| && s[k] == c && c !in s[..k]
    ensures IndexOf(s, c) == k
  {
  }

  /** The query of `base + "?" + query` is `query` when `base` has no "?" and `query` no "#". */
  lemma QueryOfAppended(base: string, query: string)
    requires '?' !in base && '#' !in query
    ensures QueryOf(base + "?" + query) == query
  {
    var url := base + "?" + query;
    assert url[..|base|] == base;
    IndexOfAt(url, '?', |base|);
    assert url[|base| + 1..] == query;
    assert query[..|query|] == query;
  }

  /** A query made of the single pair `key=enc` yields exactly that pair, decoded. */
  lemma SinglePairQuery(key: string, enc: string)
    requires '&' !in key && '&' !in enc && '=' !in key && key != ""
    ensures ParseQuery(key + "=" + enc) == [(FormDecode(key), FormDecode(enc))]
  {
    var query := key + "=" + enc;
    assert '&' !in query;
    SplitWithoutSeparator(query, '&');
    assert query[..|key|] == key;
    IndexOfAt(query, '=', |key|);
    assert query[|key| + 1..] == enc;
    assert ParsePair(query) == (FormDecode(key), FormDecode(enc));
    assert ParseSegments([query]) == [ParsePair(query)] + ParseSegments([]) by {
      assert [query][0] == query && query != "";
      assert [query][1..] == [];
    }
  }

  /**
   * `url + (url.includes('?') ? '&' : '?') + params`: extra parameters appended
   * to a video URL that may already carry a query.
   */
  function AppendParams(url: string, params: string): string {
    url + (if '?' in url then "&" else "?") + params
  }

  lemma {:induction false} IndexOfPrefix(s: string, t: string, c: char)
    requires c in s
    ensures IndexOf(s + t, c) == IndexOf(s, c)
  {
    var i := IndexOf(s, c);
    assert (s + t)[..i] == s[..i];
    IndexOfAt(s + t, c, i);
  }

  /**
   * Appending parameters extends the URL's query: the parameters become the whole
   * query of a URL that had none, and follow the old query after "&" otherwise.
   */
  lemma AppendParamsQuery(url: string, params: string)
    requires '#' !in url && '#' !in params
    ensures '?' !in url ==> QueryOf(AppendParams(url, params)) == params
    ensures '?' in url ==> QueryOf(AppendParams(url, params)) == QueryOf(url) + "&" + params
  {
    if '?' !in url {
      QueryOfAppended(url, params);
    } else {
      var r := AppendParams(url, params);
      var q := IndexOf(url, '?');
      assert r == url + ("&" + params);
      IndexOfPrefix(url, "&" + params, '?');
      var rest := url[q + 1..];
      assert r[q + 1..] == rest + "&" + params;
      assert '#' !in rest;
      assert '#' !in rest + "&" + params;
      assert IndexOf(rest, '#') == |rest| && rest[..|rest|] == rest;
      assert IndexOf(rest + "&" + params, '#') == |rest + "&" + params|;
      assert (rest + "&" + params)[..|rest + "&" + params|] == rest + "&" + params;
    }
  }

  /**
   * The return-URL round trip: whatever value a builder puts into the query with
   * `encodeURIComponent`, the receiving page's `searchParams.get(key)` returns
   * exactly that value.
   */
  lemma SearchParamRoundTrip(base: string, key: string, value: string)
    requires '?' !in base && '#' !in base
    requires IsPlainName(key)
    ensures SearchParam(WithParam(base, key, value), key) == Some(value)
  {
    var enc := EncodeURIComponent(value);
    EncodedIsQuerySafe(value);
    assert WithParam(base, key, value) == base + "?" + (key + "=" + enc);
    QueryOfAppended(base, key + "=" + enc);
    SinglePairQuery(key, enc);
    PlainNameDecodes(key);
    FormDecodeRoundTrip(value);
  }

  /**
   * A search box's submit: when the trimmed text is non-empty, the page at
   * `path` with that text as its `q` parameter; otherwise no navigation.
   */
  function SearchTarget(path: string, text: string): (target: Option<string>)
    ensures target.Some? <==> Trim(text) != ""
  {
    var t := Trim(text);
    if t != "" then Some(WithParam(path, "q", t)) else None
  }

  /** The page a search box leads to reads back exactly the trimmed text as `q`. */
  lemma SearchTargetRoundTrip(path: string, text: string)
    requires '?' !in path && '#' !in path
    requires Trim(text) != ""
    ensures StartsWith(SearchTarget(path, text).value, path + "?q=")
    ensures SearchParam(SearchTarget(path, text).value, "q") == Some(Trim(text))
  {
    var t := Trim(text);
    PlainNames();
    SearchParamRoundTrip(path, "q", t);
    SearchUrl(path, t);
  }

  /** The URL a search builds: the path, `?q=` and the encoded text. */
  lemma SearchUrl(path: string, t: string)
    ensures WithParam(path, "q", t) == path + "?q=" + EncodeURIComponent(t)
    ensures StartsWith(WithParam(path, "q", t), path + "?q=")
  {
    var enc := EncodeURIComponent(t);
    assert "?" + "q" + "=" == "?q=";
    assert WithParam(path, "q", t) == path + ("?" + "q" + "=") + enc;
  }

  /** The two parameter names the apps build URLs with. */
  lemma PlainNames()
    ensures IsPlainName("q") && IsPlainName("redirect")
  {
  }

  /** The built URL starts with the base, the separator and the key. */
  lemma WithParamPrefix(base: string, key: string, value: string)
    ensures StartsWith(WithParam(base, key, value), base + "?" + key + "=")
  {
    var pre := base + "?" + key + "=";
    assert WithParam(base, key, value) == pre + EncodeURIComponent(value);
  }
}
