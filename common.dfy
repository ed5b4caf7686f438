/**
 * Values and string helpers shared by every front end: optional values,
 * JavaScript truthiness of strings, ASCII `toLowerCase`, `includes`,
 * `startsWith`, `trim`, and the character-code sum behind the stock
 * thumbnail choice.
 */
module Common {

  datatype Option<T> = None | Some(value: T)

  /** JavaScript truthiness of an optional string: absent, null and "" are falsy. */
  predicate Truthy(o: Option<string>) {
    o.Some? && o.value != ""
  }

  /** `a || b` where `a` is an optional string and `b` a fallback string. */
  function OrElse(a: Option<string>, b: string): string {
    if Truthy(a) then a.value else b
  }

  /** The first `n` elements of `xs`, or all of them (`Array.prototype.slice(0, n)`, a query `limit`). */
  function Take<T>(xs: seq<T>, n: nat): (r: seq<T>)
    ensures |r| <= n && |r| <= |xs|
    ensures r <= xs
    ensures |xs| <= n ==> r == xs
  {
    if |xs| <= n then xs else xs[..n]
  }

  // ---------------------------------------------------------------------------
  // Filtering and counting (Array.prototype.filter, .length, .reduce)
  // ---------------------------------------------------------------------------

  function Filter<T>(xs: seq<T>, p: T -> bool): seq<T>
    decreases |xs|
  {
    if xs == [] then [] else (if p(xs[0]) then [xs[0]] else []) + Filter(xs[1..], p)
  }

  /** A predicate that holds of every element keeps the whole sequence. */
  lemma {:induction false} FilterAll<T>(xs: seq<T>, p: T -> bool)
    requires forall x :: x in xs ==> p(x)
    ensures Filter(xs, p) == xs
    decreases |xs|
  {
    if xs != [] {
      assert forall x :: x in xs[1..] ==> x in xs;
      FilterAll(xs[1..], p);
      assert xs == [xs[0]] + xs[1..];
    }
  }

  /** A predicate that holds of no element keeps nothing. */
  lemma {:induction false} FilterNone<T>(xs: seq<T>, p: T -> bool)
    requires forall x :: x in xs ==> !p(x)
    ensures Filter(xs, p) == []
    decreases |xs|
  {
    if xs != [] {
      assert forall x :: x in xs[1..] ==> x in xs;
      FilterNone(xs[1..], p);
    }
  }

  /** `r` is `xs` with some elements dropped and the rest kept in order. */
  ghost predicate IsSubsequence<T>(r: seq<T>, xs: seq<T>)
    decreases |xs|
  {
    if r == [] then true
    else if xs == [] then false
    else if r[0] == xs[0] then IsSubsequence(r[1..], xs[1..])
    else IsSubsequence(r, xs[1..])
  }

  /** Filter keeps exactly the elements that satisfy the predicate, in their original order. */
  lemma {:induction false} FilterSpec<T>(xs: seq<T>, p: T -> bool)
    ensures forall x :: x in Filter(xs, p) <==> x in xs && p(x)
    ensures IsSubsequence(Filter(xs, p), xs)
    ensures |Filter(xs, p)| <= |xs|
    decreases |xs|
  {
    if xs != [] {
      FilterSpec(xs[1..], p);
      var rest := Filter(xs[1..], p);
      if p(xs[0]) {
        assert Filter(xs, p) == [xs[0]] + rest;
        assert ([xs[0]] + rest)[1..] == rest;
      } else {
        assert Filter(xs, p) == rest;
        SubsequenceDropHead(rest, xs);
      }
      assert xs == [xs[0]] + xs[1..];
    }
  }

  lemma {:induction false} SubsequenceDropHead<T>(r: seq<T>, xs: seq<T>)
    requires xs != [] && IsSubsequence(r, xs[1..])
    ensures IsSubsequence(r, xs)
    decreases |xs|, 0
  {
    if r != [] && r[0] == xs[0] {
      SubsequenceTail(r, xs[1..]);
    }
  }

  lemma {:induction false} SubsequenceTail<T>(r: seq<T>, xs: seq<T>)
    requires r != [] && IsSubsequence(r, xs)
    ensures IsSubsequence(r[1..], xs)
    decreases |xs|, 1
  {
    if r[0] != xs[0] {
      SubsequenceTail(r, xs[1..]);
      SubsequenceDropHead(r[1..], xs);
    } else if r[1..] != [] {
      SubsequenceTail(r[1..], xs[1..]);
      SubsequenceDropHead(r[1..], xs);
    }
  }

  /** Every sequence is a subsequence of itself. */
  lemma {:induction false} SubsequenceRefl<T>(xs: seq<T>)
    ensures IsSubsequence(xs, xs)
    decreases |xs|
  {
    if xs != [] {
      SubsequenceRefl(xs[1..]);
    }
  }
  /** The elements of a subsequence are elements of the sequence. */
  lemma {:induction false} SubsequenceMembers<T>(r: seq<T>, xs: seq<T>)
    requires IsSubsequence(r, xs)
    ensures forall x :: x in r ==> x in xs
    decreases |xs|
  {
    if r != [] && xs != [] {
      if r[0] == xs[0] {
        SubsequenceMembers(r[1..], xs[1..]);
        assert forall x :: x in r ==> x == r[0] || x in r[1..];
      } else {
        SubsequenceMembers(r, xs[1..]);
      }
    }
  }
  /** A prefix is a subsequence. */
  lemma {:induction false} PrefixSubsequence<T>(p: seq<T>, xs: seq<T>)
    requires p <= xs
    ensures IsSubsequence(p, xs)
    decreases |xs|
  {
    if p != [] {
      assert p[0] == xs[0];
      PrefixSubsequence(p[1..], xs[1..]);
    }
  }
  /** Subsequence is transitive. */
  lemma {:induction false} SubsequenceTrans<T>(a: seq<T>, b: seq<T>, c: seq<T>)
    requires IsSubsequence(a, b) && IsSubsequence(b, c)
    ensures IsSubsequence(a, c)
    decreases |c|
  {
    if a != [] && c != [] {
      if b[0] == c[0] {
        if a[0] == b[0] {
          SubsequenceTrans(a[1..], b[1..], c[1..]);
        } else {
          SubsequenceTrans(a, b[1..], c[1..]);
        }
      } else {
        SubsequenceTrans(a, b, c[1..]);
        SubsequenceDropHead(a, c);
      }
    }
  }

  /** Filtering with two predicates that agree everywhere gives the same result. */
  lemma {:induction false} FilterExtensional<T>(xs: seq<T>, p: T -> bool, q: T -> bool)
    requires forall x :: p(x) == q(x)
    ensures Filter(xs, p) == Filter(xs, q)
    decreases |xs|
  {
    if xs != [] {
      FilterExtensional(xs[1..], p, q);
    }
  }

  /** Filtering distributes over concatenation. */
  lemma {:induction false} FilterAppend<T>(xs: seq<T>, ys: seq<T>, p: T -> bool)
    ensures Filter(xs + ys, p) == Filter(xs, p) + Filter(ys, p)
    decreases |xs|
  {
    if xs != [] {
      assert (xs + ys)[0] == xs[0];
      assert (xs + ys)[1..] == xs[1..] + ys;
      FilterAppend(xs[1..], ys, p);
      assert Filter(xs + ys, p) == (if p(xs[0]) then [xs[0]] else []) + Filter(xs[1..] + ys, p);
    } else {
      assert xs + ys == ys;
    }
  }

  /**
   * Counting with two predicates that never hold together counts each element
   * at most once.
   */
  lemma {:induction false} DisjointCounts<T>(xs: seq<T>, p: T -> bool, q: T -> bool)
    requires forall x :: !(p(x) && q(x))
    ensures |Filter(xs, p)| + |Filter(xs, q)| <= |xs|
    decreases |xs|
  {
    if xs != [] {
      DisjointCounts(xs[1..], p, q);
    }
  }

  /** Sum of integers (`reduce((acc, x) => acc + x, 0)`). */
  function Sum(xs: seq<int>): int
    decreases |xs|
  {
    if xs == [] then 0 else xs[0] + Sum(xs[1..])
  }

  lemma {:induction false} SumAppend(xs: seq<int>, ys: seq<int>)
    ensures Sum(xs + ys) == Sum(xs) + Sum(ys)
    decreases |xs|
  {
    if xs != [] {
      assert (xs + ys)[0] == xs[0];
      assert (xs + ys)[1..] == xs[1..] + ys;
      SumAppend(xs[1..], ys);
    } else {
      assert xs + ys == ys;
    }
  }

  // ---------------------------------------------------------------------------
  // Strings
  // ---------------------------------------------------------------------------

  predicate IsAsciiUpper(c: char) {
    'A' <= c <= 'Z'
  }

  function LowerChar(c: char): char {
    if IsAsciiUpper(c) then (c as int + 32) as char else c
  }

  /** `toLowerCase()` restricted to ASCII letters; every other character is kept. */
  function Lower(s: string): (r: string)
    ensures |r| == |s|
    ensures forall i :: 0 <= i < |s| ==> r[i] == LowerChar(s[i])
    ensures forall i :: 0 <= i < |r| ==> !IsAsciiUpper(r[i])
  {
    seq(|s|, i requires 0 <= i < |s| => LowerChar(s[i]))
  }

  /** `sub` occurs in `s` starting at index `i`. */
  predicate OccursAt(s: string, sub: string, i: int) {
    0 <= i && i + |sub| <= |s| && s[i..i + |sub|] == sub
  }

  /** `s.includes(sub)`, searching from the left. */
  function Includes(s: string, sub: string): bool
    decreases |s|
  {
    if sub <= s then true
    else if s == [] then false
    else Includes(s[1..], sub)
  }

  /** `includes` holds exactly when `sub` occurs somewhere in `s`. */
  lemma {:induction false} IncludesIffOccurs(s: string, sub: string)
    ensures Includes(s, sub) <==> exists i :: OccursAt(s, sub, i)
    decreases |s|
  {
    if sub <= s {
      assert OccursAt(s, sub, 0);
    } else if s == [] {
      assert sub != [];
    } else {
      IncludesIffOccurs(s[1..], sub);
      if Includes(s[1..], sub) {
        var i :| OccursAt(s[1..], sub, i);
        OccursInTail(s, sub, i);
      } else {
        forall i | OccursAt(s, sub, i) ensures false {
          if i == 0 {
            OccursAtStart(s, sub);
          } else {
            OccursInTail(s, sub, i - 1);
          }
        }
      }
    }
  }

  /** An occurrence in the tail is an occurrence one position further in the whole. */
  lemma OccursInTail(s: string, sub: string, i: nat)
    requires s != []
    ensures OccursAt(s[1..], sub, i) <==> OccursAt(s, sub, i + 1)
  {
    if i + 1 + |sub| <= |s| {
      assert s[1..][i..i + |sub|] == s[i + 1..i + 1 + |sub|];
    }
  }

  /** An occurrence at position 0 is a prefix. */
  lemma OccursAtStart(s: string, sub: string)
    ensures OccursAt(s, sub, 0) <==> sub <= s
  {
    if sub <= s {
      assert s[0..|sub|] == sub;
    }
    if OccursAt(s, sub, 0) {
      assert forall j :: 0 <= j < |sub| ==> sub[j] == s[0..|sub|][j] == s[j];
    }
  }

  /** The empty string is included in every string. */
  lemma IncludesEmpty(s: string)
    ensures Includes(s, "")
  {
  }

  /** Case-insensitive `includes` over ASCII (`a.toLowerCase().includes(b.toLowerCase())`). */
  predicate IncludesIgnoringCase(s: string, sub: string) {
    Includes(Lower(s), Lower(sub))
  }

  /** `s.startsWith(prefix)`: a raw character prefix test. */
  predicate StartsWith(s: string, prefix: string) {
    prefix <= s
  }

  /** The characters `String.prototype.trim` removes (WhiteSpace and LineTerminator). */
  predicate IsSpace(c: char) {
    || c == ' ' || c == '\t' || c == '\n' || c == '\r' || c == '\U{000B}' || c == '\U{000C}'
    || c == '\U{00A0}' || c == '\U{1680}' || ('\U{2000}' <= c <= '\U{200A}')
    || c == '\U{2028}' || c == '\U{2029}' || c == '\U{202F}' || c == '\U{205F}'
    || c == '\U{3000}' || c == '\U{FEFF}'
  }

  /** Number of whitespace characters at the start of `s`. */
  function LeadingSpaces(s: string): (n: nat)
    ensures n <= |s|
    ensures forall i :: 0 <= i < n ==> IsSpace(s[i])
    ensures n < |s| ==> !IsSpace(s[n])
    decreases |s|
  {
    if s != [] && IsSpace(s[0]) then 1 + LeadingSpaces(s[1..]) else 0
  }

  /** Number of whitespace characters at the end of `s`. */
  function TrailingSpaces(s: string): (n: nat)
    ensures n <= |s|
    ensures forall i :: |s| - n <= i < |s| ==> IsSpace(s[i])
    ensures n < |s| ==> !IsSpace(s[|s| - n - 1])
    decreases |s|
  {
    if s != [] && IsSpace(s[|s| - 1]) then 1 + TrailingSpaces(s[..|s| - 1]) else 0
  }

  /** `s.trim()`. */
  function Trim(s: string): string {
    var a := LeadingSpaces(s);
    var t := s[a..];
    t[..|t| - TrailingSpaces(t)]
  }

  /**
   * `trim` cuts whitespace only, from both ends, and leaves a string that
   * neither starts nor ends with whitespace; it is empty exactly when the input
   * is all whitespace.
   */
  lemma TrimSpec(s: string)
    ensures var r := Trim(s);
      && LeadingSpaces(s) + |r| <= |s| && r == s[LeadingSpaces(s)..LeadingSpaces(s) + |r|]
      && (r != "" ==> !IsSpace(r[0]) && !IsSpace(r[|r| - 1]))
      && (r == "" <==> forall i :: 0 <= i < |s| ==> IsSpace(s[i]))
  {
    var a := LeadingSpaces(s);
    var t := s[a..];
    var b := TrailingSpaces(t);
    var r := Trim(s);
    assert r == s[a..a + |r|];
    if r == "" {
      assert a == |s|;
    } else {
      assert r[0] == t[0];
    }
  }

  /** Trimming twice is the same as trimming once. */
  lemma TrimIdempotent(s: string)
    ensures Trim(Trim(s)) == Trim(s)
  {
    var r := Trim(s);
    TrimSpec(s);
    if r != "" {
      assert LeadingSpaces(r) == 0;
      assert TrailingSpaces(r) == 0;
    }
  }

  // ---------------------------------------------------------------------------
  // Stock thumbnail index: id.split('').reduce((acc, ch) => acc + ch.charCodeAt(0), 0) % 8
  // ---------------------------------------------------------------------------

  /**
   * Sum of the UTF-16 code units of one character: a character above U+FFFF is
   * two code units (a surrogate pair) in JavaScript.
   */
  function CodeUnitSum(c: char): nat {
    var n := c as int;
    if n < 0x10000 then n
    else (0xD800 + (n - 0x10000) / 0x400) + (0xDC00 + (n - 0x10000) % 0x400)
  }

  function CharCodeSum(s: string): nat
    decreases |s|
  {
    if s == [] then 0 else CodeUnitSum(s[0]) + CharCodeSum(s[1..])
  }

  /** Index of the stock image used when a course has no thumbnail. */
  function StockImageIndex(id: string): (k: nat)
    ensures k < 8
  {
    CharCodeSum(id) % 8
  }

  /** The eight stock photographs a card without a thumbnail falls back on. */
  const StockPhotoIds: seq<string> := [
    "1434030216411-0b793f4b4173", "1522202176988-66273c2fd55f", "1516321318423-f06f85e504b3",
    "1501504905252-473c47e087f8", "1456513080510-7bf3a84b82f8", "1497633762265-9d179a990aa6",
    "1523240795612-9a054b0db644", "1491843384429-30494622eb90"]

  /** The stock image URL for a course id, at the given width. */
  function StockImageUrl(id: string, width: string): string {
    "https://images.unsplash.com/photo-" + StockPhotoIds[StockImageIndex(id)] + "?auto=format&fit=crop&q=80&w=" + width
  }

  /** The code-unit sum of a concatenation is the sum of the parts' sums. */
  lemma {:induction false} CharCodeSumAppend(s: string, t: string)
    ensures CharCodeSum(s + t) == CharCodeSum(s) + CharCodeSum(t)
    decreases |s|
  {
    if s != [] {
      assert (s + t)[0] == s[0];
      assert (s + t)[1..] == s[1..] + t;
      CharCodeSumAppend(s[1..], t);
    } else {
      assert s + t == t;
    }
  }

  /** The choice of stock image does not depend on the order of the id's parts. */
  lemma StockImageSwap(s: string, t: string, width: string)
    ensures StockImageUrl(s + t, width) == StockImageUrl(t + s, width)
  {
    CharCodeSumAppend(s, t);
    CharCodeSumAppend(t, s);
  }

  // ---------------------------------------------------------------------------
  // Card media and number display
  // ---------------------------------------------------------------------------

  /** What a course card shows at its top: an embedded video or an image. */
  datatype Media = Video(src: string) | Picture(src: string)

  function DigitChar(d: nat): char
    requires d < 10
  {
    ('0' as int + d) as char
  }

  /** How JavaScript prints a whole number: its decimal digits, without leading zeros. */
  function DecimalString(n: nat): (s: string)
    ensures |s| > 0 && IsDigits(s)
    ensures n > 0 ==> s[0] != '0'
    decreases n
  {
    if n < 10 then [DigitChar(n)] else DecimalString(n / 10) + [DigitChar(n % 10)]
  }

  predicate IsDigits(s: string) {
    forall i :: 0 <= i < |s| ==> '0' <= s[i] <= '9'
  }

  /** The value of a string of decimal digits. */
  function DecimalValue(s: string): nat
    requires IsDigits(s)
    decreases |s|
  {
    if s == [] then 0
    else
      10 * DecimalValue(s[..|s| - 1]) + (s[|s| - 1] as int - '0' as int)
  }

  /** Printing a number and reading the digits back gives the number. */
  lemma {:induction false} DecimalRoundTrip(n: nat)
    ensures DecimalValue(DecimalString(n)) == n
    decreases n
  {
    var s := DecimalString(n);
    if n >= 10 {
      DecimalRoundTrip(n / 10);
      assert s[..|s| - 1] == DecimalString(n / 10);
    }
  }
}
