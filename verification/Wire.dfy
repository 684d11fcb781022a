/** The wire types every packet is made of: bytes, big-endian integers,
    length-prefixed strings, UTF-8 text, decimal handle numbers, and the
    order in which a map of names is walked. */
module Wire {

  type Byte = b: int | 0 <= b < 256
  type Bytes = seq<Byte>

  /** A name or a handle: the bytes of a text. */
  type Name = seq<Byte>

  const U32_MAX := 0xFFFF_FFFF
  const U64_MAX := 0xFFFF_FFFF_FFFF_FFFF

  type U32 = n: int | 0 <= n <= 0xFFFF_FFFF
  type U64 = n: int | 0 <= n <= 0xFFFF_FFFF_FFFF_FFFF

  datatype Option<+T> = None | Some(value: T)

  /** What an operation answers; why it failed is left out. */
  datatype Result<+T> = Ok(value: T) | Err {
    predicate IsFailure() {
      Err?
    }

    function PropagateFailure<U>(): Result<U>
      requires Err?
    {
      Err
    }

    function Extract(): T
      requires Ok?
    {
      value
    }
  }

  /** What reading from a cursor gives: the value and the bytes still unread,
      or nothing where the bytes ran out or were not what was due. */
  datatype Parsed<+T> = Short | Got(value: T, rest: Bytes) {
    predicate IsFailure() {
      Short?
    }

    function PropagateFailure<U>(): Parsed<U>
      requires Short?
    {
      Short
    }

    function Extract(): (T, Bytes)
      requires Got?
    {
      (value, rest)
    }
  }

  function Max(a: int, b: int): int {
    if a < b then b else a
  }

  function Min(a: int, b: int): int {
    if a < b then a else b
  }

  // ---------------------------------------------------------------- integers

  function U32Be(n: U32): (b: Bytes)
    ensures |b| == 4
  {
    [n / 0x100_0000, n / 0x1_0000 % 0x100, n / 0x100 % 0x100, n % 0x100]
  }

  function U64Be(n: U64): (b: Bytes)
    ensures |b| == 8
  {
    U32Be(n / 0x1_0000_0000) + U32Be(n % 0x1_0000_0000)
  }

  /** A length-prefixed string. */
  function Str(s: Bytes): (b: Bytes)
    requires |s| <= U32_MAX
    ensures |b| == |s| + 4
  {
    U32Be(|s|) + s
  }

  function TakeU32(c: Bytes): Parsed<U32> {
    if |c| < 4 then Short
    else Got(c[0] as int * 0x100_0000 + c[1] as int * 0x1_0000 + c[2] as int * 0x100 + c[3] as int, c[4..])
  }

  function TakeU64(c: Bytes): Parsed<U64> {
    var (high, rest) :- TakeU32(c);
    var (low, rest) :- TakeU32(rest);
    Got(high * 0x1_0000_0000 + low, rest)
  }

  function TakeStr(c: Bytes): (p: Parsed<Bytes>)
    ensures p.Got? ==> |p.rest| + 4 + |p.value| == |c|
  {
    var (length, rest) :- TakeU32(c);
    if |rest| < length then Short else Got(rest[..length], rest[length..])
  }

  /** Whatever was written is read back, and nothing after it is touched. */
  lemma TakeU32Back(n: U32, rest: Bytes)
    ensures TakeU32(U32Be(n) + rest) == Got(n, rest)
  {
    var c := U32Be(n) + rest;
    assert c[4..] == rest;
    var high, mid := n / 0x1_0000, n / 0x100;
    assert mid == high * 0x100 + mid % 0x100 && high == mid / 0x100;
    assert n == mid * 0x100 + n % 0x100;
    assert high == n / 0x100_0000 * 0x100 + high % 0x100;
  }

  lemma TakeU64Back(n: U64, rest: Bytes)
    ensures TakeU64(U64Be(n) + rest) == Got(n, rest)
  {
    var high, low := n / 0x1_0000_0000, n % 0x1_0000_0000;
    assert U64Be(n) + rest == U32Be(high) + (U32Be(low) + rest);
    TakeU32Back(high, U32Be(low) + rest);
    TakeU32Back(low, rest);
  }

  lemma TakeStrBack(s: Bytes, rest: Bytes)
    requires |s| <= U32_MAX
    ensures TakeStr(Str(s) + rest) == Got(s, rest)
  {
    assert Str(s) + rest == U32Be(|s|) + (s + rest);
    TakeU32Back(|s|, s + rest);
  }

  /** And whatever was read is what was written there, nothing else. */
  lemma TookU32(c: Bytes)
    ensures TakeU32(c).Got? ==> c == U32Be(TakeU32(c).value) + TakeU32(c).rest
  {
    if TakeU32(c).Got? {
      var b0, b1, b2, b3 := c[0] as int, c[1] as int, c[2] as int, c[3] as int;
      var n: int := TakeU32(c).value;
      assert n / 0x100 == b0 * 0x1_0000 + b1 * 0x100 + b2;
      assert n / 0x1_0000 == b0 * 0x100 + b1;
      assert n / 0x100_0000 == b0;
      assert c == [c[0], c[1], c[2], c[3]] + c[4..];
    }
  }

  lemma TookU64(c: Bytes)
    ensures TakeU64(c).Got? ==> c == U64Be(TakeU64(c).value) + TakeU64(c).rest
  {
    TookU32(c);
    if TakeU64(c).Got? {
      var high, rest := TakeU32(c).value, TakeU32(c).rest;
      TookU32(rest);
      var low, n := TakeU32(rest).value, TakeU64(c).value;
      assert n / 0x1_0000_0000 == high && n % 0x1_0000_0000 == low;
      assert c == U32Be(high) + (U32Be(low) + TakeU64(c).rest);
    }
  }

  lemma TookStr(c: Bytes)
    ensures TakeStr(c).Got? ==> |TakeStr(c).value| <= U32_MAX && c == Str(TakeStr(c).value) + TakeStr(c).rest
  {
    TookU32(c);
    if TakeStr(c).Got? {
      var rest := TakeU32(c).rest;
      assert rest == TakeStr(c).value + TakeStr(c).rest;
    }
  }

  // ------------------------------------------------------------------- UTF-8

  predicate Tail(b: Byte) {
    0x80 <= b <= 0xBF
  }

  /** How many bytes the scalar value at the front of `b` takes; zero where
      there is no well-formed one. */
  function ScalarLength(b: Bytes): (n: nat)
    ensures n <= |b|
  {
    if |b| >= 1 && b[0] <= 0x7F then 1
    else if |b| >= 2 && 0xC2 <= b[0] <= 0xDF && Tail(b[1]) then 2
    else if |b| >= 3 && 0xE0 <= b[0] <= 0xEF && Tail(b[1]) && Tail(b[2])
            && (b[0] == 0xE0 ==> 0xA0 <= b[1]) && (b[0] == 0xED ==> b[1] <= 0x9F) then 3
    else if |b| >= 4 && 0xF0 <= b[0] <= 0xF4 && Tail(b[1]) && Tail(b[2]) && Tail(b[3])
            && (b[0] == 0xF0 ==> 0x90 <= b[1]) && (b[0] == 0xF4 ==> b[1] <= 0x8F) then 4
    else 0
  }

  predicate Utf8(b: Bytes)
    decreases |b|
  {
    |b| == 0 || (ScalarLength(b) > 0 && Utf8(b[ScalarLength(b)..]))
  }

  /** A Unicode scalar value: a code point that is no surrogate. */
  type Scalar = c: int | 0 <= c < 0xD800 || 0xE000 <= c < 0x11_0000

  /** Its bytes, as RFC 3629, section 3, lays them out. */
  function ScalarBytes(c: Scalar): Bytes {
    if c < 0x80 then [c]
    else if c < 0x800 then [0xC0 + c / 64, 0x80 + c % 64]
    else if c < 0x1_0000 then [0xE0 + c / 4096, 0x80 + c / 64 % 64, 0x80 + c % 64]
    else [0xF0 + c / 262_144, 0x80 + c / 4096 % 64, 0x80 + c / 64 % 64, 0x80 + c % 64]
  }

  function TextBytes(text: seq<Scalar>): Bytes {
    if text == [] then [] else ScalarBytes(text[0]) + TextBytes(text[1..])
  }

  lemma ScalarTold(c: Scalar, rest: Bytes)
    ensures ScalarLength(ScalarBytes(c) + rest) == |ScalarBytes(c)| > 0
  {
  }

  lemma ScalarRead(b: Bytes) returns (c: Scalar)
    requires ScalarLength(b) > 0
    ensures b[..ScalarLength(b)] == ScalarBytes(c)
  {
    var n := ScalarLength(b);
    if n == 1 {
      c := b[0];
    } else if n == 2 {
      c := (b[0] as int - 0xC0) * 64 + (b[1] as int - 0x80);
    } else if n == 3 {
      var high := (b[0] as int - 0xE0) * 64 + (b[1] as int - 0x80);
      c := high * 64 + (b[2] as int - 0x80);
      assert c / 64 == high && c / 4096 == high / 64;
    } else {
      var top := (b[0] as int - 0xF0) * 64 + (b[1] as int - 0x80);
      var high := top * 64 + (b[2] as int - 0x80);
      c := high * 64 + (b[3] as int - 0x80);
      assert c / 64 == high && c / 4096 == high / 64 == top && c / 262_144 == top / 64;
    }
  }

  lemma {:induction false} TextIsUtf8(text: seq<Scalar>)
    ensures Utf8(TextBytes(text))
    decreases |text|
  {
    hide ScalarLength, ScalarBytes;
    if text != [] {
      var first, rest := ScalarBytes(text[0]), TextBytes(text[1..]);
      ScalarTold(text[0], rest);
      TextIsUtf8(text[1..]);
      assert (first + rest)[|first|..] == rest;
    }
  }

  lemma {:induction false} Utf8IsText(b: Bytes) returns (text: seq<Scalar>)
    requires Utf8(b)
    ensures b == TextBytes(text)
    decreases |b|
  {
    hide ScalarLength, ScalarBytes;
    if b == [] {
      text := [];
    } else {
      var n := ScalarLength(b);
      var c := ScalarRead(b);
      var more := Utf8IsText(b[n..]);
      text := [c] + more;
      assert text[1..] == more && b == b[..n] + b[n..];
    }
  }

  /** The bytes taken as text are exactly those some text is written as. */
  lemma Utf8Exactly(b: Bytes)
    ensures Utf8(b) <==> exists text: seq<Scalar> :: b == TextBytes(text)
  {
    if Utf8(b) {
      var text := Utf8IsText(b);
    }
    if text: seq<Scalar> :| b == TextBytes(text) {
      TextIsUtf8(text);
    }
  }

  predicate Ascii(b: Bytes) {
    forall i :: 0 <= i < |b| ==> b[i] < 0x80
  }

  lemma {:induction false} AsciiIsUtf8(b: Bytes)
    requires Ascii(b)
    ensures Utf8(b)
    decreases |b|
  {
    if |b| > 0 {
      AsciiIsUtf8(b[1..]);
    }
  }

  /** A name or handle as text, refused where it is not UTF-8. */
  function TakeText(c: Bytes): (p: Parsed<Name>)
    ensures p.Got? ==> Utf8(p.value)
  {
    var (bytes, rest) :- TakeStr(c);
    if Utf8(bytes) then Got(bytes, rest) else Short
  }

  lemma TakeTextBack(s: Name, rest: Bytes)
    requires |s| <= U32_MAX
    ensures TakeText(Str(s) + rest) == if Utf8(s) then Got(s, rest) else Short
  {
    TakeStrBack(s, rest);
  }

  // ---------------------------------------------------------- handle numbers

  function Decimal(n: nat): (b: Bytes)
    ensures |b| > 0 && Ascii(b)
  {
    if n < 10 then [48 + n] else Decimal(n / 10) + [48 + n % 10]
  }

  function Number(b: Bytes): int {
    if |b| == 0 then 0 else Number(b[..|b| - 1]) * 10 + (b[|b| - 1] as int - 48)
  }

  lemma {:induction false} NumberOfDecimal(n: nat)
    ensures Number(Decimal(n)) == n
  {
    if n >= 10 {
      NumberOfDecimal(n / 10);
      var b := Decimal(n);
      assert b[..|b| - 1] == Decimal(n / 10);
    }
  }

  /** The digits of a number, no more of them than it takes. */
  lemma {:induction false} DecimalDigits(n: nat)
    ensures forall i :: 0 <= i < |Decimal(n)| ==> 48 <= Decimal(n)[i] <= 57
    ensures Decimal(n)[0] == 48 <==> n == 0
  {
    if n >= 10 {
      DecimalDigits(n / 10);
    }
  }

  function Pow10(k: nat): nat {
    if k == 0 then 1 else 10 * Pow10(k - 1)
  }

  lemma {:induction false} DecimalLength(n: nat, k: nat)
    requires 0 < k && n < Pow10(k)
    ensures |Decimal(n)| <= k
  {
    if n >= 10 {
      assert k > 1;
      DecimalLength(n / 10, k - 1);
    }
  }

  /** The handle the far end names by its kind and its number. */
  function HandleName(kind: Byte, number: nat): Name
  {
    [kind] + Decimal(number)
  }

  /** Handles of another kind or another number are other handles, and every
      handle is text of at most 21 bytes while the counter fits 64 bits. */
  lemma HandlesDistinct(k: Byte, m: nat, l: Byte, n: nat)
    requires HandleName(k, m) == HandleName(l, n)
    ensures k == l && m == n
  {
    assert HandleName(k, m)[1..] == Decimal(m);
    assert HandleName(l, n)[1..] == Decimal(n);
    assert HandleName(k, m)[0] == k && HandleName(l, n)[0] == l;
    NumberOfDecimal(m);
    NumberOfDecimal(n);
  }

  lemma HandleIsText(kind: Byte, number: nat)
    requires kind < 0x80
    ensures Utf8(HandleName(kind, number))
    ensures number <= U64_MAX ==> |HandleName(kind, number)| <= 21
  {
    AsciiIsUtf8(HandleName(kind, number));
    if number <= U64_MAX {
      assert Pow10(5) == 100_000;
      assert Pow10(10) == 100_000 * Pow10(5);
      assert Pow10(15) == 100_000 * Pow10(10);
      assert Pow10(20) == 100_000 * Pow10(15);
      DecimalLength(number, 20);
    }
  }

  // ----------------------------------------------------------- name ordering

  /** The byte-wise order of texts, in which the far end walks its files. */
  predicate Before(a: Name, b: Name)
    decreases |a|
  {
    |b| > 0 && (|a| == 0 || a[0] < b[0] || (a[0] == b[0] && Before(a[1..], b[1..])))
  }

  lemma SharedFirst(a: Name, b: Name, k: nat)
    requires 0 < k <= |a| && k <= |b| && a[..k] == b[..k]
    ensures a[0] == b[0]
  {
    assert a[0] == a[..k][0] && b[0] == b[..k][0];
  }

  /** It goes by the first byte in which they differ, and a text goes before
      any it begins. */
  lemma {:induction false} BeforeMeans(a: Name, b: Name)
    ensures Before(a, b) <==>
            exists k: nat :: && k <= |a| && k < |b| && a[..k] == b[..k]
                             && (k == |a| || (k < |a| && a[k] < b[k]))
    decreases |a|
  {
    if |b| > 0 && |a| > 0 && a[0] == b[0] {
      BeforeMeans(a[1..], b[1..]);
      if Before(a, b) {
        var k: nat :| && k <= |a| - 1 && k < |b| - 1 && a[1..][..k] == b[1..][..k]
                      && (k == |a| - 1 || (k < |a| - 1 && a[1..][k] < b[1..][k]));
        assert a[..k + 1] == [a[0]] + a[1..][..k] && b[..k + 1] == [b[0]] + b[1..][..k];
        assert a[..k + 1] == b[..k + 1];
      }
      if k: nat :| k <= |a| && k < |b| && a[..k] == b[..k] && (k == |a| || (k < |a| && a[k] < b[k])) {
        assert k > 0;
        assert a[1..][..k - 1] == a[..k][1..] && b[1..][..k - 1] == b[..k][1..];
      }
    } else {
      if Before(a, b) {
        assert a[..0] == b[..0];
      }
      if k: nat :| k <= |a| && k < |b| && a[..k] == b[..k] && (k == |a| || (k < |a| && a[k] < b[k])) {
        if k > 0 {
          SharedFirst(a, b, k);
        }
      }
    }
  }

  lemma {:induction false} BeforeTransitive(a: Name, b: Name, c: Name)
    requires Before(a, b) && Before(b, c)
    ensures Before(a, c)
    decreases |a|
  {
    if |a| > 0 && a[0] == b[0] == c[0] {
      BeforeTransitive(a[1..], b[1..], c[1..]);
    }
  }

  lemma {:induction false} BeforeTotal(a: Name, b: Name)
    ensures (if Before(a, b) then 1 else 0) + (if Before(b, a) then 1 else 0) + (if a == b then 1 else 0) == 1
    decreases |a|
  {
    if |a| > 0 && |b| > 0 && a[0] == b[0] {
      BeforeTotal(a[1..], b[1..]);
      assert a == [a[0]] + a[1..] && b == [b[0]] + b[1..];
    }
  }

  predicate IsLeast(n: Name, names: set<Name>) {
    n in names && forall m :: m in names ==> n == m || Before(n, m)
  }

  lemma {:induction false} LeastExists(names: set<Name>)
    requires names != {}
    ensures exists n :: IsLeast(n, names)
  {
    var x :| x in names;
    var others := names - {x};
    if others == {} {
      assert names == {x};
      assert IsLeast(x, names);
    } else {
      LeastExists(others);
      var y :| IsLeast(y, others);
      BeforeTotal(x, y);
      if Before(x, y) {
        forall m | m in names ensures x == m || Before(x, m) {
          if m != x && m != y {
            BeforeTransitive(x, y, m);
          }
        }
        assert IsLeast(x, names);
      } else {
        assert IsLeast(y, names);
      }
    }
  }

  lemma LeastUnique(a: Name, b: Name, names: set<Name>)
    requires IsLeast(a, names) && IsLeast(b, names)
    ensures a == b
  {
    BeforeTotal(a, b);
  }

  ghost predicate Ordered(s: seq<Name>) {
    forall i, j :: 0 <= i < j < |s| ==> Before(s[i], s[j])
  }

  /** The names of a set in order. */
  function Sorted(names: set<Name>): (s: seq<Name>)
    ensures Ordered(s)
    ensures forall n :: n in s <==> n in names
    ensures |s| == |names|
  {
    if names == {} then []
    else
      LeastExists(names);
      assert forall a, b :: IsLeast(a, names) && IsLeast(b, names) ==> a == b by {
        forall a, b | IsLeast(a, names) && IsLeast(b, names) ensures a == b {
          LeastUnique(a, b, names);
        }
      }
      var n :| n in names && IsLeast(n, names);
      [n] + Sorted(names - {n})
  }

  /** `s` walks the names in order. */
  ghost predicate Walks(s: seq<Name>, names: set<Name>) {
    Ordered(s) && forall n :: n in s <==> n in names
  }

  lemma RestWalks(s: seq<Name>, names: set<Name>)
    requires |s| > 0 && Walks(s, names)
    ensures s[0] in names && Walks(s[1..], names - {s[0]})
  {
    forall n ensures n in s[1..] <==> n in names - {s[0]} {
      if n in s[1..] {
        var i :| 0 <= i < |s| - 1 && s[1..][i] == n;
        assert Before(s[0], s[i + 1]);
        BeforeTotal(s[0], n);
      }
      if n in names - {s[0]} {
        assert n in s;
        var i :| 0 <= i < |s| && s[i] == n;
        assert s[1..][i - 1] == n;
      }
    }
  }

  lemma FirstLeast(s: seq<Name>, names: set<Name>)
    requires |s| > 0 && Walks(s, names)
    ensures Sorted(names) == [s[0]] + Sorted(names - {s[0]})
  {
    forall m | m in names ensures s[0] == m || Before(s[0], m) {
      assert m in s;
    }
    forall m | IsLeast(m, names) ensures m == s[0] {
      LeastUnique(m, s[0], names);
    }
  }

  lemma NothingWalks(s: seq<Name>, names: set<Name>)
    requires |s| == 0 && Walks(s, names)
    ensures s == Sorted(names)
  {
    assert names == {};
  }

  lemma {:induction false} WalkUnique(s: seq<Name>, names: set<Name>)
    requires Walks(s, names)
    ensures s == Sorted(names)
    decreases |s|
  {
    hide Walks, Sorted, Ordered;
    if |s| == 0 {
      NothingWalks(s, names);
    } else {
      FirstLeast(s, names);
      RestWalks(s, names);
      WalkUnique(s[1..], names - {s[0]});
      assert s == [s[0]] + s[1..];
    }
  }

  /** There is only one way to walk a set of names in order. */
  lemma SortedUnique(s: seq<Name>, names: set<Name>)
    requires Ordered(s)
    requires forall n :: n in s <==> n in names
    ensures s == Sorted(names)
  {
    WalkUnique(s, names);
  }
}
