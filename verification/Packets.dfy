/** The packets of SFTP version 3 the client and the far end exchange: how
    each is framed, written and read back, and the attributes a listing
    carries (section 5 of draft-ietf-secsh-filexfer-02). */
module Packets {
  import opened Wire

  const INIT: Byte := 1
  const VERSION: Byte := 2
  const OPEN: Byte := 3
  const CLOSE: Byte := 4
  const READ: Byte := 5
  const WRITE: Byte := 6
  const OPENDIR: Byte := 11
  const READDIR: Byte := 12
  const REMOVE: Byte := 13
  const STAT: Byte := 17
  const RENAME: Byte := 18
  const STATUS: Byte := 101
  const HANDLE: Byte := 102
  const DATA: Byte := 103
  const NAME: Byte := 104
  const ATTRS: Byte := 105

  const F_READ: U32 := 0x1
  const F_WRITE: U32 := 0x2
  const F_CREAT: U32 := 0x8
  const F_TRUNC: U32 := 0x10
  const F_EXCL: U32 := 0x20

  const OK: U32 := 0
  const EOF: U32 := 1
  const NO_SUCH_FILE: U32 := 2
  const FAILURE: U32 := 4

  const PROTOCOL: U32 := 3

  /** The most one read or write carries. */
  const CHUNK := 32_768

  const ATTR_SIZE: U32 := 0x1
  const ATTR_UIDGID: U32 := 0x2
  const ATTR_PERMISSIONS: U32 := 0x4
  const ATTR_ACMODTIME: U32 := 0x8
  const ATTR_EXTENDED: U32 := 0x8000_0000

  /** Whether the flag `bit`, a power of two, is set. */
  predicate Has(flags: U32, bit: U32)
    requires bit > 0
  {
    flags / bit % 2 == 1
  }

  /** What says a listed file is unchanged. */
  datatype Stamp = Stamp(length: U64, modified: U32)

  /** A listed name, with its stamp where the server gave both parts. */
  datatype Listed = Listed(name: Name, stamp: Option<Stamp>)

  datatype Request =
    | Init
    | Open(id: U32, name: Name, flags: U32)
    | Write(id: U32, handle: Name, offset: U64, data: Bytes)
    | Read(id: U32, handle: Name, offset: U64, want: U32)
    | OpenDir(id: U32)
    | ReadDir(id: U32, handle: Name)
    | Close(id: U32, handle: Name)
    | Remove(id: U32, name: Name)
    | Rename(id: U32, from: Name, to: Name)
    | Stat(id: U32, name: Name)

  datatype Reply =
    | Version
    | Handed(id: U32, handle: Name)
    | Data(id: U32, data: Bytes)
    | Names(id: U32, names: seq<(Name, Stamp)>)
    | Attrs(id: U32, stamp: Stamp)
    | Status(id: U32, code: U32)

  // ------------------------------------------------------------------ frames

  /** A framed packet: the length, the type, the body. */
  function Frame(kind: Byte, body: Bytes): Bytes {
    U32Be(Min(|body| + 1, U32_MAX)) + ([kind] + body)
  }

  /** The next packet off a stream: what `recv` and the far end's
      `read_frame` take from the channel. */
  function TakeFrame(stream: Bytes): Parsed<(Byte, Bytes)> {
    var (length, rest) :- TakeU32(stream);
    if |rest| < length || length == 0 then Short
    else Got((rest[0], rest[1..length]), rest[length..])
  }

  /** A frame is taken back whole, and the stream behind it is left as it
      was, for every body the 32-bit length can tell. */
  lemma TakeFrameBack(kind: Byte, body: Bytes, rest: Bytes)
    requires |body| < U32_MAX
    ensures TakeFrame(Frame(kind, body) + rest) == Got((kind, body), rest)
  {
    var packet := [kind] + body;
    assert Frame(kind, body) + rest == U32Be(|packet|) + (packet + rest);
    TakeU32Back(|packet|, packet + rest);
    assert (packet + rest)[1..|packet|] == body;
    assert (packet + rest)[|packet|..] == rest;
  }

  // ---------------------------------------------------------------- requests

  function KindOf(q: Request): Byte {
    match q
    case Init => INIT
    case Open(_, _, _) => OPEN
    case Write(_, _, _, _) => WRITE
    case Read(_, _, _, _) => READ
    case OpenDir(_) => OPENDIR
    case ReadDir(_, _) => READDIR
    case Close(_, _) => CLOSE
    case Remove(_, _) => REMOVE
    case Rename(_, _, _) => RENAME
    case Stat(_, _) => STAT
  }

  /** Every string of the request fits its 32-bit length. */
  predicate Writable(q: Request) {
    match q
    case Init => true
    case Open(_, name, _) => |name| <= U32_MAX
    case Write(_, handle, _, data) => |handle| <= U32_MAX && |data| <= U32_MAX
    case Read(_, handle, _, _) => |handle| <= U32_MAX
    case OpenDir(_) => true
    case ReadDir(_, handle) => |handle| <= U32_MAX
    case Close(_, handle) => |handle| <= U32_MAX
    case Remove(_, name) => |name| <= U32_MAX
    case Rename(_, from, to) => |from| <= U32_MAX && |to| <= U32_MAX
    case Stat(_, name) => |name| <= U32_MAX
  }

  /** Every name and handle of the request is text. */
  predicate Textual(q: Request) {
    match q
    case Init => true
    case Open(_, name, _) => Utf8(name)
    case Write(_, handle, _, _) => Utf8(handle)
    case Read(_, handle, _, _) => Utf8(handle)
    case OpenDir(_) => true
    case ReadDir(_, handle) => Utf8(handle)
    case Close(_, handle) => Utf8(handle)
    case Remove(_, name) => Utf8(name)
    case Rename(_, from, to) => Utf8(from) && Utf8(to)
    case Stat(_, name) => Utf8(name)
  }

  /** The body the client writes. */
  function BodyOf(q: Request): Bytes
    requires Writable(q)
  {
    match q
    case Init => U32Be(PROTOCOL)
    case Open(id, name, flags) => U32Be(id) + (Str(name) + (U32Be(flags) + U32Be(0)))
    case Write(id, handle, offset, data) => U32Be(id) + (Str(handle) + (U64Be(offset) + Str(data)))
    case Read(id, handle, offset, want) => U32Be(id) + (Str(handle) + (U64Be(offset) + U32Be(want)))
    case OpenDir(id) => U32Be(id) + Str([46])
    case ReadDir(id, handle) => U32Be(id) + Str(handle)
    case Close(id, handle) => U32Be(id) + Str(handle)
    case Remove(id, name) => U32Be(id) + Str(name)
    case Rename(id, from, to) => U32Be(id) + (Str(from) + Str(to))
    case Stat(id, name) => U32Be(id) + Str(name)
  }

  /** The request the far end reads off a packet; bytes after the last field
      it reads are ignored. */
  function Understood(kind: Byte, body: Bytes): Parsed<Request> {
    if kind == INIT then Got(Init, body)
    else if kind == OPEN then
      var (id, rest) :- TakeU32(body);
      var (name, rest) :- TakeText(rest);
      var (flags, rest) :- TakeU32(rest);
      Got(Open(id, name, flags), rest)
    else if kind == WRITE then
      var (id, rest) :- TakeU32(body);
      var (handle, rest) :- TakeText(rest);
      var (offset, rest) :- TakeU64(rest);
      var (data, rest) :- TakeStr(rest);
      Got(Write(id, handle, offset, data), rest)
    else if kind == READ then
      var (id, rest) :- TakeU32(body);
      var (handle, rest) :- TakeText(rest);
      var (offset, rest) :- TakeU64(rest);
      var (want, rest) :- TakeU32(rest);
      Got(Read(id, handle, offset, want), rest)
    else if kind == OPENDIR then
      var (id, rest) :- TakeU32(body);
      var (_, rest) :- TakeStr(rest);
      Got(OpenDir(id), rest)
    else if kind == RENAME then
      var (id, rest) :- TakeU32(body);
      var (from, rest) :- TakeText(rest);
      var (to, rest) :- TakeText(rest);
      Got(Rename(id, from, to), rest)
    else if kind == READDIR || kind == CLOSE || kind == REMOVE || kind == STAT then
      var (id, rest) :- TakeU32(body);
      var (text, rest) :- TakeText(rest);
      Got(if kind == READDIR then ReadDir(id, text)
          else if kind == CLOSE then Close(id, text)
          else if kind == REMOVE then Remove(id, text)
          else Stat(id, text), rest)
    else Short
  }

  /** What the client writes the far end understands as the same request,
      exactly where its names and handles are text. */
  lemma UnderstoodBack(q: Request)
    requires Writable(q)
    ensures Understood(KindOf(q), BodyOf(q)).Got? <==> Textual(q)
    ensures Textual(q) ==> Understood(KindOf(q), BodyOf(q)).value == q
  {
    hide U32Be, U64Be, TakeU32, TakeU64, TakeStr, TakeText, Str, Utf8;
    match q
    case Init =>
    case Open(id, name, flags) =>
      TakeU32Back(id, Str(name) + (U32Be(flags) + U32Be(0)));
      TakeTextBack(name, U32Be(flags) + U32Be(0));
      TakeU32Back(flags, U32Be(0));
    case Write(id, handle, offset, data) =>
      TakeU32Back(id, Str(handle) + (U64Be(offset) + Str(data)));
      TakeTextBack(handle, U64Be(offset) + Str(data));
      TakeU64Back(offset, Str(data));
      TakeStrBack(data, []);
      assert Str(data) + [] == Str(data);
    case Read(id, handle, offset, want) =>
      TakeU32Back(id, Str(handle) + (U64Be(offset) + U32Be(want)));
      TakeTextBack(handle, U64Be(offset) + U32Be(want));
      TakeU64Back(offset, U32Be(want));
      TakeU32Back(want, []);
      assert U32Be(want) + [] == U32Be(want);
    case OpenDir(id) =>
      TakeU32Back(id, Str([46]));
      TakeStrBack([46], []);
      assert Str([46]) + [] == Str([46]);
    case Rename(id, from, to) =>
      TakeU32Back(id, Str(from) + Str(to));
      TakeTextBack(from, Str(to));
      LastText(to);
    case ReadDir(id, text) =>
      TakeU32Back(id, Str(text));
      LastText(text);
    case Close(id, text) =>
      TakeU32Back(id, Str(text));
      LastText(text);
    case Remove(id, text) =>
      TakeU32Back(id, Str(text));
      LastText(text);
    case Stat(id, text) =>
      TakeU32Back(id, Str(text));
      LastText(text);
  }

  lemma LastText(s: Name)
    requires |s| <= U32_MAX
    ensures TakeText(Str(s)) == if Utf8(s) then Got(s, []) else Short
  {
    assert Str(s) + [] == Str(s);
    TakeTextBack(s, []);
  }

  /** The fields of the request the far end reads: all the client writes, but of
      an OPEN not the attributes, of an OPENDIR not the path, of INIT nothing. */
  function FieldsOf(q: Request): Bytes
    requires Writable(q)
  {
    match q
    case Init => []
    case Open(id, name, flags) => U32Be(id) + (Str(name) + U32Be(flags))
    case OpenDir(id) => U32Be(id)
    case _ => BodyOf(q)
  }

  /** And nothing else is understood: a packet taken for a request is of its
      type, begins with its fields, and its names and handles are text. */
  lemma UnderstoodOnly(kind: Byte, body: Bytes)
    requires Understood(kind, body).Got?
    ensures var q := Understood(kind, body).value;
            KindOf(q) == kind && Writable(q) && Textual(q) && FieldsOf(q) <= body
  {
    hide U32Be, U64Be, TakeU32, TakeU64, TakeStr, Str, Utf8;
    TookU32(body);
    if kind != INIT {
      var rest := TakeU32(body).rest;
      TookStr(rest);
      if kind in {OPEN, WRITE, READ, RENAME} {
        rest := TakeStr(rest).rest;
        TookU32(rest);
        TookU64(rest);
        TookStr(rest);
        if kind in {WRITE, READ} {
          rest := TakeU64(rest).rest;
          TookStr(rest);
          TookU32(rest);
        }
      }
    }
  }

  // -------------------------------------------------------------- attributes

  /** Attributes as section 5 lays them out, `reserved` the flag bits it
      leaves undefined. */
  datatype Attributes = Attributes(
    size: Option<U64>,
    owner: Option<(U32, U32)>,
    permissions: Option<U32>,
    times: Option<(U32, U32)>,
    extended: Option<seq<(Bytes, Bytes)>>,
    reserved: nat)

  function Set(present: bool, bit: U32): U32 {
    if present then bit else 0
  }

  ghost predicate PairsFit(pairs: seq<(Bytes, Bytes)>) {
    forall i :: 0 <= i < |pairs| ==> |pairs[i].0| <= U32_MAX && |pairs[i].1| <= U32_MAX
  }

  ghost predicate WellFormed(a: Attributes) {
    && a.reserved < 0x800_0000
    && (a.extended.Some? ==>
          && |a.extended.value| <= U32_MAX
          && PairsFit(a.extended.value))
  }

  ghost function Flags(a: Attributes): U32
    requires a.reserved < 0x800_0000
  {
    Set(a.size.Some?, ATTR_SIZE) + Set(a.owner.Some?, ATTR_UIDGID)
    + Set(a.permissions.Some?, ATTR_PERMISSIONS) + Set(a.times.Some?, ATTR_ACMODTIME)
    + 16 * a.reserved + Set(a.extended.Some?, ATTR_EXTENDED)
  }

  lemma Quotient(f: int, d: int, q: int, x: int)
    requires 0 <= x < d && f == x + d * q
    ensures f / d == q
  {
    var k, r := f / d, f % d;
    assert d * (k - q) == x - r;
    Multiple(d, k - q);
  }

  lemma Multiple(d: int, n: int)
    requires d > 0
    ensures n >= 1 ==> d * n >= d
    ensures n <= -1 ==> d * n <= -d
  {
    if n >= 1 {
      assert d * n == d + d * (n - 1);
    } else if n <= -1 {
      assert d * n == -d + d * (n + 1);
    }
  }

  /** Only the bit at `bit` decides whether it is set. */
  lemma BitTold(f: U32, bit: U32, low: nat, one: nat, high: nat)
    requires bit > 0 && low < bit && one < 2
    requires f == low + bit * (one + 2 * high)
    ensures Has(f, bit) == (one == 1)
  {
    Quotient(f, bit, one + 2 * high, low);
  }

  lemma FlagsTell(a: Attributes)
    requires a.reserved < 0x800_0000
    ensures Has(Flags(a), ATTR_SIZE) == a.size.Some?
    ensures Has(Flags(a), ATTR_UIDGID) == a.owner.Some?
    ensures Has(Flags(a), ATTR_PERMISSIONS) == a.permissions.Some?
    ensures Has(Flags(a), ATTR_ACMODTIME) == a.times.Some?
    ensures Has(Flags(a), ATTR_EXTENDED) == a.extended.Some?
  {
    hide Has;
    var s, u, p, t := Set(a.size.Some?, 1), Set(a.owner.Some?, 1), Set(a.permissions.Some?, 1), Set(a.times.Some?, 1);
    var e, r, f := Set(a.extended.Some?, 1), a.reserved, Flags(a);
    BitTold(f, ATTR_SIZE, 0, s, u + 2 * p + 4 * t + 8 * r + 0x4000_0000 * e);
    BitTold(f, ATTR_UIDGID, s, u, p + 2 * t + 4 * r + 0x2000_0000 * e);
    BitTold(f, ATTR_PERMISSIONS, s + 2 * u, p, t + 2 * r + 0x1000_0000 * e);
    BitTold(f, ATTR_ACMODTIME, s + 2 * u + 4 * p, t, r + 0x800_0000 * e);
    BitTold(f, ATTR_EXTENDED, s + 2 * u + 4 * p + 8 * t + 16 * r, e, 0);
  }

  ghost function Pairs(pairs: seq<(Bytes, Bytes)>): Bytes
    requires PairsFit(pairs)
  {
    if pairs == [] then [] else Str(pairs[0].0) + (Str(pairs[0].1) + Pairs(pairs[1..]))
  }

  ghost function SizePart(a: Attributes): Bytes {
    if a.size.Some? then U64Be(a.size.value) else []
  }

  ghost function OwnerPart(a: Attributes): Bytes {
    if a.owner.Some? then U32Be(a.owner.value.0) + U32Be(a.owner.value.1) else []
  }

  ghost function PermissionsPart(a: Attributes): Bytes {
    if a.permissions.Some? then U32Be(a.permissions.value) else []
  }

  ghost function TimesPart(a: Attributes): Bytes {
    if a.times.Some? then U32Be(a.times.value.0) + U32Be(a.times.value.1) else []
  }

  ghost function ExtendedPart(a: Attributes): Bytes
    requires WellFormed(a)
  {
    if a.extended.Some? then U32Be(|a.extended.value|) + Pairs(a.extended.value) else []
  }

  ghost function Encoded(a: Attributes): Bytes
    requires WellFormed(a)
  {
    U32Be(Flags(a)) + (SizePart(a) + (OwnerPart(a) + (PermissionsPart(a) + (TimesPart(a) + ExtendedPart(a)))))
  }

  /** The stamp the attributes give: where both size and times are there. */
  ghost function StampIn(a: Attributes): Option<Stamp> {
    if a.size.Some? && a.times.Some? then Some(Stamp(a.size.value, a.times.value.1)) else None
  }

  function TakeSize(flags: U32, c: Bytes): Parsed<Option<U64>> {
    if Has(flags, ATTR_SIZE) then
      var (length, rest) :- TakeU64(c);
      Got(Some(length), rest)
    else Got(None, c)
  }

  function TakeOwner(flags: U32, c: Bytes): Parsed<bool> {
    if Has(flags, ATTR_UIDGID) then
      var (_, rest) :- TakeU32(c);
      var (_, rest) :- TakeU32(rest);
      Got(true, rest)
    else Got(false, c)
  }

  function TakePermissions(flags: U32, c: Bytes): Parsed<bool> {
    if Has(flags, ATTR_PERMISSIONS) then
      var (_, rest) :- TakeU32(c);
      Got(true, rest)
    else Got(false, c)
  }

  function TakeTimes(flags: U32, c: Bytes): Parsed<Option<U32>> {
    if Has(flags, ATTR_ACMODTIME) then
      var (_, rest) :- TakeU32(c);
      var (modified, rest) :- TakeU32(rest);
      Got(Some(modified), rest)
    else Got(None, c)
  }

  /** Past `n` extended pairs. */
  function SkipPairs(n: nat, c: Bytes): Parsed<bool>
    decreases n
  {
    if n == 0 then Got(true, c)
    else
      var (_, rest) :- TakeStr(c);
      var (_, rest) :- TakeStr(rest);
      SkipPairs(n - 1, rest)
  }

  function TakeExtended(flags: U32, c: Bytes): Parsed<bool> {
    if Has(flags, ATTR_EXTENDED) then
      var (count, rest) :- TakeU32(c);
      SkipPairs(count, rest)
    else Got(false, c)
  }

  /** The stamp at the front of `c`, every other attribute read past. */
  function TakeStamp(c: Bytes): Parsed<Option<Stamp>> {
    var (flags, rest) :- TakeU32(c);
    var (length, rest) :- TakeSize(flags, rest);
    var (_, rest) :- TakeOwner(flags, rest);
    var (_, rest) :- TakePermissions(flags, rest);
    var (modified, rest) :- TakeTimes(flags, rest);
    var (_, rest) :- TakeExtended(flags, rest);
    Got(if length.Some? && modified.Some? then Some(Stamp(length.value, modified.value)) else None, rest)
  }

  lemma {:induction false} SkipPairsBack(pairs: seq<(Bytes, Bytes)>, rest: Bytes)
    requires PairsFit(pairs)
    ensures SkipPairs(|pairs|, Pairs(pairs) + rest) == Got(true, rest)
  {
    hide Str, TakeStr;
    if pairs == [] {
      assert Pairs(pairs) + rest == rest;
    } else {
      var (key, value) := pairs[0];
      var more := Pairs(pairs[1..]) + rest;
      assert Pairs(pairs) + rest == Str(key) + (Str(value) + more);
      TakeStrBack(key, Str(value) + more);
      TakeStrBack(value, more);
      SkipPairsBack(pairs[1..], rest);
    }
  }

  lemma SizeBack(a: Attributes, rest: Bytes)
    requires WellFormed(a)
    ensures TakeSize(Flags(a), SizePart(a) + rest) == Got(a.size, rest)
  {
    FlagsTell(a);
    if a.size.Some? {
      TakeU64Back(a.size.value, rest);
    } else {
      assert SizePart(a) + rest == rest;
    }
  }

  lemma OwnerBack(a: Attributes, rest: Bytes)
    requires WellFormed(a)
    ensures TakeOwner(Flags(a), OwnerPart(a) + rest) == Got(a.owner.Some?, rest)
  {
    FlagsTell(a);
    if a.owner.Some? {
      var (u, g) := a.owner.value;
      assert OwnerPart(a) + rest == U32Be(u) + (U32Be(g) + rest);
      TakeU32Back(u, U32Be(g) + rest);
      TakeU32Back(g, rest);
    } else {
      assert OwnerPart(a) + rest == rest;
    }
  }

  lemma PermissionsBack(a: Attributes, rest: Bytes)
    requires WellFormed(a)
    ensures TakePermissions(Flags(a), PermissionsPart(a) + rest) == Got(a.permissions.Some?, rest)
  {
    FlagsTell(a);
    if a.permissions.Some? {
      TakeU32Back(a.permissions.value, rest);
    } else {
      assert PermissionsPart(a) + rest == rest;
    }
  }

  lemma TimesBack(a: Attributes, rest: Bytes)
    requires WellFormed(a)
    ensures TakeTimes(Flags(a), TimesPart(a) + rest)
         == Got(if a.times.Some? then Some(a.times.value.1) else None, rest)
  {
    FlagsTell(a);
    if a.times.Some? {
      var (accessed, modified) := a.times.value;
      assert TimesPart(a) + rest == U32Be(accessed) + (U32Be(modified) + rest);
      TakeU32Back(accessed, U32Be(modified) + rest);
      TakeU32Back(modified, rest);
    } else {
      assert TimesPart(a) + rest == rest;
    }
  }

  lemma ExtendedBack(a: Attributes, rest: Bytes)
    requires WellFormed(a)
    ensures TakeExtended(Flags(a), ExtendedPart(a) + rest) == Got(a.extended.Some?, rest)
  {
    FlagsTell(a);
    if a.extended.Some? {
      var pairs := a.extended.value;
      assert ExtendedPart(a) + rest == U32Be(|pairs|) + (Pairs(pairs) + rest);
      TakeU32Back(|pairs|, Pairs(pairs) + rest);
      SkipPairsBack(pairs, rest);
    } else {
      assert ExtendedPart(a) + rest == rest;
    }
  }

  /** Reading attributes takes exactly their bytes and gives a stamp exactly
      where both size and times are there, whatever else they carry. */
  lemma StampBack(a: Attributes, rest: Bytes)
    requires WellFormed(a)
    ensures TakeStamp(Encoded(a) + rest) == Got(StampIn(a), rest)
  {
    hide U32Be, TakeU32, Flags, SizePart, OwnerPart, PermissionsPart, TimesPart, ExtendedPart;
    hide TakeSize, TakeOwner, TakePermissions, TakeTimes, TakeExtended;
    var r5 := ExtendedPart(a) + rest;
    var r4 := TimesPart(a) + r5;
    var r3 := PermissionsPart(a) + r4;
    var r2 := OwnerPart(a) + r3;
    var r1 := SizePart(a) + r2;
    assert Encoded(a) + rest == U32Be(Flags(a)) + r1;
    TakeU32Back(Flags(a), r1);
    SizeBack(a, r2);
    OwnerBack(a, r3);
    PermissionsBack(a, r4);
    TimesBack(a, r5);
    ExtendedBack(a, rest);
  }

  // ------------------------------------------------- nothing else is attributes

  function Bit(flags: U32, bit: U32): nat
    requires bit > 0
  {
    if Has(flags, bit) then 1 else 0
  }

  /** Flags are their defined bits and the rest. */
  lemma FlagsApart(flags: U32) returns (reserved: nat)
    ensures reserved < 0x800_0000
    ensures flags == Bit(flags, ATTR_SIZE) + 2 * Bit(flags, ATTR_UIDGID) + 4 * Bit(flags, ATTR_PERMISSIONS)
                     + 8 * Bit(flags, ATTR_ACMODTIME) + 16 * reserved + 0x8000_0000 * Bit(flags, ATTR_EXTENDED)
  {
    reserved := flags / 16 % 0x800_0000;
    var f1, f2, f4, f8, f16 := flags, flags / 2, flags / 4, flags / 8, flags / 16;
    assert f1 == 2 * f2 + f1 % 2 && f2 == 2 * f4 + f2 % 2 && f4 == 2 * f8 + f4 % 2 && f8 == 2 * f16 + f8 % 2;
    assert f16 == 0x800_0000 * (flags / 0x8000_0000) + reserved;
    assert flags / 0x8000_0000 % 2 == flags / 0x8000_0000;
  }

  lemma {:induction false} TookPairs(n: nat, c: Bytes) returns (pairs: seq<(Bytes, Bytes)>)
    requires SkipPairs(n, c).Got?
    ensures |pairs| == n && PairsFit(pairs) && c == Pairs(pairs) + SkipPairs(n, c).rest
    decreases n
  {
    hide Str, TakeStr;
    if n == 0 {
      pairs := [];
      assert Pairs(pairs) + c == c;
    } else {
      var key := TakeStr(c);
      var value := TakeStr(key.rest);
      TookStr(c);
      TookStr(key.rest);
      var others := TookPairs(n - 1, value.rest);
      pairs := [(key.value, value.value)] + others;
      assert pairs[1..] == others;
      var rest := SkipPairs(n, c).rest;
      assert Pairs(pairs) + rest == Str(key.value) + (Str(value.value) + (Pairs(others) + rest));
    }
  }

  lemma TookExtended(flags: U32, c: Bytes) returns (extended: Option<seq<(Bytes, Bytes)>>)
    requires TakeExtended(flags, c).Got?
    ensures extended.Some? == Has(flags, ATTR_EXTENDED)
    ensures extended.Some? ==> |extended.value| <= U32_MAX && PairsFit(extended.value)
    ensures c == (if extended.Some? then U32Be(|extended.value|) + Pairs(extended.value) else [])
                 + TakeExtended(flags, c).rest
  {
    hide U32Be, Has, TakeU32;
    if Has(flags, ATTR_EXTENDED) {
      TookU32(c);
      var pairs := TookPairs(TakeU32(c).value, TakeU32(c).rest);
      extended := Some(pairs);
      var rest := TakeExtended(flags, c).rest;
      assert U32Be(|pairs|) + Pairs(pairs) + rest == U32Be(|pairs|) + (Pairs(pairs) + rest);
    } else {
      extended := None;
    }
  }

  lemma TookPlain(flags: U32, c: Bytes) returns (a: Attributes)
    requires TakeSize(flags, c).Got? && TakeOwner(flags, TakeSize(flags, c).rest).Got?
    requires TakePermissions(flags, TakeOwner(flags, TakeSize(flags, c).rest).rest).Got?
    ensures a.size == TakeSize(flags, c).value && a.size.Some? == Has(flags, ATTR_SIZE)
    ensures a.owner.Some? == Has(flags, ATTR_UIDGID) && a.permissions.Some? == Has(flags, ATTR_PERMISSIONS)
    ensures c == SizePart(a) + (OwnerPart(a) + (PermissionsPart(a)
                 + TakePermissions(flags, TakeOwner(flags, TakeSize(flags, c).rest).rest).rest))
  {
    hide U32Be, U64Be, Has, TakeU32, TakeU64;
    var c1 := TakeSize(flags, c).rest;
    var c2 := TakeOwner(flags, c1).rest;
    var c3 := TakePermissions(flags, c2).rest;
    TookU64(c);
    TookU32(c1);
    TookU32(c2);
    var u := TakeU32(c1);
    var owner := None;
    if Has(flags, ATTR_UIDGID) {
      TookU32(u.rest);
      owner := Some((u.value, TakeU32(u.rest).value));
    }
    a := Attributes(TakeSize(flags, c).value, owner,
                    if Has(flags, ATTR_PERMISSIONS) then Some(TakeU32(c2).value) else None, None, None, 0);
    assert c2 == PermissionsPart(a) + c3;
    assert c1 == OwnerPart(a) + c2;
    assert c == SizePart(a) + c1;
  }

  lemma TookTimes(flags: U32, c: Bytes) returns (times: Option<(U32, U32)>)
    requires TakeTimes(flags, c).Got?
    ensures times.Some? == Has(flags, ATTR_ACMODTIME)
    ensures TakeTimes(flags, c).value == if times.Some? then Some(times.value.1) else None
    ensures c == (if times.Some? then U32Be(times.value.0) + U32Be(times.value.1) else []) + TakeTimes(flags, c).rest
  {
    hide U32Be, Has, TakeU32;
    times := None;
    if Has(flags, ATTR_ACMODTIME) {
      TookU32(c);
      var accessed := TakeU32(c);
      TookU32(accessed.rest);
      var modified := TakeU32(accessed.rest);
      times := Some((accessed.value, modified.value));
      assert c == U32Be(accessed.value) + U32Be(modified.value) + modified.rest;
    }
  }

  /** Whatever is read as attributes is some attributes' encoding, and the
      stamp is theirs. */
  lemma StampOnly(c: Bytes) returns (a: Attributes)
    requires TakeStamp(c).Got?
    ensures WellFormed(a) && TakeStamp(c).value == StampIn(a) && c == Encoded(a) + TakeStamp(c).rest
  {
    hide U32Be, U64Be, TakeU32, Has, TakeSize, TakeOwner, TakePermissions, TakeTimes, TakeExtended, Pairs;
    TookU32(c);
    var flags, c0 := TakeU32(c).value, TakeU32(c).rest;
    var c3 := TakePermissions(flags, TakeOwner(flags, TakeSize(flags, c0).rest).rest).rest;
    var c4 := TakeTimes(flags, c3).rest;
    var plain := TookPlain(flags, c0);
    var times := TookTimes(flags, c3);
    var extended := TookExtended(flags, c4);
    var reserved := FlagsApart(flags);
    a := plain.(times := times, extended := extended, reserved := reserved);
    assert Flags(a) == flags;
    assert SizePart(a) == SizePart(plain) && OwnerPart(a) == OwnerPart(plain);
    assert PermissionsPart(a) == PermissionsPart(plain);
    var rest := TakeStamp(c).rest;
    Nested(U32Be(flags), SizePart(a), OwnerPart(a), PermissionsPart(a), TimesPart(a), ExtendedPart(a), rest);
  }

  lemma Nested(a: Bytes, b: Bytes, c: Bytes, d: Bytes, e: Bytes, f: Bytes, rest: Bytes)
    ensures (a + (b + (c + (d + (e + f))))) + rest == a + (b + (c + (d + (e + (f + rest)))))
  {
  }

  // ---------------------------------------------------------------- listings

  /** One entry of a NAME body: its name, its long name, its attributes. */
  datatype Entry = Entry(name: Name, long: Bytes, attributes: Attributes)

  ghost predicate EntryFits(e: Entry) {
    && |e.name| <= U32_MAX && Utf8(e.name)
    && |e.long| <= U32_MAX
    && WellFormed(e.attributes)
  }

  ghost function EncodedEntries(es: seq<Entry>): Bytes
    requires forall e :: e in es ==> EntryFits(e)
  {
    if es == [] then []
    else
      assert EntryFits(es[0]);
      Str(es[0].name) + (Str(es[0].long) + (Encoded(es[0].attributes) + EncodedEntries(es[1..])))
  }

  ghost function ListedOf(es: seq<Entry>): seq<Listed> {
    seq(|es|, i requires 0 <= i < |es| => Listed(es[i].name, StampIn(es[i].attributes)))
  }

  /** One entry read off the front of `c`. */
  function TakeEntry(c: Bytes): Parsed<Listed> {
    var (name, rest) :- TakeText(c);
    var (_, rest) :- TakeStr(rest);
    var (stamp, rest) :- TakeStamp(rest);
    Got(Listed(name, stamp), rest)
  }

  function TakeEntries(n: nat, c: Bytes): Parsed<seq<Listed>>
    decreases n
  {
    if n == 0 then Got([], c)
    else
      var (first, rest) :- TakeEntry(c);
      var (others, rest) :- TakeEntries(n - 1, rest);
      Got([first] + others, rest)
  }

  /** The names a NAME body carries. */
  function Entries(body: Bytes): Parsed<seq<Listed>> {
    var (_, rest) :- TakeU32(body);
    var (count, rest) :- TakeU32(rest);
    TakeEntries(count, rest)
  }

  lemma {:induction false} TakeEntriesBack(es: seq<Entry>, rest: Bytes)
    requires forall e :: e in es ==> EntryFits(e)
    ensures TakeEntries(|es|, EncodedEntries(es) + rest) == Got(ListedOf(es), rest)
  {
    hide Str, TakeStr, TakeText, TakeStamp, Encoded, StampIn, Utf8;
    if es == [] {
      assert EncodedEntries(es) + rest == rest;
    } else {
      var e := es[0];
      assert e in es;
      var more := EncodedEntries(es[1..]) + rest;
      assert EncodedEntries(es) + rest == Str(e.name) + (Str(e.long) + (Encoded(e.attributes) + more));
      TakeTextBack(e.name, Str(e.long) + (Encoded(e.attributes) + more));
      TakeStrBack(e.long, Encoded(e.attributes) + more);
      StampBack(e.attributes, more);
      TakeEntriesBack(es[1..], rest);
      assert ListedOf(es) == [Listed(e.name, StampIn(e.attributes))] + ListedOf(es[1..]);
    }
  }

  /** Every listing, with whatever attributes section 5 allows, reads back as
      its names in order, a stamp exactly where size and times are given. */
  lemma EntriesBack(id: U32, es: seq<Entry>, rest: Bytes)
    requires |es| <= U32_MAX
    requires forall e :: e in es ==> EntryFits(e)
    ensures Entries(U32Be(id) + (U32Be(|es|) + (EncodedEntries(es) + rest))) == Got(ListedOf(es), rest)
  {
    TakeU32Back(id, U32Be(|es|) + (EncodedEntries(es) + rest));
    TakeU32Back(|es|, EncodedEntries(es) + rest);
    TakeEntriesBack(es, rest);
  }

  /** And nothing else is read as a listing: whatever is, is the encoding of
      entries with those names and, where both parts are there, those stamps. */
  lemma {:induction false} EntriesOnly(n: nat, c: Bytes) returns (es: seq<Entry>)
    ensures forall e :: e in es ==> EntryFits(e)
    ensures TakeEntries(n, c).Got? ==>
              && |es| == n && TakeEntries(n, c).value == ListedOf(es)
              && c == EncodedEntries(es) + TakeEntries(n, c).rest
    decreases n
  {
    hide Str, TakeStr, TakeStamp, Encoded, StampIn, Utf8;
    if TakeEntries(n, c).Short? {
      es := [];
    } else if n == 0 {
      es := [];
      assert EncodedEntries(es) + c == c;
    } else {
      var name := TakeStr(c);
      var long := TakeStr(name.rest);
      TookStr(c);
      TookStr(name.rest);
      var attributes := StampOnly(long.rest);
      var more := TakeStamp(long.rest).rest;
      var others := EntriesOnly(n - 1, more);
      var e := Entry(name.value, long.value, attributes);
      es := [e] + others;
      assert es[1..] == others && ListedOf(es) == [Listed(e.name, StampIn(e.attributes))] + ListedOf(others);
      var rest := TakeEntries(n, c).rest;
      assert EncodedEntries(es) + rest ==
             Str(e.name) + (Str(e.long) + (Encoded(e.attributes) + (EncodedEntries(others) + rest)));
    }
  }

  /** `entries`, its cursor advanced entry by entry. */
  method ParseEntries(body: Bytes) returns (r: Result<seq<Listed>>)
    ensures r == if Entries(body).Got? then Ok(Entries(body).value) else Err
  {
    hide TakeU32, TakeEntry;
    var id := TakeU32(body);
    if id.Short? {
      return Err;
    }
    var count := TakeU32(id.rest);
    if count.Short? {
      return Err;
    }
    var names: seq<Listed>, rest := [], count.rest;
    for done := 0 to count.value
      invariant Entries(body).Got? <==> TakeEntries(count.value - done, rest).Got?
      invariant Entries(body).Got? ==> Entries(body).value == names + TakeEntries(count.value - done, rest).value
    {
      var entry := TakeEntry(rest);
      if entry.Short? {
        return Err;
      }
      names, rest := names + [entry.value], entry.rest;
    }
    assert names + [] == names;
    r := Ok(names);
  }

  // ----------------------------------------------------------------- replies

  function ReplyKind(p: Reply): Byte {
    match p
    case Version => VERSION
    case Handed(_, _) => HANDLE
    case Data(_, _) => DATA
    case Names(_, _) => NAME
    case Attrs(_, _) => ATTRS
    case Status(_, _) => STATUS
  }

  function StampBytes(s: Stamp): Bytes {
    U32Be(ATTR_SIZE + ATTR_ACMODTIME) + (U64Be(s.length) + (U32Be(s.modified) + U32Be(s.modified)))
  }

  function NamesBytes(names: seq<(Name, Stamp)>): Bytes
    requires forall n :: n in names ==> |n.0| <= U32_MAX
  {
    if names == [] then []
    else
      assert names[0] in names;
      Str(names[0].0) + (Str(names[0].0) + (StampBytes(names[0].1) + NamesBytes(names[1..])))
  }

  /** The reply fits a packet a 32-bit length can tell. */
  predicate Sendable(p: Reply) {
    match p
    case Handed(_, handle) => |handle| + 8 < U32_MAX
    case Data(_, data) => |data| + 8 < U32_MAX
    case Names(_, names) =>
      && |names| <= U32_MAX
      && (forall n :: n in names ==> |n.0| <= U32_MAX)
      && |NamesBytes(names)| + 8 < U32_MAX
    case _ => true
  }

  /** The body of a status, with whatever text says why. */
  function StatusBody(id: U32, code: U32, text: Bytes): Bytes
    requires |text| <= U32_MAX
  {
    U32Be(id) + (U32Be(code) + (Str(text) + Str([])))
  }

  /** The body the far end writes; the text of a status is left empty. */
  function ReplyBody(p: Reply): Bytes
    requires Sendable(p)
  {
    match p
    case Version => U32Be(PROTOCOL)
    case Handed(id, handle) => U32Be(id) + Str(handle)
    case Data(id, data) => U32Be(id) + Str(data)
    case Names(id, names) => U32Be(id) + (U32Be(|names|) + NamesBytes(names))
    case Attrs(id, stamp) => U32Be(id) + StampBytes(stamp)
    case Status(id, code) => StatusBody(id, code, [])
  }

  /** The status code a STATUS body carries. */
  function Code(body: Bytes): Parsed<U32> {
    var (_, rest) :- TakeU32(body);
    TakeU32(rest)
  }

  /** The string a HANDLE or DATA body carries behind its id. */
  function Carried(body: Bytes): Parsed<Bytes> {
    var (_, rest) :- TakeU32(body);
    TakeStr(rest)
  }

  /** The stamp an ATTRS body carries. */
  function StampOf(body: Bytes): Parsed<Option<Stamp>> {
    var (_, rest) :- TakeU32(body);
    TakeStamp(rest)
  }

  /** The attributes the far end writes: a size and the two times. */
  ghost function FarAttributes(s: Stamp): Attributes {
    Attributes(Some(s.length), None, None, Some((s.modified, s.modified)), None, 0)
  }

  lemma FarStamp(s: Stamp)
    ensures StampBytes(s) == Encoded(FarAttributes(s)) && StampIn(FarAttributes(s)) == Some(s)
  {
  }

  ghost function FarEntries(names: seq<(Name, Stamp)>): seq<Entry> {
    seq(|names|, i requires 0 <= i < |names| => Entry(names[i].0, names[i].0, FarAttributes(names[i].1)))
  }

  lemma {:induction false} FarListing(names: seq<(Name, Stamp)>)
    requires forall n :: n in names ==> |n.0| <= U32_MAX && Utf8(n.0)
    ensures forall e :: e in FarEntries(names) ==> EntryFits(e)
    ensures NamesBytes(names) == EncodedEntries(FarEntries(names))
  {
    hide Str, StampBytes, Encoded, StampIn, Utf8, U32Be;
    var es := FarEntries(names);
    forall e | e in es ensures EntryFits(e) {
      var i :| 0 <= i < |es| && es[i] == e;
      assert names[i] in names;
      assert WellFormed(FarAttributes(names[i].1));
    }
    if names != [] {
      FarListing(names[1..]);
      FarStamp(names[0].1);
      assert es[1..] == FarEntries(names[1..]);
    }
  }

  /** What a client takes a listing as. */
  function AsListed(names: seq<(Name, Stamp)>): seq<Listed> {
    seq(|names|, i requires 0 <= i < |names| => Listed(names[i].0, Some(names[i].1)))
  }

  /** What the client reads off each reply is what the far end put there, and
      every reply but VERSION opens with the id it answers. */
  lemma ReplyBack(p: Reply)
    requires Sendable(p)
    ensures |ReplyBody(p)| < U32_MAX
    ensures !p.Version? ==> TakeU32(ReplyBody(p)).Got? && TakeU32(ReplyBody(p)).value == p.id
    ensures p.Version? ==> TakeU32(ReplyBody(p)).Got? && TakeU32(ReplyBody(p)).value == PROTOCOL
    ensures p.Handed? ==> Carried(ReplyBody(p)).Got? && Carried(ReplyBody(p)).value == p.handle
    ensures p.Data? ==> Carried(ReplyBody(p)).Got? && Carried(ReplyBody(p)).value == p.data
    ensures p.Status? ==> Code(ReplyBody(p)).Got? && Code(ReplyBody(p)).value == p.code
    ensures p.Attrs? ==> StampOf(ReplyBody(p)).Got? && StampOf(ReplyBody(p)).value == Some(p.stamp)
  {
    match p
    case Version =>
      assert U32Be(PROTOCOL) + [] == U32Be(PROTOCOL);
      TakeU32Back(PROTOCOL, []);
    case Handed(id, handle) =>
      TakeU32Back(id, Str(handle));
      assert Str(handle) + [] == Str(handle);
      TakeStrBack(handle, []);
    case Data(id, data) =>
      TakeU32Back(id, Str(data));
      assert Str(data) + [] == Str(data);
      TakeStrBack(data, []);
    case Names(id, names) =>
      TakeU32Back(id, U32Be(|names|) + NamesBytes(names));
    case Attrs(id, stamp) =>
      TakeU32Back(id, StampBytes(stamp));
      FarStamp(stamp);
      StampBack(FarAttributes(stamp), []);
      assert StampBytes(stamp) + [] == StampBytes(stamp);
    case Status(id, code) =>
      StatusBack(id, code, []);
  }

  /** Whatever its text, a status is read as its id and its code, and the text
      is there behind them. */
  lemma StatusBack(id: U32, code: U32, text: Bytes)
    requires |text| <= U32_MAX
    ensures var body := StatusBody(id, code, text);
            && TakeU32(body).Got? && TakeU32(body).value == id
            && Code(body).Got? && Code(body).value == code
            && TakeStr(Code(body).rest) == Got(text, Str([]))
  {
    hide Str, TakeStr;
    TakeU32Back(id, U32Be(code) + (Str(text) + Str([])));
    TakeU32Back(code, Str(text) + Str([]));
    TakeStrBack(text, Str([]));
  }

  /** A listing the far end sends is read as its names in order, each with
      its length and its time. */
  lemma NamesBack(p: Reply)
    requires p.Names? && Sendable(p)
    requires forall n :: n in p.names ==> Utf8(n.0)
    ensures Entries(ReplyBody(p)) == Got(AsListed(p.names), [])
  {
    hide Entries, NamesBytes, EncodedEntries, U32Be, StampIn, Encoded, Utf8, EntryFits;
    ListedSame(p.names);
    var es := FarEntries(p.names);
    FarListing(p.names);
    EntriesBack(p.id, es, []);
    assert NamesBytes(p.names) + [] == NamesBytes(p.names);
  }

  lemma ListedSame(names: seq<(Name, Stamp)>)
    ensures ListedOf(FarEntries(names)) == AsListed(names) && |FarEntries(names)| == |names|
  {
    hide Encoded;
  }

  // ------------------------------------------------------------ bytes as laid out

  lemma SmallNumber(n: Byte)
    ensures U32Be(n) == [0, 0, 0, n] && U64Be(n) == [0, 0, 0, 0, 0, 0, 0, n]
  {
  }

  /** Numbers go highest byte first. */
  lemma HighestFirst()
    ensures U32Be(0x0102_0304) == [1, 2, 3, 4] && U64Be(0x0102_0304_0506_0708) == [1, 2, 3, 4, 5, 6, 7, 8]
    ensures U32Be(CHUNK) == [0, 0, 0x80, 0] && U32Be(0x8000_000F) == [0x80, 0, 0, 15]
  {
  }

  lemma OneByte(b: Byte)
    ensures Str([b]) == [0, 0, 0, 1, b]
  {
    SmallNumber(1);
  }

  lemma SmallFrame(kind: Byte, body: Bytes)
    requires |body| < 255
    ensures Frame(kind, body) == [0, 0, 0, |body| + 1, kind] + body
  {
    SmallNumber(|body| + 1);
  }

  /** The requests, byte for byte, as the draft lays them out in sections 4 and
      6: opening with the length and the type, then the id, then the fields. */
  lemma InitBytes()
    ensures Frame(KindOf(Init), BodyOf(Init)) == [0, 0, 0, 5, 1, 0, 0, 0, 3]
  {
    SmallNumber(3);
    SmallFrame(1, U32Be(3));
  }

  lemma OpenBytes(name: Byte)
    ensures var q := Request.Open(0x0102_0304, [name], F_READ + F_WRITE + F_CREAT + F_TRUNC + F_EXCL);
            Frame(KindOf(q), BodyOf(q)) ==
            [0, 0, 0, 18, 3, 1, 2, 3, 4, 0, 0, 0, 1, name, 0, 0, 0, 0x3B, 0, 0, 0, 0]
  {
    hide U32Be, Str, Frame;
    HighestFirst();
    OneByte(name);
    SmallNumber(0x3B);
    SmallNumber(0);
    var body := [1, 2, 3, 4] + ([0, 0, 0, 1, name] + ([0, 0, 0, 0x3B] + [0, 0, 0, 0]));
    SmallFrame(3, body);
  }

  lemma WriteBytes(handle: Byte, data: Byte)
    ensures var q := Request.Write(1, [handle], 0x0102_0304_0506_0708, [data]);
            Frame(KindOf(q), BodyOf(q)) ==
            [0, 0, 0, 23, 6, 0, 0, 0, 1, 0, 0, 0, 1, handle, 1, 2, 3, 4, 5, 6, 7, 8, 0, 0, 0, 1, data]
  {
    hide U32Be, U64Be, Str, Frame;
    HighestFirst();
    OneByte(handle);
    OneByte(data);
    SmallNumber(1);
    var body := [0, 0, 0, 1] + ([0, 0, 0, 1, handle] + ([1, 2, 3, 4, 5, 6, 7, 8] + [0, 0, 0, 1, data]));
    SmallFrame(6, body);
  }

  lemma ReadBytes(handle: Byte)
    ensures var q := Request.Read(1, [handle], 2, CHUNK);
            Frame(KindOf(q), BodyOf(q)) ==
            [0, 0, 0, 22, 5, 0, 0, 0, 1, 0, 0, 0, 1, handle, 0, 0, 0, 0, 0, 0, 0, 2, 0, 0, 0x80, 0]
  {
    hide U32Be, U64Be, Str, Frame;
    HighestFirst();
    OneByte(handle);
    SmallNumber(1);
    SmallNumber(2);
    var body := [0, 0, 0, 1] + ([0, 0, 0, 1, handle] + ([0, 0, 0, 0, 0, 0, 0, 2] + [0, 0, 0x80, 0]));
    SmallFrame(5, body);
  }

  lemma RenameBytes(from: Byte, to: Byte)
    ensures var q := Request.Rename(1, [from], [to]);
            Frame(KindOf(q), BodyOf(q)) == [0, 0, 0, 15, 18, 0, 0, 0, 1, 0, 0, 0, 1, from, 0, 0, 0, 1, to]
  {
    hide U32Be, Str, Frame;
    OneByte(from);
    OneByte(to);
    SmallNumber(1);
    SmallFrame(18, [0, 0, 0, 1] + ([0, 0, 0, 1, from] + [0, 0, 0, 1, to]));
  }

  /** Those of one string differ by their type alone. */
  lemma NameBytes(name: Byte)
    ensures forall q: Request ::
              q in {Request.ReadDir(1, [name]), Request.Close(1, [name]), Request.Remove(1, [name]),
                    Request.Stat(1, [name])} ==>
                Writable(q) && Frame(KindOf(q), BodyOf(q)) == [0, 0, 0, 10, KindOf(q), 0, 0, 0, 1, 0, 0, 0, 1, name]
    ensures Frame(KindOf(OpenDir(1)), BodyOf(OpenDir(1))) == [0, 0, 0, 10, 11, 0, 0, 0, 1, 0, 0, 0, 1, 46]
    ensures KindOf(Request.ReadDir(1, [name])) == 12 && KindOf(Request.Close(1, [name])) == 4
    ensures KindOf(Request.Remove(1, [name])) == 13 && KindOf(Request.Stat(1, [name])) == 17
  {
    hide U32Be, Str, Frame;
    OneByte(name);
    OneByte(46);
    SmallNumber(1);
    SmallFrame(11, [0, 0, 0, 1] + [0, 0, 0, 1, 46]);
    forall kind: Byte ensures Frame(kind, [0, 0, 0, 1] + [0, 0, 0, 1, name]) ==
                              [0, 0, 0, 10, kind, 0, 0, 0, 1, 0, 0, 0, 1, name] {
      SmallFrame(kind, [0, 0, 0, 1] + [0, 0, 0, 1, name]);
    }
  }

  /** The replies, byte for byte. */
  lemma StatusBytes(text: Byte)
    ensures forall code :: code in {OK, EOF, NO_SUCH_FILE, FAILURE} ==>
              StatusBody(1, code, [text]) == [0, 0, 0, 1, 0, 0, 0, code, 0, 0, 0, 1, text, 0, 0, 0, 0]
    ensures OK == 0 && EOF == 1 && NO_SUCH_FILE == 2 && FAILURE == 4 && ReplyKind(Status(1, OK)) == 101
  {
    hide U32Be;
    OneByte(text);
    SmallNumber(0);
    SmallNumber(1);
    SmallNumber(2);
    SmallNumber(4);
  }

  lemma ReplyBytes(b: Byte)
    ensures ReplyKind(Version) == 2 && ReplyBody(Version) == [0, 0, 0, 3]
    ensures var p := Handed(1, [b]); ReplyKind(p) == 102 && ReplyBody(p) == [0, 0, 0, 1, 0, 0, 0, 1, b]
    ensures var p := Data(1, [b]); ReplyKind(p) == 103 && ReplyBody(p) == [0, 0, 0, 1, 0, 0, 0, 1, b]
  {
    hide U32Be, Str;
    OneByte(b);
    SmallNumber(1);
    SmallNumber(3);
  }

  /** A stamp goes as its flags, the length, and the time, once for the last
      access and once for the last change. */
  lemma StampLaid(time: Byte)
    ensures StampBytes(Stamp(0x0102_0304_0506_0708, time)) ==
            [0, 0, 0, 9, 1, 2, 3, 4, 5, 6, 7, 8, 0, 0, 0, time, 0, 0, 0, time]
  {
    hide U32Be, U64Be;
    HighestFirst();
    SmallNumber(9);
    SmallNumber(time);
  }

  lemma ListingBytes(name: Byte, time: Byte)
    ensures var stamp := Stamp(0x0102_0304_0506_0708, time);
            && ReplyKind(Attrs(1, stamp)) == 105 && ReplyBody(Attrs(1, stamp)) == [0, 0, 0, 1] + StampBytes(stamp)
            && var p := Names(1, [([name], stamp)]);
               && ReplyKind(p) == 104 && Sendable(p)
               && ReplyBody(p) == [0, 0, 0, 1, 0, 0, 0, 1, 0, 0, 0, 1, name, 0, 0, 0, 1, name] + StampBytes(stamp)
  {
    StampLaid(time);
    hide U32Be, Str, StampBytes;
    var stamp := Stamp(0x0102_0304_0506_0708, time);
    var names := [([name], stamp)];
    OneByte(name);
    SmallNumber(1);
    assert names[1..] == [];
    assert NamesBytes(names) == [0, 0, 0, 1, name] + ([0, 0, 0, 1, name] + (StampBytes(stamp) + []));
  }

  /** Attributes with everything, byte for byte: the flags, then size, owner,
      permissions, times, and the extended pairs behind their count; the stamp
      is the size and the second time, of the last change. */
  lemma AttributesBytes(a: Byte, b: Byte, c: Byte, d: Byte, e: Byte, f: Byte)
    ensures var all := Attributes(Some(a), Some((b, c)), Some(d), Some((e, f)), Some([([120], [121])]), 0);
            && WellFormed(all) && StampIn(all) == Some(Stamp(a, f))
            && Encoded(all) ==
               [0x80, 0, 0, 15] + ([0, 0, 0, 0, 0, 0, 0, a] + ([0, 0, 0, b, 0, 0, 0, c] + ([0, 0, 0, d] +
               ([0, 0, 0, e, 0, 0, 0, f] + [0, 0, 0, 1, 0, 0, 0, 1, 120, 0, 0, 0, 1, 121]))))
  {
    hide U32Be, U64Be, Str, Has;
    HighestFirst();
    SmallNumber(a);
    SmallNumber(b);
    SmallNumber(c);
    SmallNumber(d);
    SmallNumber(e);
    SmallNumber(f);
    SmallNumber(1);
    OneByte(120);
    OneByte(121);
    var pairs: seq<(Bytes, Bytes)> := [([120], [121])];
    assert pairs[1..] == [];
    assert Pairs(pairs) == [0, 0, 0, 1, 120] + ([0, 0, 0, 1, 121] + []);
    var all := Attributes(Some(a), Some((b, c)), Some(d), Some((e, f)), Some(pairs), 0);
    assert U32Be(Flags(all)) == [0x80, 0, 0, 15];
    assert OwnerPart(all) == [0, 0, 0, b, 0, 0, 0, c] && TimesPart(all) == [0, 0, 0, e, 0, 0, 0, f];
    assert ExtendedPart(all) == [0, 0, 0, 1, 0, 0, 0, 1, 120, 0, 0, 0, 1, 121];
  }
}
