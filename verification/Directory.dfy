/** The far end: one directory held in memory, each request answered whole
    under its lock. The functions say what a request does to the directory
    and to the channel it came over; the classes do it in place. */
module Directories {
  import opened Wire
  import opened Packets

  /** The most bytes the far end holds of one file. Its value belongs to
      another library; that it lies below the widest address is all that
      writing relies on. */
  type Ceiling = n: int | 0 <= n < 0xFFFF_FFFF_FFFF_FFFF

  /** A handle the far end handed out. It holds the name it was opened
      under, not the file. */
  datatype Handle = Writing(name: Name) | Reading(name: Name) | Listing(read: bool)

  /** The directory: its files, when each was last written, the newest such
      time, and the names its owner was told of, where it asked to be told. */
  datatype Dir = Dir(
    files: map<Name, Bytes>,
    written: map<Name, U32>,
    newest: U32,
    telling: bool,
    told: seq<Name>,
    ceiling: Ceiling)

  /** One channel's handles, and the number of the next. */
  datatype Chan = Chan(handles: map<Name, Handle>, next: nat)

  /** What a request leaves behind, and its reply. */
  datatype Outcome = Outcome(dir: Dir, chan: Chan, reply: Reply)

  const FRESH_CHAN := Chan(map[], 0)

  /** A directory holding `files`, none of them written since. */
  function NewDir(files: map<Name, Bytes>, telling: bool, ceiling: Ceiling): Dir {
    Dir(files, map[], 0, telling, [], ceiling)
  }

  // ------------------------------------------------------------------- times

  function SaturatingAdd(a: nat, b: nat, most: nat): nat {
    Min(a + b, most)
  }

  /** `name` noted written: now, and after the write before it. */
  function Touched(d: Dir, name: Name, now: U32): Dir {
    var newest: U32 := Max(now, SaturatingAdd(d.newest, 1, U32_MAX));
    d.(newest := newest, written := d.written[name := newest])
  }

  /** When `name` was last written; 0 where it never was. */
  function Modified(d: Dir, name: Name): U32 {
    if name in d.written then d.written[name] else 0
  }

  function StampAt(d: Dir, name: Name): Stamp
    requires name in d.files
  {
    Stamp(Min(|d.files[name]|, U64_MAX), Modified(d, name))
  }

  /** Every file in order, with its stamp. */
  function NamesOf(d: Dir): seq<(Name, Stamp)> {
    var names := Sorted(d.files.Keys);
    seq(|names|, i requires 0 <= i < |names| =>
      assert names[i] in names; (names[i], StampAt(d, names[i])))
  }

  /** What a stamp says of a file: the length of its bytes, and the time it was
      last written, 0 where it never was. */
  predicate Stamps(stamp: Stamp, files: map<Name, Bytes>, written: map<Name, U32>, name: Name) {
    && name in files
    && stamp.length == Min(|files[name]|, U64_MAX)
    && (name in written ==> stamp.modified == written[name])
    && (name !in written ==> stamp.modified == 0)
  }

  /** Every file is listed once, in order, with its stamp, and nothing else. */
  ghost predicate Lists(names: seq<(Name, Stamp)>, files: map<Name, Bytes>, written: map<Name, U32>) {
    && |names| == |files|
    && (forall i :: 0 <= i < |names| ==> Stamps(names[i].1, files, written, names[i].0))
    && (forall n :: n in files ==> exists i :: 0 <= i < |names| && names[i].0 == n)
    && (forall i, j :: 0 <= i < j < |names| ==> Before(names[i].0, names[j].0))
  }

  /** A listing of a directory lists what it holds. */
  lemma NamesOfLists(d: Dir)
    ensures Lists(NamesOf(d), d.files, d.written)
  {
    var names, order := NamesOf(d), Sorted(d.files.Keys);
    assert |order| == |d.files|;
    forall n | n in d.files ensures exists i :: 0 <= i < |names| && names[i].0 == n {
      var i :| 0 <= i < |order| && order[i] == n;
      assert names[i].0 == n;
    }
    forall i | 0 <= i < |names| ensures Stamps(names[i].1, d.files, d.written, names[i].0) {
      assert order[i] in order;
    }
  }

  // ---------------------------------------------------------------- requests

  function OnOpen(d: Dir, c: Chan, id: U32, name: Name, flags: U32, now: U32): Outcome {
    var handle := HandleName(104, c.next);
    var taken := c.(next := c.next + 1);
    if Has(flags, F_WRITE) then
      if name in d.files && Has(flags, F_EXCL) then Outcome(d, taken, Status(id, FAILURE))
      else
        var files := if name !in d.files || Has(flags, F_TRUNC) then d.files[name := []] else d.files;
        Outcome(Touched(d.(files := files), name, now),
                taken.(handles := c.handles[handle := Writing(name)]), Handed(id, handle))
    else if name in d.files then
      Outcome(d, taken.(handles := c.handles[handle := Reading(name)]), Handed(id, handle))
    else Outcome(d, taken, Status(id, NO_SUCH_FILE))
  }

  /** `was` with `data` over it from `offset`: the bytes outside the range as
      they were, zeros where nothing was. */
  function Overlay(was: Bytes, offset: nat, data: Bytes): Bytes {
    seq(Max(|was|, offset + |data|), i requires 0 <= i < Max(|was|, offset + |data|) =>
      if offset <= i < offset + |data| then data[i - offset]
      else if i < |was| then was[i] else 0)
  }

  function BytesAt(d: Dir, name: Name): Bytes {
    if name in d.files then d.files[name] else []
  }

  /** Written over a file, the data is where it was to go, what was there
      outside its range is as it was, and between the end of a shorter file
      and the data there are zeros. */
  lemma OverlayMeans(was: Bytes, offset: nat, data: Bytes)
    ensures var now, end := Overlay(was, offset, data), offset + |data|;
            && |now| == Max(|was|, end)
            && now[offset..end] == data
            && now[..Min(offset, |was|)] == was[..Min(offset, |was|)]
            && (end <= |was| ==> now[end..] == was[end..])
            && forall i :: |was| <= i < offset ==> now[i] == 0
  {
  }

  function OnWrite(d: Dir, c: Chan, id: U32, handle: Name, offset: U64, data: Bytes, now: U32): Outcome {
    if !(handle in c.handles && c.handles[handle].Writing?) then Outcome(d, c, Status(id, FAILURE))
    else if offset + |data| > d.ceiling then Outcome(d, c, Status(id, FAILURE))
    else
      var name := c.handles[handle].name;
      var files := d.files[name := Overlay(BytesAt(d, name), offset, data)];
      Outcome(Touched(d.(files := files), name, now), c, Status(id, OK))
  }

  function OnRead(d: Dir, c: Chan, id: U32, handle: Name, offset: U64, want: U32): Outcome {
    if !(handle in c.handles && c.handles[handle].Reading?) then Outcome(d, c, Status(id, FAILURE))
    else
      var file := BytesAt(d, c.handles[handle].name);
      if offset >= |file| then Outcome(d, c, Status(id, EOF))
      else Outcome(d, c, Data(id, file[offset..Min(|file|, SaturatingAdd(offset, want, U64_MAX))]))
  }

  function OnReadDir(d: Dir, c: Chan, id: U32, handle: Name): Outcome {
    if !(handle in c.handles && c.handles[handle].Listing?) then Outcome(d, c, Status(id, FAILURE))
    else if c.handles[handle].read then Outcome(d, c, Status(id, EOF))
    else Outcome(d, c.(handles := c.handles[handle := Listing(true)]), Names(id, NamesOf(d)))
  }

  function OnRename(d: Dir, c: Chan, id: U32, from: Name, to: Name): Outcome {
    if to in d.files then Outcome(d, c, Status(id, FAILURE))
    else if from !in d.files then Outcome(d, c, Status(id, NO_SUCH_FILE))
    else
      var files := (d.files - {from})[to := d.files[from]];
      var written := if from in d.written then (d.written - {from})[to := d.written[from]] else d.written;
      Outcome(d.(files := files, written := written), c, Status(id, OK))
  }

  function OnOpenDir(d: Dir, c: Chan, id: U32): Outcome {
    var handle := HandleName(100, c.next);
    Outcome(d, Chan(c.handles[handle := Listing(false)], c.next + 1), Handed(id, handle))
  }

  function OnClose(d: Dir, c: Chan, id: U32, handle: Name): Outcome {
    var tells := handle in c.handles && c.handles[handle].Writing? && d.telling;
    Outcome(if tells then d.(told := d.told + [c.handles[handle].name]) else d,
            c.(handles := c.handles - {handle}), Status(id, OK))
  }

  function OnRemove(d: Dir, c: Chan, id: U32, name: Name): Outcome {
    Outcome(d.(files := d.files - {name}, written := d.written - {name}), c,
            Status(id, if name in d.files then OK else NO_SUCH_FILE))
  }

  function OnStat(d: Dir, c: Chan, id: U32, name: Name): Outcome {
    Outcome(d, c, if name in d.files then Attrs(id, StampAt(d, name)) else Status(id, NO_SUCH_FILE))
  }

  /** The answer to one request, the clock at `now`. */
  function Serve(d: Dir, c: Chan, q: Request, now: U32): Outcome {
    match q
    case Init => Outcome(d, c, Version)
    case Open(id, name, flags) => OnOpen(d, c, id, name, flags, now)
    case Write(id, handle, offset, data) => OnWrite(d, c, id, handle, offset, data, now)
    case Read(id, handle, offset, want) => OnRead(d, c, id, handle, offset, want)
    case OpenDir(id) => OnOpenDir(d, c, id)
    case ReadDir(id, handle) => OnReadDir(d, c, id, handle)
    case Close(id, handle) => OnClose(d, c, id, handle)
    case Remove(id, name) => OnRemove(d, c, id, name)
    case Rename(id, from, to) => OnRename(d, c, id, from, to)
    case Stat(id, name) => OnStat(d, c, id, name)
  }

  /** Every reply but VERSION answers under its request's id. */
  predicate Answers(p: Reply, q: Request) {
    if q.Init? then p.Version? else !p.Version? && p.id == q.id
  }

  /** The kinds of reply the client's code for `q` accepts without calling
      the reply one that was not due. */
  predicate Due(p: Reply, q: Request) {
    match q
    case Init => p.Version?
    case Open(_, _, _) => p.Handed? || (p.Status? && p.code != OK)
    case OpenDir(_) => p.Handed?
    case Read(_, _, _, _) => p.Data? || (p.Status? && p.code != OK)
    case ReadDir(_, _) => p.Names? || (p.Status? && p.code != OK)
    case Stat(_, _) => p.Attrs? || (p.Status? && p.code == NO_SUCH_FILE)
    case _ => p.Status?
  }

  /** Whatever the state, the reply answers its request and is of a kind that
      was due. */
  lemma ReplyDue(d: Dir, c: Chan, q: Request, now: U32)
    ensures var p := Serve(d, c, q, now).reply; Answers(p, q) && Due(p, q)
  {
    match q
    case Open(id, name, flags) =>
    case _ =>
  }

  // --------------------------------------------------------- the server's code

  /** One channel's handle table, as `serve` keeps it. */
  class Channel {
    var handles: map<Name, Handle>
    var next: nat

    function Value(): Chan
      reads this
    {
      Chan(handles, next)
    }

    constructor ()
      ensures Value() == FRESH_CHAN && handles == map[] && next == 0
    {
      handles, next := map[], 0;
    }

    /** A channel as it stands. */
    constructor Standing(c: Chan)
      ensures Value() == c
    {
      handles, next := c.handles, c.next;
    }
  }

  /** The directory several channels serve at once. */
  class Directory {
    var files: map<Name, Bytes>
    var written: map<Name, U32>
    var newest: U32
    var telling: bool
    var told: seq<Name>
    const ceiling: Ceiling

    function Value(): Dir
      reads this
    {
      Dir(files, written, newest, telling, told, ceiling)
    }

    constructor (files: map<Name, Bytes>, telling: bool, ceiling: Ceiling)
      ensures Value() == NewDir(files, telling, ceiling)
      ensures this.files == files && written == map[] && newest == 0 && told == []
      ensures this.telling == telling && this.ceiling == ceiling
    {
      this.files, this.written, this.newest := files, map[], 0;
      this.telling, this.told, this.ceiling := telling, [], ceiling;
    }

    /** A directory as it stands. */
    constructor Standing(d: Dir)
      ensures Value() == d
    {
      files, written, newest := d.files, d.written, d.newest;
      telling, told, ceiling := d.telling, d.told, d.ceiling;
    }

    method Touch(name: Name, now: U32)
      modifies this`newest, this`written
      ensures Value() == Touched(old(Value()), name, now)
      ensures written == old(written)[name := newest] && newest >= now
      ensures if old(newest) < U32_MAX then newest > old(newest) else newest == U32_MAX
      ensures newest == now || newest == old(newest) + 1 || newest == U32_MAX
    {
      newest := Max(now, if newest == U32_MAX then U32_MAX else newest + 1);
      written := written[name := newest];
    }

    method Open(ch: Channel, id: U32, name: Name, flags: U32, now: U32) returns (p: Reply)
      modifies this, ch
      ensures Outcome(Value(), ch.Value(), p) == OnOpen(old(Value()), old(ch.Value()), id, name, flags, now)
      ensures ch.next == old(ch.next) + 1 && told == old(told) && telling == old(telling)
      ensures p.Status? ==> Value() == old(Value()) && ch.handles == old(ch.handles)
      ensures !Has(flags, F_WRITE) ==> files == old(files) && written == old(written) && newest == old(newest)
      ensures !Has(flags, F_WRITE) ==>
                if name in files then
                  p == Handed(id, HandleName(104, old(ch.next)))
                  && ch.handles == old(ch.handles)[p.handle := Reading(name)]
                else p == Status(id, NO_SUCH_FILE)
      ensures Has(flags, F_WRITE) && Has(flags, F_EXCL) && name in old(files) ==> p == Status(id, FAILURE)
      ensures Has(flags, F_WRITE) && !(Has(flags, F_EXCL) && name in old(files)) ==>
                && p == Handed(id, HandleName(104, old(ch.next)))
                && ch.handles == old(ch.handles)[p.handle := Writing(name)]
                && files.Keys == old(files).Keys + {name}
                && (forall m :: m in old(files) && m != name ==> files[m] == old(files)[m])
                && (name in old(files) && !Has(flags, F_TRUNC) ==> files[name] == old(files)[name])
                && (name !in old(files) || Has(flags, F_TRUNC) ==> files[name] == [])
                && written == old(written)[name := newest] && newest >= now
    {
      var handle := HandleName(104, ch.next);
      ch.next := ch.next + 1;
      if Has(flags, F_WRITE) {
        var exists_ := name in files;
        if exists_ && Has(flags, F_EXCL) {
          return Status(id, FAILURE);
        }
        if !exists_ || Has(flags, F_TRUNC) {
          files := files[name := []];
        }
        Touch(name, now);
        ch.handles := ch.handles[handle := Writing(name)];
      } else if name in files {
        ch.handles := ch.handles[handle := Reading(name)];
      } else {
        return Status(id, NO_SUCH_FILE);
      }
      p := Handed(id, handle);
    }

    /** The file grown with zeros to `end` where it is shorter, then the
        range copied over: no offset or length, however large, slices out of
        range or copies between ranges of different lengths. */
    method Write(ch: Channel, id: U32, handle: Name, offset: U64, data: Bytes, now: U32) returns (p: Reply)
      modifies this
      ensures Outcome(Value(), ch.Value(), p)
           == OnWrite(old(Value()), old(ch.Value()), id, handle, offset, data, now)
      ensures var accepted := handle in ch.handles && ch.handles[handle].Writing? && offset + |data| <= ceiling;
              && p == Status(id, if accepted then OK else FAILURE)
              && (!accepted ==> Value() == old(Value()))
      ensures p == Status(id, OK) ==>
                var name, end := ch.handles[handle].name, offset + |data|;
                var was := if name in old(files) then old(files)[name] else [];
                && files.Keys == old(files).Keys + {name}
                && (forall m :: m in old(files) && m != name ==> files[m] == old(files)[m])
                && |files[name]| == Max(|was|, end)
                && files[name][offset..end] == data
                && files[name][..Min(offset, |was|)] == was[..Min(offset, |was|)]
                && (end <= |was| ==> files[name][end..] == was[end..])
                && (forall i :: |was| <= i < offset ==> files[name][i] == 0)
                && written == old(written)[name := newest] && newest >= now
    {
      if handle !in ch.handles || !ch.handles[handle].Writing? {
        return Status(id, FAILURE);
      }
      var end := SaturatingAdd(offset, |data|, U64_MAX);
      if end > ceiling {
        return Status(id, FAILURE);
      }
      assert end - offset == |data|;
      var name := ch.handles[handle].name;
      var file := if name in files then files[name] else [];
      if |file| < end {
        file := file + seq(end - |file|, _ => 0);
      }
      file := file[..offset] + data + file[end..];
      assert file == Overlay(BytesAt(old(Value()), name), offset, data);
      OverlayMeans(BytesAt(old(Value()), name), offset, data);
      files := files[name := file];
      Touch(name, now);
      p := Status(id, OK);
    }

    method Read(ch: Channel, id: U32, handle: Name, offset: U64, want: U32) returns (p: Reply)
      ensures p == OnRead(Value(), ch.Value(), id, handle, offset, want).reply
      ensures OnRead(Value(), ch.Value(), id, handle, offset, want) == Outcome(Value(), ch.Value(), p)
      ensures !(handle in ch.handles && ch.handles[handle].Reading?) ==> p == Status(id, FAILURE)
      ensures handle in ch.handles && ch.handles[handle].Reading? ==>
                var name := ch.handles[handle].name;
                var file := if name in files then files[name] else [];
                && (offset >= |file| ==> p == Status(id, EOF))
                && (offset < |file| ==> p.Data? && p.id == id && |p.data| <= want && p.data <= file[offset..])
                && (offset < |file| <= U64_MAX ==> |p.data| == want || offset + |p.data| == |file|)
    {
      if handle !in ch.handles || !ch.handles[handle].Reading? {
        return Status(id, FAILURE);
      }
      var name := ch.handles[handle].name;
      var file := if name in files then files[name] else [];
      if offset >= |file| {
        return Status(id, EOF);
      }
      var end := Min(|file|, SaturatingAdd(offset, want, U64_MAX));
      p := Data(id, file[offset..end]);
    }

    /** Every file, walked in order. */
    method NameReply(id: U32) returns (p: Reply)
      ensures p == Names(id, NamesOf(Value()))
      ensures Lists(p.names, files, written)
    {
      var order := Sorted(files.Keys);
      var names: seq<(Name, Stamp)> := [];
      for i := 0 to |order|
        invariant |names| == i
        invariant names == NamesOf(Value())[..i]
      {
        assert order[i] in order;
        var name := order[i];
        var modified := if name in written then written[name] else 0;
        names := names + [(name, Stamp(Min(|files[name]|, U64_MAX), modified))];
      }
      assert names == NamesOf(Value());
      NamesOfLists(Value());
      p := Names(id, names);
    }

    method ReadDir(ch: Channel, id: U32, handle: Name) returns (p: Reply)
      modifies ch
      ensures Outcome(Value(), ch.Value(), p) == OnReadDir(old(Value()), old(ch.Value()), id, handle)
      ensures !(handle in old(ch.handles) && old(ch.handles)[handle].Listing?) ==> p == Status(id, FAILURE)
      ensures handle in old(ch.handles) && old(ch.handles)[handle].Listing? ==>
                if old(ch.handles)[handle].read then p == Status(id, EOF)
                else p.Names? && p.id == id && Lists(p.names, files, written)
      ensures ch.handles == if p.Names? then old(ch.handles)[handle := Listing(true)] else old(ch.handles)
    {
      if handle in ch.handles && ch.handles[handle].Listing? {
        if !ch.handles[handle].read {
          ch.handles := ch.handles[handle := Listing(true)];
          p := NameReply(id);
        } else {
          p := Status(id, EOF);
        }
      } else {
        p := Status(id, FAILURE);
      }
    }

    method Rename(id: U32, from: Name, to: Name) returns (p: Reply)
      modifies this`files, this`written
      ensures forall c :: Outcome(Value(), c, p) == OnRename(old(Value()), c, id, from, to)
      ensures to in old(files) ==> p == Status(id, FAILURE)
      ensures to !in old(files) && from !in old(files) ==> p == Status(id, NO_SUCH_FILE)
      ensures to in old(files) || from !in old(files) ==> files == old(files) && written == old(written)
      ensures to !in old(files) && from in old(files) ==>
                && p == Status(id, OK)
                && files.Keys == old(files).Keys - {from} + {to} && files[to] == old(files)[from]
                && (forall m :: m in files && m != to ==> files[m] == old(files)[m])
                && (from in old(written) ==> to in written && written[to] == old(written)[from])
                && (forall m :: m != from && m != to ==>
                      (m in written <==> m in old(written)) && (m in written ==> written[m] == old(written)[m]))
    {
      if to in files {
        return Status(id, FAILURE);
      }
      if from !in files {
        return Status(id, NO_SUCH_FILE);
      }
      var bytes := files[from];
      files := files - {from};
      files := files[to := bytes];
      if from in written {
        var time := written[from];
        written := written - {from};
        written := written[to := time];
      }
      p := Status(id, OK);
    }

    method OpenDir(ch: Channel, id: U32) returns (p: Reply)
      modifies ch
      ensures Outcome(Value(), ch.Value(), p) == OnOpenDir(old(Value()), old(ch.Value()), id)
      ensures p == Handed(id, HandleName(100, old(ch.next))) && ch.next == old(ch.next) + 1
      ensures ch.handles == old(ch.handles)[p.handle := Listing(false)]
    {
      var handle := HandleName(100, ch.next);
      ch.next := ch.next + 1;
      ch.handles := ch.handles[handle := Listing(false)];
      p := Handed(id, handle);
    }

    method Close(ch: Channel, id: U32, handle: Name) returns (p: Reply)
      modifies this`told, ch
      ensures Outcome(Value(), ch.Value(), p) == OnClose(old(Value()), old(ch.Value()), id, handle)
      ensures p == Status(id, OK) && handle !in ch.handles && ch.next == old(ch.next)
      ensures forall h :: h in old(ch.handles) && h != handle ==> h in ch.handles && ch.handles[h] == old(ch.handles)[h]
      ensures if telling && handle in old(ch.handles) && old(ch.handles)[handle].Writing?
              then told == old(told) + [old(ch.handles)[handle].name] else told == old(told)
    {
      if handle in ch.handles {
        var closed := ch.handles[handle];
        if closed.Writing? && telling {
          told := told + [closed.name];
        }
      }
      ch.handles := ch.handles - {handle};
      p := Status(id, OK);
    }

    method Remove(id: U32, name: Name) returns (p: Reply)
      modifies this`files, this`written
      ensures forall c :: Outcome(Value(), c, p) == OnRemove(old(Value()), c, id, name)
      ensures p == Status(id, if name in old(files) then OK else NO_SUCH_FILE)
      ensures files.Keys == old(files).Keys - {name} && written.Keys == old(written).Keys - {name}
      ensures forall m :: m in files ==> files[m] == old(files)[m]
      ensures forall m :: m in written ==> written[m] == old(written)[m]
    {
      written := written - {name};
      if name in files {
        files := files - {name};
        p := Status(id, OK);
      } else {
        assert files - {name} == files;
        p := Status(id, NO_SUCH_FILE);
      }
    }

    method Stat(id: U32, name: Name) returns (p: Reply)
      ensures forall c :: Outcome(Value(), c, p) == OnStat(Value(), c, id, name)
      ensures if name in files then p.Attrs? && p.id == id && Stamps(p.stamp, files, written, name)
              else p == Status(id, NO_SUCH_FILE)
    {
      if name in files {
        var modified := if name in written then written[name] else 0;
        p := Attrs(id, Stamp(Min(|files[name]|, U64_MAX), modified));
      } else {
        p := Status(id, NO_SUCH_FILE);
      }
    }

    /** One request dispatched to its handler. */
    method Dispatch(ch: Channel, q: Request, now: U32) returns (p: Reply)
      modifies this, ch
      ensures Outcome(Value(), ch.Value(), p) == Serve(old(Value()), old(ch.Value()), q, now)
    {
      match q
      case Init => p := Version;
      case Open(id, name, flags) => p := Open(ch, id, name, flags, now);
      case Write(id, handle, offset, data) => p := Write(ch, id, handle, offset, data, now);
      case Read(id, handle, offset, want) => p := Read(ch, id, handle, offset, want);
      case OpenDir(id) => p := OpenDir(ch, id);
      case ReadDir(id, handle) => p := ReadDir(ch, id, handle);
      case Close(id, handle) => p := Close(ch, id, handle);
      case Remove(id, name) => p := Remove(id, name);
      case Rename(id, from, to) => p := Rename(id, from, to);
      case Stat(id, name) => p := Stat(id, name);
    }

    /** A packet answered: refused with nothing changed where it is not one
        the far end understands, else what `Serve` says, framed. */
    method Answer(kind: Byte, body: Bytes, ch: Channel, now: U32) returns (r: Result<Bytes>)
      requires Understood(kind, body).Got? ==>
                 Sendable(Serve(Value(), ch.Value(), Understood(kind, body).value, now).reply)
      modifies this, ch
      ensures Understood(kind, body).Short? ==>
                r == Err && Value() == old(Value()) && ch.Value() == old(ch.Value())
      ensures Understood(kind, body).Got? ==>
                var out := Serve(old(Value()), old(ch.Value()), Understood(kind, body).value, now);
                && Value() == out.dir && ch.Value() == out.chan
                && r == Ok(Frame(ReplyKind(out.reply), ReplyBody(out.reply)))
    {
      hide Understood, Serve, Sendable, ReplyBody;
      var read := Understood(kind, body);
      if read.Short? {
        return Err;
      }
      var p := Dispatch(ch, read.value, now);
      r := Ok(Frame(ReplyKind(p), ReplyBody(p)));
    }
  }
}
