/** The client's side of the subsystem: packets out, packets back, a request
    at a time, while other channels' requests come in between. */
module Client {
  import opened Wire
  import opened Packets
  import opened Directories
  import opened Runs

  /** What the other channels did before the client's next request reached
      the far end, and the clock when it did. */
  datatype Turn = Turn(before: seq<Event>, now: U32)

  const QUIET := Turn([], 0)

  function NextOf(schedule: seq<Turn>): Turn {
    if schedule == [] then QUIET else schedule[0]
  }

  function LaterOf(schedule: seq<Turn>): seq<Turn> {
    if schedule == [] then [] else schedule[1..]
  }

  /** The world when the request of `me` is reached, and once it is
      answered. */
  function Reached(w: World, t: Turn): World {
    Run(w, t.before)
  }

  function Asking(me: nat, t: Turn, q: Request): Event {
    Ask(me, q, t.now)
  }

  function Heard(w: World, me: nat, t: Turn, q: Request): World {
    Step(Reached(w, t), Asking(me, t, q))
  }

  function ReplyTo(w: World, me: nat, t: Turn, q: Request): Reply {
    Answered(Reached(w, t), Asking(me, t, q)).reply
  }

  /** Only other channels act in between. */
  ghost predicate Others(schedule: seq<Turn>, me: nat) {
    forall t, e :: t in schedule && e in t.before ==> e.chan != me
  }

  /** And none of them touches the file under `n` while it is there. */
  ghost predicate Spared(schedule: seq<Turn>, me: nat, n: Name) {
    forall t :: t in schedule ==> Peaceful(t.before, n, me)
  }

  /** The pieces of a body, in order. */
  function Flat(pieces: seq<Bytes>): Bytes {
    if |pieces| == 0 then [] else Flat(pieces[..|pieces| - 1]) + pieces[|pieces| - 1]
  }

  lemma FlatNext(pieces: seq<Bytes>, i: nat)
    requires i < |pieces|
    ensures Flat(pieces[..i + 1]) == Flat(pieces[..i]) + pieces[i]
  {
    assert pieces[..i + 1][..i] == pieces[..i];
  }

  lemma {:induction false} FlatLonger(pieces: seq<Bytes>, i: nat)
    requires i <= |pieces|
    ensures |Flat(pieces[..i])| <= |Flat(pieces)|
    decreases |pieces| - i
  {
    if i < |pieces| {
      FlatNext(pieces, i);
      FlatLonger(pieces, i + 1);
    } else {
      assert pieces[..i] == pieces;
    }
  }

  /** Writing where a file ends makes it longer by what is written. */
  lemma OverlayAppends(file: Bytes, data: Bytes)
    ensures Overlay(file, |file|, data) == file + data
  {
  }

  // ------------------------------------------------- what the others leave be

  /** What other channels do depends on nothing of the channel `me`. */
  lemma OthersStep(w: World, e: Event, me: nat, x: Chan)
    requires e.chan != me
    ensures Step(w.(chans := w.chans[me := x]), e) == Step(w, e).(chans := Step(w, e).chans[me := x])
    ensures ChanOf(Step(w, e), me) == ChanOf(w, me)
  {
    hide Serve;
    var w' := w.(chans := w.chans[me := x]);
    assert ChanOf(w', e.chan) == ChanOf(w, e.chan);
    if e.Ask? {
      var c := Answered(w, e).chan;
      assert w.chans[me := x][e.chan := c] == w.chans[e.chan := c][me := x];
    } else {
      assert w.chans[me := x] - {e.chan} == (w.chans - {e.chan})[me := x];
    }
  }

  lemma {:induction false} OthersRun(w: World, es: seq<Event>, me: nat, x: Chan)
    requires forall e :: e in es ==> e.chan != me
    ensures Run(w.(chans := w.chans[me := x]), es) == Run(w, es).(chans := Run(w, es).chans[me := x])
    ensures ChanOf(Run(w, es), me) == ChanOf(w, me)
    decreases |es|
  {
    if |es| > 0 {
      var last := |es| - 1;
      assert es[last] in es;
      OthersRun(w, es[..last], me, x);
      OthersStep(Run(w, es[..last]), es[last], me, x);
    }
  }

  // -------------------------------------------------------------- the listing

  predicate IsDots(name: Name) {
    name == [46] || name == [46, 46]
  }

  /** The listing without `.` and `..`. */
  function Retained(names: seq<Listed>): seq<Listed> {
    if |names| == 0 then [] else (if IsDots(names[0].name) then [] else [names[0]]) + Retained(names[1..])
  }

  lemma {:induction false} RetainedMembers(names: seq<Listed>)
    ensures forall l :: l in Retained(names) <==> l in names && l.name != [46] && l.name != [46, 46]
    decreases |names|
  {
    if |names| > 0 {
      RetainedMembers(names[1..]);
      assert forall l :: l in names <==> l == names[0] || l in names[1..];
    }
  }

  lemma RetainedOne(l: Listed)
    ensures Retained([l]) == if l.name == [46] || l.name == [46, 46] then [] else [l]
  {
    assert [l][1..] == [];
  }

  /** What is retained of a listing is what is retained of its parts, in their
      order: with `RetainedOne`, every other entry once and as it was. */
  lemma {:induction false} RetainedJoins(a: seq<Listed>, b: seq<Listed>)
    ensures Retained(a + b) == Retained(a) + Retained(b)
    decreases |a|
  {
    hide IsDots;
    if |a| == 0 {
      assert a + b == b;
    } else {
      assert (a + b)[0] == a[0] && (a + b)[1..] == a[1..] + b;
      RetainedJoins(a[1..], b);
      RetainedFirst(a);
      RetainedFirst(a + b);
      assert (if IsDots(a[0].name) then [] else [a[0]]) + (Retained(a[1..]) + Retained(b))
          == ((if IsDots(a[0].name) then [] else [a[0]]) + Retained(a[1..])) + Retained(b);
    }
  }

  lemma RetainedFirst(names: seq<Listed>)
    requires |names| > 0
    ensures Retained(names) == (if IsDots(names[0].name) then [] else [names[0]]) + Retained(names[1..])
  {
  }

  ghost predicate InNameOrder(names: seq<Listed>) {
    forall i, j :: 0 <= i < j < |names| ==> Before(names[i].name, names[j].name)
  }

  lemma {:induction false} RetainedInOrder(names: seq<Listed>)
    requires InNameOrder(names)
    ensures InNameOrder(Retained(names))
    decreases |names|
  {
    if |names| > 0 {
      RetainedInOrder(names[1..]);
      RetainedMembers(names[1..]);
      var kept := Retained(names[1..]);
      forall i | 0 <= i < |kept| ensures Before(names[0].name, kept[i].name) {
        assert kept[i] in kept && kept[i] in names[1..];
      }
    }
  }

  /** The listing shows exactly the files there are but for `.` and `..`, each
      once, in order, with its length and the time it was last written. */
  ghost predicate ListsFiles(names: seq<Listed>, files: map<Name, Bytes>, written: map<Name, U32>) {
    && (forall l :: l in names ==>
          && l.name != [46] && l.name != [46, 46]
          && l.stamp.Some? && Stamps(l.stamp.value, files, written, l.name))
    && (forall n :: n in files && n != [46] && n != [46, 46] ==> exists l :: l in names && l.name == n)
    && InNameOrder(names)
  }

  lemma ListsRetained(d: Dir)
    ensures ListsFiles(Retained(AsListed(NamesOf(d))), d.files, d.written)
  {
    NamesOfLists(d);
    hide NamesOf;
    var all := AsListed(NamesOf(d));
    RetainedInOrder(all);
    RetainedMembers(all);
    hide Retained;
    forall n | n in d.files && n != [46] && n != [46, 46] ensures exists l :: l in Retained(all) && l.name == n {
      var i :| 0 <= i < |NamesOf(d)| && NamesOf(d)[i].0 == n;
      assert all[i] in all && all[i].name == n;
      assert all[i] in Retained(all);
    }
  }

  /** A listing of `d` fits a packet, and its names are text. */
  ghost predicate Tellable(d: Dir) {
    && (forall n :: n in d.files ==> Utf8(n))
    && forall id :: Sendable(Names(id, NamesOf(d)))
  }

  lemma ListedBack(d: Dir, id: U32)
    requires Tellable(d)
    ensures Entries(ReplyBody(Names(id, NamesOf(d)))) == Got(AsListed(NamesOf(d)), [])
  {
    var p := Names(id, NamesOf(d));
    forall n | n in p.names ensures Utf8(n.0) {
      var i :| 0 <= i < |p.names| && p.names[i] == n;
      assert Sorted(d.files.Keys)[i] in Sorted(d.files.Keys);
    }
    NamesBack(p);
  }

  /** A handle the far end hands out is text and fits its reply. */
  lemma HandleFitsReply(kind: Byte, number: nat)
    requires kind < 0x80 && number <= U64_MAX
    ensures Utf8(HandleName(kind, number)) && |HandleName(kind, number)| <= 21
  {
    HandleIsText(kind, number);
  }

  // ------------------------------------------------------------- the agreement

  /** Client and far end agree over whole sessions: at every moment of every
      run, what a client writes for a request the far end understands as that
      request, and its reply, of a kind that was due, reads back under the
      request's id with the status code it was given. */
  lemma SessionAgrees(w: World, es: seq<Event>, i: nat)
    requires i < |es| && es[i].Ask? && Writable(es[i].q) && Textual(es[i].q)
    requires Sendable(Answered(At(w, es, i), es[i]).reply)
    ensures var q, p := es[i].q, Answered(At(w, es, i), es[i]).reply;
            && Understood(KindOf(q), BodyOf(q)).Got? && Understood(KindOf(q), BodyOf(q)).value == q
            && Answers(p, q) && Due(p, q)
            && TakeFrame(Frame(ReplyKind(p), ReplyBody(p))) == Got((ReplyKind(p), ReplyBody(p)), [])
            && (!q.Init? ==> TakeU32(ReplyBody(p)).Got? && TakeU32(ReplyBody(p)).value == q.id)
            && (p.Status? ==> Code(ReplyBody(p)).Got? && Code(ReplyBody(p)).value == p.code)
  {
    hide Understood, BodyOf, Textual, Writable, TakeFrame, Frame, Serve, Sendable, ReplyBody, TakeU32, Code, Run;
    var mid, e := At(w, es, i), es[i];
    UnderstoodBack(e.q);
    ReplyDue(mid.dir, ChanOf(mid, e.chan), e.q, e.now);
    var p := Answered(mid, e).reply;
    ReplyBack(p);
    TakeFrameBack(ReplyKind(p), ReplyBody(p), []);
    assert Frame(ReplyKind(p), ReplyBody(p)) + [] == Frame(ReplyKind(p), ReplyBody(p));
  }

  // ------------------------------------------------------- one file at a time

  lemma {:induction false} SettingsKept(w: World, es: seq<Event>)
    ensures Run(w, es).dir.ceiling == w.dir.ceiling && Run(w, es).dir.telling == w.dir.telling
    decreases |es|
  {
    if |es| > 0 {
      SettingsKept(w, es[..|es| - 1]);
      SettingsStep(Run(w, es[..|es| - 1]), es[|es| - 1]);
    }
  }

  lemma SettingsStep(w: World, e: Event)
    ensures Step(w, e).dir.ceiling == w.dir.ceiling && Step(w, e).dir.telling == w.dir.telling
  {
    hide NamesOf, HandleName, Overlay, Sorted, Has, StampAt;
  }

  /** `me` alone may write `n`, and what happens before its request leaves the
      file as it was. */
  ghost predicate Alone(w: World, t: Turn, me: nat, n: Name) {
    NoWriter(w, n, me) && Peaceful(t.before, n, me) && (n in w.dir.files || Untargeted(t.before, n))
  }

  lemma AloneReached(w: World, t: Turn, me: nat, n: Name)
    requires Alone(w, t, me, n)
    ensures var w' := Reached(w, t);
            && SameFile(w.dir, w'.dir, n) && NoWriter(w', n, me) && ChanOf(w', me) == ChanOf(w, me)
            && w'.dir.ceiling == w.dir.ceiling && w'.dir.telling == w.dir.telling
            && Tellings(w'.dir, n) == Tellings(w.dir, n)
  {
    PeaceRun(w, t.before, n, me);
    SettingsKept(w, t.before);
  }

  lemma TurnSpared(w: World, schedule: seq<Turn>, me: nat, n: Name)
    requires Spared(schedule, me, n)
    ensures NoWriter(w, n, me) && n in w.dir.files ==> Alone(w, NextOf(schedule), me, n)
    ensures Spared(LaterOf(schedule), me, n)
  {
  }

  /** The open of a put leaves an empty file and a handle to write it. */
  lemma PutOpens(w: World, t: Turn, me: nat, id: U32, n: Name)
    requires Alone(w, t, me, n)
    ensures var q := Request.Open(id, n, F_WRITE + F_CREAT + F_TRUNC);
            var w', h := Heard(w, me, t, q), HandleName(104, ChanOf(w, me).next);
            && ReplyTo(w, me, t, q) == Handed(id, h)
            && n in w'.dir.files && w'.dir.files[n] == []
            && ChanOf(w', me) == Chan(ChanOf(w, me).handles[h := Writing(n)], ChanOf(w, me).next + 1)
            && NoWriter(w', n, me)
            && w'.dir.ceiling == w.dir.ceiling && w'.dir.telling == w.dir.telling
            && Tellings(w'.dir, n) == Tellings(w.dir, n)
  {
    hide Run, HandleName, Peaceful, Untargeted;
    AloneReached(w, t, me, n);
  }

  /** A write of a put, where the file ends: accepted exactly where the whole
      still fits, and then the file has the piece behind what it had. */
  lemma PutWrites(w: World, t: Turn, me: nat, id: U32, h: Name, n: Name, data: Bytes)
    requires Alone(w, t, me, n) && n in w.dir.files && |w.dir.files[n]| <= U64_MAX
    requires h in ChanOf(w, me).handles && ChanOf(w, me).handles[h] == Writing(n)
    ensures var file := w.dir.files[n];
            var q := Request.Write(id, h, |file|, data);
            var w' := Heard(w, me, t, q);
            && (ReplyTo(w, me, t, q) == Status(id, OK) <==> |file + data| <= w.dir.ceiling)
            && n in w'.dir.files
            && w'.dir.files[n] == (if |file + data| <= w.dir.ceiling then file + data else file)
            && ChanOf(w', me) == ChanOf(w, me)
            && NoWriter(w', n, me)
            && w'.dir.ceiling == w.dir.ceiling && w'.dir.telling == w.dir.telling
            && Tellings(w'.dir, n) == Tellings(w.dir, n)
  {
    hide Run, Overlay, Peaceful, Untargeted;
    AloneReached(w, t, me, n);
    OverlayAppends(w.dir.files[n], data);
  }

  /** The close of a put tells the owner, and gives the handle up. */
  lemma PutCloses(w: World, t: Turn, me: nat, id: U32, h: Name, n: Name)
    requires Alone(w, t, me, n) && n in w.dir.files
    requires h in ChanOf(w, me).handles && ChanOf(w, me).handles[h] == Writing(n)
    ensures var w' := Heard(w, me, t, Request.Close(id, h));
            && SameFile(w.dir, w'.dir, n)
            && ChanOf(w', me) == Chan(ChanOf(w, me).handles - {h}, ChanOf(w, me).next)
            && NoWriter(w', n, me)
            && (w.dir.telling ==> w'.dir.told != [] && w'.dir.told[|w'.dir.told| - 1] == n)
            && Tellings(w'.dir, n) == Tellings(w.dir, n) + if w.dir.telling then 1 else 0
  {
    hide Run, Peaceful, Untargeted;
    AloneReached(w, t, me, n);
  }

  /** The open of a file to read it: a handle exactly where it is there. */
  lemma ReadOpens(w: World, t: Turn, me: nat, id: U32, n: Name)
    requires Alone(w, t, me, n)
    ensures var q := Request.Open(id, n, F_READ);
            var w', h := Heard(w, me, t, q), HandleName(104, ChanOf(w, me).next);
            && ReplyTo(w, me, t, q) == (if n in w.dir.files then Handed(id, h) else Status(id, NO_SUCH_FILE))
            && SameFile(w.dir, w'.dir, n) && NoWriter(w', n, me)
            && ChanOf(w', me).handles ==
               (if n in w.dir.files then ChanOf(w, me).handles[h := Reading(n)] else ChanOf(w, me).handles)
  {
    hide Run, HandleName, Peaceful, Untargeted;
    AloneReached(w, t, me, n);
  }

  /** A read gives what is left of the file, at most a chunk, and the end
      exactly where nothing is. */
  lemma ReadsOn(w: World, t: Turn, me: nat, id: U32, h: Name, n: Name, offset: U64)
    requires Alone(w, t, me, n) && n in w.dir.files && |w.dir.files[n]| <= U64_MAX
    requires h in ChanOf(w, me).handles && ChanOf(w, me).handles[h] == Reading(n)
    ensures var file := w.dir.files[n];
            var q := Request.Read(id, h, offset, CHUNK);
            var w' := Heard(w, me, t, q);
            && ReplyTo(w, me, t, q) == (if offset >= |file| then Status(id, EOF)
                                        else Data(id, file[offset..Min(|file|, offset + CHUNK)]))
            && SameFile(w.dir, w'.dir, n) && NoWriter(w', n, me)
            && ChanOf(w', me).handles == ChanOf(w, me).handles
  {
    hide Run, Peaceful, Untargeted;
    AloneReached(w, t, me, n);
  }

  lemma ReadCloses(w: World, t: Turn, me: nat, id: U32, h: Name, n: Name)
    requires Alone(w, t, me, n)
    requires h in ChanOf(w, me).handles && ChanOf(w, me).handles[h] == Reading(n)
    ensures var w' := Heard(w, me, t, Request.Close(id, h));
            && SameFile(w.dir, w'.dir, n)
            && ChanOf(w', me).handles == ChanOf(w, me).handles - {h}
  {
    hide Run, Peaceful, Untargeted;
    AloneReached(w, t, me, n);
  }

  /** A close gives the handle up, whatever it was. */
  lemma GivesUp(w: World, t: Turn, me: nat, id: U32, h: Name)
    requires forall e :: e in t.before ==> e.chan != me
    ensures ChanOf(Heard(w, me, t, Request.Close(id, h)), me) == Chan(ChanOf(w, me).handles - {h}, ChanOf(w, me).next)
  {
    OthersRun(w, t.before, me, FRESH_CHAN);
  }

  /** Piece `k` is the first that does not fit any more. */
  predicate RefusedAt(pieces: seq<Bytes>, k: nat, ceiling: nat) {
    k < |pieces| && |Flat(pieces[..k])| <= ceiling < |Flat(pieces[..k + 1])|
  }

  /** The chunks of a file: none empty, all but the last full. */
  ghost predicate Chunks(chunks: seq<Bytes>, file: Bytes) {
    && Flat(chunks) == file
    && (forall c :: c in chunks ==> 0 < |c| <= CHUNK)
    && |chunks| == (|file| + CHUNK - 1) / CHUNK
  }

  /** A request of a put: the open of its name, a piece written, or the close. */
  predicate OfSending(q: Request, name: Name) {
    q.Write? || q.Close? || (q.Open? && q.name == name && q.flags == F_WRITE + F_CREAT + F_TRUNC)
  }

  /** A request that only looks: it changes no file. */
  predicate Looks(q: Request) {
    match q
    case Open(_, _, flags) => flags == F_READ
    case Read(_, _, _, want) => want == CHUNK
    case Init => true
    case OpenDir(_) => true
    case ReadDir(_, _) => true
    case Close(_, _) => true
    case Stat(_, _) => true
    case _ => false
  }

  /** All that was asked since only looks. */
  ghost predicate OnlyLooks(was: seq<Request>, now: seq<Request>) {
    was <= now && forall i :: |was| <= i < |now| ==> Looks(now[i])
  }

  // --------------------------------------------------------------- the client

  class Sftp {
    const me: nat
    var world: World
    var schedule: seq<Turn>
    var incoming: Bytes
    var nextId: U32
    ghost var asked: seq<Request>

    /** Between requests: no reply waiting, only others to come in between,
        and the channel's handles as the far end numbers them. */
    ghost predicate Idle()
      reads this
    {
      incoming == [] && Others(schedule, me) && Numbered(ChanOf(world, me))
    }

    function Next(): Turn
      reads this
    {
      NextOf(schedule)
    }

    function Later(): seq<Turn>
      reads this
    {
      LaterOf(schedule)
    }

    function Mine(): Chan
      reads this
    {
      ChanOf(world, me)
    }

    constructor (me: nat, world: World, schedule: seq<Turn>)
      requires me !in world.chans && Others(schedule, me)
      ensures this.me == me && this.world == world && this.schedule == schedule
      ensures Idle() && asked == [] && nextId == 1
    {
      this.me, this.world, this.schedule := me, world, schedule;
      incoming, nextId, asked := [], 1, [];
    }

    /** `wrapping_add`. */
    method Id() returns (id: U32)
      modifies this`nextId
      ensures id == old(nextId) && nextId == (old(nextId) + 1) % 0x1_0000_0000
    {
      id := nextId;
      nextId := if nextId == U32_MAX then 0 else nextId + 1;
    }

    /** One packet out and its reply back: the far end understands what was
        sent, and the client gets the type and body it answered with. */
    method Exchange(q: Request) returns (kind: Byte, body: Bytes)
      requires Idle() && Writable(q) && Textual(q) && |BodyOf(q)| < U32_MAX
      requires Sendable(ReplyTo(world, me, Next(), q))
      modifies this`world, this`schedule, this`incoming, this`asked
      ensures Idle()
      ensures world == Heard(old(world), me, old(Next()), q)
      ensures schedule == old(Later()) && asked == old(asked) + [q]
      ensures var p := ReplyTo(old(world), me, old(Next()), q);
              kind == ReplyKind(p) && body == ReplyBody(p) && Sendable(p)
    {
      hide Understood, BodyOf, Textual, Writable, TakeFrame, Frame, Serve, Sendable, ReplyBody, Numbered;
      // The client's frame, as the far end takes it off the channel.
      var packet := Frame(KindOf(q), BodyOf(q));
      TakeFrameBack(KindOf(q), BodyOf(q), []);
      UnderstoodBack(q);
      assert packet + [] == packet;
      var taken := TakeFrame(packet);
      // The far end, reached after what the others did.
      var turn := Next();
      OthersRun(world, turn.before, me, FRESH_CHAN);
      ghost var reply := ReplyTo(world, me, turn, q);
      world, schedule, asked := Run(world, turn.before), Later(), asked + [q];
      NumberedAfter(world.dir, ChanOf(world, me), q, turn.now);
      var far := new Directory.Standing(world.dir);
      var mine := new Channel.Standing(ChanOf(world, me));
      var answer := far.Answer(taken.value.0, taken.value.1, mine, turn.now);
      world := World(far.Value(), world.chans[me := mine.Value()]);
      // Its reply, as the client takes it off the channel.
      ReplyBack(reply);
      TakeFrameBack(ReplyKind(reply), ReplyBody(reply), []);
      incoming := incoming + answer.value;
      assert incoming == Frame(ReplyKind(reply), ReplyBody(reply)) + [];
      var got := TakeFrame(incoming);
      kind, body, incoming := got.value.0, got.value.1, got.rest;
    }

    /** INIT answered with the one version spoken. */
    method Start() returns (r: Result<bool>)
      requires Idle()
      modifies this`world, this`schedule, this`incoming, this`asked
      ensures Idle() && r == Ok(true)
      ensures world == Heard(old(world), me, old(Next()), Init)
      ensures schedule == old(Later()) && asked == old(asked) + [Init]
    {
      var kind, body := Exchange(Init);
      ReplyBack(Version);
      var version := TakeU32(body);
      if kind != VERSION || version.Short? || version.value != PROTOCOL {
        return Err;
      }
      r := Ok(true);
    }

    /** The handle a HANDLE reply carries; an error on any other. */
    static method ExpectHandle(kind: Byte, body: Bytes) returns (r: Result<Name>)
      ensures kind != HANDLE ==> r == Err
      ensures kind == HANDLE ==>
                r == if Carried(body).Got? && Utf8(Carried(body).value) then Ok(Carried(body).value) else Err
    {
      if kind != HANDLE {
        return Err;
      }
      var handle := Carried(body);
      r := if handle.Got? && Utf8(handle.value) then Ok(handle.value) else Err;
    }

    /** OPEN: the handle, or an error where the open was refused. */
    method Open(name: Name, flags: U32) returns (r: Result<Name>)
      requires Idle() && Utf8(name) && |name| + 32 < U32_MAX && Mine().next <= U64_MAX
      modifies this`world, this`schedule, this`incoming, this`asked, this`nextId
      ensures Idle()
      ensures var q := Request.Open(old(nextId), name, flags);
              && world == Heard(old(world), me, old(Next()), q)
              && schedule == old(Later()) && asked == old(asked) + [q]
              && var p := ReplyTo(old(world), me, old(Next()), q);
                 r == (if p.Handed? then Ok(p.handle) else Err)
      ensures r.Ok? ==> Utf8(r.value) && |r.value| <= 21
    {
      hide Utf8, HandleName, Numbered, Has, Touched, ReplyBody, Carried;
      var id := Id();
      var q := Request.Open(id, name, flags);
      var turn := Next();
      OthersRun(world, turn.before, me, FRESH_CHAN);
      HandleFitsReply(104, Mine().next);
      var kind, body := Exchange(q);
      ReplyBack(ReplyTo(old(world), me, turn, q));
      r := ExpectHandle(kind, body);
    }

    /** A request answered by a status: an error where it is not OK. */
    method Ask(q: Request) returns (r: Result<bool>)
      requires Idle() && Writable(q) && Textual(q) && |BodyOf(q)| < U32_MAX
      requires q.Write? || q.Close? || q.Remove? || q.Rename?
      modifies this`world, this`schedule, this`incoming, this`asked
      ensures Idle()
      ensures world == Heard(old(world), me, old(Next()), q)
      ensures schedule == old(Later()) && asked == old(asked) + [q]
      ensures r == if ReplyTo(old(world), me, old(Next()), q) == Status(q.id, OK) then Ok(true) else Err
    {
      hide Numbered, ReplyBody, BodyOf, Textual, Writable, Code, Serve;
      var p := ReplyTo(world, me, Next(), q);
      ReplyDue(Reached(world, Next()).dir, ChanOf(Reached(world, Next()), me), q, Next().now);
      var kind, body := Exchange(q);
      ReplyBack(p);
      var code := Code(body);
      r := if kind == STATUS && code.Got? && code.value == OK then Ok(true) else Err;
    }

    method Close(handle: Name) returns (r: Result<bool>)
      requires Idle() && Utf8(handle) && |handle| <= 21
      modifies this`world, this`schedule, this`incoming, this`asked, this`nextId
      ensures Idle() && r == Ok(true)
      ensures var q := Request.Close(old(nextId), handle);
              && world == Heard(old(world), me, old(Next()), q)
              && schedule == old(Later()) && asked == old(asked) + [q]
    {
      hide Numbered, Utf8;
      var id := Id();
      r := Ask(Request.Close(id, handle));
    }

    /** READ of one request's worth: the chunk, nothing at the file's end, an
        error where it was refused. */
    method ReadAt(handle: Name, offset: U64) returns (r: Result<Option<Bytes>>)
      requires Idle() && Utf8(handle) && |handle| <= 21
      modifies this`world, this`schedule, this`incoming, this`asked, this`nextId
      ensures Idle()
      ensures var q := Request.Read(old(nextId), handle, offset, CHUNK);
              && world == Heard(old(world), me, old(Next()), q)
              && schedule == old(Later()) && asked == old(asked) + [q]
              && var p := ReplyTo(old(world), me, old(Next()), q);
                 r == (if p.Data? then Ok(Some(p.data)) else if p == Status(q.id, EOF) then Ok(None) else Err)
    {
      hide Numbered, Utf8, ReplyBody, Code, Carried;
      var id := Id();
      var q := Request.Read(id, handle, offset, CHUNK);
      var p := ReplyTo(world, me, Next(), q);
      var kind, body := Exchange(q);
      ReplyBack(p);
      if kind == DATA {
        var data := Carried(body);
        r := if data.Got? then Ok(Some(data.value)) else Err;
      } else if kind == STATUS {
        var code := Code(body);
        r := if code.Got? && code.value == EOF then Ok(None) else Err;
      } else {
        r := Err;
      }
    }

    /** One piece of a body written where the file `handle` writes ends. */
    method WritePiece(handle: Name, name: Name, offset: U64, chunk: Bytes) returns (r: Result<bool>)
      requires Idle() && Utf8(handle) && |handle| <= 21 && |chunk| < 0x7000_0000
      requires Spared(schedule, me, name) && NoWriter(world, name, me)
      requires name in world.dir.files && offset == |world.dir.files[name]|
      requires handle in Mine().handles && Mine().handles[handle] == Writing(name)
      modifies this
      ensures Idle() && Spared(schedule, me, name) && NoWriter(world, name, me)
      ensures name in world.dir.files && Mine() == old(Mine())
      ensures world.dir.ceiling == old(world.dir.ceiling) && world.dir.telling == old(world.dir.telling)
      ensures r.Ok? <==> offset + |chunk| <= world.dir.ceiling
      ensures world.dir.files[name] == old(world.dir.files[name]) + if r.Ok? then chunk else []
      ensures Tellings(world.dir, name) == old(Tellings(world.dir, name))
      ensures asked == old(asked) + [Request.Write(old(nextId), handle, offset, chunk)]
    {
      hide Utf8, Numbered, NoWriter, Spared, Alone, Heard, ReplyTo, Others;
      TurnSpared(world, schedule, me, name);
      PutWrites(world, Next(), me, nextId, handle, name, chunk);
      var id := Id();
      r := Ask(Request.Write(id, handle, offset, chunk));
    }

    /** The pieces of a body written one behind the other, until one is
        refused. */
    method WritePieces(handle: Name, name: Name, pieces: seq<Bytes>) returns (r: Result<bool>)
      requires Idle() && Utf8(handle) && |handle| <= 21 && forall p :: p in pieces ==> |p| <= CHUNK
      requires Spared(schedule, me, name) && NoWriter(world, name, me)
      requires name in world.dir.files && world.dir.files[name] == []
      requires handle in Mine().handles && Mine().handles[handle] == Writing(name)
      modifies this
      ensures Idle() && Spared(schedule, me, name) && NoWriter(world, name, me)
      ensures name in world.dir.files && Mine() == old(Mine())
      ensures world.dir.ceiling == old(world.dir.ceiling) && world.dir.telling == old(world.dir.telling)
      ensures r.Ok? <==> |Flat(pieces)| <= world.dir.ceiling
      ensures r.Ok? ==> world.dir.files[name] == Flat(pieces)
      ensures r.Err? ==>
                exists k: nat :: RefusedAt(pieces, k, world.dir.ceiling) && world.dir.files[name] == Flat(pieces[..k])
      ensures Tellings(world.dir, name) == old(Tellings(world.dir, name))
      ensures old(asked) <= asked && forall j :: |old(asked)| <= j < |asked| ==> asked[j].Write?
    {
      hide Idle, Utf8, NoWriter, Spared, RefusedAt;
      var offset, i := 0, 0;
      assert pieces[..0] == [];
      while i < |pieces|
        invariant 0 <= i <= |pieces|
        invariant Idle() && Spared(schedule, me, name) && NoWriter(world, name, me)
        invariant name in world.dir.files && world.dir.files[name] == Flat(pieces[..i])
        invariant offset == |Flat(pieces[..i])| <= world.dir.ceiling
        invariant Mine() == old(Mine()) && Tellings(world.dir, name) == old(Tellings(world.dir, name))
        invariant world.dir.ceiling == old(world.dir.ceiling) && world.dir.telling == old(world.dir.telling)
        invariant old(asked) <= asked && forall j :: |old(asked)| <= j < |asked| ==> asked[j].Write?
      {
        FlatNext(pieces, i);
        FlatLonger(pieces, i + 1);
        var written := WritePiece(handle, name, offset, pieces[i]);
        if written.Err? {
          Refusal(pieces, i, world.dir.ceiling);
          return Err;
        }
        offset, i := offset + |pieces[i]|, i + 1;
      }
      assert pieces[..i] == pieces;
      r := Ok(true);
    }

    /** A body put piece by piece. It is there whole exactly where the far end
        holds that much; where a piece no longer fits, exactly the pieces
        before it are there. The owner is told of it exactly once more, by the
        one CLOSE at the end, which a refused put never sends. */
    method Put(name: Name, pieces: seq<Bytes>) returns (r: Result<bool>)
      requires Idle() && Utf8(name) && |name| + 32 < U32_MAX && Mine().next <= U64_MAX
      requires Spared(schedule, me, name) && Alone(world, Next(), me, name)
      requires forall p :: p in pieces ==> |p| <= CHUNK
      modifies this
      ensures Idle() && name in world.dir.files && Spared(schedule, me, name) && NoWriter(world, name, me)
      ensures r.Ok? <==> |Flat(pieces)| <= old(world.dir.ceiling)
      ensures r.Ok? ==>
                && world.dir.files[name] == Flat(pieces)
                && Mine() == Chan(old(Mine().handles), old(Mine().next) + 1)
                && (old(world.dir.telling) ==> world.dir.told != [] && world.dir.told[|world.dir.told| - 1] == name)
      ensures r.Err? ==>
                exists k: nat ::
                  RefusedAt(pieces, k, old(world.dir.ceiling)) && world.dir.files[name] == Flat(pieces[..k])
      ensures Tellings(world.dir, name) ==
              old(Tellings(world.dir, name)) + if r.Ok? && old(world.dir.telling) then 1 else 0
      ensures |old(asked)| < |asked| && old(asked) <= asked
      ensures forall i :: |old(asked)| <= i < |asked| ==> (asked[i].Close? <==> r.Ok? && i == |asked| - 1)
      ensures forall i :: |old(asked)| <= i < |asked| ==> OfSending(asked[i], name)
    {
      hide Utf8, HandleName, Numbered, NoWriter, Spared, Alone, Heard, ReplyTo, RefusedAt, Others, Has, Flat;
      ghost var mine := Mine();
      FreshHandle(mine, false);
      TurnSpared(world, schedule, me, name);
      PutOpens(world, Next(), me, nextId, name);
      var open := Open(name, F_WRITE + F_CREAT + F_TRUNC);
      var handle := open.value;
      var written := WritePieces(handle, name, pieces);
      if written.Err? {
        return Err;
      }
      TurnSpared(world, schedule, me, name);
      PutCloses(world, Next(), me, nextId, handle, name);
      r := Close(handle);
      assert mine.handles[handle := Writing(name)] - {handle} == mine.handles;
    }

    static lemma Refusal(pieces: seq<Bytes>, k: nat, ceiling: nat)
      requires k < |pieces| && |Flat(pieces[..k])| <= ceiling < |Flat(pieces[..k + 1])|
      ensures RefusedAt(pieces, k, ceiling)
    {
    }

    /** The next chunk of the file `handle` reads, at `offset`: what is left of
        it, at most one request's worth, and nothing exactly at its end. */
    method NextChunk(handle: Name, name: Name, offset: U64) returns (r: Result<Option<Bytes>>)
      requires Idle() && Utf8(handle) && |handle| <= 21
      requires Spared(schedule, me, name) && NoWriter(world, name, me)
      requires name in world.dir.files && offset <= |world.dir.files[name]| <= U64_MAX
      requires handle in Mine().handles && Mine().handles[handle] == Reading(name)
      modifies this
      ensures Idle() && Spared(schedule, me, name) && NoWriter(world, name, me)
      ensures name in world.dir.files && world.dir.files[name] == old(world.dir.files[name])
      ensures Mine().handles == old(Mine().handles)
      ensures var file := old(world.dir.files[name]);
              r == Ok(if offset == |file| then None else Some(file[offset..Min(|file|, offset + CHUNK)]))
      ensures asked == old(asked) + [Request.Read(old(nextId), handle, offset, CHUNK)]
    {
      hide Utf8, Numbered, NoWriter, Spared, Alone, Heard, ReplyTo, Others;
      TurnSpared(world, schedule, me, name);
      ReadsOn(world, Next(), me, nextId, handle, name, offset);
      r := ReadAt(handle, offset);
    }

    /** The chunks of the file `handle` reads, to its end. */
    method Drain(handle: Name, name: Name) returns (chunks: seq<Bytes>)
      requires Idle() && Utf8(handle) && |handle| <= 21
      requires Spared(schedule, me, name) && NoWriter(world, name, me)
      requires name in world.dir.files && |world.dir.files[name]| <= U64_MAX
      requires handle in Mine().handles && Mine().handles[handle] == Reading(name)
      modifies this
      ensures Idle() && Spared(schedule, me, name) && NoWriter(world, name, me)
      ensures name in world.dir.files && world.dir.files[name] == old(world.dir.files[name])
      ensures Mine().handles == old(Mine().handles)
      ensures Chunks(chunks, world.dir.files[name])
      ensures |asked| == |old(asked)| + |chunks| + 1 && OnlyLooks(old(asked), asked)
      ensures forall i :: |old(asked)| <= i < |asked| ==> asked[i].Read?
    {
      hide Idle, Utf8, NoWriter, Spared, Chunks;
      ghost var file := world.dir.files[name];
      var offset, more := 0, true;
      chunks := [];
      while more
        invariant Idle() && Spared(schedule, me, name) && NoWriter(world, name, me)
        invariant name in world.dir.files && world.dir.files[name] == file
        invariant Mine().handles == old(Mine().handles)
        invariant offset <= |file| && Flat(chunks) == file[..offset]
        invariant offset == Min(|file|, |chunks| * CHUNK) && (|chunks| - 1) * CHUNK < Max(|file|, 1)
        invariant forall c :: c in chunks ==> 0 < |c| <= CHUNK
        invariant !more ==> offset == |file|
        invariant |asked| == |old(asked)| + |chunks| + (if more then 0 else 1) && OnlyLooks(old(asked), asked)
        invariant forall i :: |old(asked)| <= i < |asked| ==> asked[i].Read?
        decreases |file| - offset, more
      {
        var chunk := NextChunk(handle, name, offset);
        if chunk.value.Some? {
          chunks, offset := AddChunk(chunks, offset, file, chunk.value.value);
        } else {
          more := false;
        }
      }
      assert file[..offset] == file;
      ReadDone(chunks, file);
    }

    /** A file read to its end, a chunk at a time, while others are busy with
        other files: an error exactly where it is not there, else its chunks,
        which together are the file, in one READ for each and one more. */
    method ReadWhole(name: Name) returns (r: Result<seq<Bytes>>)
      requires Idle() && Utf8(name) && |name| + 32 < U32_MAX && Mine().next <= U64_MAX
      requires Spared(schedule, me, name) && Alone(world, Next(), me, name)
      requires |BytesAt(world.dir, name)| <= U64_MAX
      modifies this
      ensures Idle() && SameBytes(old(world.dir), world.dir, name)
      ensures Mine().handles == old(Mine().handles)
      ensures r.Ok? <==> name in old(world.dir.files)
      ensures r.Ok? ==> Chunks(r.value, old(world.dir.files)[name])
      ensures r.Ok? ==> |asked| == |old(asked)| + 1 + (|r.value| + 1) + 1
      ensures r.Ok? ==> forall i :: |old(asked)| < i < |asked| - 1 ==> asked[i].Read?
      ensures OnlyLooks(old(asked), asked)
    {
      hide Utf8, HandleName, Numbered, NoWriter, Spared, Alone, Heard, ReplyTo, Others, Has, Chunks, Flat;
      ghost var mine := Mine();
      FreshHandle(mine, false);
      TurnSpared(world, schedule, me, name);
      ReadOpens(world, Next(), me, nextId, name);
      var open := Open(name, F_READ);
      if open.Err? {
        return Err;
      }
      var handle := open.value;
      var chunks := Drain(handle, name);
      TurnSpared(world, schedule, me, name);
      ReadCloses(world, Next(), me, nextId, handle, name);
      var closed := Close(handle);
      assert Mine().handles == mine.handles;
      r := Ok(chunks);
    }

    static method AddChunk(chunks: seq<Bytes>, offset: nat, ghost file: Bytes, chunk: Bytes)
        returns (more: seq<Bytes>, next: nat)
      requires offset < |file| && Flat(chunks) == file[..offset]
      requires chunk == file[offset..Min(|file|, offset + CHUNK)]
      ensures more == chunks + [chunk] && next == offset + |chunk| <= |file|
      ensures Flat(more) == file[..next]
    {
      more, next := chunks + [chunk], offset + |chunk|;
      assert more[..|more| - 1] == chunks;
      assert file[..next] == file[..offset] + chunk;
    }

    static lemma ReadDone(chunks: seq<Bytes>, file: Bytes)
      requires Flat(chunks) == file
      requires forall c :: c in chunks ==> 0 < |c| <= CHUNK
      requires |file| == Min(|file|, |chunks| * CHUNK) && (|chunks| - 1) * CHUNK < Max(|file|, 1)
      ensures Chunks(chunks, file)
    {
    }

    /** Put then read is the identity: for every body the far end holds, in
        whatever pieces it was put, the chunks read back make it up. */
    method PutThenRead(name: Name, pieces: seq<Bytes>) returns (r: Result<seq<Bytes>>)
      requires Idle() && Utf8(name) && |name| + 32 < U32_MAX && Mine().next < U64_MAX
      requires Spared(schedule, me, name) && Alone(world, Next(), me, name)
      requires forall p :: p in pieces ==> |p| <= CHUNK
      modifies this
      ensures Idle()
      ensures r.Ok? <==> |Flat(pieces)| <= old(world.dir.ceiling)
      ensures r.Ok? ==> Flat(r.value) == Flat(pieces) && |r.value| == (|Flat(pieces)| + CHUNK - 1) / CHUNK
    {
      hide Idle, Utf8, NoWriter, Spared, RefusedAt;
      var put := Put(name, pieces);
      if put.Err? {
        return Err;
      }
      TurnSpared(world, schedule, me, name);
      r := ReadWhole(name);
    }

    /** The directory listed while others change it: exactly as it stood when
        the first READDIR reached it, without `.` and `..`, in two READDIRs,
        the handle given up. */
    method List() returns (r: Result<seq<Listed>>)
      requires Idle() && Mine().next <= U64_MAX
      requires Tellable(FirstListed(world, me, schedule, nextId).dir)
      modifies this
      ensures Idle() && Mine().handles == old(Mine().handles)
      ensures r == Ok(Retained(AsListed(NamesOf(FirstListed(old(world), me, old(schedule), old(nextId)).dir))))
      ensures var d := FirstListed(old(world), me, old(schedule), old(nextId)).dir;
              ListsFiles(r.value, d.files, d.written)
      ensures |asked| == |old(asked)| + 4 && OnlyLooks(old(asked), asked)
      ensures var n := |old(asked)|;
              asked[n].OpenDir? && asked[n + 1].ReadDir? && asked[n + 2].ReadDir? && asked[n + 3].Close?
    {
      hide Utf8, HandleName, Numbered, AsListed, NamesOf, Tellable, Retained, Run, Heard;
      ghost var mine, seen := Mine(), FirstListed(world, me, schedule, nextId).dir;
      FreshHandle(mine, true);
      var handle := OpenDirectory();
      var names := ReadListing(handle, seen);
      GivesUp(world, Next(), me, nextId, handle);
      var closed := Close(handle);
      assert Mine().handles == mine.handles;
      ListsRetained(seen);
      r := Ok(Retained(names.value));
    }

    /** READDIR until the end of the directory. */
    method ReadListing(handle: Name, ghost seen: Dir) returns (r: Result<seq<Listed>>)
      requires Idle() && Utf8(handle) && |handle| <= 21
      requires handle in Mine().handles && Mine().handles[handle] == Listing(false)
      requires Reached(world, Next()).dir == seen && Tellable(seen)
      modifies this
      ensures Idle() && Mine().handles == old(Mine().handles)[handle := Listing(true)]
      ensures r == Ok(AsListed(NamesOf(seen)))
      ensures |asked| == |old(asked)| + 2 && old(asked) <= asked
      ensures asked[|asked| - 2].ReadDir? && asked[|asked| - 1].ReadDir?
    {
      hide Idle, Utf8, AsListed, NamesOf, Tellable, Reached;
      var more, first := true, true;
      var names: seq<Listed> := [];
      while more
        invariant Idle()
        invariant Mine().handles == if first then old(Mine().handles) else old(Mine().handles)[handle := Listing(true)]
        invariant first ==> more && names == [] && asked == old(asked) && Reached(world, Next()).dir == seen
        invariant !first ==> names == AsListed(NamesOf(seen))
        invariant |asked| == |old(asked)| + (if first then 0 else if more then 1 else 2) && old(asked) <= asked
        invariant forall i :: |old(asked)| <= i < |asked| ==> asked[i].ReadDir?
        decreases first, more
      {
        var listed := ReadDirectory(handle, seen);
        if listed.value.Some? {
          names, first := names + listed.value.value, false;
        } else {
          more := false;
        }
      }
      r := Ok(names);
    }

    /** OPENDIR: a handle of its own for one listing. */
    method OpenDirectory() returns (handle: Name)
      requires Idle() && Mine().next <= U64_MAX
      modifies this
      ensures Idle() && handle == HandleName(100, old(Mine().next)) && Utf8(handle) && |handle| <= 21
      ensures Mine().handles == old(Mine().handles)[handle := Listing(false)]
      ensures schedule == old(Later())
      ensures world == Heard(old(world), me, old(Next()), OpenDir(old(nextId)))
      ensures asked == old(asked) + [OpenDir(old(nextId))]
    {
      hide Utf8, HandleName, Numbered, ReplyBody, Carried;
      OthersRun(world, Next().before, me, FRESH_CHAN);
      HandleFitsReply(100, Mine().next);
      var q := OpenDir(nextId);
      var p := ReplyTo(world, me, Next(), q);
      var id := Id();
      var kind, body := Exchange(OpenDir(id));
      ReplyBack(p);
      var got := ExpectHandle(kind, body);
      handle := got.value;
    }

    /** READDIR: the directory as it stands, once, and then its end. */
    method ReadDirectory(handle: Name, ghost seen: Dir) returns (r: Result<Option<seq<Listed>>>)
      requires Idle() && Utf8(handle) && |handle| <= 21
      requires handle in Mine().handles && Mine().handles[handle].Listing?
      requires !Mine().handles[handle].read ==> Reached(world, Next()).dir == seen && Tellable(seen)
      modifies this
      ensures Idle() && Mine().handles == old(Mine().handles)[handle := Listing(true)]
      ensures r == Ok(if old(Mine().handles[handle].read) then None else Some(AsListed(NamesOf(seen))))
      ensures asked == old(asked) + [ReadDir(old(nextId), handle)]
    {
      hide Utf8, HandleName, Numbered, Entries, AsListed, NamesOf, ReplyBody, Code, Sorted;
      OthersRun(world, Next().before, me, FRESH_CHAN);
      var q := ReadDir(nextId, handle);
      var p := ReplyTo(world, me, Next(), q);
      var id := Id();
      var kind, body := Exchange(ReadDir(id, handle));
      ReplyBack(p);
      if kind == NAME {
        ListedBack(seen, q.id);
        var names := ParseEntries(body);
        r := if names.Ok? then Ok(Some(names.value)) else Err;
      } else if kind == STATUS {
        var code := Code(body);
        r := if code.Got? && code.value == EOF then Ok(None) else Err;
      } else {
        r := Err;
      }
    }
  }

  /** The world a listing shows: as the first READDIR, the client's second
      request, reaches it. */
  function FirstListed(w: World, me: nat, schedule: seq<Turn>, id: U32): World {
    Reached(Heard(w, me, NextOf(schedule), OpenDir(id)), NextOf(LaterOf(schedule)))
  }

  predicate SameBytes(d: Dir, d': Dir, n: Name) {
    (n in d.files <==> n in d'.files) && BytesAt(d, n) == BytesAt(d', n)
  }
}
