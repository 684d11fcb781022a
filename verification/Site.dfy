/** The directory as the claim sees it, in the client's requests: turns taken
    and given up, files renamed, restored and removed, while other channels'
    requests come in between. */
module Site {
  import opened Wire
  import opened Packets
  import opened Directories
  import opened Runs
  import opened Client

  /** What became of a claimed file that was to go back: back under its
      dropped name, gone, or kept, with whether a file was dropped there since
      and the status the rename was answered with. */
  datatype Restored = Back | Gone | Kept(droppedSince: bool, status: U32)

  /** Short enough for every request made of it. */
  predicate Short(name: Name) {
    Utf8(name) && |name| < 0x7000_0000
  }

  /** The world each of the client's next requests reaches, where the
      requests between change nothing but its own channel. */
  function Reaches(w: World, schedule: seq<Turn>, k: nat): World
    decreases k
  {
    if k == 0 then Reached(w, NextOf(schedule))
    else Reaches(Reached(w, NextOf(schedule)), LaterOf(schedule), k - 1)
  }

  /** The same but for the channel `me`. */
  ghost predicate Like(w: World, w': World, me: nat) {
    w.dir == w'.dir && w.chans - {me} == w'.chans - {me}
  }

  /** What others do does not tell the two apart, */
  lemma LikeRun(w: World, w': World, es: seq<Event>, me: nat)
    requires Like(w, w', me) && forall e :: e in es ==> e.chan != me
    ensures Like(Run(w, es), Run(w', es), me)
  {
    var v, v' := w.(chans := w.chans[me := FRESH_CHAN]), w'.(chans := w'.chans[me := FRESH_CHAN]);
    assert v.chans == (w.chans - {me})[me := FRESH_CHAN] == v'.chans;
    OthersRun(w, es, me, FRESH_CHAN);
    OthersRun(w', es, me, FRESH_CHAN);
    var r, r' := Run(w, es), Run(w', es);
    assert r.chans[me := FRESH_CHAN] - {me} == r.chans - {me};
    assert r'.chans[me := FRESH_CHAN] - {me} == r'.chans - {me};
  }

  /** and neither does a request that changes nothing in the directory. */
  lemma LikeAsked(w: World, w': World, t: Turn, me: nat, q: Request)
    requires Like(w, w', me) && forall e :: e in t.before ==> e.chan != me
    requires Answered(Reached(w, t), Asking(me, t, q)).dir == Reached(w, t).dir
    ensures Like(Reached(w, t), Reached(w', t), me)
    ensures Like(Heard(w, me, t, q), Reached(w', t), me)
  {
    hide Serve;
    LikeRun(w, w', t.before, me);
  }

  lemma StatLike(w: World, w': World, t: Turn, me: nat, id: U32, name: Name)
    requires Like(w, w', me) && forall e :: e in t.before ==> e.chan != me
    ensures Like(Reached(w, t), Reached(w', t), me)
    ensures Like(Heard(w, me, t, Request.Stat(id, name)), Reached(w', t), me)
  {
    LikeAsked(w, w', t, me, Request.Stat(id, name));
  }

  lemma RefusedLike(w: World, t: Turn, me: nat, q: Request)
    requires Heard(w, me, t, q).dir == Reached(w, t).dir
    ensures Like(Heard(w, me, t, q), Reached(w, t), me)
  {
    hide Serve, Run;
    var w' := Reached(w, t);
    var c := Answered(w', Asking(me, t, q)).chan;
    assert w'.chans[me := c] - {me} == w'.chans - {me};
  }

  /** A file the others leave alone is the same whenever the client's next
      three requests reach it. */
  lemma InPeace(schedule: seq<Turn>, w: World, me: nat, n: Name)
    requires Spared(schedule, me, n) && NoWriter(w, n, me)
    requires forall t :: t in schedule ==> Untargeted(t.before, n)
    ensures SameFile(w.dir, Reaches(w, schedule, 0).dir, n)
    ensures SameFile(w.dir, Reaches(w, schedule, 1).dir, n)
    ensures SameFile(w.dir, Reaches(w, schedule, 2).dir, n)
    ensures forall e :: e in NextOf(LaterOf(schedule)).before ==> e.chan != me
    ensures forall e :: e in NextOf(LaterOf(LaterOf(schedule))).before ==> e.chan != me
  {
    var t0, t1, t2 := NextOf(schedule), NextOf(LaterOf(schedule)), NextOf(LaterOf(LaterOf(schedule)));
    assert Peaceful(t0.before, n, me) && Untargeted(t0.before, n);
    assert Peaceful(t1.before, n, me) && Untargeted(t1.before, n);
    assert Peaceful(t2.before, n, me) && Untargeted(t2.before, n);
    hide SameFile, NoWriter, Peaceful, Untargeted, Run;
    PeaceRun(w, t0.before, n, me);
    var w1 := Reached(w, t0);
    PeaceMore(w, w1, t1, me, n);
    PeaceMore(w, Reached(w1, t1), t2, me, n);
  }

  lemma PeaceMore(w: World, w': World, t: Turn, me: nat, n: Name)
    requires SameFile(w.dir, w'.dir, n) && NoWriter(w', n, me)
    requires Peaceful(t.before, n, me) && Untargeted(t.before, n)
    ensures SameFile(w.dir, Reached(w', t).dir, n) && NoWriter(Reached(w', t), n, me)
  {
    PeaceRun(w', t.before, n, me);
  }

  /** What a rename answers, and does. */
  lemma RenameAnswers(w: World, t: Turn, me: nat, id: U32, from: Name, to: Name)
    requires Tidy(Reached(w, t).dir)
    ensures var d, q := Reached(w, t).dir, Request.Rename(id, from, to);
            var p := ReplyTo(w, me, t, q);
            && p.Status? && p.id == id
            && (p == Status(id, OK) <==> from in d.files && to !in d.files)
            && (p != Status(id, OK) ==> Heard(w, me, t, q).dir == d)
            && (p == Status(id, OK) ==>
                  var d' := Heard(w, me, t, q).dir;
                  && from !in d'.files && to in d'.files
                  && d'.files[to] == d.files[from] && Modified(d', to) == Modified(d, from))
            && (to in d.files ==> p == Status(id, FAILURE))
  {
    hide Run;
  }

  /** The status a request was answered with. */
  method StatusOf(s: Sftp, q: Request) returns (r: Result<U32>)
    requires s.Idle() && Writable(q) && Textual(q) && |BodyOf(q)| < U32_MAX
    requires q.Remove? || q.Rename?
    modifies s`world, s`schedule, s`incoming, s`asked
    ensures s.Idle()
    ensures s.world == Heard(old(s.world), s.me, old(s.Next()), q)
    ensures s.schedule == old(s.Later()) && s.asked == old(s.asked) + [q]
    ensures var p := ReplyTo(old(s.world), s.me, old(s.Next()), q);
            p.Status? && r == Ok(p.code)
  {
    hide Numbered, ReplyBody, BodyOf, Textual, Writable, Code;
    var p := ReplyTo(s.world, s.me, s.Next(), q);
    var kind, body := s.Exchange(q);
    ReplyBack(p);
    var code := Code(body);
    r := if kind == STATUS && code.Got? then Ok(code.value) else Err;
  }

  method Rename(s: Sftp, from: Name, to: Name) returns (r: Result<U32>)
    requires s.Idle() && Short(from) && Short(to)
    modifies s
    ensures s.Idle() && s.schedule == old(s.Later())
    ensures var q := Request.Rename(old(s.nextId), from, to);
            && s.world == Heard(old(s.world), s.me, old(s.Next()), q)
            && s.asked == old(s.asked) + [q]
            && ReplyTo(old(s.world), s.me, old(s.Next()), q).Status?
            && r == Ok(ReplyTo(old(s.world), s.me, old(s.Next()), q).code)
  {
    hide Utf8, Numbered;
    var id := s.Id();
    r := StatusOf(s, Request.Rename(id, from, to));
  }

  /** The stamp of `name`: there exactly where the file is. */
  method Stat(s: Sftp, name: Name) returns (r: Result<Option<Stamp>>)
    requires s.Idle() && Short(name)
    modifies s
    ensures s.Idle() && s.schedule == old(s.Later())
    ensures var q := Request.Stat(old(s.nextId), name);
            s.world == Heard(old(s.world), s.me, old(s.Next()), q) && s.asked == old(s.asked) + [q]
    ensures var d := Reached(old(s.world), old(s.Next())).dir;
            && r == Ok(if name in d.files then Some(StampAt(d, name)) else None)
            && (r.value.Some? <==> name in d.files)
            && (r.value.Some? ==> Stamps(r.value.value, d.files, d.written, name))
  {
    hide Utf8, Numbered, ReplyBody, StampOf, Code;
    var id := s.Id();
    var q := Request.Stat(id, name);
    var p := ReplyTo(s.world, s.me, s.Next(), q);
    var kind, body := s.Exchange(q);
    ReplyBack(p);
    if kind == ATTRS {
      var stamp := StampOf(body);
      r := if stamp.Got? then Ok(stamp.value) else Err;
    } else if kind == STATUS {
      var code := Code(body);
      r := if code.Got? && code.value == NO_SUCH_FILE then Ok(None) else Err;
    } else {
      r := Err;
    }
  }

  /** A request of a claimed file's return: the rename, or a STAT. */
  predicate OfReturning(q: Request, claimed: Name, dropped: Name) {
    q.Stat? || (q.Rename? && q.from == claimed && q.to == dropped)
  }

  /** A claimed file returned, its three requests with others' in between that
      leave the claimed name alone. It is back exactly where, as the rename
      was reached, it was there and its dropped name was free, and then with
      its bytes and its time; gone exactly where it was not there; kept
      exactly where both were, and then, as where it is gone, nothing was
      changed but by the others. */
  method Restore(s: Sftp, claimed: Name, dropped: Name) returns (r: Result<Restored>)
    requires s.Idle() && Short(claimed) && Short(dropped) && Tidy(Reached(s.world, s.Next()).dir)
    requires Spared(s.schedule, s.me, claimed) && NoWriter(s.world, claimed, s.me)
    requires forall t :: t in s.schedule ==> Untargeted(t.before, claimed)
    modifies s
    ensures s.Idle() && r.Ok?
    ensures var d := Reached(old(s.world), old(s.Next())).dir;
            && (r.value.Back? <==> claimed in d.files && dropped !in d.files)
            && (r.value.Gone? <==> claimed !in d.files)
            && (r.value.Kept? <==> claimed in d.files && dropped in d.files)
            && (r.value.Back? ==>
                  && claimed !in s.world.dir.files && dropped in s.world.dir.files
                  && s.world.dir.files[dropped] == d.files[claimed]
                  && Modified(s.world.dir, dropped) == Modified(d, claimed))
    ensures r.value.Gone? ==> s.world.dir == Reaches(old(s.world), old(s.schedule), 1).dir
    ensures r.value.Kept? ==> s.world.dir == Reaches(old(s.world), old(s.schedule), 2).dir
    ensures r.value.Kept? ==> SameFile(old(s.world.dir), s.world.dir, claimed)
    ensures r.value.Kept? ==>
              && r.value.status == FAILURE
              && (r.value.droppedSince <==> dropped in Reaches(old(s.world), old(s.schedule), 2).dir.files)
    ensures old(s.asked) <= s.asked && |s.asked| <= |old(s.asked)| + 3
    ensures forall i :: |old(s.asked)| <= i < |s.asked| ==> OfReturning(s.asked[i], claimed, dropped)
  {
    hide Utf8, Heard, ReplyTo, Numbered, NoWriter, Peaceful, Untargeted, Tidy, Run, Modified, BytesAt;
    ghost var w0, t0, t1, t2 := s.world, s.Next(), NextOf(s.Later()), NextOf(LaterOf(s.Later()));
    ghost var w1 := Reached(w0, t0);
    ghost var w2 := Reached(w1, t1);
    InPeace(s.schedule, w0, s.me, claimed);
    RenameAnswers(w0, t0, s.me, s.nextId, claimed, dropped);
    ghost var rename := Request.Rename(s.nextId, claimed, dropped);
    var status := Rename(s, claimed, dropped);
    if status.value == OK {
      return Ok(Back);
    }
    RefusedLike(w0, t0, s.me, rename);
    StatLike(s.world, w1, t1, s.me, s.nextId, claimed);
    var still := Stat(s, claimed);
    if still.value.None? {
      return Ok(Gone);
    }
    StatLike(s.world, w2, t2, s.me, s.nextId, dropped);
    var since := Stat(s, dropped);
    r := Ok(Kept(since.value.Some?, status.value));
  }

  /** The remove of a claimed file or a turn: whether it was there or not, it
      is not there after, and nothing else was touched. */
  method Delete(s: Sftp, name: Name) returns (r: Result<bool>)
    requires s.Idle() && Short(name)
    modifies s
    ensures s.Idle() && s.schedule == old(s.Later()) && r == Ok(true)
    ensures var d := Reached(old(s.world), old(s.Next())).dir;
            s.world.dir == d.(files := d.files - {name}, written := d.written - {name})
    ensures s.asked == old(s.asked) + [Request.Remove(old(s.nextId), name)]
  {
    hide Utf8, Numbered, Run;
    var id := s.Id();
    var status := StatusOf(s, Request.Remove(id, name));
    r := if status == Ok(OK) || status == Ok(NO_SUCH_FILE) then Ok(true) else Err;
  }

  /** The exclusive open is answered with a handle exactly where the name was
      free, and then the file is there, empty, and `me` alone may write it where
      nobody else could. */
  lemma ExclusiveOpens(w: World, t: Turn, me: nat, id: U32, n: Name)
    requires forall e :: e in t.before ==> e.chan != me
    ensures var q := Request.Open(id, n, F_WRITE + F_CREAT + F_EXCL);
            var d, w', h := Reached(w, t).dir, Heard(w, me, t, q), HandleName(104, ChanOf(w, me).next);
            && ReplyTo(w, me, t, q) == (if n in d.files then Status(id, FAILURE) else Handed(id, h))
            && (n in d.files ==> w'.dir == d && ChanOf(w', me).handles == ChanOf(w, me).handles)
            && (n !in d.files ==>
                  && n in w'.dir.files && w'.dir.files[n] == []
                  && ChanOf(w', me).handles == ChanOf(w, me).handles[h := Writing(n)])
            && ChanOf(w', me).next == ChanOf(w, me).next + 1
            && (n !in d.files && NoWriter(Reached(w, t), n, me) ==> NoWriter(w', n, me))
            && w'.dir.ceiling == w.dir.ceiling && w'.dir.telling == w.dir.telling
  {
    hide HandleName, Run;
    OthersRun(w, t.before, me, FRESH_CHAN);
    SettingsKept(w, t.before);
  }

  /** A request of a turn's taking: the exclusive open, the claimant's name
      written at its start, or the close. */
  predicate OfTaking(q: Request, turn: Name, claimant: Bytes) {
    || q.Close?
    || (q.Write? && q.offset == 0 && q.data == claimant)
    || (q.Open? && q.name == turn && q.flags == F_WRITE + F_CREAT + F_EXCL)
  }

  /** The name is written whatever others did: refused exactly where it is too
      long, and else at the start of the turn as it is answered. */
  lemma NameWritten(w: World, t: Turn, me: nat, id: U32, h: Name, n: Name, data: Bytes)
    requires h in ChanOf(w, me).handles && ChanOf(w, me).handles[h] == Writing(n)
    requires forall e :: e in t.before ==> e.chan != me
    ensures var q := Request.Write(id, h, 0, data);
            var w' := Heard(w, me, t, q);
            && (ReplyTo(w, me, t, q) == Status(id, OK) <==> |data| <= w.dir.ceiling)
            && ChanOf(w', me) == ChanOf(w, me)
            && (|data| <= w.dir.ceiling ==> n in w'.dir.files && data <= w'.dir.files[n])
  {
    hide Run, Overlay;
    OthersRun(w, t.before, me, FRESH_CHAN);
    SettingsKept(w, t.before);
    OverlayStart(BytesAt(Reached(w, t).dir, n), data);
  }

  /** Nobody else can write the turn, or touches it once it is there. */
  ghost predicate TakesAlone(w: World, schedule: seq<Turn>, me: nat, turn: Name) {
    Spared(LaterOf(schedule), me, turn) && NoWriter(Reached(w, NextOf(schedule)), turn, me)
  }

  /** Left alone, the turn has exactly the name in it once it was written. */
  lemma AloneWritten(w: World, schedule: seq<Turn>, me: nat, id: U32, h: Name, n: Name, data: Bytes)
    requires Spared(schedule, me, n) && NoWriter(w, n, me) && n in w.dir.files && w.dir.files[n] == []
    requires h in ChanOf(w, me).handles && ChanOf(w, me).handles[h] == Writing(n)
    ensures var w' := Heard(w, me, NextOf(schedule), Request.Write(id, h, 0, data));
            && n in w'.dir.files && w'.dir.files[n] == (if |data| <= w.dir.ceiling then data else [])
            && NoWriter(w', n, me) && Spared(LaterOf(schedule), me, n)
  {
    hide Spared, NoWriter, Heard, ReplyTo;
    TurnSpared(w, schedule, me, n);
    PutWrites(w, NextOf(schedule), me, id, h, n, data);
  }

  lemma AloneClosed(w: World, schedule: seq<Turn>, me: nat, id: U32, h: Name, n: Name)
    requires Spared(schedule, me, n) && NoWriter(w, n, me) && n in w.dir.files
    requires h in ChanOf(w, me).handles && ChanOf(w, me).handles[h] == Writing(n)
    ensures SameFile(w.dir, Heard(w, me, NextOf(schedule), Request.Close(id, h)).dir, n)
    ensures NoWriter(Heard(w, me, NextOf(schedule), Request.Close(id, h)), n, me) && Spared(LaterOf(schedule), me, n)
  {
    hide Spared, NoWriter, Heard, ReplyTo;
    TurnSpared(w, schedule, me, n);
    PutCloses(w, NextOf(schedule), me, id, h, n);
  }

  /** A turn taken, whatever others do in between: false exactly where a file
      of its name was there as the open was reached, and then nothing was done.
      Where the name was free the turn was made, and the claimant's name is at
      its start as its write is answered, as long as that fits; while it does
      not, an error says so. Where nobody else can write the turn or touches
      it, it holds exactly the claimant's name, or, too long, nothing. */
  method TakeTurn(s: Sftp, turn: Name, claimant: Bytes) returns (r: Result<bool>)
    requires s.Idle() && Short(turn) && |claimant| < 0x7000_0000 && s.Mine().next <= U64_MAX
    modifies s
    ensures s.Idle()
    ensures var d := Reached(old(s.world), old(s.Next())).dir;
            && (r == Ok(false) <==> turn in d.files)
            && (turn in d.files ==> s.world.dir == d)
            && (turn !in d.files ==> r == if |claimant| <= d.ceiling then Ok(true) else Err)
            && (turn !in d.files && old(TakesAlone(s.world, s.schedule, s.me, turn)) ==>
                  turn in s.world.dir.files && s.world.dir.files[turn] == if r.Ok? then claimant else [])
    ensures r.Ok? ==> s.Mine().handles == old(s.Mine().handles)
    ensures s.Mine().next == old(s.Mine().next) + 1
    ensures Within(old(s.world.dir)) ==> Within(s.world.dir)
    ensures r == Ok(true) && old(TakesAlone(s.world, s.schedule, s.me, turn)) ==>
              Spared(s.schedule, s.me, turn) && NoWriter(s.world, turn, s.me)
    ensures old(s.asked) <= s.asked
    ensures |s.asked| == |old(s.asked)| + (if r == Ok(false) then 1 else if r == Ok(true) then 3 else 2)
    ensures forall i :: |old(s.asked)| <= i < |s.asked| ==> OfTaking(s.asked[i], turn, claimant)
    ensures r == Ok(true) ==>
              var made := Heard(old(s.world), s.me, old(s.Next()), s.asked[|old(s.asked)|]);
              var written := Heard(made, s.me, NextOf(old(s.Later())), s.asked[|old(s.asked)| + 1]).dir;
              turn in written.files && claimant <= written.files[turn]
  {
    hide Utf8, HandleName, Numbered, NoWriter, Spared, Alone, Heard, ReplyTo, Has, Run, Within;
    ghost var mine, alone := s.Mine(), TakesAlone(s.world, s.schedule, s.me, turn);
    FreshHandle(mine, false);
    SettingsKept(s.world, s.Next().before);
    ExclusiveOpens(s.world, s.Next(), s.me, s.nextId, turn);
    WithinHeard(s.world, s.Next(), s.me, Request.Open(s.nextId, turn, F_WRITE + F_CREAT + F_EXCL));
    var open := s.Open(turn, F_WRITE + F_CREAT + F_EXCL);
    if open.Err? {
      return Ok(false);
    }
    r := PutName(s, open.value, turn, claimant, alone);
    assert mine.handles[open.value := Writing(turn)] - {open.value} == mine.handles;
  }

  /** The name written into the turn just made, and the handle given up. */
  method PutName(s: Sftp, handle: Name, turn: Name, claimant: Bytes, ghost alone: bool) returns (r: Result<bool>)
    requires s.Idle() && Utf8(handle) && |handle| <= 21 && |claimant| < 0x7000_0000
    requires handle in s.Mine().handles && s.Mine().handles[handle] == Writing(turn)
    requires alone ==>
               && Spared(s.schedule, s.me, turn) && NoWriter(s.world, turn, s.me)
               && turn in s.world.dir.files && s.world.dir.files[turn] == []
    modifies s
    ensures s.Idle() && r == if |claimant| <= old(s.world.dir.ceiling) then Ok(true) else Err
    ensures s.Mine().next == old(s.Mine().next)
    ensures r.Ok? ==> s.Mine().handles == old(s.Mine().handles) - {handle}
    ensures Within(old(s.world.dir)) ==> Within(s.world.dir)
    ensures alone ==>
              && Spared(s.schedule, s.me, turn) && NoWriter(s.world, turn, s.me)
              && turn in s.world.dir.files && s.world.dir.files[turn] == if r.Ok? then claimant else []
    ensures old(s.asked) <= s.asked && |s.asked| == |old(s.asked)| + (if r.Ok? then 2 else 1)
    ensures forall i :: |old(s.asked)| <= i < |s.asked| ==> OfTaking(s.asked[i], turn, claimant)
    ensures r.Ok? ==>
              var written := Heard(old(s.world), s.me, old(s.Next()), s.asked[|old(s.asked)|]).dir;
              turn in written.files && claimant <= written.files[turn]
  {
    hide Utf8, Numbered, NoWriter, Spared, Heard, ReplyTo, Run, Within;
    NameWritten(s.world, s.Next(), s.me, s.nextId, handle, turn, claimant);
    WithinHeard(s.world, s.Next(), s.me, Request.Write(s.nextId, handle, 0, claimant));
    if alone {
      AloneWritten(s.world, s.schedule, s.me, s.nextId, handle, turn, claimant);
    }
    var id := s.Id();
    var written := s.Ask(Request.Write(id, handle, 0, claimant));
    if written.Err? {
      return Err;
    }
    if alone {
      AloneClosed(s.world, s.schedule, s.me, s.nextId, handle, turn);
    }
    GivesUp(s.world, s.Next(), s.me, s.nextId, handle);
    WithinHeard(s.world, s.Next(), s.me, Request.Close(s.nextId, handle));
    var closed := s.Close(handle);
    r := Ok(true);
  }

  /** Whatever is asked, no file is longer than the far end holds. */
  lemma WithinHeard(w: World, t: Turn, me: nat, q: Request)
    ensures Within(w.dir) ==> Within(Heard(w, me, t, q).dir)
  {
    hide Step, Run, Within;
    if Within(w.dir) {
      WithinRun(w, t.before);
      WithinStep(Reached(w, t), Asking(me, t, q));
    }
  }

  // ------------------------------------------- a turn read while it changes hands

  /** What is left of the schedule after `k` of the client's requests. */
  function Rest(schedule: seq<Turn>, k: nat): seq<Turn> {
    if k == 0 then schedule else Rest(LaterOf(schedule), k - 1)
  }

  lemma {:induction false} ReachesNext(w: World, schedule: seq<Turn>, k: nat)
    ensures Rest(schedule, k + 1) == LaterOf(Rest(schedule, k))
    ensures Reaches(w, schedule, k + 1) == Reached(Reaches(w, schedule, k), NextOf(Rest(schedule, k + 1)))
    decreases k
  {
    hide Reached;
    if k > 0 {
      ReachesNext(Reached(w, NextOf(schedule)), LaterOf(schedule), k - 1);
    } else {
      assert Rest(schedule, 1) == Rest(LaterOf(schedule), 0);
      assert Reaches(w, schedule, 1) == Reaches(Reached(w, NextOf(schedule)), LaterOf(schedule), 0);
    }
  }

  /** What the first `k` READs behind the open find under `n`. */
  function Finds(w: World, schedule: seq<Turn>, n: Name, k: nat): (found: seq<Bytes>)
    ensures |found| == k
  {
    if k == 0 then [] else Finds(w, schedule, n, k - 1) + [BytesAt(Reaches(w, schedule, k).dir, n)]
  }

  /** What is read once `k` READs were answered. */
  function TextAfter(w: World, schedule: seq<Turn>, n: Name, k: nat): Bytes {
    Pieced(Finds(w, schedule, n, k))
  }

  lemma TextNext(w: World, schedule: seq<Turn>, n: Name, k: nat)
    ensures TextAfter(w, schedule, n, k + 1) ==
            ReadOn(TextAfter(w, schedule, n, k), BytesAt(Reaches(w, schedule, k + 1).dir, n))
  {
    var found := Finds(w, schedule, n, k + 1);
    assert found[..k] == Finds(w, schedule, n, k);
  }

  /** The READ behind the first `k` finds nothing more. */
  predicate AtEnd(w: World, schedule: seq<Turn>, n: Name, k: nat) {
    |BytesAt(Reaches(w, schedule, k + 1).dir, n)| <= |TextAfter(w, schedule, n, k)|
  }

  /** `k` READs give something, and the one behind them is the first at an
      end: so the reading goes. */
  ghost predicate EndsAfter(w: World, schedule: seq<Turn>, n: Name, k: nat) {
    AtEnd(w, schedule, n, k) && forall j: nat :: j < k ==> !AtEnd(w, schedule, n, j)
  }

  /** The open of a file to read it, the directory as it was. */
  lemma OpenLike(w: World, t: Turn, me: nat, id: U32, n: Name)
    requires Within(w.dir) && forall e :: e in t.before ==> e.chan != me
    ensures var q := Request.Open(id, n, F_READ);
            var v, w', h := Reached(w, t), Heard(w, me, t, q), HandleName(104, ChanOf(w, me).next);
            && Within(v.dir) && Like(w', v, me)
            && ReplyTo(w, me, t, q) == (if n in v.dir.files then Handed(id, h) else Status(id, NO_SUCH_FILE))
            && ChanOf(w', me).handles ==
               (if n in v.dir.files then ChanOf(w, me).handles[h := Reading(n)] else ChanOf(w, me).handles)
  {
    hide Run, HandleName;
    OthersRun(w, t.before, me, FRESH_CHAN);
    WithinRun(w, t.before);
    RefusedLike(w, t, me, Request.Open(id, n, F_READ));
  }

  /** A READ where what was had ends gives more of the file as it then is. */
  lemma ReadLike(w: World, v: World, t: Turn, me: nat, id: U32, h: Name, n: Name, had: Bytes)
    requires Like(w, v, me) && Within(w.dir) && forall e :: e in t.before ==> e.chan != me
    requires h in ChanOf(w, me).handles && ChanOf(w, me).handles[h] == Reading(n) && |had| <= w.dir.ceiling
    ensures var q := Request.Read(id, h, |had|, CHUNK);
            var v', w', p := Reached(v, t), Heard(w, me, t, q), ReplyTo(w, me, t, q);
            var file := BytesAt(v'.dir, n);
            && Within(v'.dir) && v'.dir.ceiling == v.dir.ceiling && Like(w', v', me)
            && ChanOf(w', me) == ChanOf(w, me) && |ReadOn(had, file)| <= v'.dir.ceiling
            && (if |had| < |file| then p.Data? && had + p.data == ReadOn(had, file) else p == Status(id, EOF))
  {
    hide Run;
    OthersRun(w, t.before, me, FRESH_CHAN);
    WithinRun(v, t.before);
    LikeAsked(w, v, t, me, Request.Read(id, h, |had|, CHUNK));
  }

  lemma CloseLike(w: World, v: World, t: Turn, me: nat, id: U32, h: Name, n: Name)
    requires Like(w, v, me) && forall e :: e in t.before ==> e.chan != me
    requires h in ChanOf(w, me).handles && ChanOf(w, me).handles[h] == Reading(n)
    ensures var w' := Heard(w, me, t, Request.Close(id, h));
            Like(w', Reached(v, t), me) && ChanOf(w', me).handles == ChanOf(w, me).handles - {h}
  {
    hide Run;
    OthersRun(w, t.before, me, FRESH_CHAN);
    LikeAsked(w, v, t, me, Request.Close(id, h));
  }

  /** The whole of a small file read while others do what they like: nothing
      where it was not there as the open was reached, else what the READs, each
      at its moment, found, up to the first that found no more. The client's
      own requests change nothing. */
  method ReadSmall(s: Sftp, name: Name) returns (r: Result<Option<Bytes>>)
    requires s.Idle() && Short(name) && s.Mine().next <= U64_MAX && Within(s.world.dir)
    modifies s
    ensures s.Idle() && s.Mine().handles == old(s.Mine().handles) && r.Ok?
    ensures old(s.asked) < s.asked
    ensures s.world.dir == Reaches(old(s.world), old(s.schedule), |s.asked| - |old(s.asked)| - 1).dir
    ensures r.value.Some? <==> name in Reaches(old(s.world), old(s.schedule), 0).dir.files
    ensures r.value.None? ==> |s.asked| == |old(s.asked)| + 1
    ensures OnlyLooks(old(s.asked), s.asked)
    ensures r.value.Some? ==>
              var k := |s.asked| - |old(s.asked)| - 3;
              && k >= 0 && EndsAfter(old(s.world), old(s.schedule), name, k)
              && r.value.value == TextAfter(old(s.world), old(s.schedule), name, k)
  {
    hide Utf8, HandleName, Numbered, Heard, ReplyTo, Has, Run, Within, Like, AtEnd, Finds, Reached;
    ghost var w0, schedule0, mine := s.world, s.schedule, s.Mine();
    FreshHandle(mine, false);
    OpenLike(w0, s.Next(), s.me, s.nextId, name);
    var open := s.Open(name, F_READ);
    if open.Err? {
      LikeDir(s.world, Reaches(w0, schedule0, 0), s.me);
      return Ok(None);
    }
    var handle := open.value;
    LikeDir(s.world, Reaches(w0, schedule0, 0), s.me);
    var whole := ReadOut(s, handle, name, w0, schedule0);
    ghost var k := |s.asked| - |old(s.asked)| - 1;
    ReachesNext(w0, schedule0, k);
    CloseLike(s.world, Reaches(w0, schedule0, k), s.Next(), s.me, s.nextId, handle, name);
    var closed := s.Close(handle);
    LikeDir(s.world, Reaches(w0, schedule0, k + 1), s.me);
    assert mine.handles[handle := Reading(name)] - {handle} == mine.handles;
    r := Ok(Some(whole));
  }

  lemma QuietReached(w: World)
    ensures Reached(w, QUIET) == w
  {
  }

  lemma LikeDir(w: World, w': World, me: nat)
    requires Like(w, w', me)
    ensures w.dir == w'.dir
  {
  }

  /** READ after READ of an open handle, up to the first that finds no more. */
  method ReadOut(s: Sftp, handle: Name, name: Name, ghost w0: World, ghost schedule0: seq<Turn>) returns (whole: Bytes)
    requires s.Idle() && Utf8(handle) && |handle| <= 21
    requires handle in s.Mine().handles && s.Mine().handles[handle] == Reading(name)
    requires s.schedule == Rest(schedule0, 1)
    requires Like(s.world, Reaches(w0, schedule0, 0), s.me) && Within(s.world.dir)
    modifies s
    ensures s.Idle() && s.Mine().handles == old(s.Mine().handles)
    ensures old(s.asked) < s.asked && OnlyLooks(old(s.asked), s.asked)
    ensures var k := |s.asked| - |old(s.asked)|;
            && s.schedule == Rest(schedule0, k + 1) && Like(s.world, Reaches(w0, schedule0, k), s.me)
            && EndsAfter(w0, schedule0, name, k - 1) && whole == TextAfter(w0, schedule0, name, k - 1)
  {
    hide Utf8, Numbered, Heard, ReplyTo, Run, Within, Like, Finds, Reached, Reaches, Rest;
    var more := true;
    ghost var k := 0;
    whole := [];
    while more
      invariant s.Idle() && s.Mine().handles == old(s.Mine().handles)
      invariant OnlyLooks(old(s.asked), s.asked) && |s.asked| == |old(s.asked)| + k
      invariant s.schedule == Rest(schedule0, k + 1) && Like(s.world, Reaches(w0, schedule0, k), s.me)
      invariant Within(s.world.dir) && |whole| <= s.world.dir.ceiling
      invariant more ==> whole == TextAfter(w0, schedule0, name, k)
      invariant more ==> forall j: nat :: j < k ==> !AtEnd(w0, schedule0, name, j)
      invariant !more ==> k > 0 && whole == TextAfter(w0, schedule0, name, k - 1)
      invariant !more ==> EndsAfter(w0, schedule0, name, k - 1)
      decreases more, |s.schedule|, Max(0, |BytesAt(s.world.dir, name)| - |whole|)
    {
      LikeDir(s.world, Reaches(w0, schedule0, k), s.me);
      QuietReached(Reaches(w0, schedule0, k));
      ReachesNext(w0, schedule0, k);
      ReachesNext(w0, schedule0, k + 1);
      TextNext(w0, schedule0, name, k);
      ReadLike(s.world, Reaches(w0, schedule0, k), s.Next(), s.me, s.nextId, handle, name, whole);
      var chunk := s.ReadAt(handle, |whole|);
      k := k + 1;
      LikeDir(s.world, Reaches(w0, schedule0, k), s.me);
      if chunk.value.Some? {
        whole := whole + chunk.value.value;
      } else {
        more := false;
      }
    }
  }

  // ------------------------------------------------------- and one left in peace

  lemma {:induction false} InPeaceAlways(w: World, schedule: seq<Turn>, me: nat, n: Name, k: nat)
    requires Spared(schedule, me, n) && Alone(w, NextOf(schedule), me, n)
    requires k == 0 || n in w.dir.files
    ensures SameFile(w.dir, Reaches(w, schedule, k).dir, n)
    decreases k
  {
    AloneReached(w, NextOf(schedule), me, n);
    if k > 0 {
      var w' := Reached(w, NextOf(schedule));
      TurnSpared(w', LaterOf(schedule), me, n);
      InPeaceAlways(w', LaterOf(schedule), me, n, k - 1);
    }
  }

  lemma {:induction false} TextOfOne(w: World, schedule: seq<Turn>, me: nat, n: Name, k: nat)
    requires Spared(schedule, me, n) && Alone(w, NextOf(schedule), me, n) && n in w.dir.files
    ensures TextAfter(w, schedule, n, k) == w.dir.files[n][..Min(|w.dir.files[n]|, k * CHUNK)]
    decreases k
  {
    hide Spared, Alone, Reaches;
    if k > 0 {
      TextNext(w, schedule, n, k - 1);
      TextOfOne(w, schedule, me, n, k - 1);
      InPeaceAlways(w, schedule, me, n, k);
    }
  }

  /** A file nobody touches is read as it is, in as many READs as it has
      chunks and one more. */
  lemma ReadInPeace(w: World, schedule: seq<Turn>, me: nat, n: Name, k: nat)
    requires Spared(schedule, me, n) && Alone(w, NextOf(schedule), me, n) && n in w.dir.files
    requires EndsAfter(w, schedule, n, k)
    ensures TextAfter(w, schedule, n, k) == w.dir.files[n] && k == (|w.dir.files[n]| + CHUNK - 1) / CHUNK
  {
    hide Spared, Alone, Reaches, TextAfter;
    TextOfOne(w, schedule, me, n, k);
    InPeaceAlways(w, schedule, me, n, k + 1);
    if k > 0 {
      assert !AtEnd(w, schedule, n, k - 1);
      TextOfOne(w, schedule, me, n, k - 1);
      InPeaceAlways(w, schedule, me, n, k);
    }
  }

  /** Who holds a turn, asked while turns change hands: nobody where it was not
      there as the open was reached, else whoever's name the READs' answers
      come to, where that is text. Where nobody touches the turn meanwhile
      that is what it holds, in one READ for each chunk of it and one more. */
  method Holder(s: Sftp, turn: Name) returns (r: Result<Option<Name>>)
    requires s.Idle() && Short(turn) && s.Mine().next <= U64_MAX && Within(s.world.dir)
    modifies s
    ensures s.Idle() && s.Mine().handles == old(s.Mine().handles) && r.Ok?
    ensures old(s.asked) < s.asked && OnlyLooks(old(s.asked), s.asked)
    ensures s.world.dir == Reaches(old(s.world), old(s.schedule), |s.asked| - |old(s.asked)| - 1).dir
    ensures turn !in Reaches(old(s.world), old(s.schedule), 0).dir.files ==> r == Ok(None)
    ensures turn in Reaches(old(s.world), old(s.schedule), 0).dir.files ==>
              var k := |s.asked| - |old(s.asked)| - 3;
              && k >= 0 && EndsAfter(old(s.world), old(s.schedule), turn, k)
              && var text := TextAfter(old(s.world), old(s.schedule), turn, k);
                 r == Ok(if Utf8(text) then Some(text) else None)
    ensures old(Spared(s.schedule, s.me, turn) && Alone(s.world, s.Next(), s.me, turn)) ==>
              var d := old(s.world.dir);
              && r == Ok(if turn in d.files && Utf8(d.files[turn]) then Some(d.files[turn]) else None)
              && SameBytes(d, s.world.dir, turn)
              && (turn in d.files ==>
                    |s.asked| == |old(s.asked)| + 1 + ((|d.files[turn]| + CHUNK - 1) / CHUNK + 1) + 1)
  {
    hide Numbered, Spared, Alone, Reaches, EndsAfter, TextAfter, Within, Utf8;
    ghost var w0, schedule0, me := s.world, s.schedule, s.me;
    var whole := ReadSmall(s, turn);
    r := Ok(if whole.value.Some? && Utf8(whole.value.value) then Some(whole.value.value) else None);
    if Spared(schedule0, me, turn) && Alone(w0, NextOf(schedule0), me, turn) {
      InPeaceAlways(w0, schedule0, me, turn, 0);
      if turn in w0.dir.files {
        ReadInPeace(w0, schedule0, me, turn, |s.asked| - |old(s.asked)| - 3);
        InPeaceAlways(w0, schedule0, me, turn, |s.asked| - |old(s.asked)| - 1);
      }
    }
  }

  /** A turn taken and left alone is its claimant's: whoever asks reads the name
      that was written, where that is text. */
  method TakenThenHeld(s: Sftp, turn: Name, claimant: Bytes) returns (took: Result<bool>, holder: Result<Option<Name>>)
    requires s.Idle() && Short(turn) && |claimant| < 0x7000_0000 && s.Mine().next < U64_MAX && Within(s.world.dir)
    requires TakesAlone(s.world, s.schedule, s.me, turn)
    modifies s
    ensures s.Idle()
    ensures took == Ok(true) <==>
              turn !in Reached(old(s.world), old(s.Next())).dir.files && |claimant| <= old(s.world.dir.ceiling)
    ensures took == Ok(true) ==> holder == Ok(if Utf8(claimant) then Some(claimant) else None)
  {
    hide Utf8, Numbered, Spared, NoWriter, Alone, TakesAlone, Within, Reaches, EndsAfter, TextAfter;
    SettingsKept(s.world, s.Next().before);
    took := TakeTurn(s, turn, claimant);
    holder := Ok(None);
    if took == Ok(true) {
      TurnSpared(s.world, s.schedule, s.me, turn);
      holder := Holder(s, turn);
    }
  }
}
