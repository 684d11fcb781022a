/** Runs of the far end: any number of channels, their requests interleaved
    one at a time in any order, the clock free to show anything at each. */
module Runs {
  import opened Wire
  import opened Packets
  import opened Directories

  /** The directory, and the handle table of every open channel. */
  datatype World = World(dir: Dir, chans: map<nat, Chan>)

  /** A request over a channel with the clock at `now`, or a channel ended. */
  datatype Event = Ask(chan: nat, q: Request, now: U32) | Hangup(chan: nat)

  function ChanOf(w: World, c: nat): Chan {
    if c in w.chans then w.chans[c] else FRESH_CHAN
  }

  function Answered(w: World, e: Event): Outcome
    requires e.Ask?
  {
    Serve(w.dir, ChanOf(w, e.chan), e.q, e.now)
  }

  function Step(w: World, e: Event): World {
    match e
    case Ask(c, q, now) => var out := Answered(w, e); World(out.dir, w.chans[c := out.chan])
    case Hangup(c) => w.(chans := w.chans - {c})
  }

  function Run(w: World, es: seq<Event>): World
    decreases |es|
  {
    if |es| == 0 then w else Step(Run(w, es[..|es| - 1]), es[|es| - 1])
  }

  /** The world before the `i`-th event. */
  function At(w: World, es: seq<Event>, i: nat): World
    requires i <= |es|
  {
    Run(w, es[..i])
  }

  lemma AtNext(w: World, es: seq<Event>, i: nat)
    requires i < |es|
    ensures At(w, es, i + 1) == Step(At(w, es, i), es[i])
  {
    assert es[..i + 1][..i] == es[..i];
  }

  lemma AtEnds(w: World, es: seq<Event>)
    ensures At(w, es, 0) == w && At(w, es, |es|) == Run(w, es)
  {
    assert es[..0] == [] && es[..|es|] == es;
  }

  lemma {:induction false} RunAppend(w: World, xs: seq<Event>, ys: seq<Event>)
    ensures Run(w, xs + ys) == Run(Run(w, xs), ys)
    decreases |ys|
  {
    if |ys| == 0 {
      assert xs + ys == xs;
    } else {
      var last := |ys| - 1;
      assert (xs + ys)[..|xs + ys| - 1] == xs + ys[..last];
      RunAppend(w, xs, ys[..last]);
    }
  }

  // ------------------------------------------------- names coming and going

  /** A REMOVE of `n`, or a RENAME away from it, that succeeded. */
  predicate Gone(w: World, e: Event, n: Name) {
    && e.Ask?
    && ((e.q.Remove? && e.q.name == n) || (e.q.Rename? && e.q.from == n))
    && Answered(w, e).reply == Status(e.q.id, OK)
  }

  /** `n` made where it was not: by an open for writing, by a write through a
      handle opened under it, or by a rename onto it. */
  predicate Created(w: World, e: Event, n: Name) {
    && e.Ask? && n !in w.dir.files
    && ( || (e.q.Open? && e.q.name == n && Has(e.q.flags, F_WRITE))
         || (e.q.Write? && WritesTo(w, e, n) && Answered(w, e).reply == Status(e.q.id, OK))
         || (e.q.Rename? && e.q.to == n && Answered(w, e).reply == Status(e.q.id, OK)))
  }

  /** The handle of the WRITE `e` was opened under `n`. */
  predicate WritesTo(w: World, e: Event, n: Name) {
    && e.Ask? && e.q.Write?
    && e.q.handle in ChanOf(w, e.chan).handles
    && ChanOf(w, e.chan).handles[e.q.handle] == Writing(n)
  }

  /** A name disappears exactly by a successful REMOVE or RENAME away, and
      appears exactly by being created. */
  lemma Presence(w: World, e: Event, n: Name)
    ensures n in w.dir.files && n !in Step(w, e).dir.files <==> n in w.dir.files && Gone(w, e, n)
    ensures n !in w.dir.files && n in Step(w, e).dir.files <==> Created(w, e, n)
  {
    hide NamesOf, HandleName, Overlay, Touched, Has, StampAt;
    assert forall d: Dir, name: Name, now: U32 {:trigger Touched(d, name, now)} ::
      Touched(d, name, now).files == d.files by { TouchedFiles(); }
  }

  lemma TouchedFiles()
    ensures forall d: Dir, name: Name, now: U32 {:trigger Touched(d, name, now)} ::
              Touched(d, name, now).files == d.files
  {
  }

  lemma {:induction false} Vanished(w: World, es: seq<Event>, lo: nat, hi: nat, n: Name) returns (k: nat)
    requires lo <= hi <= |es|
    requires n in At(w, es, lo).dir.files && n !in At(w, es, hi).dir.files
    ensures lo <= k < hi && Gone(At(w, es, k), es[k], n)
    decreases hi
  {
    AtNext(w, es, hi - 1);
    if n in At(w, es, hi - 1).dir.files {
      Presence(At(w, es, hi - 1), es[hi - 1], n);
      k := hi - 1;
    } else {
      k := Vanished(w, es, lo, hi - 1, n);
    }
  }

  lemma {:induction false} Appeared(w: World, es: seq<Event>, lo: nat, hi: nat, n: Name) returns (k: nat)
    requires lo <= hi <= |es|
    requires n !in At(w, es, lo).dir.files && n in At(w, es, hi).dir.files
    ensures lo <= k < hi && Created(At(w, es, k), es[k], n)
    decreases hi
  {
    AtNext(w, es, hi - 1);
    if n !in At(w, es, hi - 1).dir.files {
      Presence(At(w, es, hi - 1), es[hi - 1], n);
      k := hi - 1;
    } else {
      k := Appeared(w, es, lo, hi - 1, n);
    }
  }

  /** An open with EXCL that handed out a handle: a turn taken. */
  predicate TurnTaken(w: World, e: Event, n: Name) {
    && e.Ask? && e.q.Open? && e.q.name == n
    && Has(e.q.flags, F_WRITE) && Has(e.q.flags, F_EXCL)
    && Answered(w, e).reply.Handed?
  }

  /** Between two turns of one name it was given up. */
  lemma ExclusiveTurns(w: World, es: seq<Event>, i: nat, j: nat, n: Name) returns (k: nat)
    requires i < j < |es|
    requires TurnTaken(At(w, es, i), es[i], n) && TurnTaken(At(w, es, j), es[j], n)
    ensures i < k < j && Gone(At(w, es, k), es[k], n)
  {
    AtNext(w, es, i);
    k := Vanished(w, es, i + 1, j, n);
  }

  /** Between two claims of one name it was created anew. */
  lemma ClaimedOnce(w: World, es: seq<Event>, i: nat, j: nat, n: Name) returns (k: nat)
    requires i < j < |es|
    requires es[i].Ask? && es[i].q.Rename? && Gone(At(w, es, i), es[i], n)
    requires es[j].Ask? && es[j].q.Rename? && Gone(At(w, es, j), es[j], n)
    ensures i < k < j && Created(At(w, es, k), es[k], n)
  {
    AtNext(w, es, i);
    Presence(At(w, es, i), es[i], n);
    k := Appeared(w, es, i + 1, j, n);
  }

  // ---------------------------------------------------- a file left in peace

  /** No channel but `me` holds a handle to write `n`. */
  ghost predicate NoWriter(w: World, n: Name, me: int) {
    forall c, h :: c in w.chans && c != me && h in w.chans[c].handles ==> w.chans[c].handles[h] != Writing(n)
  }

  /** The event may change the file under `n`, or open it for writing. */
  predicate Disturbs(e: Event, n: Name) {
    e.Ask? && ( || (e.q.Open? && e.q.name == n && Has(e.q.flags, F_WRITE) && !Has(e.q.flags, F_EXCL))
                || (e.q.Remove? && e.q.name == n)
                || (e.q.Rename? && e.q.from == n))
  }

  /** The event may make a file under `n` where there is none, and is refused
      where there is one. */
  predicate Targets(e: Event, n: Name) {
    e.Ask? && ( || (e.q.Open? && e.q.name == n && Has(e.q.flags, F_WRITE) && Has(e.q.flags, F_EXCL))
                || (e.q.Rename? && e.q.to == n))
  }

  /** The same bytes and the same time under `n`, or nothing in both. */
  predicate SameFile(d: Dir, d': Dir, n: Name) {
    && (n in d.files <==> n in d'.files)
    && BytesAt(d, n) == BytesAt(d', n)
    && Modified(d, n) == Modified(d', n)
  }

  /** A channel with no handle to write `n` answers a request that does not
      disturb it with the file kept, */
  lemma PeaceFile(d: Dir, c: Chan, e: Event, n: Name)
    requires e.Ask? && !Disturbs(e, n)
    requires forall h :: h in c.handles ==> c.handles[h] != Writing(n)
    requires n in d.files || !Targets(e, n)
    ensures SameFile(d, Serve(d, c, e.q, e.now).dir, n)
  {
    hide NamesOf, HandleName, Overlay, Sorted, Has, StampAt;
  }

  /** and still has no such handle. */
  lemma PeaceHandles(d: Dir, c: Chan, e: Event, n: Name)
    requires e.Ask? && !Disturbs(e, n)
    requires forall h :: h in c.handles ==> c.handles[h] != Writing(n)
    requires n in d.files || !Targets(e, n)
    ensures var after := Serve(d, c, e.q, e.now).chan;
            forall h :: h in after.handles ==> after.handles[h] != Writing(n)
  {
    hide NamesOf, HandleName, Overlay, Sorted, Has, StampAt, Touched;
  }

  /** How often the owner was told of `n`. */
  ghost function Tellings(d: Dir, n: Name): nat {
    multiset(d.told)[n]
  }

  /** and does not tell of it. */
  lemma PeaceTellings(d: Dir, c: Chan, q: Request, now: U32, n: Name)
    requires forall h :: h in c.handles ==> c.handles[h] != Writing(n)
    ensures Tellings(Serve(d, c, q, now).dir, n) == Tellings(d, n)
  {
    hide NamesOf, HandleName, Overlay, Sorted, Has, StampAt;
  }

  lemma PeaceStep(w: World, e: Event, n: Name, me: int)
    requires e.chan != me && NoWriter(w, n, me) && !Disturbs(e, n)
    requires n in w.dir.files || !Targets(e, n)
    ensures SameFile(w.dir, Step(w, e).dir, n)
    ensures NoWriter(Step(w, e), n, me) && Tellings(Step(w, e).dir, n) == Tellings(w.dir, n)
    ensures me >= 0 ==> ChanOf(Step(w, e), me) == ChanOf(w, me)
  {
    hide Serve, SameFile, Tellings;
    if e.Ask? {
      PeaceTellings(w.dir, ChanOf(w, e.chan), e.q, e.now, n);
      PeaceFile(w.dir, ChanOf(w, e.chan), e, n);
      PeaceHandles(w.dir, ChanOf(w, e.chan), e, n);
    } else {
      assert SameFile(w.dir, w.dir, n) by { SameFileAsItself(w.dir, n); }
    }
  }

  lemma SameFileAsItself(d: Dir, n: Name)
    ensures SameFile(d, d, n)
  {
  }

  ghost predicate Peaceful(es: seq<Event>, n: Name, me: int) {
    forall e :: e in es ==> e.chan != me && !Disturbs(e, n)
  }

  ghost predicate Untargeted(es: seq<Event>, n: Name) {
    forall e :: e in es ==> !Targets(e, n)
  }

  /** While nobody disturbs it, whatever else happens leaves the file, its
      time, and the channel `me` exactly as they were. */
  lemma {:induction false} PeaceRun(w: World, es: seq<Event>, n: Name, me: int)
    requires NoWriter(w, n, me) && Peaceful(es, n, me)
    requires n in w.dir.files || Untargeted(es, n)
    ensures SameFile(w.dir, Run(w, es).dir, n)
    ensures NoWriter(Run(w, es), n, me) && Tellings(Run(w, es).dir, n) == Tellings(w.dir, n)
    ensures me >= 0 ==> ChanOf(Run(w, es), me) == ChanOf(w, me)
    decreases |es|
  {
    if |es| > 0 {
      var last := |es| - 1;
      assert es[last] in es;
      PeaceRun(w, es[..last], n, me);
      PeaceStep(Run(w, es[..last]), es[last], n, me);
    }
  }

  /** A claimed file is frozen: once renamed to a name nobody holds a handle
      to write, no run that leaves that name alone changes its bytes or its
      time, whatever is written through handles opened before. */
  lemma ClaimedFrozen(w: World, claim: Event, es: seq<Event>, dropped: Name, claimed: Name)
    requires claim.Ask? && claim.q.Rename? && claim.q.from == dropped && claim.q.to == claimed
    requires Gone(w, claim, dropped)
    requires NoWriter(w, claimed, -1) && Peaceful(es, claimed, -1)
    ensures var d := Run(w, [claim] + es).dir;
            && claimed in d.files && d.files[claimed] == BytesAt(w.dir, dropped)
            && (claimed !in w.dir.written ==> Modified(d, claimed) == Modified(w.dir, dropped))
  {
    RunAppend(w, [claim], es);
    assert [claim][..0] == [];
    assert Run(w, [claim]) == Step(Run(w, []), claim);
    var w' := Step(w, claim);
    assert NoWriter(w', claimed, -1) by {
      assert ChanOf(w, claim.chan).handles == w'.chans[claim.chan].handles;
    }
    PeaceRun(w', es, claimed, -1);
  }

  /** A write that comes late, through a handle opened under the dropped
      name, makes a new file there of zeros and its data, and leaves the
      claimed one alone. */
  lemma LateWrite(w: World, claim: Event, late: Event, dropped: Name, claimed: Name)
    requires claim.Ask? && claim.q.Rename? && claim.q.from == dropped && claim.q.to == claimed
    requires Gone(w, claim, dropped)
    requires WritesTo(w, late, dropped) && late.q.offset + |late.q.data| <= w.dir.ceiling
    ensures var w' := Step(w, claim);
            && Created(w', late, dropped)
            && BytesAt(Step(w', late).dir, dropped) == seq(late.q.offset, _ => 0) + late.q.data
            && BytesAt(Step(w', late).dir, claimed) == BytesAt(w.dir, dropped)
  {
    var w' := Step(w, claim);
    assert ChanOf(w', late.chan) == ChanOf(w, late.chan);
    assert Overlay([], late.q.offset, late.q.data) == seq(late.q.offset, _ => 0) + late.q.data;
  }

  /** The handle `h` of channel `c` writes the file `n`. */
  predicate HoldsWriter(w: World, c: nat, h: Name, n: Name) {
    h in ChanOf(w, c).handles && ChanOf(w, c).handles[h] == Writing(n)
  }

  function Taking(c: nat, t: Name): Event {
    Ask(c, Request.Open(0, t, F_WRITE + F_CREAT + F_EXCL), 0)
  }

  lemma TakingTakes(w: World, c: nat, t: Name)
    requires t !in w.dir.files
    ensures var w' := Step(w, Taking(c, t));
            && TurnTaken(w, Taking(c, t), t) && BytesAt(w'.dir, t) == []
            && HoldsWriter(w', c, HandleName(104, ChanOf(w, c).next), t)
            && w'.dir.ceiling == w.dir.ceiling && forall x :: x != c ==> ChanOf(w', x) == ChanOf(w, x)
  {
    hide HandleName;
  }

  lemma WritingWrites(w: World, c: nat, h: Name, t: Name, data: Bytes)
    requires HoldsWriter(w, c, h, t) && |data| <= w.dir.ceiling
    ensures var w', was := Step(w, Ask(c, Request.Write(0, h, 0, data), 0)), BytesAt(w.dir, t);
            && BytesAt(w'.dir, t) == data + (if |data| < |was| then was[|data|..] else [])
            && w'.dir.ceiling == w.dir.ceiling && forall x :: ChanOf(w', x) == ChanOf(w, x)
  {
    hide Overlay;
    OverlayStart(BytesAt(w.dir, t), data);
  }

  /** So it is with a turn. A claimant's name that comes late, through the
      handle of a turn given up since and taken by another, is written over
      the other's name. */
  lemma LateName(w: World, c: nat, d: nat, t: Name, a: Bytes, b: Bytes)
    requires c != d && t !in w.dir.files && |a| <= w.dir.ceiling && |b| <= w.dir.ceiling
    ensures var mine, other := HandleName(104, ChanOf(w, c).next), HandleName(104, ChanOf(w, d).next);
            var es := [Taking(c, t), Ask(c, Request.Remove(0, t), 0), Taking(d, t),
                       Ask(d, Request.Write(0, other, 0, b), 0), Ask(c, Request.Write(0, mine, 0, a), 0)];
            && TurnTaken(At(w, es, 0), es[0], t) && TurnTaken(At(w, es, 2), es[2], t)
            && BytesAt(At(w, es, 4).dir, t) == b
            && BytesAt(At(w, es, 5).dir, t) == a + if |a| < |b| then b[|a|..] else []
  {
    hide Run, Step, HandleName, Taking, TurnTaken;
    var mine, other := HandleName(104, ChanOf(w, c).next), HandleName(104, ChanOf(w, d).next);
    var es := [Taking(c, t), Ask(c, Request.Remove(0, t), 0), Taking(d, t),
               Ask(d, Request.Write(0, other, 0, b), 0), Ask(c, Request.Write(0, mine, 0, a), 0)];
    AtEnds(w, es);
    AtNext(w, es, 0);
    AtNext(w, es, 1);
    AtNext(w, es, 2);
    AtNext(w, es, 3);
    AtNext(w, es, 4);
    TakingTakes(w, c, t);
    RemovingRemoves(At(w, es, 1), c, t);
    TakingTakes(At(w, es, 2), d, t);
    WritingWrites(At(w, es, 3), d, other, t, b);
    WritingWrites(At(w, es, 4), c, mine, t, a);
  }

  lemma RemovingRemoves(w: World, c: nat, t: Name)
    ensures var w' := Step(w, Ask(c, Request.Remove(0, t), 0));
            && t !in w'.dir.files && w'.dir.ceiling == w.dir.ceiling && forall x :: ChanOf(w', x) == ChanOf(w, x)
  {
  }

  lemma OverlayStart(was: Bytes, data: Bytes)
    ensures Overlay(was, 0, data) == data + if |data| < |was| then was[|data|..] else []
  {
  }

  // -------------------------------------------------- a file read bit by bit

  /** What a reader has once a READ where what it had ends found `file`: as
      much more of it as one request gives, nothing more at its end. */
  function ReadOn(had: Bytes, file: Bytes): Bytes {
    if |had| >= |file| then had else had + file[|had|..Min(|file|, |had| + CHUNK)]
  }

  /** What it has after READ upon READ, each finding the file of that name as
      it was at that moment. */
  function Pieced(found: seq<Bytes>): Bytes {
    if |found| == 0 then [] else ReadOn(Pieced(found[..|found| - 1]), found[|found| - 1])
  }

  // ------------------------------------------------------------------- sizes

  ghost predicate Within(d: Dir) {
    forall n :: n in d.files ==> |d.files[n]| <= d.ceiling
  }

  lemma WithinStep(w: World, e: Event)
    requires Within(w.dir)
    ensures Within(Step(w, e).dir) && Step(w, e).dir.ceiling == w.dir.ceiling
  {
    hide NamesOf, HandleName, Sorted, Has, StampAt;
  }

  /** No run makes a file longer than the far end holds of one. */
  lemma {:induction false} WithinRun(w: World, es: seq<Event>)
    requires Within(w.dir)
    ensures Within(Run(w, es).dir) && Run(w, es).dir.ceiling == w.dir.ceiling
    decreases |es|
  {
    if |es| > 0 {
      WithinRun(w, es[..|es| - 1]);
      WithinStep(Run(w, es[..|es| - 1]), es[|es| - 1]);
    }
  }

  // ------------------------------------------------------------------- times

  /** Only files have times, each positive and no newer than the newest. */
  ghost predicate Tidy(d: Dir) {
    forall n :: n in d.written ==> n in d.files && 0 < d.written[n] <= d.newest
  }

  /** No two files share a time. */
  ghost predicate Distinct(d: Dir) {
    forall m, n :: m in d.written && n in d.written && d.written[m] == d.written[n] ==> m == n
  }

  /** The name whose time the event set, if any: that of a successful open
      for writing or of an accepted write. */
  function TouchedBy(w: World, e: Event): Option<Name> {
    if e.Ask? && e.q.Open? && Has(e.q.flags, F_WRITE) && Answered(w, e).reply.Handed? then Some(e.q.name)
    else if e.Ask? && e.q.Write? && Answered(w, e).reply == Status(e.q.id, OK) then
      Some(ChanOf(w, e.chan).handles[e.q.handle].name)
    else None
  }

  /** The event sets a time although the newest cannot be passed. */
  predicate Saturates(w: World, e: Event) {
    TouchedBy(w, e).Some? && w.dir.newest == U32_MAX
  }

  /** A touched file gets the newest time, and every other stays. */
  lemma TouchedStep(w: World, e: Event, n: Name)
    requires Tidy(w.dir) && TouchedBy(w, e) == Some(n)
    ensures var d, d' := w.dir, Step(w, e).dir;
            && Tidy(d')
            && d'.newest == Max(e.now, SaturatingAdd(d.newest, 1, U32_MAX))
            && n in d'.files && d'.written == d.written[n := d'.newest]
            && forall m :: m in d'.files && m != n ==> m in d.files && d'.files[m] == d.files[m]
  {
    hide NamesOf, HandleName, Overlay, Sorted, Has, StampAt;
  }

  /** Without a touch nothing is newer, and each file is one that was there,
      bytes and time. */
  lemma UntouchedStep(w: World, e: Event)
    requires Tidy(w.dir) && TouchedBy(w, e).None?
    ensures var d, d' := w.dir, Step(w, e).dir;
            && Tidy(d')
            && d'.newest == d.newest
            && forall m :: m in d'.files ==> CameFrom(d, d', m, Former(w, e, m))
  {
    if e.Ask? && (e.q.Rename? || e.q.Remove?) {
      MovedStep(w, e);
    } else {
      hide NamesOf, HandleName, Overlay, Has, StampAt, Touched;
      assert Step(w, e).dir.files == w.dir.files && Step(w, e).dir.written == w.dir.written;
    }
  }

  lemma MovedStep(w: World, e: Event)
    requires Tidy(w.dir) && e.Ask? && (e.q.Rename? || e.q.Remove?)
    ensures var d, d' := w.dir, Step(w, e).dir;
            && Tidy(d')
            && d'.newest == d.newest
            && forall m :: m in d'.files ==> CameFrom(d, d', m, Former(w, e, m))
  {
  }

  /** The name a file present after the event was under before it. */
  function Former(w: World, e: Event, m: Name): Name {
    if e.Ask? && e.q.Rename? && e.q.to == m && Answered(w, e).reply == Status(e.q.id, OK) then e.q.from else m
  }

  predicate CameFrom(d: Dir, d': Dir, m: Name, was: Name) {
    && m in d'.files && was in d.files
    && d'.files[m] == d.files[was]
    && Modified(d', m) == Modified(d, was)
    && (m in d'.written <==> was in d.written)
  }

  lemma FormerInjective(w: World, e: Event, m: Name, n: Name)
    requires TouchedBy(w, e).None?
    requires m in Step(w, e).dir.files && n in Step(w, e).dir.files
    requires Former(w, e, m) == Former(w, e, n)
    ensures m == n
  {
    hide NamesOf, HandleName, Overlay, Sorted, Touched, Has, StampAt;
  }

  /** In every run from a directory none of whose files was written, only files
      have times, each positive and no newer than the newest. */
  lemma {:induction false} TidyRun(w: World, es: seq<Event>)
    requires w.dir.written == map[]
    ensures Tidy(Run(w, es).dir)
    decreases |es|
  {
    if |es| > 0 {
      hide Step, TouchedBy;
      var mid, e := Run(w, es[..|es| - 1]), es[|es| - 1];
      TidyRun(w, es[..|es| - 1]);
      match TouchedBy(mid, e)
      case None => UntouchedStep(mid, e);
      case Some(n) => TouchedStep(mid, e, n);
    }
  }

  /** The events of the run never set a time from the last one there is. */
  ghost predicate Unsaturated(w: World, es: seq<Event>) {
    forall i :: 0 <= i < |es| ==> !Saturates(At(w, es, i), es[i])
  }

  lemma UnsaturatedPrefix(w: World, es: seq<Event>, k: nat)
    requires Unsaturated(w, es) && k <= |es|
    ensures Unsaturated(w, es[..k])
  {
    forall i | 0 <= i < k ensures !Saturates(At(w, es[..k], i), es[..k][i]) {
      assert es[..k][..i] == es[..i];
      assert !Saturates(At(w, es, i), es[i]);
    }
  }

  /** What was ever under each time: the bytes its touch left. */
  ghost function History(w: World, es: seq<Event>): map<U32, Bytes>
    decreases |es|
  {
    if |es| == 0 then map[]
    else
      var before, last := es[..|es| - 1], es[|es| - 1];
      var mid := Run(w, before);
      match TouchedBy(mid, last)
      case Some(n) =>
        var d := Step(mid, last).dir;
        History(w, before)[d.newest := BytesAt(d, n)]
      case None => History(w, before)
  }

  /** Every time the directory shows is one the history knows, with the bytes
      it knows, and the history knows no time newer than the newest. */
  ghost predicate Recorded(d: Dir, history: map<U32, Bytes>) {
    && (forall n :: n in d.written ==> d.written[n] in history && history[d.written[n]] == BytesAt(d, n))
    && (forall t :: t in history ==> t <= d.newest)
  }

  lemma {:induction false} HistoryRecords(w: World, es: seq<Event>)
    requires w.dir.written == map[] && Unsaturated(w, es)
    ensures Tidy(Run(w, es).dir) && Distinct(Run(w, es).dir)
    ensures Recorded(Run(w, es).dir, History(w, es))
    decreases |es|
  {
    if |es| > 0 {
      var k := |es| - 1;
      UnsaturatedPrefix(w, es, k);
      HistoryRecords(w, es[..k]);
      assert !Saturates(At(w, es, k), es[k]);
      var mid := Run(w, es[..k]);
      match TouchedBy(mid, es[k])
      case None => UntouchedRecords(mid, es[k], History(w, es[..k]));
      case Some(n) => TouchedStep(mid, es[k], n);
    }
  }

  lemma UntouchedRecords(w: World, e: Event, history: map<U32, Bytes>)
    requires Tidy(w.dir) && Distinct(w.dir) && Recorded(w.dir, history)
    requires TouchedBy(w, e).None?
    ensures Tidy(Step(w, e).dir) && Distinct(Step(w, e).dir) && Recorded(Step(w, e).dir, history)
  {
    UntouchedStep(w, e);
    var d, d' := w.dir, Step(w, e).dir;
    forall n | n in d'.written
      ensures CameFrom(d, d', n, Former(w, e, n))
    {
    }
    forall m, n | m in d'.written && n in d'.written && d'.written[m] == d'.written[n]
      ensures m == n
    {
      assert CameFrom(d, d', m, Former(w, e, m)) && CameFrom(d, d', n, Former(w, e, n));
      FormerInjective(w, e, m, n);
    }
  }

  lemma {:induction false} HistoryKeeps(w: World, es: seq<Event>, i: nat, t: U32)
    requires w.dir.written == map[] && Unsaturated(w, es)
    requires i <= |es| && t in History(w, es[..i])
    ensures t in History(w, es) && History(w, es)[t] == History(w, es[..i])[t]
    decreases |es| - i
  {
    hide Step, TouchedBy, BytesAt;
    if i < |es| {
      UnsaturatedPrefix(w, es, i);
      HistoryRecords(w, es[..i]);
      var mid := Run(w, es[..i]);
      assert !Saturates(At(w, es, i), es[i]);
      assert es[..i + 1][..i] == es[..i];
      if TouchedBy(mid, es[i]).Some? {
        TouchedStep(mid, es[i], TouchedBy(mid, es[i]).value);
      }
      assert t in History(w, es[..i + 1]) && History(w, es[..i + 1])[t] == History(w, es[..i])[t];
      HistoryKeeps(w, es, i + 1, t);
    } else {
      assert es[..i] == es;
    }
  }

  /** The modification time is a version number: in a run from a directory
      none of whose files was written, whatever the clock shows, two files
      seen at any two moments under any two names with the same time other
      than 0 hold the same bytes. */
  lemma SameTimeSameBytes(w: World, es: seq<Event>, i: nat, j: nat, m: Name, n: Name)
    requires w.dir.written == map[] && Unsaturated(w, es)
    requires i <= j <= |es|
    requires var t := Modified(At(w, es, i).dir, m); t != 0 && t == Modified(At(w, es, j).dir, n)
    ensures BytesAt(At(w, es, i).dir, m) == BytesAt(At(w, es, j).dir, n)
  {
    var t := Modified(At(w, es, i).dir, m);
    UnsaturatedPrefix(w, es, i);
    UnsaturatedPrefix(w, es, j);
    HistoryRecords(w, es[..i]);
    HistoryRecords(w, es[..j]);
    assert es[..j][..i] == es[..i];
    HistoryKeeps(w, es[..j], i, t);
  }

  /** The event is answered with `time` for the file `n`: by the STAT of it, or
      in a listing. */
  ghost predicate Shows(w: World, e: Event, n: Name, time: U32) {
    e.Ask? &&
    var p := Answered(w, e).reply;
    || (e.q.Stat? && e.q.name == n && p.Attrs? && p.stamp.modified == time)
    || (e.q.ReadDir? && p.Names? &&
        exists i :: 0 <= i < |p.names| && p.names[i].0 == n && p.names[i].1.modified == time)
  }

  lemma ShownAsIs(w: World, e: Event, n: Name, time: U32)
    requires Shows(w, e, n, time)
    ensures n in w.dir.files && Modified(w.dir, n) == time
  {
    NamesOfLists(w.dir);
    hide NamesOf;
  }

  /** So it is a version number to whoever asks: two files whose stamps were
      answered, by a STAT or in a listing, at any two moments of such a run,
      with the same time other than 0, held the same bytes. */
  lemma SameStampSameBytes(w: World, es: seq<Event>, i: nat, j: nat, m: Name, n: Name, time: U32)
    requires w.dir.written == map[] && Unsaturated(w, es) && i < |es| && j < |es|
    requires Shows(At(w, es, i), es[i], m, time) && Shows(At(w, es, j), es[j], n, time) && time != 0
    ensures m in At(w, es, i).dir.files && n in At(w, es, j).dir.files
    ensures At(w, es, i).dir.files[m] == At(w, es, j).dir.files[n]
  {
    hide Shows, Unsaturated;
    ShownAsIs(At(w, es, i), es[i], m, time);
    ShownAsIs(At(w, es, j), es[j], n, time);
    if i <= j {
      SameTimeSameBytes(w, es, i, j, m, n);
    } else {
      SameTimeSameBytes(w, es, j, i, n, m);
    }
  }

  /** A touch is after the write before it exactly while the newest time is
      not the last one there is. */
  lemma TouchFresh(d: Dir, name: Name, now: U32)
    ensures Touched(d, name, now).newest > d.newest <==> d.newest < U32_MAX
    ensures Modified(Touched(d, name, now), name) == Touched(d, name, now).newest >= d.newest
  {
  }

  /** Without that the times are no versions: a clock at its last second makes
      two states of one file share a time. */
  lemma SaturationCollides(name: Name, data: Bytes, ceiling: Ceiling)
    requires 0 < |data| <= ceiling
    ensures var w := World(NewDir(map[], false, ceiling), map[]);
            var es := [Ask(0, Open(1, name, F_WRITE + F_CREAT + F_TRUNC), U32_MAX),
                       Ask(0, Write(2, HandleName(104, 0), 0, data), 0)];
            && Saturates(At(w, es, 1), es[1])
            && Modified(At(w, es, 1).dir, name) == Modified(At(w, es, 2).dir, name) == U32_MAX
            && BytesAt(At(w, es, 1).dir, name) == [] && BytesAt(At(w, es, 2).dir, name) == data
  {
    var w := World(NewDir(map[], false, ceiling), map[]);
    var es := [Ask(0, Open(1, name, F_WRITE + F_CREAT + F_TRUNC), U32_MAX),
               Ask(0, Write(2, HandleName(104, 0), 0, data), 0)];
    AtEnds(w, es);
    AtNext(w, es, 0);
    AtNext(w, es, 1);
    assert Overlay([], 0, data) == data;
  }

  // -------------------------------------------- what is held, whatever its name

  /** The multiset of what the named files hold, bytes and time. */
  ghost function Holdings(d: Dir, names: set<Name>): multiset<(Bytes, U32)> {
    if names == {} then multiset{}
    else
      var n :| n in names;
      Holdings(d, names - {n}) + multiset{(BytesAt(d, n), Modified(d, n))}
  }

  lemma {:induction false} HoldingsSplit(d: Dir, names: set<Name>, n: Name)
    requires n in names
    ensures Holdings(d, names) == Holdings(d, names - {n}) + multiset{(BytesAt(d, n), Modified(d, n))}
    decreases |names|
  {
    var m :| m in names && Holdings(d, names) == Holdings(d, names - {m}) + multiset{(BytesAt(d, m), Modified(d, m))};
    if m != n {
      HoldingsSplit(d, names - {m}, n);
      HoldingsSplit(d, names - {n}, m);
      assert names - {m} - {n} == names - {n} - {m};
    }
  }

  lemma {:induction false} HoldingsSame(d: Dir, d': Dir, names: set<Name>)
    requires forall n :: n in names ==> BytesAt(d, n) == BytesAt(d', n) && Modified(d, n) == Modified(d', n)
    ensures Holdings(d, names) == Holdings(d', names)
    decreases |names|
  {
    if names != {} {
      var n :| n in names;
      HoldingsSplit(d, names, n);
      HoldingsSplit(d', names, n);
      HoldingsSame(d, d', names - {n});
    }
  }

  /** A rename replaces nothing: every other file stays, and where the new
      name is taken everything does. */
  lemma RenameReplacesNothing(d: Dir, c: Chan, id: U32, from: Name, to: Name, m: Name)
    requires m in d.files && (m != from || to in d.files)
    ensures SameFile(d, OnRename(d, c, id, from, to).dir, m)
  {
  }

  /** A rename keeps what is held, times too, even of a file never written. */
  lemma RenameConserves(d: Dir, c: Chan, id: U32, from: Name, to: Name)
    requires Tidy(d)
    ensures var out := OnRename(d, c, id, from, to);
            && Holdings(out.dir, out.dir.files.Keys) == Holdings(d, d.files.Keys)
            && (out.reply == Status(id, OK) ==>
                  && BytesAt(out.dir, to) == BytesAt(d, from)
                  && Modified(out.dir, to) == Modified(d, from)
                  && from !in out.dir.files)
  {
    var out := OnRename(d, c, id, from, to);
    if out.reply == Status(id, OK) {
      var rest := d.files.Keys - {from};
      assert out.dir.files.Keys == rest + {to};
      assert (rest + {to}) - {to} == rest;
      HoldingsSplit(out.dir, rest + {to}, to);
      HoldingsSplit(d, d.files.Keys, from);
      HoldingsSame(d, out.dir, rest);
    }
  }

  // ------------------------------------------------------ handles and telling

  /** `h` is the handle numbered `k` of its kind: one kind for a directory,
      the other for a file. */
  predicate IsNumber(h: Name, listing: bool, k: nat) {
    h == HandleName(if listing then 100 else 104, k)
  }

  /** Every live handle is of its kind and numbered below the next. */
  ghost predicate Numbered(c: Chan) {
    forall h :: h in c.handles ==> exists k: nat :: k < c.next && IsNumber(h, c.handles[h].Listing?, k)
  }

  /** So a new handle is never one still live. */
  lemma FreshHandle(c: Chan, listing: bool)
    requires Numbered(c)
    ensures HandleName(if listing then 100 else 104, c.next) !in c.handles
  {
    var h := HandleName(if listing then 100 else 104, c.next);
    if h in c.handles {
      var k: nat :| k < c.next && IsNumber(h, c.handles[h].Listing?, k);
      HandlesDistinct(if c.handles[h].Listing? then 100 else 104, k, if listing then 100 else 104, c.next);
    }
  }

  lemma NumberedAfter(d: Dir, c: Chan, q: Request, now: U32)
    requires Numbered(c)
    ensures Numbered(Serve(d, c, q, now).chan)
  {
    hide HandleName, NamesOf, Overlay, Touched, Sorted, Has, StampAt;
    var c' := Serve(d, c, q, now).chan;
    forall h | h in c'.handles
      ensures exists k: nat :: k < c'.next && IsNumber(h, c'.handles[h].Listing?, k)
    {
      if h in c.handles && c.handles[h].Listing? == c'.handles[h].Listing? {
        var k: nat :| k < c.next && IsNumber(h, c.handles[h].Listing?, k);
        assert k < c'.next && IsNumber(h, c'.handles[h].Listing?, k);
      } else {
        assert c.next < c'.next && IsNumber(h, c'.handles[h].Listing?, c.next);
      }
    }
  }

  ghost predicate AllNumbered(w: World) {
    forall c :: c in w.chans ==> Numbered(w.chans[c])
  }

  lemma {:induction false} NumberedRun(w: World, es: seq<Event>)
    requires AllNumbered(w)
    ensures AllNumbered(Run(w, es))
    decreases |es|
  {
    if |es| > 0 {
      var mid, e := Run(w, es[..|es| - 1]), es[|es| - 1];
      NumberedRun(w, es[..|es| - 1]);
      if e.Ask? {
        assert Numbered(ChanOf(mid, e.chan));
        NumberedAfter(mid.dir, ChanOf(mid, e.chan), e.q, e.now);
      }
    }
  }

  /** The channel's handles open for writing. */
  ghost function WritersIn(x: Chan): set<Name> {
    set h | h in x.handles && x.handles[h].Writing?
  }

  /** How many handles of all the channels are open for writing. */
  ghost function Writers(chans: map<nat, Chan>): nat
    decreases |chans.Keys|
  {
    if chans.Keys == {} then 0
    else
      var c :| c in chans.Keys;
      Writers(chans - {c}) + |WritersIn(chans[c])|
  }

  lemma {:induction false} WritersSplit(chans: map<nat, Chan>, c: nat)
    requires c in chans
    ensures Writers(chans) == Writers(chans - {c}) + |WritersIn(chans[c])|
    decreases |chans.Keys|
  {
    var b :| b in chans.Keys && Writers(chans) == Writers(chans - {b}) + |WritersIn(chans[b])|;
    if b != c {
      WritersSplit(chans - {b}, c);
      WritersSplit(chans - {c}, b);
      assert chans - {b} - {c} == chans - {c} - {b};
    }
  }

  predicate OpensToWrite(w: World, e: Event) {
    e.Ask? && e.q.Open? && Has(e.q.flags, F_WRITE) && Answered(w, e).reply.Handed?
  }

  predicate ClosesWriter(w: World, e: Event) {
    && e.Ask? && e.q.Close?
    && e.q.handle in ChanOf(w, e.chan).handles
    && ChanOf(w, e.chan).handles[e.q.handle].Writing?
  }

  /** How many opens for writing succeeded. */
  ghost function Openings(w: World, es: seq<Event>): nat
    decreases |es|
  {
    if |es| == 0 then 0
    else
      var mid, e := Run(w, es[..|es| - 1]), es[|es| - 1];
      Openings(w, es[..|es| - 1]) + if OpensToWrite(mid, e) then 1 else 0
  }

  /** How many handles for writing were lost with their channel. */
  ghost function Abandoned(w: World, es: seq<Event>): nat
    decreases |es|
  {
    if |es| == 0 then 0
    else
      var mid, e := Run(w, es[..|es| - 1]), es[|es| - 1];
      Abandoned(w, es[..|es| - 1]) + if e.Hangup? then |WritersIn(ChanOf(mid, e.chan))| else 0
  }

  /** The owner is told exactly by the CLOSE of a handle open for writing, of
      the name it was opened under. */
  lemma ToldByClose(w: World, e: Event)
    ensures Step(w, e).dir.told ==
            w.dir.told +
            if w.dir.telling && ClosesWriter(w, e) then [ChanOf(w, e.chan).handles[e.q.handle].name] else []
    ensures Step(w, e).dir.telling == w.dir.telling
  {
    hide HandleName, NamesOf, Overlay, Sorted, Has, StampAt;
  }

  lemma WritersUpdated(c: Chan, h: Name, v: Handle, next: nat)
    ensures WritersIn(Chan(c.handles[h := v], next)) == if v.Writing? then WritersIn(c) + {h} else WritersIn(c) - {h}
    ensures WritersIn(Chan(c.handles - {h}, next)) == WritersIn(c) - {h}
    ensures WritersIn(Chan(c.handles, next)) == WritersIn(c)
    ensures h in WritersIn(c) <==> h in c.handles && c.handles[h].Writing?
  {
  }

  lemma WritersServed(d: Dir, c: Chan, q: Request, now: U32)
    requires Numbered(c)
    ensures var out := Serve(d, c, q, now);
            var opens := q.Open? && Has(q.flags, F_WRITE) && out.reply.Handed?;
            var closes := q.Close? && q.handle in c.handles && c.handles[q.handle].Writing?;
            |WritersIn(out.chan)| == |WritersIn(c)| + (if opens then 1 else 0) - (if closes then 1 else 0)
  {
    hide Serve, WritersIn, Has, Numbered;
    if q.Open? || q.OpenDir? {
      WritersOpened(d, c, q, now);
    } else if q.Close? || q.ReadDir? {
      WritersClosed(d, c, q, now);
    } else {
      ChanKept(d, c, q, now);
    }
  }

  lemma ChanKept(d: Dir, c: Chan, q: Request, now: U32)
    requires !(q.Open? || q.OpenDir? || q.Close? || q.ReadDir?)
    ensures Serve(d, c, q, now).chan == c
  {
    hide Overlay, Touched, StampAt;
  }

  lemma WritersClosed(d: Dir, c: Chan, q: Request, now: U32)
    requires q.Close? || q.ReadDir?
    ensures var closes := q.Close? && q.handle in c.handles && c.handles[q.handle].Writing?;
            |WritersIn(Serve(d, c, q, now).chan)| == |WritersIn(c)| - if closes then 1 else 0
  {
    hide NamesOf, WritersIn;
    WritersUpdated(c, q.handle, Listing(true), c.next);
  }

  lemma WritersOpened(d: Dir, c: Chan, q: Request, now: U32)
    requires Numbered(c) && (q.Open? || q.OpenDir?)
    ensures var out := Serve(d, c, q, now);
            |WritersIn(out.chan)| ==
            |WritersIn(c)| + if q.Open? && Has(q.flags, F_WRITE) && out.reply.Handed? then 1 else 0
  {
    hide HandleName, Touched, Has, Numbered, WritersIn;
    FreshHandle(c, q.OpenDir?);
    var after, h := Serve(d, c, q, now).chan, HandleName(if q.OpenDir? then 100 else 104, c.next);
    WritersUpdated(c, h, if h in after.handles then after.handles[h] else Listing(true), after.next);
  }

  lemma WritersStep(w: World, e: Event)
    requires AllNumbered(w)
    ensures Writers(Step(w, e).chans) ==
            Writers(w.chans) + (if OpensToWrite(w, e) then 1 else 0) - (if ClosesWriter(w, e) then 1 else 0)
            - (if e.Hangup? then |WritersIn(ChanOf(w, e.chan))| else 0)
  {
    hide Serve, Has, WritersIn, Writers;
    var was := w.chans;
    assert WritersIn(FRESH_CHAN) == {} by { NoneFresh(); }
    if e.chan in was {
      WritersSplit(was, e.chan);
    } else {
      assert was - {e.chan} == was;
    }
    if e.Ask? {
      assert Numbered(ChanOf(w, e.chan));
      WritersServed(w.dir, ChanOf(w, e.chan), e.q, e.now);
      var after := Step(w, e).chans;
      WritersSplit(after, e.chan);
      assert after - {e.chan} == was - {e.chan};
    }
  }

  lemma NoneFresh()
    ensures WritersIn(FRESH_CHAN) == {}
  {
  }

  /** Every successful open for writing is told of once, is still open, or
      was lost with its channel: none is told twice or of nothing. */
  lemma {:induction false} ToldOnce(w: World, es: seq<Event>)
    requires w.chans == map[] && w.dir.told == [] && w.dir.telling
    ensures var w' := Run(w, es);
            && |w'.dir.told| + Writers(w'.chans) + Abandoned(w, es) == Openings(w, es)
            && w'.dir.telling
    decreases |es|
  {
    if |es| > 0 {
      var mid, e := Run(w, es[..|es| - 1]), es[|es| - 1];
      ToldOnce(w, es[..|es| - 1]);
      NumberedRun(w, es[..|es| - 1]);
      WritersStep(mid, e);
      ToldByClose(mid, e);
    }
  }
}
