/** The claim: any number of nodes and senders over one directory, each
    request of theirs one step of a run. Every file ever made carries a
    label of its own, which only the model sees; the run shows where the
    labelled file lies at each moment, and how it ends. */
module Claims {
  import opened Wire
  import opened Packets
  import opened Directories
  import opened Runs

  /** What a name is for: a file dropped for the nodes to take, the turn of
      one such name, or a file one node claimed. */
  datatype Kind = Dropped | Turn | ClaimedBy(node: nat)

  datatype Actor = Sender | Node(node: nat)

  /** How names are told apart, whose each channel is, which nodes there are,
      and the name each writes into a turn it takes. */
  datatype Place = Place(kind: Name -> Kind, actor: nat -> Actor, nodes: set<nat>, claimant: nat -> Bytes)

  /** The text a node reads whose READs, one after the other, find a turn with
      the names of `nodes` in it. */
  function Weave(p: Place, nodes: seq<nat>): Bytes {
    if |nodes| == 0 then []
    else ReadOn(Weave(p, nodes[..|nodes| - 1]), p.claimant(nodes[|nodes| - 1]))
  }

  /** They are nodes there are, and none is `n`. */
  predicate AllOthers(p: Place, n: nat, nodes: seq<nat>) {
    forall x :: x in nodes ==> x in p.nodes && x != n
  }

  /** The text can be read in a turn that node `n` holds at no READ. */
  ghost predicate Foreign(p: Place, n: nat, text: Bytes) {
    exists nodes: seq<nat> :: AllOthers(p, n, nodes) && text == Weave(p, nodes)
  }

  /** No node's name can be read where only others' were written: none is
      another's, none is empty, and none is pieced together from others'. */
  ghost predicate Untorn(p: Place) {
    forall n :: n in p.nodes ==> !Foreign(p, n, p.claimant(n))
  }

  /** A file a node claimed: its label, and its bytes and time as they were
      when it was claimed. */
  datatype Held = Held(tag: nat, bytes: Bytes, time: U32)

  /** What a node knows: the claims it made, the turns it holds, and, of the
      turns it is reading, by channel and handle, what it read so far. */
  datatype Belief = Belief(claims: map<Name, Held>, turns: set<Name>, reading: map<(nat, Name), Bytes>)

  const NOTHING_KNOWN := Belief(map[], {}, map[])

  datatype Ending = Accepted(node: nat) | Released(node: nat)

  /** What only the model sees: which tagged file lies under each name, what
      each was made as, and how each that ended did. */
  datatype Book = Book(labels: map<Name, nat>, origins: seq<Kind>, ended: map<nat, Ending>)

  /** The far end; its book; which node took each turn; and what every node
      knows. */
  datatype State = State(world: World, book: Book, takers: map<Name, nat>, nodes: map<nat, Belief>)

  /** A request or a channel's end, or a node's process started anew, knowing
      nothing. */
  datatype Act = Asks(e: Event) | Restarts(node: nat)

  function BeliefOf(s: State, n: nat): Belief {
    if n in s.nodes then s.nodes[n] else NOTHING_KNOWN
  }

  /** The turn is there, and `n` is the node that took it. */
  predicate HoldsTurn(p: Place, s: State, n: nat, t: Name) {
    p.kind(t).Turn? && t in s.world.dir.files && t in s.takers && s.takers[t] == n
  }

  /** The handle `h` of channel `c` reads the file `t`. */
  predicate ReadsFile(w: World, c: nat, h: Name, t: Name) {
    h in ChanOf(w, c).handles && ChanOf(w, c).handles[h] == Reading(t)
  }

  /** Node `n` is reading the turn, and not done. */
  ghost predicate MidRead(s: State, n: nat, t: Name) {
    exists c, h :: (c, h) in BeliefOf(s, n).reading && ReadsFile(s.world, c, h, t)
  }

  // ------------------------------------------------------- what may be asked

  /** A sender opens dropped names, and renames and removes nothing. */
  predicate SenderMay(p: Place, q: Request) {
    match q
    case Open(_, name, _) => p.kind(name).Dropped?
    case Remove(_, _) => false
    case Rename(_, _, _) => false
    case _ => true
  }

  /** A node opens for writing only a turn, exclusively, and writes only its
      own name, into a turn it took and nobody gave up since; it reads a
      request's worth at a time; it renames a dropped file to a claimed name
      of its own, and back; it removes a claimed file it holds, and a turn it
      holds, not while it is reading it. */
  ghost predicate NodeMay(p: Place, s: State, n: nat, e: Event)
    requires e.Ask?
  {
    match e.q
    case Open(_, name, flags) => Has(flags, F_WRITE) ==> p.kind(name).Turn? && Has(flags, F_EXCL)
    case Write(_, handle, offset, data) =>
      && offset == 0 && data == p.claimant(n)
      && forall t :: WritesTo(s.world, e, t) ==> HoldsTurn(p, s, n, t)
    case Read(_, _, _, want) => want == CHUNK
    case Rename(_, from, to) =>
      || (p.kind(from).Dropped? && p.kind(to) == ClaimedBy(n))
      || (p.kind(from) == ClaimedBy(n) && p.kind(to).Dropped?)
    case Remove(_, name) =>
      || (p.kind(name).Turn? && name in BeliefOf(s, n).turns && !MidRead(s, n, name))
      || (p.kind(name) == ClaimedBy(n) && name in BeliefOf(s, n).claims)
    case _ => true
  }

  ghost predicate May(p: Place, s: State, a: Act) {
    match a
    case Asks(e) =>
      e.Ask? ==> (match p.actor(e.chan)
                  case Sender => SenderMay(p, e.q)
                  case Node(n) => n in p.nodes && NodeMay(p, s, n, e))
    case Restarts(n) => true
  }

  // ------------------------------------------------------------- the effects

  /** What a request did to the files: nothing, a file made or written, a
      file moved, or a file dropped. */
  datatype Effect = Nothing | Touch(name: Name) | Move(from: Name, to: Name) | Drop(name: Name)

  function EffectOf(w: World, e: Event): Effect {
    if e.Ask? && e.q.Rename? && Gone(w, e, e.q.from) then Move(e.q.from, e.q.to)
    else if e.Ask? && e.q.Remove? && Gone(w, e, e.q.name) then Drop(e.q.name)
    else if TouchedBy(w, e).Some? then Touch(TouchedBy(w, e).value)
    else Nothing
  }

  ghost predicate Effected(d: Dir, d': Dir, f: Effect) {
    match f
    case Nothing => d'.files == d.files && forall m :: Modified(d', m) == Modified(d, m)
    case Touch(n) =>
      && d'.files.Keys == d.files.Keys + {n}
      && forall m :: m != n ==> BytesAt(d', m) == BytesAt(d, m) && Modified(d', m) == Modified(d, m)
    case Move(from, to) =>
      && from in d.files && to !in d.files
      && d'.files == (d.files - {from})[to := d.files[from]]
      && Modified(d', to) == Modified(d, from)
      && forall m :: m != from && m != to ==> Modified(d', m) == Modified(d, m)
    case Drop(n) =>
      && n in d.files && d'.files == d.files - {n}
      && forall m :: m != n ==> Modified(d', m) == Modified(d, m)
  }

  /** The far end's requests have no other effects. */
  lemma EffectStep(w: World, e: Event)
    requires Tidy(w.dir)
    ensures Effected(w.dir, Step(w, e).dir, EffectOf(w, e)) && Tidy(Step(w, e).dir)
  {
    if e.Ask? && (e.q.Open? || e.q.Write?) {
      TouchEffect(w, e);
    } else if e.Ask? && (e.q.Remove? || e.q.Rename?) {
      MoveEffect(w, e);
    } else {
      hide NamesOf, HandleName, Has, StampAt;
    }
  }

  lemma MoveEffect(w: World, e: Event)
    requires Tidy(w.dir) && e.Ask? && (e.q.Remove? || e.q.Rename?)
    ensures Effected(w.dir, Step(w, e).dir, EffectOf(w, e)) && Tidy(Step(w, e).dir)
  {
    hide Has;
  }

  lemma TouchEffect(w: World, e: Event)
    requires Tidy(w.dir) && e.Ask? && (e.q.Open? || e.q.Write?)
    ensures Effected(w.dir, Step(w, e).dir, EffectOf(w, e)) && Tidy(Step(w, e).dir)
  {
    hide HandleName, Overlay, Has;
  }

  // --------------------------------------------------------------- the steps

  /** The effect makes a file that was not there. */
  predicate Makes(b: Book, f: Effect) {
    f.Touch? && f.name !in b.labels
  }

  /** The book after the effect of a request by node `who`, or a sender: a
      file made anew gets the next tag, a moved file keeps its own, and one
      dropped ends. */
  function Booked(p: Place, b: Book, f: Effect, who: Actor): Book {
    match f
    case Nothing => b
    case Touch(n) =>
      if n in b.labels then b
      else b.(labels := b.labels[n := |b.origins|], origins := b.origins + [p.kind(n)])
    case Move(from, to) => if from in b.labels then b.(labels := (b.labels - {from})[to := b.labels[from]]) else b
    case Drop(n) =>
      if n in b.labels && who.Node? then
        b.(labels := b.labels - {n},
           ended := b.ended[b.labels[n] := if p.kind(n).Turn? then Released(who.node) else Accepted(who.node)])
      else b
  }

  function After(p: Place, s: State, a: Act): State {
    match a
    case Asks(e) =>
      var f := EffectOf(s.world, e);
      var who := p.actor(e.chan);
      State(Step(s.world, e), Booked(p, s.book, f, who),
            if who.Node? && Makes(s.book, f) then s.takers[f.name := who.node] else s.takers,
            if who.Node? then s.nodes[who.node := Informed(p, s, who.node, e, f)] else s.nodes)
    case Restarts(n) => s.(nodes := s.nodes[n := NOTHING_KNOWN])
  }

  /** What node `n` knows once its request `e` had the effect `f`. */
  function Informed(p: Place, s: State, n: nat, e: Event, f: Effect): Belief {
    var b := BeliefOf(s, n);
    match f
    case Nothing => Listened(p, s, n, e)
    case Touch(t) => if t in s.book.labels then b else b.(turns := b.turns + {t})
    case Move(from, to) =>
      if from in s.book.labels && p.kind(to) == ClaimedBy(n) then
        b.(claims := b.claims[to := Held(s.book.labels[from], BytesAt(s.world.dir, from), Modified(s.world.dir, from))])
      else b.(claims := b.claims - {from})
    case Drop(m) => b.(claims := b.claims - {m}, turns := b.turns - {m})
  }

  /** The turn the READ `e` reads, where it reads one. */
  function TurnRead(p: Place, w: World, e: Event): Option<Name> {
    if && e.Ask? && e.q.Read?
       && e.q.handle in ChanOf(w, e.chan).handles
       && ChanOf(w, e.chan).handles[e.q.handle].Reading?
       && p.kind(ChanOf(w, e.chan).handles[e.q.handle].name).Turn?
    then Some(ChanOf(w, e.chan).handles[e.q.handle].name)
    else None
  }

  /** What node `n` knows of turns from the answers to its reading: an open
      begins a reading, a chunk makes it longer, and its end makes the turn
      one the node holds where what it read, all in all, is its own name. */
  function Listened(p: Place, s: State, n: nat, e: Event): Belief {
    var b := BeliefOf(s, n);
    if BeginsRead(p, s.world, e) then
      b.(reading := b.reading[(e.chan, Answered(s.world, e).reply.handle) := []])
    else if TurnRead(p, s.world, e).Some? && (e.chan, e.q.handle) in b.reading then
      var k, t := (e.chan, e.q.handle), TurnRead(p, s.world, e).value;
      var had, reply := b.reading[k], Answered(s.world, e).reply;
      if e.q.offset != |had| then b
      else if reply.Data? then b.(reading := b.reading[k := had + reply.data])
      else b.(reading := b.reading - {k}, turns := if had == p.claimant(n) then b.turns + {t} else b.turns)
    else b
  }

  predicate BeginsRead(p: Place, w: World, e: Event) {
    && e.Ask? && e.q.Open? && p.kind(e.q.name).Turn? && !Has(e.q.flags, F_WRITE)
    && Answered(w, e).reply.Handed?
  }

  // ---------------------------------------------------------- what they keep

  predicate Lies(b: Book, n: Name, tag: nat) {
    n in b.labels && b.labels[n] == tag
  }

  predicate Fits(k: Kind, origin: Kind) {
    k.Turn? <==> origin.Turn?
  }

  /** Every tag in use was given, has not ended, and lies under a name of its
      sort; and every tag that ended was given. */
  ghost predicate Fitting(p: Place, b: Book) {
    && (forall n :: n in b.labels ==>
          b.labels[n] < |b.origins| && b.labels[n] !in b.ended && Fits(p.kind(n), b.origins[b.labels[n]]))
    && (forall i :: i in b.ended ==> i < |b.origins|)
  }

  /** No tag lies under two names. */
  ghost predicate Apart(b: Book) {
    forall m, n :: m in b.labels && n in b.labels && b.labels[m] == b.labels[n] ==> m == n
  }

  /** Every tag ever given lies somewhere or has ended. */
  ghost predicate Accounted(b: Book) {
    forall i: nat :: i < |b.origins| ==> i in b.ended || exists n :: Lies(b, n, i)
  }

  ghost predicate Kept(p: Place, b: Book) {
    Fitting(p, b) && Apart(b) && Accounted(b)
  }

  /** Every file has a tag, in a book well kept. */
  ghost predicate Labelled(p: Place, s: State) {
    s.book.labels.Keys == s.world.dir.files.Keys && Kept(p, s.book)
  }

  /** What a node knows of a claim is so: the file it claimed lies under its
      claimed name, its bytes and its time as they were. */
  ghost predicate HeldTruly(p: Place, s: State) {
    forall n, c :: n in s.nodes && c in s.nodes[n].claims ==> HoldsTruly(p, s, n, c, s.nodes[n].claims[c])
  }

  predicate HoldsTruly(p: Place, s: State, n: nat, c: Name, held: Held) {
    && p.kind(c) == ClaimedBy(n)
    && Lies(s.book, c, held.tag)
    && BytesAt(s.world.dir, c) == held.bytes
    && Modified(s.world.dir, c) == held.time
  }

  /** A turn holds nothing yet or the name of the node that took it, and a
      node that holds a turn took it. */
  ghost predicate TurnsTruly(p: Place, s: State) {
    && (forall t :: t in s.world.dir.files && p.kind(t).Turn? ==>
          && t in s.takers && s.takers[t] in p.nodes
          && BytesAt(s.world.dir, t) in [[], p.claimant(s.takers[t])]
          && |BytesAt(s.world.dir, t)| <= U64_MAX)
    && (forall n, t :: n in s.nodes && t in s.nodes[n].turns ==> HoldsTurn(p, s, n, t))
  }

  /** What a node read so far of a turn it does not hold is others' names. */
  ghost predicate ReadTruly(p: Place, s: State, n: nat, c: nat, h: Name, had: Bytes) {
    && p.actor(c) == Node(n) && n in p.nodes
    && forall t :: ReadsFile(s.world, c, h, t) && p.kind(t).Turn? ==> HoldsTurn(p, s, n, t) || Foreign(p, n, had)
  }

  ghost predicate ReadsTruly(p: Place, s: State) {
    forall n, c, h :: n in s.nodes && (c, h) in s.nodes[n].reading ==>
      ReadTruly(p, s, n, c, h, s.nodes[n].reading[(c, h)])
  }

  /** Handles for writing are of dropped names, the senders', or of turns, the
      nodes'. */
  predicate HandleFits(p: Place, c: nat, m: Name) {
    match p.actor(c)
    case Sender => p.kind(m).Dropped?
    case Node(n) => p.kind(m).Turn?
  }

  ghost predicate HandlesTruly(p: Place, s: State) {
    forall c, h :: c in s.world.chans && h in s.world.chans[c].handles && s.world.chans[c].handles[h].Writing? ==>
      HandleFits(p, c, s.world.chans[c].handles[h].name)
  }

  /** What every act keeps of the files and their claims, */
  ghost predicate Inv(p: Place, s: State) {
    Tidy(s.world.dir) && Labelled(p, s) && HeldTruly(p, s) && HandlesTruly(p, s)
  }

  /** and of the turns, while no name can be read where it was not written. */
  ghost predicate TurnInv(p: Place, s: State) {
    TurnsTruly(p, s) && ReadsTruly(p, s)
  }

  // ------------------------------------------------------- each step keeps it

  /** Where a permitted request's effect can fall. */
  ghost predicate Placed(p: Place, s: State, e: Event, f: Effect) {
    match f
    case Nothing => true
    case Touch(n) =>
      (match p.actor(e.chan)
       case Sender => p.kind(n).Dropped?
       case Node(_) => p.kind(n).Turn?)
    case Move(from, to) =>
      p.actor(e.chan).Node? &&
      var x := p.actor(e.chan).node;
      || (p.kind(from).Dropped? && p.kind(to) == ClaimedBy(x))
      || (p.kind(from) == ClaimedBy(x) && p.kind(to).Dropped?)
    case Drop(n) =>
      p.actor(e.chan).Node? &&
      var x := p.actor(e.chan).node;
      || (p.kind(n).Turn? && n in BeliefOf(s, x).turns && !MidRead(s, x, n))
      || (p.kind(n) == ClaimedBy(x) && n in BeliefOf(s, x).claims)
  }

  lemma EffectPlaced(p: Place, s: State, e: Event)
    requires Inv(p, s) && May(p, s, Asks(e))
    ensures Placed(p, s, e, EffectOf(s.world, e))
  {
    hide NamesOf, HandleName, Sorted, Has, StampAt, Overlay, Touched, Labelled, HeldTruly, MidRead;
    var f := EffectOf(s.world, e);
    if f.Touch? && e.q.Write? {
      assert HandleFits(p, e.chan, f.name);
    }
  }

  /** A node's touch of a turn leaves it empty, just taken, or with its name. */
  lemma TurnTouched(p: Place, s: State, e: Event)
    requires Inv(p, s) && TurnsTruly(p, s) && May(p, s, Asks(e))
    requires EffectOf(s.world, e).Touch? && p.actor(e.chan).Node?
    ensures var x, n := p.actor(e.chan).node, EffectOf(s.world, e).name;
            var b := BytesAt(Step(s.world, e).dir, n);
            && x in p.nodes && (n in s.book.labels ==> HoldsTurn(p, s, x, n))
            && (b == p.claimant(x) || (b == [] && n !in s.book.labels)) && |b| <= U64_MAX
  {
    hide NamesOf, HandleName, Sorted, Has, StampAt, Overlay, Touched, Labelled, HeldTruly, HandlesTruly;
    var f, x := EffectOf(s.world, e), p.actor(e.chan).node;
    assert s.book.labels.Keys == s.world.dir.files.Keys by { LabelsAreFiles(p, s); }
    TouchedFiles();
    if e.q.Write? {
      assert WritesTo(s.world, e, f.name);
      OverlayName(BytesAt(s.world.dir, f.name), p.claimant(x));
    }
  }

  lemma LabelsAreFiles(p: Place, s: State)
    requires Labelled(p, s)
    ensures s.book.labels.Keys == s.world.dir.files.Keys
  {
  }

  lemma OverlayName(was: Bytes, name: Bytes)
    requires was == [] || was == name
    ensures Overlay(was, 0, name) == name
  {
  }

  lemma BookedFitting(p: Place, b: Book, f: Effect, who: Actor)
    requires Fitting(p, b) && Apart(b)
    requires f.Move? ==> !p.kind(f.from).Turn? && !p.kind(f.to).Turn?
    ensures Fitting(p, Booked(p, b, f, who))
  {
  }

  lemma BookedApart(p: Place, b: Book, f: Effect, who: Actor)
    requires Fitting(p, b) && Apart(b)
    ensures Apart(Booked(p, b, f, who))
  {
  }

  lemma BookedAccounted(p: Place, b: Book, f: Effect, who: Actor)
    requires Accounted(b) && (f.Move? ==> f.to !in b.labels)
    ensures Accounted(Booked(p, b, f, who))
  {
    var b' := Booked(p, b, f, who);
    forall i: nat | i < |b'.origins| && i !in b'.ended
      ensures exists n :: Lies(b', n, i)
    {
      if i == |b.origins| {
        assert Lies(b', f.name, i);
      } else {
        var n :| Lies(b, n, i);
        assert Lies(b', if f.Move? && n == f.from then f.to else n, i);
      }
    }
  }

  lemma LabelledStep(p: Place, s: State, e: Event)
    requires Inv(p, s) && May(p, s, Asks(e))
    ensures Labelled(p, After(p, s, Asks(e)))
  {
    hide Step, EffectOf, Tidy, Modified, BytesAt, May, HeldTruly,
         HandlesTruly, Informed, Fitting, Apart, Accounted;
    EffectStep(s.world, e);
    EffectPlaced(p, s, e);
    var f, who := EffectOf(s.world, e), p.actor(e.chan);
    BookedFitting(p, s.book, f, who);
    BookedApart(p, s.book, f, who);
    BookedAccounted(p, s.book, f, who);
  }

  lemma HeldStep(p: Place, s: State, e: Event)
    requires Inv(p, s) && May(p, s, Asks(e))
    ensures HeldTruly(p, After(p, s, Asks(e)))
  {
    hide Step, EffectOf, Tidy, Modified, HandlesTruly, May, Kept, MidRead, BeginsRead, TurnRead;
    EffectStep(s.world, e);
    EffectPlaced(p, s, e);
    var f := EffectOf(s.world, e);
    var s' := After(p, s, Asks(e));
    forall n, c | n in s'.nodes && c in s'.nodes[n].claims
      ensures HoldsTruly(p, s', n, c, s'.nodes[n].claims[c])
    {
      if !(f.Move? && c == f.to) {
        assert HoldsTruly(p, s, n, c, s.nodes[n].claims[c]);
      }
    }
  }

  /** The handle for writing a request adds, if any: of the name it touched. */
  lemma NewHandle(w: World, e: Event, c: nat, h: Name)
    requires c in Step(w, e).chans && h in Step(w, e).chans[c].handles
    requires Step(w, e).chans[c].handles[h].Writing?
    ensures || (c in w.chans && h in w.chans[c].handles && w.chans[c].handles[h] == Step(w, e).chans[c].handles[h])
            || (e.Ask? && c == e.chan && EffectOf(w, e) == Touch(Step(w, e).chans[c].handles[h].name))
  {
    hide NamesOf, HandleName, Sorted, Has, StampAt, Overlay, Touched;
  }

  lemma HandlesStep(p: Place, s: State, e: Event)
    requires Inv(p, s) && May(p, s, Asks(e))
    ensures HandlesTruly(p, After(p, s, Asks(e)))
  {
    hide Step, EffectOf, Tidy, May, HeldTruly, Labelled, Informed, Booked, MidRead;
    EffectPlaced(p, s, e);
    var w' := Step(s.world, e);
    forall c, h | c in w'.chans && h in w'.chans[c].handles && w'.chans[c].handles[h].Writing?
      ensures HandleFits(p, c, w'.chans[c].handles[h].name)
    {
      NewHandle(s.world, e, c, h);
    }
  }

  /** Every permitted act keeps what is so of files and claims, whatever the
      nodes' names. */
  lemma InvStep(p: Place, s: State, a: Act)
    requires Inv(p, s) && May(p, s, a)
    ensures Inv(p, After(p, s, a))
  {
    hide Step, EffectOf, Tidy, Labelled, HandlesTruly, May, Effected;
    if a.Asks? {
      hide HeldTruly, After;
      EffectStep(s.world, a.e);
      LabelledStep(p, s, a.e);
      HeldStep(p, s, a.e);
      HandlesStep(p, s, a.e);
      WorldAfter(p, s, a.e);
    } else {
      SameFiles(p, s, After(p, s, a));
    }
  }

  lemma WorldAfter(p: Place, s: State, e: Event)
    ensures After(p, s, Asks(e)).world == Step(s.world, e)
  {
  }

  lemma SameFiles(p: Place, s: State, s': State)
    requires Inv(p, s) && s'.world == s.world && s'.book == s.book
    ensures Labelled(p, s') && HandlesTruly(p, s')
  {
  }

  // -------------------------------------------------------------- turns kept

  lemma TurnFilesStep(p: Place, s: State, e: Event, t: Name)
    requires Inv(p, s) && TurnsTruly(p, s) && May(p, s, Asks(e))
    requires t in Step(s.world, e).dir.files && p.kind(t).Turn?
    ensures var s' := After(p, s, Asks(e));
            && t in s'.takers && s'.takers[t] in p.nodes
            && BytesAt(s'.world.dir, t) in [[], p.claimant(s'.takers[t])]
            && |BytesAt(s'.world.dir, t)| <= U64_MAX
  {
    hide Step, EffectOf, Tidy, Modified, HeldTruly, HandlesTruly, May, Kept, MidRead, Informed;
    EffectStep(s.world, e);
    EffectPlaced(p, s, e);
    if EffectOf(s.world, e).Touch? && p.actor(e.chan).Node? {
      TurnTouched(p, s, e);
    }
  }

  lemma TurnHoldersStep(p: Place, s: State, e: Event, n: nat, t: Name)
    requires Untorn(p) && Inv(p, s) && TurnInv(p, s) && May(p, s, Asks(e))
    requires n in After(p, s, Asks(e)).nodes && t in After(p, s, Asks(e)).nodes[n].turns
    ensures HoldsTurn(p, After(p, s, Asks(e)), n, t)
  {
    hide Step, EffectOf, Tidy, Modified, BytesAt, HeldTruly, HandlesTruly, May, Kept, MidRead, ReadsTruly, Untorn,
         Listened;
    EffectStep(s.world, e);
    EffectPlaced(p, s, e);
    var f, who := EffectOf(s.world, e), p.actor(e.chan);
    if f.Nothing? && who == Node(n) {
      Learned(p, s, n, e, t);
    } else if f != Touch(t) {
      assert HoldsTurn(p, s, n, t);
    } else if who.Node? {
      TurnTouched(p, s, e);
    }
  }

  lemma TurnsStep(p: Place, s: State, e: Event)
    requires Untorn(p) && Inv(p, s) && TurnInv(p, s) && May(p, s, Asks(e))
    ensures TurnsTruly(p, After(p, s, Asks(e)))
  {
    hide Step, EffectOf, Booked, Informed, Inv, TurnInv, May, Untorn, HoldsTurn, BytesAt;
    var s' := After(p, s, Asks(e));
    forall t | t in s'.world.dir.files && p.kind(t).Turn?
      ensures && t in s'.takers && s'.takers[t] in p.nodes
              && BytesAt(s'.world.dir, t) in [[], p.claimant(s'.takers[t])]
              && |BytesAt(s'.world.dir, t)| <= U64_MAX
    {
      BothTruly(p, s);
      TurnFilesStep(p, s, e, t);
    }
    forall n, t | n in s'.nodes && t in s'.nodes[n].turns
      ensures HoldsTurn(p, s', n, t)
    {
      TurnHoldersStep(p, s, e, n, t);
    }
  }

  /** A node learns that it holds a turn only where it does. */
  lemma Learned(p: Place, s: State, n: nat, e: Event, t: Name)
    requires Untorn(p) && TurnInv(p, s) && p.actor(e.chan) == Node(n) && t in Listened(p, s, n, e).turns
    ensures HoldsTurn(p, s, n, t)
  {
    hide Answered, Foreign;
    if t in BeliefOf(s, n).turns {
      assert HoldsTurn(p, s, n, t);
    } else {
      assert ReadTruly(p, s, n, e.chan, e.q.handle, BeliefOf(s, n).reading[(e.chan, e.q.handle)]);
      assert ReadsFile(s.world, e.chan, e.q.handle, t);
    }
  }

  /** The handle for reading a request adds, if any. */
  lemma NewReader(w: World, e: Event, c: nat, h: Name, t: Name)
    requires ReadsFile(Step(w, e), c, h, t)
    ensures || ReadsFile(w, c, h, t)
            || (&& e.Ask? && c == e.chan && e.q.Open? && e.q.name == t && !Has(e.q.flags, F_WRITE)
                && Answered(w, e).reply == Handed(e.q.id, h) && EffectOf(w, e).Nothing?)
  {
    hide NamesOf, HandleName, Sorted, Has, StampAt, Overlay, Touched;
  }

  /** A turn held stays held but for its holder's own REMOVE of it. */
  lemma StillHeld(p: Place, s: State, e: Event, n: nat, t: Name)
    requires Inv(p, s) && TurnsTruly(p, s) && May(p, s, Asks(e)) && HoldsTurn(p, s, n, t)
    ensures || HoldsTurn(p, After(p, s, Asks(e)), n, t)
            || (p.actor(e.chan) == Node(n) && EffectOf(s.world, e) == Drop(t) && !MidRead(s, n, t))
  {
    hide Step, EffectOf, Tidy, Modified, BytesAt, HeldTruly, HandlesTruly, May, Kept, MidRead, Informed;
    EffectStep(s.world, e);
    EffectPlaced(p, s, e);
    var f := EffectOf(s.world, e);
    if f == Drop(t) {
      assert HoldsTurn(p, s, p.actor(e.chan).node, t);
    }
  }

  lemma ReadsStep(p: Place, s: State, e: Event)
    requires Inv(p, s) && TurnInv(p, s) && May(p, s, Asks(e))
    ensures ReadsTruly(p, After(p, s, Asks(e)))
  {
    hide Step, EffectOf, Inv, TurnsTruly, HoldsTurn, Foreign, ReadsFile, Booked, Informed, May;
    var s' := After(p, s, Asks(e));
    forall n, c, h | n in s'.nodes && (c, h) in s'.nodes[n].reading
      ensures ReadTruly(p, s', n, c, h, s'.nodes[n].reading[(c, h)])
    {
      ReadStep(p, s, e, n, c, h);
    }
  }

  /** The READ of a turn by node `n` that gave it more of what it reads. */
  predicate Grows(p: Place, s: State, e: Event, n: nat) {
    && p.actor(e.chan) == Node(n) && TurnRead(p, s.world, e).Some?
    && (e.chan, e.q.handle) in BeliefOf(s, n).reading
    && e.q.offset == |BeliefOf(s, n).reading[(e.chan, e.q.handle)]|
    && Answered(s.world, e).reply.Data?
  }

  predicate BeginsAs(p: Place, w: World, e: Event, c: nat, h: Name) {
    BeginsRead(p, w, e) && c == e.chan && h == Answered(w, e).reply.handle
  }

  /** A reading under way just began, just got longer, or is as it was. */
  lemma ReadingAfter(p: Place, s: State, e: Event, n: nat, c: nat, h: Name)
    requires n in After(p, s, Asks(e)).nodes && (c, h) in After(p, s, Asks(e)).nodes[n].reading
    ensures var had := After(p, s, Asks(e)).nodes[n].reading[(c, h)];
            || (BeginsAs(p, s.world, e, c, h) && p.actor(c) == Node(n) && had == [])
            || (&& Grows(p, s, e, n) && (c, h) == (e.chan, e.q.handle)
                && had == BeliefOf(s, n).reading[(c, h)] + Answered(s.world, e).reply.data)
            || (&& n in s.nodes && (c, h) in s.nodes[n].reading && had == s.nodes[n].reading[(c, h)]
                && !(BeginsAs(p, s.world, e, c, h) && p.actor(c) == Node(n)))
  {
    hide Step, Serve, Booked, Has, Makes;
    if BeginsRead(p, s.world, e) {
      assert EffectOf(s.world, e).Nothing?;
    }
  }

  lemma {:induction false} WeaveOn(p: Place, n: nat, had: Bytes, x: nat)
    requires Foreign(p, n, had) && x in p.nodes && x != n
    ensures Foreign(p, n, ReadOn(had, p.claimant(x)))
  {
    var nodes: seq<nat> :| AllOthers(p, n, nodes) && had == Weave(p, nodes);
    assert (nodes + [x])[..|nodes|] == nodes;
    assert AllOthers(p, n, nodes + [x]) && ReadOn(had, p.claimant(x)) == Weave(p, nodes + [x]);
  }

  /** A READ gives what `ReadOn` says of the file as it is. */
  lemma ReadGives(w: World, e: Event, t: Name)
    requires e.Ask? && e.q.Read? && e.q.want == CHUNK && ReadsFile(w, e.chan, e.q.handle, t)
    requires |BytesAt(w.dir, t)| <= U64_MAX
    ensures var file, reply := BytesAt(w.dir, t), Answered(w, e).reply;
            && (reply.Data? <==> e.q.offset < |file|)
            && (forall had: Bytes :: |had| == e.q.offset && reply.Data? ==> had + reply.data == ReadOn(had, file))
            && (!reply.Data? ==> reply == Status(e.q.id, EOF))
  {
  }

  lemma ReadGrown(p: Place, s: State, e: Event, n: nat)
    requires Inv(p, s) && TurnInv(p, s) && May(p, s, Asks(e)) && Grows(p, s, e, n)
    ensures var had := BeliefOf(s, n).reading[(e.chan, e.q.handle)] + Answered(s.world, e).reply.data;
            HoldsTurn(p, s, n, TurnRead(p, s.world, e).value) || Foreign(p, n, had)
  {
    hide Inv, Foreign, Answered, Weave;
    var t, c, h := TurnRead(p, s.world, e).value, e.chan, e.q.handle;
    var was := BeliefOf(s, n).reading[(c, h)];
    assert ReadsFile(s.world, c, h, t);
    assert ReadTruly(p, s, n, c, h, was);
    ReadGives(s.world, e, t);
    if !HoldsTurn(p, s, n, t) {
      WeaveOn(p, n, was, s.takers[t]);
    }
  }

  lemma ReadStep(p: Place, s: State, e: Event, n: nat, c: nat, h: Name)
    requires Inv(p, s) && TurnInv(p, s) && May(p, s, Asks(e))
    requires n in After(p, s, Asks(e)).nodes && (c, h) in After(p, s, Asks(e)).nodes[n].reading
    ensures ReadTruly(p, After(p, s, Asks(e)), n, c, h, After(p, s, Asks(e)).nodes[n].reading[(c, h)])
  {
    hide Inv, TurnsTruly, Foreign, May, Step, Answered, EffectOf, Booked, Informed, HoldsTurn, Has;
    var s' := After(p, s, Asks(e));
    var had := s'.nodes[n].reading[(c, h)];
    ReadingAfter(p, s, e, n, c, h);
    ActsAsOne(p, s, e);
    if had == [] {
      assert Foreign(p, n, had) by { NothingForeign(p, n); }
    }
    if n in s.nodes && (c, h) in s.nodes[n].reading {
      assert ReadTruly(p, s, n, c, h, s.nodes[n].reading[(c, h)]);
    }
    forall t | ReadsFile(s'.world, c, h, t) && p.kind(t).Turn? && had != []
      ensures HoldsTurn(p, s', n, t) || Foreign(p, n, had)
    {
      NewReader(s.world, e, c, h, t);
      assert ReadsFile(s.world, c, h, t) ==> MidRead(s, n, t) || n !in s.nodes;
      if Grows(p, s, e, n) && (c, h) == (e.chan, e.q.handle) {
        ReadGrown(p, s, e, n);
      }
      if HoldsTurn(p, s, n, t) {
        StillHeld(p, s, e, n, t);
      }
    }
  }

  /** Who asks is one of the nodes, or a sender. */
  lemma ActsAsOne(p: Place, s: State, e: Event)
    requires May(p, s, Asks(e))
    ensures e.Ask? && p.actor(e.chan).Node? ==> p.actor(e.chan).node in p.nodes
  {
  }

  lemma NothingForeign(p: Place, n: nat)
    ensures Foreign(p, n, [])
  {
    assert AllOthers(p, n, []) && Weave(p, []) == [];
  }

  /** Every permitted act keeps what is so of the turns, while no name can be
      read where it was not written. */
  lemma TurnStep(p: Place, s: State, a: Act)
    requires Untorn(p) && Inv(p, s) && TurnInv(p, s) && May(p, s, a)
    ensures TurnInv(p, After(p, s, a))
  {
    if a.Asks? {
      hide Untorn, Inv, TurnInv, May, After, TurnsTruly, ReadsTruly;
      TurnsStep(p, s, a.e);
      ReadsStep(p, s, a.e);
      BothTruly(p, After(p, s, a));
    } else {
      hide Untorn, Inv, Foreign;
      var s' := After(p, s, a);
      forall n, c, h | n in s'.nodes && (c, h) in s'.nodes[n].reading
        ensures ReadTruly(p, s', n, c, h, s'.nodes[n].reading[(c, h)])
      {
        assert ReadTruly(p, s, n, c, h, s.nodes[n].reading[(c, h)]);
      }
    }
  }

  lemma BothTruly(p: Place, s: State)
    ensures TurnsTruly(p, s) && ReadsTruly(p, s) <==> TurnInv(p, s)
  {
  }

  // -------------------------------------------------------------- whole runs

  function Acted(p: Place, s: State, acts: seq<Act>): State
    decreases |acts|
  {
    if |acts| == 0 then s else After(p, Acted(p, s, acts[..|acts| - 1]), acts[|acts| - 1])
  }

  /** Every act of the run was one its actor may do. */
  ghost predicate MayAll(p: Place, s: State, acts: seq<Act>)
    decreases |acts|
  {
    |acts| == 0 ||
    (MayAll(p, s, acts[..|acts| - 1]) && May(p, Acted(p, s, acts[..|acts| - 1]), acts[|acts| - 1]))
  }

  lemma {:induction false} MayAllPrefix(p: Place, s: State, acts: seq<Act>, k: nat)
    requires MayAll(p, s, acts) && k <= |acts|
    ensures MayAll(p, s, acts[..k])
    decreases |acts|
  {
    hide May, After;
    if k == |acts| {
      assert acts[..k] == acts;
    } else {
      assert acts[..|acts| - 1][..k] == acts[..k];
      MayAllPrefix(p, s, acts[..|acts| - 1], k);
    }
  }

  /** Nobody connected, nothing known, every file there tagged once. */
  ghost predicate Begins(p: Place, s: State) {
    && s.world.chans == map[] && s.nodes == map[] && s.book.ended == map[]
    && s.world.dir.written == map[]
    && Labelled(p, s)
    && forall n :: n in s.world.dir.files ==> !p.kind(n).Turn?
  }

  lemma InvBegins(p: Place, s: State)
    requires Begins(p, s)
    ensures Inv(p, s) && TurnInv(p, s)
  {
  }

  /** Everything the acts keep holds throughout every run. */
  lemma {:induction false} InvRun(p: Place, s: State, acts: seq<Act>)
    requires Begins(p, s) && MayAll(p, s, acts)
    ensures Inv(p, Acted(p, s, acts))
    ensures Untorn(p) ==> TurnInv(p, Acted(p, s, acts))
    decreases |acts|
  {
    hide Inv, TurnInv, May, Begins, After, Untorn;
    if |acts| == 0 {
      InvBegins(p, s);
    } else {
      var k := |acts| - 1;
      InvRun(p, s, acts[..k]);
      InvStep(p, Acted(p, s, acts[..k]), acts[k]);
      if Untorn(p) {
        TurnStep(p, Acted(p, s, acts[..k]), acts[k]);
      }
    }
  }

  /** None is lost and none is in two places: at every moment of every run a
      file ever made either lies under exactly one name, a dropped file under
      a dropped name or a name one node claims under, or it has ended. */
  lemma EachFileInOnePlace(p: Place, s: State, acts: seq<Act>, tag: nat)
    requires Begins(p, s) && MayAll(p, s, acts)
    requires tag < |Acted(p, s, acts).book.origins|
    ensures var t := Acted(p, s, acts);
            if tag in t.book.ended then forall n :: !Lies(t.book, n, tag)
            else exists n :: && Lies(t.book, n, tag) && n in t.world.dir.files
                             && (p.kind(n).Turn? <==> t.book.origins[tag].Turn?)
                             && forall m :: Lies(t.book, m, tag) ==> m == n
  {
    InvRun(p, s, acts);
    var t := Acted(p, s, acts);
    if tag !in t.book.ended {
      var n :| Lies(t.book, n, tag);
      forall m | Lies(t.book, m, tag) ensures m == n {
      }
    }
  }

  /** None is held twice, and what is held is what was claimed: two nodes that
      hold one file are one node and hold it under one name, and the file
      under that name has the bytes and the time it had when it was claimed. */
  lemma HeldOnce(p: Place, s: State, acts: seq<Act>, a: nat, b: nat, c: Name, d: Name)
    requires Begins(p, s) && MayAll(p, s, acts)
    requires var t := Acted(p, s, acts);
             && c in BeliefOf(t, a).claims && d in BeliefOf(t, b).claims
             && BeliefOf(t, a).claims[c].tag == BeliefOf(t, b).claims[d].tag
    ensures a == b && c == d
    ensures var t := Acted(p, s, acts);
            && c in t.world.dir.files
            && t.world.dir.files[c] == BeliefOf(t, a).claims[c].bytes
            && Modified(t.world.dir, c) == BeliefOf(t, a).claims[c].time
  {
    hide EffectOf, After, MayAll;
    InvRun(p, s, acts);
    var t := Acted(p, s, acts);
    assert HoldsTruly(p, t, a, c, BeliefOf(t, a).claims[c]);
    assert HoldsTruly(p, t, b, d, BeliefOf(t, b).claims[d]);
  }

  /** One node holds a turn at a time, while no name can be read where it was
      not written. */
  lemma TurnHeldOnce(p: Place, s: State, acts: seq<Act>, a: nat, b: nat, turn: Name)
    requires Untorn(p) && Begins(p, s) && MayAll(p, s, acts)
    requires var t := Acted(p, s, acts); turn in BeliefOf(t, a).turns && turn in BeliefOf(t, b).turns
    ensures a == b && turn in Acted(p, s, acts).world.dir.files
  {
    hide EffectOf, After, MayAll;
    InvRun(p, s, acts);
    var t := Acted(p, s, acts);
    assert HoldsTurn(p, t, a, turn) && HoldsTurn(p, t, b, turn);
  }

  /** A turn is its taker's until the taker gives it up: where it is not any
      more, an act in between was that node's own REMOVE of it. */
  lemma {:induction false} TurnKept(p: Place, s: State, acts: seq<Act>, k: nat, n: nat, t: Name)
    requires Untorn(p) && Begins(p, s) && MayAll(p, s, acts) && k <= |acts|
    requires HoldsTurn(p, Acted(p, s, acts[..k]), n, t)
    ensures || HoldsTurn(p, Acted(p, s, acts), n, t)
            || exists j :: k <= j < |acts| && GivesUp(p, Acted(p, s, acts[..j]), acts[j], n, t)
    decreases |acts|
  {
    hide Begins, May, After, Inv, Untorn, GivesUp, HoldsTurn, ReadsTruly, TurnsTruly;
    if k == |acts| {
      assert acts[..k] == acts;
    } else {
      var last := |acts| - 1;
      assert acts[..last][..k] == acts[..k];
      TurnKept(p, s, acts[..last], k, n, t);
      if HoldsTurn(p, Acted(p, s, acts[..last]), n, t) {
        InvRun(p, s, acts[..last]);
        KeptOrGivenUp(p, Acted(p, s, acts[..last]), acts[last], n, t);
      } else {
        var j :| k <= j < last && GivesUp(p, Acted(p, s, acts[..last][..j]), acts[..last][j], n, t);
        assert acts[..last][..j] == acts[..j];
        assert GivesUp(p, Acted(p, s, acts[..j]), acts[j], n, t);
      }
    }
  }

  predicate GivesUp(p: Place, s: State, a: Act, n: nat, t: Name) {
    a.Asks? && p.actor(a.e.chan) == Node(n) && EffectOf(s.world, a.e) == Drop(t)
  }

  lemma KeptOrGivenUp(p: Place, s: State, a: Act, n: nat, t: Name)
    requires Inv(p, s) && TurnsTruly(p, s) && May(p, s, a) && HoldsTurn(p, s, n, t)
    ensures HoldsTurn(p, After(p, s, a), n, t) || GivesUp(p, s, a, n, t)
  {
    hide Inv, TurnsTruly, May, EffectOf, Step, Informed, Booked;
    if a.Asks? {
      StillHeld(p, s, a.e, n, t);
    }
  }

  /** A file ends only by the REMOVE of a node that holds it: a dropped file
      by its claimed name, still as it was claimed, a turn by the node that
      took it. */
  lemma EndedByItsHolder(p: Place, s: State, a: Act, tag: nat)
    requires Inv(p, s) && May(p, s, a)
    requires tag !in s.book.ended && tag in After(p, s, a).book.ended
    ensures a.Asks? && a.e.Ask? && a.e.q.Remove? && p.actor(a.e.chan).Node?
    ensures var n, name := p.actor(a.e.chan).node, a.e.q.name;
            && Lies(s.book, name, tag)
            && After(p, s, a).book.ended[tag] == (if p.kind(name).Turn? then Released(n) else Accepted(n))
            && (!p.kind(name).Turn? ==>
                  && name in BeliefOf(s, n).claims
                  && BeliefOf(s, n).claims[name] == Held(tag, BytesAt(s.world.dir, name), Modified(s.world.dir, name)))
            && (p.kind(name).Turn? && TurnInv(p, s) ==> HoldsTurn(p, s, n, name))
  {
    assert a.Asks?;
    EffectPlaced(p, s, a.e);
    RemoveDrops(s.world, a.e);
    hide Step, EffectOf, Tidy, HandlesTruly, Kept, May, Modified, BytesAt, ReadsTruly, MidRead;
    var n, name := p.actor(a.e.chan).node, EffectOf(s.world, a.e).name;
    if !p.kind(name).Turn? {
      assert HoldsTruly(p, s, n, name, BeliefOf(s, n).claims[name]);
    }
  }

  lemma RemoveDrops(w: World, e: Event)
    ensures EffectOf(w, e).Drop? ==> e.Ask? && e.q.Remove? && e.q.name == EffectOf(w, e).name
  {
    hide Serve;
  }

  /** What ended stays ended as it did, and no file ever made is forgotten. */
  lemma {:induction false} EndedForGood(p: Place, s: State, acts: seq<Act>, k: nat, tag: nat)
    requires Begins(p, s) && MayAll(p, s, acts) && k <= |acts|
    ensures var was, now := Acted(p, s, acts[..k]).book, Acted(p, s, acts).book;
            && was.origins <= now.origins
            && (tag in was.ended ==> tag in now.ended && now.ended[tag] == was.ended[tag])
    decreases |acts|
  {
    hide Begins, May, After, Inv;
    if k == |acts| {
      assert acts[..k] == acts;
    } else {
      var last := |acts| - 1;
      assert acts[..last][..k] == acts[..k];
      EndedForGood(p, s, acts[..last], k, tag);
      InvRun(p, s, acts[..last]);
      EndedKept(p, Acted(p, s, acts[..last]), acts[last], tag);
    }
  }

  lemma EndedKept(p: Place, s: State, a: Act, tag: nat)
    requires Inv(p, s)
    ensures s.book.origins <= After(p, s, a).book.origins
    ensures tag in s.book.ended ==>
              tag in After(p, s, a).book.ended && After(p, s, a).book.ended[tag] == s.book.ended[tag]
  {
    hide Step, EffectOf, Tidy, HeldTruly, HandlesTruly, Informed;
  }
}
