/** Turns read while they change hands. A turn is read in several READs, and
    each finds whatever is under its name at that moment, so a node can read
    its own name where only others' were ever written. Whether one can is told
    by the names alone, and it decides whether a turn is one node's at a time. */
module Torn {
  import opened Wire
  import opened Packets
  import opened Directories
  import opened Runs
  import opened Claims

  // ------------------------------------------------------------ which names tear

  /** Distinct names all of one length, no longer than a READ gives, are never
      torn. */
  lemma EqualLengthsUntorn(p: Place, length: nat)
    requires 0 < length <= CHUNK && forall n :: n in p.nodes ==> |p.claimant(n)| == length
    requires forall a, b :: a in p.nodes && b in p.nodes && p.claimant(a) == p.claimant(b) ==> a == b
    ensures Untorn(p)
  {
    forall n | n in p.nodes ensures !Foreign(p, n, p.claimant(n)) {
      forall nodes: seq<nat> | AllOthers(p, n, nodes) ensures p.claimant(n) != Weave(p, nodes) {
        if |nodes| > 0 {
          WeaveOfOne(p, nodes, length);
          assert nodes[0] in nodes;
        }
      }
    }
  }

  lemma {:induction false} WeaveOfOne(p: Place, nodes: seq<nat>, length: nat)
    requires |nodes| > 0 && length <= CHUNK && forall n :: n in nodes ==> |p.claimant(n)| == length
    ensures Weave(p, nodes) == p.claimant(nodes[0])
    decreases |nodes|
  {
    if |nodes| > 1 {
      WeaveOfOne(p, nodes[..|nodes| - 1], length);
    }
  }

  /** Names that are never torn are each one node's, and none is empty. */
  lemma UntornDistinct(p: Place, a: nat, b: nat)
    requires Untorn(p) && a in p.nodes && b in p.nodes
    ensures p.claimant(a) != [] && (p.claimant(a) == p.claimant(b) ==> a == b)
  {
    NothingForeign(p, a);
    if a != b {
      var k := |p.claimant(b)|;
      WeaveOfSame(p, b, k);
      assert AllOthers(p, a, seq(k, _ => b));
      assert !Foreign(p, a, p.claimant(a));
    }
  }

  lemma {:induction false} WeaveOfSame(p: Place, b: nat, k: nat)
    ensures Weave(p, seq(k, _ => b)) == p.claimant(b)[..Min(|p.claimant(b)|, k * CHUNK)]
    decreases k
  {
    if k > 0 {
      assert seq(k, _ => b)[..k - 1] == seq(k - 1, _ => b);
      WeaveOfSame(p, b, k - 1);
    }
  }

  /** Any other names may be: one that begins as a shorter and goes on as a
      longer name is read where the two follow each other. */
  lemma TornInTwo(p: Place, n: nat, a: nat, b: nat)
    requires n in p.nodes && AllOthers(p, n, [a, b]) && |p.claimant(a)| < |p.claimant(b)| <= CHUNK
    requires p.claimant(n) == p.claimant(a) + p.claimant(b)[|p.claimant(a)|..]
    ensures !Untorn(p)
  {
    var nodes := [a, b];
    assert nodes[..1] == [a] && [a][..0] == [];
    assert Weave(p, [a]) == p.claimant(a);
    assert AllOthers(p, n, nodes) && p.claimant(n) == Weave(p, nodes);
    assert Foreign(p, n, p.claimant(n));
  }

  // ------------------------------------------------------------- building a run

  /** Node `n` stands at `had` of the turn `t`, read through the handle `h` of
      its channel `c`, or has not begun; and no other node reads anything. */
  ghost predicate Stands(p: Place, s: State, n: nat, c: nat, h: Name, t: Name, had: Option<Bytes>) {
    && p.kind(t).Turn? && p.actor(c) == Node(n) && n in p.nodes
    && (match had
        case Some(text) =>
          ReadsFile(s.world, c, h, t) && BeliefOf(s, n).reading == map[(c, h) := text] && |text| <= s.world.dir.ceiling
        case None =>
          h == HandleName(104, 0) && ChanOf(s.world, c) == FRESH_CHAN && BeliefOf(s, n).reading == map[])
    && (forall y: nat :: y != n ==> BeliefOf(s, y).reading == map[])
  }

  /** And the turn is held by `holder`, another, with `file` in it, or free. */
  ghost predicate Scene(p: Place, s: State, n: nat, c: nat, h: Name, t: Name, had: Option<Bytes>,
                        holder: Option<nat>, file: Bytes) {
    && Stands(p, s, n, c, h, t, had)
    && (holder.None? ==> t !in s.world.dir.files && t !in s.book.labels)
    && (holder.Some? ==>
          && holder.value != n && holder.value in p.nodes
          && HoldsTurn(p, s, holder.value, t) && t in BeliefOf(s, holder.value).turns
          && t in s.book.labels && s.world.dir.files[t] == file)
  }

  /** What another node asks that begins no reading leaves it there. */
  lemma StandsAside(p: Place, s: State, n: nat, c: nat, h: Name, t: Name, had: Option<Bytes>, e: Event, x: nat)
    requires Stands(p, s, n, c, h, t, had) && p.actor(e.chan) == Node(x) && x != n
    requires !BeginsRead(p, s.world, e)
    ensures Stands(p, After(p, s, Asks(e)), n, c, h, t, had)
    ensures After(p, s, Asks(e)).world.dir.ceiling == s.world.dir.ceiling
  {
    hide Serve, HandleName, EffectOf, Booked, BeginsRead;
    CeilingKept(s.world, e);
    var s' := After(p, s, Asks(e));
    assert e.chan != c;
    assert ChanOf(s'.world, c) == ChanOf(s.world, c);
    assert BeliefOf(s', n) == BeliefOf(s, n);
    assert BeliefOf(s', x).reading == BeliefOf(s, x).reading;
    forall y: nat | y != n ensures BeliefOf(s', y).reading == map[] {
      if y != x {
        assert BeliefOf(s', y) == BeliefOf(s, y);
      }
    }
  }

  /** What a node asks tells the others nothing. */
  lemma OthersKnow(p: Place, s: State, n: nat, e: Event)
    requires p.actor(e.chan) == Node(n)
    ensures forall y: nat :: y != n ==> BeliefOf(After(p, s, Asks(e)), y) == BeliefOf(s, y)
  {
    hide Step, EffectOf, Booked, Informed;
  }

  lemma CeilingKept(w: World, e: Event)
    ensures Step(w, e).dir.ceiling == w.dir.ceiling
  {
    hide NamesOf, HandleName, Overlay, Sorted, Has, StampAt;
  }

  /** The handle a channel is given next. */
  function NextHandle(s: State, d: nat): Name {
    HandleName(104, ChanOf(s.world, d).next)
  }

  lemma Takes(p: Place, s: State, n: nat, c: nat, h: Name, t: Name, had: Option<Bytes>, x: nat, d: nat) returns (a: Act)
    requires Scene(p, s, n, c, h, t, had, None, []) && x != n && p.actor(d) == Node(x) && x in p.nodes
    ensures May(p, s, a)
    ensures var s' := After(p, s, a);
            && Scene(p, s', n, c, h, t, had, Some(x), [])
            && NextHandle(s, d) in ChanOf(s'.world, d).handles
            && ChanOf(s'.world, d).handles[NextHandle(s, d)] == Writing(t)
            && s'.world.dir.ceiling == s.world.dir.ceiling
  {
    hide HandleName;
    a := Asks(Ask(d, Request.Open(0, t, F_WRITE + F_CREAT + F_EXCL), 0));
    StandsAside(p, s, n, c, h, t, had, a.e, x);
  }

  lemma Writes(p: Place, s: State, n: nat, c: nat, h: Name, t: Name, had: Option<Bytes>, x: nat, d: nat, w: Name)
      returns (a: Act)
    requires Scene(p, s, n, c, h, t, had, Some(x), []) && p.actor(d) == Node(x)
    requires w in ChanOf(s.world, d).handles && ChanOf(s.world, d).handles[w] == Writing(t)
    requires |p.claimant(x)| <= s.world.dir.ceiling
    ensures May(p, s, a)
    ensures var s' := After(p, s, a);
            && Scene(p, s', n, c, h, t, had, Some(x), p.claimant(x))
            && w in ChanOf(s'.world, d).handles && ChanOf(s'.world, d).handles[w] == Writing(t)
            && s'.world.dir.ceiling == s.world.dir.ceiling
  {
    hide HandleName, Overlay;
    OverlayName([], p.claimant(x));
    a := Asks(Ask(d, Request.Write(0, w, 0, p.claimant(x)), 0));
    StandsAside(p, s, n, c, h, t, had, a.e, x);
  }

  lemma Closes(p: Place, s: State, n: nat, c: nat, h: Name, t: Name, had: Option<Bytes>, x: nat, d: nat, w: Name)
      returns (a: Act)
    requires Scene(p, s, n, c, h, t, had, Some(x), p.claimant(x)) && p.actor(d) == Node(x)
    requires w in ChanOf(s.world, d).handles && ChanOf(s.world, d).handles[w] == Writing(t)
    ensures May(p, s, a) && Scene(p, After(p, s, a), n, c, h, t, had, Some(x), p.claimant(x))
    ensures After(p, s, a).world.dir.ceiling == s.world.dir.ceiling
  {
    hide HandleName;
    a := Asks(Ask(d, Request.Close(0, w), 0));
    StandsAside(p, s, n, c, h, t, had, a.e, x);
  }

  lemma OpensToRead(p: Place, s: State, n: nat, c: nat, h: Name, t: Name, x: nat, file: Bytes) returns (a: Act)
    requires Scene(p, s, n, c, h, t, None, Some(x), file)
    ensures May(p, s, a) && Scene(p, After(p, s, a), n, c, h, t, Some([]), Some(x), file)
    ensures After(p, s, a).world.dir.ceiling == s.world.dir.ceiling
  {
    hide HandleName;
    a := Asks(Ask(c, Request.Open(0, t, F_READ), 0));
    OthersKnow(p, s, n, a.e);
    assert BeliefOf(After(p, s, a), n).reading == map[(c, h) := []];
  }

  lemma ReadsMore(p: Place, s: State, n: nat, c: nat, h: Name, t: Name, had: Bytes, x: nat, file: Bytes)
      returns (a: Act)
    requires Scene(p, s, n, c, h, t, Some(had), Some(x), file) && |had| < |file| <= s.world.dir.ceiling
    ensures May(p, s, a) && Scene(p, After(p, s, a), n, c, h, t, Some(ReadOn(had, file)), Some(x), file)
    ensures After(p, s, a).world.dir.ceiling == s.world.dir.ceiling
  {
    hide HandleName;
    a := Asks(Ask(c, Request.Read(0, h, |had|, CHUNK), 0));
    ReadGives(s.world, a.e, t);
    OthersKnow(p, s, n, a.e);
    assert BeliefOf(After(p, s, a), n).reading == map[(c, h) := ReadOn(had, file)];
  }

  lemma Removes(p: Place, s: State, n: nat, c: nat, h: Name, t: Name, had: Option<Bytes>, x: nat, d: nat, file: Bytes)
      returns (a: Act)
    requires Scene(p, s, n, c, h, t, had, Some(x), file) && p.actor(d) == Node(x)
    ensures May(p, s, a) && Scene(p, After(p, s, a), n, c, h, t, had, None, [])
    ensures After(p, s, a).world.dir.ceiling == s.world.dir.ceiling
  {
    hide HandleName;
    a := Asks(Ask(d, Request.Remove(0, t), 0));
    StandsAside(p, s, n, c, h, t, had, a.e, x);
  }

  /** The READ that finds the turn gone ends the reading: a node that has its
      own name by then takes the turn for its own. */
  lemma LearnsFalsely(p: Place, s: State, n: nat, c: nat, h: Name, t: Name) returns (a: Act)
    requires Scene(p, s, n, c, h, t, Some(p.claimant(n)), None, [])
    ensures May(p, s, a)
    ensures var s' := After(p, s, a);
            && t in BeliefOf(s', n).turns && t !in s'.world.dir.files && t !in s'.book.labels
  {
    hide HandleName;
    a := Asks(Ask(c, Request.Read(0, h, |p.claimant(n)|, CHUNK), 0));
    ReadGives(s.world, a.e, t);
  }

  lemma TakesToo(p: Place, s: State, n: nat, t: Name, x: nat, d: nat) returns (a: Act)
    requires t in BeliefOf(s, n).turns && t !in s.world.dir.files && t !in s.book.labels
    requires x != n && p.actor(d) == Node(x) && x in p.nodes && p.kind(t).Turn?
    ensures May(p, s, a)
    ensures t in BeliefOf(After(p, s, a), n).turns && t in BeliefOf(After(p, s, a), x).turns
  {
    hide HandleName;
    a := Asks(Ask(d, Request.Open(0, t, F_WRITE + F_CREAT + F_EXCL), 0));
  }

  lemma Then(p: Place, s: State, acts: seq<Act>, a: Act)
    requires MayAll(p, s, acts) && May(p, Acted(p, s, acts), a)
    ensures MayAll(p, s, acts + [a]) && Acted(p, s, acts + [a]) == After(p, Acted(p, s, acts), a)
  {
    hide May, After;
    assert (acts + [a])[..|acts|] == acts;
  }

  /** The run came to where the scene is this. */
  ghost predicate Led(p: Place, s: State, acts: seq<Act>, n: nat, c: nat, h: Name, t: Name, had: Option<Bytes>,
                      holder: Option<nat>, file: Bytes) {
    && MayAll(p, s, acts) && Scene(p, Acted(p, s, acts), n, c, h, t, had, holder, file)
    && Acted(p, s, acts).world.dir.ceiling == s.world.dir.ceiling
  }

  /** Another node takes the turn, as `create_exclusive` does. */
  lemma Taken(p: Place, s: State, acts: seq<Act>, n: nat, c: nat, h: Name, t: Name, had: Option<Bytes>, x: nat, d: nat)
      returns (more: seq<Act>)
    requires Led(p, s, acts, n, c, h, t, had, None, []) && x != n && p.actor(d) == Node(x) && x in p.nodes
    requires |p.claimant(x)| <= s.world.dir.ceiling
    ensures Led(p, s, more, n, c, h, t, had, Some(x), p.claimant(x))
  {
    hide Scene, MayAll, May, After, Acted;
    var w := NextHandle(Acted(p, s, acts), d);
    var a := Takes(p, Acted(p, s, acts), n, c, h, t, had, x, d);
    Then(p, s, acts, a);
    more := acts + [a];
    a := Writes(p, Acted(p, s, more), n, c, h, t, had, x, d, w);
    Then(p, s, more, a);
    more := more + [a];
    a := Closes(p, Acted(p, s, more), n, c, h, t, had, x, d, w);
    Then(p, s, more, a);
    more := more + [a];
  }

  lemma GivenUp(p: Place, s: State, acts: seq<Act>, n: nat, c: nat, h: Name, t: Name, had: Option<Bytes>,
                x: nat, d: nat)
      returns (more: seq<Act>)
    requires Led(p, s, acts, n, c, h, t, had, Some(x), p.claimant(x)) && p.actor(d) == Node(x)
    ensures Led(p, s, more, n, c, h, t, had, None, [])
  {
    hide Scene, MayAll, May, After, Acted;
    var a := Removes(p, Acted(p, s, acts), n, c, h, t, had, x, d, p.claimant(x));
    Then(p, s, acts, a);
    more := acts + [a];
  }

  /** The turn passes through another node's hands, and the reader gets what
      one READ gives it meanwhile. */
  lemma Passes(p: Place, s: State, acts: seq<Act>, n: nat, c: nat, h: Name, t: Name, had: Bytes, x: nat, d: nat)
      returns (more: seq<Act>)
    requires Led(p, s, acts, n, c, h, t, Some(had), None, []) && x != n && p.actor(d) == Node(x) && x in p.nodes
    requires |p.claimant(x)| <= s.world.dir.ceiling
    ensures Led(p, s, more, n, c, h, t, Some(ReadOn(had, p.claimant(x))), None, [])
  {
    hide Scene, MayAll, May, After, Acted;
    more := Taken(p, s, acts, n, c, h, t, Some(had), x, d);
    if |had| < |p.claimant(x)| {
      var a := ReadsMore(p, Acted(p, s, more), n, c, h, t, had, x, p.claimant(x));
      Then(p, s, more, a);
      more := more + [a];
    }
    more := GivenUp(p, s, more, n, c, h, t, Some(ReadOn(had, p.claimant(x))), x, d);
  }

  /** The reading begun while some other node holds the turn. */
  lemma Begun(p: Place, s: State, n: nat, c: nat, t: Name, x: nat, d: nat) returns (acts: seq<Act>)
    requires Claims.Begins(p, s) && p.kind(t).Turn? && p.actor(c) == Node(n) && p.actor(d) == Node(x) && x != n
    requires n in p.nodes && x in p.nodes
    requires |p.claimant(x)| <= s.world.dir.ceiling
    ensures Led(p, s, acts, n, c, HandleName(104, 0), t, Some([]), None, [])
  {
    var h := HandleName(104, 0);
    assert Led(p, s, [], n, c, h, t, None, None, []) by { hide HandleName; }
    hide Scene, MayAll, May, After, Acted, HandleName, Claims.Begins;
    acts := Taken(p, s, [], n, c, h, t, None, x, d);
    var a := OpensToRead(p, Acted(p, s, acts), n, c, h, t, x, p.claimant(x));
    Then(p, s, acts, a);
    acts := acts + [a];
    acts := GivenUp(p, s, acts, n, c, h, t, Some([]), x, d);
  }

  /** Every node has a channel, and the far end holds its name. */
  ghost predicate Reachable(p: Place, s: State, chan: nat -> nat) {
    forall y :: y in p.nodes ==> p.actor(chan(y)) == Node(y) && |p.claimant(y)| <= s.world.dir.ceiling
  }

  lemma Another(nodes: set<nat>, n: nat) returns (x: nat)
    requires |nodes| >= 2
    ensures x in nodes && x != n
  {
    if n in nodes {
      assert nodes == (nodes - {n}) + {n};
    } else {
      assert nodes == nodes - {n};
    }
    x :| x in nodes - {n};
  }

  /** Every text others' names can be pieced together to is read. */
  lemma {:induction false} Woven(p: Place, s: State, n: nat, t: Name, chan: nat -> nat, x: nat, nodes: seq<nat>)
      returns (acts: seq<Act>)
    requires Claims.Begins(p, s) && p.kind(t).Turn? && n in p.nodes && AllOthers(p, n, [x] + nodes)
    requires Reachable(p, s, chan)
    ensures Led(p, s, acts, n, chan(n), HandleName(104, 0), t, Some(Weave(p, nodes)), None, [])
    decreases |nodes|
  {
    hide Led, HandleName, Claims.Begins;
    if |nodes| == 0 {
      acts := Begun(p, s, n, chan(n), t, x, chan(x));
    } else {
      var last := nodes[|nodes| - 1];
      assert last in [x] + nodes;
      acts := Woven(p, s, n, t, chan, x, nodes[..|nodes| - 1]);
      acts := Passes(p, s, acts, n, chan(n), HandleName(104, 0), t, Weave(p, nodes[..|nodes| - 1]), last, chan(last));
    }
  }

  /** Two nodes take the turn for theirs at once. */
  predicate HeldTwice(s: State, a: nat, b: nat, t: Name) {
    a != b && t in BeliefOf(s, a).turns && t in BeliefOf(s, b).turns
  }

  /** No run leads two nodes to hold one turn. */
  ghost predicate Exclusive(p: Place, s: State) {
    forall acts, a: nat, b: nat, u :: MayAll(p, s, acts) ==> !HeldTwice(Acted(p, s, acts), a, b, u)
  }

  /** A name that can be read where only others' were written is: a run of the
      requests a node makes leads two nodes to hold one turn. */
  lemma TornRead(p: Place, s: State, n: nat, t: Name, chan: nat -> nat) returns (acts: seq<Act>, x: nat)
    requires Claims.Begins(p, s) && p.kind(t).Turn? && n in p.nodes && Foreign(p, n, p.claimant(n))
    requires Reachable(p, s, chan) && |p.nodes| >= 2
    ensures MayAll(p, s, acts) && HeldTwice(Acted(p, s, acts), n, x, t)
  {
    hide MayAll, May, After, Acted, Claims.Begins, Weave, Stands, HandleName;
    var nodes: seq<nat> :| AllOthers(p, n, nodes) && p.claimant(n) == Weave(p, nodes);
    x := Another(p.nodes, n);
    acts := Woven(p, s, n, t, chan, x, nodes);
    var a := LearnsFalsely(p, Acted(p, s, acts), n, chan(n), HandleName(104, 0), t);
    Then(p, s, acts, a);
    acts := acts + [a];
    a := TakesToo(p, Acted(p, s, acts), n, t, x, chan(x));
    Then(p, s, acts, a);
    acts := acts + [a];
  }

  /** Whether a turn is one node's at a time, in every run, is told by the
      names the nodes write: exactly where none can be read where only others'
      were written. */
  lemma ExclusiveExactly(p: Place, s: State, t: Name, chan: nat -> nat)
    requires Claims.Begins(p, s) && p.kind(t).Turn? && Reachable(p, s, chan) && |p.nodes| >= 2
    ensures Untorn(p) <==> Exclusive(p, s)
  {
    hide MayAll, Acted, Claims.Begins, Foreign;
    if Untorn(p) {
      forall acts, a: nat, b: nat, u | MayAll(p, s, acts) ensures !HeldTwice(Acted(p, s, acts), a, b, u) {
        if HeldTwice(Acted(p, s, acts), a, b, u) {
          TurnHeldOnce(p, s, acts, a, b, u);
        }
      }
    } else {
      var n :| n in p.nodes && Foreign(p, n, p.claimant(n));
      var acts, x := TornRead(p, s, n, t, chan);
      assert HeldTwice(Acted(p, s, acts), n, x, t);
    }
  }

  // ------------------------------------------------------------------ an example

  /** The bytes of "node-". */
  const NODE: Bytes := [110, 111, 100, 101, 45]

  /** Three nodes, the last two numbered 10 and 20, the first called as given;
      each has the channel of its number, and a name of one byte is a turn. */
  function ThreeNodes(first: Bytes): Place {
    Place(n => if |n| == 1 then Turn else Dropped, (c: nat) => Node(c), {1, 10, 20},
          (n: nat) => if n == 1 then first else if n == 10 then NODE + [49, 48] else NODE + [50, 48])
  }

  /** An empty directory nobody is connected to. */
  function Deserted(): State {
    State(World(NewDir(map[], false, 1000), map[]), Book(map[], [], map[]), map[], map[])
  }

  lemma ThreeNodesReady(first: Bytes)
    requires |first| <= 7
    ensures var p := ThreeNodes(first);
            && Claims.Begins(p, Deserted()) && p.kind([0]).Turn? && Reachable(p, Deserted(), n => n)
            && p.nodes == {1, 10, 20} && |p.nodes| >= 2 && p.claimant(1) == first
            && p.claimant(10) == NODE + [49, 48] && p.claimant(20) == NODE + [50, 48]
  {
    assert |{1, 10, 20}| == 3;
  }

  /** Called "node-1" beside "node-10" and "node-20" they can hold one turn
      twice; */
  lemma NodesTorn()
    ensures !Exclusive(ThreeNodes(NODE + [49]), Deserted())
  {
    ThreeNodesReady(NODE + [49]);
    hide Claims.Begins, Untorn, Exclusive, ThreeNodes, Deserted, Reachable;
    var p := ThreeNodes(NODE + [49]);
    assert p.claimant(20)[6..] == [48];
    TornInTwo(p, 10, 1, 20);
    ExclusiveExactly(p, Deserted(), [0], n => n);
  }

  /** called "node-01" they never do. */
  lemma NodesUntorn()
    ensures Exclusive(ThreeNodes(NODE + [48, 49]), Deserted())
  {
    ThreeNodesReady(NODE + [48, 49]);
    hide Claims.Begins, Untorn, Exclusive, ThreeNodes, Deserted, Reachable;
    var p := ThreeNodes(NODE + [48, 49]);
    assert p.claimant(1)[5] == 48 && p.claimant(10)[5] == 49 && p.claimant(20)[5] == 50;
    EqualLengthsUntorn(p, 7);
    ExclusiveExactly(p, Deserted(), [0], n => n);
  }
}
