/** The kept connection lent to one receive's harvest at a time: the line
    under its mutex, the calls that take and return what it holds, and the
    harvest threads that own the client meanwhile. Each lock is one step. */
module Lending {
  /** Where the client is. */
  datatype Line = Here(client: nat) | Harvesting | Broken

  /** The line; what each call to harvest holds between its first lock, which
      left the line lent, and what it does next; and the client each harvest
      thread owns. */
  datatype State = State(line: Line, hands: map<nat, Line>, harvests: map<nat, nat>)

  /** A call to harvest takes what the line holds; starts its thread with the
      client it took, or fails to; or puts back, under a second lock, what it
      took where that was no client. A harvest's thread ends with its
      connection whole, or broken. A use of the client, or a look at it,
      under one lock. */
  datatype Step =
    | Take(call: nat)
    | Spawn(call: nat)
    | SpawnFails(call: nat)
    | PutBack(call: nat)
    | EndsWhole(call: nat)
    | EndsBroken(call: nat)
    | Uses

  predicate Enabled(s: State, a: Step) {
    match a
    case Take(k) => k !in s.hands && k !in s.harvests
    case Spawn(k) => k in s.hands && s.hands[k].Here?
    case SpawnFails(k) => k in s.hands && s.hands[k].Here?
    case PutBack(k) => k in s.hands && !s.hands[k].Here?
    case EndsWhole(k) => k in s.harvests
    case EndsBroken(k) => k in s.harvests
    case Uses => true
  }

  function After(s: State, a: Step): State {
    if !Enabled(s, a) then s
    else
      match a
      case Take(k) => s.(line := Harvesting, hands := s.hands[k := s.line])
      case Spawn(k) => s.(hands := s.hands - {k}, harvests := s.harvests[k := s.hands[k].client])
      case SpawnFails(k) => s.(hands := s.hands - {k})
      case PutBack(k) => s.(line := s.hands[k], hands := s.hands - {k})
      case EndsWhole(k) => s.(line := Here(s.harvests[k]), harvests := s.harvests - {k})
      case EndsBroken(k) => s.(line := Broken, harvests := s.harvests - {k})
      case Uses => s
  }

  function Ran(s: State, run: seq<Step>): State
    decreases |run|
  {
    if |run| == 0 then s else After(Ran(s, run[..|run| - 1]), run[|run| - 1])
  }

  /** Every step of the run was enabled. */
  predicate Possible(s: State, run: seq<Step>)
    decreases |run|
  {
    |run| == 0 ||
    (Possible(s, run[..|run| - 1]) && Enabled(Ran(s, run[..|run| - 1]), run[|run| - 1]))
  }

  lemma RanNext(s: State, run: seq<Step>, i: nat)
    requires i < |run|
    ensures Ran(s, run[..i + 1]) == After(Ran(s, run[..i]), run[i])
  {
    assert run[..i + 1][..i] == run[..i];
  }

  function New(client: nat): State {
    State(Here(client), map[], map[])
  }

  // ------------------------------------------------------------ conservation

  /** The calls that hold what the line should: the client, or the mark that
      it broke. */
  function Bearers(hands: map<nat, Line>): set<nat> {
    set k | k in hands && hands[k] != Harvesting
  }

  /** How many places hold the client, or the mark that it broke. */
  function Tokens(s: State): nat {
    (if s.line.Harvesting? then 0 else 1) + |Bearers(s.hands)| + |s.harvests.Keys|
  }

  /** No call has both hands and a thread, and every client there is, is the
      one the connection began with. */
  ghost predicate Orderly(s: State, client: nat) {
    && s.hands.Keys !! s.harvests.Keys
    && (s.line.Here? ==> s.line.client == client)
    && (forall k :: k in s.hands && s.hands[k].Here? ==> s.hands[k].client == client)
    && (forall k :: k in s.harvests ==> s.harvests[k] == client)
  }

  /** The step writes over a line that holds something, or drops the client
      with a thread that did not start. */
  predicate Loses(s: State, a: Step) {
    match a
    case PutBack(_) => s.line != Harvesting
    case EndsWhole(_) => s.line != Harvesting
    case EndsBroken(_) => s.line != Harvesting
    case SpawnFails(_) => true
    case _ => false
  }

  lemma BearersUpdated(hands: map<nat, Line>, k: nat, v: Line)
    ensures Bearers(hands[k := v]) == if v.Harvesting? then Bearers(hands) - {k} else Bearers(hands) + {k}
    ensures Bearers(hands - {k}) == Bearers(hands) - {k}
    ensures k in Bearers(hands) <==> k in hands && hands[k] != Harvesting
  {
  }

  lemma OrderlyStep(s: State, a: Step, client: nat)
    requires Orderly(s, client)
    ensures Orderly(After(s, a), client)
  {
  }

  lemma TakenTokens(s: State, k: nat)
    requires Enabled(s, Take(k))
    ensures Tokens(After(s, Take(k))) == Tokens(s)
  {
    BearersUpdated(s.hands, k, s.line);
    hide Bearers;
  }

  lemma ThreadAdded(harvests: map<nat, nat>, k: nat, client: nat)
    requires k !in harvests
    ensures |harvests[k := client].Keys| == |harvests.Keys| + 1
  {
    assert harvests[k := client].Keys == harvests.Keys + {k};
  }

  lemma BearerGone(hands: map<nat, Line>, k: nat)
    requires k in hands && hands[k] != Harvesting
    ensures |Bearers(hands - {k})| == |Bearers(hands)| - 1
  {
    BearersUpdated(hands, k, Broken);
  }

  lemma SpawnedTokens(s: State, k: nat)
    requires Enabled(s, Spawn(k)) && k !in s.harvests
    ensures Tokens(After(s, Spawn(k))) == Tokens(s)
  {
    hide Bearers;
    BearerGone(s.hands, k);
    ThreadAdded(s.harvests, k, s.hands[k].client);
  }

  lemma FailedTokens(s: State, k: nat)
    requires Enabled(s, SpawnFails(k))
    ensures Tokens(After(s, SpawnFails(k))) == Tokens(s) - 1
  {
    hide Bearers;
    BearersUpdated(s.hands, k, Broken);
  }

  lemma PutBackTokens(s: State, k: nat)
    requires Enabled(s, PutBack(k))
    ensures Tokens(After(s, PutBack(k))) == Tokens(s) - (if s.line.Harvesting? then 0 else 1)
  {
    hide Bearers;
    BearersUpdated(s.hands, k, Broken);
  }

  lemma EndedTokens(s: State, k: nat, a: Step)
    requires Enabled(s, a) && (a == EndsWhole(k) || a == EndsBroken(k))
    ensures Tokens(After(s, a)) == Tokens(s) - (if s.line.Harvesting? then 0 else 1)
  {
    hide Bearers;
    assert After(s, a).harvests.Keys == s.harvests.Keys - {k};
  }

  /** What the line should hold is nowhere twice, and is lost by exactly the
      steps that lose it. */
  lemma TokensStep(s: State, a: Step, client: nat)
    requires Enabled(s, a) && Orderly(s, client)
    ensures Tokens(After(s, a)) == Tokens(s) - (if Loses(s, a) then 1 else 0)
  {
    hide Tokens, After;
    match a
    case Take(k) => TakenTokens(s, k);
    case Spawn(k) => SpawnedTokens(s, k);
    case SpawnFails(k) => FailedTokens(s, k);
    case PutBack(k) => PutBackTokens(s, k);
    case EndsWhole(k) => EndedTokens(s, k, a);
    case EndsBroken(k) => EndedTokens(s, k, a);
    case Uses => UsesNothing(s);
  }

  lemma UsesNothing(s: State)
    ensures After(s, Uses) == s
  {
  }

  /** No step of the run loses what the line should hold. */
  predicate Careful(s: State, run: seq<Step>)
    decreases |run|
  {
    |run| == 0 ||
    (Careful(s, run[..|run| - 1]) && !Loses(Ran(s, run[..|run| - 1]), run[|run| - 1]))
  }

  lemma {:induction false} TokensRan(client: nat, run: seq<Step>)
    requires Possible(New(client), run)
    ensures var s := Ran(New(client), run);
            Orderly(s, client) && Tokens(s) <= 1 && (Tokens(s) == 1 <==> Careful(New(client), run))
    decreases |run|
  {
    hide Tokens, Orderly, Loses, After;
    var s := New(client);
    if |run| == 0 {
      TokensNew(client);
    } else {
      var k := |run| - 1;
      TokensRan(client, run[..k]);
      TokensStep(Ran(s, run[..k]), run[k], client);
      OrderlyStep(Ran(s, run[..k]), run[k], client);
    }
  }

  lemma TokensNew(client: nat)
    ensures Orderly(New(client), client) && Tokens(New(client)) == 1
  {
    assert Bearers(New(client).hands) == {} && New(client).harvests.Keys == {};
  }

  /** The client is in one place: on the line with nobody's hand on it, or
      with one call about to start its thread, or with one thread; or it is
      gone and the mark that it broke is on the line or in the hand of one
      call about to put it back. */
  ghost predicate InOnePlace(s: State, client: nat) {
    || (s.line == Here(client) && Bearers(s.hands) == {} && s.harvests == map[])
    || (s.line == Harvesting && s.harvests == map[] &&
        exists k :: Bearers(s.hands) == {k} && s.hands[k] in {Here(client), Broken})
    || (s.line == Harvesting && Bearers(s.hands) == {} && exists k :: s.harvests == map[k := client])
    || (s.line == Broken && Bearers(s.hands) == {} && s.harvests == map[])
  }

  lemma Single<T>(xs: set<T>) returns (x: T)
    requires |xs| == 1
    ensures xs == {x}
  {
    x :| x in xs;
    assert |xs - {x}| == 0;
  }

  lemma OneTokenOnePlace(s: State, client: nat)
    requires Orderly(s, client)
    ensures Tokens(s) == 1 <==> InOnePlace(s, client)
  {
    if Tokens(s) == 1 {
      if |Bearers(s.hands)| == 1 {
        var k := Single(Bearers(s.hands));
        assert k in Bearers(s.hands);
      } else if |s.harvests.Keys| == 1 {
        var k := Single(s.harvests.Keys);
        assert s.harvests == map[k := client];
      }
    }
  }

  /** The client is conserved, and nowhere twice, in exactly the runs in which
      every thread starts and no line that holds something is written over. */
  lemma ClientConserved(client: nat, run: seq<Step>)
    requires Possible(New(client), run)
    ensures InOnePlace(Ran(New(client), run), client) <==> Careful(New(client), run)
  {
    TokensRan(client, run);
    OneTokenOnePlace(Ran(New(client), run), client);
  }

  // ------------------------------------------------------- a connection that broke

  /** Nobody has a client, nor will one start a thread with one. */
  ghost predicate NoClient(s: State) {
    && !s.line.Here? && s.harvests == map[]
    && forall k :: k in s.hands ==> !s.hands[k].Here?
  }

  lemma NoClientStep(s: State, a: Step)
    requires NoClient(s) && Enabled(s, a)
    ensures NoClient(After(s, a)) && !a.Spawn?
  {
  }

  lemma BrokenLeavesNone(s: State, k: nat, client: nat)
    requires Orderly(s, client) && Tokens(s) <= 1 && Enabled(s, EndsBroken(k))
    ensures NoClient(After(s, EndsBroken(k)))
  {
    assert k in s.harvests.Keys;
    assert s.harvests.Keys == {k} by {
      var x := Single(s.harvests.Keys);
    }
    assert Bearers(s.hands) == {};
    assert forall h :: h in s.hands ==> h in Bearers(s.hands) || s.hands[h].Harvesting?;
  }

  /** A harvest whose connection broke takes its client with it, in every run:
      from then on, whatever is called, no line, call or thread has a client
      and no harvest starts. */
  lemma {:induction false} BrokenForGood(client: nat, run: seq<Step>, i: nat)
    requires Possible(New(client), run) && i < |run| && run[i].EndsBroken?
    ensures var s := Ran(New(client), run);
            && !s.line.Here? && s.harvests == map[]
            && (forall k :: k in s.hands ==> !s.hands[k].Here?)
            && (forall k :: !Enabled(s, Spawn(k)))
    ensures NoClient(Ran(New(client), run))
    decreases |run|
  {
    hide Tokens, Orderly, After, NoClient, Enabled;
    var last := |run| - 1;
    var before := Ran(New(client), run[..last]);
    if i == last {
      TokensRan(client, run[..last]);
      BrokenLeavesNone(before, run[i].call, client);
    } else {
      BrokenForGood(client, run[..last], i);
      NoClientStep(before, run[last]);
    }
    NoneStarts(Ran(New(client), run));
  }

  lemma NoneStarts(s: State)
    requires NoClient(s)
    ensures && !s.line.Here? && s.harvests == map[]
            && (forall k :: k in s.hands ==> !s.hands[k].Here?)
            && (forall k :: !Enabled(s, Spawn(k)))
  {
  }

  /** The mark that the connection broke is on the line, or in the hand of a
      call about to put it back. */
  ghost predicate Marked(s: State) {
    s.line.Broken? || exists k :: k in s.hands && s.hands[k].Broken?
  }

  lemma MarkedStep(s: State, a: Step, client: nat)
    requires InOnePlace(s, client) && Enabled(s, a) && !Loses(s, a)
    ensures Marked(After(s, a)) <==> Marked(s) || a.EndsBroken?
  {
    var s' := After(s, a);
    assert forall k :: k in s.hands && s.hands[k] != Harvesting ==> k in Bearers(s.hands);
    if a.Take? && s.line.Broken? {
      assert s'.hands[a.call].Broken?;
    }
    if k :| k in s.hands && s.hands[k].Broken? && a != PutBack(k) {
      assert a.Take? ==> a.call != k;
      assert k in Bearers(s.hands);
      assert k in s'.hands && s'.hands[k].Broken?;
    }
  }

  /** In a run that loses nothing the mark is there exactly where some
      harvest's connection broke, so where none did the client still is. */
  lemma {:induction false} MarkedExactly(client: nat, run: seq<Step>)
    requires Possible(New(client), run) && Careful(New(client), run)
    ensures Marked(Ran(New(client), run)) <==> exists i :: 0 <= i < |run| && run[i].EndsBroken?
    decreases |run|
  {
    hide Tokens, Orderly, Loses, After, Enabled, InOnePlace;
    if |run| > 0 {
      hide Marked;
      var last := |run| - 1;
      MarkedExactly(client, run[..last]);
      ClientConserved(client, run[..last]);
      MarkedStep(Ran(New(client), run[..last]), run[last], client);
      assert forall i :: 0 <= i < last ==> run[..last][i] == run[i];
      if i :| 0 <= i < last && run[..last][i].EndsBroken? {
        assert run[i].EndsBroken?;
      }
    }
  }

  // -------------------------------------------------------------- the window

  predicate Writes(a: Step) {
    a.Take? || a.PutBack? || a.EndsWhole? || a.EndsBroken?
  }

  /** Steps `i` and `j` are the two locks of one refused call to harvest. */
  predicate Window(run: seq<Step>, i: nat, j: nat) {
    && i < j < |run| && run[j].PutBack? && run[i] == Take(run[j].call)
    && forall m :: i < m < j ==> run[m] != Take(run[j].call)
  }

  /** No other step writes the line between the two locks of a refused call,
      and every thread starts. */
  ghost predicate Unraced(run: seq<Step>) {
    && (forall i :: 0 <= i < |run| ==> !run[i].SpawnFails?)
    && forall i, j, m :: Window(run, i, j) && i < m < j ==> !Writes(run[m])
  }

  /** What a call holds it took, and has not taken again since. */
  lemma {:induction false} TakenSince(client: nat, run: seq<Step>, k: nat) returns (i: nat)
    requires k in Ran(New(client), run).hands
    ensures i < |run| && run[i] == Take(k) && forall m :: i < m < |run| ==> run[m] != Take(k)
    decreases |run|
  {
    var last := |run| - 1;
    if run[last] == Take(k) {
      i := last;
    } else {
      assert k in Ran(New(client), run[..last]).hands;
      i := TakenSince(client, run[..last], k);
    }
  }

  lemma LineKept(s: State, a: Step)
    requires Enabled(s, a)
    ensures After(s, a).line == if a.Take? then Harvesting else if Writes(a) then After(s, a).line else s.line
  {
  }

  lemma {:induction false} LentSince(client: nat, run: seq<Step>, i: nat)
    requires i < |run| && Possible(New(client), run) && run[i].Take?
    requires forall m :: i < m < |run| ==> !Writes(run[m])
    ensures Ran(New(client), run).line == Harvesting
    decreases |run|
  {
    hide After, Enabled;
    var last := |run| - 1;
    LineKept(Ran(New(client), run[..last]), run[last]);
    if last > i {
      LentSince(client, run[..last], i);
    }
  }

  /** Where nobody writes the line in the window of a refused call, the client
      is conserved. */
  lemma UnracedConserves(client: nat, run: seq<Step>)
    requires Possible(New(client), run) && Unraced(run)
    ensures InOnePlace(Ran(New(client), run), client)
  {
    assert run[..|run|] == run;
    UnracedCareful(client, run, |run|);
    ClientConserved(client, run);
  }

  lemma {:induction false} UnracedCareful(client: nat, run: seq<Step>, n: nat)
    requires n <= |run| && Possible(New(client), run[..n]) && Unraced(run)
    ensures Careful(New(client), run[..n])
    decreases n
  {
    if n > 0 {
      var j := n - 1;
      assert run[..n][..j] == run[..j];
      UnracedCareful(client, run, j);
      UnracedLast(client, run, j);
    }
  }

  /** The step after a careful stretch of such a run loses nothing. */
  lemma UnracedLast(client: nat, run: seq<Step>, j: nat)
    requires j < |run| && Unraced(run)
    requires Possible(New(client), run[..j]) && Careful(New(client), run[..j])
    requires Enabled(Ran(New(client), run[..j]), run[j])
    ensures !Loses(Ran(New(client), run[..j]), run[j])
  {
    hide Ran, Possible, Careful;
    var before := Ran(New(client), run[..j]);
    if run[j].PutBack? {
      var i := TakenSince(client, run[..j], run[j].call);
      assert Window(run, i, j);
      LentSince(client, run[..j], i);
    } else {
      TokensRan(client, run[..j]);
      OneTokenOnePlace(before, client);
    }
  }

  /** The window matters: a harvest that ends between the two locks of a
      refused call has its client written over, */
  lemma WindowLoses(client: nat)
    ensures var run := [Take(0), Spawn(0), Take(1), EndsWhole(0), PutBack(1)];
            && Possible(New(client), run)
            && Ran(New(client), run) == State(Harvesting, map[], map[])
  {
    var run := [Take(0), Spawn(0), Take(1), EndsWhole(0), PutBack(1)];
    var s := New(client);
    assert run[..0] == [];
    RanNext(s, run, 0);
    RanNext(s, run, 1);
    RanNext(s, run, 2);
    RanNext(s, run, 3);
    RanNext(s, run, 4);
    assert run[..5] == run;
    assert Ran(s, run[..1]) == State(Harvesting, map[0 := Here(client)], map[]);
    assert Ran(s, run[..2]) == State(Harvesting, map[], map[0 := client]);
    assert Ran(s, run[..3]) == State(Harvesting, map[1 := Harvesting], map[0 := client]);
    assert Ran(s, run[..4]) == State(Here(client), map[1 := Harvesting], map[]);
    PossibleNext(s, run, 0);
    PossibleNext(s, run, 1);
    PossibleNext(s, run, 2);
    PossibleNext(s, run, 3);
    PossibleNext(s, run, 4);
  }

  lemma PossibleNext(s: State, run: seq<Step>, i: nat)
    requires i < |run| && Possible(s, run[..i]) && Enabled(Ran(s, run[..i]), run[i])
    ensures Possible(s, run[..i + 1])
  {
    assert run[..i + 1][..i] == run[..i];
  }

  /** and then for good: the line stays lent to a harvest there is not, so no
      call ever gets the client again and none is ever told it is broken. */
  lemma {:induction false} LostForGood(s: State, run: seq<Step>)
    requires s.line == Harvesting && s.harvests == map[] && Bearers(s.hands) == {}
    ensures var s' := Ran(s, run);
            s'.line == Harvesting && s'.harvests == map[] && Bearers(s'.hands) == {}
    decreases |run|
  {
    if |run| > 0 {
      LostForGood(s, run[..|run| - 1]);
      LostStep(Ran(s, run[..|run| - 1]), run[|run| - 1]);
    }
  }

  lemma LostStep(s: State, a: Step)
    requires s.line == Harvesting && s.harvests == map[] && Bearers(s.hands) == {}
    ensures After(s, a).line == Harvesting && After(s, a).harvests == map[] && Bearers(After(s, a).hands) == {}
  {
    assert forall k :: k in s.hands ==> s.hands[k] == Harvesting by {
      forall k | k in s.hands ensures s.hands[k] == Harvesting {
        assert k !in Bearers(s.hands);
      }
    }
  }
}
