/** What a node asks, by the operations of its claim: each request is one the
    claim's rules let it make, and a verdict ends a claimed file exactly where
    it accepts it. */
module Nodes {
  import opened Wire
  import opened Packets
  import opened Directories
  import opened Runs
  import opened Client
  import opened Site
  import Claims

  datatype Verdict = Accepted | Refused | Failed

  /** The verdict on a claimed file, or none where it was let go without one:
      accepted it is removed, and nothing but it; else it is returned. */
  method Told(s: Sftp, claimed: Name, dropped: Name, verdict: Option<Verdict>) returns (r: Result<Option<Restored>>)
    requires s.Idle() && Site.Short(claimed) && Site.Short(dropped)
    requires verdict != Some(Accepted) ==>
               && Tidy(Reached(s.world, s.Next()).dir)
               && Spared(s.schedule, s.me, claimed) && NoWriter(s.world, claimed, s.me)
               && forall t :: t in s.schedule ==> Untargeted(t.before, claimed)
    modifies s
    ensures s.Idle() && r.Ok? && (r.value.None? <==> verdict == Some(Accepted))
    ensures verdict == Some(Accepted) ==>
              var d := Reached(old(s.world), old(s.Next())).dir;
              && s.world.dir == d.(files := d.files - {claimed}, written := d.written - {claimed})
              && s.asked == old(s.asked) + [Request.Remove(old(s.nextId), claimed)]
    ensures verdict != Some(Accepted) ==>
              var d := Reached(old(s.world), old(s.Next())).dir;
              && (r.value.value.Back? <==> claimed in d.files && dropped !in d.files)
              && (r.value.value.Gone? <==> claimed !in d.files)
              && (r.value.value.Back? ==>
                    && claimed !in s.world.dir.files && dropped in s.world.dir.files
                    && s.world.dir.files[dropped] == d.files[claimed]
                    && Modified(s.world.dir, dropped) == Modified(d, claimed))
              && (r.value.value.Kept? ==> SameFile(old(s.world.dir), s.world.dir, claimed))
              && old(s.asked) <= s.asked
              && forall i :: |old(s.asked)| <= i < |s.asked| ==> OfReturning(s.asked[i], claimed, dropped)
  {
    hide Utf8, Numbered, Tidy, Spared, NoWriter, Untargeted, Run, SameFile, Modified;
    if verdict == Some(Accepted) {
      var deleted := Delete(s, claimed);
      r := Ok(None);
    } else {
      var restored := Restore(s, claimed, dropped);
      r := Ok(Some(restored.value));
    }
  }

  /** A node may look, as a listing and the reading of a body or a turn do; may
      claim a dropped file under a name of its own, and return it; */
  lemma OperationsMay(p: Claims.Place, s: Claims.State, n: nat, e: Event, claimed: Name, dropped: Name)
    requires e.Ask?
    requires || Looks(e.q)
             || (&& OfReturning(e.q, claimed, dropped)
                 && p.kind(claimed) == Claims.ClaimedBy(n) && p.kind(dropped).Dropped?)
             || (&& e.q.Rename? && e.q.from == dropped && e.q.to == claimed
                 && p.kind(claimed) == Claims.ClaimedBy(n) && p.kind(dropped).Dropped?)
    ensures Claims.NodeMay(p, s, n, e)
  {
  }

  /** A sender may put a file under a dropped name. */
  lemma SendingMay(p: Claims.Place, s: Claims.State, e: Event, name: Name)
    requires e.Ask? && p.actor(e.chan).Sender? && p.kind(name).Dropped? && OfSending(e.q, name)
    ensures Claims.May(p, s, Claims.Asks(e))
  {
  }

  /** The node's RENAME that claimed the file under `name`, or its open that
      took the turn of that name. */
  predicate Gained(p: Claims.Place, s: Claims.State, a: Claims.Act, n: nat, name: Name) {
    && a.Asks? && p.actor(a.e.chan) == Claims.Node(n)
    && match Claims.EffectOf(s.world, a.e)
       case Move(_, to) => to == name && p.kind(name) == Claims.ClaimedBy(n)
       case Touch(made) => made == name && p.kind(name).Turn? && name !in s.world.dir.files
       case _ => false
  }

  /** The node returned or removed the file itself, or was started anew. */
  predicate Parted(p: Claims.Place, s: Claims.State, a: Claims.Act, n: nat, name: Name) {
    match a
    case Restarts(m) => m == n
    case Asks(e) =>
      && p.actor(e.chan) == Claims.Node(n)
      && match Claims.EffectOf(s.world, e)
         case Move(from, _) => from == name
         case Drop(m) => m == name
         case _ => false
  }

  predicate Knows(p: Claims.Place, s: Claims.State, n: nat, name: Name) {
    var b := Claims.BeliefOf(s, n);
    if p.kind(name).Turn? then name in b.turns else name in b.claims
  }

  lemma GainedKnows(p: Claims.Place, s: Claims.State, a: Claims.Act, n: nat, name: Name)
    requires Claims.Inv(p, s) && Gained(p, s, a, n, name)
    ensures Knows(p, Claims.After(p, s, a), n, name)
  {
    hide Claims.EffectOf, Claims.Kept, Claims.HeldTruly, Claims.HandlesTruly, Step, Claims.Booked;
    MovesThere(s.world, a.e);
  }

  lemma MovesThere(w: World, e: Event)
    ensures var f := Claims.EffectOf(w, e); f.Move? ==> f.from in w.dir.files
  {
    hide Claims.Effected;
  }

  lemma KnowsStill(p: Claims.Place, s: Claims.State, a: Claims.Act, n: nat, name: Name)
    requires Knows(p, s, n, name) && !Parted(p, s, a, n, name)
    ensures Knows(p, Claims.After(p, s, a), n, name)
  {
    hide Claims.EffectOf, Step, Claims.Booked, Claims.BeginsRead, Claims.TurnRead, Answered;
  }

  lemma {:induction false} KnowsSince(p: Claims.Place, s: Claims.State, acts: seq<Claims.Act>, k: nat, n: nat,
                                      name: Name)
    requires Claims.Begins(p, s) && Claims.MayAll(p, s, acts) && k < |acts|
    requires Gained(p, Claims.Acted(p, s, acts[..k]), acts[k], n, name)
    requires forall j :: k < j < |acts| ==> !Parted(p, Claims.Acted(p, s, acts[..j]), acts[j], n, name)
    ensures Knows(p, Claims.Acted(p, s, acts), n, name)
    decreases |acts|
  {
    hide Claims.Begins, Claims.May, Claims.After, Claims.Inv, Gained, Knows, Parted;
    var last := |acts| - 1;
    if k == last {
      Claims.InvRun(p, s, acts[..k]);
      GainedKnows(p, Claims.Acted(p, s, acts[..k]), acts[k], n, name);
    } else {
      var before := acts[..last];
      assert before[..k] == acts[..k];
      forall j | k < j < last ensures !Parted(p, Claims.Acted(p, s, before[..j]), before[j], n, name) {
        assert before[..j] == acts[..j];
      }
      KnowsSince(p, s, before, k, n, name);
      KnowsStill(p, Claims.Acted(p, s, before), acts[last], n, name);
    }
  }

  /** may delete, as `Delete` asks it, a file it claimed or a turn it took, from
      then until it returns or removes it or is started anew, whatever others
      do, a turn not while it is reading it; */
  lemma DeletingMay(p: Claims.Place, s: Claims.State, acts: seq<Claims.Act>, k: nat, n: nat, e: Event)
    requires Claims.Begins(p, s) && Claims.MayAll(p, s, acts) && k < |acts| && e.Ask? && e.q.Remove?
    requires Gained(p, Claims.Acted(p, s, acts[..k]), acts[k], n, e.q.name)
    requires forall j :: k < j < |acts| ==> !Parted(p, Claims.Acted(p, s, acts[..j]), acts[j], n, e.q.name)
    requires p.kind(e.q.name).Turn? ==> !Claims.MidRead(Claims.Acted(p, s, acts), n, e.q.name)
    ensures Claims.NodeMay(p, Claims.Acted(p, s, acts), n, e)
  {
    hide Claims.Begins, Claims.MayAll, Claims.Acted, Claims.MidRead, Parted;
    KnowsSince(p, s, acts, k, n, e.q.name);
  }

  /** and may take a turn: the open, and the write of its name through the
      handle the open gave it, whatever other nodes and senders do in between,
      as long as the node itself does not give the turn up. */
  lemma TakingMay(p: Claims.Place, s: Claims.State, acts: seq<Claims.Act>, k: nat, n: nat, e: Event, turn: Name)
    requires Claims.Untorn(p) && Claims.Begins(p, s) && Claims.MayAll(p, s, acts)
    requires e.Ask? && OfTaking(e.q, turn, p.claimant(n)) && p.kind(turn).Turn?
    requires e.q.Write? ==>
               && k < |acts| && Took(p, Claims.Acted(p, s, acts[..k]), acts[k], n, turn)
               && (forall j :: k < j < |acts| ==> !Claims.GivesUp(p, Claims.Acted(p, s, acts[..j]), acts[j], n, turn))
               && WritesTo(Claims.Acted(p, s, acts).world, e, turn)
    ensures Claims.NodeMay(p, Claims.Acted(p, s, acts), n, e)
  {
    hide Claims.Untorn, Claims.Begins, Claims.MayAll, Claims.HoldsTurn, Claims.GivesUp;
    if e.q.Write? {
      assert acts[..k + 1][..k] == acts[..k];
      Claims.MayAllPrefix(p, s, acts, k);
      Claims.InvRun(p, s, acts[..k]);
      TookHolds(p, Claims.Acted(p, s, acts[..k]), acts[k], n, turn);
      Claims.TurnKept(p, s, acts, k + 1, n, turn);
    }
  }

  lemma KnowsNot(p: Claims.Place, s: Claims.State, a: Claims.Act, n: nat, name: Name)
    requires p.kind(name) == Claims.ClaimedBy(n) && !Gained(p, s, a, n, name)
    ensures name in Claims.BeliefOf(Claims.After(p, s, a), n).claims ==>
              name in Claims.BeliefOf(s, n).claims && !(a.Restarts? && a.node == n)
  {
    hide Claims.EffectOf, Step, Claims.Booked, Claims.BeginsRead, Claims.TurnRead, Answered;
  }

  /** A node started anew removes none of the files claimed under its name
      before, in no run, until it claims one anew: it can only return them. */
  lemma {:induction false} RestartedReturns(p: Claims.Place, s: Claims.State, acts: seq<Claims.Act>, k: nat, n: nat,
                                            e: Event)
    requires k < |acts| && acts[k] == Claims.Restarts(n) && e.Ask? && e.q.Remove?
    requires p.kind(e.q.name) == Claims.ClaimedBy(n)
    requires forall j :: k < j < |acts| ==> !Gained(p, Claims.Acted(p, s, acts[..j]), acts[j], n, e.q.name)
    ensures e.q.name !in Claims.BeliefOf(Claims.Acted(p, s, acts), n).claims
    ensures !Claims.NodeMay(p, Claims.Acted(p, s, acts), n, e)
    decreases |acts|
  {
    hide Claims.After, Gained;
    var last := |acts| - 1;
    var before := acts[..last];
    if k == last {
      RestartForgets(p, Claims.Acted(p, s, before), n);
    } else {
      forall j | k < j < last ensures !Gained(p, Claims.Acted(p, s, before[..j]), before[j], n, e.q.name) {
        assert before[..j] == acts[..j];
      }
      RestartedReturns(p, s, before, k, n, e);
      KnowsNot(p, Claims.Acted(p, s, before), acts[last], n, e.q.name);
    }
  }

  lemma RestartForgets(p: Claims.Place, s: Claims.State, n: nat)
    ensures Claims.BeliefOf(Claims.After(p, s, Claims.Restarts(n)), n).claims == map[]
  {
  }

  /** The exclusive open that took the turn. */
  predicate Took(p: Claims.Place, s: Claims.State, a: Claims.Act, n: nat, turn: Name) {
    a.Asks? && p.actor(a.e.chan) == Claims.Node(n) && TurnTaken(s.world, a.e, turn)
  }

  lemma TookHolds(p: Claims.Place, s: Claims.State, a: Claims.Act, n: nat, turn: Name)
    requires Took(p, s, a, n, turn) && p.kind(turn).Turn? && Claims.Inv(p, s)
    ensures Claims.HoldsTurn(p, Claims.After(p, s, a), n, turn)
  {
    hide HandleName, Claims.HeldTruly, Claims.HandlesTruly, Claims.Kept;
    assert Claims.EffectOf(s.world, a.e) == Claims.Touch(turn);
  }

  /** What a turn holds: nothing, or a node's name. */
  ghost predicate OneName(p: Claims.Place, file: Bytes) {
    file == [] || exists n :: n in p.nodes && file == p.claimant(n)
  }

  /** What a turn's reading comes to, each READ finding it empty, gone or with
      a node's name in it, is a weave of names: the text a node goes by. */
  lemma {:induction false} HolderWeaves(p: Claims.Place, found: seq<Bytes>) returns (nodes: seq<nat>)
    requires forall file :: file in found ==> OneName(p, file)
    ensures Pieced(found) == Claims.Weave(p, nodes) && forall n :: n in nodes ==> n in p.nodes
    decreases |found|
  {
    if |found| == 0 {
      nodes := [];
    } else {
      var last := found[|found| - 1];
      assert OneName(p, last);
      nodes := HolderWeaves(p, found[..|found| - 1]);
      if last != [] {
        var n :| n in p.nodes && last == p.claimant(n);
        assert (nodes + [n])[..|nodes|] == nodes;
        nodes := nodes + [n];
      }
    }
  }
}
