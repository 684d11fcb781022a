/** A harvest: the thread that owns the client for one receive, and the
    consumers' threads that ask it, through its request queue, for the bodies
    of the claimed files and tell it their verdicts. Every send, receive,
    request to the far end and lock is one step; a channel of one blocks its
    sender while it is full. */
module Harvest {
  import opened Wire
  import Lending

  /** What goes through a body's channel. */
  datatype Item = Chunk(bytes: Bytes) | End | Failed

  /** A claimed file's body: not asked for; open, with what its channel holds
      and what its reader got so far; ended, the whole of it or not; or let go
      before its end. */
  datatype Body =
    | Unread
    | Open(reader: nat, item: Option<Item>, got: seq<Bytes>)
    | Ended(got: seq<Bytes>, whole: bool)
    | Dropped

  /** What became of an arrival: nothing yet, a verdict being told by a
      thread, a verdict told, or let go without one. */
  datatype Fate = Pending | Telling(teller: nat) | Judged | LetGo

  /** A consumer's thread: free; waiting for a chunk; waiting until a verdict,
      or that there is none, is taken; closing, as the last to let go does,
      arrival by arrival; or waiting for the harvest to finish. */
  datatype Thread =
    | Free
    | Reads(body: nat)
    | Tells(arrival: nat, verdict: bool, answered: bool)
    | Closes(at: nat)
    | Finishes(answered: bool)

  datatype Request = Read(body: nat) | Tell(arrival: nat, verdict: bool, who: nat) | Finish(who: nat)

  /** The harvest's thread: listing and claiming; an empty harvest giving the
      client back and saying so; waiting for a request; opening, reading and
      sending a body, closing its handle, sending its end; telling a verdict;
      giving the client back, saying so; or over. */
  datatype Server =
    | Taking
    | EmptyReturning
    | EmptyTelling
    | Waiting
    | Opening(body: nat)
    | Pulling(body: nat, at: nat)
    | Pushing(body: nat, at: nat)
    | Closing(body: nat, last: Option<Item>)
    | Ending(body: nat, last: Option<Item>)
    | Answering(arrival: nat, verdict: bool, who: nat)
    | Returning(who: nat)
    | Notifying(who: nat)
    | Over

  /** What the receive that started the harvest was told. */
  datatype Listing = Unlisted | Full | Empty | Refused

  /** Everything of one harvest: the client and the line; the chunks of each
      claimed file; the bodies and fates; the threads; the requests not yet
      taken; the harvest's thread; which thread closes; and the verdicts told,
      in order. */
  datatype State = State(
    client: nat,
    line: Lending.Line,
    listing: Listing,
    files: seq<seq<Bytes>>,
    bodies: seq<Body>,
    fates: seq<Fate>,
    threads: seq<Thread>,
    queue: seq<Request>,
    server: Server,
    closer: Option<nat>,
    log: seq<(nat, bool)>)

  datatype Step =
    | TakesSome | TakesNone | TakeBreaks | ReturnsEmpty | TellsEmpty
    | Receives | Opens | OpenFails | Pulls | PullFails | Pushes | ClosesHandle | CloseBreaks | PushesLast
    | Answers | Returns | ReturnBreaks | Notifies
    | Start(t: nat, i: nat) | Again(t: nat, i: nat) | Gets(t: nat) | Drops(t: nat, i: nat)
    | Judges(t: nat, i: nat) | Forgoes(t: nat, i: nat) | Hears(t: nat) | GoesOn(t: nat)

  // ------------------------------------------------------------------- steps

  predicate Settled(f: Fate) {
    f.Judged? || f.LetGo?
  }

  predicate AllSettled(fates: seq<Fate>) {
    forall i :: 0 <= i < |fates| ==> Settled(fates[i])
  }

  predicate HoldsOpen(s: State, t: nat, i: nat) {
    i < |s.bodies| && s.bodies[i].Open? && s.bodies[i].reader == t
  }

  /** Thread `t` has a body it started and neither drained nor dropped. */
  predicate HasOpen(s: State, t: nat) {
    exists i :: 0 <= i < |s.bodies| && HoldsOpen(s, t, i)
  }

  predicate Idle(s: State, t: nat) {
    s.listing.Full? && !s.server.Over? && t < |s.threads| && s.threads[t].Free?
  }

  function BodyOf(s: State, i: nat): Body {
    if i < |s.bodies| then s.bodies[i] else Dropped
  }

  function FileOf(s: State, i: nat): seq<Bytes> {
    if i < |s.files| then s.files[i] else []
  }

  /** The body's channel is open and full: a send to it blocks. */
  predicate Blocked(b: Body) {
    b.Open? && b.item.Some?
  }

  predicate Enabled(s: State, a: Step) {
    match a
    case TakesSome => s.server.Taking? && |s.files| > 0
    case TakesNone => s.server.Taking?
    case TakeBreaks => s.server.Taking?
    case ReturnsEmpty => s.server.EmptyReturning?
    case TellsEmpty => s.server.EmptyTelling?
    case Receives => s.server.Waiting? && |s.queue| > 0
    case Opens => s.server.Opening?
    case OpenFails => s.server.Opening?
    case Pulls => s.server.Pulling?
    case PullFails => s.server.Pulling?
    case Pushes => s.server.Pushing? && !Blocked(BodyOf(s, s.server.body))
    case ClosesHandle => s.server.Closing?
    case CloseBreaks => s.server.Closing?
    case PushesLast => s.server.Ending? && !Blocked(BodyOf(s, s.server.body))
    case Answers => s.server.Answering?
    case Returns => s.server.Returning?
    case ReturnBreaks => s.server.Returning? || s.server.EmptyReturning?
    case Notifies => s.server.Notifying?
    case Start(t, i) => Idle(s, t) && i < |s.bodies| == |s.fates| && s.bodies[i].Unread?
    case Again(t, i) => Idle(s, t) && HoldsOpen(s, t, i)
    case Gets(t) =>
      && s.listing.Full? && !s.server.Over? && t < |s.threads| && s.threads[t].Reads?
      && Blocked(BodyOf(s, s.threads[t].body))
    case Drops(t, i) => Idle(s, t) && HoldsOpen(s, t, i)
    case Judges(t, i) => Idle(s, t) && i < |s.bodies| == |s.fates| && s.fates[i].Pending?
    case Forgoes(t, i) => Idle(s, t) && i < |s.bodies| == |s.fates| && s.fates[i].Pending?
    case Hears(t) =>
      && s.listing.Full? && !s.server.Over? && t < |s.threads| && s.threads[t].Tells? && s.threads[t].answered
      && s.threads[t].arrival < |s.fates|
    case GoesOn(t) =>
      s.listing.Full? && !s.server.Over? && t < |s.threads| && s.threads[t].Closes? && s.threads[t].at <= |s.fates|
  }

  /** The discipline of a consumer: it drains or drops a body it started before
      it asks anything else. */
  predicate Draining(s: State, a: Step) {
    a.Start? || a.Judges? || a.Forgoes? ==> !HasOpen(s, a.t)
  }

  /** A body is asked for before its arrival is settled. */
  predicate Prompt(s: State, a: Step) {
    a.Start? && a.i < |s.fates| ==> s.fates[a.i].Pending?
  }

  /** An item into a body's channel; nowhere, where the body is gone. */
  function Sent(s: State, i: nat, item: Item): seq<Body> {
    if i < |s.bodies| && s.bodies[i].Open? then s.bodies[i := s.bodies[i].(item := Some(item))] else s.bodies
  }

  function Woken(s: State, t: nat, v: Thread): seq<Thread> {
    if t < |s.threads| then s.threads[t := v] else s.threads
  }

  /** Thread `t` settled arrival `i`: the last to do so closes. */
  function Settles(s: State, t: nat, i: nat, f: Fate): State
    requires i < |s.fates| && t < |s.threads|
  {
    var fates := s.fates[i := f];
    if AllSettled(fates) then s.(fates := fates, threads := s.threads[t := Closes(0)], closer := Some(t))
    else s.(fates := fates, threads := s.threads[t := Free])
  }

  /** The server's thread once it took the request. */
  function Serving(r: Request): Server {
    match r
    case Read(i) => Opening(i)
    case Tell(i, v, t) => Answering(i, v, t)
    case Finish(t) => Returning(t)
  }

  function ServerStep(s: State, a: Step): State
    requires Enabled(s, a)
  {
    match a
    case TakesSome => s.(server := Waiting, listing := Full)
    case TakesNone => s.(server := EmptyReturning)
    case TakeBreaks => s.(server := Over, line := Lending.Broken, listing := Refused)
    case ReturnsEmpty => s.(server := EmptyTelling, line := Lending.Here(s.client))
    case TellsEmpty => s.(server := Over, listing := Empty)
    case Receives => s.(server := Serving(s.queue[0]), queue := s.queue[1..])
    case Opens => s.(server := Pulling(s.server.body, 0))
    case OpenFails => s.(server := Waiting, bodies := Sent(s, s.server.body, Failed))
    case Pulls =>
      var i, at := s.server.body, s.server.at;
      s.(server := if at < |FileOf(s, i)| then Pushing(i, at) else Closing(i, Some(End)))
    case PullFails => s.(server := Closing(s.server.body, Some(Failed)))
    case Pushes =>
      var i, at := s.server.body, s.server.at;
      if BodyOf(s, i).Open? && at < |FileOf(s, i)| then
        s.(server := Pulling(i, at + 1), bodies := Sent(s, i, Chunk(FileOf(s, i)[at])))
      else s.(server := Closing(i, None))
    case ClosesHandle =>
      s.(server := if s.server.last.Some? then Ending(s.server.body, s.server.last) else Waiting)
    case CloseBreaks => s.(server := Over, line := Lending.Broken)
    case PushesLast =>
      s.(server := Waiting,
         bodies := if s.server.last.Some? then Sent(s, s.server.body, s.server.last.value) else s.bodies)
    case Answers =>
      var Answering(i, v, t) := s.server;
      s.(server := Waiting, log := s.log + [(i, v)], threads := Woken(s, t, Tells(i, v, true)))
    case Returns => s.(server := Notifying(s.server.who), line := Lending.Here(s.client))
    case ReturnBreaks =>
      s.(server := Over, line := Lending.Broken, listing := if s.server.EmptyReturning? then Refused else s.listing)
    case Notifies => s.(server := Over, threads := Woken(s, s.server.who, Finishes(true)))
    case _ => s
  }

  function ThreadStep(s: State, a: Step): State
    requires Enabled(s, a)
  {
    match a
    case Start(t, i) =>
      s.(bodies := s.bodies[i := Open(t, None, [])], threads := s.threads[t := Reads(i)], queue := s.queue + [Read(i)])
    case Again(t, i) => s.(threads := s.threads[t := Reads(i)])
    case Gets(t) =>
      var i := s.threads[t].body;
      var b := s.bodies[i];
      s.(threads := s.threads[t := Free],
         bodies := s.bodies[i := match b.item.value
                                 case Chunk(bytes) => Open(b.reader, None, b.got + [bytes])
                                 case End => Ended(b.got, true)
                                 case Failed => Ended(b.got, false)])
    case Drops(t, i) => s.(bodies := s.bodies[i := Dropped])
    case Judges(t, i) =>
      s.(fates := s.fates[i := Telling(t)], threads := s.threads[t := Tells(i, true, false)],
         queue := s.queue + [Tell(i, true, t)])
    case Forgoes(t, i) => Settles(s, t, i, LetGo)
    case Hears(t) =>
      var i := s.threads[t].arrival;
      if s.threads[t].verdict then Settles(s, t, i, Judged) else s.(threads := s.threads[t := Closes(i + 1)])
    case GoesOn(t) =>
      var at := s.threads[t].at;
      if at == |s.fates| then s.(threads := s.threads[t := Finishes(false)], queue := s.queue + [Finish(t)])
      else if s.fates[at].LetGo? then
        s.(threads := s.threads[t := Tells(at, false, false)], queue := s.queue + [Tell(at, false, t)])
      else s.(threads := s.threads[t := Closes(at + 1)])
    case _ => s
  }

  predicate IsThreads(a: Step) {
    a.Start? || a.Again? || a.Gets? || a.Drops? || a.Judges? || a.Forgoes? || a.Hears? || a.GoesOn?
  }

  function After(s: State, a: Step): State {
    if !Enabled(s, a) then s else if IsThreads(a) then ThreadStep(s, a) else ServerStep(s, a)
  }

  /** A harvest begun: the client lent, nothing listed, every thread free. */
  ghost predicate Begins(s: State) {
    && s.line == Lending.Harvesting && s.listing.Unlisted? && s.server.Taking? && s.closer.None?
    && s.queue == [] && s.log == []
    && |s.bodies| == |s.fates| == |s.files| && |s.threads| > 0
    && (forall i :: 0 <= i < |s.bodies| ==> s.bodies[i].Unread? && s.fates[i].Pending?)
    && (forall t :: 0 <= t < |s.threads| ==> s.threads[t].Free?)
  }

  function Ran(s: State, run: seq<Step>): State
    decreases |run|
  {
    if |run| == 0 then s else After(Ran(s, run[..|run| - 1]), run[|run| - 1])
  }

  /** Every step of the run was enabled. */
  predicate Possible(s: State, run: seq<Step>)
    decreases |run|
  {
    |run| == 0 ||
    (Possible(s, run[..|run| - 1]) && Enabled(Ran(s, run[..|run| - 1]), run[|run| - 1]))
  }

  /** Every consumer kept to the discipline throughout. */
  predicate Drained(s: State, run: seq<Step>)
    decreases |run|
  {
    |run| == 0 ||
    (Drained(s, run[..|run| - 1]) && Draining(Ran(s, run[..|run| - 1]), run[|run| - 1]))
  }

  /** No body was asked for once its arrival was settled. */
  predicate AllPrompt(s: State, run: seq<Step>)
    decreases |run|
  {
    |run| == 0 ||
    (AllPrompt(s, run[..|run| - 1]) && Prompt(Ran(s, run[..|run| - 1]), run[|run| - 1]))
  }

  // -------------------------------------------------- what every step keeps

  /** The request the harvest's thread is at. */
  function Served(v: Server): set<Request> {
    match v
    case Opening(i) => {Read(i)}
    case Pulling(i, _) => {Read(i)}
    case Pushing(i, _) => {Read(i)}
    case Closing(i, _) => {Read(i)}
    case Ending(i, _) => {Read(i)}
    case Answering(i, v, t) => {Tell(i, v, t)}
    case Returning(t) => {Finish(t)}
    case Notifying(t) => {Finish(t)}
    case _ => {}
  }

  function Queued(queue: seq<Request>): set<Request> {
    set r | r in queue
  }

  /** The requests asked and not yet served. */
  function Out(s: State): set<Request> {
    Queued(s.queue) + Served(s.server)
  }

  predicate Early(v: Server) {
    v.Taking? || v.EmptyReturning? || v.EmptyTelling?
  }

  /** Nothing has been asked. */
  ghost predicate Untouched(s: State) {
    && s.queue == [] && s.log == [] && s.closer.None? && (Early(s.server) || s.server.Over?)
    && (forall i :: 0 <= i < |s.bodies| ==> s.bodies[i].Unread?)
    && (forall i :: 0 <= i < |s.fates| ==> s.fates[i].Pending?)
    && (forall t :: 0 <= t < |s.threads| ==> s.threads[t].Free?)
  }

  ghost predicate Shaped(s: State) {
    && |s.bodies| == |s.fates| == |s.files| && |s.threads| > 0
    && (s.listing.Unlisted? <==> Early(s.server))
    && (s.listing.Full? ==> |s.files| > 0)
    && (!s.listing.Full? ==> Untouched(s))
  }

  /** No request is asked twice. */
  ghost predicate Once(s: State) {
    && (forall j, k :: 0 <= j < k < |s.queue| ==> s.queue[j] != s.queue[k])
    && (forall r :: r in Served(s.server) ==> r !in s.queue)
  }

  /** Every request asked has whoever waits for it, or a body it is for. */
  predicate HasAsker(s: State, r: Request) {
    match r
    case Read(i) => i < |s.bodies| && (s.bodies[i].Open? || s.bodies[i].Dropped?)
    case Tell(i, v, t) => i < |s.fates| && t < |s.threads| && s.threads[t] == Tells(i, v, false)
    case Finish(t) => t < |s.threads| && s.threads[t] == Finishes(false)
  }

  ghost predicate Asked(s: State) {
    forall r :: r in Out(s) ==> HasAsker(s, r)
  }

  /** Whoever waits is waiting for a request asked, for a chunk of a body it
      opened, or has its answer. */
  predicate Waits(s: State, t: nat)
    requires t < |s.threads|
  {
    match s.threads[t]
    case Reads(i) => i < |s.bodies| && s.bodies[i].Open? && s.bodies[i].reader == t
    case Tells(i, v, false) => Tell(i, v, t) in Out(s)
    case Finishes(false) => s.server.Over? || Finish(t) in Out(s)
    case Finishes(true) => s.server.Over?
    case _ => true
  }

  ghost predicate Awaited(s: State) {
    forall t :: 0 <= t < |s.threads| ==> Waits(s, t)
  }

  predicate IsLast(item: Option<Item>) {
    item == Some(End) || item == Some(Failed)
  }

  /** An open body has a reader, and while it is not at its end the harvest is
      yet to get to it or is reading it. */
  predicate Attended(s: State, i: nat)
    requires i < |s.bodies|
  {
    s.bodies[i].Open? ==>
      var b := s.bodies[i];
      && b.reader < |s.threads|
      && (!s.server.Over? ==> (Read(i) in Out(s) <==> !IsLast(b.item)))
  }

  ghost predicate Attentive(s: State) {
    forall i :: 0 <= i < |s.bodies| ==> Attended(s, i)
  }

  /** A verdict is being told by the thread that waits for its answer. */
  predicate TellerOf(s: State, i: nat)
    requires i < |s.fates|
  {
    s.fates[i].Telling? ==>
      var t := s.fates[i].teller;
      t < |s.threads| && s.threads[t].Tells? && s.threads[t].arrival == i && s.threads[t].verdict
  }

  predicate ToldOf(s: State, t: nat)
    requires t < |s.threads|
  {
    s.threads[t].Tells? ==>
      var i := s.threads[t].arrival;
      i < |s.fates| && s.fates[i] == if s.threads[t].verdict then Telling(t) else LetGo
  }

  ghost predicate Fated(s: State) {
    && (forall i :: 0 <= i < |s.fates| ==> TellerOf(s, i))
    && (forall t :: 0 <= t < |s.threads| ==> ToldOf(s, t))
  }

  predicate IsClosing(th: Thread) {
    th.Closes? || th.Finishes? || (th.Tells? && !th.verdict)
  }

  /** One thread closes, once every arrival is settled. */
  ghost predicate ClosedByOne(s: State) {
    && (s.listing.Full? ==> (s.closer.Some? <==> AllSettled(s.fates)))
    && (s.closer.Some? ==> s.closer.value < |s.threads|)
    && (forall t :: 0 <= t < |s.threads| ==> (IsClosing(s.threads[t]) <==> s.closer == Some(t)))
    && (forall t :: 0 <= t < |s.threads| && s.threads[t].Closes? ==> s.threads[t].at <= |s.fates|)
  }

  /** Where the harvest's thread can be with a body: it sends what the file
      has, sends its end as its end, and sends nothing only to a body gone. */
  predicate Sane(s: State) {
    match s.server
    case Pushing(i, at) => at < |FileOf(s, i)|
    case Closing(i, last) => IsLast(last) || (last.None? && BodyOf(s, i).Dropped?)
    case Ending(i, last) => IsLast(last)
    case _ => true
  }

  ghost predicate Inv(s: State) {
    Shaped(s) && Once(s) && Asked(s) && Awaited(s) && Attentive(s) && Fated(s) && ClosedByOne(s) && Sane(s)
  }

  // ----------------------------------------------------------------- requests

  lemma QueuePops(queue: seq<Request>)
    requires |queue| > 0
    requires forall j, k :: 0 <= j < k < |queue| ==> queue[j] != queue[k]
    ensures Queued(queue) == Queued(queue[1..]) + {queue[0]} && queue[0] !in queue[1..]
  {
    assert queue == [queue[0]] + queue[1..];
  }

  lemma QueueGrows(queue: seq<Request>, r: Request)
    ensures Queued(queue + [r]) == Queued(queue) + {r}
  {
  }

  /** The request a step adds to those asked, and the one it serves. */
  function Adds(s: State, a: Step): set<Request>
    requires Enabled(s, a)
  {
    match a
    case Start(t, i) => {Read(i)}
    case Judges(t, i) => {Tell(i, true, t)}
    case GoesOn(t) =>
      var at := s.threads[t].at;
      if at == |s.fates| then {Finish(t)}
      else if s.fates[at].LetGo? then {Tell(at, false, t)} else {}
    case _ => {}
  }

  predicate Serves(s: State, a: Step)
    requires Enabled(s, a)
  {
    a.OpenFails? || a.PushesLast? || a.Answers? || a.Notifies? || a.CloseBreaks? || a.ReturnBreaks?
    || (a.ClosesHandle? && s.server.last.None?)
  }

  lemma AskerOf(s: State, r: Request)
    requires Asked(s) && r in Served(s.server)
    ensures HasAsker(s, r)
  {
    assert r in Out(s);
  }

  lemma OutServer(s: State, a: Step)
    requires Enabled(s, a) && !IsThreads(a) && Once(s)
    ensures Out(After(s, a)) == if Serves(s, a) then Out(s) - Served(s.server) else Out(s)
    ensures Served(s.server) <= Out(s)
  {
    if a.Receives? {
      hide Sent, Woken;
      QueuePops(s.queue);
    } else {
      ServedAfter(s, a);
      hide Enabled, After, Served, Serves;
    }
  }

  lemma ServedAfter(s: State, a: Step)
    requires Enabled(s, a) && !IsThreads(a) && !a.Receives?
    ensures After(s, a).queue == s.queue
    ensures Served(After(s, a).server) == if Serves(s, a) then {} else Served(s.server)
  {
    hide Sent, Woken;
  }

  lemma OutThread(s: State, a: Step)
    requires Enabled(s, a) && IsThreads(a)
    ensures Out(After(s, a)) == Out(s) + Adds(s, a)
    ensures After(s, a).server == s.server
  {
    match a
    case Start(t, i) => QueueGrows(s.queue, Read(i));
    case Judges(t, i) => QueueGrows(s.queue, Tell(i, true, t));
    case GoesOn(t) =>
      var at := s.threads[t].at;
      if at == |s.fates| {
        QueueGrows(s.queue, Finish(t));
      } else if s.fates[at].LetGo? {
        QueueGrows(s.queue, Tell(at, false, t));
      }
    case _ =>
  }

  /** A request is asked anew. */
  lemma AddsFresh(s: State, a: Step)
    requires Enabled(s, a) && IsThreads(a) && Asked(s)
    ensures Adds(s, a) !! Out(s)
  {
    forall r | r in Adds(s, a) ensures r !in Out(s) {
      assert !HasAsker(s, r);
    }
  }

  lemma OnceThread(s: State, a: Step)
    requires Enabled(s, a) && IsThreads(a) && Once(s) && Asked(s)
    ensures Once(After(s, a))
  {
    hide Asked, HasAsker, AllSettled, Sent;
    AddsFresh(s, a);
    var s' := After(s, a);
    assert forall r :: r in Adds(s, a) ==> s'.queue == s.queue + [r] && r !in s.queue && r !in Served(s.server);
    assert Adds(s, a) == {} ==> s'.queue == s.queue;
  }

  lemma OnceServer(s: State, a: Step)
    requires Enabled(s, a) && !IsThreads(a) && Once(s)
    ensures Once(After(s, a))
  {
    hide Sent, Woken;
    if a.Receives? {
      QueuePops(s.queue);
    }
  }

  lemma ShapedStep(s: State, a: Step)
    requires Enabled(s, a) && Shaped(s)
    ensures Shaped(After(s, a))
  {
    hide AllSettled;
  }

  lemma AskedServer(s: State, a: Step)
    requires Enabled(s, a) && !IsThreads(a) && Once(s) && Asked(s)
    ensures Asked(After(s, a))
  {
    hide Out, Once;
    OutServer(s, a);
    var s' := After(s, a);
    assert forall r :: r in Served(s.server) ==> HasAsker(s, r);
    forall r | r in Out(s') ensures HasAsker(s', r) {
      assert HasAsker(s, r);
    }
  }

  lemma AskedThread(s: State, a: Step)
    requires Enabled(s, a) && IsThreads(a) && Asked(s) && Shaped(s) && Awaited(s) && Attentive(s)
    ensures Asked(After(s, a))
  {
    hide Out, AllSettled, Untouched;
    OutThread(s, a);
    var s' := After(s, a);
    if a.Gets? {
      assert Waits(s, a.t) && Attended(s, s.threads[a.t].body);
    }
    forall r | r in Out(s') ensures HasAsker(s', r) {
      if r in Out(s) {
        assert HasAsker(s, r);
      }
    }
  }

  lemma AwaitedServer(s: State, a: Step)
    requires Enabled(s, a) && !IsThreads(a) && Once(s) && Asked(s) && Awaited(s)
    ensures Awaited(After(s, a))
  {
    hide Out, Once;
    OutServer(s, a);
    var s' := After(s, a);
    assert forall r :: r in Served(s.server) ==> HasAsker(s, r);
    forall t | 0 <= t < |s'.threads| ensures Waits(s', t) {
      assert Waits(s, t);
    }
  }

  lemma AwaitedThread(s: State, a: Step)
    requires Enabled(s, a) && IsThreads(a) && Shaped(s) && Awaited(s) && Attentive(s)
    ensures Awaited(After(s, a))
  {
    hide Out, AllSettled, Untouched;
    OutThread(s, a);
    var s' := After(s, a);
    if a.Gets? {
      assert Waits(s, a.t);
    }
    forall t | 0 <= t < |s'.threads| ensures Waits(s', t) {
      assert Waits(s, t);
    }
  }

  lemma AttentiveServer(s: State, a: Step)
    requires Enabled(s, a) && !IsThreads(a) && Once(s) && Shaped(s) && Asked(s) && Attentive(s) && Sane(s)
    ensures Attentive(After(s, a))
  {
    hide Out, Once, Untouched;
    OutServer(s, a);
    var s' := After(s, a);
    assert forall r :: r in Served(s.server) ==> HasAsker(s, r);
    forall i | 0 <= i < |s'.bodies| ensures Attended(s', i) {
      assert Attended(s, i);
    }
  }

  lemma AttentiveThread(s: State, a: Step)
    requires Enabled(s, a) && IsThreads(a) && Shaped(s) && Asked(s) && Awaited(s) && Attentive(s) && Fated(s)
    ensures Attentive(After(s, a))
  {
    hide Out, AllSettled, Untouched, Asked, Fated, Awaited;
    OutThread(s, a);
    ThreadFacts(s, a);
    var s' := After(s, a);
    forall i | 0 <= i < |s'.bodies| ensures Attended(s', i) {
      assert Attended(s, i);
    }
  }

  lemma ThreadFacts(s: State, a: Step)
    requires Enabled(s, a) && IsThreads(a) && Asked(s) && Awaited(s) && Fated(s)
    ensures a.Gets? ==> Waits(s, a.t)
    ensures a.Start? ==> Read(a.i) !in Out(s)
    ensures a.Hears? ==> ToldOf(s, a.t)
  {
    hide Out;
    if a.Start? {
      assert !HasAsker(s, Read(a.i));
    }
  }

  lemma SaneServer(s: State, a: Step)
    requires Enabled(s, a) && !IsThreads(a) && Shaped(s) && Asked(s) && Sane(s)
    ensures Sane(After(s, a))
  {
    if s.server.Pushing? || s.server.Closing? {
      AskerOf(s, Read(s.server.body));
    }
    hide Out, Asked, Untouched, Woken;
  }

  lemma SaneThread(s: State, a: Step)
    requires Enabled(s, a) && IsThreads(a) && Shaped(s) && Sane(s)
    ensures Sane(After(s, a))
  {
    hide Out, Untouched, AllSettled;
  }

  lemma FatedServer(s: State, a: Step)
    requires Enabled(s, a) && !IsThreads(a) && Asked(s) && Fated(s)
    ensures Fated(After(s, a))
  {
    hide Sent;
    if a.Answers? {
      assert HasAsker(s, Tell(s.server.arrival, s.server.verdict, s.server.who));
      assert ToldOf(s, s.server.who);
    }
    if a.Notifies? {
      assert HasAsker(s, Finish(s.server.who));
    }
    var s' := After(s, a);
    forall i | 0 <= i < |s'.fates| ensures TellerOf(s', i) {
      assert TellerOf(s, i);
    }
    forall t | 0 <= t < |s'.threads| ensures ToldOf(s', t) {
      assert ToldOf(s, t);
    }
  }

  lemma FatedThread(s: State, a: Step)
    requires Enabled(s, a) && IsThreads(a) && Fated(s)
    ensures Fated(After(s, a))
  {
    hide Out;
    var s' := After(s, a);
    if a.Hears? {
      assert ToldOf(s, a.t);
    }
    forall i | 0 <= i < |s'.fates| ensures TellerOf(s', i) {
      assert TellerOf(s, i);
    }
    forall t | 0 <= t < |s'.threads| ensures ToldOf(s', t) {
      assert ToldOf(s, t);
    }
  }

  lemma ClosedServer(s: State, a: Step)
    requires Enabled(s, a) && !IsThreads(a) && Asked(s) && Shaped(s) && ClosedByOne(s)
    ensures ClosedByOne(After(s, a))
  {
    hide Sent;
    if a.Answers? {
      assert HasAsker(s, Tell(s.server.arrival, s.server.verdict, s.server.who));
    }
    if a.Notifies? {
      assert HasAsker(s, Finish(s.server.who));
    }
    if a.TakesSome? {
      assert !Settled(s.fates[0]);
    }
  }

  lemma ClosedThread(s: State, a: Step)
    requires Enabled(s, a) && IsThreads(a) && Shaped(s) && Fated(s) && ClosedByOne(s)
    ensures ClosedByOne(After(s, a))
  {
    hide Out, Untouched;
    var s' := After(s, a);
    if a.Hears? {
      assert ToldOf(s, a.t);
      if s.threads[a.t].verdict {
        assert !Settled(s.fates[s.threads[a.t].arrival]);
      }
    }
    if a.Judges? || a.Forgoes? {
      assert !Settled(s.fates[a.i]);
    }
    if a.Judges? {
      assert !Settled(s'.fates[a.i]);
    }
  }

  /** Every step keeps all of it. */
  lemma InvStep(s: State, a: Step)
    requires Inv(s) && Enabled(s, a)
    ensures Inv(After(s, a))
  {
    hide Shaped, Once, Asked, Awaited, Attentive, Fated, ClosedByOne, Sane, Enabled, After;
    LengthsKept(s);
    ShapedStep(s, a);
    LengthsKept(After(s, a));
    if IsThreads(a) {
      SaneThread(s, a);
      OnceThread(s, a);
      AskedThread(s, a);
      AwaitedThread(s, a);
      AttentiveThread(s, a);
      FatedThread(s, a);
      ClosedThread(s, a);
    } else {
      SaneServer(s, a);
      OnceServer(s, a);
      AskedServer(s, a);
      AwaitedServer(s, a);
      AttentiveServer(s, a);
      FatedServer(s, a);
      ClosedServer(s, a);
    }
  }

  lemma LengthsKept(s: State)
    requires Shaped(s)
    ensures |s.bodies| == |s.fates| == |s.files|
  {
  }

  lemma InvBegins(s: State)
    requires Begins(s)
    ensures Inv(s)
  {
    assert Out(s) == {};
    assert s.listing.Unlisted?;
  }

  lemma {:induction false} InvRan(s: State, run: seq<Step>)
    requires Begins(s) && Possible(s, run)
    ensures Inv(Ran(s, run))
    decreases |run|
  {
    hide Inv, Enabled, After, Begins;
    if |run| == 0 {
      InvBegins(s);
    } else {
      var k := |run| - 1;
      InvRan(s, run[..k]);
      InvStep(Ran(s, run[..k]), run[k]);
    }
  }

  // ------------------------------------------------------- nobody waits forever

  /** Thread `t` waits for the harvest to do something else than send to body
      `i`: to take what it told, to finish, or to send it another body. */
  predicate WaitsElsewhere(s: State, t: nat, i: nat) {
    t < |s.threads| &&
    match s.threads[t]
    case Reads(j) => j != i && !Blocked(BodyOf(s, j))
    case Tells(_, _, answered) => !answered
    case Finishes(answered) => !answered
    case _ => false
  }

  /** The harvest waits to send to a body that is full, and the body's reader
      waits for the harvest. */
  predicate Jammed(s: State) {
    && (s.server.Pushing? || s.server.Ending?)
    && Blocked(BodyOf(s, s.server.body))
    && WaitsElsewhere(s, BodyOf(s, s.server.body).reader, s.server.body)
  }

  /** While the harvest is neither over nor jammed some step is possible, one
      that keeps to the discipline: the bounded channels leave everyone waiting
      for someone else in no other way. */
  lemma StepPossible(s: State) returns (a: Step)
    requires Inv(s) && !s.server.Over? && !Jammed(s)
    ensures Enabled(s, a) && Draining(s, a)
  {
    match s.server
    case Taking => a := TakesNone;
    case EmptyReturning => a := ReturnsEmpty;
    case EmptyTelling => a := TellsEmpty;
    case Opening(_) => a := Opens;
    case Pulling(_, _) => a := Pulls;
    case Closing(_, _) => a := ClosesHandle;
    case Answering(_, _, _) => a := Answers;
    case Returning(_) => a := Returns;
    case Notifying(_) => a := Notifies;
    case Pushing(i, _) =>
      if Blocked(BodyOf(s, i)) {
        a := ReaderMoves(s, i);
      } else {
        a := Pushes;
      }
    case Ending(i, _) =>
      if Blocked(BodyOf(s, i)) {
        a := ReaderMoves(s, i);
      } else {
        a := PushesLast;
      }
    case Waiting =>
      if |s.queue| > 0 {
        a := Receives;
      } else {
        a := ThreadMoves(s);
      }
  }

  /** Whose channel is full can take from it, let it go, or go on with what it
      was at, unless it waits for the harvest. */
  lemma ReaderMoves(s: State, i: nat) returns (a: Step)
    requires Inv(s) && !s.server.Over? && s.listing.Full?
    requires Blocked(BodyOf(s, i)) && !WaitsElsewhere(s, BodyOf(s, i).reader, i)
    ensures Enabled(s, a) && Draining(s, a)
  {
    assert Attended(s, i);
    var t := s.bodies[i].reader;
    assert Waits(s, t) && ToldOf(s, t);
    match s.threads[t]
    case Free => a := Drops(t, i);
    case Reads(_) => a := Gets(t);
    case Tells(_, _, _) => a := Hears(t);
    case Closes(_) => a := GoesOn(t);
  }

  /** While the harvest waits with nothing asked, some thread can go on. */
  lemma ThreadMoves(s: State) returns (a: Step)
    requires Inv(s) && s.server.Waiting? && s.queue == []
    ensures Enabled(s, a) && Draining(s, a)
  {
    assert Out(s) == {};
    if t :| 0 <= t < |s.threads| && !s.threads[t].Free? {
      assert Waits(s, t) && ToldOf(s, t);
      match s.threads[t]
      case Reads(i) => assert Attended(s, i); a := Gets(t);
      case Tells(_, _, _) => a := Hears(t);
      case Closes(_) => a := GoesOn(t);
      case Finishes(_) => assert false;
    } else {
      assert s.threads[0].Free?;
      assert s.closer.None?;
      var i :| 0 <= i < |s.fates| && !Settled(s.fates[i]);
      assert TellerOf(s, i);
      if HasOpen(s, 0) {
        var j :| 0 <= j < |s.bodies| && HoldsOpen(s, 0, j);
        a := Drops(0, j);
      } else {
        a := Forgoes(0, i);
      }
    }
  }

  /** What the discipline keeps: an open body's reader is free or waits for
      that body, and has no other open. */
  ghost predicate Orderly(s: State) {
    && (forall t, i :: 0 <= t < |s.threads| && HoldsOpen(s, t, i) ==> s.threads[t].Free? || s.threads[t] == Reads(i))
    && (forall t, i, j :: HoldsOpen(s, t, i) && HoldsOpen(s, t, j) ==> i == j)
  }

  lemma OrderlyThread(s: State, a: Step)
    requires Inv(s) && Orderly(s) && Enabled(s, a) && Draining(s, a) && IsThreads(a)
    ensures Orderly(After(s, a))
  {
    hide Out, AllSettled, Untouched, Once, Asked, Fated, ClosedByOne, Sane, Attentive, FileOf;
    assert a.Gets? ==> Waits(s, a.t);
    var s' := After(s, a);
    assert forall t, i :: HoldsOpen(s', t, i) ==> HoldsOpen(s, t, i) || a == Start(t, i);
  }

  lemma OrderlyServer(s: State, a: Step)
    requires Inv(s) && Orderly(s) && Enabled(s, a) && !IsThreads(a)
    ensures Orderly(After(s, a))
  {
    hide Out, AllSettled, Untouched, Once, Fated, ClosedByOne, Sane, Attentive, FileOf, Awaited;
    AskerOfServed(s);
    var s' := After(s, a);
    assert forall t, i :: HoldsOpen(s', t, i) ==> HoldsOpen(s, t, i);
  }

  lemma AskerOfServed(s: State)
    requires Asked(s)
    ensures s.server.Answering? ==> HasAsker(s, Tell(s.server.arrival, s.server.verdict, s.server.who))
    ensures s.server.Notifying? ==> HasAsker(s, Finish(s.server.who))
  {
    if s.server.Answering? {
      AskerOf(s, Tell(s.server.arrival, s.server.verdict, s.server.who));
    }
    if s.server.Notifying? {
      AskerOf(s, Finish(s.server.who));
    }
  }

  lemma {:induction false} OrderlyRan(s: State, run: seq<Step>)
    requires Begins(s) && Possible(s, run) && Drained(s, run)
    ensures Orderly(Ran(s, run))
    decreases |run|
  {
    hide Inv, Enabled, After, Orderly, Draining, Begins;
    if |run| == 0 {
      OrderlyBegins(s);
    } else {
      var k := |run| - 1;
      OrderlyRan(s, run[..k]);
      InvRan(s, run[..k]);
      if IsThreads(run[k]) {
        OrderlyThread(Ran(s, run[..k]), run[k]);
      } else {
        OrderlyServer(Ran(s, run[..k]), run[k]);
      }
    }
  }

  lemma OrderlyBegins(s: State)
    requires Begins(s)
    ensures Orderly(s)
  {
  }

  lemma OrderlyUnjammed(s: State)
    requires Inv(s) && Orderly(s)
    ensures !Jammed(s)
  {
    hide Out, Once, Asked, Awaited, Fated, ClosedByOne, Sane, Shaped;
    if (s.server.Pushing? || s.server.Ending?) && Blocked(BodyOf(s, s.server.body)) {
      var i := s.server.body;
      assert Attended(s, i);
      assert HoldsOpen(s, s.bodies[i].reader, i);
    }
  }

  /** Deadlock freedom: in every run in which the consumers keep to the
      discipline, until the harvest has ended, some step is possible that
      keeps to it. */
  lemma NeverStuck(s: State, run: seq<Step>) returns (a: Step)
    requires Begins(s) && Possible(s, run) && Drained(s, run)
    ensures !Ran(s, run).server.Over? ==> Enabled(Ran(s, run), a) && Draining(Ran(s, run), a)
  {
    InvRan(s, run);
    OrderlyRan(s, run);
    OrderlyUnjammed(Ran(s, run));
    a := Receives;
    if !Ran(s, run).server.Over? {
      a := StepPossible(Ran(s, run));
    }
  }

  /** Without the discipline: a run that can go no further has ended the
      harvest, or else is jammed, and exactly one of the two. */
  lemma StuckExactly(s: State, run: seq<Step>)
    requires Begins(s) && Possible(s, run)
    requires forall a :: !Enabled(Ran(s, run), a)
    ensures !Ran(s, run).server.Over? <==> Jammed(Ran(s, run))
  {
    InvRan(s, run);
    if !Ran(s, run).server.Over? && !Jammed(Ran(s, run)) {
      var a := StepPossible(Ran(s, run));
      assert false;
    }
  }

  lemma JammedStep(s: State, a: Step)
    requires Inv(s) && Jammed(s) && Enabled(s, a)
    ensures Jammed(After(s, a)) && After(s, a).server == s.server
  {
    hide Out, AllSettled, Untouched, Once, Asked, Fated, ClosedByOne, Sane, FileOf;
    var i := s.server.body;
    assert Attended(s, i);
    assert Waits(s, s.bodies[i].reader);
    if a.Gets? {
      assert Waits(s, a.t);
    }
  }

  /** A jam is for good: in every continuation, whatever the other consumers
      do, the harvest stays where it is. */
  lemma {:induction false} JammedForGood(s: State, run: seq<Step>, k: nat)
    requires Begins(s) && Possible(s, run) && k <= |run|
    ensures Jammed(Ran(s, run[..k])) ==> Jammed(Ran(s, run)) && Ran(s, run).server == Ran(s, run[..k]).server
    decreases |run|
  {
    hide Inv, Enabled, After, Jammed, Begins;
    if k == |run| {
      assert run[..k] == run;
    } else {
      var last := |run| - 1;
      assert run[..last][..k] == run[..k];
      JammedForGood(s, run[..last], k);
      InvRan(s, run[..last]);
      if Jammed(Ran(s, run[..last])) {
        JammedStep(Ran(s, run[..last]), run[last]);
      }
    }
  }

  lemma NoneYet(s: State)
    ensures Possible(s, []) && Drained(s, []) && Ran(s, []) == s
  {
  }

  lemma Then(s: State, run: seq<Step>, a: Step)
    ensures Ran(s, run + [a]) == After(Ran(s, run), a)
    ensures Possible(s, run) && Enabled(Ran(s, run), a) ==> Possible(s, run + [a])
    ensures Drained(s, run) && Draining(Ran(s, run), a) ==> Drained(s, run + [a])
  {
    assert (run + [a])[..|run|] == run;
  }

  /** The first thread asks for a body and gets a chunk of it, the harvest reads
      on until it has to wait, */
  function HalfReading(i: nat, chunks: nat): seq<Step> {
    [TakesSome, Start(0, i), Receives, Opens] + [Pulls, Pushes, Gets(0)] + [Pulls, Pushes, Pulls] +
    if chunks == 2 then [ClosesHandle] else []
  }

  /** and the thread tells its verdict. */
  function EarlyVerdict(i: nat, chunks: nat): seq<Step> {
    HalfReading(i, chunks) + [Judges(0, i)]
  }

  /** And a jam is reached wherever a file has two chunks or more: a consumer
      that reads one of them and then, the discipline broken for the first
      time, tells its verdict, waits for a harvest that waits for it. Alone, it
      leaves nothing possible. */
  lemma TellingBeforeDraining(s: State, i: nat)
    requires Begins(s) && i < |s.files| && |s.files[i]| >= 2
    ensures Drained(s, HalfReading(i, |s.files[i]|))
    ensures var run := EarlyVerdict(i, |s.files[i]|);
            && Possible(s, run) && Jammed(Ran(s, run))
            && (|s.threads| == 1 ==> forall a :: !Enabled(Ran(s, run), a))
  {
    hide Possible, Drained, Ran, Begins, Jammed, Enabled, After, Draining, HalfReading;
    var before, mid := HalfRead(s, i);
    HalfwayJams(s, i, mid);
    Then(s, before, Judges(0, i));
  }

  /** The harvest stopped behind a chunk nobody took yet, all in order. */
  predicate Halfway(s: State, i: nat, mid: State) {
    && i < |mid.bodies| == |mid.fates| && |mid.threads| == |s.threads| > 0
    && mid.bodies[i].Open? && mid.bodies[i].reader == 0 && mid.bodies[i].item.Some? && mid.fates[i].Pending?
    && mid.listing.Full? && mid.threads[0].Free?
    && (mid.server.Pushing? || mid.server.Ending?) && mid.server.body == i
  }

  lemma HalfwayJams(s: State, i: nat, mid: State)
    requires Halfway(s, i, mid)
    ensures Enabled(mid, Judges(0, i)) && Jammed(After(mid, Judges(0, i)))
    ensures |s.threads| == 1 ==> forall a :: !Enabled(After(mid, Judges(0, i)), a)
  {
  }

  lemma HalfRead(s: State, i: nat) returns (run: seq<Step>, mid: State)
    requires Begins(s) && i < |s.files| && |s.files[i]| >= 2
    ensures run == HalfReading(i, |s.files[i]|)
    ensures Possible(s, run) && Drained(s, run) && Ran(s, run) == mid && Halfway(s, i, mid)
  {
    hide Possible, Drained, Ran;
    var file := s.files[i];
    run, mid := FirstChunk(s, i);
    run, mid := Next(s, run, mid, Pulls);
    run, mid := Next(s, run, mid, Pushes);
    run, mid := Next(s, run, mid, Pulls);
    if |file| == 2 {
      run, mid := Next(s, run, mid, ClosesHandle);
    }
  }

  lemma FirstChunk(s: State, i: nat) returns (run: seq<Step>, mid: State)
    requires Begins(s) && i < |s.files| && |s.files[i]| >= 2
    ensures run == [TakesSome, Start(0, i), Receives, Opens] + [Pulls, Pushes, Gets(0)]
    ensures Possible(s, run) && Drained(s, run) && Ran(s, run) == mid
    ensures mid == s.(listing := Full, server := Pulling(i, 1), bodies := s.bodies[i := Open(0, None, [s.files[i][0]])])
  {
    hide Possible, Drained, Ran;
    run, mid := FirstOpened(s, i);
    run, mid := Next(s, run, mid, Pulls);
    run, mid := Next(s, run, mid, Pushes);
    run, mid := Next(s, run, mid, Gets(0));
    assert mid.threads == s.threads;
    assert mid.bodies[i].got == [s.files[i][0]];
    assert mid.bodies == s.bodies[i := mid.bodies[i]];
  }

  lemma FirstOpened(s: State, i: nat) returns (run: seq<Step>, mid: State)
    requires Begins(s) && i < |s.files|
    ensures run == [TakesSome, Start(0, i), Receives, Opens]
    ensures Possible(s, run) && Drained(s, run) && Ran(s, run) == mid
    ensures mid == s.(listing := Full, server := Pulling(i, 0),
                      bodies := s.bodies[i := Open(0, None, [])], threads := s.threads[0 := Reads(i)])
  {
    hide Possible, Drained, Ran;
    NoneYet(s);
    run, mid := [], s;
    run, mid := Next(s, run, mid, TakesSome);
    run, mid := Next(s, run, mid, Start(0, i));
    run, mid := Next(s, run, mid, Receives);
    run, mid := Next(s, run, mid, Opens);
    assert mid.queue == [];
  }

  lemma Next(s: State, run: seq<Step>, was: State, a: Step) returns (longer: seq<Step>, now: State)
    requires Possible(s, run) && Drained(s, run) && Ran(s, run) == was
    requires Enabled(was, a) && Draining(was, a)
    ensures longer == run + [a] && now == After(was, a)
    ensures Possible(s, longer) && Drained(s, longer) && Ran(s, longer) == now
  {
    longer, now := run + [a], After(was, a);
    Then(s, run, a);
  }

  // -------------------------------------------------------- everyone gets there

  function Sum(xs: seq<nat>): nat {
    if |xs| == 0 then 0 else Sum(xs[..|xs| - 1]) + xs[|xs| - 1]
  }

  lemma {:induction false} SumUpdated(xs: seq<nat>, i: nat, v: nat)
    requires i < |xs|
    ensures Sum(xs[i := v]) == Sum(xs) - xs[i] + v
    decreases |xs|
  {
    var last := |xs| - 1;
    var ys := xs[i := v];
    if i == last {
      assert ys[..last] == xs[..last];
    } else {
      assert ys[..last] == xs[..last][i := v];
      SumUpdated(xs[..last], i, v);
    }
  }

  lemma {:induction false} SumSplit(x: nat, xs: seq<nat>)
    ensures Sum([x] + xs) == x + Sum(xs)
    decreases |xs|
  {
    if |xs| > 0 {
      var last := |xs| - 1;
      assert ([x] + xs)[..|[x] + xs| - 1] == [x] + xs[..last];
      SumSplit(x, xs[..last]);
    }
  }

  /** What is left of a file once `at` chunks were read. */
  function Left(files: seq<seq<Bytes>>, i: nat, at: nat): nat {
    if i < |files| && at < |files[i]| then |files[i]| - at else 0
  }

  function BodyWork(files: seq<seq<Bytes>>, i: nat, b: Body): nat {
    match b
    case Unread => 6 * Left(files, i, 0) + 12
    case Open(_, item, _) => if item.Some? then 4 else 1
    case _ => 0
  }

  function FateWork(f: Fate): nat {
    match f
    case Pending => 7
    case Telling(_) => 2
    case _ => 0
  }

  function ThreadWork(n: nat, th: Thread): nat {
    match th
    case Free => 1
    case Reads(_) => 0
    case Tells(_, true, answered) => if answered then 1 else 0
    case Tells(i, false, answered) => (if i < n then 8 * (n - i) else 0) + if answered then 2 else 1
    case Closes(at) => (if at < n then 8 * (n - at) else 0) + 6
    case Finishes(answered) => if answered then 1 else 0
  }

  function RequestWork(files: seq<seq<Bytes>>, r: Request): nat {
    match r
    case Read(i) => 6 * Left(files, i, 0) + 10
    case Tell(_, _, _) => 3
    case Finish(_) => 4
  }

  function ServerWork(files: seq<seq<Bytes>>, v: Server): nat {
    match v
    case Taking => 3
    case EmptyReturning => 2
    case EmptyTelling => 1
    case Waiting => 0
    case Opening(i) => 6 * Left(files, i, 0) + 9
    case Pulling(i, at) => 6 * Left(files, i, at) + 8
    case Pushing(i, at) => 6 * Left(files, i, at) + 7
    case Closing(_, _) => 6
    case Ending(_, _) => 5
    case Answering(_, _, _) => 2
    case Returning(_) => 3
    case Notifying(_) => 2
    case Over => 0
  }

  function BodyWorks(files: seq<seq<Bytes>>, bodies: seq<Body>): seq<nat> {
    seq(|bodies|, i requires 0 <= i < |bodies| => BodyWork(files, i, bodies[i]))
  }

  function FateWorks(fates: seq<Fate>): seq<nat> {
    seq(|fates|, i requires 0 <= i < |fates| => FateWork(fates[i]))
  }

  function ThreadWorks(n: nat, threads: seq<Thread>): seq<nat> {
    seq(|threads|, t requires 0 <= t < |threads| => ThreadWork(n, threads[t]))
  }

  function RequestWorks(files: seq<seq<Bytes>>, queue: seq<Request>): seq<nat> {
    seq(|queue|, k requires 0 <= k < |queue| => RequestWork(files, queue[k]))
  }

  /** What is left to do at most: of every body, arrival, thread and request,
      of the harvest's thread, and of the closing. */
  function Work(s: State): nat {
    Sum(BodyWorks(s.files, s.bodies)) + Sum(FateWorks(s.fates)) + Sum(ThreadWorks(|s.fates|, s.threads))
    + Sum(RequestWorks(s.files, s.queue)) + ServerWork(s.files, s.server)
    + if AllSettled(s.fates) then 0 else 8 * |s.fates| + 10
  }

  lemma BodyWorked(files: seq<seq<Bytes>>, bodies: seq<Body>, i: nat, b: Body)
    requires i < |bodies|
    ensures Sum(BodyWorks(files, bodies[i := b])) ==
            Sum(BodyWorks(files, bodies)) - BodyWork(files, i, bodies[i]) + BodyWork(files, i, b)
  {
    assert BodyWorks(files, bodies[i := b]) == BodyWorks(files, bodies)[i := BodyWork(files, i, b)];
    SumUpdated(BodyWorks(files, bodies), i, BodyWork(files, i, b));
  }

  lemma FateWorked(fates: seq<Fate>, i: nat, f: Fate)
    requires i < |fates|
    ensures Sum(FateWorks(fates[i := f])) == Sum(FateWorks(fates)) - FateWork(fates[i]) + FateWork(f)
  {
    assert FateWorks(fates[i := f]) == FateWorks(fates)[i := FateWork(f)];
    SumUpdated(FateWorks(fates), i, FateWork(f));
  }

  lemma ThreadWorked(n: nat, threads: seq<Thread>, t: nat, th: Thread)
    requires t < |threads|
    ensures Sum(ThreadWorks(n, threads[t := th])) ==
            Sum(ThreadWorks(n, threads)) - ThreadWork(n, threads[t]) + ThreadWork(n, th)
  {
    assert ThreadWorks(n, threads[t := th]) == ThreadWorks(n, threads)[t := ThreadWork(n, th)];
    SumUpdated(ThreadWorks(n, threads), t, ThreadWork(n, th));
  }

  lemma RequestWorked(files: seq<seq<Bytes>>, queue: seq<Request>, r: Request)
    ensures Sum(RequestWorks(files, queue + [r])) == Sum(RequestWorks(files, queue)) + RequestWork(files, r)
    ensures |queue| > 0 ==>
              Sum(RequestWorks(files, queue)) == Sum(RequestWorks(files, queue[1..])) + RequestWork(files, queue[0])
  {
    var ws := RequestWorks(files, queue + [r]);
    assert ws[..|ws| - 1] == RequestWorks(files, queue);
    if |queue| > 0 {
      assert RequestWorks(files, queue) == [RequestWork(files, queue[0])] + RequestWorks(files, queue[1..]);
      SumSplit(RequestWork(files, queue[0]), RequestWorks(files, queue[1..]));
    }
  }

  lemma ServerWorks(s: State, a: Step)
    requires Inv(s) && Enabled(s, a) && !IsThreads(a)
    ensures Work(After(s, a)) < Work(s)
  {
    hide Sum, BodyWorks, ThreadWorks, RequestWorks, FateWorks, AllSettled, Once, Awaited, Fated, ClosedByOne, Shaped;
    match a
    case Receives => RequestWorked(s.files, s.queue, s.queue[0]);
    case OpenFails => SendWorks(s, s.server.body, Failed);
    case Pushes =>
      if s.server.at < |FileOf(s, s.server.body)| {
        SendWorks(s, s.server.body, Chunk(FileOf(s, s.server.body)[s.server.at]));
      }
    case PushesLast => SendWorks(s, s.server.body, s.server.last.value);
    case Answers =>
      assert HasAsker(s, Tell(s.server.arrival, s.server.verdict, s.server.who));
      ThreadWorked(|s.fates|, s.threads, s.server.who, Tells(s.server.arrival, s.server.verdict, true));
    case Notifies =>
      assert HasAsker(s, Finish(s.server.who));
      ThreadWorked(|s.fates|, s.threads, s.server.who, Finishes(true));
    case _ =>
  }

  lemma SendWorks(s: State, i: nat, item: Item)
    ensures Sum(BodyWorks(s.files, Sent(s, i, item))) <= Sum(BodyWorks(s.files, s.bodies)) + 3
  {
    hide Sum, BodyWorks;
    if i < |s.bodies| && s.bodies[i].Open? {
      BodyWorked(s.files, s.bodies, i, s.bodies[i].(item := Some(item)));
    }
  }

  lemma SettleWorks(s: State, t: nat, i: nat, f: Fate)
    requires t < |s.threads| && i < |s.fates| && !Settled(s.fates[i]) && Settled(f)
    requires ThreadWork(|s.fates|, s.threads[t]) == 1
    ensures Work(Settles(s, t, i, f)) < Work(s)
  {
    hide Sum, BodyWorks, ThreadWorks, RequestWorks, FateWorks;
    assert !AllSettled(s.fates);
    FateWorked(s.fates, i, f);
    ThreadWorked(|s.fates|, s.threads, t, Closes(0));
    ThreadWorked(|s.fates|, s.threads, t, Free);
  }

  lemma ThreadStepWorks(s: State, a: Step)
    requires Inv(s) && Enabled(s, a) && IsThreads(a)
    ensures Work(After(s, a)) < Work(s)
  {
    hide Sum, BodyWorks, ThreadWorks, RequestWorks, FateWorks, AllSettled, Once, Asked, ClosedByOne, Shaped, Sane;
    hide Work, Out, Attentive;
    match a
    case Start(t, i) => StartWorks(s, t, i);
    case Again(_, _) => AgainWorks(s, a);
    case Gets(t) => assert Waits(s, t); GetsWorks(s, t);
    case Drops(_, _) => AgainWorks(s, a);
    case Judges(t, i) => JudgesWorks(s, t, i);
    case Forgoes(t, i) => SettleWorks(s, t, i, LetGo);
    case Hears(t) =>
      assert ToldOf(s, t);
      if s.threads[t].verdict {
        SettleWorks(s, t, s.threads[t].arrival, Judged);
      } else {
        HearsWorks(s, t);
      }
    case GoesOn(t) => GoesOnWorks(s, t);
  }

  lemma StartWorks(s: State, t: nat, i: nat)
    requires Enabled(s, Start(t, i))
    ensures Work(After(s, Start(t, i))) < Work(s)
  {
    hide Sum, BodyWorks, ThreadWorks, RequestWorks, FateWorks, AllSettled;
    BodyWorked(s.files, s.bodies, i, Open(t, None, []));
    ThreadWorked(|s.fates|, s.threads, t, Reads(i));
    RequestWorked(s.files, s.queue, Read(i));
  }

  lemma AgainWorks(s: State, a: Step)
    requires Enabled(s, a) && (a.Again? || a.Drops?)
    ensures Work(After(s, a)) < Work(s)
  {
    hide Sum, BodyWorks, ThreadWorks, RequestWorks, FateWorks, AllSettled;
    var i := a.i;
    BodyWorked(s.files, s.bodies, i, Dropped);
    ThreadWorked(|s.fates|, s.threads, a.t, Reads(i));
  }

  lemma GetsWorks(s: State, t: nat)
    requires Enabled(s, Gets(t)) && s.threads[t].body < |s.bodies|
    ensures Work(After(s, Gets(t))) < Work(s)
  {
    hide Sum, BodyWorks, ThreadWorks, RequestWorks, FateWorks, AllSettled;
    var i := s.threads[t].body;
    BodyWorked(s.files, s.bodies, i, After(s, Gets(t)).bodies[i]);
    ThreadWorked(|s.fates|, s.threads, t, Free);
  }

  lemma JudgesWorks(s: State, t: nat, i: nat)
    requires Enabled(s, Judges(t, i))
    ensures Work(After(s, Judges(t, i))) < Work(s)
  {
    hide Sum, BodyWorks, ThreadWorks, RequestWorks, FateWorks;
    assert !Settled(s.fates[i]);
    FateWorked(s.fates, i, Telling(t));
    ThreadWorked(|s.fates|, s.threads, t, Tells(i, true, false));
    RequestWorked(s.files, s.queue, Tell(i, true, t));
  }

  lemma HearsWorks(s: State, t: nat)
    requires Enabled(s, Hears(t)) && !s.threads[t].verdict
    ensures Work(After(s, Hears(t))) < Work(s)
  {
    hide Sum, BodyWorks, ThreadWorks, RequestWorks, FateWorks, AllSettled;
    ThreadWorked(|s.fates|, s.threads, t, Closes(s.threads[t].arrival + 1));
  }

  lemma GoesOnWorks(s: State, t: nat)
    requires Enabled(s, GoesOn(t))
    ensures Work(After(s, GoesOn(t))) < Work(s)
  {
    hide Sum, BodyWorks, ThreadWorks, RequestWorks, FateWorks, AllSettled;
    var at, s' := s.threads[t].at, After(s, GoesOn(t));
    ThreadWorked(|s.fates|, s.threads, t, s'.threads[t]);
    RequestWorked(s.files, s.queue, Finish(t));
    RequestWorked(s.files, s.queue, Tell(at, false, t));
  }

  /** Every run is finite: no run has more steps than there was work. */
  lemma {:induction false} RunsEnd(s: State, run: seq<Step>)
    requires Begins(s) && Possible(s, run)
    ensures |run| + Work(Ran(s, run)) <= Work(s)
    decreases |run|
  {
    hide Enabled, After, Begins, Work, Inv;
    if |run| > 0 {
      var k := |run| - 1;
      RunsEnd(s, run[..k]);
      InvRan(s, run[..k]);
      if IsThreads(run[k]) {
        ThreadStepWorks(Ran(s, run[..k]), run[k]);
      } else {
        ServerWorks(Ran(s, run[..k]), run[k]);
      }
    }
  }

  // -------------------------------------------------------- told once, and when

  /** The closing is past arrival `i`. */
  predicate Passed(s: State, i: nat) {
    s.closer.Some? && s.closer.value < |s.threads| &&
    match s.threads[s.closer.value]
    case Closes(at) => i < at
    case Tells(j, _, answered) => i < j || (i == j && answered)
    case Finishes(_) => true
    case _ => false
  }

  /** What the log has of arrival `i`: its verdict once it was taken, or that
      it has none once the closing is past it. */
  predicate LoggedOf(s: State, i: nat)
    requires i < |s.fates|
  {
    && ((i, true) in s.log <==>
          s.fates[i].Judged? ||
          (&& s.fates[i].Telling? && s.fates[i].teller < |s.threads|
           && s.threads[s.fates[i].teller] == Tells(i, true, true)))
    && ((i, false) in s.log <==> s.fates[i].LetGo? && Passed(s, i))
  }

  ghost predicate Logged(s: State) {
    && (forall i :: 0 <= i < |s.fates| ==> LoggedOf(s, i))
    && (forall k :: 0 <= k < |s.log| ==> s.log[k].0 < |s.fates|)
    && (forall j, k :: 0 <= j < k < |s.log| ==> s.log[j].0 != s.log[k].0)
  }

  lemma LoggedServer(s: State, a: Step)
    requires Inv(s) && Enabled(s, a) && !IsThreads(a) && Logged(s)
    ensures Logged(After(s, a))
  {
    hide Once, Awaited, Attentive, Shaped, Sane, AllSettled, Sent;
    var s' := After(s, a);
    if a.Answers? {
      AnswersLogged(s);
    } else {
      assert a.Notifies? ==> HasAsker(s, Finish(s.server.who));
      forall i | 0 <= i < |s'.fates| ensures LoggedOf(s', i) {
        assert LoggedOf(s, i);
      }
    }
  }

  lemma AnswersLogged(s: State)
    requires Inv(s) && Enabled(s, Answers) && Logged(s)
    ensures Logged(After(s, Answers))
  {
    hide Once, Awaited, Attentive, Shaped, Sane, AllSettled;
    var s' := After(s, Answers);
    var Answering(i, v, t) := s.server;
    assert HasAsker(s, Tell(i, v, t));
    assert ToldOf(s, t) && LoggedOf(s, i);
    assert (i, true) !in s.log && (i, false) !in s.log;
    forall k | 0 <= k < |s.log| ensures s.log[k].0 != i {
      assert s.log[k] in s.log;
      assert s.log[k] == (s.log[k].0, if s.log[k].1 then true else false);
    }
    forall j | 0 <= j < |s'.fates| ensures LoggedOf(s', j) {
      assert LoggedOf(s, j) && TellerOf(s, j);
    }
  }

  lemma LoggedThread(s: State, a: Step)
    requires Inv(s) && Enabled(s, a) && IsThreads(a) && Logged(s)
    ensures Logged(After(s, a))
  {
    LogKept(s, a);
    hide Inv, Enabled, After, LoggedOf;
    var s' := After(s, a);
    forall i | 0 <= i < |s'.fates| ensures LoggedOf(s', i) {
      LoggedOfThread(s, a, i);
    }
  }

  lemma LogKept(s: State, a: Step)
    requires Enabled(s, a) && IsThreads(a)
    ensures After(s, a).log == s.log && |After(s, a).fates| == |s.fates|
  {
    hide AllSettled;
  }

  lemma LoggedOfThread(s: State, a: Step, i: nat)
    requires Inv(s) && Enabled(s, a) && IsThreads(a) && i < |s.fates| && LoggedOf(s, i)
    ensures i < |After(s, a).fates| && LoggedOf(After(s, a), i)
  {
    if a.Start? || a.Again? || a.Gets? || a.Drops? {
      hide Once, Awaited, Attentive, Asked, Sane, Out, Untouched, Sent, Woken, AllSettled, Shaped;
      assert TellerOf(s, i);
    } else if a.GoesOn? {
      hide Once, Awaited, Attentive, Asked, Sane, Out, Untouched, Sent, Woken, AllSettled, Shaped;
      assert TellerOf(s, i);
    } else {
      LoggedOfSettling(s, a, i);
    }
  }

  lemma LoggedOfSettling(s: State, a: Step, i: nat)
    requires Inv(s) && Enabled(s, a) && (a.Judges? || a.Forgoes? || a.Hears?) && i < |s.fates| && LoggedOf(s, i)
    ensures i < |After(s, a).fates| && LoggedOf(After(s, a), i)
  {
    hide Once, Awaited, Attentive, Asked, Sane, Out, Untouched, Sent, Woken, BodyOf;
    if a.Hears? {
      assert ToldOf(s, a.t);
      assert s.threads[a.t].verdict ==> !Settled(s.fates[s.threads[a.t].arrival]);
    } else {
      assert !Settled(s.fates[a.i]);
    }
    assert TellerOf(s, i);
  }

  // ----------------------------------------------------------- what is delivered

  /** What a body's reader got, and what waits for it in the channel. */
  function Fed(item: Option<Item>, got: seq<Bytes>): seq<Bytes> {
    got + if item.Some? && item.value.Chunk? then [item.value.bytes] else []
  }

  /** How far the harvest got with body `i`. */
  predicate DeliveredOf(s: State, i: nat)
    requires i < |s.bodies| == |s.files|
  {
    var file := s.files[i];
    match s.bodies[i]
    case Open(_, item, got) =>
      var fed := Fed(item, got);
      && fed <= file
      && (item == Some(End) ==> got == file)
      && (Read(i) in s.queue || s.server == Opening(i) ==> fed == [])
      && (match s.server
          case Pulling(j, at) => j == i ==> at <= |file| && fed == file[..at]
          case Pushing(j, at) => j == i ==> at < |file| && fed == file[..at]
          case Closing(j, last) => j == i && last == Some(End) ==> fed == file
          case Ending(j, last) => j == i && last == Some(End) ==> fed == file
          case _ => true)
    case Ended(got, whole) => got <= file && (whole ==> got == file)
    case _ => true
  }

  ghost predicate Delivered(s: State)
    requires |s.bodies| == |s.files|
  {
    forall i :: 0 <= i < |s.bodies| ==> DeliveredOf(s, i)
  }

  lemma DeliveredServer(s: State, a: Step)
    requires Inv(s) && Enabled(s, a) && !IsThreads(a) && Delivered(s)
    ensures |After(s, a).bodies| == |After(s, a).files| && Delivered(After(s, a))
  {
    BodiesKept(s, a);
    hide Inv, Enabled, After, DeliveredOf;
    var s' := After(s, a);
    forall i | 0 <= i < |s'.bodies| ensures DeliveredOf(s', i) {
      DeliveredOfServer(s, a, i);
    }
  }

  lemma BodiesKept(s: State, a: Step)
    requires Inv(s)
    ensures |s.bodies| == |s.files| && |After(s, a).bodies| == |s.bodies| && After(s, a).files == s.files
  {
    hide AllSettled, Woken, Once, Asked, Awaited, Attentive, Fated, ClosedByOne, Sane, Untouched;
  }

  lemma DeliveredOfServer(s: State, a: Step, i: nat)
    requires Inv(s) && Enabled(s, a) && !IsThreads(a) && i < |s.bodies| == |s.files| && DeliveredOf(s, i)
    ensures i < |After(s, a).bodies| == |After(s, a).files| && DeliveredOf(After(s, a), i)
  {
    if a.Receives? {
      QueuePops(s.queue);
      hide Inv, Sent, Woken;
    } else if a.Opens? || a.OpenFails? || a.Pulls? || a.PullFails? || a.Pushes? || a.ClosesHandle? || a.PushesLast? {
      assert Read(s.server.body) !in s.queue;
      hide Once, Asked, Awaited, Attentive, Fated, ClosedByOne, Woken, Out, Untouched;
    } else {
      hide Inv, Woken;
    }
  }

  lemma DeliveredThread(s: State, a: Step)
    requires Inv(s) && Enabled(s, a) && IsThreads(a) && Delivered(s)
    ensures |After(s, a).bodies| == |After(s, a).files| && Delivered(After(s, a))
  {
    BodiesKept(s, a);
    hide Inv, Enabled, After, DeliveredOf;
    var s' := After(s, a);
    forall i | 0 <= i < |s'.bodies| ensures DeliveredOf(s', i) {
      DeliveredOfThread(s, a, i);
    }
  }

  lemma DeliveredOfThread(s: State, a: Step, i: nat)
    requires Inv(s) && Enabled(s, a) && IsThreads(a) && i < |s.bodies| == |s.files| && DeliveredOf(s, i)
    ensures i < |After(s, a).bodies| == |After(s, a).files| && DeliveredOf(After(s, a), i)
  {
    if a.Start? {
      ThreadFacts(s, a);
      ServedOut(s);
      hide Inv, Out;
    } else if a.Gets? || a.Drops? {
      ThreadFacts(s, a);
      hide Inv, Out;
    } else {
      hide Inv, Out, DeliveredOf, AllSettled;
      SameDelivered(s, After(s, a), i);
    }
  }

  /** Only the body, its request and the harvest's thread matter. */
  lemma SameDelivered(s: State, s': State, i: nat)
    requires i < |s.bodies| == |s.files| && s'.bodies == s.bodies && s'.files == s.files && s'.server == s.server
    requires Read(i) in s'.queue <==> Read(i) in s.queue
    requires DeliveredOf(s, i)
    ensures DeliveredOf(s', i)
  {
  }

  lemma ServedOut(s: State)
    ensures Served(s.server) <= Out(s)
  {
  }

  // ------------------------------------------------------------------- the line

  /** The line is lent until the client is given back or broke, and whoever is
      told the harvest was empty, or is finished, is told after it is back. */
  ghost predicate Lined(s: State) {
    && (s.server.EmptyTelling? || s.server.Notifying? ==> s.line == Lending.Here(s.client))
    && (s.server.Over? ==> s.line == Lending.Here(s.client) || s.line == Lending.Broken)
    && (!(s.server.EmptyTelling? || s.server.Notifying? || s.server.Over?) ==> s.line == Lending.Harvesting)
    && (s.listing.Empty? ==> s.line == Lending.Here(s.client))
    && (forall t :: 0 <= t < |s.threads| && s.threads[t] == Finishes(true) ==> s.line == Lending.Here(s.client))
    && (s.server.Over? && s.listing.Full? && s.line.Here? ==>
          s.closer.Some? && s.closer.value < |s.threads| && s.threads[s.closer.value] == Finishes(true))
  }

  lemma LinedServer(s: State, a: Step)
    requires Inv(s) && Enabled(s, a) && !IsThreads(a) && Lined(s)
    ensures Lined(After(s, a)) && After(s, a).client == s.client
  {
    hide Once, Attentive, Fated, Sane, AllSettled, Sent, Out, Untouched, Asked;
    assert forall t :: 0 <= t < |s.threads| ==> Waits(s, t);
    if a.Answers? {
      AskerOf(s, Tell(s.server.arrival, s.server.verdict, s.server.who));
    }
    if a.Notifies? {
      AskerOf(s, Finish(s.server.who));
    }
  }

  lemma LinedThread(s: State, a: Step)
    requires Inv(s) && Enabled(s, a) && IsThreads(a) && Lined(s)
    ensures Lined(After(s, a)) && After(s, a).client == s.client
  {
    hide Once, Attentive, Fated, Sane, AllSettled, Out, Untouched, Asked, ClosedByOne, Awaited;
  }

  /** What may be asked behind a Finish: where every body was asked for before
      its arrival was settled nothing, else only bodies. */
  predicate MayFollow(r: Request, prompt: bool) {
    !prompt && r.Read?
  }

  ghost predicate InOrder(s: State, prompt: bool) {
    && (forall j, k :: 0 <= j < k < |s.queue| && s.queue[j].Finish? ==> MayFollow(s.queue[k], prompt))
    && (s.server.Returning? || s.server.Notifying? || (s.server.Over? && s.line.Here?) ==>
          forall k :: 0 <= k < |s.queue| ==> MayFollow(s.queue[k], prompt))
  }

  lemma OrderServer(s: State, a: Step, prompt: bool)
    requires Inv(s) && Enabled(s, a) && !IsThreads(a) && Lined(s) && InOrder(s, prompt)
    ensures InOrder(After(s, a), prompt)
  {
    hide Once, Attentive, Fated, Sane, AllSettled, Sent, Out, Asked, Awaited, ClosedByOne, MayFollow;
  }

  /** Once a Finish is asked no thread asks anything else. */
  lemma FinishAskedLast(s: State, a: Step, t: nat, prompt: bool)
    requires Inv(s) && Enabled(s, a) && IsThreads(a) && t < |s.threads| && s.threads[t] == Finishes(false)
    requires prompt ==> Prompt(s, a)
    ensures forall r :: r in Adds(s, a) ==> MayFollow(r, prompt)
  {
    hide Once, Attentive, Fated, Sane, Sent, Awaited, Untouched, Asked;
    assert IsClosing(s.threads[t]) && s.closer == Some(t) && AllSettled(s.fates);
  }

  lemma FinishQueued(s: State, k: nat) returns (t: nat)
    requires Asked(s) && k < |s.queue| && s.queue[k].Finish?
    ensures t < |s.threads| && s.threads[t] == Finishes(false)
  {
    t := s.queue[k].who;
    assert s.queue[k] in Out(s);
    assert HasAsker(s, s.queue[k]);
  }

  lemma OrderThread(s: State, a: Step, prompt: bool)
    requires Inv(s) && Enabled(s, a) && IsThreads(a) && Lined(s) && InOrder(s, prompt)
    requires prompt ==> Prompt(s, a)
    ensures InOrder(After(s, a), prompt)
  {
    OutThread(s, a);
    QueueAfter(s, a);
    hide Enabled, After, Out, Adds, Lined, Asked, Awaited, Attentive, Fated, ClosedByOne, Shaped, Sane, Once, MayFollow;
    hide Prompt;
    if k :| 0 <= k < |s.queue| && s.queue[k].Finish? {
      var t := FinishQueued(s, k);
      FinishAskedLast(s, a, t, prompt);
    }
    if s.server.Returning? || s.server.Notifying? {
      AskerOf(s, Finish(s.server.who));
      FinishAskedLast(s, a, s.server.who, prompt);
    }
  }

  lemma QueueAfter(s: State, a: Step)
    requires Enabled(s, a) && IsThreads(a)
    ensures !s.server.Over? && After(s, a).line == s.line
    ensures Adds(s, a) == {} ==> After(s, a).queue == s.queue
    ensures Adds(s, a) != {} ==> exists r :: r in Adds(s, a) && After(s, a).queue == s.queue + [r]
  {
    hide AllSettled;
    if Adds(s, a) != {} {
      var s' := After(s, a);
      var r := s'.queue[|s.queue|];
      assert r in Adds(s, a) && s'.queue == s.queue + [r];
    }
  }

  // ----------------------------------------------------------------- whole runs

  ghost predicate Good(s: State) {
    Inv(s) && Logged(s) && Delivered(s) && Lined(s)
  }

  lemma GoodStep(s: State, a: Step)
    requires Good(s) && Enabled(s, a)
    ensures Good(After(s, a)) && After(s, a).client == s.client && After(s, a).files == s.files
  {
    FilesKept(s, a);
    hide Inv, Logged, Delivered, Lined, Enabled, After;
    InvStep(s, a);
    if IsThreads(a) {
      LinedThread(s, a);
      LoggedThread(s, a);
      DeliveredThread(s, a);
    } else {
      LinedServer(s, a);
      LoggedServer(s, a);
      DeliveredServer(s, a);
    }
  }

  lemma FilesKept(s: State, a: Step)
    ensures After(s, a).files == s.files
  {
    hide Enabled, AllSettled;
  }

  lemma GoodBegins(s: State)
    requires Begins(s)
    ensures Good(s)
  {
    InvBegins(s);
  }

  lemma {:induction false} GoodRan(s: State, run: seq<Step>)
    requires Begins(s) && Possible(s, run)
    ensures Good(Ran(s, run)) && Ran(s, run).client == s.client && Ran(s, run).files == s.files
    decreases |run|
  {
    hide Good, Enabled, After, Begins;
    if |run| == 0 {
      GoodBegins(s);
    } else {
      var k := |run| - 1;
      GoodRan(s, run[..k]);
      GoodStep(Ran(s, run[..k]), run[k]);
    }
  }

  lemma {:induction false} OrderRan(s: State, run: seq<Step>, prompt: bool)
    requires Begins(s) && Possible(s, run) && (prompt ==> AllPrompt(s, run))
    ensures InOrder(Ran(s, run), prompt)
    decreases |run|
  {
    hide Inv, Lined, Logged, Delivered, InOrder, Enabled, After, Begins, Prompt;
    if |run| == 0 {
      OrderBegins(s, prompt);
    } else {
      var k := |run| - 1;
      OrderRan(s, run[..k], prompt);
      GoodRan(s, run[..k]);
      if IsThreads(run[k]) {
        OrderThread(Ran(s, run[..k]), run[k], prompt);
      } else {
        OrderServer(Ran(s, run[..k]), run[k], prompt);
      }
    }
  }

  lemma OrderBegins(s: State, prompt: bool)
    requires Begins(s)
    ensures InOrder(s, prompt)
  {
  }

  /** An empty listing, or the end of the harvest, is seen only once the client
      is back on the line. */
  lemma SeenOnceBack(s: State, run: seq<Step>, t: nat)
    requires Begins(s) && Possible(s, run)
    ensures var s' := Ran(s, run);
            s'.listing.Empty? || (t < |s'.threads| && s'.threads[t] == Finishes(true))
            ==> s'.line == Lending.Here(s.client)
  {
    GoodRan(s, run);
  }

  /** Before the harvest takes a Finish, every claimed file was told of exactly
      once: its verdict, or that it was let go without one. */
  lemma ToldOnceBeforeFinish(s: State, run: seq<Step>, i: nat)
    requires Begins(s) && Possible(s, run) && i < |s.files|
    requires var v := Ran(s, run).server; v.Returning? || v.Notifying?
    ensures var s' := Ran(s, run);
            && i < |s'.fates| && Settled(s'.fates[i])
            && exists k :: 0 <= k < |s'.log| && s'.log[k] == (i, s'.fates[i].Judged?)
                           && forall j :: 0 <= j < |s'.log| && s'.log[j].0 == i ==> j == k
  {
    GoodRan(s, run);
    var s' := Ran(s, run);
    ClosingPassed(s', i);
    var entry := (i, s'.fates[i].Judged?);
    assert LoggedOf(s', i) && entry in s'.log;
    var k :| 0 <= k < |s'.log| && s'.log[k] == entry;
    forall j | 0 <= j < |s'.log| && s'.log[j].0 == i ensures j == k {
      LoggedOnce(s', j, k);
    }
  }

  lemma LoggedOnce(s: State, j: nat, k: nat)
    requires Logged(s) && j < |s.log| && k < |s.log| && s.log[j].0 == s.log[k].0
    ensures j == k
  {
  }

  lemma ClosingPassed(s: State, i: nat)
    requires Inv(s) && i < |s.files| && (s.server.Returning? || s.server.Notifying?)
    ensures Settled(s.fates[i]) && Passed(s, i)
  {
    AskerOf(s, Finish(s.server.who));
    assert IsClosing(s.threads[s.server.who]);
    assert AllSettled(s.fates);
  }

  /** The chunks a body delivers are the file's, in order, none missing: always
      those at its front, and all of them where its end was seen. */
  lemma BodiesWhole(s: State, run: seq<Step>, i: nat)
    requires Begins(s) && Possible(s, run) && i < |s.files|
    ensures var b := Ran(s, run).bodies;
            && |b| == |s.files|
            && (b[i].Open? || b[i].Ended? ==> b[i].got <= s.files[i])
            && (b[i].Ended? && b[i].whole ==> b[i].got == s.files[i])
  {
    GoodRan(s, run);
    assert DeliveredOf(Ran(s, run), i);
  }

  /** Kept to the discipline, a run that can go no further has ended the
      harvest: broken, or with the client back, every arrival settled and
      every verdict and Finish served, and every body too where none was asked
      for once its arrival was settled. */
  lemma EndsInTheEnd(s: State, run: seq<Step>)
    requires Begins(s) && Possible(s, run) && Drained(s, run)
    requires forall a :: !(Enabled(Ran(s, run), a) && Draining(Ran(s, run), a))
    ensures var s' := Ran(s, run);
            && s'.server.Over?
            && (s'.line == Lending.Here(s.client) || s'.line == Lending.Broken)
            && (s'.line.Here? && s'.listing.Full? ==>
                  && AllSettled(s'.fates)
                  && (forall r :: r in Out(s') ==> r.Read?)
                  && (AllPrompt(s, run) ==> Out(s') == {}))
  {
    hide Enabled, Draining, Begins, After, Inv, Lined, InOrder, Logged, Delivered, AllSettled, Out;
    if !Ran(s, run).server.Over? {
      var a := NeverStuck(s, run);
      assert false;
    }
    EndedWell(s, run, AllPrompt(s, run));
    EndedWell(s, run, false);
  }

  lemma EndedWell(s: State, run: seq<Step>, prompt: bool)
    requires Begins(s) && Possible(s, run) && (prompt ==> AllPrompt(s, run)) && Ran(s, run).server.Over?
    ensures var s' := Ran(s, run);
            && (s'.line == Lending.Here(s.client) || s'.line == Lending.Broken)
            && (s'.line.Here? && s'.listing.Full? ==>
                  AllSettled(s'.fates) && forall r :: r in Out(s') ==> r.Read? && !prompt)
  {
    hide Enabled, Begins, After, Inv, Lined, InOrder, Logged, Delivered, AllSettled, Out;
    GoodRan(s, run);
    OrderRan(s, run, prompt);
    NothingOut(Ran(s, run), prompt);
  }

  lemma NothingOut(s: State, prompt: bool)
    requires Inv(s) && Lined(s) && InOrder(s, prompt) && s.server.Over?
    ensures s.line == Lending.Here(s.client) || s.line == Lending.Broken
    ensures s.line.Here? && s.listing.Full? ==>
              AllSettled(s.fates) && forall r :: r in Out(s) ==> r.Read? && !prompt
  {
    assert Served(s.server) == {};
    hide Once, Attentive, Fated, Sane, Asked, Awaited;
  }

  // --------------------------------------------------------- which files can jam

  /** A body nothing was taken of yet is being waited for. */
  ghost predicate FirstAwaited(s: State) {
    forall i :: 0 <= i < |s.bodies| && s.bodies[i].Open? && s.bodies[i].got == [] ==>
      s.bodies[i].reader < |s.threads| && s.threads[s.bodies[i].reader] == Reads(i)
  }

  lemma FirstAwaitedStep(s: State, a: Step)
    requires Inv(s) && FirstAwaited(s) && Enabled(s, a)
    ensures FirstAwaited(After(s, a))
  {
    if IsThreads(a) {
      if a.Gets? {
        assert Waits(s, a.t);
      }
      hide Inv, Out, AllSettled, FileOf;
    } else {
      AskerOfServed(s);
      hide Inv, Out, AllSettled, FileOf;
    }
  }

  lemma {:induction false} FirstAwaitedRan(s: State, run: seq<Step>)
    requires Begins(s) && Possible(s, run)
    ensures FirstAwaited(Ran(s, run))
    decreases |run|
  {
    hide Inv, Enabled, After;
    if |run| > 0 {
      hide FirstAwaited, Begins;
      var k := |run| - 1;
      FirstAwaitedRan(s, run[..k]);
      InvRan(s, run[..k]);
      FirstAwaitedStep(Ran(s, run[..k]), run[k]);
    }
  }

  /** Only a file of two chunks or more is ever jammed at. */
  lemma JamsAtLong(s: State) returns (i: nat)
    requires Good(s) && FirstAwaited(s) && Jammed(s)
    ensures i < |s.files| && |s.files[i]| >= 2
  {
    hide Once, Asked, Awaited, Fated, ClosedByOne, Logged, Lined, Sane;
    i := s.server.body;
    assert Attended(s, i) && DeliveredOf(s, i);
    assert Read(i) in Out(s);
    var b := s.bodies[i];
    assert b.item.value.Chunk?;
    assert Fed(b.item, b.got) == b.got + [b.item.value.bytes];
    assert b.got != [];
  }

  /** Whether a harvest can jam at all is told by its files: exactly where one
      of them is more than a chunk long. */
  lemma JamExactly(s: State)
    requires Begins(s)
    ensures (exists run :: Possible(s, run) && Jammed(Ran(s, run))) <==>
            exists i :: 0 <= i < |s.files| && |s.files[i]| >= 2
  {
    hide Begins, Jammed;
    if run :| Possible(s, run) && Jammed(Ran(s, run)) {
      GoodRan(s, run);
      FirstAwaitedRan(s, run);
      var i := JamsAtLong(Ran(s, run));
      assert 0 <= i < |s.files| && |s.files[i]| >= 2;
    }
    if i :| 0 <= i < |s.files| && |s.files[i]| >= 2 {
      TellingBeforeDraining(s, i);
      var run := EarlyVerdict(i, |s.files[i]|);
      assert Possible(s, run) && Jammed(Ran(s, run));
    }
  }

  // ------------------------------------------------------------ how a harvest ended

  /** The connection broke: while claiming, closing a body's handle, or closing
      the channel. */
  predicate BreaksIt(a: Step) {
    a.TakeBreaks? || a.CloseBreaks? || a.ReturnBreaks?
  }

  ghost predicate Happened(run: seq<Step>, p: Step -> bool) {
    exists i :: 0 <= i < |run| && p(run[i])
  }

  lemma HappenedNext(run: seq<Step>, p: Step -> bool)
    requires |run| > 0
    ensures Happened(run, p) <==> Happened(run[..|run| - 1], p) || p(run[|run| - 1])
  {
    var before := run[..|run| - 1];
    if i :| 0 <= i < |run| && p(run[i]) {
      assert i < |before| ==> p(before[i]);
    }
    if i :| 0 <= i < |before| && p(before[i]) {
      assert p(run[i]);
    }
    if p(run[|run| - 1]) {
      assert Happened(run, p);
    }
  }

  lemma LineAfter(s: State, a: Step)
    requires Good(s) && Enabled(s, a)
    ensures After(s, a).line.Broken? <==> s.line.Broken? || BreaksIt(a)
    ensures After(s, a).listing.Full? <==> s.listing.Full? || a.TakesSome?
    ensures After(s, a).listing.Empty? <==> s.listing.Empty? || a.TellsEmpty?
    ensures After(s, a).listing.Refused? <==> s.listing.Refused? || (BreaksIt(a) && !s.listing.Full?)
  {
    hide Once, Asked, Awaited, Attentive, Fated, ClosedByOne, Logged, Delivered, Sane, AllSettled, Untouched;
  }

  /** How a harvest ended is told by its run: the line is broken exactly where
      the connection broke; the receive got its files exactly where some were
      claimed, was told of none exactly where the harvest said so once the
      client was back, and was refused exactly where the connection broke
      before any were claimed. */
  lemma {:induction false} EndedAs(s: State, run: seq<Step>)
    requires Begins(s) && Possible(s, run)
    ensures var s' := Ran(s, run);
            && (s'.line.Broken? <==> Happened(run, a => BreaksIt(a)))
            && (s'.listing.Full? <==> Happened(run, (a: Step) => a.TakesSome?))
            && (s'.listing.Empty? <==> Happened(run, (a: Step) => a.TellsEmpty?))
            && (s'.listing.Refused? <==> s'.line.Broken? && !s'.listing.Full?)
            && (s'.server.Over? ==> s'.line.Broken? || s'.line == Lending.Here(s.client))
    decreases |run|
  {
    hide Enabled, After, BreaksIt, Happened;
    GoodRan(s, run);
    LinedOver(Ran(s, run));
    if |run| == 0 {
      assert forall p: Step -> bool :: !Happened([], p) by { NothingHappened(); }
      hide Good;
    } else {
      hide Good, Begins;
      var k := |run| - 1;
      EndedAs(s, run[..k]);
      GoodRan(s, run[..k]);
      LineAfter(Ran(s, run[..k]), run[k]);
      HappenedNext(run, a => BreaksIt(a));
      HappenedNext(run, (a: Step) => a.TakesSome?);
      HappenedNext(run, (a: Step) => a.TellsEmpty?);
      NothingAfterBreak(Ran(s, run[..k]), run[k]);
    }
  }

  lemma NothingHappened()
    ensures forall p: Step -> bool :: !Happened([], p)
  {
  }

  lemma LinedOver(s: State)
    requires Good(s)
    ensures s.server.Over? ==> s.line == Lending.Here(s.client) || s.line.Broken?
  {
  }

  /** Where the connection broke, or the receive was refused, nothing is
      possible any more. */
  lemma NothingAfterBreak(s: State, a: Step)
    requires Good(s) && Enabled(s, a)
    ensures !s.line.Broken? && !s.listing.Refused?
  {
    hide Once, Asked, Awaited, Attentive, Fated, ClosedByOne, Logged, Delivered, Sane, AllSettled;
  }

  // ------------------------------------------------------------- how a body ended

  /** The far end refused to open body `i`, or to read on. */
  predicate FailedRead(s: State, run: seq<Step>, i: nat)
    decreases |run|
  {
    |run| > 0 &&
    (FailedRead(s, run[..|run| - 1], i) || FailsAt(Ran(s, run[..|run| - 1]), run[|run| - 1], i))
  }

  predicate FailsAt(s: State, a: Step, i: nat) {
    || (a == OpenFails && s.server == Opening(i))
    || (a == PullFails && s.server.Pulling? && s.server.body == i)
  }

  /** What is left of body `i` tells of its refusal. */
  predicate TellsFailure(s: State, i: nat) {
    i < |s.bodies| &&
    match s.bodies[i]
    case Open(_, item, _) =>
      item == Some(Failed) || s.server == Closing(i, Some(Failed)) || s.server == Ending(i, Some(Failed))
    case Ended(_, whole) => !whole
    case _ => false
  }

  /** Nothing can tell any more that it was read to its end. */
  predicate NeverWhole(s: State, i: nat) {
    && i < |s.bodies|
    && !s.bodies[i].Unread?
    && !(s.bodies[i].Ended? && s.bodies[i].whole)
    && !(s.bodies[i].Open? && s.bodies[i].item == Some(End))
    && (s.server.Over? || Read(i) !in Out(s)
        || s.server == Closing(i, Some(Failed)) || s.server == Ending(i, Some(Failed)))
  }

  lemma TellsFailureStep(s: State, a: Step, i: nat)
    requires Inv(s) && Enabled(s, a) && TellsFailure(After(s, a), i)
    ensures TellsFailure(s, i) || FailsAt(s, a, i)
  {
    if s.server.Closing? || s.server.Ending? {
      AskerOf(s, Read(s.server.body));
    }
    if a.Gets? {
      assert Waits(s, a.t);
    }
    hide Inv, AllSettled, Woken, FileOf;
  }

  lemma NeverWholeStep(s: State, a: Step, i: nat)
    requires Inv(s) && Enabled(s, a) && (NeverWhole(s, i) || FailsAt(s, a, i))
    ensures NeverWhole(After(s, a), i)
  {
    if IsThreads(a) {
      NeverWholeThread(s, a, i);
    } else {
      NeverWholeServer(s, a, i);
    }
  }

  lemma NeverWholeThread(s: State, a: Step, i: nat)
    requires Inv(s) && Enabled(s, a) && IsThreads(a) && NeverWhole(s, i)
    ensures NeverWhole(After(s, a), i)
  {
    OutThread(s, a);
    if a.Gets? {
      assert Waits(s, a.t);
    }
    hide Inv, Out, AllSettled;
  }

  lemma NeverWholeServer(s: State, a: Step, i: nat)
    requires Inv(s) && Enabled(s, a) && !IsThreads(a) && (NeverWhole(s, i) || FailsAt(s, a, i))
    ensures NeverWhole(After(s, a), i)
  {
    OutServer(s, a);
    if FailsAt(s, a, i) {
      AskerOf(s, Read(i));
      assert Attended(s, i);
    }
    hide Once, Asked, Awaited, Attentive, Fated, ClosedByOne, AllSettled, Untouched, Woken, Out, FileOf;
  }

  /** A body that ended was read whole exactly where the far end refused neither
      to open it nor to read on. */
  lemma EndedWhole(s: State, run: seq<Step>, i: nat)
    requires Begins(s) && Possible(s, run) && i < |s.files|
    ensures var b := Ran(s, run).bodies;
            && |b| == |s.files|
            && (b[i].Ended? ==> (b[i].whole <==> !FailedRead(s, run, i)))
  {
    hide Begins, Possible, FailedRead, Ran;
    BodiesWhole(s, run, i);
    FailureTold(s, run, i);
  }

  lemma {:induction false} FailureTold(s: State, run: seq<Step>, i: nat)
    requires Begins(s) && Possible(s, run)
    ensures TellsFailure(Ran(s, run), i) ==> FailedRead(s, run, i)
    ensures FailedRead(s, run, i) ==> NeverWhole(Ran(s, run), i)
    decreases |run|
  {
    hide Enabled, After, Inv, TellsFailure, NeverWhole, FailsAt;
    if |run| == 0 {
      assert !TellsFailure(s, i) by { NoneFailed(s, i); }
      hide Begins;
    } else {
      hide Begins;
      var k := |run| - 1;
      FailureTold(s, run[..k], i);
      InvRan(s, run[..k]);
      var mid := Ran(s, run[..k]);
      if TellsFailure(After(mid, run[k]), i) {
        TellsFailureStep(mid, run[k], i);
      }
      if NeverWhole(mid, i) || FailsAt(mid, run[k], i) {
        NeverWholeStep(mid, run[k], i);
      }
    }
  }

  lemma NoneFailed(s: State, i: nat)
    requires Begins(s)
    ensures !TellsFailure(s, i)
  {
  }

  /** Every way to break is a way a harvest can go: while claiming, giving an
      empty harvest's client back, and closing the handle of a body that failed. */
  lemma BreaksCanHappen(s: State)
    requires Begins(s)
    ensures Possible(s, [TakeBreaks]) && Possible(s, [TakesNone, ReturnBreaks])
    ensures |s.files| > 0 ==>
              exists run :: Possible(s, run) && |run| > 0 && run[|run| - 1] == CloseBreaks && FailedRead(s, run, 0)
  {
    hide Possible, Drained, Ran, FailedRead;
    NoneYet(s);
    var run, mid := Next(s, [], s, TakeBreaks);
    assert run == [TakeBreaks];
    run, mid := Next(s, [], s, TakesNone);
    run, mid := Next(s, run, mid, ReturnBreaks);
    assert run == [TakesNone, ReturnBreaks];
    if |s.files| > 0 {
      run := FailsThenBreaks(s);
    }
  }

  lemma FailsThenBreaks(s: State) returns (run: seq<Step>)
    requires Begins(s) && |s.files| > 0
    ensures Possible(s, run) && |run| > 0 && run[|run| - 1] == CloseBreaks && FailedRead(s, run, 0)
  {
    hide Possible, Drained, Ran;
    var before, mid := FirstOpened(s, 0);
    var failed, after := Next(s, before, mid, PullFails);
    run, after := Next(s, failed, after, CloseBreaks);
    assert failed[..|failed| - 1] == before && run[..|run| - 1] == failed;
    assert FailedRead(s, failed, 0);
  }
}
