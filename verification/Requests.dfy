/** The broker that hands remote requests to a native handler. */
module Broker {
  import opened Common

  datatype Request = Request(id: nat, message: string)

  /** The locked fields; `pending` is the domain of the map of reply senders. */
  datatype Broker = Broker(nextId: nat, pending: set<nat>, queue: seq<Request>, stopped: bool)

  const NEW_BROKER := Broker(0, {}, [], false)

  /** The locked part of `handle`, for an id already drawn from the counter. */
  function Enqueue(b: Broker, id: nat, message: string): (Broker, Result<()>) {
    if b.stopped then (b, Err(SessionClosed))
    else (b.(pending := b.pending + {id}, queue := b.queue + [Request(id, message)]), Ok(()))
  }

  /** Where the first request that is still pending stands in a queue. */
  function FirstPending(queue: seq<Request>, pending: set<nat>): (k: nat)
    ensures k <= |queue|
    ensures k < |queue| ==> queue[k].id in pending
    ensures forall i :: 0 <= i < k ==> queue[i].id !in pending
  {
    if queue == [] || queue[0].id in pending then 0 else 1 + FirstPending(queue[1..], pending)
  }

  class Requests {
    var nextId: nat
    var pending: set<nat>
    var queue: seq<Request>
    var stopped: bool

    constructor ()
      ensures View() == NEW_BROKER
    {
      nextId, pending, queue, stopped := 0, {}, [], false;
    }

    function View(): Broker
      reads this
    {
      Broker(nextId, pending, queue, stopped)
    }

    /** `handle` up to where it waits for the answer. */
    method Handle(message: string) returns (id: nat, admitted: Result<()>)
      modifies this
      ensures id == old(nextId)
      ensures (View(), admitted) == Enqueue(old(View()).(nextId := id + 1), id, message)
    {
      id := nextId;
      nextId := nextId + 1;
      if stopped {
        return id, Err(SessionClosed);
      }
      pending := pending + {id};
      queue := queue + [Request(id, message)];
      admitted := Ok(());
    }

    method DropPending(id: nat)
      modifies this`pending
      ensures View() == old(View()).(pending := old(pending) - {id})
    {
      pending := pending - {id};
    }

    /** Drops requests from the queue until one is still pending; `waits` says
        that the queue ran empty first, where the call would suspend. */
    method Next() returns (request: Option<Request>, waits: bool)
      modifies this`queue
      ensures View() == old(View()).(queue := queue)
      ensures old(stopped) ==> request == None && !waits && queue == old(queue)
      ensures !old(stopped) ==>
                var k := FirstPending(old(queue), pending);
                if k < |old(queue)| then request == Some(old(queue)[k]) && !waits && queue == old(queue)[k + 1..]
                else request == None && waits && queue == []
    {
      while true
        invariant View() == old(View()).(queue := queue)
        invariant |queue| <= |old(queue)| && queue == old(queue)[|old(queue)| - |queue|..]
        invariant stopped ==> queue == old(queue)
        invariant FirstPending(old(queue), pending) == |old(queue)| - |queue| + FirstPending(queue, pending)
        decreases |queue|
      {
        if stopped {
          return None, false;
        }
        if queue == [] {
          return None, true;
        }
        var head := queue[0];
        queue := queue[1..];
        if head.id in pending {
          return Some(head), false;
        }
      }
    }

    method Stop()
      modifies this`stopped, this`pending
      ensures View() == old(View()).(stopped := true, pending := {})
    {
      stopped := true;
      pending := {};
    }

    /** `reply` up to the send: takes the sender out, if it is there. */
    method TakeSender(id: nat) returns (taken: bool)
      modifies this`pending
      ensures taken == (id in old(pending)) && View() == old(View()).(pending := old(pending) - {id})
    {
      taken := id in pending;
      pending := pending - {id};
    }
  }
}

/** Every interleaving of handlers, replies, cancellations, `next` calls and `stop`. */
module BrokerRuns {
  import opened Common
  import opened Broker
  import Runs

  type Answer = Result<string>

  /** The future of one `handle` call. While dropping, its receiver is gone but its
      pending entry still exists. */
  datatype Handle = Waiting | Returned(answer: Answer) | Dropping | Dropped

  /** `drawn` are ids taken from the counter but not yet enqueued; `inFlight`
      the answers whose sender a `reply` took and has still to use; `sent` the
      answers that a reply sent with success. `enqueued` and `popped` log the
      queue: all requests ever put in, and all taken out, each with whether
      `next` yielded it. */
  datatype World = World(
    broker: Broker,
    drawn: set<nat>,
    handles: map<nat, Handle>,
    inFlight: map<nat, Answer>,
    sent: seq<(nat, Answer)>,
    enqueued: seq<Request>,
    popped: seq<(Request, bool)>)

  const NEW_WORLD := World(NEW_BROKER, {}, map[], map[], [], [], [])

  datatype Step =
    | DrawId
    | EnqueueRequest(id: nat, message: string)
    | CancelHandle(id: nat)
    | PendingDropped(id: nat)
    | ReplyTakes(id: nat, answer: Answer)
    | ReplySends(id: nat)
    | HandleResumes(id: nat)
    | NextPops
    | StopAll

  function AnswerOf(sent: seq<(nat, Answer)>, id: nat): Option<Answer> {
    if sent == [] then None
    else if sent[|sent| - 1].0 == id then Some(sent[|sent| - 1].1)
    else AnswerOf(sent[..|sent| - 1], id)
  }

  /** The reply sender of `id` still exists somewhere. */
  predicate HasSender(w: World, id: nat) {
    id in w.broker.pending || id in w.inFlight
  }

  predicate CanStep(w: World, s: Step) {
    match s
    case DrawId => true
    case EnqueueRequest(id, _) => id in w.drawn
    case CancelHandle(id) => id in w.handles && w.handles[id] == Waiting
    case PendingDropped(id) => id in w.handles && w.handles[id] == Dropping
    case ReplyTakes(id, _) => id in w.broker.pending
    case ReplySends(id) => id in w.inFlight
    case HandleResumes(id) =>
      id in w.handles && w.handles[id] == Waiting && (AnswerOf(w.sent, id).Some? || !HasSender(w, id))
    case NextPops => w.broker.queue != []
    case StopAll => true
  }

  function Perform(w: World, s: Step): World
    requires CanStep(w, s)
  {
    var b := w.broker;
    match s
    case DrawId => w.(broker := b.(nextId := b.nextId + 1), drawn := w.drawn + {b.nextId})
    case EnqueueRequest(id, message) =>
      var (b', admitted) := Enqueue(b, id, message);
      var w' := w.(broker := b', drawn := w.drawn - {id});
      if admitted.Ok? then w'.(handles := w.handles[id := Waiting], enqueued := w.enqueued + [Request(id, message)]) else w'
    case CancelHandle(id) => w.(handles := w.handles[id := Dropping])
    case PendingDropped(id) => w.(broker := b.(pending := b.pending - {id}), handles := w.handles[id := Dropped])
    case ReplyTakes(id, answer) =>
      w.(broker := b.(pending := b.pending - {id}), inFlight := w.inFlight[id := answer])
    case ReplySends(id) =>
      var w' := w.(inFlight := w.inFlight - {id});
      if id in w.handles && w.handles[id] == Waiting then w'.(sent := w.sent + [(id, w.inFlight[id])]) else w'
    case HandleResumes(id) =>
      var answer := AnswerOf(w.sent, id);
      w.(handles := w.handles[id := Returned(if answer.Some? then answer.value else Err(SessionClosed))])
    case NextPops =>
      var head := b.queue[0];
      w.(broker := b.(queue := b.queue[1..]), popped := w.popped + [(head, head.id in b.pending)])
    case StopAll => w.(broker := b.(stopped := true, pending := {}))
  }

  ghost predicate Next(w: World, w': World) {
    exists s :: CanStep(w, s) && Perform(w, s) == w'
  }

  ghost predicate IsRun(run: seq<World>) {
    Runs.IsRun(NEW_WORLD, Next, run)
  }

  // ----- the invariant

  ghost predicate IdsOk(w: World) {
    && (forall id :: id in w.drawn || id in w.handles ==> id < w.broker.nextId)
    && (forall id :: id in w.drawn ==> id !in w.handles)
    && (forall i :: 0 <= i < |w.enqueued| ==> w.enqueued[i].id in w.handles)
    && (forall i, j :: 0 <= i < j < |w.enqueued| ==> w.enqueued[i].id != w.enqueued[j].id)
  }

  /** A sender is in one place only, and only until an answer is sent. */
  ghost predicate SendersOk(w: World) {
    && (forall id :: HasSender(w, id) ==> id in w.handles && !w.handles[id].Returned? && AnswerOf(w.sent, id).None?)
    && (forall id :: id in w.broker.pending ==> id !in w.inFlight && w.handles[id] in {Waiting, Dropping})
    && (w.broker.stopped ==> w.broker.pending == {})
  }

  predicate AnswersOk(w: World) {
    && (forall i :: 0 <= i < |w.sent| ==> w.sent[i].0 in w.handles)
    && (forall i, j :: 0 <= i < j < |w.sent| ==> w.sent[i].0 != w.sent[j].0)
    && (forall id :: id in w.handles ==>
          match w.handles[id]
          case Returned(answer) =>
            if AnswerOf(w.sent, id).Some? then answer == AnswerOf(w.sent, id).value
            else answer == Err(SessionClosed) && w.broker.stopped
          case Waiting => HasSender(w, id) || AnswerOf(w.sent, id).Some? || w.broker.stopped
          case _ => true)
  }

  /** The queue is what was put in and not yet taken out, in order. */
  predicate QueueOk(w: World) {
    && |w.enqueued| == |w.popped| + |w.broker.queue|
    && (forall i :: 0 <= i < |w.popped| ==> w.popped[i].0 == w.enqueued[i])
    && (forall i :: 0 <= i < |w.broker.queue| ==> w.broker.queue[i] == w.enqueued[|w.popped| + i])
  }

  /** A request that was taken out but not yielded is not pending any more. */
  predicate SkippedOk(w: World) {
    forall i :: 0 <= i < |w.popped| && !w.popped[i].1 ==> w.popped[i].0.id !in w.broker.pending
  }

  ghost predicate Inv(w: World) {
    IdsOk(w) && SendersOk(w) && AnswersOk(w) && QueueOk(w) && SkippedOk(w)
  }

  lemma AnswerAppend(sent: seq<(nat, Answer)>, id: nat, answer: Answer, other: nat)
    ensures AnswerOf(sent + [(id, answer)], other) == if other == id then Some(answer) else AnswerOf(sent, other)
  {
    assert (sent + [(id, answer)])[..|sent|] == sent;
  }

  /** The answer of `id` is the one in the log. */
  lemma {:induction false} AnswerIsLogged(sent: seq<(nat, Answer)>, id: nat)
    ensures match AnswerOf(sent, id)
            case Some(answer) => (id, answer) in sent
            case None => forall i :: 0 <= i < |sent| ==> sent[i].0 != id
    decreases |sent|
  {
    if sent != [] {
      var shorter, last := sent[..|sent| - 1], sent[|sent| - 1];
      assert sent == shorter + [last];
      AnswerIsLogged(shorter, id);
    }
  }

  lemma StepKeepsIds(w: World, s: Step)
    requires Inv(w) && CanStep(w, s)
    ensures IdsOk(Perform(w, s))
  {
  }

  lemma StepKeepsQueue(w: World, s: Step)
    requires Inv(w) && CanStep(w, s)
    ensures QueueOk(Perform(w, s))
  {
    if s.NextPops? {
      var w' := Perform(w, s);
      assert w'.broker.queue == w.broker.queue[1..] && w'.enqueued == w.enqueued;
    }
  }

  lemma StepKeepsSkipped(w: World, s: Step)
    requires Inv(w) && CanStep(w, s)
    ensures SkippedOk(Perform(w, s))
  {
  }

  lemma ReplySendKeepsAnswers(w: World, id: nat)
    requires Inv(w) && CanStep(w, ReplySends(id))
    ensures SendersOk(Perform(w, ReplySends(id))) && AnswersOk(Perform(w, ReplySends(id)))
  {
    AnswerIsLogged(w.sent, id);
    forall other
      ensures AnswerOf(w.sent + [(id, w.inFlight[id])], other)
              == if other == id then Some(w.inFlight[id]) else AnswerOf(w.sent, other)
    {
      AnswerAppend(w.sent, id, w.inFlight[id], other);
    }
  }

  lemma StepKeepsAnswers(w: World, s: Step)
    requires Inv(w) && CanStep(w, s) && !s.ReplySends?
    ensures SendersOk(Perform(w, s)) && AnswersOk(Perform(w, s))
  {
    if s.EnqueueRequest? {
      AnswerIsLogged(w.sent, s.id);
    }
  }

  lemma StepKeepsInv(w: World, s: Step)
    requires Inv(w) && CanStep(w, s)
    ensures Inv(Perform(w, s))
  {
    StepKeepsIds(w, s);
    StepKeepsQueue(w, s);
    StepKeepsSkipped(w, s);
    if s.ReplySends? {
      ReplySendKeepsAnswers(w, s.id);
    } else {
      StepKeepsAnswers(w, s);
    }
  }

  // ----- what every run promises

  /** The requests that `next` yielded, in the order in which it did. */
  function Yielded(popped: seq<(Request, bool)>): seq<Request> {
    if popped == [] then []
    else
      var last := popped[|popped| - 1];
      Yielded(popped[..|popped| - 1]) + (if last.1 then [last.0] else [])
  }

  /** From one moment to a later one: logs only grow, a stopped broker stays
      stopped and yields nothing more. */
  predicate Later(w: World, w': World) {
    && w.sent <= w'.sent && w.enqueued <= w'.enqueued && w.popped <= w'.popped
    && (w.broker.stopped ==>
          && w'.broker.stopped && w'.enqueued == w.enqueued
          && forall i :: |w.popped| <= i < |w'.popped| ==> !w'.popped[i].1)
  }

  lemma StepIsLater(w: World, s: Step)
    requires Inv(w) && CanStep(w, s)
    ensures Later(w, Perform(w, s))
  {
  }

  lemma LaterIsTransitive(u: World, v: World, w: World)
    requires Later(u, v) && Later(v, w)
    ensures Later(u, w)
  {
  }

  lemma NextKeepsInv(w: World, w': World)
    requires Inv(w) && Next(w, w')
    ensures Inv(w') && Later(w, w')
  {
    var s :| CanStep(w, s) && Perform(w, s) == w';
    StepKeepsInv(w, s);
    StepIsLater(w, s);
  }

  lemma RunIsOk(run: seq<World>, m: nat, n: nat)
    requires IsRun(run) && m <= n < |run|
    ensures Inv(run[m]) && Inv(run[n]) && Later(run[m], run[n])
  {
    forall w, w' | Inv(w) && Next(w, w') ensures Inv(w') && Later(w, w') {
      NextKeepsInv(w, w');
    }
    forall u, v, w | Later(u, v) && Later(v, w) ensures Later(u, w) {
      LaterIsTransitive(u, v, w);
    }
    assert Inv(NEW_WORLD);
    Runs.RelationHolds(NEW_WORLD, Next, Inv, Later, run, m, n);
    Runs.InvariantHolds(NEW_WORLD, Next, Inv, run, m);
  }

  /** Linearity: each id is answered by at most one successful reply, and a
      handle that returns gets exactly that answer; without one it returns
      `SessionClosed`, and only after `stop`. */
  lemma EachIdAnsweredOnce(run: seq<World>, n: nat)
    requires IsRun(run) && n < |run|
    ensures var w := run[n];
            && (forall i, j :: 0 <= i < j < |w.sent| ==> w.sent[i].0 != w.sent[j].0)
            && (forall id :: id in w.handles && w.handles[id].Returned? ==>
                  || (id, w.handles[id].answer) in w.sent
                  || (w.handles[id].answer == Err(SessionClosed) && w.broker.stopped
                      && forall i :: 0 <= i < |w.sent| ==> w.sent[i].0 != id))
  {
    RunIsOk(run, n, n);
    var w := run[n];
    forall id | id in w.handles && w.handles[id].Returned?
      ensures || (id, w.handles[id].answer) in w.sent
              || (w.handles[id].answer == Err(SessionClosed) && w.broker.stopped
                  && forall i :: 0 <= i < |w.sent| ==> w.sent[i].0 != id)
    {
      AnswerIsLogged(w.sent, id);
    }
  }

  /** A sent answer is never lost: a handle that is still waiting can resume, and
      does so with that answer. */
  lemma SentAnswerIsReceived(run: seq<World>, n: nat, id: nat, answer: Answer)
    requires IsRun(run) && n < |run| && (id, answer) in run[n].sent
    requires id in run[n].handles && run[n].handles[id] == Waiting
    ensures CanStep(run[n], HandleResumes(id))
    ensures Perform(run[n], HandleResumes(id)).handles[id] == Returned(answer)
  {
    RunIsOk(run, n, n);
    AnswerIsLogged(run[n].sent, id);
    if AnswerOf(run[n].sent, id).Some? {
      var logged := AnswerOf(run[n].sent, id).value;
      assert (id, logged) in run[n].sent;
    }
  }

  /** After `stop`: nothing is pending, no request is admitted, no reply takes a
      sender and no `next` yields, from then on. */
  lemma StopIsFinal(run: seq<World>, m: nat, n: nat)
    requires IsRun(run) && m <= n < |run| && run[m].broker.stopped
    ensures run[n].broker.stopped && run[n].broker.pending == {}
    ensures forall id, message :: Enqueue(run[n].broker, id, message) == (run[n].broker, Err(SessionClosed))
    ensures Yielded(run[n].popped) == Yielded(run[m].popped)
  {
    RunIsOk(run, m, n);
    YieldedStays(run[m].popped, run[n].popped);
  }

  lemma {:induction false} YieldedStays(popped: seq<(Request, bool)>, popped': seq<(Request, bool)>)
    requires popped <= popped' && forall i :: |popped| <= i < |popped'| ==> !popped'[i].1
    ensures Yielded(popped') == Yielded(popped)
    decreases |popped'|
  {
    if |popped'| > |popped| {
      YieldedStays(popped, popped'[..|popped'| - 1]);
    } else {
      assert popped' == popped;
    }
  }

  /** `next` yields requests in the order in which they were enqueued: an index
      into the enqueued requests that rises from each yielded one to the next. */
  ghost predicate IsSubsequence(sub: seq<Request>, whole: seq<Request>, at: seq<nat>) {
    && |at| == |sub|
    && (forall i :: 0 <= i < |sub| ==> at[i] < |whole| && whole[at[i]] == sub[i])
    && (forall i, j :: 0 <= i < j < |sub| ==> at[i] < at[j])
  }

  lemma ExtendSubsequence(sub: seq<Request>, whole: seq<Request>, at: seq<nat>, k: nat)
    requires IsSubsequence(sub, whole, at) && k < |whole| && forall i :: 0 <= i < |at| ==> at[i] < k
    ensures IsSubsequence(sub + [whole[k]], whole, at + [k])
  {
  }

  lemma {:induction false} YieldedIsSubsequence(popped: seq<(Request, bool)>, enqueued: seq<Request>) returns (at: seq<nat>)
    requires |popped| <= |enqueued| && forall i :: 0 <= i < |popped| ==> popped[i].0 == enqueued[i]
    ensures IsSubsequence(Yielded(popped), enqueued, at)
    ensures forall i :: 0 <= i < |at| ==> at[i] < |popped|
    decreases |popped|
  {
    if popped == [] {
      at := [];
    } else {
      var k := |popped| - 1;
      at := YieldedIsSubsequence(popped[..k], enqueued);
      if popped[k].1 {
        ExtendSubsequence(Yielded(popped[..k]), enqueued, at, k);
        at := at + [k];
      } else {
        assert Yielded(popped) == Yielded(popped[..k]);
      }
    }
  }

  /** Delivery order: what `next` yielded is a subsequence of what was enqueued,
      and it yields each request at most once; a request that it skipped is not
      pending. */
  lemma DeliveryOrder(run: seq<World>, n: nat) returns (at: seq<nat>)
    requires IsRun(run) && n < |run|
    ensures var w := run[n];
            var yielded := Yielded(w.popped);
            && IsSubsequence(yielded, w.enqueued, at)
            && (forall i, j :: 0 <= i < j < |yielded| ==> yielded[i].id != yielded[j].id)
            && |w.popped| <= |w.enqueued|
            && (forall i :: 0 <= i < |w.popped| ==> w.popped[i].0 == w.enqueued[i])
            && w.enqueued[|w.popped|..] == w.broker.queue
            && (forall i :: 0 <= i < |w.popped| && !w.popped[i].1 ==> w.popped[i].0.id !in w.broker.pending)
  {
    RunIsOk(run, n, n);
    at := YieldedIsSubsequence(run[n].popped, run[n].enqueued);
  }

  /** What `next` skipped is not pending at that moment or at any later one, so no
      reply can take its sender. */
  lemma SkippedIsGone(run: seq<World>, m: nat, n: nat, i: nat)
    requires IsRun(run) && m <= n < |run| && i < |run[m].popped| && !run[m].popped[i].1
    ensures run[m].popped[i].0.id !in run[n].broker.pending
    ensures forall answer :: !CanStep(run[n], ReplyTakes(run[m].popped[i].0.id, answer))
  {
    RunIsOk(run, m, n);
    assert run[n].popped[i] == run[m].popped[i];
  }

  // ----- the object's `next`, and that every request can be answered

  /** `k` requests are taken out of the queue, one after the other. */
  function Pops(w: World, k: nat): World
    requires k <= |w.broker.queue|
    decreases k
  {
    if k == 0 then w else Pops(Perform(w, NextPops), k - 1)
  }

  /** Requests with whether they are pending. */
  function Marked(queue: seq<Request>, pending: set<nat>): seq<(Request, bool)> {
    seq(|queue|, i requires 0 <= i < |queue| => (queue[i], queue[i].id in pending))
  }

  lemma {:induction false} PopsTakes(w: World, k: nat)
    requires k <= |w.broker.queue|
    ensures Pops(w, k) == w.(broker := w.broker.(queue := w.broker.queue[k..]),
                             popped := w.popped + Marked(w.broker.queue[..k], w.broker.pending))
    decreases k
  {
    var queue, pending := w.broker.queue, w.broker.pending;
    if k == 0 {
      assert w.popped + Marked([], pending) == w.popped && queue[0..] == queue && queue[..0] == [];
    } else {
      PopsTakes(Perform(w, NextPops), k - 1);
      assert queue[1..][k - 1..] == queue[k..] && queue[1..][..k - 1] == queue[1..k];
      assert Marked(queue[..k], pending) == [(queue[0], queue[0].id in pending)] + Marked(queue[1..k], pending);
    }
  }

  lemma SkippingYieldsNothing(w: World, k: nat)
    requires k <= |w.broker.queue| && forall i :: 0 <= i < k ==> w.broker.queue[i].id !in w.broker.pending
    ensures Yielded(Pops(w, k).popped) == Yielded(w.popped)
  {
    PopsTakes(w, k);
    YieldedStays(w.popped, w.popped + Marked(w.broker.queue[..k], w.broker.pending));
  }

  lemma OneMorePop(w: World, k: nat)
    requires k < |w.broker.queue|
    ensures Pops(w, k + 1).popped == Pops(w, k).popped + [(w.broker.queue[k], w.broker.queue[k].id in w.broker.pending)]
  {
    var queue, pending := w.broker.queue, w.broker.pending;
    PopsTakes(w, k);
    PopsTakes(w, k + 1);
    assert Marked(queue[..k + 1], pending) == Marked(queue[..k], pending) + [(queue[k], queue[k].id in pending)];
  }

  lemma YieldedMore(popped: seq<(Request, bool)>, request: Request)
    ensures Yielded(popped + [(request, true)]) == Yielded(popped) + [request]
  {
    assert (popped + [(request, true)])[..|popped|] == popped;
  }

  /** A call of the object's `next` is a sequence of these steps: it skips what is no longer
      pending and yields exactly the first request that is. */
  lemma NextYieldsFirstPending(w: World)
    ensures var k := FirstPending(w.broker.queue, w.broker.pending);
            if k < |w.broker.queue| then Yielded(Pops(w, k + 1).popped) == Yielded(w.popped) + [w.broker.queue[k]]
            else Yielded(Pops(w, k).popped) == Yielded(w.popped)
  {
    var k := FirstPending(w.broker.queue, w.broker.pending);
    SkippingYieldsNothing(w, k);
    if k < |w.broker.queue| {
      OneMorePop(w, k);
      YieldedMore(Pops(w, k).popped, w.broker.queue[k]);
    }
  }

  /** A new request, drawn and enqueued. */
  lemma NewRequestIsPending(w: World, message: string)
    requires Inv(w) && !w.broker.stopped
    ensures var (id, w1) := (w.broker.nextId, Perform(w, DrawId));
            && CanStep(w1, EnqueueRequest(id, message))
            && (var w2 := Perform(w1, EnqueueRequest(id, message));
                && w2.broker.queue == w.broker.queue + [Request(id, message)] && id in w2.broker.pending
                && id in w2.handles && w2.handles[id] == Waiting && AnswerOf(w2.sent, id).None?)
  {
    AnswerIsLogged(w.sent, w.broker.nextId);
  }

  /** Every request can be answered: in every reachable world before `stop`, a new request is
      admitted, yielded with its own text once the queue before it is empty, and a reply
      to it makes its handle return just that answer. */
  lemma EveryRequestCanBeAnswered(run: seq<World>, n: nat, message: string, answer: Answer) returns (id: nat, asked: World, yielded: World)
    requires IsRun(run) && n < |run| && !run[n].broker.stopped
    ensures id == run[n].broker.nextId
    ensures CanStep(Perform(run[n], DrawId), EnqueueRequest(id, message))
    ensures asked == Perform(Perform(run[n], DrawId), EnqueueRequest(id, message))
    ensures yielded == Pops(asked, |asked.broker.queue|)
    ensures yielded.popped != [] && yielded.popped[|yielded.popped| - 1] == (Request(id, message), true)
    ensures CanStep(yielded, ReplyTakes(id, answer))
    ensures var taken := Perform(yielded, ReplyTakes(id, answer));
            CanStep(taken, ReplySends(id)) && CanStep(Perform(taken, ReplySends(id)), HandleResumes(id))
            && Perform(Perform(taken, ReplySends(id)), HandleResumes(id)).handles[id] == Returned(answer)
  {
    RunIsOk(run, n, n);
    NewRequestIsPending(run[n], message);
    id := run[n].broker.nextId;
    asked := Perform(Perform(run[n], DrawId), EnqueueRequest(id, message));
    PopsTakes(asked, |asked.broker.queue|);
    yielded := Pops(asked, |asked.broker.queue|);
    var queue := asked.broker.queue;
    assert queue[..|queue|] == queue && queue[|queue| - 1] == Request(id, message);
    AnswerAppend(yielded.sent, id, answer, id);
  }
}
