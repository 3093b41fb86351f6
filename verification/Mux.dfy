/** The loop of the `ai` plugin that owns the kernel connection and routes interleaved replies, stream
    frames, timeouts and cancels to many tasks. A run is the sequence of events its `select!` took; a
    channel handed over by an event is named by the position of that event in the run. */
module Mux {
  import opened Text

  type Id = string

  const DEFAULT_OUTBOUND_TIMEOUT: nat := 30_000

  /** One event of the run: a frame from the kernel, a request or reply of a task, or a sweep. A minted
      id, a clock reading and the outcome of a send (`None` is success) are part of the event that caused
      them. A `Request` that is not streamed only starts a task, whose reply is a `TaskReply`. */
  datatype Event =
    | Response(id: Id, ok: bool, data: string, error: string)
    | ResponseChunk(id: Id, chunk: string)
    | SessionClose(id: Id)
    | StreamAbort(id: Id, error: string)
    | StreamRequest(id: Id, action: string)
    | TaskExit(id: Id)
    | TaskReply(payload: string)
    | Call(id: Id, request: string, timeoutMs: nat, now: int, failure: Option<string>)
    | OpenStream(id: Id, request: string, failure: Option<string>)
    | CloseStream(id: Id)
    | Sweep(now: int)
    | Ping(sent: int, read: int)
    | Delivery(event: string)
    | Request(request: string)

  /** What the loop asks the connection to send. */
  datatype Envelope =
    | Ask(id: Id, request: string, streaming: bool)
    | Refuse(id: Id, error: string)
    | Close(id: Id)
    | Forward(payload: string)
    | Pong(sent: int, read: int)
    | Ack(event: string)

  /** What the caller of an outbound call receives. */
  datatype Outcome =
    | Answered(ok: bool, data: string, error: string)
    | SendFailed(failure: string)
    | Timeout

  /** What the handler of an upstream session receives. */
  datatype Frame = Accepted(data: string) | Chunk(chunk: string) | Done | Failed(error: string)

  // ---------------------------------------------------------------------------
  // Channels.
  // ---------------------------------------------------------------------------

  type Channels<T> = map<nat, seq<T>>

  function Received<T>(channels: Channels<T>, k: nat): seq<T> {
    if k in channels then channels[k] else []
  }

  function Send<T>(channels: Channels<T>, k: nat, message: T): Channels<T> {
    channels[k := Received(channels, k) + [message]]
  }

  function SendEach<T>(channels: Channels<T>, ks: set<nat>, message: T): Channels<T> {
    map k | k in channels.Keys + ks :: if k in ks then Received(channels, k) + [message] else channels[k]
  }

  // ---------------------------------------------------------------------------
  // The loop.
  // ---------------------------------------------------------------------------

  type Pending = map<Id, (nat, int)>

  datatype State = State(
    pending: Pending,
    upStreams: map<Id, nat>,
    inbound: map<Id, nat>,
    results: Channels<Outcome>,
    frames: Channels<Frame>,
    cancels: Channels<()>,
    outbox: seq<Envelope>)

  const START := State(map[], map[], map[], map[], map[], map[], [])

  function Deadline(timeoutMs: nat, now: int): int {
    now + if timeoutMs == 0 then DEFAULT_OUTBOUND_TIMEOUT else timeoutMs
  }

  function Expired(pending: Pending, now: int): set<Id> {
    set id | id in pending && pending[id].1 <= now
  }

  function CallsOf(pending: Pending, ids: set<Id>): set<nat> {
    set id | id in ids && id in pending :: pending[id].0
  }

  function NextPending(pending: Pending, k: nat, e: Event): Pending {
    match e
    case Response(id, _, _, _) => pending - {id}
    case Call(id, _, timeoutMs, now, None) => pending[id := (k, Deadline(timeoutMs, now))]
    case Sweep(now) => pending - Expired(pending, now)
    case _ => pending
  }

  function NextStreams(s: State, k: nat, e: Event): map<Id, nat> {
    match e
    case Response(id, ok, _, _) => if ok || id in s.pending then s.upStreams else s.upStreams - {id}
    case SessionClose(id) => s.upStreams - {id}
    case StreamAbort(id, _) => s.upStreams - {id}
    case CloseStream(id) => s.upStreams - {id}
    case OpenStream(id, _, failure) => if failure.None? then s.upStreams[id := k] else s.upStreams - {id}
    case _ => s.upStreams
  }

  function NextInbound(s: State, k: nat, e: Event): map<Id, nat> {
    match e
    case SessionClose(id) => if id in s.upStreams then s.inbound else s.inbound - {id}
    case StreamAbort(id, _) => if id in s.upStreams then s.inbound else s.inbound - {id}
    case TaskExit(id) => s.inbound - {id}
    case StreamRequest(id, action) => if action == "chat_completion" then s.inbound[id := k] else s.inbound
    case _ => s.inbound
  }

  function NextResults(s: State, k: nat, e: Event): Channels<Outcome> {
    match e
    case Response(id, ok, data, error) =>
      if id in s.pending then Send(s.results, s.pending[id].0, Answered(ok, data, error)) else s.results
    case Call(_, _, _, _, Some(failure)) => Send(s.results, k, SendFailed(failure))
    case Sweep(now) => SendEach(s.results, CallsOf(s.pending, Expired(s.pending, now)), Timeout)
    case _ => s.results
  }

  /** The upstream session an event belongs to, and the frame it becomes. */
  function FrameOf(s: State, e: Event): Option<(Id, Frame)> {
    match e
    case Response(id, ok, data, error) =>
      if id in s.pending then None else Some((id, if ok then Accepted(data) else Failed(error)))
    case ResponseChunk(id, chunk) => Some((id, Chunk(chunk)))
    case SessionClose(id) => Some((id, Done))
    case StreamAbort(id, error) => Some((id, Failed(error)))
    case _ => None
  }

  function NextFrames(s: State, e: Event): Channels<Frame> {
    match FrameOf(s, e)
    case Some((id, frame)) => if id in s.upStreams then Send(s.frames, s.upStreams[id], frame) else s.frames
    case None => s.frames
  }

  function NextCancels(s: State, e: Event): Channels<()> {
    if (e.SessionClose? || e.StreamAbort?) && e.id !in s.upStreams && e.id in s.inbound
    then Send(s.cancels, s.inbound[e.id], ()) else s.cancels
  }

  function Outgoing(s: State, e: Event): seq<Envelope> {
    match e
    case StreamRequest(id, action) =>
      if action == "chat_completion" then [] else [Refuse(id, action + " does not support streaming")]
    case TaskReply(payload) => [Forward(payload)]
    case Call(id, request, _, _, _) => [Ask(id, request, false)]
    case OpenStream(id, request, _) => [Ask(id, request, true)]
    case CloseStream(id) => if id in s.upStreams then [Close(id)] else []
    case Ping(sent, read) => [Pong(sent, read)]
    case Delivery(event) => [Ack(event)]
    case _ => []
  }

  /** The state after event number `k`. */
  function Step(s: State, k: nat, e: Event): State {
    State(NextPending(s.pending, k, e), NextStreams(s, k, e), NextInbound(s, k, e),
          NextResults(s, k, e), NextFrames(s, e), NextCancels(s, e), s.outbox + Outgoing(s, e))
  }

  function Run(events: seq<Event>): State {
    if |events| == 0 then START else
      var n := |events| - 1;
      Step(Run(events[..n]), n, events[n])
  }

  // ---------------------------------------------------------------------------
  // Ids are fresh, so every table entry belongs to the event that made it.
  // ---------------------------------------------------------------------------

  /** The events that bring an id into a table. */
  predicate IsBirth(e: Event) {
    e.Call? || e.OpenStream? || e.StreamRequest?
  }

  /** Minted ids are random UUIDs and the kernel names each inbound session once. */
  predicate FreshIds(events: seq<Event>) {
    forall i, j | 0 <= i < j < |events| && IsBirth(events[i]) && IsBirth(events[j]) ::
      events[i].id != events[j].id
  }

  predicate IsCall(events: seq<Event>, id: Id, k: nat) {
    k < |events| && events[k].Call? && events[k].id == id
  }

  predicate IsOpen(events: seq<Event>, id: Id, k: nat) {
    k < |events| && events[k].OpenStream? && events[k].id == id
  }

  predicate IsInbound(events: seq<Event>, id: Id, k: nat) {
    k < |events| && events[k].StreamRequest? && events[k].id == id
  }

  predicate OwnedCalls(pending: Pending, events: seq<Event>) {
    forall id | id in pending :: IsCall(events, id, pending[id].0)
  }

  predicate OwnedStreams(upStreams: map<Id, nat>, events: seq<Event>) {
    forall id | id in upStreams :: IsOpen(events, id, upStreams[id])
  }

  predicate OwnedInbound(inbound: map<Id, nat>, events: seq<Event>) {
    forall id | id in inbound :: IsInbound(events, id, inbound[id])
  }

  predicate Owned(s: State, events: seq<Event>) {
    OwnedCalls(s.pending, events) && OwnedStreams(s.upStreams, events) && OwnedInbound(s.inbound, events)
  }

  lemma RunStep(events: seq<Event>)
    requires |events| > 0
    ensures var s, t, n, e := Run(events[..|events| - 1]), Run(events), |events| - 1, events[|events| - 1];
            && t.pending == NextPending(s.pending, n, e)
            && t.upStreams == NextStreams(s, n, e)
            && t.inbound == NextInbound(s, n, e)
            && t.results == NextResults(s, n, e)
            && t.frames == NextFrames(s, e)
            && t.cancels == NextCancels(s, e)
            && t.outbox == s.outbox + Outgoing(s, e)
  {
    hide *;
    RunUnfolds(events);
    StepFields(Run(events[..|events| - 1]), |events| - 1, events[|events| - 1]);
  }

  lemma RunUnfolds(events: seq<Event>)
    requires |events| > 0
    ensures Run(events) == Step(Run(events[..|events| - 1]), |events| - 1, events[|events| - 1])
  {
    hide Step;
  }

  lemma StepFields(s: State, n: nat, e: Event)
    ensures var t := Step(s, n, e);
            && t.pending == NextPending(s.pending, n, e)
            && t.upStreams == NextStreams(s, n, e)
            && t.inbound == NextInbound(s, n, e)
            && t.results == NextResults(s, n, e)
            && t.frames == NextFrames(s, e)
            && t.cancels == NextCancels(s, e)
            && t.outbox == s.outbox + Outgoing(s, e)
  {
    hide NextPending, NextStreams, NextInbound, NextResults, NextFrames, NextCancels, Outgoing;
  }

  /** A step changes no table entry: it drops some and adds at most its own. */
  lemma PendingStep(s: State, k: nat, e: Event, id: Id)
    requires id in NextPending(s.pending, k, e)
    ensures var p := NextPending(s.pending, k, e);
            (id in s.pending && p[id] == s.pending[id]) || (e.Call? && e.id == id && p[id].0 == k)
  {
  }

  lemma StreamsStep(s: State, k: nat, e: Event, id: Id)
    requires id in NextStreams(s, k, e)
    ensures var up := NextStreams(s, k, e);
            (id in s.upStreams && up[id] == s.upStreams[id]) || (e.OpenStream? && e.id == id && up[id] == k)
  {
  }

  lemma InboundStep(s: State, k: nat, e: Event, id: Id)
    requires id in NextInbound(s, k, e)
    ensures var inbound := NextInbound(s, k, e);
            (id in s.inbound && inbound[id] == s.inbound[id]) || (e.StreamRequest? && e.id == id && inbound[id] == k)
  {
  }

  lemma {:induction false} CallsAreOwned(events: seq<Event>)
    ensures OwnedCalls(Run(events).pending, events)
  {
    if |events| > 0 {
      var n := |events| - 1;
      CallsAreOwned(events[..n]);
      RunStep(events);
      hide Run, NextPending, NextStreams, NextInbound;
      forall id | id in Run(events).pending ensures IsCall(events, id, Run(events).pending[id].0) {
        PendingStep(Run(events[..n]), n, events[n], id);
      }
    }
  }

  lemma {:induction false} StreamsAreOwned(events: seq<Event>)
    ensures OwnedStreams(Run(events).upStreams, events)
  {
    if |events| > 0 {
      var n := |events| - 1;
      StreamsAreOwned(events[..n]);
      RunStep(events);
      hide Run, NextPending, NextStreams, NextInbound;
      forall id | id in Run(events).upStreams ensures IsOpen(events, id, Run(events).upStreams[id]) {
        StreamsStep(Run(events[..n]), n, events[n], id);
      }
    }
  }

  lemma {:induction false} InboundAreOwned(events: seq<Event>)
    ensures OwnedInbound(Run(events).inbound, events)
  {
    if |events| > 0 {
      var n := |events| - 1;
      InboundAreOwned(events[..n]);
      RunStep(events);
      hide Run, NextPending, NextStreams, NextInbound;
      forall id | id in Run(events).inbound ensures IsInbound(events, id, Run(events).inbound[id]) {
        InboundStep(Run(events[..n]), n, events[n], id);
      }
    }
  }

  lemma EntriesAreOwned(events: seq<Event>)
    ensures Owned(Run(events), events)
  {
    CallsAreOwned(events);
    StreamsAreOwned(events);
    InboundAreOwned(events);
  }

  /** Nothing is sent on the channel of an event that has not happened. */
  lemma {:induction false} ChannelsAreOld(events: seq<Event>, k: nat)
    requires k >= |events|
    ensures var s := Run(events);
            Received(s.results, k) == [] && Received(s.frames, k) == [] && Received(s.cancels, k) == []
  {
    if |events| > 0 {
      var n := |events| - 1;
      ChannelsAreOld(events[..n], k);
      EntriesAreOwned(events[..n]);
      RunStep(events);
      hide Run;
      var s := Run(events[..n]);
      ResultsElsewhere(s, n, events[n], k);
      FramesElsewhere(s, events[n], k);
      CancelsElsewhere(s, events[n], k);
    }
  }

  lemma ResultsElsewhere(s: State, n: nat, e: Event, k: nat)
    requires k != n && forall id | id in s.pending :: s.pending[id].0 != k
    ensures Received(NextResults(s, n, e), k) == Received(s.results, k)
  {
  }

  lemma EndedHearsNothing(s: State, n: nat, e: Event, id: Id, k: nat)
    requires k != n && OnlyOwner(s.pending, id, k) && id !in s.pending && !(e.Call? && e.id == id)
    ensures Received(NextResults(s, n, e), k) == Received(s.results, k)
    ensures id !in NextPending(s.pending, n, e)
  {
    ResultsElsewhere(s, n, e, k);
  }

  lemma FramesElsewhere(s: State, e: Event, k: nat)
    requires forall id | id in s.upStreams :: s.upStreams[id] != k
    ensures Received(NextFrames(s, e), k) == Received(s.frames, k)
  {
  }

  lemma CancelsElsewhere(s: State, e: Event, k: nat)
    requires forall id | id in s.inbound :: s.inbound[id] != k
    ensures Received(NextCancels(s, e), k) == Received(s.cancels, k)
  {
  }

  /** No two ids wait for the same caller. */
  predicate OneEach(pending: Pending) {
    forall a, b | a in pending && b in pending && a != b :: pending[a].0 != pending[b].0
  }

  /** The sweep: collect the expired ids, then end each of their calls. */
  method SweepPending(pending: Pending, results: Channels<Outcome>, now: int)
    returns (left: Pending, told: Channels<Outcome>)
    requires OneEach(pending)
    ensures left == pending - Expired(pending, now)
    ensures told == SendEach(results, CallsOf(pending, Expired(pending, now)), Timeout)
  {
    hide SendEach, Send, CallsOf, OneEach;
    var expired := set id | id in pending && pending[id].1 <= now;
    ghost var ended: set<Id> := {};
    left, told := pending, results;
    TellNobody(pending, results);
    while expired != {}
      invariant ended + expired == Expired(pending, now) && ended !! expired
      invariant left == pending - ended
      invariant told == SendEach(results, CallsOf(pending, ended), Timeout)
      decreases |expired|
    {
      var id :| id in expired;
      expired := expired - {id};
      TellOneMore(pending, results, ended, id);
      told := Send(told, left[id].0, Timeout);
      left := left - {id};
      ended := ended + {id};
      assert left == pending - ended;
    }
    assert ended == Expired(pending, now);
  }

  lemma TellNobody(pending: Pending, results: Channels<Outcome>)
    ensures SendEach(results, CallsOf(pending, {}), Timeout) == results
  {
  }

  lemma TellOneMore(pending: Pending, results: Channels<Outcome>, ended: set<Id>, id: Id)
    requires OneEach(pending)
    requires id in pending && id !in ended
    ensures SendEach(results, CallsOf(pending, ended + {id}), Timeout) ==
            Send(SendEach(results, CallsOf(pending, ended), Timeout), pending[id].0, Timeout)
  {
    var call, calls := pending[id].0, CallsOf(pending, ended);
    assert CallsOf(pending, ended + {id}) == calls + {call};
    assert call !in calls;
    hide CallsOf;
    var more, one := SendEach(results, calls + {call}, Timeout), SendEach(results, calls, Timeout);
    assert Received(one, call) == Received(results, call);
    assert more.Keys == one.Keys + {call};
  }

  /** The variables of the loop. */
  class Loop {
    var pending: Pending
    var upStreams: map<Id, nat>
    var inbound: map<Id, nat>
    var results: Channels<Outcome>
    var frames: Channels<Frame>
    var cancels: Channels<()>
    var outbox: seq<Envelope>

    constructor ()
      ensures Snapshot() == START
    {
      pending, upStreams, inbound := map[], map[], map[];
      results, frames, cancels := map[], map[], map[];
      outbox := [];
    }

    function Snapshot(): State
      reads this
    {
      State(pending, upStreams, inbound, results, frames, cancels, outbox)
    }

    method OnResponse(k: nat, id: Id, ok: bool, data: string, error: string)
      modifies this
      ensures Snapshot() == Step(old(Snapshot()), k, Response(id, ok, data, error))
    {
      hide Send;
      if id in pending {
        results := Send(results, pending[id].0, Answered(ok, data, error));
        pending := pending - {id};
      } else if ok && id in upStreams {
        frames := Send(frames, upStreams[id], Accepted(data));
      } else if id in upStreams {
        frames := Send(frames, upStreams[id], Failed(error));
        upStreams := upStreams - {id};
      }
      assert outbox + [] == outbox;
      assert old(pending) - {id} == pending;
    }

    /** A session close or abort: ours ends, or else the caller stops a task. */
    method OnEnd(k: nat, e: Event)
      requires e.SessionClose? || e.StreamAbort?
      modifies this
      ensures Snapshot() == Step(old(Snapshot()), k, e)
    {
      hide Send;
      if e.id in upStreams {
        frames := Send(frames, upStreams[e.id], if e.SessionClose? then Done else Failed(e.error));
        upStreams := upStreams - {e.id};
      } else if e.id in inbound {
        cancels := Send(cancels, inbound[e.id], ());
        inbound := inbound - {e.id};
      }
      assert outbox + [] == outbox;
      assert upStreams == old(upStreams) - {e.id};
    }

    method OnRequest(k: nat, e: Event)
      requires e.StreamRequest? || e.TaskExit? || e.TaskReply? || e.CloseStream?
            || e.Ping? || e.Delivery? || e.Request?
      modifies this
      ensures Snapshot() == Step(old(Snapshot()), k, e)
    {
      hide Send;
      match e {
        case StreamRequest(id, action) =>
          if action != "chat_completion" {
            outbox := outbox + [Refuse(id, action + " does not support streaming")];
          } else {
            inbound := inbound[id := k];
          }
        case TaskExit(id) =>
          inbound := inbound - {id};
        case TaskReply(payload) =>
          outbox := outbox + [Forward(payload)];
        case CloseStream(id) =>
          if id in upStreams {
            upStreams := upStreams - {id};
            outbox := outbox + [Close(id)];
          }
        case Ping(sent, read) =>
          outbox := outbox + [Pong(sent, read)];
        case Delivery(event) =>
          outbox := outbox + [Ack(event)];
        case Request(_) =>
      }
      assert forall out: seq<Envelope> {:trigger out + []} :: out + [] == out;
    }

    method OnOutbound(k: nat, e: Event)
      requires e.Call? || e.OpenStream?
      modifies this
      ensures Snapshot() == Step(old(Snapshot()), k, e)
    {
      hide Send;
      if e.Call? {
        var timeout := if e.timeoutMs == 0 then DEFAULT_OUTBOUND_TIMEOUT else e.timeoutMs;
        outbox := outbox + [Ask(e.id, e.request, false)];
        if e.failure.None? {
          pending := pending[e.id := (k, e.now + timeout)];
        } else {
          results := Send(results, k, SendFailed(e.failure.value));
        }
      } else {
        upStreams := upStreams[e.id := k];
        outbox := outbox + [Ask(e.id, e.request, true)];
        if e.failure.Some? {
          upStreams := upStreams - {e.id};
          assert upStreams == old(upStreams) - {e.id};
        }
      }
    }

    method OnEvent(k: nat, e: Event)
      requires OneEach(pending)
      modifies this
      ensures Snapshot() == Step(old(Snapshot()), k, e)
    {
      match e {
        case Response(id, ok, data, error) => OnResponse(k, id, ok, data, error);
        case SessionClose(_) => OnEnd(k, e);
        case StreamAbort(_, _) => OnEnd(k, e);
        case Call(_, _, _, _, _) => OnOutbound(k, e);
        case OpenStream(_, _, _) => OnOutbound(k, e);
        case ResponseChunk(id, chunk) =>
          if id in upStreams {
            frames := Send(frames, upStreams[id], Chunk(chunk));
          }
          assert outbox + [] == outbox;
        case Sweep(now) =>
          pending, results := SweepPending(pending, results, now);
          assert outbox + [] == outbox;
        case _ => OnRequest(k, e);
      }
    }
  }

  /** The loop over the events of one run, up to the disconnect. */
  method RunLoop(events: seq<Event>) returns (s: State)
    requires FreshIds(events)
    ensures s == Run(events)
  {
    hide Step, Run;
    var loop := new Loop();
    RunNothing();
    for k := 0 to |events|
      invariant loop.Snapshot() == Run(events[..k])
    {
      RunNext(events, k);
      CallsAreDistinct(events[..k]);
      loop.OnEvent(k, events[k]);
    }
    assert events[..|events|] == events;
    s := loop.Snapshot();
  }

  lemma RunNothing()
    ensures Run([]) == START
  {
  }

  lemma RunNext(events: seq<Event>, k: nat)
    requires k < |events|
    ensures Run(events[..k + 1]) == Step(Run(events[..k]), k, events[k])
  {
    assert events[..k + 1][..k] == events[..k];
  }

  lemma CallsAreDistinct(events: seq<Event>)
    ensures OneEach(Run(events).pending)
  {
    CallsAreOwned(events);
    hide Run;
  }

  // ---------------------------------------------------------------------------
  // Outbound calls.
  // ---------------------------------------------------------------------------

  /** How `e` ends a call that waits: its own response, or a sweep when its time is over: 30 seconds when it
      names none. */
  function CallEnd(call: Event, e: Event): Option<Outcome>
    requires call.Call?
  {
    if e.Response? && e.id == call.id then Some(Answered(e.ok, e.data, e.error))
    else if e.Sweep? && call.now + (if call.timeoutMs == 0 then 30_000 else call.timeoutMs) <= e.now
    then Some(Timeout)
    else None
  }

  /** What the call made by event `k` is told, looking at nothing but its own events. */
  function CallOutcome(events: seq<Event>, k: nat): Option<Outcome>
    requires k < |events| && events[k].Call?
  {
    var n := |events| - 1;
    if k == n then
      match events[k].failure
      case Some(error) => Some(SendFailed(error))
      case None => None
    else
      var before := CallOutcome(events[..n], k);
      if before.Some? then before else CallEnd(events[k], events[n])
  }

  predicate Waits(pending: Pending, call: Event, k: nat)
    requires call.Call?
  {
    call.id in pending && pending[call.id] == (k, Deadline(call.timeoutMs, call.now))
  }

  predicate OnlyOwner(pending: Pending, id: Id, k: nat) {
    forall other | other in pending && pending[other].0 == k :: other == id
  }

  /** One later event, seen from one call that waits. */
  lemma CallStep(s: State, n: nat, e: Event, call: Event, k: nat)
    requires call.Call? && k != n && !(e.Call? && e.id == call.id)
    requires OnlyOwner(s.pending, call.id, k) && Waits(s.pending, call, k)
    ensures var end := CallEnd(call, e);
            && (Waits(NextPending(s.pending, n, e), call, k) <==> end.None?)
            && (end.Some? ==> call.id !in NextPending(s.pending, n, e))
            && Received(NextResults(s, n, e), k) ==
               Received(s.results, k) + (if end.None? then [] else [end.value])
  {
    if e.Sweep? {
      var expired := Expired(s.pending, e.now);
      assert k in CallsOf(s.pending, expired) <==> call.id in expired;
    }
  }

  /** Each call is told exactly its own outcome, whatever is interleaved with it, and waits exactly
      while it has none. */
  lemma {:induction false} CallsAreSeparate(events: seq<Event>, k: nat)
    requires FreshIds(events) && k < |events| && events[k].Call?
    ensures var s, outcome := Run(events), CallOutcome(events, k);
            && Received(s.results, k) == (if outcome.Some? then [outcome.value] else [])
            && (Waits(s.pending, events[k], k) <==> outcome.None?)
            && (outcome.Some? ==> events[k].id !in s.pending)
  {
    hide Run, NextPending, NextResults, NextStreams, NextInbound, NextFrames, NextCancels, Outgoing, Received,
      FreshIds, OwnedCalls, OnlyOwner, Waits, CallEnd;
    var n := |events| - 1;
    var s, e := Run(events[..n]), events[n];
    RunStep(events);
    if k == n {
      ChannelsAreOld(events[..n], k);
      FreshIsNew(events);
      NewCall(s, n, e);
    } else {
      CallsAreOwned(events[..n]);
      OwnersAreUnique(events[..n], s.pending, k);
      FreshPrefix(events);
      OtherCall(events, k);
      CallsAreSeparate(events[..n], k);
      if CallOutcome(events[..n], k).None? {
        CallStep(s, n, e, events[k], k);
      } else {
        EndedHearsNothing(s, n, e, events[k].id, k);
        GoneIsNotWaiting(Run(events).pending, events[k], k);
      }
    }
  }

  /** The call that has just been made. */
  lemma NewCall(s: State, n: nat, call: Event)
    requires call.Call? && call.id !in s.pending && Received(s.results, n) == []
    ensures Received(NextResults(s, n, call), n) ==
            (if call.failure.Some? then [SendFailed(call.failure.value)] else [])
    ensures Waits(NextPending(s.pending, n, call), call, n) <==> call.failure.None?
    ensures call.failure.Some? ==> call.id !in NextPending(s.pending, n, call)
  {
  }

  lemma OtherCall(events: seq<Event>, k: nat)
    requires FreshIds(events) && k < |events| - 1 && events[k].Call?
    ensures var e := events[|events| - 1]; !(e.Call? && e.id == events[k].id)
  {
  }

  lemma GoneIsNotWaiting(pending: Pending, call: Event, k: nat)
    requires call.Call? && call.id !in pending
    ensures !Waits(pending, call, k)
  {
  }

  lemma OwnersAreUnique(events: seq<Event>, pending: Pending, k: nat)
    requires k < |events| && IsBirth(events[k]) && OwnedCalls(pending, events)
    ensures OnlyOwner(pending, events[k].id, k)
  {
  }

  lemma FreshIsNew(events: seq<Event>)
    requires FreshIds(events) && |events| > 0 && IsBirth(events[|events| - 1])
    ensures var id, s := events[|events| - 1].id, Run(events[..|events| - 1]);
            id !in s.pending && id !in s.upStreams && id !in s.inbound
  {
    EntriesAreOwned(events[..|events| - 1]);
    hide Run;
  }

  /** The outcome of a call is its send error, its own response, or `Timeout` at a sweep not before the
      deadline; `j` is the event that caused it. */
  lemma {:induction false} OutcomeHasCause(events: seq<Event>, k: nat) returns (j: nat)
    requires k < |events| && events[k].Call? && CallOutcome(events, k).Some?
    ensures k <= j < |events|
    ensures match CallOutcome(events, k).value
            case SendFailed(error) => j == k && events[k].failure == Some(error)
            case Answered(ok, data, error) => j > k && events[j] == Response(events[k].id, ok, data, error)
            case Timeout =>
              && j > k && events[j].Sweep?
              && events[j].now >= events[k].now + (if events[k].timeoutMs == 0 then 30_000 else events[k].timeoutMs)
  {
    var n := |events| - 1;
    if k < n && CallOutcome(events[..n], k).Some? {
      j := OutcomeHasCause(events[..n], k);
    } else {
      j := n;
    }
  }

  /** No call past its deadline survives a sweep. */
  lemma {:induction false} SweepEndsOverdue(events: seq<Event>, k: nat, j: nat)
    requires k < j < |events| && events[k].Call? && events[j].Sweep?
    requires events[j].now >= events[k].now + (if events[k].timeoutMs == 0 then 30_000 else events[k].timeoutMs)
    ensures CallOutcome(events, k).Some?
  {
    if j < |events| - 1 {
      SweepEndsOverdue(events[..|events| - 1], k, j);
    }
  }

  // ---------------------------------------------------------------------------
  // Upstream sessions.
  // ---------------------------------------------------------------------------

  /** An upstream session seen alone: whether frames still reach it, those that did, and whether the
      handler closed it. */
  datatype Session = Session(live: bool, frames: seq<Frame>, closed: bool)

  function SessionStep(view: Session, id: Id, e: Event): Session {
    if !view.live then view else
      match e
      case Response(other, ok, data, error) =>
        if other != id then view
        else Session(ok, view.frames + [if ok then Accepted(data) else Failed(error)], view.closed)
      case ResponseChunk(other, chunk) =>
        if other != id then view else view.(frames := view.frames + [Chunk(chunk)])
      case SessionClose(other) => if other != id then view else Session(false, view.frames + [Done], view.closed)
      case StreamAbort(other, error) =>
        if other != id then view else Session(false, view.frames + [Failed(error)], view.closed)
      case CloseStream(other) => if other != id then view else Session(false, view.frames, true)
      case _ => view
  }

  function SessionView(events: seq<Event>, k: nat): Session
    requires k < |events| && events[k].OpenStream?
  {
    var n := |events| - 1;
    if k == n then Session(events[k].failure.None?, [], false)
    else SessionStep(SessionView(events[..n], k), events[k].id, events[n])
  }

  predicate Routes(upStreams: map<Id, nat>, id: Id, k: nat) {
    id in upStreams && upStreams[id] == k
  }

  /** The stream table, and no other table, may hold the session opened by event `k`. */
  predicate SoleStream(s: State, id: Id, k: nat) {
    id !in s.pending && forall other | other in s.upStreams && s.upStreams[other] == k :: other == id
  }

  lemma StreamIsFresh(events: seq<Event>, k: nat)
    requires FreshIds(events) && k < |events| && events[k].OpenStream?
    ensures SoleStream(Run(events), events[k].id, k)
  {
    EntriesAreOwned(events);
    hide Run;
  }

  lemma StreamStep(s: State, n: nat, e: Event, id: Id, k: nat, view: Session)
    requires k != n && !(e.OpenStream? && e.id == id)
    requires SoleStream(s, id, k)
    requires (view.live <==> Routes(s.upStreams, id, k)) && (view.live <==> id in s.upStreams)
    requires Received(s.frames, k) == view.frames
    ensures var next := SessionStep(view, id, e);
            && (next.live <==> Routes(NextStreams(s, n, e), id, k))
            && (next.live <==> id in NextStreams(s, n, e))
            && Received(NextFrames(s, e), k) == next.frames
  {
  }

  /** The handler of each upstream session receives exactly the frames of its own session, in order,
      up to its end, whatever is interleaved with them. */
  lemma {:induction false} SessionsAreSeparate(events: seq<Event>, k: nat)
    requires FreshIds(events) && k < |events| && events[k].OpenStream?
    ensures var s, view := Run(events), SessionView(events, k);
            && Received(s.frames, k) == view.frames
            && (view.live <==> Routes(s.upStreams, events[k].id, k))
            && (view.live <==> events[k].id in s.upStreams)
  {
    var n := |events| - 1;
    var s, e := Run(events[..n]), events[n];
    RunStep(events);
    hide Run;
    if k == n {
      ChannelsAreOld(events[..n], k);
      FreshIsNew(events);
      assert NextFrames(s, e) == s.frames;
    } else {
      assert !(e.OpenStream? && e.id == events[k].id);
      FreshPrefix(events);
      hide FreshIds, SoleStream, SessionStep, NextFrames, NextStreams, Received, Routes;
      SessionsAreSeparate(events[..n], k);
      StreamIsFresh(events[..n], k);
      StreamStep(s, n, e, events[k].id, k, SessionView(events[..n], k));
    }
  }

  predicate IsLast(frame: Frame) {
    frame.Done? || frame.Failed?
  }

  /** A handler sees acceptances and chunks and then at most one end, with nothing after it; while the
      session lives there is no end yet. */
  lemma {:induction false} SessionGrammar(events: seq<Event>, k: nat)
    requires k < |events| && events[k].OpenStream?
    ensures var view := SessionView(events, k);
            && !(view.live && view.closed)
            && (forall i | 0 <= i < |view.frames| - 1 :: !IsLast(view.frames[i]))
            && (|view.frames| > 0 && IsLast(view.frames[|view.frames| - 1]) ==> !view.live && !view.closed)
            && (view.live || view.closed || events[k].failure.Some? ||
                (|view.frames| > 0 && IsLast(view.frames[|view.frames| - 1])))
  {
    var n := |events| - 1;
    if k < n {
      SessionGrammar(events[..n], k);
    }
  }

  // ---------------------------------------------------------------------------
  // Inbound streamed sessions.
  // ---------------------------------------------------------------------------

  datatype Task = Running | Cancelled | Exited

  function TaskStep(view: Task, id: Id, e: Event): Task {
    if !view.Running? then view
    else if (e.SessionClose? || e.StreamAbort?) && e.id == id then Cancelled
    else if e == TaskExit(id) then Exited
    else view
  }

  function TaskView(events: seq<Event>, k: nat): Task
    requires k < |events| && events[k].StreamRequest?
  {
    var n := |events| - 1;
    if k == n then Running else TaskStep(TaskView(events[..n], k), events[k].id, events[n])
  }

  lemma InboundTaskStep(s: State, n: nat, e: Event, id: Id, k: nat, view: Task)
    requires k != n && !(e.StreamRequest? && e.id == id) && id !in s.upStreams
    requires forall other | other in s.inbound && s.inbound[other] == k :: other == id
    requires view.Running? <==> Routes(s.inbound, id, k)
    ensures Received(NextCancels(s, e), k) ==
            Received(s.cancels, k) + if view.Running? && TaskStep(view, id, e).Cancelled? then [()] else []
    ensures TaskStep(view, id, e).Running? <==> Routes(NextInbound(s, n, e), id, k)
  {
  }

  lemma InboundIsFresh(events: seq<Event>, k: nat)
    requires FreshIds(events) && k < |events| && events[k].StreamRequest?
    ensures var s := Run(events);
            && events[k].id !in s.upStreams
            && forall other | other in s.inbound && s.inbound[other] == k :: other == events[k].id
  {
    EntriesAreOwned(events);
    hide Run;
  }

  lemma FreshPrefix(events: seq<Event>)
    requires FreshIds(events) && |events| > 0
    ensures FreshIds(events[..|events| - 1])
  {
  }

  /** A streamed chat is cancelled exactly once, by the first close or abort of its own session that
      comes before its task exits. */
  lemma {:induction false} CancelsAreSeparate(events: seq<Event>, k: nat)
    requires FreshIds(events) && k < |events| && events[k].StreamRequest? && events[k].action == "chat_completion"
    ensures var s, view := Run(events), TaskView(events, k);
            && Received(s.cancels, k) == (if view.Cancelled? then [()] else [])
            && (view.Running? <==> Routes(s.inbound, events[k].id, k))
  {
    var n := |events| - 1;
    var s, e := Run(events[..n]), events[n];
    RunStep(events);
    hide Run;
    if k == n {
      ChannelsAreOld(events[..n], k);
    } else {
      assert !(e.StreamRequest? && e.id == events[k].id);
      FreshPrefix(events);
      hide FreshIds;
      CancelsAreSeparate(events[..n], k);
      InboundIsFresh(events[..n], k);
      var view := TaskView(events[..n], k);
      hide NextCancels, NextInbound, Received, Routes;
      InboundTaskStep(s, n, e, events[k].id, k, view);
    }
  }

  // ---------------------------------------------------------------------------
  // What goes out on the connection.
  // ---------------------------------------------------------------------------

  /** The answer that the loop owes at once: to a ping, to a delivered event, to a task with a reply. */
  function AnswerTo(e: Event): seq<Envelope> {
    match e
    case Ping(sent, read) => [Pong(sent, read)]
    case Delivery(event) => [Ack(event)]
    case TaskReply(payload) => [Forward(payload)]
    case _ => []
  }

  function Owed(events: seq<Event>): seq<Envelope> {
    if |events| == 0 then [] else
      var n := |events| - 1;
      Owed(events[..n]) + AnswerTo(events[n])
  }

  function Answers(outbox: seq<Envelope>): seq<Envelope> {
    if |outbox| == 0 then [] else
      var n := |outbox| - 1;
      Answers(outbox[..n]) + if outbox[n].Pong? || outbox[n].Ack? || outbox[n].Forward? then [outbox[n]] else []
  }

  /** Every ping is answered, every event acknowledged and every reply of a task sent once, in order,
      whatever else is going on. */
  lemma {:induction false} RepliesAreForwarded(events: seq<Event>)
    ensures Answers(Run(events).outbox) == Owed(events)
  {
    if |events| > 0 {
      var n := |events| - 1;
      RepliesAreForwarded(events[..n]);
      RunStep(events);
      hide Run, Outgoing, Answers, AnswerTo;
      OneForward(Run(events[..n]), events[n]);
    }
  }

  lemma OneForward(s: State, e: Event)
    ensures Answers(s.outbox + Outgoing(s, e)) == Answers(s.outbox) + AnswerTo(e)
  {
    var out := Outgoing(s, e);
    if |out| == 0 {
      assert s.outbox + out == s.outbox;
      assert Answers(s.outbox) + [] == Answers(s.outbox);
    } else {
      assert (s.outbox + out)[..|s.outbox|] == s.outbox;
    }
  }

  // What is asked and refused.

  /** What the kernel is asked for an event: once for each call, and once for each upstream session. */
  function AskedFor(e: Event): seq<Envelope> {
    if e.Call? then [Ask(e.id, e.request, false)] else if e.OpenStream? then [Ask(e.id, e.request, true)] else []
  }

  function AskedForAll(events: seq<Event>): seq<Envelope> {
    if |events| == 0 then [] else
      var n := |events| - 1;
      AskedForAll(events[..n]) + AskedFor(events[n])
  }

  /** What the outbox asks, in order. */
  function Asked(outbox: seq<Envelope>): seq<Envelope> {
    if |outbox| == 0 then [] else
      var n := |outbox| - 1;
      Asked(outbox[..n]) + if outbox[n].Ask? then [outbox[n]] else []
  }

  lemma {:induction false} AskedConcat(a: seq<Envelope>, b: seq<Envelope>)
    ensures Asked(a + b) == Asked(a) + Asked(b)
  {
    if |b| == 0 {
      assert a + b == a && Asked(a) + [] == Asked(a);
    } else {
      AskedConcat(a, b[..|b| - 1]);
      assert (a + b)[..|a + b| - 1] == a + b[..|b| - 1];
    }
  }

  /** In every run the kernel is asked once for each call and each upstream session, with the request of the caller,
      in the order of the events, and for nothing else. */
  lemma {:induction false} CallsAreAsked(events: seq<Event>)
    ensures Asked(Run(events).outbox) == AskedForAll(events)
  {
    if |events| > 0 {
      var n := |events| - 1;
      CallsAreAsked(events[..n]);
      RunStep(events);
      AskedConcat(Run(events[..n]).outbox, Outgoing(Run(events[..n]), events[n]));
      AskedStep(Run(events[..n]), events[n]);
      hide Run, Outgoing, Asked, AskedFor;
    }
  }

  lemma AskedStep(s: State, e: Event)
    ensures Asked(Outgoing(s, e)) == AskedFor(e)
  {
    var out := Outgoing(s, e);
    if |out| == 1 {
      assert out[..0] == [];
    }
  }

  /** Everything that is asked under an id. */
  function AskedUnder(outbox: seq<Envelope>, id: Id): seq<Envelope> {
    if |outbox| == 0 then [] else
      var n := |outbox| - 1;
      AskedUnder(outbox[..n], id) + if outbox[n].Ask? && outbox[n].id == id then [outbox[n]] else []
  }

  lemma AskedUnderMore(outbox: seq<Envelope>, more: seq<Envelope>, id: Id)
    requires |more| <= 1
    ensures AskedUnder(outbox + more, id) ==
            AskedUnder(outbox, id) + if |more| == 1 && more[0].Ask? && more[0].id == id then more else []
  {
    if |more| == 0 {
      assert outbox + more == outbox && AskedUnder(outbox, id) + [] == AskedUnder(outbox, id);
    } else {
      assert (outbox + more)[..|outbox|] == outbox && more == [more[0]];
    }
  }

  lemma OneEnvelope(s: State, e: Event)
    ensures |Outgoing(s, e)| <= 1
    ensures AskedFor(e) == if |Outgoing(s, e)| == 1 && Outgoing(s, e)[0].Ask? then Outgoing(s, e) else []
  {
  }

  /** An id that no call and no session has brought is never asked. */
  lemma {:induction false} NeverAsked(events: seq<Event>, id: Id)
    requires forall k | 0 <= k < |events| :: !IsCall(events, id, k) && !IsOpen(events, id, k)
    ensures AskedUnder(Run(events).outbox, id) == []
  {
    if |events| > 0 {
      var n, s := |events| - 1, Run(events[..|events| - 1]);
      assert !IsCall(events, id, n) && !IsOpen(events, id, n);
      RunStep(events);
      OneEnvelope(s, events[n]);
      AskedUnderMore(s.outbox, Outgoing(s, events[n]), id);
      hide Run, Outgoing, AskedUnder, NextPending, NextStreams, NextInbound, NextResults, NextFrames, NextCancels;
      forall k | 0 <= k < n
        ensures !IsCall(events[..n], id, k) && !IsOpen(events[..n], id, k)
      {
        assert !IsCall(events, id, k) && !IsOpen(events, id, k);
      }
      NeverAsked(events[..n], id);
    }
  }

  /** With fresh ids, each call and each upstream session is asked exactly once. */
  lemma {:induction false} AskedOnce(events: seq<Event>, k: nat)
    requires FreshIds(events) && k < |events| && (events[k].Call? || events[k].OpenStream?)
    ensures AskedUnder(Run(events).outbox, events[k].id) ==
            [Ask(events[k].id, events[k].request, events[k].OpenStream?)]
  {
    var n, id := |events| - 1, events[k].id;
    var s := Run(events[..n]);
    RunStep(events);
    OneEnvelope(s, events[n]);
    AskedUnderMore(s.outbox, Outgoing(s, events[n]), id);
    hide Run, Outgoing, AskedUnder, FreshIds, NextPending, NextStreams, NextInbound, NextResults, NextFrames,
      NextCancels;
    if k == n {
      NotYetBorn(events);
      NeverAsked(events[..n], id);
    } else {
      FreshPrefix(events);
      OtherBirth(events, k);
      AskedOnce(events[..n], k);
    }
  }

  lemma OtherBirth(events: seq<Event>, k: nat)
    requires FreshIds(events) && k < |events| - 1 && IsBirth(events[k])
    ensures var e := events[|events| - 1]; IsBirth(e) ==> e.id != events[k].id
  {
  }

  lemma NotYetBorn(events: seq<Event>)
    requires FreshIds(events) && |events| > 0 && IsBirth(events[|events| - 1])
    ensures var n, id := |events| - 1, events[|events| - 1].id;
            forall k | 0 <= k < n :: !IsCall(events[..n], id, k) && !IsOpen(events[..n], id, k)
  {
  }

  /** The streamed requests that are refused, with the action that cannot be streamed. */
  function RefusedFor(events: seq<Event>): seq<Envelope> {
    if |events| == 0 then [] else
      var n, e := |events| - 1, events[|events| - 1];
      RefusedFor(events[..n]) +
      if e.StreamRequest? && e.action != "chat_completion"
      then [Refuse(e.id, e.action + " does not support streaming")] else []
  }

  function Refused(outbox: seq<Envelope>): seq<Envelope> {
    if |outbox| == 0 then [] else
      var n := |outbox| - 1;
      Refused(outbox[..n]) + if outbox[n].Refuse? then [outbox[n]] else []
  }

  /** Every streamed request of another action than a chat is refused once, in order, and nothing else is. */
  lemma {:induction false} OthersAreRefused(events: seq<Event>)
    ensures Refused(Run(events).outbox) == RefusedFor(events)
  {
    if |events| > 0 {
      var n := |events| - 1;
      OthersAreRefused(events[..n]);
      RunStep(events);
      RefusedStep(Run(events[..n]), events[n]);
      hide Run, Outgoing, Refused;
    }
  }

  lemma RefusedStep(s: State, e: Event)
    ensures Refused(s.outbox + Outgoing(s, e)) == Refused(s.outbox) + Refused(Outgoing(s, e))
    ensures Refused(Outgoing(s, e)) ==
            if e.StreamRequest? && e.action != "chat_completion"
            then [Refuse(e.id, e.action + " does not support streaming")] else []
  {
    var out := Outgoing(s, e);
    if |out| == 0 {
      assert s.outbox + out == s.outbox && Refused(s.outbox) + [] == Refused(s.outbox);
    } else {
      assert (s.outbox + out)[..|s.outbox|] == s.outbox && out[..0] == [];
    }
  }

  /** An upstream session is closed towards the kernel at most once, exactly when its handler asks for
      it while it lives. */
  lemma {:induction false} ClosedAtMostOnce(events: seq<Event>, k: nat)
    requires FreshIds(events) && k < |events| && events[k].OpenStream?
    ensures multiset(Run(events).outbox)[Close(events[k].id)] == if SessionView(events, k).closed then 1 else 0
    ensures !(SessionView(events, k).live && SessionView(events, k).closed)
  {
    var n := |events| - 1;
    RunStep(events);
    var s, id := Run(events[..n]), events[k].id;
    hide Run, Outgoing;
    CloseCount(s, events[n], id);
    if k == n {
      NotOpenedBefore(events);
      NoEarlyClose(events[..n], id);
    } else {
      FreshPrefix(events);
      SessionsAreSeparate(events[..n], k);
      hide FreshIds, SessionStep;
      ClosedAtMostOnce(events[..n], k);
      ClosedStep(SessionView(events[..n], k), id, events[n]);
    }
  }

  predicate Unopened(events: seq<Event>, id: Id) {
    forall k | 0 <= k < |events| :: !IsOpen(events, id, k)
  }

  lemma NotOpenedBefore(events: seq<Event>)
    requires FreshIds(events) && |events| > 0 && events[|events| - 1].OpenStream?
    ensures Unopened(events[..|events| - 1], events[|events| - 1].id)
  {
  }

  lemma ClosedStep(view: Session, id: Id, e: Event)
    ensures SessionStep(view, id, e).closed <==> view.closed || (view.live && e == CloseStream(id))
    ensures SessionStep(view, id, e).live ==> view.live && e != CloseStream(id)
  {
  }

  lemma CloseCount(s: State, e: Event, id: Id)
    ensures multiset(s.outbox + Outgoing(s, e))[Close(id)] ==
            multiset(s.outbox)[Close(id)] + if e == CloseStream(id) && id in s.upStreams then 1 else 0
  {
    var out := Outgoing(s, e);
    assert multiset(s.outbox + out) == multiset(s.outbox) + multiset(out);
  }

  lemma {:induction false} NoEarlyClose(events: seq<Event>, id: Id)
    requires Unopened(events, id)
    ensures multiset(Run(events).outbox)[Close(id)] == 0
  {
    if |events| > 0 {
      var n := |events| - 1;
      RunStep(events);
      StreamsAreOwned(events[..n]);
      hide Run;
      CloseCount(Run(events[..n]), events[n], id);
      forall k | 0 <= k < n
        ensures !IsOpen(events[..n], id, k)
      {
        assert !IsOpen(events, id, k);
      }
      NoEarlyClose(events[..n], id);
    }
  }
}
