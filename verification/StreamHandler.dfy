/** The handler of one streamed `chat_completion`: the frames it sends on its session for every
    upstream event sequence and every moment at which it notices a cancel. The provider's own stream
    parser is a parameter. */
module StreamHandler {
  import opened Sse
  import opened Text

  const MAX_STREAM_ERROR_BODY: nat := 64 * 1024

  /** An event of the upstream session; `Gone` stands for a closed event channel. An acceptance carries
      the HTTP status read from its head, 0 when there is none. */
  datatype Upstream = Accepted(status: nat) | Chunk(bytes: Bytes) | Done | Failed(error: string) | Gone

  /** A frame of the served session. */
  datatype Frame =
    | Head(model: string)
    | Delta(number: nat, text: string)
    | Last(number: nat, result: string)
    | Close
    | Error(error: string)

  datatype End = Waiting | Finished | Cancelled | Broken(error: string)

  /** A provider's incremental parser: its state is `P`, and one payload gives texts or an error. */
  datatype Parser<!P> = Parser(start: P, feed: (P, Bytes) -> Result<(P, seq<string>)>, finish: P -> Result<string>)

  /** How a run ended, the frames it sent, whether it closed the upstream session, and how many
      upstream events it took. */
  datatype Log = Log(frames: seq<Frame>, end: End, closed: bool, taken: nat)

  function ParseAll<P>(parser: Parser<P>, p: P, payloads: seq<Bytes>): Result<(P, seq<string>)>
    decreases |payloads|
  {
    if |payloads| == 0 then Ok((p, [])) else
      match parser.feed(p, payloads[0])
      case Err(e) => Err(e)
      case Ok((q, texts)) =>
        match ParseAll(parser, q, payloads[1..])
        case Err(e) => Err(e)
        case Ok((r, more)) => Ok((r, texts + more))
  }

  /** Delta frames numbered from `n`. */
  function Deltas(n: nat, texts: seq<string>): seq<Frame> {
    seq(|texts|, i requires 0 <= i < |texts| => Delta(n + i, texts[i]))
  }

  /** One chunk: the parser after it, the bytes left, and its texts. */
  function TakeChunk<P>(parser: Parser<P>, p: P, buf: Bytes, bytes: Bytes): Result<(P, Bytes, seq<string>)> {
    var (payloads, rest) := Decode(buf + bytes);
    if |rest| > MAX_PENDING_BYTES then Err(TOO_LONG) else
      match ParseAll(parser, p, payloads)
      case Err(e) => Err(e)
      case Ok((q, texts)) => Ok((q, rest, texts))
  }

  function Before(cancel: Option<nat>): Option<nat> {
    match cancel
    case None => None
    case Some(n) => Some(if n > 0 then n - 1 else 0)
  }

  /** What one upstream event does to the relay: it ends, or it goes on after some frames. */
  datatype Turn<P> =
    | Stop(frames: seq<Frame>, end: End, closed: bool)
    | Go(frames: seq<Frame>, p: P, buf: Bytes, number: nat)

  function TakeEvent<P>(parser: Parser<P>, p: P, buf: Bytes, number: nat, event: Upstream): Turn<P> {
    match event
    case Chunk(bytes) =>
      (match TakeChunk(parser, p, buf, bytes)
       case Err(e) => Stop([], Broken(e), true)
       case Ok((q, rest, texts)) => Go(Deltas(number, texts), q, rest, number + |texts|))
    case Done =>
      (match parser.finish(p)
       case Err(e) => Stop([], Broken(e), false)
       case Ok(result) => Stop([Last(number, result), Close], Finished, false))
    case Failed(e) => Stop([], Broken("network plugin error: " + e), false)
    case Gone => Stop([], Broken("ai: outbound loop closed"), false)
    case Accepted(_) => Go([], p, buf, number)
  }

  function Then(frames: seq<Frame>, log: Log): Log {
    Log(frames + log.frames, log.end, log.closed, log.taken + 1)
  }

  /** The relay after acceptance; `cancel` is the number of events it takes before it notices the cancel. */
  function Relay<P>(parser: Parser<P>, p: P, buf: Bytes, number: nat, upstream: seq<Upstream>, cancel: Option<nat>): Log
    decreases |upstream|
  {
    if cancel == Some(0) then Log([], Cancelled, true, 0)
    else if |upstream| == 0 then Log([], Waiting, false, 0)
    else
      match TakeEvent(parser, p, buf, number, upstream[0])
      case Stop(frames, end, closed) => Log(frames, end, closed, 1)
      case Go(frames, q, rest, next) => Then(frames, Relay(parser, q, rest, next, upstream[1..], Before(cancel)))
  }

  /** The body of a reply that is not 2xx, read until something else than a chunk comes or it is long. */
  function ErrorBody(status: nat, body: Bytes, upstream: seq<Upstream>): Log
    decreases |upstream|
  {
    if |upstream| == 0 then Log([], Waiting, false, 0)
    else if !upstream[0].Chunk? then Log([], Broken(HttpError(status, body)), false, 1)
    else
      var longer := body + upstream[0].bytes;
      if |longer| >= MAX_STREAM_ERROR_BODY then Log([], Broken(HttpError(status, longer)), true, 1)
      else Then([], ErrorBody(status, longer, upstream[1..]))
  }

  function Chars(bytes: Bytes): string {
    seq(|bytes|, i requires 0 <= i < |bytes| => bytes[i] as char)
  }

  function HttpError(status: nat, body: Bytes): string {
    "provider returned HTTP " + Decimal(status) + ": " + Chars(body)
  }

  /** The handler from the moment the upstream session is open. */
  function Serve<P>(parser: Parser<P>, model: string, upstream: seq<Upstream>, cancel: Option<nat>): Log {
    if |upstream| == 0 then Log([], Waiting, false, 0)
    else
      match upstream[0]
      case Accepted(status) =>
        if 200 <= status < 300
        then Then([Head(model)], Relay(parser, parser.start, [], 0, upstream[1..], cancel))
        else Then([], ErrorBody(status, [], upstream[1..]))
      case Failed(e) => Log([], Broken("network plugin error: " + e), false, 1)
      case Gone => Log([], Broken("ai: outbound loop closed"), false, 1)
      case _ => Log([], Broken("unexpected upstream frame before acceptance"), false, 1)
  }

  /** The handler: what it sends on the session, given what became of its preparation and of opening the
      upstream session (`None` is success). An error of any stage is one error frame, the last. */
  function Session<P>(prepared: Option<string>, opening: Option<string>, parser: Parser<P>, model: string,
                      upstream: seq<Upstream>, cancel: Option<nat>): Log
  {
    if prepared.Some? then Report(Log([], Broken(prepared.value), false, 0))
    else if opening.Some? then Report(Log([], Broken("network plugin call failed: " + opening.value), false, 0))
    else Report(Serve(parser, model, upstream, cancel))
  }

  function Report(log: Log): Log {
    if log.end.Broken? then log.(frames := log.frames + [Error(log.end.error)]) else log
  }

  // ---------------------------------------------------------------------------
  // The loops.
  // ---------------------------------------------------------------------------

  method ReadErrorBody(status: nat, upstream: seq<Upstream>) returns (log: Log)
    ensures log == ErrorBody(status, [], upstream)
  {
    var body: Bytes := [];
    var i := 0;
    assert upstream[0..] == upstream;
    while i < |upstream| && upstream[i].Chunk?
      invariant i <= |upstream|
      invariant ErrorBody(status, [], upstream) == Ahead([], i, ErrorBody(status, body, upstream[i..]))
    {
      assert upstream[i..][1..] == upstream[i + 1..];
      body := body + upstream[i].bytes;
      i := i + 1;
      if |body| >= MAX_STREAM_ERROR_BODY {
        return Log([], Broken(HttpError(status, body)), true, i);
      }
    }
    if i == |upstream| {
      return Log([], Waiting, false, i);
    }
    return Log([], Broken(HttpError(status, body)), false, i + 1);
  }

  /** `log` after `frames` and `taken` more events. */
  function Ahead(frames: seq<Frame>, taken: nat, log: Log): Log {
    Log(frames + log.frames, log.end, log.closed, taken + log.taken)
  }

  lemma AheadThen(frames: seq<Frame>, taken: nat, more: seq<Frame>, log: Log)
    ensures Ahead(frames, taken, Then(more, log)) == Ahead(frames + more, taken + 1, log)
  {
    assert frames + (more + log.frames) == (frames + more) + log.frames;
  }

  /** The parser over the payloads of one chunk. */
  method FeedParser<P>(parser: Parser<P>, p: P, payloads: seq<Bytes>) returns (step: Result<(P, seq<string>)>)
    ensures step == ParseAll(parser, p, payloads)
  {
    var q, texts := p, [];
    assert payloads[0..] == payloads;
    ContinueNothing(ParseAll(parser, p, payloads));
    for i := 0 to |payloads|
      invariant ParseAll(parser, p, payloads) == Continue(texts, ParseAll(parser, q, payloads[i..]))
    {
      assert payloads[i..][1..] == payloads[i + 1..];
      match parser.feed(q, payloads[i]) {
        case Err(e) => return Err(e);
        case Ok((r, more)) =>
          ContinueTwice(texts, more, ParseAll(parser, r, payloads[i + 1..]));
          q, texts := r, texts + more;
      }
    }
    assert texts + [] == texts;
    return Ok((q, texts));
  }

  function Continue<P>(texts: seq<string>, step: Result<(P, seq<string>)>): Result<(P, seq<string>)> {
    match step
    case Err(e) => Err(e)
    case Ok((p, more)) => Ok((p, texts + more))
  }

  lemma ContinueNothing<P>(step: Result<(P, seq<string>)>)
    ensures Continue([], step) == step
  {
    assert step.Ok? ==> [] + step.value.1 == step.value.1;
  }

  lemma ContinueTwice<P>(a: seq<string>, b: seq<string>, step: Result<(P, seq<string>)>)
    ensures Continue(a, Continue(b, step)) == Continue(a + b, step)
  {
    if step.Ok? {
      assert a + (b + step.value.1) == (a + b) + step.value.1;
    }
  }

  method SendDeltas(number: nat, texts: seq<string>) returns (frames: seq<Frame>)
    ensures frames == Deltas(number, texts)
  {
    frames := [];
    for i := 0 to |texts|
      invariant frames == Deltas(number, texts[..i])
    {
      frames := frames + [Delta(number + i, texts[i])];
    }
    assert texts[..|texts|] == texts;
  }

  method OnUpstream<P>(sse: SseDecoder, parser: Parser<P>, p: P, number: nat, event: Upstream) returns (turn: Turn<P>)
    modifies sse
    ensures turn == TakeEvent(parser, p, old(sse.buf), number, event)
    ensures turn.Go? ==> sse.buf == turn.buf
  {
    hide Decode, ParseAll, Deltas;
    match event {
      case Chunk(bytes) =>
        var fed := sse.Feed(bytes);
        if fed.Err? {
          return Stop([], Broken(fed.error), true);
        }
        var step := FeedParser(parser, p, fed.value);
        if step.Err? {
          return Stop([], Broken(step.error), true);
        }
        var texts := step.value.1;
        var frames := SendDeltas(number, texts);
        return Go(frames, step.value.0, sse.buf, number + |texts|);
      case Done =>
        var result := parser.finish(p);
        if result.Err? {
          return Stop([], Broken(result.error), false);
        }
        return Stop([Last(number, result.value), Close], Finished, false);
      case Failed(e) => return Stop([], Broken("network plugin error: " + e), false);
      case Gone => return Stop([], Broken("ai: outbound loop closed"), false);
      case Accepted(_) => return Go([], p, sse.buf, number);
    }
  }

  method RelayEvents<P>(parser: Parser<P>, upstream: seq<Upstream>, cancel: Option<nat>) returns (log: Log)
    ensures log == Relay(parser, parser.start, [], 0, upstream, cancel)
  {
    hide TakeEvent;
    var sse := new SseDecoder();
    var p := parser.start;
    var number: nat := 0;
    var frames: seq<Frame> := [];
    var i: nat := 0;
    var left := cancel;
    assert upstream[0..] == upstream;
    AheadNothing(Relay(parser, p, [], number, upstream, left));
    while left != Some(0) && i < |upstream|
      invariant i <= |upstream|
      invariant Relay(parser, parser.start, [], 0, upstream, cancel) ==
                Ahead(frames, i, Relay(parser, p, sse.buf, number, upstream[i..], left))
    {
      assert upstream[i..][1..] == upstream[i + 1..];
      var turn := OnUpstream(sse, parser, p, number, upstream[i]);
      frames, i, left := frames + turn.frames, i + 1, Before(left);
      if turn.Stop? {
        return Log(frames, turn.end, turn.closed, i);
      }
      p, number := turn.p, turn.number;
      AheadThen(frames[..|frames| - |turn.frames|], i - 1, turn.frames,
        Relay(parser, p, sse.buf, number, upstream[i..], left));
      assert frames[..|frames| - |turn.frames|] + turn.frames == frames;
    }
    assert frames + [] == frames;
    return if left == Some(0) then Log(frames, Cancelled, true, i) else Log(frames, Waiting, false, i);
  }

  lemma AheadNothing(log: Log)
    ensures Ahead([], 0, log) == log
  {
    assert [] + log.frames == log.frames;
  }

  /** The whole handler. */
  method HandleStream<P>(prepared: Option<string>, opening: Option<string>, parser: Parser<P>, model: string,
                         upstream: seq<Upstream>, cancel: Option<nat>) returns (log: Log)
    ensures log == Session(prepared, opening, parser, model, upstream, cancel)
  {
    hide Relay, ErrorBody;
    if prepared.Some? {
      log := Log([], Broken(prepared.value), false, 0);
    } else if opening.Some? {
      log := Log([], Broken("network plugin call failed: " + opening.value), false, 0);
    } else if |upstream| == 0 {
      log := Log([], Waiting, false, 0);
    } else if upstream[0].Failed? {
      log := Log([], Broken("network plugin error: " + upstream[0].error), false, 1);
    } else if upstream[0].Gone? {
      log := Log([], Broken("ai: outbound loop closed"), false, 1);
    } else if !upstream[0].Accepted? {
      log := Log([], Broken("unexpected upstream frame before acceptance"), false, 1);
    } else if upstream[0].status < 200 || upstream[0].status >= 300 {
      log := ReadErrorBody(upstream[0].status, upstream[1..]);
      log := Then([], log);
    } else {
      log := RelayEvents(parser, upstream[1..], cancel);
      log := Then([Head(model)], log);
    }
    if log.end.Broken? {
      log := log.(frames := log.frames + [Error(log.end.error)]);
    }
  }

  // ---------------------------------------------------------------------------
  // The grammar of a session.
  // ---------------------------------------------------------------------------

  /** What follows `n` deltas at the end of a relay. */
  function Tail(end: End, n: nat, result: string): seq<Frame> {
    if end.Finished? then [Last(n, result), Close] else []
  }

  lemma DeltasConcat(n: nat, a: seq<string>, b: seq<string>, tail: seq<Frame>)
    ensures Deltas(n, a) + (Deltas(n + |a|, b) + tail) == Deltas(n, a + b) + tail
  {
  }

  lemma {:induction false} RelayGrammar<P>(parser: Parser<P>, p: P, buf: Bytes, number: nat, upstream: seq<Upstream>,
                                          cancel: Option<nat>) returns (texts: seq<string>, result: string)
    ensures var log := Relay(parser, p, buf, number, upstream, cancel);
            log.frames == Deltas(number, texts) + Tail(log.end, number + |texts|, result)
    decreases |upstream|
  {
    hide Relay, TakeEvent, Deltas, TextsOf;
    if |upstream| == 0 || cancel == Some(0) || TakeEvent(parser, p, buf, number, upstream[0]).Stop? {
      texts := [];
      result := RelayStops(parser, p, buf, number, upstream, cancel);
    } else {
      var turn := TakeEvent(parser, p, buf, number, upstream[0]);
      var more: seq<string>;
      more, result := RelayGrammar(parser, turn.p, turn.buf, turn.number, upstream[1..], Before(cancel));
      GoSendsDeltas(parser, p, buf, number, upstream[0]);
      RelayGoes(parser, p, buf, number, upstream, cancel);
      texts := TextsOf(turn.frames) + more;
      var log := Relay(parser, turn.p, turn.buf, turn.number, upstream[1..], Before(cancel));
      DeltasConcat(number, TextsOf(turn.frames), more, Tail(log.end, turn.number + |more|, result));
    }
  }

  lemma RelayStops<P>(parser: Parser<P>, p: P, buf: Bytes, number: nat, upstream: seq<Upstream>, cancel: Option<nat>)
    returns (result: string)
    requires |upstream| == 0 || cancel == Some(0) || TakeEvent(parser, p, buf, number, upstream[0]).Stop?
    ensures var log := Relay(parser, p, buf, number, upstream, cancel);
            log.frames == Deltas(number, []) + Tail(log.end, number, result)
  {
    hide TakeChunk;
    NoDeltas(number);
    result := match parser.finish(p) case Ok(r) => r case Err(_) => "";
  }

  lemma NoDeltas(n: nat)
    ensures Deltas(n, []) == []
  {
  }

  function TextsOf(frames: seq<Frame>): seq<string> {
    if |frames| == 0 then [] else
      (if frames[0].Delta? then [frames[0].text] else []) + TextsOf(frames[1..])
  }

  lemma {:induction false} TextsOfDeltas(n: nat, texts: seq<string>)
    ensures TextsOf(Deltas(n, texts)) == texts
    decreases |texts|
  {
    if |texts| > 0 {
      TextsOfDeltas(n + 1, texts[1..]);
      assert Deltas(n, texts)[1..] == Deltas(n + 1, texts[1..]);
    }
  }

  lemma GoSendsDeltas<P>(parser: Parser<P>, p: P, buf: Bytes, number: nat, event: Upstream)
    requires TakeEvent(parser, p, buf, number, event).Go?
    ensures var turn := TakeEvent(parser, p, buf, number, event);
            && turn.frames == Deltas(number, TextsOf(turn.frames))
            && turn.number == number + |TextsOf(turn.frames)|
  {
    hide TakeChunk, Deltas, TextsOf;
    if event.Chunk? {
      TextsOfDeltas(number, TakeChunk(parser, p, buf, event.bytes).value.2);
    } else {
      NoDeltas(number);
      TextsOfDeltas(number, []);
    }
  }

  lemma RelayGoes<P>(parser: Parser<P>, p: P, buf: Bytes, number: nat, upstream: seq<Upstream>, cancel: Option<nat>)
    requires |upstream| > 0 && cancel != Some(0) && TakeEvent(parser, p, buf, number, upstream[0]).Go?
    ensures var turn := TakeEvent(parser, p, buf, number, upstream[0]);
            Relay(parser, p, buf, number, upstream, cancel) ==
            Then(turn.frames, Relay(parser, turn.p, turn.buf, turn.number, upstream[1..], Before(cancel)))
  {
    hide TakeEvent;
  }

  /** Every session is one error; or the acceptance and deltas numbered from 0, and then nothing yet
      (still waiting), nothing more (cancelled), one error, or the numbered result and the close. */
  lemma FrameGrammar<P>(prepared: Option<string>, opening: Option<string>, parser: Parser<P>, model: string,
                        upstream: seq<Upstream>, cancel: Option<nat>) returns (texts: seq<string>, result: string)
    ensures var log := Session(prepared, opening, parser, model, upstream, cancel);
            var errors := if log.end.Broken? then [Error(log.end.error)] else [];
            || log.frames == errors
            || log.frames == [Head(model)] + Deltas(0, texts) + Tail(log.end, |texts|, result) + errors
  {
    hide Relay, Deltas, HttpError;
    texts, result := [], "";
    if |upstream| > 0 && upstream[0].Accepted? {
      if 200 <= upstream[0].status < 300 {
        texts, result := RelayGrammar(parser, parser.start, [], 0, upstream[1..], cancel);
        SameFrames(model, texts, Relay(parser, parser.start, [], 0, upstream[1..], cancel), result);
      } else {
        ErrorBodySendsNothing(upstream[0].status, [], upstream[1..]);
      }
    }
  }

  lemma SameFrames(model: string, texts: seq<string>, log: Log, result: string)
    requires log.frames == Deltas(0, texts) + Tail(log.end, |texts|, result)
    ensures Then([Head(model)], log).frames == [Head(model)] + Deltas(0, texts) + Tail(log.end, |texts|, result)
  {
    hide Deltas, Tail;
  }

  lemma {:induction false} ErrorBodySendsNothing(status: nat, body: Bytes, upstream: seq<Upstream>)
    ensures ErrorBody(status, body, upstream).frames == []
    ensures ErrorBody(status, body, upstream).end.Waiting? || ErrorBody(status, body, upstream).end.Broken?
    decreases |upstream|
  {
    if |upstream| > 0 && upstream[0].Chunk? {
      ErrorBodySendsNothing(status, body + upstream[0].bytes, upstream[1..]);
    }
  }

  // ---------------------------------------------------------------------------
  // Cancelling.
  // ---------------------------------------------------------------------------

  /** A cancelled relay sends what the events before the cancel give and nothing after: the run is that
      of the events taken, and it closes the upstream session. */
  lemma {:induction false} CancelCuts<P>(parser: Parser<P>, p: P, buf: Bytes, number: nat, upstream: seq<Upstream>,
                                        cancel: nat)
    ensures var log := Relay(parser, p, buf, number, upstream, Some(cancel));
            if log.end.Cancelled? then
              && cancel <= |upstream|
              && log == Relay(parser, p, buf, number, upstream[..cancel], None).(end := Cancelled, closed := true)
              && Relay(parser, p, buf, number, upstream[..cancel], None).end.Waiting?
            else log == Relay(parser, p, buf, number, upstream, None)
    decreases |upstream|
  {
    if |upstream| > 0 && cancel > 0 {
      hide TakeEvent, Relay;
      var turn := TakeEvent(parser, p, buf, number, upstream[0]);
      if turn.Go? {
        CancelCuts(parser, turn.p, turn.buf, turn.number, upstream[1..], cancel - 1);
        RelayGoes(parser, p, buf, number, upstream, Some(cancel));
        RelayGoes(parser, p, buf, number, upstream, None);
        if cancel <= |upstream| {
          assert upstream[..cancel][1..] == upstream[1..][..cancel - 1];
          RelayGoes(parser, p, buf, number, upstream[..cancel], None);
        }
      } else {
        RelayStopped(parser, p, buf, number, upstream, Some(cancel));
        RelayStopped(parser, p, buf, number, upstream, None);
        NeverCancels(parser, p, buf, number, upstream[0]);
      }
    }
  }

  lemma RelayStopped<P>(parser: Parser<P>, p: P, buf: Bytes, number: nat, upstream: seq<Upstream>, cancel: Option<nat>)
    requires |upstream| > 0 && cancel != Some(0) && TakeEvent(parser, p, buf, number, upstream[0]).Stop?
    ensures var turn := TakeEvent(parser, p, buf, number, upstream[0]);
            Relay(parser, p, buf, number, upstream, cancel) == Log(turn.frames, turn.end, turn.closed, 1)
  {
    hide TakeEvent;
  }

  lemma NeverCancels<P>(parser: Parser<P>, p: P, buf: Bytes, number: nat, event: Upstream)
    ensures var turn := TakeEvent(parser, p, buf, number, event);
            turn.Stop? ==> turn.end.Finished? || turn.end.Broken?
  {
    hide TakeChunk;
  }

  // ---------------------------------------------------------------------------
  // The deltas of a run without errors.
  // ---------------------------------------------------------------------------

  predicate IsEnd(event: Upstream) {
    event.Done? || event.Failed? || event.Gone?
  }

  /** The upstream body: the chunks in order, up to the end of the session. */
  function BodyOf(upstream: seq<Upstream>): Bytes {
    if |upstream| == 0 || IsEnd(upstream[0]) then [] else
      (if upstream[0].Chunk? then upstream[0].bytes else []) + BodyOf(upstream[1..])
  }

  lemma {:induction false} ParseAllConcat<P>(parser: Parser<P>, p: P, a: seq<Bytes>, b: seq<Bytes>)
    ensures ParseAll(parser, p, a + b) ==
            var first := ParseAll(parser, p, a);
            if first.Err? then Err(first.error)
            else Continue(first.value.1, ParseAll(parser, first.value.0, b))
    decreases |a|
  {
    if |a| == 0 {
      assert a + b == b;
      ContinueNothing(ParseAll(parser, p, b));
    } else {
      assert (a + b)[1..] == a[1..] + b;
      match parser.feed(p, a[0]) {
        case Err(_) =>
        case Ok((q, texts)) =>
          ParseAllConcat(parser, q, a[1..], b);
          var first := ParseAll(parser, q, a[1..]);
          if first.Ok? {
            ContinueTwice(texts, first.value.1, ParseAll(parser, first.value.0, b));
          }
      }
    }
  }

  function ResultOf<P>(parser: Parser<P>, p: P): string {
    match parser.finish(p)
    case Ok(result) => result
    case Err(_) => ""
  }

  /** A relay that meets no error sends the parse of the whole body it took, however that was chunked. */
  predicate Faithful<P>(log: Log, parser: Parser<P>, p: P, number: nat, body: Bytes) {
    var step := ParseAll(parser, p, Decode(body).0);
    && step.Ok?
    && (log.end.Finished? ==> parser.finish(step.value.0).Ok?)
    && log.frames == Deltas(number, step.value.1) +
                     Tail(log.end, number + |step.value.1|, ResultOf(parser, step.value.0))
  }

  lemma {:induction false} RelayIsFaithful<P>(parser: Parser<P>, p: P, buf: Bytes, number: nat, upstream: seq<Upstream>,
                                             cancel: Option<nat>)
    requires Find(buf) == None
    ensures var log := Relay(parser, p, buf, number, upstream, cancel);
            log.taken <= |upstream| &&
            (log.end.Broken? || Faithful(log, parser, p, number, buf + BodyOf(upstream[..log.taken])))
    decreases |upstream|
  {
    hide Relay, TakeEvent, Faithful, Find, Decode;
    if |upstream| == 0 || cancel == Some(0) || TakeEvent(parser, p, buf, number, upstream[0]).Stop? {
      QuietRelay(parser, p, buf, number, upstream, cancel);
    } else {
      var turn := TakeEvent(parser, p, buf, number, upstream[0]);
      GoDecodes(parser, p, buf, number, upstream[0]);
      RelayGoes(parser, p, buf, number, upstream, cancel);
      RelayIsFaithful(parser, turn.p, turn.buf, turn.number, upstream[1..], Before(cancel));
      var log := Relay(parser, turn.p, turn.buf, turn.number, upstream[1..], Before(cancel));
      assert upstream[..log.taken + 1][1..] == upstream[1..][..log.taken];
      if !log.end.Broken? {
        GoesFaithfully(parser, p, buf, number, upstream[0], BodyOf(upstream[1..][..log.taken]), log);
      }
    }
  }

  lemma QuietRelay<P>(parser: Parser<P>, p: P, buf: Bytes, number: nat, upstream: seq<Upstream>, cancel: Option<nat>)
    requires Find(buf) == None
    requires |upstream| == 0 || cancel == Some(0) || TakeEvent(parser, p, buf, number, upstream[0]).Stop?
    ensures var log := Relay(parser, p, buf, number, upstream, cancel);
            log.taken <= |upstream| &&
            (log.end.Broken? || Faithful(log, parser, p, number, buf + BodyOf(upstream[..log.taken])))
  {
    hide Decode, TakeChunk, Find;
    var log := Relay(parser, p, buf, number, upstream, cancel);
    if !log.end.Broken? {
      assert BodyOf(upstream[..log.taken]) == [];
      assert buf + [] == buf;
      DecodeRest(buf);
      NoDeltas(number);
    }
  }

  /** What a turn that goes on has decoded. */
  lemma GoDecodes<P>(parser: Parser<P>, p: P, buf: Bytes, number: nat, event: Upstream)
    requires Find(buf) == None && TakeEvent(parser, p, buf, number, event).Go?
    ensures var turn := TakeEvent(parser, p, buf, number, event);
            var fed := buf + (if event.Chunk? then event.bytes else []);
            var step := ParseAll(parser, p, Decode(fed).0);
            && !IsEnd(event)
            && Find(turn.buf) == None
            && turn.buf == Decode(fed).1
            && step.Ok? && step.value.0 == turn.p
            && turn.frames == Deltas(number, step.value.1)
            && turn.number == number + |step.value.1|
  {
    hide Find, Decode;
    if event.Chunk? {
      LeftoverIsQuiet(buf + event.bytes);
    } else {
      assert buf + [] == buf;
      DecodeRest(buf);
      NoDeltas(number);
    }
  }

  lemma GoesFaithfully<P>(parser: Parser<P>, p: P, buf: Bytes, number: nat, event: Upstream, more: Bytes, log: Log)
    requires Find(buf) == None && TakeEvent(parser, p, buf, number, event).Go?
    requires var turn := TakeEvent(parser, p, buf, number, event);
             Faithful(log, parser, turn.p, turn.number, turn.buf + more)
    ensures var turn := TakeEvent(parser, p, buf, number, event);
            Faithful(Then(turn.frames, log), parser, p, number,
                     buf + ((if event.Chunk? then event.bytes else []) + more))
  {
    hide Find, Decode, TakeEvent, Deltas, Tail, ParseAll;
    var turn := TakeEvent(parser, p, buf, number, event);
    GoDecodes(parser, p, buf, number, event);
    var now := if event.Chunk? then event.bytes else [];
    var fed := buf + now;
    assert buf + (now + more) == fed + more;
    DecodeConcat(fed, more);
    var first, later := Decode(fed).0, Decode(turn.buf + more).0;
    ParseAllConcat(parser, p, first, later);
    var a := ParseAll(parser, p, first).value.1;
    var (q, b) := ParseAll(parser, turn.p, later).value;
    DeltasConcat(number, a, b, Tail(log.end, number + |a| + |b|, ResultOf(parser, q)));
  }

  lemma {:induction false} FinishedTakesBody<P>(parser: Parser<P>, p: P, buf: Bytes, number: nat,
                                                upstream: seq<Upstream>, cancel: Option<nat>)
    requires Relay(parser, p, buf, number, upstream, cancel).end.Finished?
    ensures var taken := Relay(parser, p, buf, number, upstream, cancel).taken;
            taken <= |upstream| && BodyOf(upstream[..taken]) == BodyOf(upstream)
    decreases |upstream|
  {
    hide Relay, TakeEvent;
    if |upstream| == 0 || cancel == Some(0) || TakeEvent(parser, p, buf, number, upstream[0]).Stop? {
      FinishedAtDone(parser, p, buf, number, upstream, cancel);
    } else {
      var turn := TakeEvent(parser, p, buf, number, upstream[0]);
      RelayGoes(parser, p, buf, number, upstream, cancel);
      FinishedTakesBody(parser, turn.p, turn.buf, turn.number, upstream[1..], Before(cancel));
      var taken := Relay(parser, turn.p, turn.buf, turn.number, upstream[1..], Before(cancel)).taken;
      assert upstream[..taken + 1][1..] == upstream[1..][..taken];
    }
  }

  lemma FinishedAtDone<P>(parser: Parser<P>, p: P, buf: Bytes, number: nat, upstream: seq<Upstream>,
                          cancel: Option<nat>)
    requires |upstream| == 0 || cancel == Some(0) || TakeEvent(parser, p, buf, number, upstream[0]).Stop?
    requires Relay(parser, p, buf, number, upstream, cancel).end.Finished?
    ensures |upstream| > 0 && upstream[0].Done? && Relay(parser, p, buf, number, upstream, cancel).taken == 1
  {
    hide TakeChunk;
  }

  /** A finished session sends the parse of the whole upstream body. */
  lemma FinishedIsParsed<P>(parser: Parser<P>, model: string, upstream: seq<Upstream>, cancel: Option<nat>)
    requires Session(None, None, parser, model, upstream, cancel).end.Finished?
    ensures var step := ParseAll(parser, parser.start, Decode(BodyOf(upstream)).0);
            && step.Ok?
            && parser.finish(step.value.0).Ok?
            && Session(None, None, parser, model, upstream, cancel).frames ==
               [Head(model)] + Deltas(0, step.value.1) +
               [Last(|step.value.1|, parser.finish(step.value.0).value), Close]
  {
    hide Relay, Decode, ParseAll, Deltas, HttpError, Find;
    var relayed := upstream[1..];
    ErrorBodySendsNothing(upstream[0].status, [], relayed);
    FinishedTakesBody(parser, parser.start, [], 0, relayed, cancel);
    assert Find([]) == None by {
      FindNothing();
    }
    RelayIsFaithful(parser, parser.start, [], 0, relayed, cancel);
    assert [] + BodyOf(relayed) == BodyOf(relayed) == BodyOf(upstream);
    var (q, texts) := ParseAll(parser, parser.start, Decode(BodyOf(upstream)).0).value;
    SameFrames(model, texts, Relay(parser, parser.start, [], 0, relayed, cancel), ResultOf(parser, q));
  }

  /** The text ends in these bytes, and before them the only number is the status. */
  predicate SaysHttp(error: string, status: nat, body: Bytes) {
    var n := |error| - |body|;
    && n >= 0 && Numbers(error[..n]) == [status]
    && forall i | 0 <= i < |body| :: error[n + i] as int == body[i] as int
  }

  lemma HttpErrorSays(status: nat, body: Bytes)
    ensures SaysHttp(HttpError(status, body), status, body)
  {
    hide Decimal, Numbers;
    var head := "provider returned HTTP " + Decimal(status) + ": ";
    assert HttpError(status, body)[..|head|] == head;
    assert head == "provider returned HTTP " + (Decimal(status) + ": ");
    NumbersAfter("provider returned HTTP ", Decimal(status) + ": ");
    NumberFirst(status, ": ");
    NumbersAfter(": ", "");
    NoNumbers();
    assert ": " + "" == ": ";
  }

  /** The error of a reply that is not 2xx carries its body: the chunks taken, which only the last one may
      bring to the limit. */
  lemma {:induction false} ErrorCarriesBody(status: nat, body: Bytes, upstream: seq<Upstream>)
    requires |body| < MAX_STREAM_ERROR_BODY
    ensures var log := ErrorBody(status, body, upstream);
            && log.taken <= |upstream|
            && (log.end.Broken? ==>
                  && log.taken > 0
                  && SaysHttp(log.end.error, status, body + BodyOf(upstream[..log.taken]))
                  && |body + BodyOf(upstream[..log.taken - 1])| < MAX_STREAM_ERROR_BODY)
            && (log.closed <==> |body + BodyOf(upstream[..log.taken])| >= MAX_STREAM_ERROR_BODY)
    decreases |upstream|
  {
    hide HttpError, SaysHttp;
    if |upstream| == 0 {
      assert body + BodyOf([]) == body;
      assert upstream[..0] == [];
    } else if !upstream[0].Chunk? {
      OneTaken(body, upstream);
      HttpErrorSays(status, body);
    } else if |body + upstream[0].bytes| >= MAX_STREAM_ERROR_BODY {
      OneTaken(body, upstream);
      HttpErrorSays(status, body + upstream[0].bytes);
    } else {
      var longer := body + upstream[0].bytes;
      ErrorCarriesBody(status, longer, upstream[1..]);
      ErrorBodyGoes(status, body, upstream);
      var taken := ErrorBody(status, longer, upstream[1..]).taken;
      hide ErrorBody;
      BodyGrows(body, upstream, taken);
      if taken > 0 {
        BodyGrows(body, upstream, taken - 1);
      }
    }
  }

  lemma OneTaken(body: Bytes, upstream: seq<Upstream>)
    requires |upstream| > 0
    ensures body + BodyOf(upstream[..1]) == if upstream[0].Chunk? then body + upstream[0].bytes else body
    ensures body + BodyOf(upstream[..0]) == body
  {
    assert upstream[..1][1..] == [] && upstream[..0] == [];
    assert BodyOf([]) == [];
  }

  lemma BodyGrows(body: Bytes, upstream: seq<Upstream>, taken: nat)
    requires |upstream| > taken && upstream[0].Chunk?
    ensures body + BodyOf(upstream[..taken + 1]) == (body + upstream[0].bytes) + BodyOf(upstream[1..][..taken])
  {
    assert upstream[..taken + 1][1..] == upstream[1..][..taken];
  }

  // ---------------------------------------------------------------------------
  // Whether the provider is told to stop.
  // ---------------------------------------------------------------------------

  /** The upstream session has ended by itself, or this task has closed it. */
  predicate Released(log: Log, upstream: seq<Upstream>)
    requires log.taken <= |upstream|
  {
    log.closed || exists i :: 0 <= i < log.taken && IsEnd(upstream[i])
  }

  lemma {:induction false} RelayReleases<P>(parser: Parser<P>, p: P, buf: Bytes, number: nat, upstream: seq<Upstream>,
                                            cancel: Option<nat>)
    ensures var log := Relay(parser, p, buf, number, upstream, cancel);
            log.taken <= |upstream| && (log.end.Waiting? || Released(log, upstream))
    decreases |upstream|
  {
    hide Relay, TakeEvent, Released;
    if |upstream| == 0 || cancel == Some(0) || TakeEvent(parser, p, buf, number, upstream[0]).Stop? {
      StopReleases(parser, p, buf, number, upstream, cancel);
    } else {
      var turn := TakeEvent(parser, p, buf, number, upstream[0]);
      RelayGoes(parser, p, buf, number, upstream, cancel);
      RelayReleases(parser, turn.p, turn.buf, turn.number, upstream[1..], Before(cancel));
      ReleasedLater(turn.frames, Relay(parser, turn.p, turn.buf, turn.number, upstream[1..], Before(cancel)), upstream);
    }
  }

  lemma StopReleases<P>(parser: Parser<P>, p: P, buf: Bytes, number: nat, upstream: seq<Upstream>, cancel: Option<nat>)
    requires |upstream| == 0 || cancel == Some(0) || TakeEvent(parser, p, buf, number, upstream[0]).Stop?
    ensures var log := Relay(parser, p, buf, number, upstream, cancel);
            log.taken <= |upstream| && (log.end.Waiting? || Released(log, upstream))
  {
    hide TakeChunk;
    if |upstream| > 0 && IsEnd(upstream[0]) {
      assert 0 <= 0 < 1 && IsEnd(upstream[0]);
    }
  }

  lemma ReleasedLater(frames: seq<Frame>, log: Log, upstream: seq<Upstream>)
    requires |upstream| > 0 && log.taken <= |upstream| - 1
    ensures Released(log, upstream[1..]) ==> Released(Then(frames, log), upstream)
    ensures Released(Then(frames, log), upstream) ==> Released(log, upstream[1..]) || IsEnd(upstream[0])
  {
    if i :| 0 <= i < log.taken && IsEnd(upstream[1..][i]) {
      assert IsEnd(upstream[i + 1]);
    }
    if i :| 0 <= i < log.taken + 1 && IsEnd(upstream[i]) {
      assert i > 0 ==> upstream[1..][i - 1] == upstream[i];
    }
  }

  /** The chunks the upstream starts with. */
  function LeadingChunks(upstream: seq<Upstream>): (n: nat)
    ensures n <= |upstream|
  {
    if |upstream| > 0 && upstream[0].Chunk? then 1 + LeadingChunks(upstream[1..]) else 0
  }

  /** After less than 64 KiB of chunks, counting `body`, the upstream is accepted once more. */
  predicate AcceptedAgain(body: Bytes, upstream: seq<Upstream>) {
    var n := LeadingChunks(upstream);
    n < |upstream| && upstream[n].Accepted? && |body + BodyOf(upstream[..n])| < MAX_STREAM_ERROR_BODY
  }

  /** The upstream speaks out of turn: a chunk before acceptance, or a second acceptance while the body of
      an error is read. */
  predicate SpeaksOutOfTurn(upstream: seq<Upstream>) {
    |upstream| > 0 &&
    match upstream[0]
    case Chunk(_) => true
    case Accepted(status) => !(200 <= status < 300) && AcceptedAgain([], upstream[1..])
    case _ => false
  }

  lemma AcceptedLater(body: Bytes, upstream: seq<Upstream>)
    requires |upstream| > 0 && upstream[0].Chunk?
    ensures AcceptedAgain(body, upstream) <==> AcceptedAgain(body + upstream[0].bytes, upstream[1..])
  {
    var n := LeadingChunks(upstream[1..]);
    if n < |upstream| - 1 {
      BodyGrows(body, upstream, n);
    }
  }

  lemma {:induction false} ErrorBodyReleases(status: nat, body: Bytes, upstream: seq<Upstream>)
    requires |body| < MAX_STREAM_ERROR_BODY
    ensures var log := ErrorBody(status, body, upstream);
            && log.taken <= |upstream|
            && (log.end.Broken? ==> (Released(log, upstream) <==> !AcceptedAgain(body, upstream)))
            && (AcceptedAgain(body, upstream) ==> log.end.Broken?)
    decreases |upstream|
  {
    if |upstream| > 0 && upstream[0].Chunk? {
      var longer := body + upstream[0].bytes;
      AcceptedLater(body, upstream);
      if |longer| < MAX_STREAM_ERROR_BODY {
        ErrorBodyReleases(status, longer, upstream[1..]);
        hide ErrorBody, Released, AcceptedAgain;
        ErrorBodyGoes(status, body, upstream);
        ReleasedLater([], ErrorBody(status, longer, upstream[1..]), upstream);
      }
    } else if |upstream| > 0 {
      assert body + BodyOf(upstream[..0]) == body;
      if IsEnd(upstream[0]) {
        assert 0 <= 0 < 1 && IsEnd(upstream[0]);
      }
    }
  }

  lemma ErrorBodyGoes(status: nat, body: Bytes, upstream: seq<Upstream>)
    requires |upstream| > 0 && upstream[0].Chunk? && |body + upstream[0].bytes| < MAX_STREAM_ERROR_BODY
    ensures ErrorBody(status, body, upstream) == Then([], ErrorBody(status, body + upstream[0].bytes, upstream[1..]))
  {
  }

  /** A session that is over has closed its upstream or seen its end, exactly unless the upstream spoke out
      of turn; and then it is over. */
  lemma UpstreamIsReleased<P>(parser: Parser<P>, model: string, upstream: seq<Upstream>, cancel: Option<nat>)
    ensures var log := Session(None, None, parser, model, upstream, cancel);
            && log.taken <= |upstream|
            && (!log.end.Waiting? ==> (Released(log, upstream) <==> !SpeaksOutOfTurn(upstream)))
            && (SpeaksOutOfTurn(upstream) ==> log.end.Broken?)
  {
    hide Relay, ErrorBody, Released, HttpError, AcceptedAgain;
    if |upstream| > 0 {
      var rest := upstream[1..];
      if upstream[0].Accepted? {
        var status := upstream[0].status;
        if 200 <= status < 300 {
          var log := Relay(parser, parser.start, [], 0, rest, cancel);
          RelayReleases(parser, parser.start, [], 0, rest, cancel);
          ReleasedLater([Head(model)], log, upstream);
          SameRelease(Then([Head(model)], log), upstream);
        } else {
          var log := ErrorBody(status, [], rest);
          ErrorBodyReleases(status, [], rest);
          ErrorBodySendsNothing(status, [], rest);
          ReleasedLater([], log, upstream);
          SameRelease(Then([], log), upstream);
        }
      } else {
        FirstReleases(upstream, Session(None, None, parser, model, upstream, cancel));
      }
    }
  }

  /** Both ways to leave the upstream session open, with any bytes in them. */
  lemma UpstreamIsLeftOpen<P>(parser: Parser<P>, model: string, status: nat, bytes: Bytes)
    requires !(200 <= status < 300) && |bytes| < MAX_STREAM_ERROR_BODY
    ensures var early := [Chunk(bytes)];
            var log := Session(None, None, parser, model, early, None);
            log.end.Broken? && log.taken == 1 && !Released(log, early)
    ensures var twice := [Accepted(status), Chunk(bytes), Accepted(200)];
            var log := Session(None, None, parser, model, twice, None);
            log.end.Broken? && log.taken <= 3 && !Released(log, twice)
  {
    hide HttpError;
    var early, twice := [Chunk(bytes)], [Accepted(status), Chunk(bytes), Accepted(200)];
    UpstreamIsReleased(parser, model, early, None);
    UpstreamIsReleased(parser, model, twice, None);
    var body := twice[1..];
    hide Session, Released;
    assert body[1..] == [Accepted(200)] && body[..1] == [Chunk(bytes)] && body[..1][1..] == [];
    assert LeadingChunks(body) == 1 && BodyOf(body[..1]) == bytes + [] == bytes && [] + bytes == bytes;
  }

  lemma SameRelease(log: Log, upstream: seq<Upstream>)
    requires log.taken <= |upstream|
    ensures Released(Report(log), upstream) <==> Released(log, upstream)
  {
  }

  lemma FirstReleases(upstream: seq<Upstream>, log: Log)
    requires |upstream| > 0 && log.taken == 1 && !log.closed
    ensures Released(log, upstream) <==> IsEnd(upstream[0])
  {
    if IsEnd(upstream[0]) {
      assert 0 <= 0 < 1 && IsEnd(upstream[0]);
    }
  }

  // ---------------------------------------------------------------------------
  // What an error says.
  // ---------------------------------------------------------------------------

  /** Why the relay broke, when the last event it took says so. */
  predicate SaysWhy(log: Log, upstream: seq<Upstream>)
    requires log.taken <= |upstream|
  {
    log.end.Broken? ==>
      && log.taken > 0
      && match upstream[log.taken - 1]
         case Failed(e) => log.end.error == "network plugin error: " + e
         case Gone => log.end.error == "ai: outbound loop closed"
         case _ => true
  }

  lemma {:induction false} RelaySaysWhy<P>(parser: Parser<P>, p: P, buf: Bytes, number: nat, upstream: seq<Upstream>,
                                           cancel: Option<nat>)
    ensures var log := Relay(parser, p, buf, number, upstream, cancel);
            log.taken <= |upstream| && SaysWhy(log, upstream)
    decreases |upstream|
  {
    hide TakeChunk;
    if cancel != Some(0) && |upstream| > 0 {
      match TakeEvent(parser, p, buf, number, upstream[0])
      case Stop(_, _, _) =>
      case Go(_, q, rest, next) =>
        RelaySaysWhy(parser, q, rest, next, upstream[1..], Before(cancel));
    }
  }

  lemma ServeSaysWhy<P>(parser: Parser<P>, model: string, upstream: seq<Upstream>, cancel: Option<nat>)
    ensures var log := Serve(parser, model, upstream, cancel);
            && log.taken <= |upstream|
            && (log.end.Broken? ==> log.taken > 0)
            && (log.end.Broken? && (log.taken == 1 || (upstream[0].Accepted? && 200 <= upstream[0].status < 300)) ==>
                  SaysWhy(log, upstream))
  {
    if |upstream| > 0 && upstream[0].Accepted? {
      var status := upstream[0].status;
      if 200 <= status < 300 {
        RelaySaysWhy(parser, parser.start, [], 0, upstream[1..], cancel);
        hide Relay;
      } else {
        ErrorCarriesBody(status, [], upstream[1..]);
        hide ErrorBody, SaysHttp;
      }
    }
  }

  /** An error is the last frame of its session and says what went wrong: the failure of the preparation itself, the
      failure of opening the upstream session, the upstream's own failure, or that the connection is gone. */
  lemma FailureIsReported<P>(prepared: Option<string>, opening: Option<string>, parser: Parser<P>, model: string,
                             upstream: seq<Upstream>, cancel: Option<nat>)
    ensures var log := Session(prepared, opening, parser, model, upstream, cancel);
            && (log.end.Broken? ==> |log.frames| > 0 && log.frames[|log.frames| - 1] == Error(log.end.error))
            && (prepared.Some? ==> log.frames == [Error(prepared.value)])
            && (prepared.None? && opening.Some? ==>
                  |log.frames| == 1 && log.frames[0].Error? && EndsWith(log.frames[0].error, opening.value))
            && (prepared.None? && opening.None? && log.end.Broken? ==> 0 < log.taken <= |upstream|)
            && (prepared.None? && opening.None? && log.end.Broken? &&
                (log.taken == 1 || (upstream[0].Accepted? && 200 <= upstream[0].status < 300)) ==>
                  SaysWhy(log, upstream))
  {
    if opening.Some? {
      EndOfText("network plugin call failed: ", opening.value);
    }
    if prepared.None? && opening.None? {
      ServeSaysWhy(parser, model, upstream, cancel);
      hide Serve;
    }
  }

  lemma EndOfText(head: string, tail: string)
    ensures EndsWith(head + tail, tail)
  {
  }

  /** The relay tells the provider to stop exactly when it was cancelled, or broke on a chunk: never when the
      upstream has ended by itself, and never twice. */
  lemma {:induction false} ClosedExactly<P>(parser: Parser<P>, p: P, buf: Bytes, number: nat, upstream: seq<Upstream>,
                                            cancel: Option<nat>)
    ensures var log := Relay(parser, p, buf, number, upstream, cancel);
            && log.taken <= |upstream|
            && (log.closed <==> || log.end.Cancelled?
                                || (log.end.Broken? && log.taken > 0 && upstream[log.taken - 1].Chunk?))
    decreases |upstream|
  {
    hide TakeChunk;
    if cancel != Some(0) && |upstream| > 0 {
      match TakeEvent(parser, p, buf, number, upstream[0])
      case Stop(_, _, _) =>
      case Go(_, q, rest, next) =>
        RelaySaysWhy(parser, q, rest, next, upstream[1..], Before(cancel));
        ClosedExactly(parser, q, rest, next, upstream[1..], Before(cancel));
    }
  }

  lemma {:induction false} ErrorBodyCloses(status: nat, body: Bytes, upstream: seq<Upstream>)
    ensures var log := ErrorBody(status, body, upstream);
            && log.taken <= |upstream|
            && (log.closed ==> log.end.Broken? && log.taken > 0 && upstream[log.taken - 1].Chunk?)
    decreases |upstream|
  {
    hide HttpError;
    if |upstream| > 0 && upstream[0].Chunk? {
      ErrorBodyCloses(status, body + upstream[0].bytes, upstream[1..]);
    }
  }

  /** It was cancelled, or it broke on a chunk. */
  predicate LeavesUpstream(log: Log, upstream: seq<Upstream>)
    requires log.taken <= |upstream|
  {
    log.end.Cancelled? || (log.end.Broken? && log.taken > 0 && upstream[log.taken - 1].Chunk?)
  }

  predicate IsStreaming(upstream: seq<Upstream>) {
    |upstream| > 0 && upstream[0].Accepted? && 200 <= upstream[0].status < 300
  }

  lemma LeavesLater(frames: seq<Frame>, log: Log, upstream: seq<Upstream>)
    requires |upstream| > 0 && log.taken <= |upstream| - 1
    requires log.end.Broken? ==> log.taken > 0
    ensures LeavesUpstream(Then(frames, log), upstream) <==> LeavesUpstream(log, upstream[1..])
  {
  }

  lemma ServeCloses<P>(parser: Parser<P>, model: string, upstream: seq<Upstream>, cancel: Option<nat>)
    ensures var log := Serve(parser, model, upstream, cancel);
            && log.taken <= |upstream|
            && (log.closed ==> log.taken > 0 && upstream[0].Accepted? && LeavesUpstream(log, upstream))
            && (IsStreaming(upstream) ==> (log.closed <==> LeavesUpstream(log, upstream)))
  {
    if |upstream| > 0 && upstream[0].Accepted? {
      if IsStreaming(upstream) {
        ClosedExactly(parser, parser.start, [], 0, upstream[1..], cancel);
        RelaySaysWhy(parser, parser.start, [], 0, upstream[1..], cancel);
        LeavesLater([Head(model)], Relay(parser, parser.start, [], 0, upstream[1..], cancel), upstream);
        hide Relay, LeavesUpstream;
        assert LeavesUpstream(Relay(parser, parser.start, [], 0, upstream[1..], cancel), upstream[1..]) <==>
               Relay(parser, parser.start, [], 0, upstream[1..], cancel).closed by {
          LeavesIs(Relay(parser, parser.start, [], 0, upstream[1..], cancel), upstream[1..]);
        }
      } else {
        ErrorBodyCloses(upstream[0].status, [], upstream[1..]);
        hide Relay, ErrorBody;
      }
    }
  }

  lemma LeavesIs(log: Log, upstream: seq<Upstream>)
    requires log.taken <= |upstream|
    ensures LeavesUpstream(log, upstream) <==>
              log.end.Cancelled? || (log.end.Broken? && log.taken > 0 && upstream[log.taken - 1].Chunk?)
  {
  }

  /** A session tells the provider to stop only after the upstream was accepted, when it was cancelled, or broke on a
      chunk; of an accepted stream exactly then. */
  lemma ClosesWhenNeeded<P>(prepared: Option<string>, opening: Option<string>, parser: Parser<P>, model: string,
                            upstream: seq<Upstream>, cancel: Option<nat>)
    ensures var log := Session(prepared, opening, parser, model, upstream, cancel);
            && log.taken <= |upstream|
            && (log.closed ==> log.taken > 0 && upstream[0].Accepted? && LeavesUpstream(log, upstream))
            && (prepared.Some? || opening.Some? ==> !log.closed)
            && (prepared.None? && opening.None? && IsStreaming(upstream) ==>
                  (log.closed <==> LeavesUpstream(log, upstream)))
  {
    ServeCloses(parser, model, upstream, cancel);
    hide Serve;
  }

  /** A chunk breaks the relay exactly when more than 1 MiB is left of it without an event's end, or when the parser
      rejects one of its payloads. */
  lemma ChunkBreaks<P>(parser: Parser<P>, p: P, buf: Bytes, number: nat, bytes: Bytes)
    ensures var (payloads, rest) := Decode(buf + bytes);
            var parsed := ParseAll(parser, p, payloads);
            match TakeEvent(parser, p, buf, number, Chunk(bytes))
            case Stop(frames, end, _) =>
              && frames == [] && (|rest| > 1_048_576 || parsed.Err?)
              && end == Broken(if |rest| > 1_048_576 then "stream event exceeds 1 MiB without a terminator"
                               else parsed.error)
            case Go(_, q, left, _) => |rest| <= 1_048_576 && left == rest && parsed.Ok? && q == parsed.value.0
  {
    hide Decode;
  }
}
