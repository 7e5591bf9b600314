/** One endpoint of the reliability layer, packages/rpc/src/persistent-protocol.ts. */
module Persistence {
  import opened Buffers
  import opened Framing

  const ACK_TIMEOUT: int := 20_000

  datatype Options = Options(highWaterMark: nat, lowWaterMark: nat, replayBufferMax: nat, replayBufferGrace: nat)

  datatype Entry = Entry(msg: Frame, queuedAt: int)

  datatype Event = Saturated | Drained | Close | SocketClose | Message(body: Bytes)

  /** The protocol's fields, with every event it has fired so far. */
  datatype Endpoint = Endpoint(
    options: Options,
    outgoingMsgId: nat,
    outgoingUnackMsg: seq<Entry>,
    incomingAckId: nat,
    unackBytes: int,
    saturated: bool,
    overflowed: bool,
    lastAckTime: int,
    events: seq<Event>)

  /** A new state together with the frames written to the current socket. */
  datatype Outcome = Outcome(state: Endpoint, written: seq<Frame>)

  function Initial(options: Options, now: int): Endpoint {
    Endpoint(options, 0, [], 0, 0, false, false, now, [])
  }

  function Control(e: Endpoint, kind: Byte): Frame {
    Frame(kind, 0, e.incomingAckId, [])
  }

  function AbandonSession(e: Endpoint): Outcome {
    if e.overflowed then Outcome(e, [])
    else Outcome(e.(overflowed := true, events := e.events + [Close]), [Control(e, DISCONNECT)])
  }

  /** The message numbered and kept for replay. */
  function Queue(e: Endpoint, body: Bytes, now: int): Endpoint {
    e.(outgoingMsgId := e.outgoingMsgId + 1,
       outgoingUnackMsg := e.outgoingUnackMsg + [Entry(Frame(REGULAR, e.outgoingMsgId + 1, e.incomingAckId, body), now)],
       unackBytes := e.unackBytes + |body|)
  }

  function Send(e: Endpoint, body: Bytes, now: int): Outcome {
    var msg := Frame(REGULAR, e.outgoingMsgId + 1, e.incomingAckId, body);
    var queued := Queue(e, body, now);
    if queued.unackBytes > e.options.replayBufferMax then
      var abandoned := AbandonSession(queued);
      Outcome(abandoned.state, [msg] + abandoned.written)
    else if !e.saturated && queued.unackBytes > e.options.highWaterMark then
      Outcome(queued.(saturated := true, events := e.events + [Saturated]), [msg])
    else
      Outcome(queued, [msg])
  }

  /** The queue once every leading entry numbered at most `ack` is gone. */
  function Unacknowledged(queue: seq<Entry>, ack: nat): seq<Entry> {
    if queue != [] && queue[0].msg.id <= ack then Unacknowledged(queue[1..], ack) else queue
  }

  function TotalBytes(queue: seq<Entry>): nat {
    if queue == [] then 0 else |queue[0].msg.data| + TotalBytes(queue[1..])
  }

  function ProcessAck(e: Endpoint, ack: nat): Endpoint {
    var queue := Unacknowledged(e.outgoingUnackMsg, ack);
    var bytes := e.unackBytes - (TotalBytes(e.outgoingUnackMsg) - TotalBytes(queue));
    var acked := e.(outgoingUnackMsg := queue, unackBytes := bytes);
    if e.saturated && bytes <= e.options.lowWaterMark
    then acked.(saturated := false, events := e.events + [Drained])
    else acked
  }

  /** One decoded frame: its acknowledgement first, then what its type asks for. */
  function Receive(e: Endpoint, frame: Frame, now: int): Endpoint {
    var acked := ProcessAck(e, frame.ack);
    var handled :=
      if frame.kind == REGULAR then
        acked.(incomingAckId := frame.id, events := acked.events + [Message(frame.data)])
      else if frame.kind == DISCONNECT then acked.(events := acked.events + [Close])
      else acked;
    handled.(lastAckTime := now)
  }

  function ReceiveAll(e: Endpoint, frames: seq<Frame>, now: int): Endpoint
    decreases |frames|
  {
    if frames == [] then e else ReceiveAll(Receive(e, frames[0], now), frames[1..], now)
  }

  /** The timer of `startAckCheck`. */
  function CheckAcks(e: Endpoint, now: int): Outcome {
    var timed :=
      if e.outgoingUnackMsg != [] && now - e.lastAckTime > ACK_TIMEOUT
      then e.(events := e.events + [SocketClose]) else e;
    if e.outgoingUnackMsg != [] && now - e.outgoingUnackMsg[0].queuedAt > e.options.replayBufferGrace
    then AbandonSession(timed) else Outcome(timed, [])
  }

  /** What `replaceSocket` writes first on the new socket: every queued message, oldest first. */
  function Messages(queue: seq<Entry>): (messages: seq<Frame>)
    ensures |messages| == |queue|
    ensures forall k :: 0 <= k < |queue| ==> messages[k] == queue[k].msg
  {
    seq(|queue|, k requires 0 <= k < |queue| => queue[k].msg)
  }

  // ---------------------------------------------------------------------------------------------
  // What every operation keeps
  // ---------------------------------------------------------------------------------------------

  /** The congestion events among all events. */
  function FlowEvents(events: seq<Event>): seq<Event> {
    if events == [] then []
    else
      var last := events[|events| - 1];
      FlowEvents(events[..|events| - 1]) + (if last.Saturated? || last.Drained? then [last] else [])
  }

  /** Saturated, Drained, Saturated, ... */
  ghost predicate Alternates(flow: seq<Event>) {
    forall k :: 0 <= k < |flow| ==> flow[k] == if k % 2 == 0 then Saturated else Drained
  }

  /** The queue holds consecutive numbers ending with the last one sent. */
  ghost predicate Contiguous(e: Endpoint) {
    && |e.outgoingUnackMsg| <= e.outgoingMsgId
    && forall k :: 0 <= k < |e.outgoingUnackMsg| ==>
         && e.outgoingUnackMsg[k].msg.kind == REGULAR
         && e.outgoingUnackMsg[k].msg.id == e.outgoingMsgId - |e.outgoingUnackMsg| + k + 1
  }

  /** The bookkeeping that holds whatever the options are. */
  ghost predicate Accounted(e: Endpoint) {
    && Contiguous(e)
    && e.unackBytes == TotalBytes(e.outgoingUnackMsg)
    && (!e.overflowed ==> e.unackBytes <= e.options.replayBufferMax)
    && (e.saturated ==> e.options.highWaterMark < e.options.replayBufferMax)
    && Alternates(FlowEvents(e.events))
    && (e.saturated <==> |FlowEvents(e.events)| % 2 == 1)
  }

  /** The hysteresis the two water marks promise. */
  ghost predicate BetweenMarks(e: Endpoint) {
    && (e.saturated ==> e.options.lowWaterMark < e.unackBytes)
    && (!e.saturated && !e.overflowed ==> e.unackBytes <= e.options.highWaterMark)
  }

  datatype Input =
    | SendInput(body: Bytes)
    | ReceiveInput(frame: Frame)
    | CheckInput
    | KeepAliveInput
    | ReplaceInput

  /** One public call, listener call or timer tick at time `now`. */
  function Step(e: Endpoint, input: Input, now: int): Outcome {
    match input
    case SendInput(body) => Send(e, body, now)
    case ReceiveInput(frame) => Outcome(Receive(e, frame, now), [])
    case CheckInput => CheckAcks(e, now)
    case KeepAliveInput => Outcome(e, [Control(e, KEEP_ALIVE)])
    case ReplaceInput => Outcome(e, Messages(e.outgoingUnackMsg))
  }

  function RunInputs(e: Endpoint, inputs: seq<(Input, int)>): Endpoint
    decreases |inputs|
  {
    if inputs == [] then e
    else RunInputs(Step(e, inputs[0].0, inputs[0].1).state, inputs[1..])
  }

  lemma {:induction false} TotalAppend(front: seq<Entry>, back: seq<Entry>)
    ensures TotalBytes(front + back) == TotalBytes(front) + TotalBytes(back)
  {
    if front == [] {
      assert front + back == back;
    } else {
      assert (front + back)[1..] == front[1..] + back;
      TotalAppend(front[1..], back);
    }
  }

  lemma {:induction false} UnacknowledgedIsSuffix(queue: seq<Entry>, ack: nat)
    ensures var left := Unacknowledged(queue, ack);
            && |left| <= |queue|
            && left == queue[|queue| - |left|..]
            && TotalBytes(left) <= TotalBytes(queue)
            && (forall k :: 0 <= k < |queue| - |left| ==> queue[k].msg.id <= ack)
            && (left != [] ==> ack < left[0].msg.id)
  {
    if queue != [] && queue[0].msg.id <= ack {
      UnacknowledgedIsSuffix(queue[1..], ack);
    }
  }

  lemma FlowAppend(events: seq<Event>, event: Event)
    ensures FlowEvents(events + [event])
            == FlowEvents(events) + (if event.Saturated? || event.Drained? then [event] else [])
  {
    assert (events + [event])[..|events|] == events;
  }

  lemma AbandonKeepsAccounts(e: Endpoint)
    requires Contiguous(e) && e.unackBytes == TotalBytes(e.outgoingUnackMsg)
    requires e.saturated ==> e.options.highWaterMark < e.options.replayBufferMax
    requires Alternates(FlowEvents(e.events)) && (e.saturated <==> |FlowEvents(e.events)| % 2 == 1)
    ensures Accounted(AbandonSession(e).state) && AbandonSession(e).state.overflowed
  {
    FlowAppend(e.events, Close);
  }

  lemma QueueKeepsQueue(e: Endpoint, body: Bytes, now: int)
    requires Contiguous(e) && e.unackBytes == TotalBytes(e.outgoingUnackMsg)
    ensures Contiguous(Queue(e, body, now)) && Queue(e, body, now).unackBytes == TotalBytes(Queue(e, body, now).outgoingUnackMsg)
  {
    var entry := Entry(Frame(REGULAR, e.outgoingMsgId + 1, e.incomingAckId, body), now);
    TotalAppend(e.outgoingUnackMsg, [entry]);
    assert TotalBytes([entry]) == |body|;
  }

  lemma SendKeepsAccounts(e: Endpoint, body: Bytes, now: int)
    requires Accounted(e)
    ensures Accounted(Send(e, body, now).state)
  {
    var queued := Queue(e, body, now);
    QueueKeepsQueue(e, body, now);
    hide TotalBytes, Contiguous, FlowEvents;
    if queued.unackBytes > e.options.replayBufferMax {
      AbandonKeepsAccounts(queued);
    } else {
      FlowAppend(e.events, Saturated);
    }
  }

  lemma AckKeepsAccounts(e: Endpoint, ack: nat)
    requires Accounted(e)
    ensures Accounted(ProcessAck(e, ack))
  {
    UnacknowledgedIsSuffix(e.outgoingUnackMsg, ack);
    FlowAppend(e.events, Drained);
    assert Contiguous(ProcessAck(e, ack));
  }

  lemma ReceiveKeepsAccounts(e: Endpoint, frame: Frame, now: int)
    requires Accounted(e)
    ensures Accounted(Receive(e, frame, now))
  {
    AckKeepsAccounts(e, frame.ack);
    hide ProcessAck, Accounted;
    var acked := ProcessAck(e, frame.ack);
    NoteKeepsAccounts(acked, Message(frame.data), frame.id, now);
    NoteKeepsAccounts(acked, Close, acked.incomingAckId, now);
    NothingNotedKeepsAccounts(acked, now);
  }

  /** Events that are no congestion events leave the books alone. */
  lemma NoteKeepsAccounts(e: Endpoint, event: Event, ack: nat, now: int)
    requires Accounted(e) && !event.Saturated? && !event.Drained?
    ensures Accounted(e.(incomingAckId := ack, events := e.events + [event], lastAckTime := now))
  {
    FlowAppend(e.events, event);
    hide TotalBytes, FlowEvents, Alternates;
    assert FlowEvents(e.events) + [] == FlowEvents(e.events);
  }

  lemma NothingNotedKeepsAccounts(e: Endpoint, now: int)
    requires Accounted(e)
    ensures Accounted(e.(lastAckTime := now))
  {
    hide TotalBytes, FlowEvents, Alternates;
  }

  lemma CheckKeepsAccounts(e: Endpoint, now: int)
    requires Accounted(e)
    ensures Accounted(CheckAcks(e, now).state)
  {
    NoteKeepsAccounts(e, SocketClose, e.incomingAckId, e.lastAckTime);
    AbandonKeepsAccounts(e);
    AbandonKeepsAccounts(e.(events := e.events + [SocketClose]));
    hide TotalBytes, Contiguous, FlowEvents, Alternates, AbandonSession;
  }

  lemma StepKeepsAccounts(e: Endpoint, input: Input, now: int)
    requires Accounted(e)
    ensures Accounted(Step(e, input, now).state) && Step(e, input, now).state.options == e.options
  {
    match input
    case SendInput(body) => SendKeepsAccounts(e, body, now);
    case ReceiveInput(frame) => ReceiveKeepsAccounts(e, frame, now);
    case CheckInput => CheckKeepsAccounts(e, now);
    case KeepAliveInput =>
    case ReplaceInput =>
  }

  lemma StepStaysBetweenMarks(e: Endpoint, input: Input, now: int)
    requires Accounted(e) && BetweenMarks(e)
    requires e.options.lowWaterMark <= e.options.highWaterMark || e.options.replayBufferMax <= e.options.highWaterMark
    ensures BetweenMarks(Step(e, input, now).state)
  {
    hide TotalBytes, FlowEvents, Contiguous, Unacknowledged;
    match input
    case SendInput(body) => SendStaysBetweenMarks(e, body, now);
    case ReceiveInput(frame) => ReceiveStaysBetweenMarks(e, frame, now);
    case _ =>
  }

  lemma SendStaysBetweenMarks(e: Endpoint, body: Bytes, now: int)
    requires Accounted(e) && BetweenMarks(e)
    requires e.options.lowWaterMark <= e.options.highWaterMark || e.options.replayBufferMax <= e.options.highWaterMark
    ensures BetweenMarks(Send(e, body, now).state)
  {
    hide TotalBytes, FlowEvents, Contiguous;
  }

  lemma ReceiveStaysBetweenMarks(e: Endpoint, frame: Frame, now: int)
    requires Accounted(e) && BetweenMarks(e)
    requires e.options.lowWaterMark <= e.options.highWaterMark || e.options.replayBufferMax <= e.options.highWaterMark
    ensures BetweenMarks(Receive(e, frame, now))
  {
    UnacknowledgedIsSuffix(e.outgoingUnackMsg, frame.ack);
    hide TotalBytes, FlowEvents, Contiguous, Unacknowledged;
    assert ProcessAck(e, frame.ack).unackBytes <= e.unackBytes;
  }

  /** Every run keeps the books. */
  lemma {:induction false} RunKeepsAccounts(e: Endpoint, inputs: seq<(Input, int)>)
    requires Accounted(e)
    ensures Accounted(RunInputs(e, inputs)) && RunInputs(e, inputs).options == e.options
    decreases |inputs|
  {
    if inputs != [] {
      StepKeepsAccounts(e, inputs[0].0, inputs[0].1);
      RunKeepsAccounts(Step(e, inputs[0].0, inputs[0].1).state, inputs[1..]);
    }
  }

  lemma {:induction false} RunStaysBetweenMarks(e: Endpoint, inputs: seq<(Input, int)>)
    requires Accounted(e) && BetweenMarks(e)
    requires e.options.lowWaterMark <= e.options.highWaterMark || e.options.replayBufferMax <= e.options.highWaterMark
    ensures BetweenMarks(RunInputs(e, inputs))
    decreases |inputs|
  {
    if inputs != [] {
      StepKeepsAccounts(e, inputs[0].0, inputs[0].1);
      StepStaysBetweenMarks(e, inputs[0].0, inputs[0].1);
      RunStaysBetweenMarks(Step(e, inputs[0].0, inputs[0].1).state, inputs[1..]);
    }
  }

  /**
   * The water marks work on every run exactly when the low mark is at most the high one, or the
   * replay cap leaves no room above the high mark. Otherwise one message saturates below the low mark.
   */
  lemma MarksWorkExactlyWhen(options: Options, start: int)
    ensures (forall inputs :: BetweenMarks(RunInputs(Initial(options, start), inputs)))
            <==> (options.lowWaterMark <= options.highWaterMark || options.replayBufferMax <= options.highWaterMark)
  {
    var e := Initial(options, start);
    if options.lowWaterMark <= options.highWaterMark || options.replayBufferMax <= options.highWaterMark {
      forall inputs ensures BetweenMarks(RunInputs(e, inputs)) {
        RunStaysBetweenMarks(e, inputs);
      }
    } else {
      var inputs := OneMessageBreaksTheMarks(options, start);
    }
  }

  lemma OneMessageBreaksTheMarks(options: Options, start: int) returns (inputs: seq<(Input, int)>)
    requires options.highWaterMark < options.lowWaterMark && options.highWaterMark < options.replayBufferMax
    ensures !BetweenMarks(RunInputs(Initial(options, start), inputs))
  {
    var body: Bytes := seq(options.highWaterMark + 1, _ => 0);
    var after := Send(Initial(options, start), body, start).state;
    assert after.saturated && after.unackBytes == options.highWaterMark + 1;
    inputs := [(SendInput(body), start)];
    assert inputs[1..] == [];
    assert RunInputs(Initial(options, start), inputs) == RunInputs(after, []) == after;
  }

  // ---------------------------------------------------------------------------------------------
  // The class
  // ---------------------------------------------------------------------------------------------

  /** The protocol object; `wire` is everything written to the current socket. */
  class PersistentProtocol {
    const options: Options
    var outgoingMsgId: nat
    var outgoingUnackMsg: seq<Entry>
    var incomingAckId: nat
    var unackBytes: int
    var saturated: bool
    var overflowed: bool
    var lastAckTime: int
    var events: seq<Event>
    var wire: seq<Frame>
    var chunkStream: ChunkStream

    ghost function State(): Endpoint
      reads this
    {
      Endpoint(options, outgoingMsgId, outgoingUnackMsg, incomingAckId, unackBytes, saturated, overflowed,
               lastAckTime, events)
    }

    constructor (options: Options, now: int)
      ensures State() == Initial(options, now) && wire == []
      ensures fresh(chunkStream) && chunkStream.Valid() && chunkStream.Contents() == []
    {
      this.options := options;
      outgoingMsgId, outgoingUnackMsg, incomingAckId, unackBytes := 0, [], 0, 0;
      saturated, overflowed, lastAckTime, events, wire := false, false, now, [], [];
      chunkStream := new ChunkStream();
    }

    method WriteMessage(msg: Frame)
      modifies this`wire
      ensures wire == old(wire) + [msg]
    {
      wire := wire + [msg];
    }

    method SendBuffer(buffer: Bytes, now: int)
      modifies this
      ensures chunkStream == old(chunkStream)
      ensures State() == Send(old(State()), buffer, now).state
      ensures wire == old(wire) + Send(old(State()), buffer, now).written
    {
      outgoingMsgId := outgoingMsgId + 1;
      var msg := Frame(REGULAR, outgoingMsgId, incomingAckId, buffer);
      outgoingUnackMsg := outgoingUnackMsg + [Entry(msg, now)];
      unackBytes := unackBytes + |buffer|;
      WriteMessage(msg);
      if unackBytes > options.replayBufferMax {
        Abandon();
        return;
      }
      if !saturated && unackBytes > options.highWaterMark {
        saturated := true;
        events := events + [Saturated];
      }
    }

    method Abandon()
      modifies this
      ensures chunkStream == old(chunkStream)
      ensures State() == AbandonSession(old(State())).state
      ensures wire == old(wire) + AbandonSession(old(State())).written
    {
      if overflowed {
        return;
      }
      overflowed := true;
      WriteMessage(Frame(DISCONNECT, 0, incomingAckId, []));
      events := events + [Close];
    }

    /** A reconnection: a new socket, an empty chunk stream and the whole queue replayed. */
    method ReplaceSocket()
      modifies this
      ensures fresh(chunkStream) && chunkStream.Valid() && chunkStream.Contents() == []
      ensures State() == old(State())
      ensures wire == Messages(outgoingUnackMsg)
    {
      chunkStream := new ChunkStream();
      wire := [];
      ghost var messages := Messages(outgoingUnackMsg);
      for i := 0 to |outgoingUnackMsg|
        invariant i <= |outgoingUnackMsg|
        invariant State() == old(State())
        invariant wire == Messages(outgoingUnackMsg)[..i]
        invariant fresh(chunkStream) && chunkStream.Valid() && chunkStream.Contents() == []
      {
        WriteMessage(outgoingUnackMsg[i].msg);
      }
    }

    method Acknowledge(ack: nat)
      modifies this
      ensures State() == ProcessAck(old(State()), ack)
      ensures wire == old(wire) && chunkStream == old(chunkStream)
    {
      while |outgoingUnackMsg| > 0 && outgoingUnackMsg[0].msg.id <= ack
        invariant Unacknowledged(outgoingUnackMsg, ack) == Unacknowledged(old(outgoingUnackMsg), ack)
        invariant unackBytes - TotalBytes(outgoingUnackMsg) == old(unackBytes) - TotalBytes(old(outgoingUnackMsg))
        invariant State() == old(State()).(outgoingUnackMsg := outgoingUnackMsg, unackBytes := unackBytes)
        invariant wire == old(wire) && chunkStream == old(chunkStream)
        decreases |outgoingUnackMsg|
      {
        var entry := outgoingUnackMsg[0];
        outgoingUnackMsg := outgoingUnackMsg[1..];
        unackBytes := unackBytes - |entry.msg.data|;
      }
      if saturated && unackBytes <= options.lowWaterMark {
        saturated := false;
        events := events + [Drained];
      }
    }

    /** One chunk from the socket: every completed frame is handled, the tail is kept. */
    method OnData(data: Bytes, now: int)
      requires chunkStream.Valid()
      modifies this, chunkStream
      ensures chunkStream == old(chunkStream) && chunkStream.Valid() && wire == old(wire)
      ensures var (frames, tail) := Drain(old(chunkStream.Contents()) + data);
              State() == ReceiveAll(old(State()), frames, now) && chunkStream.Contents() == tail
    {
      chunkStream.AcceptChunk(data);
      ReadMessages(now);
    }

    method ReadMessages(now: int)
      requires chunkStream.Valid()
      modifies this, chunkStream
      ensures chunkStream == old(chunkStream) && chunkStream.Valid() && wire == old(wire)
      ensures var (frames, tail) := Drain(old(chunkStream.Contents()));
              State() == ReceiveAll(old(State()), frames, now) && chunkStream.Contents() == tail
    {
      hide Receive, ProcessAck, U32BE;
      ghost var goal := ReceiveAll(State(), Drain(chunkStream.Contents()).0, now);
      while true
        invariant chunkStream == old(chunkStream) && chunkStream.Valid() && wire == old(wire)
        invariant ReceiveAll(State(), Drain(chunkStream.Contents()).0, now) == goal
        invariant Drain(chunkStream.Contents()).1 == Drain(old(chunkStream.Contents())).1
        decreases |chunkStream.Contents()|
      {
        ghost var before := chunkStream.Contents();
        if chunkStream.totalLength < HEADER_SIZE {
          break;
        }
        var peeked := chunkStream.Peek(HEADER_SIZE);
        if peeked.None? {
          break;
        }
        var header := peeked.value;
        var length := FromU32BE(header[9..13]);
        HeaderIsPrefix(before);
        if chunkStream.totalLength < HEADER_SIZE + length {
          break;
        }
        ghost var frame := ParseFrame(before).value.0;
        ReceiveStep(State(), before, now);
        var _ := chunkStream.Skip(HEADER_SIZE);
        var body: Bytes := [];
        if length > 0 {
          var readBody := chunkStream.Read(length);
          body := readBody.value;
        }
        Handle(header[0], FromU32BE(header[1..5]), FromU32BE(header[5..9]), body, now);
        assert Frame(header[0], FromU32BE(header[1..5]), FromU32BE(header[5..9]), body) == frame;
      }
    }

    /** What `readMessages` does with one complete frame. */
    method Handle(kind: Byte, id: nat, ack: nat, body: Bytes, now: int)
      modifies this
      ensures wire == old(wire) && chunkStream == old(chunkStream)
      ensures State() == Receive(old(State()), Frame(kind, id, ack, body), now)
    {
      Acknowledge(ack);
      if kind == REGULAR {
        incomingAckId := id;
        events := events + [Message(body)];
      } else if kind == DISCONNECT {
        events := events + [Close];
      }
      lastAckTime := now;
    }

    method KeepAlive()
      modifies this`wire
      ensures wire == old(wire) + [Control(State(), KEEP_ALIVE)]
    {
      WriteMessage(Frame(KEEP_ALIVE, 0, incomingAckId, []));
    }

    method AckCheck(now: int)
      modifies this
      ensures chunkStream == old(chunkStream)
      ensures State() == CheckAcks(old(State()), now).state
      ensures wire == old(wire) + CheckAcks(old(State()), now).written
    {
      if |outgoingUnackMsg| > 0 && now - lastAckTime > ACK_TIMEOUT {
        events := events + [SocketClose];
      }
      if |outgoingUnackMsg| > 0 && now - outgoingUnackMsg[0].queuedAt > options.replayBufferGrace {
        Abandon();
      }
    }
  }

  lemma ReceiveStep(e: Endpoint, buffer: Bytes, now: int)
    requires ParseFrame(buffer).Some?
    ensures var (frame, rest) := ParseFrame(buffer).value;
            && |rest| < |buffer|
            && Drain(buffer).1 == Drain(rest).1
            && ReceiveAll(e, Drain(buffer).0, now) == ReceiveAll(Receive(e, frame, now), Drain(rest).0, now)
  {
    ParseShortens(buffer);
    hide ParseFrame, Receive;
    var (frame, rest) := ParseFrame(buffer).value;
    assert ([frame] + Drain(rest).0)[1..] == Drain(rest).0;
  }
}
