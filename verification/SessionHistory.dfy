/** What a persistent endpoint wrote and fired, told from the inputs it was given. */
module SessionHistory {
  // packages/rpc/src/persistent-protocol.ts: numbers, acknowledgements, the queue, abandonment and its two causes.

  import opened Framing
  import opened Buffers
  import opened Persistence

  type History = seq<(Input, int)>

  /** Everything written during a run, whatever socket it went to. */
  function RunWritten(e: Endpoint, inputs: History): seq<Frame>
    decreases |inputs|
  {
    if inputs == [] then []
    else
      var next := Step(e, inputs[0].0, inputs[0].1);
      next.written + RunWritten(next.state, inputs[1..])
  }

  lemma {:induction false} RunOneMore(e: Endpoint, inputs: History, input: Input, now: int)
    ensures RunInputs(e, inputs + [(input, now)]) == Step(RunInputs(e, inputs), input, now).state
    ensures RunWritten(e, inputs + [(input, now)]) == RunWritten(e, inputs) + Step(RunInputs(e, inputs), input, now).written
    decreases |inputs|
  {
    hide Step;
    var more := inputs + [(input, now)];
    if inputs == [] {
      assert more[1..] == [];
    } else {
      assert more[1..] == inputs[1..] + [(input, now)];
      RunOneMore(Step(e, inputs[0].0, inputs[0].1).state, inputs[1..], input, now);
    }
  }

  /** The inputs but the last, and the last. */
  lemma LastInput(inputs: History)
    requires inputs != []
    ensures inputs == inputs[..|inputs| - 1] + [(inputs[|inputs| - 1].0, inputs[|inputs| - 1].1)]
  {
  }

  // ---------------------------------------------------------------------------------------------
  // The history's own terms
  // ---------------------------------------------------------------------------------------------

  function Sends(inputs: History): nat {
    if inputs == [] then 0
    else Sends(inputs[..|inputs| - 1]) + (if inputs[|inputs| - 1].0.SendInput? then 1 else 0)
  }

  /** The number of the last message that arrived, 0 before the first. */
  function LastArrived(inputs: History): nat {
    if inputs == [] then 0
    else
      match inputs[|inputs| - 1].0
      case ReceiveInput(frame) => if frame.kind == REGULAR then frame.id else LastArrived(inputs[..|inputs| - 1])
      case _ => LastArrived(inputs[..|inputs| - 1])
  }

  /** When the peer was last heard of. */
  function LastHeard(start: int, inputs: History): int {
    if inputs == [] then start
    else if inputs[|inputs| - 1].0.ReceiveInput? then inputs[|inputs| - 1].1
    else LastHeard(start, inputs[..|inputs| - 1])
  }

  function PeerDisconnects(inputs: History): nat {
    if inputs == [] then 0
    else
      PeerDisconnects(inputs[..|inputs| - 1])
      + (match inputs[|inputs| - 1].0 case ReceiveInput(frame) => (if frame.kind == DISCONNECT then 1 else 0) case _ => 0)
  }

  function Disconnects(frames: seq<Frame>): nat {
    if frames == [] then 0
    else Disconnects(frames[..|frames| - 1]) + (if frames[|frames| - 1].kind == DISCONNECT then 1 else 0)
  }

  function Closes(events: seq<Event>): nat {
    if events == [] then 0 else Closes(events[..|events| - 1]) + (if events[|events| - 1].Close? then 1 else 0)
  }

  lemma {:induction false} DisconnectsConcat(a: seq<Frame>, b: seq<Frame>)
    ensures Disconnects(a + b) == Disconnects(a) + Disconnects(b)
  {
    if b == [] {
      assert a + b == a;
    } else {
      assert (a + b)[..|a + b| - 1] == a + b[..|b| - 1];
      DisconnectsConcat(a, b[..|b| - 1]);
    }
  }

  lemma ClosesOneMore(events: seq<Event>, event: Event)
    ensures Closes(events + [event]) == Closes(events) + if event.Close? then 1 else 0
  {
    assert (events + [event])[..|events|] == events;
  }

  lemma {:induction false} NoDisconnects(frames: seq<Frame>)
    requires forall k :: 0 <= k < |frames| ==> frames[k].kind != DISCONNECT
    ensures Disconnects(frames) == 0
  {
    if frames != [] {
      NoDisconnects(frames[..|frames| - 1]);
    }
  }

  /** The fields that count and remember are those of the history. */
  ghost predicate Remembers(e: Endpoint, start: int, inputs: History) {
    e.outgoingMsgId == Sends(inputs) && e.incomingAckId == LastArrived(inputs) && e.lastAckTime == LastHeard(start, inputs)
  }

  lemma StepRemembers(e: Endpoint, start: int, inputs: History, input: Input, now: int)
    requires Remembers(e, start, inputs)
    ensures Remembers(Step(e, input, now).state, start, inputs + [(input, now)])
  {
    StepFields(e, input, now);
    hide Step;
    assert (inputs + [(input, now)])[..|inputs|] == inputs;
  }

  lemma StepFields(e: Endpoint, input: Input, now: int)
    ensures var next := Step(e, input, now).state;
            && next.outgoingMsgId == e.outgoingMsgId + (if input.SendInput? then 1 else 0)
            && next.incomingAckId == (if input.ReceiveInput? && input.frame.kind == REGULAR then input.frame.id else e.incomingAckId)
            && next.lastAckTime == (if input.ReceiveInput? then now else e.lastAckTime)
  {
    hide Unacknowledged, TotalBytes;
  }

  lemma {:induction false} RunRemembers(options: Options, start: int, inputs: History)
    ensures Remembers(RunInputs(Initial(options, start), inputs), start, inputs)
    decreases |inputs|
  {
    if inputs != [] {
      var (input, now) := inputs[|inputs| - 1];
      var front := inputs[..|inputs| - 1];
      LastInput(inputs);
      RunOneMore(Initial(options, start), front, input, now);
      RunRemembers(options, start, front);
      hide RunInputs, Step, Remembers;
      StepRemembers(RunInputs(Initial(options, start), front), start, front, input, now);
    }
  }

  // ---------------------------------------------------------------------------------------------
  // Abandonment: one Disconnect frame, one Close event
  // ---------------------------------------------------------------------------------------------

  /** What one input adds to both counts. */
  lemma StepCounts(e: Endpoint, input: Input, now: int)
    requires Contiguous(e)
    ensures var next := Step(e, input, now);
            && Disconnects(next.written) == (if next.state.overflowed && !e.overflowed then 1 else 0)
            && (e.overflowed ==> next.state.overflowed)
            && Closes(next.state.events) == Closes(e.events) + Disconnects(next.written) + PeerDisconnects([(input, now)])
  {
    match input
    case SendInput(body) => SendCounts(e, body, now);
    case ReceiveInput(frame) => ReceiveCounts(e, frame, now);
    case CheckInput => CheckCounts(e, now);
    case KeepAliveInput => NoDisconnects([Control(e, KEEP_ALIVE)]);
    case ReplaceInput => NoDisconnects(Messages(e.outgoingUnackMsg));
  }

  lemma SendCounts(e: Endpoint, body: Bytes, now: int)
    ensures var next := Send(e, body, now);
            && Disconnects(next.written) == (if next.state.overflowed && !e.overflowed then 1 else 0)
            && (e.overflowed ==> next.state.overflowed)
            && Closes(next.state.events) == Closes(e.events) + Disconnects(next.written)
  {
    var msg := Frame(REGULAR, e.outgoingMsgId + 1, e.incomingAckId, body);
    var last := Frame(DISCONNECT, 0, e.incomingAckId, []);
    ClosesOneMore(e.events, Close);
    ClosesOneMore(e.events, Saturated);
    NoDisconnects([msg]);
    OneDisconnect(msg, last);
    hide Closes, Disconnects;
    assert [msg] + [] == [msg];
  }

  lemma OneDisconnect(msg: Frame, last: Frame)
    requires msg.kind != DISCONNECT && last.kind == DISCONNECT
    ensures Disconnects([msg] + [last]) == 1
  {
    NoDisconnects([msg]);
    DisconnectsConcat([msg], [last]);
    assert [last][..0] == [];
  }

  lemma ReceiveCounts(e: Endpoint, frame: Frame, now: int)
    ensures var next := Receive(e, frame, now);
            && next.overflowed == e.overflowed
            && Closes(next.events) == Closes(e.events) + if frame.kind == DISCONNECT then 1 else 0
  {
    var acked := ProcessAck(e, frame.ack);
    ClosesOneMore(e.events, Drained);
    ClosesOneMore(acked.events, Message(frame.data));
    ClosesOneMore(acked.events, Close);
    hide Unacknowledged, TotalBytes, Closes;
  }

  lemma CheckCounts(e: Endpoint, now: int)
    ensures var next := CheckAcks(e, now);
            && Disconnects(next.written) == (if next.state.overflowed && !e.overflowed then 1 else 0)
            && (e.overflowed ==> next.state.overflowed)
            && Closes(next.state.events) == Closes(e.events) + Disconnects(next.written)
  {
    var last := Control(e, DISCONNECT);
    ClosesOneMore(e.events, SocketClose);
    ClosesOneMore(e.events, Close);
    ClosesOneMore(e.events + [SocketClose], Close);
    assert [last][..0] == [];
    assert Disconnects([last]) == 1;
    hide Closes;
  }

  /**
   * Over every run: one Disconnect frame was written if the session is abandoned and none otherwise, and each Close
   * event stands for a Disconnect frame written or received.
   */
  lemma {:induction false} AbandonedOnce(options: Options, start: int, inputs: History)
    ensures var e := RunInputs(Initial(options, start), inputs);
            var written := RunWritten(Initial(options, start), inputs);
            && Disconnects(written) == (if e.overflowed then 1 else 0)
            && Closes(e.events) == Disconnects(written) + PeerDisconnects(inputs)
    decreases |inputs|
  {
    if inputs != [] {
      var (input, now) := inputs[|inputs| - 1];
      var front := inputs[..|inputs| - 1];
      LastInput(inputs);
      RunOneMore(Initial(options, start), front, input, now);
      AbandonedOnce(options, start, front);
      RunKeepsAccounts(Initial(options, start), front);
      var e := RunInputs(Initial(options, start), front);
      StepCounts(e, input, now);
      DisconnectsConcat(RunWritten(Initial(options, start), front), Step(e, input, now).written);
      PeerOneMore(front, input, now);
      hide RunInputs, RunWritten, Step, Disconnects, Closes, PeerDisconnects;
    }
  }

  lemma PeerOneMore(inputs: History, input: Input, now: int)
    ensures PeerDisconnects(inputs + [(input, now)]) == PeerDisconnects(inputs) + PeerDisconnects([(input, now)])
  {
    assert [(input, now)][..0] == [] && (inputs + [(input, now)])[..|inputs|] == inputs;
  }

  // ---------------------------------------------------------------------------------------------
  // The queue: what was sent and not yet acknowledged
  // ---------------------------------------------------------------------------------------------

  predicate SentAt(inputs: History, p: nat) {
    p < |inputs| && inputs[p].0.SendInput?
  }

  /** The message sent at place `p` as it was numbered and kept. */
  function KeptAt(inputs: History, p: nat): Entry
    requires SentAt(inputs, p)
  {
    Entry(Frame(REGULAR, Sends(inputs[..p]) + 1, LastArrived(inputs[..p]), inputs[p].0.body), inputs[p].1)
  }

  predicate Acknowledges(input: Input, id: nat) {
    input.ReceiveInput? && id <= input.frame.ack
  }

  /** Some frame that arrived after place `p` acknowledges the message sent there. */
  ghost predicate AnsweredAt(inputs: History, p: nat)
    requires SentAt(inputs, p)
  {
    exists q :: p < q < |inputs| && Acknowledges(inputs[q].0, Sends(inputs[..p]) + 1)
  }

  /** The queue holds a message sent exactly as long as it is not acknowledged, and nothing else. */
  ghost predicate QueueFollows(queue: seq<Entry>, inputs: History) {
    && (forall p: nat :: SentAt(inputs, p) ==> (KeptAt(inputs, p) in queue <==> !AnsweredAt(inputs, p)))
    && forall k :: 0 <= k < |queue| ==> WasSent(queue[k], inputs)
  }

  ghost predicate WasSent(entry: Entry, inputs: History) {
    exists p: nat :: SentAt(inputs, p) && KeptAt(inputs, p) == entry
  }

  lemma {:induction false} SendsGrow(inputs: History, p: nat, q: nat)
    requires SentAt(inputs, p) && p < q <= |inputs|
    ensures Sends(inputs[..p]) + 1 <= Sends(inputs[..q])
    decreases q
  {
    assert inputs[..q][..q - 1] == inputs[..q - 1] && inputs[..q][q - 1] == inputs[q - 1];
    if p < q - 1 {
      SendsGrow(inputs, p, q - 1);
    }
  }

  /** What was sent before stays as it was, and is answered if it was or is now. */
  lemma OneInputMore(inputs: History, input: Input, now: int, p: nat)
    requires SentAt(inputs, p)
    ensures var more := inputs + [(input, now)];
            && SentAt(more, p) && KeptAt(more, p) == KeptAt(inputs, p)
            && (AnsweredAt(more, p) <==> AnsweredAt(inputs, p) || Acknowledges(input, Sends(inputs[..p]) + 1))
  {
    hide Sends, LastArrived, Acknowledges;
    var more := inputs + [(input, now)];
    assert more[..p] == inputs[..p];
    assert forall q :: 0 <= q < |inputs| ==> more[q] == inputs[q];
    assert more[|inputs|].0 == input;
  }

  lemma LeftInQueue(e: Endpoint, ack: nat, entry: Entry)
    requires Contiguous(e)
    ensures entry in Unacknowledged(e.outgoingUnackMsg, ack) <==> entry in e.outgoingUnackMsg && ack < entry.msg.id
  {
    UnacknowledgedIsSuffix(e.outgoingUnackMsg, ack);
    hide Unacknowledged;
    var queue := e.outgoingUnackMsg;
    var left := Unacknowledged(queue, ack);
    var gone := |queue| - |left|;
    assert forall k :: 0 <= k < |left| ==> left[k] == queue[gone + k];
    if entry in queue && ack < entry.msg.id {
      var k :| 0 <= k < |queue| && queue[k] == entry;
      assert left[k - gone] == entry;
    }
  }

  /** One input and the queue after it. */
  function QueueAfter(e: Endpoint, input: Input, now: int): seq<Entry> {
    match input
    case SendInput(body) => e.outgoingUnackMsg + [Entry(Frame(REGULAR, e.outgoingMsgId + 1, e.incomingAckId, body), now)]
    case ReceiveInput(frame) => Unacknowledged(e.outgoingUnackMsg, frame.ack)
    case _ => e.outgoingUnackMsg
  }

  lemma StepQueue(e: Endpoint, input: Input, now: int)
    ensures Step(e, input, now).state.outgoingUnackMsg == QueueAfter(e, input, now)
  {
  }

  lemma SendFollows(e: Endpoint, inputs: History, input: Input, now: int)
    requires input.SendInput? && e.outgoingMsgId == Sends(inputs) && e.incomingAckId == LastArrived(inputs)
    requires QueueFollows(e.outgoingUnackMsg, inputs)
    ensures QueueFollows(QueueAfter(e, input, now), inputs + [(input, now)])
  {
    hide Sends, LastArrived;
    var more := inputs + [(input, now)];
    var queue := QueueAfter(e, input, now);
    var n := |inputs|;
    assert more[..n] == inputs && SentAt(more, n) && KeptAt(more, n) == queue[|queue| - 1];
    forall p: nat | SentAt(more, p)
      ensures KeptAt(more, p) in queue <==> !AnsweredAt(more, p)
    {
      if p < n {
        assert SentAt(inputs, p);
        OneInputMore(inputs, input, now, p);
        SendsGrow(inputs, p, n);
        assert inputs[..n] == inputs;
        assert KeptAt(more, p) != queue[|queue| - 1];
      }
    }
    forall k | 0 <= k < |queue|
      ensures WasSent(queue[k], more)
    {
      if k < |queue| - 1 {
        var p: nat :| SentAt(inputs, p) && KeptAt(inputs, p) == e.outgoingUnackMsg[k];
        OneInputMore(inputs, input, now, p);
      }
    }
  }

  /** An input that sends nothing. */
  lemma OtherFollows(e: Endpoint, inputs: History, input: Input, now: int)
    requires !input.SendInput? && Contiguous(e) && QueueFollows(e.outgoingUnackMsg, inputs)
    ensures QueueFollows(QueueAfter(e, input, now), inputs + [(input, now)])
  {
    hide Sends, LastArrived, Contiguous, Unacknowledged;
    var more := inputs + [(input, now)];
    var queue := QueueAfter(e, input, now);
    forall p: nat | SentAt(more, p)
      ensures KeptAt(more, p) in queue <==> !AnsweredAt(more, p)
    {
      assert SentAt(inputs, p);
      OneInputMore(inputs, input, now, p);
      if input.ReceiveInput? {
        LeftInQueue(e, input.frame.ack, KeptAt(inputs, p));
      }
    }
    forall k | 0 <= k < |queue|
      ensures WasSent(queue[k], more)
    {
      if input.ReceiveInput? {
        LeftInQueue(e, input.frame.ack, queue[k]);
      }
      var n :| 0 <= n < |e.outgoingUnackMsg| && e.outgoingUnackMsg[n] == queue[k];
      var p: nat :| SentAt(inputs, p) && KeptAt(inputs, p) == e.outgoingUnackMsg[n];
      OneInputMore(inputs, input, now, p);
    }
  }

  /** Over every run a message is kept, as it was sent, exactly until a later frame acknowledges its number or a higher one. */
  lemma {:induction false} QueuedExactlyWhen(options: Options, start: int, inputs: History)
    ensures QueueFollows(RunInputs(Initial(options, start), inputs).outgoingUnackMsg, inputs)
    decreases |inputs|
  {
    if inputs != [] {
      var (input, now) := inputs[|inputs| - 1];
      var front := inputs[..|inputs| - 1];
      LastInput(inputs);
      RunOneMore(Initial(options, start), front, input, now);
      QueuedExactlyWhen(options, start, front);
      RunRemembers(options, start, front);
      RunKeepsAccounts(Initial(options, start), front);
      var e := RunInputs(Initial(options, start), front);
      StepQueue(e, input, now);
      hide RunInputs, RunWritten, Step, QueueFollows, QueueAfter, Sends, LastArrived;
      if input.SendInput? {
        SendFollows(e, front, input, now);
      } else {
        OtherFollows(e, front, input, now);
      }
    }
  }

  /** The first message sent that no later frame acknowledges. */
  ghost predicate Oldest(inputs: History, p: nat) {
    SentAt(inputs, p) && !AnsweredAt(inputs, p) && forall q: nat :: q < p && SentAt(inputs, q) ==> AnsweredAt(inputs, q)
  }

  lemma OldestIsFirst(e: Endpoint, inputs: History, p: nat)
    requires Contiguous(e) && QueueFollows(e.outgoingUnackMsg, inputs)
    requires Oldest(inputs, p)
    ensures e.outgoingUnackMsg != [] && e.outgoingUnackMsg[0] == KeptAt(inputs, p)
  {
    var queue := e.outgoingUnackMsg;
    var k :| 0 <= k < |queue| && queue[k] == KeptAt(inputs, p);
    if k > 0 {
      var q: nat :| SentAt(inputs, q) && KeptAt(inputs, q) == queue[0];
      if p < q {
        SendsGrow(inputs, p, q);
      }
    }
  }

  lemma FirstIsOldest(e: Endpoint, inputs: History) returns (p: nat)
    requires Contiguous(e) && QueueFollows(e.outgoingUnackMsg, inputs) && e.outgoingUnackMsg != []
    ensures Oldest(inputs, p) && e.outgoingUnackMsg[0] == KeptAt(inputs, p)
  {
    var queue := e.outgoingUnackMsg;
    assert WasSent(queue[0], inputs);
    p :| SentAt(inputs, p) && KeptAt(inputs, p) == queue[0];
    forall q: nat | q < p && SentAt(inputs, q)
      ensures AnsweredAt(inputs, q)
    {
      SendsGrow(inputs, q, p);
      assert KeptAt(inputs, q) !in queue;
    }
  }

  // ---------------------------------------------------------------------------------------------
  // What the next input writes and fires
  // ---------------------------------------------------------------------------------------------

  /** No Disconnect frame was written yet. */
  predicate Ongoing(options: Options, start: int, inputs: History) {
    Disconnects(RunWritten(Initial(options, start), inputs)) == 0
  }

  /** What every run leaves behind, for the step that follows it. */
  lemma AfterRun(options: Options, start: int, inputs: History) returns (e: Endpoint)
    ensures e == RunInputs(Initial(options, start), inputs) && e.options == options
    ensures Remembers(e, start, inputs) && Accounted(e) && QueueFollows(e.outgoingUnackMsg, inputs)
    ensures Ongoing(options, start, inputs) <==> !e.overflowed
  {
    e := RunInputs(Initial(options, start), inputs);
    RunRemembers(options, start, inputs);
    RunKeepsAccounts(Initial(options, start), inputs);
    QueuedExactlyWhen(options, start, inputs);
    AbandonedOnce(options, start, inputs);
  }

  /**
   * A message is written under the next number with the latest acknowledgement. If what is queued then passes the cap
   * for the first time, a Disconnect frame follows it and Close is fired; below the cap passing the high mark saturates.
   */
  lemma SendAfterRun(options: Options, start: int, inputs: History, body: Bytes, now: int)
    ensures var e := RunInputs(Initial(options, start), inputs);
            var total := TotalBytes(e.outgoingUnackMsg) + |body|;
            var abandons := total > options.replayBufferMax && Ongoing(options, start, inputs);
            var saturates := options.highWaterMark < total <= options.replayBufferMax && |FlowEvents(e.events)| % 2 == 0;
            var next := Step(e, SendInput(body), now);
            && next.written == [Frame(REGULAR, Sends(inputs) + 1, LastArrived(inputs), body)]
                               + (if abandons then [Frame(DISCONNECT, 0, LastArrived(inputs), [])] else [])
            && next.state.events == e.events + (if abandons then [Close] else []) + (if saturates then [Saturated] else [])
  {
    var e := AfterRun(options, start, inputs);
    hide RunInputs, TotalBytes, QueueFollows, Contiguous, FlowEvents, Sends, LastArrived, LastHeard, Ongoing;
    assert e.events + [] == e.events;
  }

  ghost predicate Unanswered(inputs: History) {
    exists p: nat :: Oldest(inputs, p)
  }

  /** The oldest unacknowledged message was sent more than `grace` ago. */
  ghost predicate WaitsLongerThan(inputs: History, now: int, grace: int) {
    exists p: nat :: Oldest(inputs, p) && now - inputs[p].1 > grace
  }

  lemma OldestWaits(e: Endpoint, inputs: History, now: int, grace: int)
    requires Contiguous(e) && QueueFollows(e.outgoingUnackMsg, inputs)
    ensures Unanswered(inputs) <==> e.outgoingUnackMsg != []
    ensures WaitsLongerThan(inputs, now, grace) <==> e.outgoingUnackMsg != [] && now - e.outgoingUnackMsg[0].queuedAt > grace
  {
    if e.outgoingUnackMsg != [] {
      var p := FirstIsOldest(e, inputs);
    }
    forall p: nat | Oldest(inputs, p)
      ensures e.outgoingUnackMsg != [] && e.outgoingUnackMsg[0] == KeptAt(inputs, p)
    {
      OldestIsFirst(e, inputs, p);
    }
  }

  /**
   * The timer: with a message unacknowledged and nothing heard for twenty seconds the socket counts as closed; when
   * the oldest such message has waited longer than the grace, the session is abandoned as above.
   */
  lemma CheckAfterRun(options: Options, start: int, inputs: History, now: int)
    ensures var e := RunInputs(Initial(options, start), inputs);
            var closes := Unanswered(inputs) && now - LastHeard(start, inputs) > 20_000;
            var abandons := WaitsLongerThan(inputs, now, options.replayBufferGrace) && Ongoing(options, start, inputs);
            var next := Step(e, CheckInput, now);
            && next.written == (if abandons then [Frame(DISCONNECT, 0, LastArrived(inputs), [])] else [])
            && next.state.events == e.events + (if closes then [SocketClose] else []) + (if abandons then [Close] else [])
  {
    var e := AfterRun(options, start, inputs);
    OldestWaits(e, inputs, now, options.replayBufferGrace);
    hide RunInputs, QueueFollows, Contiguous, FlowEvents, LastArrived, LastHeard, Ongoing, Unanswered, WaitsLongerThan;
    assert e.events + [] == e.events;
  }

  /**
   * A frame writes nothing. Acknowledging enough of a saturated queue drains it, and then a message is fired with its
   * body, a Disconnect as Close.
   */
  lemma ReceiveAfterRun(options: Options, start: int, inputs: History, frame: Frame, now: int)
    ensures var e := RunInputs(Initial(options, start), inputs);
            var next := Step(e, ReceiveInput(frame), now);
            var drains := |FlowEvents(e.events)| % 2 == 1 && TotalBytes(next.state.outgoingUnackMsg) <= options.lowWaterMark;
            && next.written == []
            && next.state.events
               == e.events + (if drains then [Drained] else [])
                  + (if frame.kind == REGULAR then [Message(frame.data)] else if frame.kind == DISCONNECT then [Close] else [])
  {
    var e := AfterRun(options, start, inputs);
    hide RunInputs, QueueFollows, Contiguous, FlowEvents, LastArrived, LastHeard, Ongoing, Unacknowledged, TotalBytes;
    assert e.events + [] == e.events;
  }

  /** A keep-alive carries the latest acknowledgement; a new socket gets the queue, oldest first. Neither fires anything. */
  lemma OthersAfterRun(options: Options, start: int, inputs: History, now: int)
    ensures var e := RunInputs(Initial(options, start), inputs);
            && Step(e, KeepAliveInput, now) == Outcome(e, [Frame(KEEP_ALIVE, 0, LastArrived(inputs), [])])
            && Step(e, ReplaceInput, now).state == e && |Step(e, ReplaceInput, now).written| == |e.outgoingUnackMsg|
            && forall k :: 0 <= k < |e.outgoingUnackMsg| ==> Step(e, ReplaceInput, now).written[k] == e.outgoingUnackMsg[k].msg
  {
    RunRemembers(options, start, inputs);
  }
}
