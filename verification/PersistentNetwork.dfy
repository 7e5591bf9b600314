/** Two persistent endpoints and every run of them. */
module PersistentNetwork {
  // The endpoints are joined by a growing list of connections. Each endpoint sits on one connection, writes to it
  // and reads from it, and moves to a later one whenever its socket is replaced; whatever it had not read on the
  // connection it left is lost.

  import opened Buffers
  import opened Framing
  import opened Outcomes
  import opened Persistence
  import opened Counting

  /** An endpoint, its connection, the bodies it was asked to send and the numbers it has fired. */
  datatype Party = Party(ep: Endpoint, conn: nat, sent: seq<Bytes>, fired: seq<nat>)

  /** For each connection, the frames on their way in one direction. */
  type Lanes = seq<seq<Frame>>

  datatype Net = Net(left: Party, right: Party, toLeft: Lanes, toRight: Lanes)

  datatype Side = Left | Right

  datatype Action =
    | Local(input: Input)
    | Replace(conn: nat)
    | Deliver
    | Connect

  datatype NetStep = NetStep(side: Side, action: Action, now: int)

  function Start(left: Options, right: Options, now: int): Net {
    Net(Party(Initial(left, now), 0, [], []), Party(Initial(right, now), 0, [], []), [[]], [[]])
  }

  /** The same network seen from the other end. */
  function Swap(net: Net): Net {
    Net(net.right, net.left, net.toRight, net.toLeft)
  }

  function Write(lanes: Lanes, conn: nat, frames: seq<Frame>): (written: Lanes)
    requires conn < |lanes|
    ensures |written| == |lanes|
    ensures forall c :: 0 <= c < |lanes| ==> written[c] == if c == conn then lanes[c] + frames else lanes[c]
  {
    lanes[conn := lanes[conn] + frames]
  }

  predicate Enabled(net: Net, action: Action) {
    && net.left.conn < |net.toLeft| == |net.toRight|
    && match action
       case Local(input) => input.SendInput? || input.CheckInput? || input.KeepAliveInput?
       case Replace(conn) => net.left.conn < conn < |net.toLeft|
       case Deliver => net.toLeft[net.left.conn] != []
       case Connect => true
  }

  function AfterLocal(me: Party, input: Input, now: int): Party {
    me.(ep := Step(me.ep, input, now).state, sent := if input.SendInput? then me.sent + [input.body] else me.sent)
  }

  function AfterDeliver(me: Party, frame: Frame, now: int): Party {
    me.(ep := Receive(me.ep, Wire(frame), now),
        fired := if frame.kind == REGULAR then me.fired + [frame.id] else me.fired)
  }

  /** A step of the left endpoint. */
  function Act(net: Net, action: Action, now: int): Net
    requires Enabled(net, action)
  {
    var me := net.left;
    match action
    case Local(input) =>
      net.(left := AfterLocal(me, input, now),
           toRight := Write(net.toRight, me.conn, Step(me.ep, input, now).written))
    case Replace(conn) =>
      net.(left := me.(conn := conn),
           toRight := Write(net.toRight, conn, Step(me.ep, ReplaceInput, now).written))
    case Deliver =>
      var lane := net.toLeft[me.conn];
      net.(left := AfterDeliver(me, lane[0], now), toLeft := net.toLeft[me.conn := lane[1..]])
    case Connect =>
      net.(toLeft := net.toLeft + [[]], toRight := net.toRight + [[]])
  }

  predicate CanStep(net: Net, step: NetStep) {
    Enabled(if step.side.Left? then net else Swap(net), step.action)
  }

  function Next(net: Net, step: NetStep): Net
    requires CanStep(net, step)
  {
    if step.side.Left? then Act(net, step.action, step.now) else Swap(Act(Swap(net), step.action, step.now))
  }

  /** The state after a run, if every step of it was possible. */
  function Execute(net: Net, steps: seq<NetStep>): Option<Net>
    decreases |steps|
  {
    if steps == [] then Some(net)
    else if CanStep(net, steps[0]) then Execute(Next(net, steps[0]), steps[1..])
    else None
  }

  // ---------------------------------------------------------------------------------------------
  // Numbers in flight
  // ---------------------------------------------------------------------------------------------

  function Max(a: nat, b: nat): nat {
    if a < b then b else a
  }

  /** Starting from `top`, no number runs more than one ahead of all earlier ones. */
  predicate Steady(top: nat, ids: seq<nat>)
    decreases |ids|
  {
    ids == [] || (1 <= ids[0] <= top + 1 && Steady(Max(top, ids[0]), ids[1..]))
  }

  function Top(top: nat, ids: seq<nat>): nat
    decreases |ids|
  {
    if ids == [] then top else Top(Max(top, ids[0]), ids[1..])
  }

  /** A sequence with repeats removed, keeping first occurrences. */
  function Firsts(ids: seq<nat>): seq<nat> {
    if ids == [] then []
    else
      var firsts := Firsts(ids[..|ids| - 1]);
      if ids[|ids| - 1] in firsts then firsts else firsts + [ids[|ids| - 1]]
  }

  function RegularIds(frames: seq<Frame>): seq<nat> {
    if frames == [] then []
    else (if frames[0].kind == REGULAR then [frames[0].id] else []) + RegularIds(frames[1..])
  }

  function Bodies(events: seq<Event>): seq<Bytes> {
    if events == [] then []
    else
      var last := events[|events| - 1];
      Bodies(events[..|events| - 1]) + (if last.Message? then [last.body] else [])
  }

  lemma {:induction false} SteadyAppend(top: nat, front: seq<nat>, back: seq<nat>)
    ensures Steady(top, front + back) <==> Steady(top, front) && Steady(Top(top, front), back)
    ensures Top(top, front + back) == Top(Top(top, front), back)
    decreases |front|
  {
    if front == [] {
      assert front + back == back;
    } else {
      assert (front + back)[1..] == front[1..] + back;
      SteadyAppend(Max(top, front[0]), front[1..], back);
    }
  }

  lemma {:induction false} SteadyGrows(low: nat, high: nat, ids: seq<nat>)
    requires low <= high
    ensures Steady(low, ids) ==> Steady(high, ids)
    ensures Top(high, ids) == Max(high, Top(low, ids)) && low <= Top(low, ids)
    decreases |ids|
  {
    if ids != [] {
      SteadyGrows(Max(low, ids[0]), Max(high, ids[0]), ids[1..]);
    }
  }

  lemma {:induction false} RegularAppend(front: seq<Frame>, back: seq<Frame>)
    ensures RegularIds(front + back) == RegularIds(front) + RegularIds(back)
  {
    if front == [] {
      assert front + back == back;
    } else {
      assert (front + back)[1..] == front[1..] + back;
      RegularAppend(front[1..], back);
      var head := if front[0].kind == REGULAR then [front[0].id] else [];
      assert head + (RegularIds(front[1..]) + RegularIds(back)) == head + RegularIds(front[1..]) + RegularIds(back);
    }
  }

  /** Numbers that never skip ahead arrive, repeats removed, as 1, 2, 3, ... */
  lemma {:induction false} SteadyCounts(ids: seq<nat>)
    requires Steady(0, ids)
    ensures Firsts(ids) == UpTo(Top(0, ids))
    decreases |ids|
  {
    if ids != [] {
      var front, last := ids[..|ids| - 1], ids[|ids| - 1];
      assert ids == front + [last];
      SteadyAppend(0, front, [last]);
      SteadyCounts(front);
      LastStep(Top(0, front), last);
      hide Steady, Top, UpTo;
      InUpTo(Top(0, front), last);
    }
  }

  lemma InUpTo(n: nat, k: nat)
    ensures k in UpTo(n) <==> 1 <= k <= n
    ensures UpTo(n + 1) == UpTo(n) + [n + 1]
  {
    if 1 <= k <= n {
      assert UpTo(n)[k - 1] == k;
    }
  }

  lemma LastStep(top: nat, last: nat)
    ensures Steady(top, [last]) <==> 1 <= last <= top + 1
    ensures Top(top, [last]) == Max(top, last)
  {
  }

  /** A replayed queue: consecutive numbers from just after `low` on. */
  lemma {:induction false} ReplaySteady(e: Endpoint, from: nat, top: nat)
    requires Contiguous(e) && from <= |e.outgoingUnackMsg|
    requires e.outgoingMsgId - |e.outgoingUnackMsg| + from <= top <= e.outgoingMsgId
    ensures Steady(top, RegularIds(Messages(e.outgoingUnackMsg)[from..]))
    ensures Top(top, RegularIds(Messages(e.outgoingUnackMsg)[from..])) == e.outgoingMsgId
    ensures from < |e.outgoingUnackMsg| ==>
              var ids := RegularIds(Messages(e.outgoingUnackMsg)[from..]);
              ids != [] && ids[|ids| - 1] == e.outgoingMsgId
    decreases |e.outgoingUnackMsg| - from
  {
    var messages := Messages(e.outgoingUnackMsg);
    if from < |messages| {
      assert messages[from..][1..] == messages[from + 1..];
      ReplaySteady(e, from + 1, Max(top, messages[from].id));
    }
  }

  // ---------------------------------------------------------------------------------------------
  // The invariant, for the traffic from left to right
  // ---------------------------------------------------------------------------------------------

  ghost predicate Sender(p: Party) {
    && Accounted(p.ep)
    && |p.sent| == p.ep.outgoingMsgId
    && forall k :: 0 <= k < |p.ep.outgoingUnackMsg| ==>
         p.ep.outgoingUnackMsg[k].msg.data == p.sent[p.ep.outgoingUnackMsg[k].msg.id - 1]
  }

  /** Frames on their way to a peer that has fired everything up to `top`. */
  ghost predicate Carried(sent: seq<Bytes>, top: nat, frames: seq<Frame>) {
    && Steady(top, RegularIds(frames))
    && forall f :: f in frames && f.kind == REGULAR ==> 1 <= f.id <= |sent| && f.data == sent[f.id - 1]
  }

  ghost predicate AcksAtMost(top: nat, frames: seq<Frame>) {
    forall f :: f in frames ==> f.ack <= top
  }

  ghost predicate FiredBodies(sent: seq<Bytes>, fired: seq<nat>, bodies: seq<Bytes>) {
    && |bodies| == |fired|
    && forall k :: 0 <= k < |fired| ==> 1 <= fired[k] <= |sent| && bodies[k] == sent[fired[k] - 1]
  }

  /** Nothing is lost between a sender and a receiver. */
  ghost predicate FlowInv(s: Party, r: Party, out: Lanes) {
    var top := Top(0, r.fired);
    && s.conn < |out|
    && Sender(s)
    && Steady(0, r.fired)
    && FiredBodies(s.sent, r.fired, Bodies(r.ep.events))
    && |s.sent| - |s.ep.outgoingUnackMsg| <= top <= |s.sent|
    && (forall c :: 0 <= c < |out| ==> Carried(s.sent, top, out[c]))
    && Top(top, RegularIds(out[s.conn])) == |s.sent|
  }

  /** No acknowledgement on its way back exceeds what the receiver has fired. */
  ghost predicate AckInv(r: Party, back: Lanes) {
    var top := Top(0, r.fired);
    && r.ep.incomingAckId <= top
    && AcksAtMost(top, Messages(r.ep.outgoingUnackMsg))
    && (forall c :: 0 <= c < |back| ==> AcksAtMost(top, back[c]))
  }

  /** A queue that is not empty will be acknowledged: its last number is in flight or just received. */
  ghost predicate TailInv(s: Party, r: Party, out: Lanes) {
    s.conn < |out| && s.ep.outgoingUnackMsg != [] ==>
      var ids := RegularIds(out[s.conn]);
      && (ids != [] ==> ids[|ids| - 1] == |s.sent|)
      && (ids == [] ==> s.conn <= r.conn)
      && (ids == [] && s.conn == r.conn ==> r.ep.incomingAckId == |s.sent| % TWO_32)
  }

  ghost predicate DirInv(s: Party, r: Party, out: Lanes, back: Lanes) {
    FlowInv(s, r, out) && AckInv(r, back) && TailInv(s, r, out)
  }

  ghost predicate Inv(net: Net) {
    && DirInv(net.left, net.right, net.toRight, net.toLeft)
    && DirInv(net.right, net.left, net.toLeft, net.toRight)
  }

  lemma BodiesAppend(events: seq<Event>, event: Event)
    ensures Bodies(events + [event]) == Bodies(events) + (if event.Message? then [event.body] else [])
  {
    assert (events + [event])[..|events|] == events;
  }

  lemma AbandonBodies(e: Endpoint)
    ensures Bodies(AbandonSession(e).state.events) == Bodies(e.events)
  {
    BodiesAppend(e.events, Close);
  }

  lemma SendBodies(e: Endpoint, body: Bytes, now: int)
    ensures Bodies(Send(e, body, now).state.events) == Bodies(e.events)
  {
    BodiesAppend(e.events, Saturated);
    var msg := Frame(REGULAR, e.outgoingMsgId + 1, e.incomingAckId, body);
    AbandonBodies(e.(outgoingMsgId := e.outgoingMsgId + 1,
                     outgoingUnackMsg := e.outgoingUnackMsg + [Entry(msg, now)],
                     unackBytes := e.unackBytes + |body|));
    hide Bodies, AbandonSession;
  }

  lemma CheckBodies(e: Endpoint, now: int)
    ensures Bodies(CheckAcks(e, now).state.events) == Bodies(e.events)
  {
    BodiesAppend(e.events, SocketClose);
    AbandonBodies(e.(events := e.events + [SocketClose]));
    AbandonBodies(e);
    hide Bodies, AbandonSession;
  }

  lemma LocalBodies(e: Endpoint, input: Input, now: int)
    requires input.SendInput? || input.CheckInput? || input.KeepAliveInput?
    ensures Bodies(Step(e, input, now).state.events) == Bodies(e.events)
  {
    match input
    case SendInput(body) => SendBodies(e, body, now);
    case CheckInput => CheckBodies(e, now);
    case KeepAliveInput =>
  }

  /** Only a Regular frame fires a body, and it fires its own. */
  lemma ReceiveBodies(e: Endpoint, frame: Frame, now: int)
    ensures Bodies(Receive(e, frame, now).events)
            == Bodies(e.events) + (if frame.kind == REGULAR then [frame.data] else [])
  {
    BodiesAppend(e.events, Drained);
    var acked := ProcessAck(e, frame.ack);
    assert Bodies(acked.events) == Bodies(e.events);
    hide ProcessAck;
    BodiesAppend(acked.events, Close);
    BodiesAppend(acked.events, Message(frame.data));
  }

  // ---------------------------------------------------------------------------------------------
  // Every step keeps it: the left endpoint acts, as sender and as receiver
  // ---------------------------------------------------------------------------------------------

  /** What a local step writes, and what it leaves alone. */
  lemma LocalWrites(e: Endpoint, input: Input, now: int)
    requires input.SendInput? || input.CheckInput? || input.KeepAliveInput?
    ensures var outcome := Step(e, input, now);
            && outcome.state.incomingAckId == e.incomingAckId
            && RegularIds(outcome.written) == (if input.SendInput? then [e.outgoingMsgId + 1] else [])
            && (forall f :: f in outcome.written ==> f.ack == e.incomingAckId)
            && (forall f :: f in outcome.written && f.kind == REGULAR ==>
                  input.SendInput? && f.id == e.outgoingMsgId + 1 && f.data == input.body)
            && outcome.state.outgoingMsgId == e.outgoingMsgId + (if input.SendInput? then 1 else 0)
            && outcome.state.outgoingUnackMsg == e.outgoingUnackMsg
               + (if input.SendInput? then [Entry(Frame(REGULAR, e.outgoingMsgId + 1, e.incomingAckId, input.body), now)] else [])
  {
    match input
    case SendInput(body) => SendWrites(e, body, now);
    case CheckInput => assert RegularIds([Control(e, DISCONNECT)]) == [];
    case KeepAliveInput => assert RegularIds([Control(e, KEEP_ALIVE)]) == [];
  }

  lemma SendWrites(e: Endpoint, body: Bytes, now: int)
    ensures var outcome, msg := Send(e, body, now), Frame(REGULAR, e.outgoingMsgId + 1, e.incomingAckId, body);
            && outcome.state.incomingAckId == e.incomingAckId && outcome.state.outgoingMsgId == e.outgoingMsgId + 1
            && (outcome.written == [msg] || outcome.written == [msg] + [Control(e, DISCONNECT)])
            && RegularIds(outcome.written) == [msg.id]
            && outcome.state.outgoingUnackMsg == e.outgoingUnackMsg + [Entry(msg, now)]
  {
    var end := [Control(e, DISCONNECT)];
    var msg := Frame(REGULAR, e.outgoingMsgId + 1, e.incomingAckId, body);
    RegularAppend([msg], end);
    assert RegularIds(end) == [] && RegularIds([msg]) == [msg.id];
    hide RegularIds;
  }

  lemma CarriedAppend(sent: seq<Bytes>, more: seq<Bytes>, top: nat, frames: seq<Frame>, written: seq<Frame>)
    requires Carried(sent, top, frames)
    requires Steady(Top(top, RegularIds(frames)), RegularIds(written))
    requires forall f :: f in written && f.kind == REGULAR ==> 1 <= f.id <= |sent + more| && f.data == (sent + more)[f.id - 1]
    ensures Carried(sent + more, top, frames + written)
  {
    RegularAppend(frames, written);
    SteadyAppend(top, RegularIds(frames), RegularIds(written));
  }

  lemma LocalKeepsQueue(s: Party, input: Input, now: int)
    requires Sender(s) && (input.SendInput? || input.CheckInput? || input.KeepAliveInput?)
    ensures Sender(AfterLocal(s, input, now))
  {
    StepKeepsAccounts(s.ep, input, now);
    LocalWrites(s.ep, input, now);
    hide Step, TotalBytes, FlowEvents, Alternates, RegularIds;
    var queue, more := s.ep.outgoingUnackMsg, AfterLocal(s, input, now);
    assert Contiguous(s.ep) && Contiguous(more.ep);
    forall k | 0 <= k < |more.ep.outgoingUnackMsg|
      ensures more.ep.outgoingUnackMsg[k].msg.data == more.sent[more.ep.outgoingUnackMsg[k].msg.id - 1]
    {
      assert k < |queue| ==> more.ep.outgoingUnackMsg[k] == queue[k];
    }
  }

  lemma WriteKeepsCarrying(s: Party, r: Party, out: Lanes, more: seq<Bytes>, conn: nat, written: seq<Frame>)
    requires FlowInv(s, r, out) && conn < |out|
    requires Steady(Top(Top(0, r.fired), RegularIds(out[conn])), RegularIds(written))
    requires forall f :: f in written && f.kind == REGULAR ==>
               1 <= f.id <= |s.sent + more| && f.data == (s.sent + more)[f.id - 1]
    ensures forall c :: 0 <= c < |out| ==> Carried(s.sent + more, Top(0, r.fired), Write(out, conn, written)[c])
  {
    forall c | 0 <= c < |out| ensures Carried(s.sent + more, Top(0, r.fired), Write(out, conn, written)[c]) {
      RegularNone();
      assert out[c] + [] == out[c];
      CarriedAppend(s.sent, more, Top(0, r.fired), out[c], if c == conn then written else []);
    }
  }

  lemma RegularNone()
    ensures RegularIds([]) == []
  {
  }

  lemma FiredMore(sent: seq<Bytes>, more: seq<Bytes>, fired: seq<nat>, bodies: seq<Bytes>)
    requires FiredBodies(sent, fired, bodies)
    ensures FiredBodies(sent + more, fired, bodies)
  {
  }

  /** One number, or none, after those that bring the top to `top`. */
  lemma TopOfOne(top: nat, id: nat)
    ensures Steady(top, []) && Top(top, []) == top
    ensures Steady(top, [id]) <==> 1 <= id <= top + 1
    ensures Top(top, [id]) == Max(top, id)
  {
    assert [id][1..] == [];
  }

  lemma LocalKeepsFlow(s: Party, r: Party, out: Lanes, input: Input, now: int)
    requires FlowInv(s, r, out) && (input.SendInput? || input.CheckInput? || input.KeepAliveInput?)
    ensures FlowInv(AfterLocal(s, input, now), r, Write(out, s.conn, Step(s.ep, input, now).written))
  {
    hide Step, Top, Steady, RegularIds, Carried, Bodies;
    var top, ids, written := Top(0, r.fired), RegularIds(out[s.conn]), Step(s.ep, input, now).written;
    TopOfOne(Top(top, ids), s.ep.outgoingMsgId + 1);
    var more: seq<Bytes> := if input.SendInput? then [input.body] else [];
    LocalWrites(s.ep, input, now);
    LocalKeepsQueue(s, input, now);
    FiredMore(s.sent, more, r.fired, Bodies(r.ep.events));
    WriteKeepsCarrying(s, r, out, more, s.conn, written);
    assert s.sent + [] == s.sent;
    RegularAppend(out[s.conn], written);
    SteadyAppend(top, ids, RegularIds(written));
    hide Accounted, FiredBodies;
  }

  lemma LocalKeepsTail(s: Party, r: Party, out: Lanes, input: Input, now: int)
    requires FlowInv(s, r, out) && TailInv(s, r, out)
    requires input.SendInput? || input.CheckInput? || input.KeepAliveInput?
    ensures TailInv(AfterLocal(s, input, now), r, Write(out, s.conn, Step(s.ep, input, now).written))
  {
    hide Step, RegularIds, Accounted, Carried, Steady, FiredBodies, Bodies, Top;
    LocalWrites(s.ep, input, now);
    RegularAppend(out[s.conn], Step(s.ep, input, now).written);
  }

  lemma RegularCons(frames: seq<Frame>)
    requires frames != []
    ensures frames[0].kind == REGULAR ==>
              RegularIds(frames) != [] && RegularIds(frames)[0] == frames[0].id && RegularIds(frames)[1..] == RegularIds(frames[1..])
    ensures frames[0].kind != REGULAR ==> RegularIds(frames) == RegularIds(frames[1..])
  {
  }

  lemma {:induction false} CarriedTop(sent: seq<Bytes>, top: nat, frames: seq<Frame>)
    requires Carried(sent, top, frames) && top <= |sent|
    ensures top <= Top(top, RegularIds(frames)) <= |sent|
    decreases |frames|
  {
    if frames != [] {
      RegularCons(frames);
      assert frames[0] in frames;
      CarriedTop(sent, if frames[0].kind == REGULAR then Max(top, frames[0].id) else top, frames[1..]);
    }
  }

  lemma ReplaceKeeps(s: Party, r: Party, out: Lanes, conn: nat)
    requires FlowInv(s, r, out) && conn < |out|
    ensures FlowInv(s.(conn := conn), r, Write(out, conn, Messages(s.ep.outgoingUnackMsg)))
    ensures TailInv(s.(conn := conn), r, Write(out, conn, Messages(s.ep.outgoingUnackMsg)))
  {
    hide Messages, Sender, Top, Steady, RegularIds, Carried, Bodies, FiredBodies, Contiguous;
    var messages := Messages(s.ep.outgoingUnackMsg);
    ReplaySteadies(s, Top(0, r.fired), out[conn]);
    ReplayCarried(s);
    MovedSender(s, conn);
    WriteKeepsCarrying(s, r, out, [], conn, messages);
    assert s.sent + [] == s.sent;
  }

  lemma MovedSender(s: Party, conn: nat)
    requires Sender(s)
    ensures Sender(s.(conn := conn))
  {
  }

  /** The replay behind whatever is on the connection brings the receiver up to the last number. */
  lemma ReplaySteadies(s: Party, top: nat, frames: seq<Frame>)
    requires Sender(s) && Carried(s.sent, top, frames) && |s.sent| - |s.ep.outgoingUnackMsg| <= top <= |s.sent|
    ensures var messages := Messages(s.ep.outgoingUnackMsg);
            var ids := RegularIds(frames + messages);
            && Steady(Top(top, RegularIds(frames)), RegularIds(messages)) && Top(top, ids) == |s.sent|
            && (messages != [] ==> ids != [] && ids[|ids| - 1] == |s.sent|)
  {
    var messages := Messages(s.ep.outgoingUnackMsg);
    CarriedTop(s.sent, top, frames);
    ReplaySteady(s.ep, 0, Top(top, RegularIds(frames)));
    assert messages[0..] == messages;
    RegularAppend(frames, messages);
    SteadyAppend(top, RegularIds(frames), RegularIds(messages));
    hide Messages, Carried, Steady, RegularIds;
  }

  lemma ReplayCarried(s: Party)
    requires Sender(s)
    ensures forall f :: f in Messages(s.ep.outgoingUnackMsg) ==> 1 <= f.id <= |s.sent| && f.data == s.sent[f.id - 1]
  {
  }

  lemma WireFacts(frame: Frame)
    ensures var wire := Wire(frame);
            && wire.kind == frame.kind && wire.data == frame.data
            && wire.ack <= frame.ack && wire.id <= frame.id && wire.id == frame.id % TWO_32
  {
  }

  /** The parts of a delivery the invariants speak of. */
  lemma DeliverFacts(p: Party, frame: Frame, now: int)
    ensures var next := AfterDeliver(p, frame, now);
            && next.ep.outgoingMsgId == p.ep.outgoingMsgId
            && next.ep.outgoingUnackMsg == Unacknowledged(p.ep.outgoingUnackMsg, Wire(frame).ack)
            && next.ep.incomingAckId == (if frame.kind == REGULAR then Wire(frame).id else p.ep.incomingAckId)
            && Bodies(next.ep.events) == Bodies(p.ep.events) + (if frame.kind == REGULAR then [frame.data] else [])
            && (Accounted(p.ep) ==> Accounted(next.ep))
  {
    hide Accounted, Bodies, Unacknowledged, TotalBytes, Wire;
    if Accounted(p.ep) {
      ReceiveKeepsAccounts(p.ep, Wire(frame), now);
    }
    ReceiveBodies(p.ep, Wire(frame), now);
    WireFacts(frame);
  }

  /** Reading an acknowledgement never removes what the peer has not fired. */
  lemma ReceiveKeepsQueue(s: Party, frame: Frame, top: nat, now: int)
    requires Sender(s) && frame.ack <= top && |s.sent| - |s.ep.outgoingUnackMsg| <= top
    ensures var next := AfterDeliver(s, frame, now);
            && Sender(next)
            && |next.sent| - |next.ep.outgoingUnackMsg| <= top
            && (next.ep.outgoingUnackMsg != [] ==> s.ep.outgoingUnackMsg != [])
  {
    hide Accounted, TotalBytes, Unacknowledged, Receive, Wire, Bodies, Contiguous;
    DeliverFacts(s, frame, now);
    WireFacts(frame);
    AckedSuffix(s, Wire(frame).ack, top);
  }

  /** What an acknowledgement up to `top` leaves in the queue. */
  lemma AckedSuffix(s: Party, ack: nat, top: nat)
    requires Sender(s) && ack <= top && |s.sent| - |s.ep.outgoingUnackMsg| <= top
    ensures var left := Unacknowledged(s.ep.outgoingUnackMsg, ack);
            && |s.sent| - |left| <= top && (left != [] ==> s.ep.outgoingUnackMsg != [])
            && forall k :: 0 <= k < |left| ==> 1 <= left[k].msg.id <= |s.sent| && left[k].msg.data == s.sent[left[k].msg.id - 1]
  {
    SenderQueue(s);
    hide Sender, Unacknowledged, TotalBytes, QueueOf;
    UnacknowledgedIsSuffix(s.ep.outgoingUnackMsg, ack);
    SuffixOfQueue(s.sent, s.ep.outgoingUnackMsg, Unacknowledged(s.ep.outgoingUnackMsg, ack), ack);
  }

  /** The queue holds the last messages sent. */
  predicate QueueOf(sent: seq<Bytes>, queue: seq<Entry>) {
    && |queue| <= |sent|
    && forall k :: 0 <= k < |queue| ==> queue[k].msg.id == |sent| - |queue| + k + 1 && queue[k].msg.data == sent[|sent| - |queue| + k]
  }

  lemma SenderQueue(s: Party)
    requires Sender(s)
    ensures QueueOf(s.sent, s.ep.outgoingUnackMsg)
  {
    hide TotalBytes, FlowEvents, Alternates;
  }

  lemma SuffixOfQueue(sent: seq<Bytes>, queue: seq<Entry>, left: seq<Entry>, ack: nat)
    requires QueueOf(sent, queue) && |left| <= |queue| && left == queue[|queue| - |left|..]
    requires forall k :: 0 <= k < |queue| - |left| ==> queue[k].msg.id <= ack
    ensures |left| < |queue| ==> |sent| - |left| <= ack
    ensures forall k :: 0 <= k < |left| ==> 1 <= left[k].msg.id <= |sent| && left[k].msg.data == sent[left[k].msg.id - 1]
  {
    hide QueueOf;
    var dropped := |queue| - |left|;
    if 0 < dropped {
      EntryAt(sent, queue, dropped - 1);
    }
    forall k | 0 <= k < |left|
      ensures 1 <= left[k].msg.id <= |sent| && left[k].msg.data == sent[left[k].msg.id - 1]
    {
      assert left[k] == queue[dropped + k];
      EntryAt(sent, queue, dropped + k);
    }
  }

  lemma EntryAt(sent: seq<Bytes>, queue: seq<Entry>, k: nat)
    requires QueueOf(sent, queue) && k < |queue|
    ensures |queue| <= |sent| && queue[k].msg.id == |sent| - |queue| + k + 1 && queue[k].msg.data == sent[queue[k].msg.id - 1]
  {
  }

  lemma DeliverKeepsSender(s: Party, r: Party, out: Lanes, frame: Frame, now: int)
    requires FlowInv(s, r, out) && TailInv(s, r, out) && frame.ack <= Top(0, r.fired)
    ensures FlowInv(AfterDeliver(s, frame, now), r, out) && TailInv(AfterDeliver(s, frame, now), r, out)
  {
    ReceiveKeepsQueue(s, frame, Top(0, r.fired), now);
    hide Receive, Carried, Steady, FiredBodies, RegularIds, Accounted;
  }

  lemma ConnectKeeps(s: Party, r: Party, out: Lanes, back: Lanes)
    requires DirInv(s, r, out, back)
    ensures DirInv(s, r, out + [[]], back + [[]])
  {
    RegularNone();
    hide RegularIds, FiredBodies, Accounted;
  }

  // ---------------------------------------------------------------------------------------------
  // Every step keeps it: the receiver's side
  // ---------------------------------------------------------------------------------------------

  lemma LocalKeepsReceiver(s: Party, r: Party, out: Lanes, back: Lanes, input: Input, now: int)
    requires DirInv(s, r, out, back) && r.conn < |back|
    requires input.SendInput? || input.CheckInput? || input.KeepAliveInput?
    ensures DirInv(s, AfterLocal(r, input, now), out, Write(back, r.conn, Step(r.ep, input, now).written))
  {
    hide Step, FlowInv, TailInv, Top, AcksAtMost, Messages;
    LocalIsNoReceipt(s, r, out, input, now);
    LocalAcks(r.ep, input, now, Top(0, r.fired));
    AcksWritten(back, r.conn, Step(r.ep, input, now).written, Top(0, r.fired));
  }

  /** The acknowledgements a local step queues and writes are the endpoint's own. */
  lemma LocalAcks(e: Endpoint, input: Input, now: int, top: nat)
    requires e.incomingAckId <= top && AcksAtMost(top, Messages(e.outgoingUnackMsg))
    requires input.SendInput? || input.CheckInput? || input.KeepAliveInput?
    ensures var outcome := Step(e, input, now);
            && outcome.state.incomingAckId == e.incomingAckId
            && AcksAtMost(top, Messages(outcome.state.outgoingUnackMsg)) && AcksAtMost(top, outcome.written)
  {
    LocalWrites(e, input, now);
    hide Step, RegularIds;
    var queue, next := e.outgoingUnackMsg, Step(e, input, now).state.outgoingUnackMsg;
    forall f | f in Messages(next) ensures f.ack <= top {
      var k :| 0 <= k < |next| && f == next[k].msg;
      assert k < |queue| ==> f == Messages(queue)[k];
    }
  }

  lemma AcksWritten(back: Lanes, conn: nat, written: seq<Frame>, top: nat)
    requires conn < |back| && AcksAtMost(top, written) && forall c :: 0 <= c < |back| ==> AcksAtMost(top, back[c])
    ensures forall c :: 0 <= c < |back| ==> AcksAtMost(top, Write(back, conn, written)[c])
  {
  }

  /** A local step of the receiver changes nothing the sender's flow depends on. */
  lemma LocalIsNoReceipt(s: Party, r: Party, out: Lanes, input: Input, now: int)
    requires FlowInv(s, r, out) && TailInv(s, r, out)
    requires input.SendInput? || input.CheckInput? || input.KeepAliveInput?
    ensures FlowInv(s, AfterLocal(r, input, now), out) && TailInv(s, AfterLocal(r, input, now), out)
  {
    LocalBodies(r.ep, input, now);
    LocalWrites(r.ep, input, now);
    hide Step, Sender, Carried, Steady, FiredBodies, RegularIds, Bodies, Top;
  }

  lemma ReplaceKeepsReceiver(s: Party, r: Party, out: Lanes, back: Lanes, conn: nat)
    requires DirInv(s, r, out, back) && r.conn < conn < |back|
    ensures DirInv(s, r.(conn := conn), out, Write(back, conn, Messages(r.ep.outgoingUnackMsg)))
  {
    hide Sender, Carried, Steady, FiredBodies, RegularIds, Bodies;
  }

  /** What a delivery does to one lane: its own loses the head, the others gain room. */
  lemma DeliverCarried(sent: seq<Bytes>, top: nat, frames: seq<Frame>, frame: Frame, head: bool)
    requires Carried(sent, top, frames) && top <= |sent|
    requires head ==> frames != [] && frame == frames[0]
    ensures var now := if frame.kind == REGULAR then Max(top, frame.id) else top;
            var rest := if head then frames[1..] else frames;
            && Carried(sent, now, rest)
            && Top(now, RegularIds(rest)) == (if head then Top(top, RegularIds(frames)) else Max(now, Top(top, RegularIds(frames))))
  {
    var now := if frame.kind == REGULAR then Max(top, frame.id) else top;
    if head {
      RegularCons(frames);
    } else {
      SteadyGrows(top, now, RegularIds(frames));
    }
  }

  lemma FiredAppend(sent: seq<Bytes>, fired: seq<nat>, bodies: seq<Bytes>, id: nat, body: Bytes)
    requires FiredBodies(sent, fired, bodies) && 1 <= id <= |sent| && body == sent[id - 1]
    ensures FiredBodies(sent, fired + [id], bodies + [body])
  {
  }

  /** The number fired next is at most one ahead, and carries the body sent under it. */
  lemma DeliverFires(sent: seq<Bytes>, r: Party, frames: seq<Frame>, now: int)
    requires Steady(0, r.fired) && FiredBodies(sent, r.fired, Bodies(r.ep.events))
    requires Carried(sent, Top(0, r.fired), frames) && frames != []
    ensures var next := AfterDeliver(r, frames[0], now);
            && Steady(0, next.fired) && FiredBodies(sent, next.fired, Bodies(next.ep.events))
            && Top(0, next.fired) == (if frames[0].kind == REGULAR then Max(Top(0, r.fired), frames[0].id) else Top(0, r.fired))
            && (frames[0].kind == REGULAR ==> frames[0].id <= |sent|)
  {
    hide Receive, RegularIds, Unacknowledged, Accounted, Wire, Steady, Top, Bodies, FiredBodies, Max;
    var top, frame := Top(0, r.fired), frames[0];
    assert frame in frames;
    DeliverFacts(r, frame, now);
    RegularCons(frames);
    FirstIsNext(top, RegularIds(frames));
    SteadyAppend(0, r.fired, [frame.id]);
    LastStep(top, frame.id);
    if frame.kind == REGULAR {
      FiredAppend(sent, r.fired, Bodies(r.ep.events), frame.id, frame.data);
    } else {
      assert Bodies(r.ep.events) + [] == Bodies(r.ep.events);
    }
  }

  lemma FirstIsNext(top: nat, ids: seq<nat>)
    requires Steady(top, ids)
    ensures ids != [] ==> 1 <= ids[0] <= top + 1
  {
  }

  lemma DeliverKeepsFlow(s: Party, r: Party, out: Lanes, now: int)
    requires FlowInv(s, r, out) && r.conn < |out| && out[r.conn] != []
    ensures FlowInv(s, AfterDeliver(r, out[r.conn][0], now), out[r.conn := out[r.conn][1..]])
  {
    hide AfterDeliver, Carried, Sender, RegularIds, Steady, FiredBodies, Bodies, Top;
    var top, frame := Top(0, r.fired), out[r.conn][0];
    DeliverFires(s.sent, r, out[r.conn], now);
    DeliverLanes(s.sent, top, out, r.conn, s.conn);
  }

  /** Every lane after the head of one was taken, and what the peer's lane will bring. */
  lemma DeliverLanes(sent: seq<Bytes>, top: nat, out: Lanes, conn: nat, watched: nat)
    requires conn < |out| && watched < |out| && out[conn] != [] && top <= |sent|
    requires forall c :: 0 <= c < |out| ==> Carried(sent, top, out[c])
    requires Top(top, RegularIds(out[watched])) == |sent|
    requires out[conn][0].kind == REGULAR ==> out[conn][0].id <= |sent|
    ensures var frame, lanes := out[conn][0], out[conn := out[conn][1..]];
            var now := if frame.kind == REGULAR then Max(top, frame.id) else top;
            && (forall c :: 0 <= c < |out| ==> Carried(sent, now, lanes[c]))
            && Top(now, RegularIds(lanes[watched])) == |sent|
  {
    var frame, lanes := out[conn][0], out[conn := out[conn][1..]];
    var now := if frame.kind == REGULAR then Max(top, frame.id) else top;
    hide Carried, RegularIds, Top;
    forall c | 0 <= c < |out|
      ensures Carried(sent, now, lanes[c])
    {
      DeliverCarried(sent, top, out[c], frame, c == conn);
    }
    DeliverCarried(sent, top, out[watched], frame, watched == conn);
  }

  lemma AckedQueue(queue: seq<Entry>, ack: nat, top: nat)
    requires AcksAtMost(top, Messages(queue))
    ensures AcksAtMost(top, Messages(Unacknowledged(queue, ack)))
  {
    UnacknowledgedIsSuffix(queue, ack);
    var left := Unacknowledged(queue, ack);
    hide Unacknowledged, TotalBytes;
    forall f | f in Messages(left) ensures f.ack <= top {
      var k :| 0 <= k < |left| && f == left[k].msg;
      assert f == Messages(queue)[|queue| - |left| + k];
    }
  }

  lemma DeliverKeepsAcks(s: Party, r: Party, out: Lanes, back: Lanes, now: int)
    requires FlowInv(s, r, out) && AckInv(r, back) && r.conn < |out| && out[r.conn] != []
    ensures AckInv(AfterDeliver(r, out[r.conn][0], now), back)
  {
    hide Carried, Steady, FiredBodies, Unacknowledged, AfterDeliver, Wire, Accounted, Bodies, Top, Messages, Sender, AcksAtMost;
    var frame := out[r.conn][0];
    var next := AfterDeliver(r, frame, now);
    DeliverFires(s.sent, r, out[r.conn], now);
    hide FlowInv;
    DeliverFacts(r, frame, now);
    WireFacts(frame);
    AckedQueue(r.ep.outgoingUnackMsg, Wire(frame).ack, Top(0, r.fired));
    AcksStay(Messages(next.ep.outgoingUnackMsg), Top(0, r.fired), Top(0, next.fired));
    forall c | 0 <= c < |back|
      ensures AcksAtMost(Top(0, next.fired), back[c])
    {
      AcksStay(back[c], Top(0, r.fired), Top(0, next.fired));
    }
  }

  lemma AcksStay(frames: seq<Frame>, low: nat, high: nat)
    requires AcksAtMost(low, frames) && low <= high
    ensures AcksAtMost(high, frames)
  {
  }

  lemma DeliverKeepsTail(s: Party, r: Party, out: Lanes, now: int)
    requires TailInv(s, r, out) && r.conn < |out| && out[r.conn] != []
    ensures TailInv(s, AfterDeliver(r, out[r.conn][0], now), out[r.conn := out[r.conn][1..]])
  {
    DeliverFacts(r, out[r.conn][0], now);
    WireFacts(out[r.conn][0]);
    RegularCons(out[r.conn]);
    hide Receive, Wire, RegularIds, Unacknowledged, Accounted, Bodies;
  }

  lemma ActKeepsSender(net: Net, action: Action, now: int)
    requires Inv(net) && Enabled(net, action)
    ensures var next := Act(net, action, now); DirInv(next.left, next.right, next.toRight, next.toLeft)
  {
    var s, r, out, back := net.left, net.right, net.toRight, net.toLeft;
    hide FlowInv, TailInv, Sender, AfterLocal, AfterDeliver;
    match action
    case Local(input) =>
      LocalKeepsFlow(s, r, out, input, now);
      LocalKeepsTail(s, r, out, input, now);
    case Replace(conn) =>
      ReplaceKeeps(s, r, out, conn);
    case Deliver =>
      assert back[s.conn][0] in back[s.conn];
      DeliverKeepsSender(s, r, out, back[s.conn][0], now);
    case Connect => ConnectKeeps(s, r, out, back);
  }

  lemma ActKeepsReceiver(net: Net, action: Action, now: int)
    requires Inv(net) && Enabled(net, action)
    ensures var next := Act(net, action, now); DirInv(next.right, next.left, next.toLeft, next.toRight)
  {
    var s, r, out, back := net.right, net.left, net.toLeft, net.toRight;
    hide FlowInv, TailInv, AckInv, AfterLocal, AfterDeliver, Wire;
    match action
    case Local(input) => LocalKeepsReceiver(s, r, out, back, input, now);
    case Replace(conn) => ReplaceKeepsReceiver(s, r, out, back, conn);
    case Deliver =>
      DeliverKeepsFlow(s, r, out, now);
      DeliverKeepsAcks(s, r, out, back, now);
      DeliverKeepsTail(s, r, out, now);
    case Connect => ConnectKeeps(s, r, out, back);
  }

  lemma NextKeepsInv(net: Net, step: NetStep)
    requires Inv(net) && CanStep(net, step)
    ensures Inv(Next(net, step))
  {
    var view := if step.side.Left? then net else Swap(net);
    ActKeepsSender(view, step.action, step.now);
    ActKeepsReceiver(view, step.action, step.now);
    hide DirInv, Act;
  }

  lemma {:induction false} ExecuteKeepsInv(net: Net, steps: seq<NetStep>)
    requires Inv(net) && Execute(net, steps).Some?
    ensures Inv(Execute(net, steps).value)
    decreases |steps|
  {
    if steps != [] {
      NextKeepsInv(net, steps[0]);
      ExecuteKeepsInv(Next(net, steps[0]), steps[1..]);
    }
  }

  lemma StartInv(left: Options, right: Options, now: int)
    ensures Inv(Start(left, right, now))
  {
  }

  // ---------------------------------------------------------------------------------------------
  // The theorems
  // ---------------------------------------------------------------------------------------------

  /** The bodies first fired by an endpoint, in order. */
  function FirstBodies(sent: seq<Bytes>, fired: seq<nat>): seq<Bytes>
    requires forall id :: id in Firsts(fired) ==> 1 <= id <= |sent|
  {
    seq(|Firsts(fired)|, k requires 0 <= k < |Firsts(fired)| =>
      assert Firsts(fired)[k] in Firsts(fired); sent[Firsts(fired)[k] - 1])
  }

  /** What one endpoint has received of what the other was asked to send. */
  ghost predicate InOrderPrefix(s: Party, r: Party) {
    var top := Top(0, r.fired);
    && top <= |s.sent|
    && Firsts(r.fired) == UpTo(top)
    && FirstBodies(s.sent, r.fired) == s.sent[..top]
    && FiredBodies(s.sent, r.fired, Bodies(r.ep.events))
    && (forall id :: top < id <= |s.sent| ==> Queued(s, id))
  }

  /** Message `id` is still in the replay queue, with the body it was sent with. */
  ghost predicate Queued(s: Party, id: nat) {
    exists k :: 0 <= k < |s.ep.outgoingUnackMsg| && s.ep.outgoingUnackMsg[k].msg.id == id
      && 1 <= id <= |s.sent| && s.ep.outgoingUnackMsg[k].msg.data == s.sent[id - 1]
  }

  lemma FlowIsPrefix(s: Party, r: Party, out: Lanes)
    requires FlowInv(s, r, out)
    ensures InOrderPrefix(s, r)
  {
    hide Carried, Steady, Top, Firsts, FiredBodies, Bodies, RegularIds, Queued, Accounted;
    SteadyCounts(r.fired);
    assert FirstBodies(s.sent, r.fired) == s.sent[..Top(0, r.fired)];
    forall id | Top(0, r.fired) < id <= |s.sent|
      ensures Queued(s, id)
    {
      UnfiredIsQueued(s, id);
    }
  }

  lemma UnfiredIsQueued(s: Party, id: nat)
    requires Sender(s) && |s.sent| - |s.ep.outgoingUnackMsg| < id <= |s.sent|
    ensures Queued(s, id)
  {
    var k := id - 1 - (|s.sent| - |s.ep.outgoingUnackMsg|);
    assert Contiguous(s.ep) && s.ep.outgoingUnackMsg[k].msg.id == id;
  }

  /**
   * Over every run of two endpoints, with any number of socket replacements: the bodies each has
   * fired, repeats removed, are a prefix of the bodies the other was asked to send, and every
   * message not yet fired is still queued for replay. There is no bound on the number of messages.
   */
  lemma EveryRunDeliversInOrder(left: Options, right: Options, start: int, steps: seq<NetStep>)
    requires Execute(Start(left, right, start), steps).Some?
    ensures var net := Execute(Start(left, right, start), steps).value;
            InOrderPrefix(net.left, net.right) && InOrderPrefix(net.right, net.left)
  {
    StartInv(left, right, start);
    ExecuteKeepsInv(Start(left, right, start), steps);
    var net := Execute(Start(left, right, start), steps).value;
    FlowIsPrefix(net.left, net.right, net.toRight);
    FlowIsPrefix(net.right, net.left, net.toLeft);
  }

  ghost predicate Reachable(net: Net) {
    exists left, right, start, steps :: Execute(Start(left, right, start), steps) == Some(net)
  }

  lemma ReachableInv(net: Net)
    requires Reachable(net)
    ensures Inv(net)
  {
    var left, right, start, steps :| Execute(Start(left, right, start), steps) == Some(net);
    StartInv(left, right, start);
    ExecuteKeepsInv(Start(left, right, start), steps);
  }

  /** When both ends share a connection with no message in flight on it, everything sent has been fired. */
  lemma QuietLinkDeliveredAll(net: Net)
    requires Reachable(net) && net.left.conn == net.right.conn < |net.toRight|
    requires RegularIds(net.toRight[net.left.conn]) == []
    ensures Firsts(net.right.fired) == UpTo(|net.left.sent|)
    ensures InOrderPrefix(net.left, net.right) && FirstBodies(net.left.sent, net.right.fired) == net.left.sent
  {
    ReachableInv(net);
    FlowIsPrefix(net.left, net.right, net.toRight);
  }

  /**
   * On such a link the next frame of the receiver, a keep-alive say, empties the sender's replay
   * queue exactly when fewer than 2^32 messages were sent: from then on the 32-bit acknowledgement
   * never reaches the queued numbers.
   */
  lemma QuietLinkReleasesExactlyWhen(net: Net, now: int)
    requires Reachable(net) && net.left.conn == net.right.conn < |net.toRight|
    requires RegularIds(net.toRight[net.left.conn]) == [] && net.left.ep.outgoingUnackMsg != []
    ensures var frame := Step(net.right.ep, KeepAliveInput, now).written[0];
            AfterDeliver(net.left, frame, now).ep.outgoingUnackMsg == [] <==> |net.left.sent| < TWO_32
  {
    var s, r := net.left, net.right;
    ReachableInv(net);
    assert FlowInv(s, r, net.toRight) && TailInv(s, r, net.toRight);
    assert Contiguous(s.ep) && |s.sent| == s.ep.outgoingMsgId;
    assert r.ep.incomingAckId == |s.sent| % TWO_32;
    hide Inv, FlowInv, TailInv, Accounted, Bodies, RegularIds;
    var frame := Step(r.ep, KeepAliveInput, now).written[0];
    assert Wire(frame).ack == |s.sent| % TWO_32;
    DeliverFacts(s, frame, now);
    ReleasedWhen(s.ep, Wire(frame).ack);
  }

  lemma ReleasedWhen(e: Endpoint, ack: nat)
    requires Contiguous(e) && e.outgoingUnackMsg != []
    ensures Unacknowledged(e.outgoingUnackMsg, ack) == [] <==> e.outgoingMsgId <= ack
  {
    var queue := e.outgoingUnackMsg;
    var left := Unacknowledged(queue, ack);
    UnacknowledgedIsSuffix(queue, ack);
    hide Unacknowledged, TotalBytes;
    assert queue[|queue| - 1].msg.id == e.outgoingMsgId;
    assert left != [] ==> left[0] == queue[|queue| - |left|];
  }
}
