/** The two persistent endpoints over octets: from chunks that arrive to bodies that are fired. */
module OctetNetwork {
  // A connection carries octets. They arrive in portions of any size, and each endpoint reads frames out of what has
  // arrived on its connection; a replaced socket takes its unread rest along. Every run is one of PersistentNetwork.

  import opened Buffers
  import opened Framing
  import opened Outcomes
  import opened Persistence
  import N = PersistentNetwork

  /** An endpoint, its connection, the bodies it was asked to send, and the octets of an unfinished frame. */
  datatype End = End(ep: Endpoint, conn: nat, sent: seq<Bytes>, kept: Bytes)

  /** For each connection, the octets on their way in one direction. */
  datatype Net = Net(left: End, right: End, toLeft: seq<Bytes>, toRight: seq<Bytes>)

  datatype Move =
    | Local(input: Input)
    | Replace(conn: nat)
    | Arrive(count: nat)
    | Connect

  datatype Step = Step(side: N.Side, move: Move, now: int)

  function Start(left: Options, right: Options, now: int): Net {
    Net(End(Initial(left, now), 0, [], []), End(Initial(right, now), 0, [], []), [[]], [[]])
  }

  function Swap(net: Net): Net {
    Net(net.right, net.left, net.toRight, net.toLeft)
  }

  /** A body whose length does not fit the 32-bit length field cannot be framed. */
  predicate Possible(net: Net, move: Move) {
    && net.left.conn < |net.toLeft| == |net.toRight|
    && match move
       case Local(input) => (input.SendInput? && |input.body| < TWO_32) || input.CheckInput? || input.KeepAliveInput?
       case Replace(conn) => net.left.conn < conn < |net.toLeft|
       case Arrive(count) => count <= |net.toLeft[net.left.conn]|
       case Connect => true
  }

  function Write(lanes: seq<Bytes>, conn: nat, frames: seq<Frame>): (written: seq<Bytes>)
    requires conn < |lanes|
    ensures |written| == |lanes|
    ensures forall c :: 0 <= c < |lanes| ==> written[c] == if c == conn then lanes[c] + EncodeAll(frames) else lanes[c]
  {
    lanes[conn := lanes[conn] + EncodeAll(frames)]
  }

  /** A move of the left endpoint. */
  function Act(net: Net, move: Move, now: int): Net
    requires Possible(net, move)
  {
    var me := net.left;
    match move
    case Local(input) =>
      var outcome := Persistence.Step(me.ep, input, now);
      net.(left := me.(ep := outcome.state, sent := if input.SendInput? then me.sent + [input.body] else me.sent),
           toRight := Write(net.toRight, me.conn, outcome.written))
    case Replace(conn) =>
      net.(left := me.(conn := conn, kept := []),
           toRight := Write(net.toRight, conn, Persistence.Step(me.ep, ReplaceInput, now).written))
    case Arrive(count) =>
      var lane := net.toLeft[me.conn];
      var (frames, kept) := Drain(me.kept + lane[..count]);
      net.(left := me.(ep := ReceiveAll(me.ep, frames, now), kept := kept), toLeft := net.toLeft[me.conn := lane[count..]])
    case Connect => net.(toLeft := net.toLeft + [[]], toRight := net.toRight + [[]])
  }

  predicate CanStep(net: Net, step: Step) {
    Possible(if step.side.Left? then net else Swap(net), step.move)
  }

  function Next(net: Net, step: Step): Net
    requires CanStep(net, step)
  {
    if step.side.Left? then Act(net, step.move, step.now) else Swap(Act(Swap(net), step.move, step.now))
  }

  function Execute(net: Net, steps: seq<Step>): Option<Net>
    decreases |steps|
  {
    if steps == [] then Some(net)
    else if CanStep(net, steps[0]) then Execute(Next(net, steps[0]), steps[1..])
    else None
  }

  // ---------------------------------------------------------------------------------------------
  // The run of frames behind a run of octets
  // ---------------------------------------------------------------------------------------------

  function Repeat(step: N.NetStep, n: nat): (steps: seq<N.NetStep>) {
    if n == 0 then [] else [step] + Repeat(step, n - 1)
  }

  /** What a move of the left endpoint does to whole frames: an arrival delivers those it completes. */
  function FrameSteps(net: Net, move: Move, now: int): seq<N.NetStep>
    requires Possible(net, move)
  {
    match move
    case Local(input) => [N.NetStep(N.Left, N.Local(input), now)]
    case Replace(conn) => [N.NetStep(N.Left, N.Replace(conn), now)]
    case Arrive(count) =>
      Repeat(N.NetStep(N.Left, N.Deliver, now), |Drain(net.left.kept + net.toLeft[net.left.conn][..count]).0|)
    case Connect => [N.NetStep(N.Left, N.Connect, now)]
  }

  function Flip(steps: seq<N.NetStep>): (flipped: seq<N.NetStep>) {
    if steps == [] then [] else [steps[0].(side := if steps[0].side.Left? then N.Right else N.Left)] + Flip(steps[1..])
  }

  function StepFrames(net: Net, step: Step): seq<N.NetStep>
    requires CanStep(net, step)
  {
    if step.side.Left? then FrameSteps(net, step.move, step.now) else Flip(FrameSteps(Swap(net), step.move, step.now))
  }

  function RunFrames(net: Net, steps: seq<Step>): seq<N.NetStep>
    decreases |steps|
  {
    if steps == [] || !CanStep(net, steps[0]) then []
    else StepFrames(net, steps[0]) + RunFrames(Next(net, steps[0]), steps[1..])
  }

  /** The same endpoint, seen with the numbers it has fired. */
  predicate SameEnd(e: End, p: N.Party) {
    e.ep == p.ep && e.conn == p.conn && e.sent == p.sent
  }

  ghost predicate AllSendable(frames: seq<Frame>) {
    forall f :: f in frames ==> Sendable(f)
  }

  /** On its connection and on later ones, what is kept and on its way are the frames not yet delivered. */
  ghost predicate Carries(kept: Bytes, conn: nat, octets: seq<Bytes>, frames: N.Lanes) {
    && conn < |octets| == |frames| && ParseFrame(kept).None?
    && (forall c :: conn <= c < |frames| ==> (if c == conn then kept + octets[c] else octets[c]) == EncodeAll(frames[c]))
    && (forall c :: 0 <= c < |frames| ==> AllSendable(frames[c]))
  }

  ghost predicate Matches(net: Net, frames: N.Net) {
    && SameEnd(net.left, frames.left) && SameEnd(net.right, frames.right)
    && |net.toLeft| == |net.toRight|
    && Carries(net.left.kept, net.left.conn, net.toLeft, frames.toLeft)
    && Carries(net.right.kept, net.right.conn, net.toRight, frames.toRight)
    && AllSendable(Messages(net.left.ep.outgoingUnackMsg)) && AllSendable(Messages(net.right.ep.outgoingUnackMsg))
  }

  lemma {:induction false} EncodeConcat(front: seq<Frame>, back: seq<Frame>)
    ensures EncodeAll(front + back) == EncodeAll(front) + EncodeAll(back)
  {
    hide EncodeFrame;
    if front == [] {
      assert front + back == back;
    } else {
      assert (front + back)[1..] == front[1..] + back;
      EncodeConcat(front[1..], back);
      var head := EncodeFrame(front[0]);
      assert head + (EncodeAll(front[1..]) + EncodeAll(back)) == head + EncodeAll(front[1..]) + EncodeAll(back);
    }
  }

  lemma {:induction false} ExecuteConcat(net: N.Net, front: seq<N.NetStep>, back: seq<N.NetStep>)
    requires N.Execute(net, front).Some?
    ensures N.Execute(net, front + back) == N.Execute(N.Execute(net, front).value, back)
    decreases |front|
  {
    if front == [] {
      assert front + back == back;
    } else {
      assert (front + back)[1..] == front[1..] + back;
      ExecuteConcat(N.Next(net, front[0]), front[1..], back);
    }
  }

  function SwapSome(net: Option<N.Net>): Option<N.Net> {
    match net
    case None => None
    case Some(n) => Some(N.Swap(n))
  }

  lemma {:induction false} FlippedRun(net: N.Net, steps: seq<N.NetStep>)
    ensures N.Execute(N.Swap(net), Flip(steps)) == SwapSome(N.Execute(net, steps))
    decreases |steps|
  {
    if steps != [] {
      var flipped := Flip(steps);
      assert flipped[1..] == Flip(steps[1..]);
      assert N.Swap(N.Swap(net)) == net;
      assert N.CanStep(N.Swap(net), flipped[0]) <==> N.CanStep(net, steps[0]);
      if N.CanStep(net, steps[0]) {
        assert N.Next(N.Swap(net), flipped[0]) == N.Swap(N.Next(net, steps[0]));
        FlippedRun(N.Next(net, steps[0]), steps[1..]);
      }
    }
  }

  // ---------------------------------------------------------------------------------------------
  // Every move of the left endpoint keeps the two views in step
  // ---------------------------------------------------------------------------------------------

  lemma SendableConcat(a: seq<Frame>, b: seq<Frame>)
    requires AllSendable(a) && AllSendable(b)
    ensures AllSendable(a + b)
  {
  }

  /** Frames written to one connection. */
  lemma WriteCarries(kept: Bytes, conn: nat, octets: seq<Bytes>, frames: N.Lanes, at: nat, written: seq<Frame>)
    requires Carries(kept, conn, octets, frames) && at < |frames| && AllSendable(written)
    ensures Carries(kept, conn, Write(octets, at, written), N.Write(frames, at, written))
  {
    hide EncodeAll, ParseFrame, AllSendable;
    EncodeConcat(frames[at], written);
    SendableConcat(frames[at], written);
    var more, lanes := Write(octets, at, written), N.Write(frames, at, written);
    forall c | conn <= c < |frames|
      ensures (if c == conn then kept + more[c] else more[c]) == EncodeAll(lanes[c])
    {
      assert kept + (octets[at] + EncodeAll(written)) == kept + octets[at] + EncodeAll(written);
    }
  }

  /** A later connection, nothing of which was read yet. */
  lemma LaterCarries(kept: Bytes, conn: nat, octets: seq<Bytes>, frames: N.Lanes, later: nat)
    requires Carries(kept, conn, octets, frames) && conn < later < |frames|
    ensures Carries([], later, octets, frames)
  {
    assert ParseFrame([]).None?;
    assert [] + octets[later] == octets[later];
    hide EncodeAll, ParseFrame, AllSendable;
  }

  lemma ConnectCarries(kept: Bytes, conn: nat, octets: seq<Bytes>, frames: N.Lanes)
    requires Carries(kept, conn, octets, frames)
    ensures Carries(kept, conn, octets + [[]], frames + [[]])
  {
    assert EncodeAll([]) == [];
    hide EncodeAll, ParseFrame;
  }

  /** What arrives completes some frames and leaves the others to come. */
  lemma ArriveCarries(kept: Bytes, conn: nat, octets: seq<Bytes>, frames: N.Lanes, count: nat)
    requires Carries(kept, conn, octets, frames) && count <= |octets[conn]|
    ensures var (read, left) := Drain(kept + octets[conn][..count]);
            && |read| <= |frames[conn]| && read == WireAll(frames[conn][..|read|])
            && Carries(left, conn, octets[conn := octets[conn][count..]], frames[conn := frames[conn][|read|..]])
  {
    hide EncodeAll, ParseFrame, Drain;
    ArriveInLane(kept, octets[conn], frames[conn], count);
    var (read, left) := Drain(kept + octets[conn][..count]);
    assert AllSendable(frames[conn][|read|..]);
  }

  /** The same for the octets and frames of one connection. */
  lemma ArriveInLane(kept: Bytes, octets: Bytes, lane: seq<Frame>, count: nat)
    requires kept + octets == EncodeAll(lane) && AllSendable(lane) && count <= |octets|
    ensures var (read, left) := Drain(kept + octets[..count]);
            && |read| <= |lane| && read == WireAll(lane[..|read|]) && ParseFrame(left).None?
            && left + octets[count..] == EncodeAll(lane[|read|..])
  {
    hide Drain, Complete, ParseFrame, EncodeAll;
    var arrived, rest := kept + octets[..count], octets[count..];
    Arrived(kept, octets, count);
    DrainStream(lane, |arrived|);
    var (read, left) := Drain(arrived);
    var done := Complete(lane, |arrived|);
    EncodeConcat(lane[..done], lane[done..]);
    assert lane[..done] + lane[done..] == lane;
    Remainder(EncodeAll(lane[..done]), left, rest, EncodeAll(lane[done..]));
  }

  lemma Arrived(kept: Bytes, octets: Bytes, count: nat)
    requires count <= |octets|
    ensures var arrived := kept + octets[..count];
            kept + octets == arrived + octets[count..] && (kept + octets)[..|arrived|] == arrived
  {
  }

  lemma Remainder(done: Bytes, left: Bytes, rest: Bytes, ahead: Bytes)
    requires done + ahead == done + left + rest
    ensures left + rest == ahead
  {
    assert (done + ahead)[|done|..] == ahead;
    assert (done + left + rest)[|done|..] == left + rest;
  }

  /** Delivering the first frames of the left endpoint's connection, one after the other. */
  lemma {:induction false} DeliverMany(net: N.Net, n: nat, now: int)
    requires net.left.conn < |net.toLeft| == |net.toRight| && n <= |net.toLeft[net.left.conn]|
    ensures var lane := net.toLeft[net.left.conn];
            var after := N.Execute(net, Repeat(N.NetStep(N.Left, N.Deliver, now), n));
            && after.Some?
            && after.value.left.ep == ReceiveAll(net.left.ep, WireAll(lane[..n]), now)
            && after.value.left.conn == net.left.conn && after.value.left.sent == net.left.sent
            && after.value == net.(left := after.value.left, toLeft := net.toLeft[net.left.conn := lane[n..]])
    decreases n
  {
    hide Receive, Wire;
    var lane := net.toLeft[net.left.conn];
    if n == 0 {
      assert lane[..0] == [] && lane[0..] == lane && net.toLeft[net.left.conn := lane] == net.toLeft;
    } else {
      var step := N.NetStep(N.Left, N.Deliver, now);
      var steps := Repeat(step, n);
      assert steps[0] == step && steps[1..] == Repeat(step, n - 1);
      var next := N.Next(net, step);
      var rest := next.toLeft[next.left.conn];
      DeliverMany(next, n - 1, now);
      assert rest == lane[1..] && rest[n - 1..] == lane[n..];
      assert WireAll(lane[..n])[1..] == WireAll(rest[..n - 1]);
      assert next.left.ep == Receive(net.left.ep, WireAll(lane[..n])[0], now);
      assert next.toLeft[net.left.conn := lane[n..]] == net.toLeft[net.left.conn := lane[n..]];
    }
  }

  lemma StepKeepsSendable(e: Endpoint, input: Input, now: int)
    requires AllSendable(Messages(e.outgoingUnackMsg))
    requires (input.SendInput? && |input.body| < TWO_32) || input.CheckInput? || input.KeepAliveInput? || input.ReplaceInput?
    ensures AllSendable(Persistence.Step(e, input, now).written)
    ensures AllSendable(Messages(Persistence.Step(e, input, now).state.outgoingUnackMsg))
  {
    var queue, next := e.outgoingUnackMsg, Persistence.Step(e, input, now).state.outgoingUnackMsg;
    forall f | f in Messages(next)
      ensures Sendable(f)
    {
      var k :| 0 <= k < |next| && f == next[k].msg;
      assert k < |queue| ==> f == Messages(queue)[k];
    }
  }

  lemma {:induction false} ReceivingKeepsSendable(e: Endpoint, frames: seq<Frame>, now: int)
    requires AllSendable(Messages(e.outgoingUnackMsg))
    ensures AllSendable(Messages(ReceiveAll(e, frames, now).outgoingUnackMsg))
    decreases |frames|
  {
    if frames != [] {
      hide Receive, AllSendable;
      OneKeepsSendable(e, frames[0], now);
      ReceivingKeepsSendable(Receive(e, frames[0], now), frames[1..], now);
    }
  }

  lemma OneKeepsSendable(e: Endpoint, frame: Frame, now: int)
    requires AllSendable(Messages(e.outgoingUnackMsg))
    ensures AllSendable(Messages(Receive(e, frame, now).outgoingUnackMsg))
  {
    UnacknowledgedIsSuffix(e.outgoingUnackMsg, frame.ack);
    var queue, left := e.outgoingUnackMsg, Unacknowledged(e.outgoingUnackMsg, frame.ack);
    assert Receive(e, frame, now).outgoingUnackMsg == left;
    hide Receive, Unacknowledged, TotalBytes;
    forall f | f in Messages(left)
      ensures Sendable(f)
    {
      var k :| 0 <= k < |left| && f == left[k].msg;
      assert f == Messages(queue)[|queue| - |left| + k];
    }
  }

  lemma OneStep(net: N.Net, step: N.NetStep)
    ensures N.Execute(net, [step]) == if N.CanStep(net, step) then Some(N.Next(net, step)) else None
  {
    assert [step][1..] == [];
  }

  ghost predicate Reaches(frames: N.Net, steps: seq<N.NetStep>, net: Net) {
    N.Execute(frames, steps).Some? && Matches(net, N.Execute(frames, steps).value)
  }

  lemma ActMatches(net: Net, frames: N.Net, move: Move, now: int)
    requires Matches(net, frames) && Possible(net, move)
    ensures Reaches(frames, FrameSteps(net, move, now), Act(net, move, now))
  {
    hide Carries, AllSendable, Persistence.Step;
    match move
    case Local(input) => LocalMatches(net, frames, input, now);
    case Replace(conn) => ReplaceMatches(net, frames, conn, now);
    case Arrive(count) => ArriveMatches(net, frames, count, now);
    case Connect =>
      CarriesSizes(net.left.kept, net.left.conn, net.toLeft, frames.toLeft);
      CarriesSizes(net.right.kept, net.right.conn, net.toRight, frames.toRight);
      OneStep(frames, N.NetStep(N.Left, N.Connect, now));
      ConnectCarries(net.left.kept, net.left.conn, net.toLeft, frames.toLeft);
      ConnectCarries(net.right.kept, net.right.conn, net.toRight, frames.toRight);
  }

  lemma CarriesSizes(kept: Bytes, conn: nat, octets: seq<Bytes>, frames: N.Lanes)
    requires Carries(kept, conn, octets, frames)
    ensures conn < |octets| == |frames|
  {
  }

  lemma LocalMatches(net: Net, frames: N.Net, input: Input, now: int)
    requires Matches(net, frames) && Possible(net, Local(input))
    ensures Reaches(frames, FrameSteps(net, Local(input), now), Act(net, Local(input), now))
  {
    hide Carries, AllSendable, Persistence.Step;
    CarriesSizes(net.left.kept, net.left.conn, net.toLeft, frames.toLeft);
    CarriesSizes(net.right.kept, net.right.conn, net.toRight, frames.toRight);
    OneStep(frames, N.NetStep(N.Left, N.Local(input), now));
    StepKeepsSendable(net.left.ep, input, now);
    WriteCarries(net.right.kept, net.right.conn, net.toRight, frames.toRight, net.left.conn,
                 Persistence.Step(net.left.ep, input, now).written);
  }

  lemma ReplaceMatches(net: Net, frames: N.Net, conn: nat, now: int)
    requires Matches(net, frames) && Possible(net, Replace(conn))
    ensures Reaches(frames, FrameSteps(net, Replace(conn), now), Act(net, Replace(conn), now))
  {
    hide Carries, AllSendable, Persistence.Step;
    CarriesSizes(net.left.kept, net.left.conn, net.toLeft, frames.toLeft);
    CarriesSizes(net.right.kept, net.right.conn, net.toRight, frames.toRight);
    OneStep(frames, N.NetStep(N.Left, N.Replace(conn), now));
    StepKeepsSendable(net.left.ep, ReplaceInput, now);
    LaterCarries(net.left.kept, net.left.conn, net.toLeft, frames.toLeft, conn);
    WriteCarries(net.right.kept, net.right.conn, net.toRight, frames.toRight, conn,
                 Persistence.Step(net.left.ep, ReplaceInput, now).written);
  }

  lemma ArriveMatches(net: Net, frames: N.Net, count: nat, now: int)
    requires Matches(net, frames) && Possible(net, Arrive(count))
    ensures Reaches(frames, FrameSteps(net, Arrive(count), now), Act(net, Arrive(count), now))
  {
    hide Carries, AllSendable, Drain, ReceiveAll;
    CarriesSizes(net.left.kept, net.left.conn, net.toLeft, frames.toLeft);
    CarriesSizes(net.right.kept, net.right.conn, net.toRight, frames.toRight);
    ArriveCarries(net.left.kept, net.left.conn, net.toLeft, frames.toLeft, count);
    var read := Drain(net.left.kept + net.toLeft[net.left.conn][..count]).0;
    DeliverMany(frames, |read|, now);
    ReceivingKeepsSendable(net.left.ep, read, now);
  }

  lemma SwapMatches(net: Net, frames: N.Net)
    ensures Matches(Swap(net), N.Swap(frames)) <==> Matches(net, frames)
  {
    hide Carries, AllSendable;
  }

  lemma NextMatches(net: Net, frames: N.Net, step: Step)
    requires Matches(net, frames) && CanStep(net, step)
    ensures Reaches(frames, StepFrames(net, step), Next(net, step))
  {
    hide Matches, Act, FrameSteps;
    if step.side.Left? {
      ActMatches(net, frames, step.move, step.now);
    } else {
      SwapMatches(net, frames);
      ActMatches(Swap(net), N.Swap(frames), step.move, step.now);
      var steps := FrameSteps(Swap(net), step.move, step.now);
      FlippedRun(N.Swap(frames), steps);
      assert N.Swap(N.Swap(frames)) == frames;
      SwapMatches(Act(Swap(net), step.move, step.now), N.Execute(N.Swap(frames), steps).value);
    }
  }

  lemma {:induction false} ExecuteMatches(net: Net, frames: N.Net, steps: seq<Step>)
    requires Matches(net, frames) && Execute(net, steps).Some?
    ensures Reaches(frames, RunFrames(net, steps), Execute(net, steps).value)
    decreases |steps|
  {
    hide Matches, StepFrames, Next;
    if steps != [] {
      NextMatches(net, frames, steps[0]);
      var front := StepFrames(net, steps[0]);
      ExecuteMatches(Next(net, steps[0]), N.Execute(frames, front).value, steps[1..]);
      ExecuteConcat(frames, front, RunFrames(Next(net, steps[0]), steps[1..]));
    }
  }

  lemma StartMatches(left: Options, right: Options, now: int)
    ensures Matches(Start(left, right, now), N.Start(left, right, now))
  {
    assert EncodeAll([]) == [] && ParseFrame([]).None?;
    assert Messages([]) == [];
  }

  // ---------------------------------------------------------------------------------------------
  // The theorem
  // ---------------------------------------------------------------------------------------------

  /** The endpoint with the numbers of the bodies it has fired. */
  function WithFired(e: End, fired: seq<nat>): N.Party {
    N.Party(e.ep, e.conn, e.sent, fired)
  }

  /** What one endpoint has fired, under some numbers: repeats removed, a prefix of what the other was asked to send. */
  ghost predicate FiresInOrder(s: End, r: End) {
    exists fired :: N.InOrderPrefix(WithFired(s, []), WithFired(r, fired))
  }

  /**
   * From octets to bodies: over every run in which octets arrive in portions of any size and sockets are replaced at
   * any time, with bodies below 2^32 octets, each endpoint fires bodies that are, repeats removed, a prefix of those
   * the other was asked to send, and what is not fired yet is still queued for replay.
   */
  lemma EveryOctetRunDeliversInOrder(left: Options, right: Options, start: int, steps: seq<Step>)
    requires Execute(Start(left, right, start), steps).Some?
    ensures var net := Execute(Start(left, right, start), steps).value;
            FiresInOrder(net.left, net.right) && FiresInOrder(net.right, net.left)
  {
    var net := Execute(Start(left, right, start), steps).value;
    var run := RunFrames(Start(left, right, start), steps);
    StartMatches(left, right, start);
    ExecuteMatches(Start(left, right, start), N.Start(left, right, start), steps);
    N.EveryRunDeliversInOrder(left, right, start, run);
    var frames := N.Execute(N.Start(left, right, start), run).value;
    assert SameEnd(net.left, frames.left) && SameEnd(net.right, frames.right);
    hide Execute, RunFrames, Carries, AllSendable;
    PrefixSeen(net.left, net.right, frames.left, frames.right);
    PrefixSeen(net.right, net.left, frames.right, frames.left);
  }

  lemma PrefixSeen(s: End, r: End, p: N.Party, q: N.Party)
    requires SameEnd(s, p) && SameEnd(r, q) && N.InOrderPrefix(p, q)
    ensures FiresInOrder(s, r)
  {
    var sender := WithFired(s, []);
    hide N.FirstBodies, N.FiredBodies, N.Firsts, N.Top;
    forall id | N.Queued(p, id)
      ensures N.Queued(sender, id)
    {
    }
    assert N.InOrderPrefix(sender, WithFired(r, q.fired));
  }
}
