/** The channel client and server on top of the two persistent endpoints: every run of the stack is one of ChannelNetwork. */
module ChannelStack {
  // The client sits on the left endpoint, the server on the right one. A message is handed to its endpoint as the body
  // it is written as; a Regular frame that is delivered hands its body to the other side.

  import opened Buffers
  import opened ChannelMessages
  import opened Framing
  import opened Outcomes
  import opened Sequences
  import C = ChannelClient
  import S = ChannelServer
  import L = ChannelNetwork
  import N = PersistentNetwork
  import P = Persistence

  /** How messages are written as bodies and read back. */
  datatype Coding = Coding(
    writeAsk: ToServer -> Bytes,
    readAsk: Bytes -> ToServer,
    writeAnswer: ToClient -> Bytes,
    readAnswer: Bytes -> ToClient)

  datatype Stack = Stack(client: C.Client, server: S.Server, net: N.Net)

  datatype Step =
    | ClientStep(asked: C.Step, now: int)
    | ServerStep(served: S.Step, now: int)
    | Transport(step: N.NetStep)

  function Start(left: P.Options, right: P.Options, now: int): Stack {
    Stack(C.NewClient(), S.NewServer(), N.Start(left, right, now))
  }

  function AsksWritten(coding: Coding, messages: seq<ToServer>): (bodies: seq<Bytes>)
    ensures |bodies| == |messages| && forall k :: 0 <= k < |messages| ==> bodies[k] == coding.writeAsk(messages[k])
  {
    seq(|messages|, k requires 0 <= k < |messages| => coding.writeAsk(messages[k]))
  }

  function AnswersWritten(coding: Coding, sent: seq<S.Sent>): (bodies: seq<Bytes>)
    ensures |bodies| == |sent| && forall k :: 0 <= k < |sent| ==> bodies[k] == coding.writeAnswer(L.Wire(sent[k]))
  {
    seq(|sent|, k requires 0 <= k < |sent| => coding.writeAnswer(L.Wire(sent[k])))
  }

  /** These messages come back as they were written. */
  predicate AsksArrive(coding: Coding, messages: seq<ToServer>) {
    forall k :: 0 <= k < |messages| ==> coding.readAsk(coding.writeAsk(messages[k])) == messages[k]
  }

  predicate AnswersArrive(coding: Coding, sent: seq<S.Sent>) {
    forall k :: 0 <= k < |sent| ==> coding.readAnswer(coding.writeAnswer(L.Wire(sent[k]))) == L.Wire(sent[k])
  }

  /** Bodies handed to one endpoint, one after the other. */
  function Sends(side: N.Side, bodies: seq<Bytes>, now: int): (steps: seq<N.NetStep>)
    ensures |steps| == |bodies|
    ensures forall k :: 0 <= k < |steps| ==> steps[k] == N.NetStep(side, N.Local(P.SendInput(bodies[k])), now)
  {
    seq(|bodies|, k requires 0 <= k < |bodies| => N.NetStep(side, N.Local(P.SendInput(bodies[k])), now))
  }

  /** The client acts, and what it hands to the protocol is sent; none if a message would not come back as written. */
  function ClientActs(coding: Coding, s: Stack, step: C.Step, net: N.Net, now: int): Option<Stack> {
    var client := C.Next(s.client, step);
    var more := L.From(client.outbox, |s.client.outbox|);
    if !AsksArrive(coding, more) then None
    else
      match N.Execute(net, Sends(N.Left, AsksWritten(coding, more), now))
      case None => None
      case Some(after) => Some(Stack(client, s.server, after))
  }

  function ServerActs(coding: Coding, s: Stack, step: S.Step, net: N.Net, now: int): Option<Stack> {
    var server := S.Next(s.server, step);
    var more := L.From(server.sent, |s.server.sent|);
    if !AnswersArrive(coding, more) then None
    else
      match N.Execute(net, Sends(N.Right, AnswersWritten(coding, more), now))
      case None => None
      case Some(after) => Some(Stack(s.client, server, after))
  }

  /** The frame a delivery takes next. */
  function NextFrame(net: N.Net, side: N.Side): Option<Frame> {
    var view := if side.Left? then net else N.Swap(net);
    if view.left.conn < |view.toLeft| && view.toLeft[view.left.conn] != [] then Some(view.toLeft[view.left.conn][0]) else None
  }

  /** One step of the transport; a body it fires is read and heard. Sends are the client's and the server's only. */
  function TransportActs(coding: Coding, s: Stack, step: N.NetStep): Option<Stack> {
    if !N.CanStep(s.net, step) || (step.action.Local? && step.action.input.SendInput?) then None
    else
      var net := N.Next(s.net, step);
      match (step.action, NextFrame(s.net, step.side))
      case (Deliver, Some(frame)) =>
        if frame.kind != REGULAR then Some(s.(net := net))
        else if step.side.Left? then ClientActs(coding, s, C.Message(coding.readAnswer(frame.data)), net, step.now)
        else ServerActs(coding, s, S.Message(coding.readAsk(frame.data)), net, step.now)
      case _ => Some(s.(net := net))
  }

  function Next(coding: Coding, s: Stack, step: Step): Option<Stack> {
    match step
    case ClientStep(asked, now) => if asked.Message? then None else ClientActs(coding, s, asked, s.net, now)
    case ServerStep(served, now) => if served.Message? then None else ServerActs(coding, s, served, s.net, now)
    case Transport(step) => TransportActs(coding, s, step)
  }

  function Execute(coding: Coding, s: Stack, steps: seq<Step>): Option<Stack>
    decreases |steps|
  {
    if steps == [] then Some(s)
    else
      match Next(coding, s, steps[0])
      case None => None
      case Some(next) => Execute(coding, next, steps[1..])
  }

  // ---------------------------------------------------------------------------------------------
  // The run of the lanes behind a run of the stack
  // ---------------------------------------------------------------------------------------------

  /**
   * What a step of the stack is for the lanes. A body fired under number `id` is the lane's first message once what
   * was in flight is dropped and everything from that message on is put in again.
   */
  function LaneActions(s: Stack, step: Step): seq<L.Action> {
    match step
    case ClientStep(asked, _) => [L.ClientStep(asked)]
    case ServerStep(served, _) => [L.ServerStep(served)]
    case Transport(step) =>
      match (step.action, NextFrame(s.net, step.side))
      case (Deliver, Some(frame)) =>
        if frame.kind != REGULAR || frame.id == 0 then []
        else if step.side.Left? then
          [L.LoseAllBut(0, 0), L.Replay(|s.client.outbox|, frame.id - 1), L.DeliverToClient]
        else
          [L.LoseAllBut(0, 0), L.Replay(frame.id - 1, |s.server.sent|), L.DeliverToServer]
      case _ => []
  }

  function LaneRun(coding: Coding, s: Stack, steps: seq<Step>): seq<L.Action>
    decreases |steps|
  {
    if steps == [] then []
    else
      match Next(coding, s, steps[0])
      case None => []
      case Some(next) => LaneActions(s, steps[0]) + LaneRun(coding, next, steps[1..])
  }

  /** The two ends are the same, and each endpoint was asked to send what its end handed to the protocol. */
  ghost predicate Relates(coding: Coding, s: Stack, n: L.Network) {
    && s.client == n.client && s.server == n.server && N.Inv(s.net)
    && s.net.left.sent == AsksWritten(coding, s.client.outbox) && AsksArrive(coding, s.client.outbox)
    && s.net.right.sent == AnswersWritten(coding, s.server.sent) && AnswersArrive(coding, s.server.sent)
  }

  // The transport's part

  /** No other step does. */
  lemma NothingSent(net: N.Net, step: N.NetStep)
    requires N.CanStep(net, step) && !(step.action.Local? && step.action.input.SendInput?)
    ensures N.Next(net, step).left.sent == net.left.sent && N.Next(net, step).right.sent == net.right.sent
  {
  }

  lemma SendsCons(side: N.Side, bodies: seq<Bytes>, now: int)
    requires bodies != []
    ensures Sends(side, bodies, now) == [N.NetStep(side, N.Local(P.SendInput(bodies[0])), now)] + Sends(side, bodies[1..], now)
  {
  }

  /** What one side was asked to send, and what the other. */
  function SentBy(net: N.Net, side: N.Side): seq<Bytes> {
    if side.Left? then net.left.sent else net.right.sent
  }

  function Other(side: N.Side): N.Side {
    if side.Left? then N.Right else N.Left
  }

  /** Handing bodies to an endpoint adds them, and nothing else, to what it was asked to send. */
  lemma {:induction false} SendsSend(net: N.Net, side: N.Side, bodies: seq<Bytes>, now: int)
    requires N.Inv(net) && N.Execute(net, Sends(side, bodies, now)).Some?
    ensures var after := N.Execute(net, Sends(side, bodies, now)).value;
            && N.Inv(after) && SentBy(after, side) == SentBy(net, side) + bodies
            && SentBy(after, Other(side)) == SentBy(net, Other(side))
    decreases |bodies|
  {
    hide N.Inv, N.Next, N.CanStep, Sends, SentBy;
    if bodies == [] {
      assert Sends(side, bodies, now) == [];
      assert SentBy(net, side) + bodies == SentBy(net, side);
    } else {
      var step := N.NetStep(side, N.Local(P.SendInput(bodies[0])), now);
      SendsCons(side, bodies, now);
      assert Sends(side, bodies, now)[1..] == Sends(side, bodies[1..], now);
      N.NextKeepsInv(net, step);
      OneSent(net, step, bodies[0]);
      SendsSend(N.Next(net, step), side, bodies[1..], now);
      assert SentBy(net, side) + [bodies[0]] + bodies[1..] == SentBy(net, side) + bodies;
    }
  }

  lemma OneSent(net: N.Net, step: N.NetStep, body: Bytes)
    requires N.CanStep(net, step) && step.action == N.Local(P.SendInput(body))
    ensures var next := N.Next(net, step);
            && SentBy(next, step.side) == SentBy(net, step.side) + [body]
            && SentBy(next, Other(step.side)) == SentBy(net, Other(step.side))
  {
  }

  /** A frame in flight to the right carries a body the left endpoint was asked to send, under its number. */
  lemma FramesAreSent(net: N.Net, side: N.Side)
    requires N.Inv(net) && NextFrame(net, side).Some? && NextFrame(net, side).value.kind == REGULAR
    ensures var frame := NextFrame(net, side).value;
            var sent := if side.Left? then net.right.sent else net.left.sent;
            1 <= frame.id <= |sent| && frame.data == sent[frame.id - 1]
  {
    hide N.Steady, N.Sender, N.FiredBodies, N.AckInv, N.TailInv;
    var lanes := if side.Left? then net.toLeft else net.toRight;
    var conn := if side.Left? then net.left.conn else net.right.conn;
    assert lanes[conn][0] in lanes[conn];
  }

  // The ends' part

  lemma AsksConcat(coding: Coding, a: seq<ToServer>, b: seq<ToServer>)
    ensures AsksWritten(coding, a + b) == AsksWritten(coding, a) + AsksWritten(coding, b)
    ensures AsksArrive(coding, a) && AsksArrive(coding, b) ==> AsksArrive(coding, a + b)
  {
  }

  lemma AnswersConcat(coding: Coding, a: seq<S.Sent>, b: seq<S.Sent>)
    ensures AnswersWritten(coding, a + b) == AnswersWritten(coding, a) + AnswersWritten(coding, b)
    ensures AnswersArrive(coding, a) && AnswersArrive(coding, b) ==> AnswersArrive(coding, a + b)
  {
  }

  /** The client of a stack and of a network act alike. */
  lemma ClientActsAlike(coding: Coding, s: Stack, step: C.Step, net: N.Net, now: int, n: L.Network)
    requires Relates(coding, s.(net := net), n) && C.Inv(n.client) && ClientActs(coding, s, step, net, now).Some?
    ensures Relates(coding, ClientActs(coding, s, step, net, now).value, L.ClientActs(n, step))
  {
    hide C.Next, C.Inv, N.Inv, N.Execute, AsksWritten, AsksArrive, AnswersWritten, AnswersArrive, Sends;
    var client := C.Next(s.client, step);
    L.ClientGrows(s.client, step);
    var more := L.From(client.outbox, |s.client.outbox|);
    assert client.outbox == s.client.outbox + more;
    AsksConcat(coding, s.client.outbox, more);
    SendsSend(net, N.Left, AsksWritten(coding, more), now);
    assert net.right.sent + [] == net.right.sent;
  }

  lemma ServerActsAlike(coding: Coding, s: Stack, step: S.Step, net: N.Net, now: int, n: L.Network)
    requires Relates(coding, s.(net := net), n) && ServerActs(coding, s, step, net, now).Some?
    ensures Relates(coding, ServerActs(coding, s, step, net, now).value, L.ServerActs(n, step))
  {
    hide S.Next, N.Inv, N.Execute, AsksWritten, AsksArrive, AnswersWritten, AnswersArrive, Sends;
    var server := S.Next(s.server, step);
    L.ServerGrows(s.server, step);
    var more := L.From(server.sent, |s.server.sent|);
    assert server.sent == s.server.sent + more;
    AnswersConcat(coding, s.server.sent, more);
    SendsSend(net, N.Right, AnswersWritten(coding, more), now);
    assert net.left.sent + [] == net.left.sent;
  }

  lemma Refilled(n: L.Network, j: nat, k: nat)
    requires j <= |n.client.outbox| && k <= |n.server.sent|
    ensures L.Next(L.Next(n, L.LoseAllBut(0, 0)), L.Replay(j, k))
         == n.(toServer := n.client.outbox[j..], toClient := n.server.sent[k..])
  {
  }

  /** Dropping, replaying from one message on and delivering hears exactly that message. */
  lemma ReplayedIsHeardOnTheRight(n: L.Network, k: nat)
    requires k < |n.client.outbox|
    ensures exists lanes: L.Network :: lanes.client == n.client && lanes.server == n.server
              && L.Execute(n, [L.LoseAllBut(0, 0), L.Replay(k, |n.server.sent|), L.DeliverToServer])
              == L.ServerActs(lanes, S.Message(n.client.outbox[k]))
  {
    hide L.ServerActs, L.ClientActs, L.Execute;
    Refilled(n, k, |n.server.sent|);
    var full := n.(toServer := n.client.outbox[k..], toClient := []);
    ThreeActions(n, L.LoseAllBut(0, 0), L.Replay(k, |n.server.sent|), L.DeliverToServer);
    var lanes := full.(toServer := n.client.outbox[k..][1..]);
    assert L.Next(full, L.DeliverToServer) == L.ServerActs(lanes, S.Message(n.client.outbox[k]));
  }

  lemma ReplayedIsHeardOnTheLeft(n: L.Network, k: nat)
    requires k < |n.server.sent|
    ensures exists lanes: L.Network :: lanes.client == n.client && lanes.server == n.server
              && L.Execute(n, [L.LoseAllBut(0, 0), L.Replay(|n.client.outbox|, k), L.DeliverToClient])
              == L.ClientActs(lanes, C.Message(L.Wire(n.server.sent[k])))
  {
    hide L.ServerActs, L.ClientActs, L.Execute;
    Refilled(n, |n.client.outbox|, k);
    var full := n.(toServer := [], toClient := n.server.sent[k..]);
    ThreeActions(n, L.LoseAllBut(0, 0), L.Replay(|n.client.outbox|, k), L.DeliverToClient);
    var lanes := full.(toClient := n.server.sent[k..][1..]);
    assert L.Next(full, L.DeliverToClient) == L.ClientActs(lanes, C.Message(L.Wire(n.server.sent[k])));
  }

  lemma ThreeActions(n: L.Network, a: L.Action, b: L.Action, c: L.Action)
    ensures L.Execute(n, [a, b, c]) == L.Next(L.Next(L.Next(n, a), b), c)
  {
    hide L.Next;
    assert [a, b, c][1..] == [b, c] && [b, c][1..] == [c] && [c][1..] == [];
    assert L.Execute(L.Next(L.Next(n, a), b), [c]) == L.Execute(L.Next(L.Next(L.Next(n, a), b), c), []);
  }

  lemma OneAction(n: L.Network, a: L.Action)
    ensures L.Execute(n, [a]) == L.Next(n, a)
  {
    hide L.Next;
    assert L.Execute(n, [a]) == L.Execute(L.Next(n, a), []);
  }

  // Every step

  /** A network whose ends do not stand still would have been told so. */
  lemma SameEnds(coding: Coding, s: Stack, n: L.Network, m: L.Network)
    requires Relates(coding, s, n) && m.client == n.client && m.server == n.server
    ensures Relates(coding, s, m)
  {
    hide N.Inv, AsksWritten, AsksArrive, AnswersWritten, AnswersArrive;
  }

  lemma AfterTransport(coding: Coding, s: Stack, n: L.Network, step: N.NetStep)
    requires Relates(coding, s, n) && N.CanStep(s.net, step) && !(step.action.Local? && step.action.input.SendInput?)
    ensures Relates(coding, s.(net := N.Next(s.net, step)), n)
  {
    N.NextKeepsInv(s.net, step);
    NothingSent(s.net, step);
    hide N.Inv, N.Next, N.CanStep, AsksWritten, AsksArrive, AnswersWritten, AnswersArrive;
  }

  ghost predicate Delivers(step: N.NetStep, frame: Option<Frame>) {
    step.action.Deliver? && frame.Some? && frame.value.kind == REGULAR
  }

  /** A body fired on the left is one of the server's messages, heard by the client. */
  lemma LeftHears(coding: Coding, s: Stack, n: L.Network, step: N.NetStep)
    requires Relates(coding, s, n) && L.Inv(n) && step.side.Left? && Delivers(step, NextFrame(s.net, step.side))
    requires TransportActs(coding, s, step).Some?
    ensures Relates(coding, TransportActs(coding, s, step).value, L.Execute(n, LaneActions(s, Transport(step))))
  {
    hide N.Inv, N.Next, N.CanStep, L.Inv, L.Execute, L.ClientActs, ClientActs, AsksWritten, AsksArrive, NextFrame;
    var frame := NextFrame(s.net, step.side).value;
    FramesAreSent(s.net, step.side);
    AfterTransport(coding, s, n, step);
    var k := frame.id - 1;
    assert coding.readAnswer(frame.data) == L.Wire(s.server.sent[k]);
    ReplayedIsHeardOnTheLeft(n, k);
    var lanes: L.Network :| lanes.client == n.client && lanes.server == n.server
      && L.Execute(n, [L.LoseAllBut(0, 0), L.Replay(|n.client.outbox|, k), L.DeliverToClient])
      == L.ClientActs(lanes, C.Message(L.Wire(n.server.sent[k])));
    var net := N.Next(s.net, step);
    SameEnds(coding, s.(net := net), n, lanes);
    ClientIsSound(n);
    ClientActsAlike(coding, s, C.Message(L.Wire(s.server.sent[k])), net, step.now, lanes);
  }

  lemma RightHears(coding: Coding, s: Stack, n: L.Network, step: N.NetStep)
    requires Relates(coding, s, n) && step.side.Right? && Delivers(step, NextFrame(s.net, step.side))
    requires TransportActs(coding, s, step).Some?
    ensures Relates(coding, TransportActs(coding, s, step).value, L.Execute(n, LaneActions(s, Transport(step))))
  {
    hide N.Inv, N.Next, N.CanStep, L.Execute, L.ServerActs, ServerActs, AnswersWritten, AnswersArrive, NextFrame;
    var frame := NextFrame(s.net, step.side).value;
    FramesAreSent(s.net, step.side);
    AfterTransport(coding, s, n, step);
    var k := frame.id - 1;
    assert coding.readAsk(frame.data) == s.client.outbox[k];
    ReplayedIsHeardOnTheRight(n, k);
    var lanes: L.Network :| lanes.client == n.client && lanes.server == n.server
      && L.Execute(n, [L.LoseAllBut(0, 0), L.Replay(k, |n.server.sent|), L.DeliverToServer])
      == L.ServerActs(lanes, S.Message(n.client.outbox[k]));
    var net := N.Next(s.net, step);
    SameEnds(coding, s.(net := net), n, lanes);
    ServerActsAlike(coding, s, S.Message(s.client.outbox[k]), net, step.now, lanes);
  }

  lemma ClientIsSound(n: L.Network)
    requires L.Inv(n)
    ensures C.Inv(n.client)
  {
  }

  lemma TransportRelates(coding: Coding, s: Stack, n: L.Network, step: N.NetStep)
    requires Relates(coding, s, n) && L.Inv(n) && TransportActs(coding, s, step).Some?
    ensures Relates(coding, TransportActs(coding, s, step).value, L.Execute(n, LaneActions(s, Transport(step))))
  {
    hide Relates, N.Inv, N.Next, N.CanStep, L.Inv, ClientActs, ServerActs, NextFrame;
    if Delivers(step, NextFrame(s.net, step.side)) {
      if step.side.Left? {
        LeftHears(coding, s, n, step);
      } else {
        RightHears(coding, s, n, step);
      }
    } else {
      AfterTransport(coding, s, n, step);
    }
  }

  lemma NextRelates(coding: Coding, s: Stack, n: L.Network, step: Step)
    requires Relates(coding, s, n) && L.Inv(n) && Next(coding, s, step).Some?
    ensures Relates(coding, Next(coding, s, step).value, L.Execute(n, LaneActions(s, step)))
  {
    hide Relates, L.Inv, TransportActs, ClientActs, ServerActs, L.ClientActs, L.ServerActs, NextFrame;
    match step
    case ClientStep(asked, now) =>
      OneAction(n, L.ClientStep(asked));
      ClientIsSound(n);
      ClientActsAlike(coding, s, asked, s.net, now, n);
    case ServerStep(served, now) =>
      OneAction(n, L.ServerStep(served));
      ServerActsAlike(coding, s, served, s.net, now, n);
    case Transport(step) => TransportRelates(coding, s, n, step);
  }

  lemma {:induction false} LanesConcat(n: L.Network, front: seq<L.Action>, back: seq<L.Action>)
    ensures L.Execute(n, front + back) == L.Execute(L.Execute(n, front), back)
    decreases |front|
  {
    hide L.Next;
    if front == [] {
      assert front + back == back;
    } else {
      assert (front + back)[1..] == front[1..] + back;
      LanesConcat(L.Next(n, front[0]), front[1..], back);
    }
  }

  /** From related states on, every run of the stack is a run of the lanes. */
  lemma {:induction false} ExecuteRelates(coding: Coding, s: Stack, n: L.Network, steps: seq<Step>)
    requires Relates(coding, s, n) && L.Inv(n) && Execute(coding, s, steps).Some?
    ensures Relates(coding, Execute(coding, s, steps).value, L.Execute(n, LaneRun(coding, s, steps)))
    decreases |steps|
  {
    hide Relates, L.Inv, Next, LaneActions;
    if steps != [] {
      NextRelates(coding, s, n, steps[0]);
      var front := LaneActions(s, steps[0]);
      L.ExecuteKeepsInv(n, front);
      var next := Next(coding, s, steps[0]).value;
      ExecuteRelates(coding, next, L.Execute(n, front), steps[1..]);
      LanesConcat(n, front, LaneRun(coding, next, steps[1..]));
    }
  }

  lemma StartRelates(coding: Coding, left: P.Options, right: P.Options, now: int)
    ensures Relates(coding, Start(left, right, now), L.Start()) && L.Inv(L.Start())
  {
    N.StartInv(left, right, now);
    L.StartInv();
    hide N.Inv;
  }

  // ---------------------------------------------------------------------------------------------
  // The theorems
  // ---------------------------------------------------------------------------------------------

  /**
   * Whatever the transport does, over every run of the stack client and server are where a run of the lanes brings
   * them: losing what is in flight and replaying a last part of what was sent is all a replaced socket amounts to.
   */
  lemma EveryStackRunIsALaneRun(coding: Coding, left: P.Options, right: P.Options, now: int, steps: seq<Step>)
    requires Execute(coding, Start(left, right, now), steps).Some?
    ensures var s := Execute(coding, Start(left, right, now), steps).value;
            var n := L.Execute(L.Start(), LaneRun(coding, Start(left, right, now), steps));
            s.client == n.client && s.server == n.server
  {
    StartRelates(coding, left, right, now);
    ExecuteRelates(coding, Start(left, right, now), L.Start(), steps);
    hide Execute, LaneRun, L.Execute;
  }

  /** So over every run of the stack an answered promise was settled once, by a reply to its own request. */
  lemma EveryStackAnswerBelongsToItsRequest(coding: Coding, left: P.Options, right: P.Options, now: int, steps: seq<Step>, i: nat)
    requires Execute(coding, Start(left, right, now), steps).Some?
    requires i < |Execute(coding, Start(left, right, now), steps).value.client.log|
    ensures var stack := Execute(coding, Start(left, right, now), steps).value;
            var s := stack.client.log[i];
            && (forall j :: 0 <= j < |stack.client.log| && j != i ==> stack.client.log[j].id != s.id)
            && s.id in stack.client.requests
            && (s.outcome.Answered? ==> L.AnsweredBy(stack.client.requests[s.id], s.outcome.response, stack.server.sent))
  {
    EveryStackRunIsALaneRun(coding, left, right, now, steps);
    var actions := LaneRun(coding, Start(left, right, now), steps);
    hide Execute, LaneRun, L.Execute, L.AnsweredBy;
    L.EveryAnswerBelongsToItsRequest(actions, i);
  }
}
