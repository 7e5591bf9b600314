/** A channel client and a channel server joined by two first-in-first-out lanes that may lose and repeat what is in them. */
module ChannelNetwork {
  import opened ChannelMessages
  import opened Serialization
  import opened Sequences
  import opened Texts
  import C = ChannelClient
  import S = ChannelServer

  datatype Network = Network(client: C.Client, server: S.Server, toServer: seq<ToServer>, toClient: seq<S.Sent>)

  /** `LoseAllBut` drops what is in flight; `Replay` puts the last messages sent, however many, into the lanes again. */
  datatype Action =
    | ClientStep(asked: C.Step)
    | ServerStep(served: S.Step)
    | DeliverToServer
    | DeliverToClient
    | LoseAllBut(toServer: nat, toClient: nat)
    | Replay(fromClient: nat, fromServer: nat)

  function Start(): Network {
    Network(C.NewClient(), S.NewServer(), [], [])
  }

  function Wire(sent: S.Sent): ToClient {
    match sent
    case Hello => Initialize
    case Reply(_, response, _, _) => Answer(response)
  }

  /** A step of the client's own; what it hands to the protocol enters the lane. */
  function ClientActs(n: Network, step: C.Step): Network {
    var client := C.Next(n.client, step);
    n.(client := client,
    toServer := n.toServer + if |n.client.outbox| <= |client.outbox| then client.outbox[|n.client.outbox|..] else [])
  }

  function ServerActs(n: Network, step: S.Step): Network {
    var server := S.Next(n.server, step);
    n.(server := server,
    toClient := n.toClient + if |n.server.sent| <= |server.sent| then server.sent[|n.server.sent|..] else [])
  }

  function From<T>(items: seq<T>, k: nat): seq<T> {
    if k <= |items| then items[k..] else []
  }

  function Next(n: Network, action: Action): Network {
    match action
    case ClientStep(step) => if step.Message? then n else ClientActs(n, step)
    case ServerStep(step) => if step.Message? then n else ServerActs(n, step)
    case DeliverToServer =>
      if n.toServer == [] then n else ServerActs(n.(toServer := n.toServer[1..]), S.Message(n.toServer[0]))
    case DeliverToClient =>
      if n.toClient == [] then n else ClientActs(n.(toClient := n.toClient[1..]), C.Message(Wire(n.toClient[0])))
    case LoseAllBut(toServer, toClient) =>
      n.(toServer := if toServer <= |n.toServer| then n.toServer[..toServer] else n.toServer,
      toClient := if toClient <= |n.toClient| then n.toClient[..toClient] else n.toClient)
    case Replay(fromClient, fromServer) =>
      n.(toServer := n.toServer + From(n.client.outbox, fromClient), toClient := n.toClient + From(n.server.sent, fromServer))
  }

  function Execute(n: Network, actions: seq<Action>): Network
    decreases |actions|
  {
    if actions == [] then n else Execute(Next(n, actions[0]), actions[1..])
  }

  // ---------------------------------------------------------------------------------------------
  // What every action keeps, losses and replays included
  // ---------------------------------------------------------------------------------------------

  ghost predicate Genuine(requests: map<nat, Request>, request: Request) {
    request.id in requests && requests[request.id] == request
  }

  ghost predicate GenuineMessages(requests: map<nat, Request>, messages: seq<ToServer>) {
    forall m :: m in messages && m.Ask? ==> Genuine(requests, m.request)
  }

  /** Nothing is in the lane that was not sent, and nothing was received that was not sent. */
  ghost predicate Carried(outbox: seq<ToServer>, lane: seq<ToServer>, received: seq<Request>) {
    (forall m :: m in lane ==> m in outbox) && (forall r :: r in received ==> Ask(r) in outbox)
  }

  /** Each response that settled a promise is one the server gave to that very request. */
  ghost predicate Justified(requests: map<nat, Request>, log: seq<C.Settlement>, sent: seq<S.Sent>) {
    forall s :: s in log && s.outcome.Answered? ==> s.id in requests && AnsweredBy(requests[s.id], s.outcome.response, sent)
  }

  /** The response is one of the server's replies to this request. */
  ghost predicate AnsweredBy(request: Request, response: Response, sent: seq<S.Sent>) {
    exists arrival, timedOut :: S.Reply(request, response, arrival, timedOut) in sent
  }

  ghost predicate Inv(n: Network) {
    && C.Inv(n.client) && S.Sound(n.server)
    && GenuineMessages(n.client.requests, n.client.outbox)
    && Carried(n.client.outbox, n.toServer, n.server.received)
    && (forall r :: r in n.toClient ==> r in n.server.sent)
    && Justified(n.client.requests, n.client.log, n.server.sent)
  }

  ghost predicate Extends(more: map<nat, Request>, requests: map<nat, Request>) {
    forall id :: id in requests ==> id in more && more[id] == requests[id]
  }

  lemma ClientGrows(c: C.Client, step: C.Step)
    requires C.Inv(c)
    ensures var d := C.Next(c, step);
            c.outbox <= d.outbox && c.log <= d.log && Extends(d.requests, c.requests)
  {
    hide C.Balanced, C.OwnAnswers, C.SentOnce, C.Closings, C.Without, C.SettledIds, AskedIds;
  }

  /** What a step sends is one of the client's own requests. */
  lemma ClientSendsGenuine(c: C.Client, step: C.Step)
    requires C.Inv(c) && GenuineMessages(c.requests, c.outbox)
    ensures GenuineMessages(C.Next(c, step).requests, C.Next(c, step).outbox)
  {
    hide C.Balanced, C.OwnAnswers, C.SentOnce;
    ClientGrows(c, step);
  }

  /** A reply to the client's own request with the response's id. */
  ghost predicate Given(requests: map<nat, Request>, sent: seq<S.Sent>, response: Response) {
    response.id in requests && AnsweredBy(requests[response.id], response, sent)
  }

  /** A log that has not gained an answer is as justified as it was. */
  lemma ClientStaysJustified(c: C.Client, step: C.Step, sent: seq<S.Sent>)
    requires C.Inv(c) && Justified(c.requests, c.log, sent)
    requires step.Message? && step.message.Answer? ==> Given(c.requests, sent, step.message.response)
    ensures Justified(C.Next(c, step).requests, C.Next(c, step).log, sent)
  {
    var d := C.Next(c, step);
    ClientGrows(c, step);
    hide C.Balanced, C.OwnAnswers, C.SentOnce, C.Next, AnsweredBy;
    forall s | s in d.log && s.outcome.Answered?
      ensures s.id in d.requests && AnsweredBy(d.requests[s.id], s.outcome.response, sent)
    {
      if s !in c.log {
        AnswersComeFromMessages(c, step, s);
      }
    }
  }

  lemma AnswersComeFromMessages(c: C.Client, step: C.Step, s: C.Settlement)
    requires s in C.Next(c, step).log && s !in c.log && s.outcome.Answered?
    ensures step.Message? && step.message.Answer? && s.id == step.message.response.id && s.outcome.response == step.message.response
    ensures C.Next(c, step).requests == c.requests
  {
  }

  lemma ServerGrows(s: S.Server, step: S.Step)
    ensures s.sent <= S.Next(s, step).sent
    ensures S.Next(s, step).received
         == s.received + if step.Message? && step.message.Ask? && !s.disposed then [step.message.request] else []
  {
    if step.FlushTurn? {
      S.StartAllLeaves(s.(due := s.due - {step.channel}), S.ParkedOn(s, step.channel));
    }
  }

  lemma ClientActsKeepsInv(n: Network, step: C.Step)
    requires Inv(n)
    requires step.Message? && step.message.Answer? ==> Given(n.client.requests, n.server.sent, step.message.response)
    ensures Inv(ClientActs(n, step))
  {
    hide C.Next, C.Inv, S.Sound, GenuineMessages, Justified, Extends, Given;
    C.NextKeepsInv(n.client, step);
    ClientGrows(n.client, step);
    ClientSendsGenuine(n.client, step);
    ClientStaysJustified(n.client, step, n.server.sent);
  }

  lemma ServerActsKeepsInv(n: Network, step: S.Step)
    requires Inv(n)
    requires step.Message? && step.message.Ask? ==> step.message in n.client.outbox
    ensures Inv(ServerActs(n, step))
  {
    hide S.Next, S.Sound, GenuineMessages, C.Inv, AnsweredBy;
    S.NextKeepsSound(n.server, step);
    ServerGrows(n.server, step);
    assert n.server.received + [] == n.server.received;
    assert step.Message? && step.message.Ask? ==> Ask(step.message.request) == step.message;
    StaysJustified(n.client.requests, n.client.log, n.server.sent, S.Next(n.server, step).sent);
    hide Justified;
  }

  lemma StaysJustified(requests: map<nat, Request>, log: seq<C.Settlement>, sent: seq<S.Sent>, more: seq<S.Sent>)
    requires Justified(requests, log, sent) && sent <= more
    ensures Justified(requests, log, more)
  {
  }

  /** Every reply of the server is to a request the client sent. */
  lemma RepliesAreGiven(n: Network, sent: S.Sent)
    requires Inv(n) && sent in n.server.sent && sent.Reply?
    ensures Given(n.client.requests, n.server.sent, sent.response) && Ask(sent.request) in n.client.outbox
  {
    hide S.ParkedOnce, S.CalledOnce, S.TimedOutOnce, S.ReturnedOnce, S.NoneForgotten, S.ActiveIsLatest, C.Inv, Justified;
    assert S.Reply(sent.request, sent.response, sent.arrival, sent.timedOut) in n.server.sent;
    assert sent.request in n.server.received;
    assert Ask(sent.request).request == sent.request;
  }

  lemma NextKeepsInv(n: Network, action: Action)
    requires Inv(n)
    ensures Inv(Next(n, action))
  {
    hide C.Next, S.Next, C.Inv, S.Sound, GenuineMessages, Justified, ClientActs, ServerActs, Given;
    match action
    case ClientStep(step) =>
      if !step.Message? {
        ClientActsKeepsInv(n, step);
      }
    case ServerStep(step) =>
      if !step.Message? {
        ServerActsKeepsInv(n, step);
      }
    case DeliverToServer =>
      if n.toServer != [] {
        ServerActsKeepsInv(n.(toServer := n.toServer[1..]), S.Message(n.toServer[0]));
      }
    case DeliverToClient =>
      if n.toClient != [] {
        if n.toClient[0].Reply? {
          RepliesAreGiven(n, n.toClient[0]);
        }
        ClientActsKeepsInv(n.(toClient := n.toClient[1..]), C.Message(Wire(n.toClient[0])));
      }
    case LoseAllBut(toServer, toClient) =>
    case Replay(fromClient, fromServer) =>
  }

  lemma {:induction false} ExecuteKeepsInv(n: Network, actions: seq<Action>)
    requires Inv(n)
    ensures Inv(Execute(n, actions))
    decreases |actions|
  {
    if actions != [] {
      NextKeepsInv(n, actions[0]);
      ExecuteKeepsInv(Next(n, actions[0]), actions[1..]);
    }
  }

  lemma StartInv()
    ensures Inv(Start())
  {
  }

  /**
   * Over every run of both ends, with losses and replays: a promise that a response settled was settled once, by
   * a reply the server gave to exactly that request, however often it received and answered it.
   */
  lemma EveryAnswerBelongsToItsRequest(actions: seq<Action>, i: nat)
    requires i < |Execute(Start(), actions).client.log|
    ensures var n := Execute(Start(), actions);
            var s := n.client.log[i];
            && (forall j :: 0 <= j < |n.client.log| && j != i ==> n.client.log[j].id != s.id)
            && s.id in n.client.requests
            && (s.outcome.Answered? ==> AnsweredBy(n.client.requests[s.id], s.outcome.response, n.server.sent))
  {
    StartInv();
    ExecuteKeepsInv(Start(), actions);
    var n := Execute(Start(), actions);
    hide Execute, AnsweredBy, S.Sound, GenuineMessages;
    var ids := C.SettledIds(n.client.log);
    assert n.client.log[i] in n.client.log && ids[i] in ids;
    forall j | 0 <= j < |n.client.log| && j != i
      ensures n.client.log[j].id != n.client.log[i].id
    {
      assert if i < j then ids[i] != ids[j] else ids[j] != ids[i];
    }
  }

  lemma {:induction false} AskedMember(messages: seq<ToServer>, request: Request)
    requires Ask(request) in messages
    ensures request.id in AskedIds(messages)
  {
    var n := |messages| - 1;
    if messages[n] != Ask(request) {
      AskedMember(messages[..n], request);
    }
  }

  /**
   * A promise whose argument cannot be written is never answered, whether its executor threw or it waited for
   * initialization: the server does not see its id. Only cancellation or disposal settles it.
   */
  lemma AnUnwritablePromiseIsNeverAnswered(actions: seq<Action>, i: nat)
    requires i < |Execute(Start(), actions).client.log|
    ensures var c := Execute(Start(), actions).client; c.log[i].id in c.unwritable ==> !c.log[i].outcome.Answered?
  {
    StartInv();
    ExecuteKeepsInv(Start(), actions);
    hide Execute;
    var n := Execute(Start(), actions);
    if n.client.log[i].outcome.Answered? {
      UnwritableIsUnanswered(n, n.client.log[i]);
    }
  }

  lemma UnwritableIsUnanswered(n: Network, s: C.Settlement)
    requires Inv(n) && s in n.client.log && s.outcome.Answered?
    ensures s.id !in n.client.unwritable
  {
    hide S.Sound;
    var arrival, timedOut :| S.Reply(n.client.requests[s.id], s.outcome.response, arrival, timedOut) in n.server.sent;
    RepliesAreGiven(n, S.Reply(n.client.requests[s.id], s.outcome.response, arrival, timedOut));
    AskedMember(n.client.outbox, n.client.requests[s.id]);
  }

  lemma {:induction false} ClientKeepsThrownWait(n: Network, actions: seq<Action>)
    requires Inv(n) && C.ThrownWait(n.client)
    ensures C.ThrownWait(Execute(n, actions).client)
    decreases |actions|
  {
    hide Inv, C.Next, C.ThrownWait, S.Next;
    if actions != [] {
      NextKeepsInv(n, actions[0]);
      ClientPart(n);
      match actions[0] {
        case ClientStep(step) => C.NextKeepsThrownWait(n.client, step);
        case DeliverToClient =>
          if n.toClient != [] {
            C.NextKeepsThrownWait(n.client, C.Message(Wire(n.toClient[0])));
          }
        case _ =>
      }
      ClientKeepsThrownWait(Next(n, actions[0]), actions[1..]);
    }
  }

  lemma ClientPart(n: Network)
    requires Inv(n)
    ensures C.Inv(n.client)
  {
  }

  /**
   * Between the two ends, over every run: a promise whose executor threw stays among the pending ones exactly until
   * disposal, which rejects it again.
   */
  lemma AThrownPromiseWaitsForDisposal(actions: seq<Action>, id: nat)
    ensures var c := Execute(Start(), actions).client;
            id in c.thrown ==> (id in c.pending <==> !c.disposed) && (C.Calls(c, id) == 2 <==> c.disposed)
  {
    StartInv();
    ExecuteKeepsInv(Start(), actions);
    ClientKeepsThrownWait(Start(), actions);
    var n := Execute(Start(), actions);
    var c := n.client;
    C.SettledAtMostOnce(c, id);
    hide Execute, S.Sound, Justified;
    if id in c.thrown && id !in c.pending {
      var k := PlaceOf(C.SettledIds(c.log), id);
      assert c.log[k] in c.log && c.log[k].id == id;
      if c.log[k].outcome.Answered? {
        UnwritableIsUnanswered(n, c.log[k]);
      }
    }
  }

  // ---------------------------------------------------------------------------------------------
  // How often a request is called
  // ---------------------------------------------------------------------------------------------

  ghost predicate NoReplay(actions: seq<Action>) {
    forall k :: 0 <= k < |actions| ==> !actions[k].Replay?
  }

  /** Of the requests sent, each was received or is in the lane, or neither, but not both and not twice. */
  ghost predicate Traffic(received: seq<Request>, lane: seq<ToServer>, outbox: seq<ToServer>) {
    Placed(S.Ids(received) + AskedIds(lane), AskedIds(outbox))
  }

  ghost predicate Placed(ids: seq<nat>, all: seq<nat>) {
    Distinct(ids) && forall id :: id in ids ==> id in all
  }

  lemma PlacedMore(ids: seq<nat>, all: seq<nat>, added: seq<nat>)
    requires Placed(ids, all) && Distinct(all + added)
    ensures Placed(ids + added, all + added)
  {
    DistinctParts(all, added);
    DistinctConcat(ids, added);
  }

  lemma PlacedPart(a: seq<nat>, b: seq<nat>, c: seq<nat>, all: seq<nat>)
    requires Placed(a + b + c, all)
    ensures Placed(a + c, all) && Placed(a + b, all)
  {
    DistinctParts(a + b, c);
    DistinctParts(a, b);
    DistinctConcat(a, c);
    assert forall id :: id in a + b ==> id in a + b + c;
  }

  lemma TrafficSends(received: seq<Request>, lane: seq<ToServer>, outbox: seq<ToServer>, added: seq<ToServer>)
    requires Traffic(received, lane, outbox) && Distinct(AskedIds(outbox + added))
    ensures Traffic(received, lane + added, outbox + added)
  {
    AskedConcat(outbox, added);
    AskedConcat(lane, added);
    hide AskedIds, Placed, Distinct, S.Ids;
    PlacedMore(S.Ids(received) + AskedIds(lane), AskedIds(outbox), AskedIds(added));
    assert S.Ids(received) + (AskedIds(lane) + AskedIds(added)) == S.Ids(received) + AskedIds(lane) + AskedIds(added);
  }

  lemma TrafficLoses(received: seq<Request>, lane: seq<ToServer>, lost: seq<ToServer>, outbox: seq<ToServer>)
    requires Traffic(received, lane + lost, outbox)
    ensures Traffic(received, lane, outbox)
  {
    AskedConcat(lane, lost);
    hide AskedIds, Placed, Distinct, S.Ids;
    assert S.Ids(received) + (AskedIds(lane) + AskedIds(lost)) == S.Ids(received) + AskedIds(lane) + AskedIds(lost);
    PlacedPart(S.Ids(received), AskedIds(lane), AskedIds(lost), AskedIds(outbox));
  }

  /** Taking the first message out of the lane, whether or not it is then received. */
  lemma TrafficTakes(received: seq<Request>, lane: seq<ToServer>, outbox: seq<ToServer>)
    requires Traffic(received, lane, outbox) && lane != []
    ensures Traffic(received, lane[1..], outbox)
    ensures lane[0].Ask? ==> Traffic(received + [lane[0].request], lane[1..], outbox)
  {
    var ids, first, rest := S.Ids(received), AskedId(lane[0]), AskedIds(lane[1..]);
    FirstAsked(lane);
    assert lane[0].Ask? ==> S.Ids(received + [lane[0].request]) == ids + first;
    hide AskedIds, Placed, Distinct, S.Ids;
    assert ids + (first + rest) == ids + first + rest;
    PlacedPart(ids, first, rest, AskedIds(outbox));
  }

  lemma FirstAsked(lane: seq<ToServer>)
    requires lane != []
    ensures AskedIds(lane) == AskedId(lane[0]) + AskedIds(lane[1..])
  {
    assert lane == [lane[0]] + lane[1..];
    AskedConcat([lane[0]], lane[1..]);
    AskedAlone(lane[0]);
    hide AskedIds;
  }

  lemma AskedAlone(message: ToServer)
    ensures AskedIds([message]) == AskedId(message)
  {
    assert [message][..0] == [];
  }

  ghost predicate InTraffic(n: Network) {
    Traffic(n.server.received, n.toServer, n.client.outbox)
  }

  lemma ClientKeepsTraffic(n: Network, step: C.Step)
    requires C.Inv(n.client) && InTraffic(n)
    ensures InTraffic(ClientActs(n, step))
  {
    var c, d := n.client, C.Next(n.client, step);
    C.NextKeepsInv(c, step);
    ClientGrows(c, step);
    hide C.Next, Traffic, Distinct, AskedIds;
    assert d.outbox == c.outbox + d.outbox[|c.outbox|..];
    TrafficSends(n.server.received, n.toServer, c.outbox, d.outbox[|c.outbox|..]);
  }

  lemma NextKeepsTraffic(n: Network, action: Action)
    requires Inv(n) && InTraffic(n) && !action.Replay?
    ensures InTraffic(Next(n, action))
  {
    hide C.Next, S.Next, S.Sound, GenuineMessages, Justified, Traffic;
    match action
    case ClientStep(step) => ClientKeepsTraffic(n, step);
    case ServerStep(step) =>
      ServerGrows(n.server, step);
      assert n.server.received + [] == n.server.received;
    case DeliverToServer =>
      if n.toServer != [] {
        TrafficTakes(n.server.received, n.toServer, n.client.outbox);
        ServerGrows(n.server, S.Message(n.toServer[0]));
        assert n.server.received + [] == n.server.received;
      }
    case DeliverToClient =>
      if n.toClient != [] {
        ClientKeepsTraffic(n.(toClient := n.toClient[1..]), C.Message(Wire(n.toClient[0])));
      }
    case LoseAllBut(toServer, toClient) =>
      if toServer <= |n.toServer| {
        assert n.toServer == n.toServer[..toServer] + n.toServer[toServer..];
        TrafficLoses(n.server.received, n.toServer[..toServer], n.toServer[toServer..], n.client.outbox);
      }
  }

  lemma {:induction false} ExecuteKeepsTraffic(n: Network, actions: seq<Action>)
    requires Inv(n) && InTraffic(n) && NoReplay(actions)
    ensures InTraffic(Execute(n, actions))
    decreases |actions|
  {
    if actions != [] {
      NextKeepsInv(n, actions[0]);
      NextKeepsTraffic(n, actions[0]);
      ExecuteKeepsTraffic(Next(n, actions[0]), actions[1..]);
    }
  }

  /**
   * Over every run: only the client's requests are called, each as often as it was received at most. None is called
   * twice, now or once every channel is registered, exactly when none was received twice; and without replays none is.
   */
  lemma RequestsAreCalledOnceExactlyWhen(actions: seq<Action>)
    ensures var n := Execute(Start(), actions);
            && (forall k :: 0 <= k < |n.server.calls| ==> Genuine(n.client.requests, n.server.calls[k].request))
            && (forall id :: S.Bounded(n.server, id))
            && (Distinct(S.Ids(n.server.received)) <==> S.SingleFromHere(n.server))
            && (NoReplay(actions) ==> S.SingleSoFar(n.server) && S.SingleFromHere(n.server))
  {
    var n := Execute(Start(), actions);
    StartInv();
    ExecuteKeepsInv(Start(), actions);
    S.SoundIsSingleExactlyWhen(n.server);
    forall id
      ensures S.Bounded(n.server, id)
    {
      S.SoundIsBounded(n.server, id);
    }
    if NoReplay(actions) {
      assert S.Ids([]) + AskedIds([]) == [];
      ExecuteKeepsTraffic(Start(), actions);
      DistinctParts(S.Ids(n.server.received), AskedIds(n.toServer));
    }
    hide S.Bounded, S.SingleFromHere, S.SingleSoFar, Distinct;
    CallsAreGenuine(n);
  }

  lemma CallsAreGenuine(n: Network)
    requires Inv(n)
    ensures forall k :: 0 <= k < |n.server.calls| ==> Genuine(n.client.requests, n.server.calls[k].request)
  {
    hide S.ParkedOnce, S.TimedOutOnce, S.ReturnedOnce, S.NoneForgotten, S.ActiveIsLatest, C.Inv, Justified;
    forall k | 0 <= k < |n.server.calls|
      ensures Genuine(n.client.requests, n.server.calls[k].request)
    {
      assert n.server.calls[k].request in n.server.received;
      assert Ask(n.server.calls[k].request).request == n.server.calls[k].request;
    }
  }

  lemma {:induction false} ExecuteOneMore(n: Network, actions: seq<Action>, last: Action)
    ensures Execute(n, actions + [last]) == Next(Execute(n, actions), last)
    decreases |actions|
  {
    if actions == [] {
      assert [last][1..] == [];
      assert Execute(Next(n, last), []) == Next(n, last);
    } else {
      assert (actions + [last])[1..] == actions[1..] + [last];
      ExecuteOneMore(Next(n, actions[0]), actions[1..], last);
    }
  }

  /** The client becomes idle, then asks a registered channel, and its message is delivered. */
  function IdleFirst(): seq<Action> {
    [ServerStep(S.Ready)] + [DeliverToClient]
  }

  function AskedOnce(channel: Text, name: Text, arg: Data): seq<Action> {
    IdleFirst() + [ClientStep(C.Call(channel, name, arg, true, false))] + [ServerStep(S.Registered(channel))] + [DeliverToServer]
  }

  lemma IdleState()
    ensures var n := Execute(Start(), IdleFirst());
            n.client == C.NewClient().(idle := true) && n.server == S.NewServer().(sent := [S.Hello])
            && n.toServer == [] && n.toClient == []
  {
    ExecuteOneMore(Start(), [], ServerStep(S.Ready));
    assert [] + [ServerStep(S.Ready)] == [ServerStep(S.Ready)];
    ExecuteOneMore(Start(), [ServerStep(S.Ready)], DeliverToClient);
    assert Next(Start(), ServerStep(S.Ready)).toClient == [S.Hello];
  }

  lemma AskedOnceState(channel: Text, name: Text, arg: Data)
    ensures var request := Request(0, channel, name, arg);
            var n := Execute(Start(), AskedOnce(channel, name, arg));
            && n.client.outbox == [Ask(request)] && n.toServer == [] && !n.server.disposed && channel in n.server.channels
            && n.server.received == [request] && n.server.calls == [S.Call(request, 0, S.Running, false)]
  {
    var request := Request(0, channel, name, arg);
    var ask := ClientStep(C.Call(channel, name, arg, true, false));
    IdleState();
    ExecuteOneMore(Start(), IdleFirst(), ask);
    ExecuteOneMore(Start(), IdleFirst() + [ask], ServerStep(S.Registered(channel)));
    ExecuteOneMore(Start(), IdleFirst() + [ask] + [ServerStep(S.Registered(channel))], DeliverToServer);
    hide Execute, IdleFirst, Next;
    IdleAsks(Execute(Start(), IdleFirst()), channel, name, arg);
    ServedOnce(Next(Execute(Start(), IdleFirst()), ask), channel, request);
  }

  lemma IdleAsks(n: Network, channel: Text, name: Text, arg: Data)
    requires n.client == C.NewClient().(idle := true) && n.toServer == []
    ensures var request := Request(0, channel, name, arg);
            var next := Next(n, ClientStep(C.Call(channel, name, arg, true, false)));
            next.client.outbox == [Ask(request)] && next.toServer == [Ask(request)] && next.server == n.server
  {
  }

  lemma ServedOnce(n: Network, channel: Text, request: Request)
    requires n.toServer == [Ask(request)] && n.server == S.NewServer().(sent := [S.Hello]) && request.channel == channel
    ensures var next := Next(Next(n, ServerStep(S.Registered(channel))), DeliverToServer);
            && next.client == n.client && next.toServer == [] && !next.server.disposed && channel in next.server.channels
            && next.server.received == [request] && next.server.calls == [S.Call(request, 0, S.Running, false)]
  {
  }

  function TwoCalls(request: Request): seq<S.Call> {
    [S.Call(request, 0, S.Running, false), S.Call(request, 1, S.Running, false)]
  }

  /** The property fails of the stack that replays: one request of the client, delivered and replayed, is called twice. */
  lemma AReplayedRequestIsCalledTwice(channel: Text, name: Text, arg: Data)
    ensures Execute(Start(), AskedOnce(channel, name, arg) + [Replay(0, 1)] + [DeliverToServer]).server.calls
         == TwoCalls(Request(0, channel, name, arg))
  {
    var actions := AskedOnce(channel, name, arg);
    AskedOnceState(channel, name, arg);
    ExecuteOneMore(Start(), actions, Replay(0, 1));
    ExecuteOneMore(Start(), actions + [Replay(0, 1)], DeliverToServer);
    hide Execute, AskedOnce, C.Next;
    var n := Next(Execute(Start(), actions), Replay(0, 1));
    assert n.toServer == [Ask(Request(0, channel, name, arg))];
  }
}
