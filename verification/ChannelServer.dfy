/** Promise requests of packages/rpc/src/channelServer.ts: parked ones, timed-out ones and running ones. */
module ChannelServer {
  import opened ChannelMessages
  import opened Serialization
  import opened Sequences
  import opened Texts

  datatype Timer = Armed | Fired

  /**
   * A request for a channel nobody has registered yet, and its timeout. Here and below `arrival` is the place of
   * the request message among those received: the same request may be received more than once.
   */
  datatype Parked = Parked(request: Request, arrival: nat, timer: Timer)

  datatype Phase = Running | Replied | Finished

  datatype Call = Call(request: Request, arrival: nat, phase: Phase, cancelled: bool)

  /** What the server has sent: its initialization, or a reply to a request, from its timer or from its call. */
  datatype Sent = Hello | Reply(request: Request, response: Response, arrival: nat, timedOut: bool)

  /**
   * The server's fields; `calls` lists every call started, `due` the channels whose flush is scheduled,
   * `received` the requests the listener saw.
   */
  datatype Server = Server(
    channels: set<Text>,
    parked: map<Text, seq<Parked>>,
    calls: seq<Call>,
    active: map<nat, nat>,
    due: set<Text>,
    sent: seq<Sent>,
    received: seq<Request>,
    disposed: bool)

  function NewServer(): Server {
    Server({}, map[], [], map[], {}, [], [], false)
  }

  function ParkedOn(s: Server, channel: Text): seq<Parked> {
    if channel in s.parked then s.parked[channel] else []
  }

  function StartCall(s: Server, request: Request, arrival: nat): Server {
    s.(calls := s.calls + [Call(request, arrival, Running, false)], active := s.active[request.id := |s.calls|])
  }

  function OnPromise(s: Server, request: Request, arrival: nat): Server {
    if request.channel in s.channels then StartCall(s, request, arrival)
    else s.(parked := s.parked[request.channel := ParkedOn(s, request.channel) + [Parked(request, arrival, Armed)]])
  }

  function DisposeActive(s: Server, id: nat): Server {
    if id !in s.active || s.active[id] >= |s.calls| then s
    else
      var n := s.active[id];
      s.(active := s.active - {id}, calls := s.calls[n := s.calls[n].(cancelled := true)])
  }

  function Receive(s: Server, message: ToServer): Server {
    if s.disposed then s
    else
      match message
      case Ask(request) => OnPromise(s.(received := s.received + [request]), request, |s.received|)
      case CancelOrDispose(id) => DisposeActive(s, id)
  }

  /** A running call ends, with data or with an error. */
  function Complete(s: Server, n: nat, kind: ResponseKind, data: Data): Server {
    if n >= |s.calls| || !s.calls[n].phase.Running? || kind.EventFire? then s
    else
      var call := s.calls[n];
      s.(calls := s.calls[n := call.(phase := Replied)],
      sent := s.sent + [Reply(call.request, Response(kind, call.request.id, data), call.arrival, false)])
  }

  /** The `finally` of a call, a turn later. */
  function Finish(s: Server, n: nat): Server {
    if n >= |s.calls| || !s.calls[n].phase.Replied? then s
    else
      s.(calls := s.calls[n := s.calls[n].(phase := Finished, cancelled := true)],
      active := s.active - {s.calls[n].request.id})
  }

  /** The timeout of a parked request; the request stays parked. */
  function TimerFires(s: Server, channel: Text, k: nat, notice: Data): Server {
    if k >= |ParkedOn(s, channel)| || !ParkedOn(s, channel)[k].timer.Armed? then s
    else
      var list := ParkedOn(s, channel);
      var request := list[k].request;
      s.(parked := s.parked[channel := list[k := list[k].(timer := Fired)]],
      sent := s.sent + [Reply(request, Response(PromiseError, request.id, notice), list[k].arrival, true)])
  }

  function Register(s: Server, channel: Text): Server {
    s.(channels := s.channels + {channel}, due := s.due + {channel})
  }

  function StartAll(s: Server, list: seq<Parked>): Server
    decreases |list|
  {
    if list == [] then s else StartAll(OnPromise(s, list[0].request, list[0].arrival), list[1..])
  }

  /** Every request parked on the channel is handed to it, answered by its timer or not. */
  function Flush(s: Server, channel: Text): Server {
    if channel !in s.due then s
    else
      var flushed := StartAll(s.(due := s.due - {channel}), ParkedOn(s, channel));
      flushed.(parked := flushed.parked - {channel})
  }

  function Dispose(s: Server): Server {
    s.(disposed := true,
    active := map[],
    calls := seq(|s.calls|, n requires 0 <= n < |s.calls| =>
        if exists id :: id in s.active && s.active[id] == n then s.calls[n].(cancelled := true) else s.calls[n]))
  }

  datatype Step =
    | Ready
    | Message(message: ToServer)
    | End(call: nat, kind: ResponseKind, data: Data)
    | Finally(call: nat)
    | Timeout(channel: Text, index: nat, notice: Data)
    | Registered(channel: Text)
    | FlushTurn(channel: Text)
    | Close

  function Next(s: Server, step: Step): Server {
    match step
    case Ready => s.(sent := s.sent + [Hello])
    case Message(message) => Receive(s, message)
    case End(call, kind, data) => Complete(s, call, kind, data)
    case Finally(call) => Finish(s, call)
    case Timeout(channel, index, notice) => TimerFires(s, channel, index, notice)
    case Registered(channel) => Register(s, channel)
    case FlushTurn(channel) => Flush(s, channel)
    case Close => Dispose(s)
  }

  function Execute(s: Server, steps: seq<Step>): Server
    decreases |steps|
  {
    if steps == [] then s else Execute(Next(s, steps[0]), steps[1..])
  }

  // ---------------------------------------------------------------------------------------------
  // What every step keeps, whatever is received and however often
  // ---------------------------------------------------------------------------------------------

  function Arrivals(calls: seq<Call>): (arrivals: seq<nat>)
    ensures |arrivals| == |calls| && forall n :: 0 <= n < |calls| ==> arrivals[n] == calls[n].arrival
  {
    seq(|calls|, n requires 0 <= n < |calls| => calls[n].arrival)
  }

  /** The arrivals replied to by a timer, or by a call. */
  function RepliedTo(sent: seq<Sent>, timedOut: bool): seq<nat> {
    if sent == [] then []
    else RepliedTo(sent[..|sent| - 1], timedOut) + RepliedBy(sent[|sent| - 1], timedOut)
  }

  function RepliedBy(sent: Sent, timedOut: bool): seq<nat> {
    if sent.Reply? && sent.timedOut == timedOut then [sent.arrival] else []
  }

  lemma RepliedOneMore(sent: seq<Sent>, one: Sent, timedOut: bool)
    ensures RepliedTo(sent + [one], timedOut) == RepliedTo(sent, timedOut) + RepliedBy(one, timedOut)
  {
    assert (sent + [one])[..|sent|] == sent;
  }

  ghost predicate ParkedAt(s: Server, channel: Text, k: int, entry: Parked) {
    channel in s.parked && 0 <= k < |s.parked[channel]| && s.parked[channel][k] == entry
  }

  ghost predicate IsParked(s: Server, arrival: nat) {
    exists channel, k, p :: ParkedAt(s, channel, k, p) && p.arrival == arrival
  }

  predicate Came(received: seq<Request>, request: Request, arrival: nat) {
    arrival < |received| && received[arrival] == request
  }

  /** Parked requests were received, stand under their channel, each in one place, and have no call. */
  ghost predicate ParkedOnce(s: Server) {
    && (forall channel, k, p :: ParkedAt(s, channel, k, p) ==>
          p.request.channel == channel && Came(s.received, p.request, p.arrival) && p.arrival !in Arrivals(s.calls))
    && (forall channel, k, p, other, m, q :: ParkedAt(s, channel, k, p) && ParkedAt(s, other, m, q) && p.arrival == q.arrival ==>
          channel == other && k == m)
  }

  /** One call for each time a request is received. */
  ghost predicate CalledOnce(s: Server) {
    && Distinct(Arrivals(s.calls))
    && (forall n :: 0 <= n < |s.calls| ==> Came(s.received, s.calls[n].request, s.calls[n].arrival))
  }

  /** The active call of an id is the latest one started for it, and nothing has cancelled it. */
  ghost predicate ActiveIsLatest(s: Server) {
    forall id :: id in s.active ==>
      && s.active[id] < |s.calls| && s.calls[s.active[id]].request.id == id && !s.calls[s.active[id]].cancelled
      && forall m :: s.active[id] < m < |s.calls| ==> s.calls[m].request.id != id
  }

  /** A timer replies at most once to an arrival, and not while it is armed. */
  ghost predicate TimedOutOnce(s: Server) {
    && Distinct(RepliedTo(s.sent, true))
    && (forall a :: a in RepliedTo(s.sent, true) ==> a < |s.received|)
    && (forall channel, k, p :: ParkedAt(s, channel, k, p) && p.timer.Armed? ==> p.arrival !in RepliedTo(s.sent, true))
  }

  /** A call replies at most once, and not while it runs. */
  ghost predicate ReturnedOnce(s: Server) {
    && Distinct(RepliedTo(s.sent, false))
    && (forall a :: a in RepliedTo(s.sent, false) ==> a in Arrivals(s.calls))
    && (forall n :: 0 <= n < |s.calls| && s.calls[n].phase.Running? ==> s.calls[n].arrival !in RepliedTo(s.sent, false))
  }

  /** A reply carries the id of its request. */
  ghost predicate OwnReplies(s: Server) {
    forall r :: r in s.sent && r.Reply? ==>
      r.response.id == r.request.id && !r.response.kind.EventFire? && Came(s.received, r.request, r.arrival)
  }

  /** Nothing received is forgotten: it is parked or was called. */
  ghost predicate NoneForgotten(s: Server) {
    forall a :: 0 <= a < |s.received| ==> a in Arrivals(s.calls) || IsParked(s, a)
  }

  ghost predicate Kept(s: Server) {
    ParkedOnce(s) && CalledOnce(s) && TimedOutOnce(s) && ReturnedOnce(s) && OwnReplies(s) && NoneForgotten(s)
  }

  ghost predicate Inv(s: Server) {
    Kept(s) && ActiveIsLatest(s)
  }

  lemma ArrivalsOneMore(calls: seq<Call>, call: Call)
    ensures Arrivals(calls + [call]) == Arrivals(calls) + [call.arrival]
  {
  }

  lemma SameArrivals(calls: seq<Call>, more: seq<Call>)
    requires |calls| == |more| && forall n :: 0 <= n < |calls| ==> more[n].arrival == calls[n].arrival
    ensures Arrivals(calls) == Arrivals(more)
  {
  }

  lemma SameParked(s: Server, t: Server)
    requires s.parked == t.parked
    ensures forall channel, k, p :: ParkedAt(t, channel, k, p) <==> ParkedAt(s, channel, k, p)
    ensures forall a :: IsParked(t, a) <==> IsParked(s, a)
  {
    assert forall channel, k, p :: ParkedAt(t, channel, k, p) <==> ParkedAt(s, channel, k, p);
  }

  // The calls

  /** An arrival with no place yet is given its call. */
  ghost predicate Unplaced(s: Server, request: Request, arrival: nat) {
    && Came(s.received, request, arrival) && arrival !in Arrivals(s.calls)
    && forall channel, k, p :: ParkedAt(s, channel, k, p) ==> p.arrival != arrival
  }

  /** As `Kept`, but for the arrivals still to be placed. */
  ghost predicate KeptBut(s: Server, unplaced: set<nat>) {
    && ParkedOnce(s) && CalledOnce(s) && TimedOutOnce(s) && ReturnedOnce(s) && OwnReplies(s)
    && forall a :: 0 <= a < |s.received| && a !in unplaced ==> a in Arrivals(s.calls) || IsParked(s, a)
  }

  lemma StartCallKeeps(s: Server, request: Request, arrival: nat, unplaced: set<nat>)
    requires KeptBut(s, unplaced) && Unplaced(s, request, arrival)
    ensures KeptBut(StartCall(s, request, arrival), unplaced - {arrival})
  {
    var t := StartCall(s, request, arrival);
    ArrivalsOneMore(s.calls, Call(request, arrival, Running, false));
    DistinctOneMore(Arrivals(s.calls), arrival);
    SameParked(s, t);
    hide ParkedAt, IsParked, Arrivals, Distinct;
    assert arrival !in RepliedTo(t.sent, false);
  }

  lemma StartCallKeepsActive(s: Server, request: Request, arrival: nat)
    requires ActiveIsLatest(s)
    ensures ActiveIsLatest(StartCall(s, request, arrival))
  {
  }

  lemma ParkKeeps(s: Server, request: Request, arrival: nat)
    requires KeptBut(s, {arrival}) && Unplaced(s, request, arrival) && arrival !in RepliedTo(s.sent, true)
    requires request.channel !in s.channels
    ensures Kept(OnPromise(s, request, arrival))
  {
    var t := OnPromise(s, request, arrival);
    OneMoreParked(s, request, arrival);
    hide ParkedOn, ParkedAt, Distinct, Arrivals, RepliedTo, OnPromise;
    assert forall a :: IsParked(s, a) ==> IsParked(t, a);
    hide IsParked;
  }

  /** Parking adds one entry, behind the others of its channel, and touches nothing else. */
  lemma OneMoreParked(s: Server, request: Request, arrival: nat)
    requires request.channel !in s.channels
    ensures var t, k, entry := OnPromise(s, request, arrival), |ParkedOn(s, request.channel)|, Parked(request, arrival, Armed);
            && t == s.(parked := t.parked) && ParkedAt(t, request.channel, k, entry) && IsParked(t, arrival)
            && (forall c, m, p :: ParkedAt(t, c, m, p) ==> ParkedAt(s, c, m, p) || (c == request.channel && m == k && p == entry))
            && (forall c, m, p :: ParkedAt(s, c, m, p) ==> ParkedAt(t, c, m, p) && !(c == request.channel && m == k))
  {
    assert ParkedAt(OnPromise(s, request, arrival), request.channel, |ParkedOn(s, request.channel)|, Parked(request, arrival, Armed));
  }

  /** Recording that a request was received. */
  lemma Arrived(s: Server, request: Request)
    requires Kept(s)
    ensures var t := s.(received := s.received + [request]);
            KeptBut(t, {|s.received|}) && Unplaced(t, request, |s.received|) && |s.received| !in RepliedTo(t.sent, true)
  {
    var t := s.(received := s.received + [request]);
    SameParked(s, t);
    hide ParkedAt, IsParked, Distinct, Arrivals;
    assert forall r, a :: Came(s.received, r, a) ==> Came(t.received, r, a);
  }

  lemma ReceiveKeeps(s: Server, message: ToServer)
    requires Inv(s)
    ensures Inv(Receive(s, message))
  {
    if !s.disposed {
      match message
      case Ask(request) =>
        var t := s.(received := s.received + [request]);
        Arrived(s, request);
        hide Kept, KeptBut, Unplaced;
        if request.channel in s.channels {
          StartCallKeeps(t, request, |s.received|, {|s.received|});
          NoneLeft(OnPromise(t, request, |s.received|), {|s.received|} - {|s.received|});
          StartCallKeepsActive(t, request, |s.received|);
        } else {
          ParkKeeps(t, request, |s.received|);
        }
      case CancelOrDispose(id) => CancelKeeps(s, id);
    }
  }

  lemma NoneLeft(s: Server, unplaced: set<nat>)
    requires unplaced == {}
    ensures KeptBut(s, unplaced) <==> Kept(s)
  {
    hide ParkedOnce, CalledOnce, TimedOutOnce, ReturnedOnce, OwnReplies, IsParked, Arrivals;
  }

  /** A step that changes calls only in their phases and cancellations. */
  lemma CallsTouched(s: Server, t: Server)
    requires Kept(s) && t.parked == s.parked && t.received == s.received && t.sent == s.sent && |t.calls| == |s.calls|
    requires forall n :: 0 <= n < |s.calls| ==>
               && t.calls[n].request == s.calls[n].request && t.calls[n].arrival == s.calls[n].arrival
               && (t.calls[n].phase.Running? ==> s.calls[n].phase.Running?)
    ensures Kept(t)
  {
    SameArrivals(s.calls, t.calls);
    SameParked(s, t);
    hide ParkedAt, IsParked, Distinct, Arrivals, RepliedTo;
  }

  lemma CancelKeeps(s: Server, id: nat)
    requires Inv(s)
    ensures Inv(DisposeActive(s, id))
  {
    CallsTouched(s, DisposeActive(s, id));
    hide Kept;
  }

  lemma FinishKeeps(s: Server, n: nat)
    requires Inv(s)
    ensures Inv(Finish(s, n))
  {
    if n < |s.calls| && s.calls[n].phase.Replied? {
      CallsTouched(s, Finish(s, n));
      hide Kept;
    }
  }

  lemma DisposeKeeps(s: Server)
    requires Inv(s)
    ensures Inv(Dispose(s))
  {
    CallsTouched(s, Dispose(s));
    hide Kept;
  }

  lemma CompleteKeeps(s: Server, n: nat, kind: ResponseKind, data: Data)
    requires Inv(s)
    ensures Inv(Complete(s, n, kind, data))
  {
    if n < |s.calls| && s.calls[n].phase.Running? && !kind.EventFire? {
      hide Kept, ActiveIsLatest, RepliedTo;
      var call := s.calls[n];
      var quiet := s.(calls := s.calls[n := call.(phase := Replied)]);
      CallsTouched(s, quiet);
      RunningIsUnanswered(s, n);
      CallReplies(quiet, n, Reply(call.request, Response(kind, call.request.id, data), call.arrival, false));
      ActiveStays(s, Complete(s, n, kind, data));
    }
  }

  lemma ActiveStays(s: Server, t: Server)
    requires ActiveIsLatest(s) && t.active == s.active && |t.calls| == |s.calls|
    requires forall n :: 0 <= n < |s.calls| ==>
               t.calls[n].request == s.calls[n].request && t.calls[n].cancelled == s.calls[n].cancelled
    ensures ActiveIsLatest(t)
  {
  }

  lemma RunningIsUnanswered(s: Server, n: nat)
    requires Kept(s) && n < |s.calls| && s.calls[n].phase.Running?
    ensures s.calls[n].arrival !in RepliedTo(s.sent, false)
    ensures forall m :: 0 <= m < |s.calls| && s.calls[m].arrival == s.calls[n].arrival ==> m == n
  {
    assert forall m :: 0 <= m < |s.calls| ==> Arrivals(s.calls)[m] == s.calls[m].arrival;
  }

  lemma CallReplies(s: Server, n: nat, reply: Sent)
    requires Kept(s) && n < |s.calls| && reply.Reply? && !reply.timedOut
    requires reply.arrival == s.calls[n].arrival && reply.request == s.calls[n].request
    requires reply.arrival !in RepliedTo(s.sent, false)
    requires forall m :: 0 <= m < |s.calls| && s.calls[m].arrival == reply.arrival ==> !s.calls[m].phase.Running?
    requires reply.response.id == reply.request.id && !reply.response.kind.EventFire?
    ensures Kept(s.(sent := s.sent + [reply]))
  {
    hide ParkedOnce, TimedOutOnce, ReturnedOnce, NoneForgotten;
    CallReturned(s, n, reply);
    CallLeavesTimers(s, reply);
    hide RepliedTo, Distinct, Arrivals;
  }

  lemma CallLeavesTimers(s: Server, reply: Sent)
    requires ParkedOnce(s) && TimedOutOnce(s) && NoneForgotten(s) && (reply.Reply? ==> !reply.timedOut)
    ensures var t := s.(sent := s.sent + [reply]); ParkedOnce(t) && TimedOutOnce(t) && NoneForgotten(t)
  {
    var t := s.(sent := s.sent + [reply]);
    RepliedOneMore(s.sent, reply, true);
    assert RepliedTo(s.sent, true) + [] == RepliedTo(s.sent, true);
    SameParked(s, t);
    hide ParkedAt, IsParked, Distinct, Arrivals, RepliedTo;
  }

  lemma CallReturned(s: Server, n: nat, reply: Sent)
    requires ReturnedOnce(s) && n < |s.calls| && reply.Reply? && !reply.timedOut && reply.arrival == s.calls[n].arrival
    requires reply.arrival !in RepliedTo(s.sent, false)
    requires forall m :: 0 <= m < |s.calls| && s.calls[m].arrival == reply.arrival ==> !s.calls[m].phase.Running?
    ensures ReturnedOnce(s.(sent := s.sent + [reply]))
  {
    RepliedOneMore(s.sent, reply, false);
    DistinctOneMore(RepliedTo(s.sent, false), reply.arrival);
    assert Arrivals(s.calls)[n] == reply.arrival;
    hide Distinct, Arrivals, RepliedTo;
  }

  // The timers

  lemma TimerKeeps(s: Server, channel: Text, k: nat, notice: Data)
    requires Inv(s)
    ensures Inv(TimerFires(s, channel, k, notice))
  {
    if k < |ParkedOn(s, channel)| && ParkedOn(s, channel)[k].timer.Armed? {
      hide ParkedOnce, CalledOnce, TimedOutOnce, ReturnedOnce, OwnReplies, NoneForgotten, ActiveIsLatest, TimerFires, ParkedOn;
      TimerTimesOut(s, channel, k, notice);
      TimerParks(s, channel, k, notice);
      TimerSends(s, channel, k, notice);
    }
  }

  lemma TimerSends(s: Server, channel: Text, k: nat, notice: Data)
    requires OwnReplies(s) && CalledOnce(s) && ReturnedOnce(s) && ParkedOnce(s) && ActiveIsLatest(s)
    requires k < |ParkedOn(s, channel)| && ParkedOn(s, channel)[k].timer.Armed?
    ensures var t := TimerFires(s, channel, k, notice);
            OwnReplies(t) && CalledOnce(t) && ReturnedOnce(t) && ActiveIsLatest(t)
  {
    var entry := ParkedOn(s, channel)[k];
    assert ParkedAt(s, channel, k, entry);
    RepliedOneMore(s.sent, Reply(entry.request, Response(PromiseError, entry.request.id, notice), entry.arrival, true), false);
    assert RepliedTo(s.sent, false) + [] == RepliedTo(s.sent, false);
    hide Distinct, Arrivals, RepliedTo;
  }

  lemma TimerParks(s: Server, channel: Text, k: nat, notice: Data)
    requires ParkedOnce(s) && NoneForgotten(s) && k < |ParkedOn(s, channel)| && ParkedOn(s, channel)[k].timer.Armed?
    ensures var t := TimerFires(s, channel, k, notice); ParkedOnce(t) && NoneForgotten(t)
  {
    var t := TimerFires(s, channel, k, notice);
    FiredParked(s, t, channel, k);
    forall a | IsParked(s, a)
      ensures IsParked(t, a)
    {
      var c, m, p :| ParkedAt(s, c, m, p) && p.arrival == a;
      if c == channel && m == k {
        assert ParkedAt(t, channel, k, p.(timer := Fired));
      } else {
        assert ParkedAt(t, c, m, p);
      }
    }
    hide IsParked, ParkedAt, ParkedOn, Arrivals;
  }

  lemma TimerTimesOut(s: Server, channel: Text, k: nat, notice: Data)
    requires TimedOutOnce(s) && ParkedOnce(s) && k < |ParkedOn(s, channel)| && ParkedOn(s, channel)[k].timer.Armed?
    ensures TimedOutOnce(TimerFires(s, channel, k, notice))
  {
    var t := TimerFires(s, channel, k, notice);
    var entry := ParkedOn(s, channel)[k];
    assert ParkedAt(s, channel, k, entry);
    RepliedOneMore(s.sent, Reply(entry.request, Response(PromiseError, entry.request.id, notice), entry.arrival, true), true);
    DistinctOneMore(RepliedTo(s.sent, true), entry.arrival);
    FiredParked(s, t, channel, k);
    hide ParkedOn, TimerFires, Arrivals;
    forall c, m, p | ParkedAt(t, c, m, p) && p.timer.Armed?
      ensures p.arrival !in RepliedTo(t.sent, true)
    {
      assert ParkedAt(s, c, m, p);
    }
  }

  lemma FiredParked(s: Server, t: Server, channel: Text, k: nat)
    requires k < |ParkedOn(s, channel)|
    requires t.parked == s.parked[channel := ParkedOn(s, channel)[k := ParkedOn(s, channel)[k].(timer := Fired)]]
    ensures forall c, m, p :: ParkedAt(t, c, m, p) && !(c == channel && m == k) ==> ParkedAt(s, c, m, p)
    ensures forall p :: ParkedAt(t, channel, k, p) ==>
              && p.timer.Fired? && ParkedAt(s, channel, k, ParkedOn(s, channel)[k])
              && p.request == ParkedOn(s, channel)[k].request && p.arrival == ParkedOn(s, channel)[k].arrival
  {
  }

  // The flush

  /** The flush with the list of one channel taken out first: the same calls, in the same order. */
  lemma {:induction false} StartAllFields(s: Server, list: seq<Parked>, channel: Text)
    requires channel in s.channels && forall k :: 0 <= k < |list| ==> list[k].request.channel == channel
    ensures StartAll(s, list).(parked := s.parked - {channel}) == StartAll(s.(parked := s.parked - {channel}), list)
    ensures StartAll(s, list).parked == s.parked
    decreases |list|
  {
    if list != [] {
      StartAllFields(OnPromise(s, list[0].request, list[0].arrival), list[1..], channel);
    }
  }

  function ListArrivals(list: seq<Parked>): set<nat> {
    set k | 0 <= k < |list| :: list[k].arrival
  }

  /** Arrivals of one channel that have no place, each once. */
  ghost predicate Startable(s: Server, list: seq<Parked>, channel: Text) {
    && (forall k :: 0 <= k < |list| ==> list[k].request.channel == channel && Unplaced(s, list[k].request, list[k].arrival))
    && (forall i, j :: 0 <= i < j < |list| ==> list[i].arrival != list[j].arrival)
  }

  lemma {:induction false} StartAllKeeps(s: Server, list: seq<Parked>, channel: Text)
    requires KeptBut(s, ListArrivals(list)) && ActiveIsLatest(s) && channel in s.channels && Startable(s, list, channel)
    ensures Inv(StartAll(s, list))
    decreases |list|
  {
    hide KeptBut, Kept, ActiveIsLatest, Unplaced;
    if list == [] {
      NoneLeft(s, ListArrivals(list));
    } else {
      var t := OnPromise(s, list[0].request, list[0].arrival);
      StartCallKeeps(s, list[0].request, list[0].arrival, ListArrivals(list));
      StartCallKeepsActive(s, list[0].request, list[0].arrival);
      assert ListArrivals(list) - {list[0].arrival} == ListArrivals(list[1..]);
      StartableTail(s, t, list, channel);
      StartAllKeeps(t, list[1..], channel);
    }
  }

  lemma StartableTail(s: Server, t: Server, list: seq<Parked>, channel: Text)
    requires list != [] && Startable(s, list, channel) && t == StartCall(s, list[0].request, list[0].arrival)
    ensures Startable(t, list[1..], channel)
  {
    ArrivalsOneMore(s.calls, Call(list[0].request, list[0].arrival, Running, false));
    SameParked(s, t);
    hide Arrivals, ParkedAt;
  }

  lemma FlushKeeps(s: Server, channel: Text)
    requires Inv(s) && s.due <= s.channels
    ensures Inv(Flush(s, channel))
  {
    if channel in s.due {
      hide Inv, Startable, KeptBut, ActiveIsLatest;
      var list := ParkedOn(s, channel);
      var rest := s.(due := s.due - {channel}, parked := s.parked - {channel});
      TakenOut(s, rest, channel);
      StartAllKeeps(rest, list, channel);
      ParkedChannels(s, channel);
      StartAllFields(s.(due := s.due - {channel}), list, channel);
    }
  }

  lemma ParkedChannels(s: Server, channel: Text)
    requires Inv(s)
    ensures forall k :: 0 <= k < |ParkedOn(s, channel)| ==>
              ParkedAt(s, channel, k, ParkedOn(s, channel)[k]) && ParkedOn(s, channel)[k].request.channel == channel
  {
    forall k | 0 <= k < |ParkedOn(s, channel)|
      ensures ParkedAt(s, channel, k, ParkedOn(s, channel)[k]) && ParkedOn(s, channel)[k].request.channel == channel
    {
      assert ParkedAt(s, channel, k, ParkedOn(s, channel)[k]);
    }
  }

  lemma TakenOut(s: Server, rest: Server, channel: Text)
    requires Inv(s) && rest == s.(due := s.due - {channel}, parked := s.parked - {channel})
    ensures Startable(rest, ParkedOn(s, channel), channel)
    ensures KeptBut(rest, ListArrivals(ParkedOn(s, channel))) && ActiveIsLatest(rest)
  {
    ParkedChannels(s, channel);
    TakenOutEntries(s, rest, channel);
    hide IsParked, ParkedAt, Arrivals, Distinct, RepliedTo;
    assert forall k :: 0 <= k < |ParkedOn(s, channel)| ==> ParkedOn(s, channel)[k].arrival !in Arrivals(s.calls);
    hide ParkedOn;
  }

  /** The other channels' entries stay, and this one's arrivals are in the list. */
  lemma TakenOutEntries(s: Server, rest: Server, channel: Text)
    requires rest == s.(due := s.due - {channel}, parked := s.parked - {channel})
    ensures forall c, m, p :: ParkedAt(rest, c, m, p) <==> ParkedAt(s, c, m, p) && c != channel
    ensures forall a :: IsParked(s, a) && a !in ListArrivals(ParkedOn(s, channel)) ==> IsParked(rest, a)
    ensures forall m :: 0 <= m < |ParkedOn(s, channel)| ==> ParkedOn(s, channel)[m].arrival in ListArrivals(ParkedOn(s, channel))
  {
    var list := ParkedOn(s, channel);
    assert forall m :: 0 <= m < |list| ==> list[m].arrival in ListArrivals(list);
    forall a | IsParked(s, a) && a !in ListArrivals(list)
      ensures IsParked(rest, a)
    {
      var c, m, p :| ParkedAt(s, c, m, p) && p.arrival == a;
      assert ParkedAt(rest, c, m, p);
    }
  }

  lemma ReadyKeeps(s: Server)
    requires Inv(s)
    ensures Inv(s.(sent := s.sent + [Hello]))
  {
    hide ParkedOnce, TimedOutOnce, ReturnedOnce, NoneForgotten;
    CallLeavesTimers(s, Hello);
    HelloReturnsNothing(s);
    hide RepliedTo, Distinct, Arrivals;
  }

  lemma HelloReturnsNothing(s: Server)
    requires ReturnedOnce(s)
    ensures ReturnedOnce(s.(sent := s.sent + [Hello]))
  {
    RepliedOneMore(s.sent, Hello, false);
    assert RepliedTo(s.sent, false) + [] == RepliedTo(s.sent, false);
    hide RepliedTo, Distinct, Arrivals;
  }

  lemma RegisterKeeps(s: Server, channel: Text)
    requires Inv(s)
    ensures Inv(Register(s, channel))
  {
    SameParked(s, Register(s, channel));
    hide ParkedAt, IsParked, Arrivals, Distinct, RepliedTo;
  }

  /** The invariant, and that only registered channels are flushed. */
  ghost predicate Sound(s: Server) {
    Inv(s) && s.due <= s.channels
  }

  lemma {:induction false} StartAllLeaves(s: Server, list: seq<Parked>)
    ensures var t := StartAll(s, list);
            && t.channels == s.channels && t.due == s.due && t.sent == s.sent && t.received == s.received
            && t.disposed == s.disposed && s.calls <= t.calls
    decreases |list|
  {
    if list != [] {
      StartAllLeaves(OnPromise(s, list[0].request, list[0].arrival), list[1..]);
    }
  }

  lemma NextKeepsSound(s: Server, step: Step)
    requires Sound(s)
    ensures Sound(Next(s, step))
  {
    hide Inv, StartAll, TimerFires, Complete, Finish;
    NextKeepsDue(s, step);
    match step
    case Ready => ReadyKeeps(s);
    case Message(message) => ReceiveKeeps(s, message);
    case End(call, kind, data) => CompleteKeeps(s, call, kind, data);
    case Finally(call) => FinishKeeps(s, call);
    case Timeout(channel, index, notice) => TimerKeeps(s, channel, index, notice);
    case Registered(channel) => RegisterKeeps(s, channel);
    case FlushTurn(channel) => FlushKeeps(s, channel);
    case Close => DisposeKeeps(s);
  }

  lemma NextKeepsDue(s: Server, step: Step)
    requires s.due <= s.channels
    ensures Next(s, step).due <= Next(s, step).channels
  {
    if step.FlushTurn? {
      StartAllLeaves(s.(due := s.due - {step.channel}), ParkedOn(s, step.channel));
    }
  }

  lemma {:induction false} ExecuteKeepsSound(s: Server, steps: seq<Step>)
    requires Sound(s)
    ensures Sound(Execute(s, steps))
    decreases |steps|
  {
    if steps != [] {
      NextKeepsSound(s, steps[0]);
      ExecuteKeepsSound(Next(s, steps[0]), steps[1..]);
    }
  }

  /** The server after a run from its start. */
  function After(steps: seq<Step>): Server {
    Execute(NewServer(), steps)
  }

  lemma AfterIsSound(steps: seq<Step>)
    ensures Sound(After(steps))
  {
    assert Sound(NewServer());
    ExecuteKeepsSound(NewServer(), steps);
  }

  // ---------------------------------------------------------------------------------------------
  // Over every run: how often a request is served
  // ---------------------------------------------------------------------------------------------

  lemma {:induction false} ExecuteConcat(s: Server, front: seq<Step>, back: seq<Step>)
    ensures Execute(s, front + back) == Execute(Execute(s, front), back)
    decreases |front|
  {
    if front == [] {
      assert front + back == back;
    } else {
      assert (front + back)[1..] == front[1..] + back;
      ExecuteConcat(Next(s, front[0]), front[1..], back);
    }
  }

  lemma AfterOneMore(steps: seq<Step>, i: nat)
    requires i < |steps|
    ensures After(steps[..i + 1]) == Next(After(steps[..i]), steps[i])
  {
    assert steps[..i + 1] == steps[..i] + [steps[i]];
    ExecuteConcat(NewServer(), steps[..i], [steps[i]]);
    assert Execute(After(steps[..i]), [steps[i]]) == Execute(Next(After(steps[..i]), steps[i]), []);
  }

  /**
   * Each time a request is received it is parked or called, not both; it is called at most once and replied to
   * at most twice, by its timer and by its call.
   */
  lemma EachArrivalIsServedOnce(steps: seq<Step>)
    ensures var s := After(steps);
            && Distinct(Arrivals(s.calls)) && Distinct(RepliedTo(s.sent, true)) && Distinct(RepliedTo(s.sent, false))
            && forall a :: 0 <= a < |s.received| ==> (a in Arrivals(s.calls) <==> !IsParked(s, a))
  {
    AfterIsSound(steps);
    hide Arrivals, RepliedTo, Distinct;
  }

  function Ids(requests: seq<Request>): (ids: seq<nat>)
    ensures |ids| == |requests| && forall k :: 0 <= k < |ids| ==> ids[k] == requests[k].id
  {
    seq(|requests|, k requires 0 <= k < |requests| => requests[k].id)
  }

  function CallIds(calls: seq<Call>): (ids: seq<nat>)
    ensures |ids| == |calls| && forall n :: 0 <= n < |calls| ==> ids[n] == calls[n].request.id
  {
    seq(|calls|, n requires 0 <= n < |calls| => calls[n].request.id)
  }

  /** The ids replied to by a timer, or by a call. */
  function ReplyIds(sent: seq<Sent>, timedOut: bool): seq<nat> {
    if sent == [] then []
    else
      var last := sent[|sent| - 1];
      ReplyIds(sent[..|sent| - 1], timedOut) + if last.Reply? && last.timedOut == timedOut then [last.response.id] else []
  }

  lemma {:induction false} RepliesCame(received: seq<Request>, sent: seq<Sent>, timedOut: bool)
    requires forall r :: r in sent && r.Reply? ==> r.response.id == r.request.id && Came(received, r.request, r.arrival)
    ensures |ReplyIds(sent, timedOut)| == |RepliedTo(sent, timedOut)|
    ensures forall k :: 0 <= k < |RepliedTo(sent, timedOut)| ==>
              && RepliedTo(sent, timedOut)[k] < |received|
              && ReplyIds(sent, timedOut)[k] == Ids(received)[RepliedTo(sent, timedOut)[k]]
  {
    if sent != [] {
      RepliesCame(received, sent[..|sent| - 1], timedOut);
    }
  }

  /** Calls and timer replies of an id are bounded by how often it was received, replies of calls by its calls. */
  ghost predicate Bounded(s: Server, id: nat) {
    && Times(CallIds(s.calls), id) <= Times(Ids(s.received), id)
    && Times(ReplyIds(s.sent, true), id) <= Times(Ids(s.received), id)
    && Times(ReplyIds(s.sent, false), id) <= Times(CallIds(s.calls), id)
  }

  lemma CallsAndRepliesAreBounded(steps: seq<Step>, id: nat)
    ensures Bounded(After(steps), id)
  {
    AfterIsSound(steps);
    SoundIsBounded(After(steps), id);
  }

  lemma SoundIsBounded(s: Server, id: nat)
    requires Sound(s)
    ensures Bounded(s, id)
  {
    hide ParkedOnce, NoneForgotten, ActiveIsLatest, Times, Distinct;
    TakenFrom(CallIds(s.calls), Arrivals(s.calls), Ids(s.received), id);
    RepliesCame(s.received, s.sent, true);
    TakenFrom(ReplyIds(s.sent, true), RepliedTo(s.sent, true), Ids(s.received), id);
    RepliesAreOfCalls(s, id);
  }

  lemma RepliesAreOfCalls(s: Server, id: nat)
    requires CalledOnce(s) && ReturnedOnce(s) && OwnReplies(s)
    ensures Times(ReplyIds(s.sent, false), id) <= Times(CallIds(s.calls), id)
  {
    RepliesCame(s.received, s.sent, false);
    var arrivals := RepliedTo(s.sent, false);
    var from := seq(|arrivals|, k requires 0 <= k < |arrivals| => PlaceOf(Arrivals(s.calls), arrivals[k]));
    assert forall k :: 0 <= k < |arrivals| ==> arrivals[k] == s.calls[from[k]].arrival;
    hide RepliedTo, ReplyIds, Times;
    TakenFrom(ReplyIds(s.sent, false), from, CallIds(s.calls), id);
  }

  ghost predicate NoRequests(steps: seq<Step>) {
    forall k :: 0 <= k < |steps| && steps[k].Message? ==> !steps[k].message.Ask?
  }

  lemma {:induction false} NoneReceived(s: Server, steps: seq<Step>)
    requires NoRequests(steps)
    ensures Execute(s, steps).received == s.received
    decreases |steps|
  {
    if steps != [] {
      if steps[0].FlushTurn? {
        StartAllLeaves(s.(due := s.due - {steps[0].channel}), ParkedOn(s, steps[0].channel));
      }
      assert Next(s, steps[0]).received == s.received;
      NoneReceived(Next(s, steps[0]), steps[1..]);
    }
  }

  lemma CallsStay(s: Server, t: Server)
    requires s.calls <= t.calls
    ensures forall a :: a in Arrivals(s.calls) ==> a in Arrivals(t.calls)
  {
    assert forall n :: 0 <= n < |s.calls| ==> Arrivals(t.calls)[n] == Arrivals(s.calls)[n];
  }

  /** Registering a channel and letting its flush run calls everything ever received for it. */
  lemma FlushedIsCalled(s: Server, channel: Text)
    requires Sound(s)
    ensures var t := Next(Register(s, channel), FlushTurn(channel));
            && Sound(t) && t.received == s.received && (forall a :: a in Arrivals(s.calls) ==> a in Arrivals(t.calls))
            && forall a :: 0 <= a < |s.received| && s.received[a].channel == channel ==> a in Arrivals(t.calls)
  {
    var u := Register(s, channel);
    var t := Next(u, FlushTurn(channel));
    NextKeepsSound(s, Registered(channel));
    NextKeepsSound(u, FlushTurn(channel));
    StartAllLeaves(u.(due := u.due - {channel}), ParkedOn(u, channel));
    assert channel !in t.parked && s.calls <= t.calls;
    CallsStay(s, t);
    hide Flush, Register, StartAll, Arrivals, CalledOnce, TimedOutOnce, ReturnedOnce, OwnReplies, ActiveIsLatest;
  }

  /** Two arrivals of one id make two calls of it once their channels are registered. */
  lemma RepeatedIsCalledTwice(s: Server, a: nat, b: nat)
    requires Sound(s) && a < b < |s.received| && s.received[a].id == s.received[b].id
    ensures var ca, cb := s.received[a].channel, s.received[b].channel;
            !Distinct(CallIds(Execute(s, [Registered(ca), FlushTurn(ca), Registered(cb), FlushTurn(cb)]).calls))
  {
    hide Next, Sound, Register, Distinct;
    var ca, cb := s.received[a].channel, s.received[b].channel;
    FlushedIsCalled(s, ca);
    FlushedIsCalled(Next(Register(s, ca), FlushTurn(ca)), cb);
    FourSteps(s, Registered(ca), FlushTurn(ca), Registered(cb), FlushTurn(cb));
    RegisterSteps(s, ca);
    RegisterSteps(Next(Register(s, ca), FlushTurn(ca)), cb);
    TwoCallsOfOneId(Execute(s, [Registered(ca), FlushTurn(ca), Registered(cb), FlushTurn(cb)]), a, b);
  }

  lemma RegisterSteps(s: Server, channel: Text)
    ensures Next(s, Registered(channel)) == Register(s, channel)
  {
  }

  lemma TwoCallsOfOneId(s: Server, a: nat, b: nat)
    requires Sound(s) && a < b < |s.received| && s.received[a].id == s.received[b].id
    requires a in Arrivals(s.calls) && b in Arrivals(s.calls)
    ensures !Distinct(CallIds(s.calls))
  {
    var m, n := PlaceOf(Arrivals(s.calls), a), PlaceOf(Arrivals(s.calls), b);
    assert CallIds(s.calls)[m] == CallIds(s.calls)[n];
  }

  lemma FourSteps(s: Server, a: Step, b: Step, c: Step, d: Step)
    ensures Execute(s, [a, b, c, d]) == Next(Next(Next(Next(s, a), b), c), d)
  {
    hide Next;
    var t := Next(Next(s, a), b);
    TwoSteps(s, a, b);
    TwoSteps(t, c, d);
    assert [a, b, c, d] == [a, b] + [c, d];
    ExecuteConcat(s, [a, b], [c, d]);
  }

  lemma TwoSteps(s: Server, a: Step, b: Step)
    ensures Execute(s, [a, b]) == Next(Next(s, a), b)
  {
    hide Next;
    assert [a, b][1..] == [b] && [b][1..] == [];
    assert Execute(Next(s, a), [b]) == Execute(Next(Next(s, a), b), []);
  }

  /** No id is called twice, now or later, short of another request. */
  ghost predicate SingleFromHere(s: Server) {
    forall more :: NoRequests(more) ==> Distinct(CallIds(Execute(s, more).calls))
  }

  ghost predicate SingleSoFar(s: Server) {
    Distinct(CallIds(s.calls)) && Distinct(ReplyIds(s.sent, true)) && Distinct(ReplyIds(s.sent, false))
  }

  /**
   * The exact condition: no id is called twice, whatever happens from here on short of another request, exactly
   * when no id was received twice; then no id has two timer replies or two replies of calls either.
   */
  lemma IdsAreCalledOnceExactlyWhen(steps: seq<Step>)
    ensures Distinct(Ids(After(steps).received)) <==> SingleFromHere(After(steps))
    ensures Distinct(Ids(After(steps).received)) ==> SingleSoFar(After(steps))
  {
    AfterIsSound(steps);
    hide After, Sound, SingleFromHere, SingleSoFar, Distinct;
    SoundIsSingleExactlyWhen(After(steps));
  }

  lemma SoundIsSingleExactlyWhen(s: Server)
    requires Sound(s)
    ensures Distinct(Ids(s.received)) <==> SingleFromHere(s)
    ensures Distinct(Ids(s.received)) ==> SingleSoFar(s)
  {
    hide Sound;
    if Distinct(Ids(s.received)) {
      forall more | NoRequests(more)
        ensures Distinct(CallIds(Execute(s, more).calls))
      {
        ExecuteKeepsSound(s, more);
        NoneReceived(s, more);
        BoundedIsDistinct(Execute(s, more));
      }
      BoundedIsDistinct(s);
    } else {
      var a, b :| 0 <= a < b < |s.received| && Ids(s.received)[a] == Ids(s.received)[b];
      var ca, cb := s.received[a].channel, s.received[b].channel;
      var more := [Registered(ca), FlushTurn(ca), Registered(cb), FlushTurn(cb)];
      RepeatedIsCalledTwice(s, a, b);
      assert NoRequests(more) && !Distinct(CallIds(Execute(s, more).calls));
    }
  }

  lemma BoundedIsDistinct(s: Server)
    requires Sound(s) && Distinct(Ids(s.received))
    ensures SingleSoFar(s)
  {
    hide Sound, Distinct, Times, Ids, CallIds, ReplyIds;
    DistinctTimes(Ids(s.received));
    DistinctTimes(CallIds(s.calls));
    DistinctTimes(ReplyIds(s.sent, true));
    DistinctTimes(ReplyIds(s.sent, false));
    forall id: nat
      ensures Times(CallIds(s.calls), id) <= 1 && Times(ReplyIds(s.sent, true), id) <= 1 && Times(ReplyIds(s.sent, false), id) <= 1
    {
      SoundIsBounded(s, id);
    }
  }

  /** The transport replays whatever is not acknowledged, so a request can be received twice, and is then called twice. */
  lemma ARepeatedRequestIsCalledTwice(request: Request)
    ensures After([Registered(request.channel), Message(Ask(request)), Message(Ask(request))]).calls
         == [Call(request, 0, Running, false), Call(request, 1, Running, false)]
  {
    var steps := [Registered(request.channel), Message(Ask(request)), Message(Ask(request))];
    AfterOneMore(steps, 0);
    AfterOneMore(steps, 1);
    AfterOneMore(steps, 2);
    assert steps[..0] == [] && steps[..3] == steps;
  }

  // ---------------------------------------------------------------------------------------------
  // Over every run: when there is a second reply
  // ---------------------------------------------------------------------------------------------

  /** The step is the timeout of this arrival, parked and not timed out before. */
  predicate TimesOut(s: Server, step: Step, arrival: nat) {
    && step.Timeout? && step.index < |ParkedOn(s, step.channel)|
    && ParkedOn(s, step.channel)[step.index].timer.Armed? && ParkedOn(s, step.channel)[step.index].arrival == arrival
  }

  /** The step is the end of this arrival's call. */
  predicate Ends(s: Server, step: Step, arrival: nat) {
    && step.End? && step.call < |s.calls| && !step.kind.EventFire?
    && s.calls[step.call].phase.Running? && s.calls[step.call].arrival == arrival
  }

  lemma StepReplies(s: Server, step: Step, arrival: nat)
    ensures arrival in RepliedTo(Next(s, step).sent, true) <==> arrival in RepliedTo(s.sent, true) || TimesOut(s, step, arrival)
    ensures arrival in RepliedTo(Next(s, step).sent, false) <==> arrival in RepliedTo(s.sent, false) || Ends(s, step, arrival)
  {
    hide RepliedTo, TimerFires, Complete, StartAll, Finish, ParkedOn;
    match step
    case Ready =>
      RepliedOneMore(s.sent, Hello, true);
      RepliedOneMore(s.sent, Hello, false);
    case End(call, kind, data) => EndReplies(s, call, kind, data, arrival);
    case Timeout(channel, index, notice) => TimeoutReplies(s, channel, index, notice, arrival);
    case FlushTurn(channel) => StartAllLeaves(s.(due := s.due - {channel}), ParkedOn(s, channel));
    case Finally(call) => FinishSends(s, call);
    case _ =>
  }

  lemma FinishSends(s: Server, n: nat)
    ensures Finish(s, n).sent == s.sent
  {
  }

  lemma EndReplies(s: Server, n: nat, kind: ResponseKind, data: Data, arrival: nat)
    ensures var t := Complete(s, n, kind, data);
            && (arrival in RepliedTo(t.sent, true) <==> arrival in RepliedTo(s.sent, true))
            && (arrival in RepliedTo(t.sent, false) <==>
                  arrival in RepliedTo(s.sent, false) || Ends(s, End(n, kind, data), arrival))
  {
    var t := Complete(s, n, kind, data);
    if t != s {
      var last := t.sent[|s.sent|];
      assert t.sent == s.sent + [last];
      RepliedOneMore(s.sent, last, true);
      RepliedOneMore(s.sent, last, false);
    }
    hide RepliedTo;
  }

  lemma TimeoutReplies(s: Server, channel: Text, k: nat, notice: Data, arrival: nat)
    ensures var t := TimerFires(s, channel, k, notice);
            && (arrival in RepliedTo(t.sent, false) <==> arrival in RepliedTo(s.sent, false))
            && (arrival in RepliedTo(t.sent, true) <==>
                  arrival in RepliedTo(s.sent, true) || TimesOut(s, Timeout(channel, k, notice), arrival))
  {
    var t := TimerFires(s, channel, k, notice);
    if t != s {
      var last := t.sent[|s.sent|];
      assert t.sent == s.sent + [last];
      RepliedOneMore(s.sent, last, true);
      RepliedOneMore(s.sent, last, false);
    }
    hide RepliedTo;
  }

  /** The step that a reply comes from: a timeout with its notice, or a call's end with its kind and data. */
  predicate Gives(step: Step, reply: Sent) {
    reply.Reply?
    && if reply.timedOut then step.Timeout? && reply.response.kind == PromiseError && reply.response.data == step.notice
       else step.End? && reply.response.kind == step.kind && reply.response.data == step.data
  }

  lemma NextGives(s: Server, step: Step, reply: Sent)
    requires reply in Next(s, step).sent && reply.Reply?
    ensures reply in s.sent || Gives(step, reply)
  {
    if step.FlushTurn? {
      StartAllLeaves(s.(due := s.due - {step.channel}), ParkedOn(s, step.channel));
    }
  }

  /** Over every run a reply carries what its timer or its call ended with. */
  lemma {:induction false} RepliesCarryWhatEnded(steps: seq<Step>, reply: Sent)
    requires reply in After(steps).sent && reply.Reply?
    ensures exists k :: 0 <= k < |steps| && Gives(steps[k], reply)
    decreases |steps|
  {
    hide Next, Gives;
    if steps == [] {
      assert false;
    } else {
      var n := |steps| - 1;
      AfterOneMore(steps, n);
      assert steps[..n + 1] == steps;
      NextGives(After(steps[..n]), steps[n], reply);
      if reply in After(steps[..n]).sent {
        RepliesCarryWhatEnded(steps[..n], reply);
        var k :| 0 <= k < n && Gives(steps[..n][k], reply);
        assert Gives(steps[k], reply);
      }
    }
  }

  ghost predicate TimedOutDuring(steps: seq<Step>, arrival: nat) {
    exists i :: 0 <= i < |steps| && TimesOut(After(steps[..i]), steps[i], arrival)
  }

  ghost predicate EndedDuring(steps: seq<Step>, arrival: nat) {
    exists i :: 0 <= i < |steps| && Ends(After(steps[..i]), steps[i], arrival)
  }

  /** Every reply was given at some step, and every such step gave one. */
  lemma {:induction false} RepliesWereGiven(steps: seq<Step>, arrival: nat)
    ensures arrival in RepliedTo(After(steps).sent, true) <==> TimedOutDuring(steps, arrival)
    ensures arrival in RepliedTo(After(steps).sent, false) <==> EndedDuring(steps, arrival)
    decreases |steps|
  {
    if steps != [] {
      var n := |steps| - 1;
      var front := steps[..n];
      RepliesWereGiven(front, arrival);
      AfterOneMore(steps, n);
      assert steps[..n + 1] == steps;
      StepReplies(After(front), steps[n], arrival);
      hide After, RepliedTo, Next, TimedOutDuring, EndedDuring;
      DuringOneMore(steps, arrival);
    }
  }

  lemma DuringOneMore(steps: seq<Step>, arrival: nat)
    requires steps != []
    ensures var n := |steps| - 1;
            && (TimedOutDuring(steps, arrival) <==>
                  TimedOutDuring(steps[..n], arrival) || TimesOut(After(steps[..n]), steps[n], arrival))
            && (EndedDuring(steps, arrival) <==>
                  EndedDuring(steps[..n], arrival) || Ends(After(steps[..n]), steps[n], arrival))
  {
    hide After, TimesOut, Ends;
    var n := |steps| - 1;
    var front := steps[..n];
    assert forall i :: 0 <= i < n ==> front[..i] == steps[..i] && front[i] == steps[i];
    forall i | 0 <= i < n
      ensures TimesOut(After(front[..i]), front[i], arrival) <==> TimesOut(After(steps[..i]), steps[i], arrival)
      ensures Ends(After(front[..i]), front[i], arrival) <==> Ends(After(steps[..i]), steps[i], arrival)
    {
    }
  }

  lemma {:induction false} CallsLast(s: Server, steps: seq<Step>)
    ensures forall a :: a in Arrivals(s.calls) ==> a in Arrivals(Execute(s, steps).calls)
    ensures s.received <= Execute(s, steps).received
    decreases |steps|
  {
    if steps != [] {
      CallsLastNext(s, steps[0]);
      CallsLast(Next(s, steps[0]), steps[1..]);
    }
  }

  lemma CallsLastNext(s: Server, step: Step)
    ensures forall a :: a in Arrivals(s.calls) ==> a in Arrivals(Next(s, step).calls)
    ensures s.received <= Next(s, step).received
  {
    var t := Next(s, step);
    if step.FlushTurn? {
      StartAllLeaves(s.(due := s.due - {step.channel}), ParkedOn(s, step.channel));
    }
    assert |s.calls| <= |t.calls| && forall n :: 0 <= n < |s.calls| ==> t.calls[n].arrival == s.calls[n].arrival;
    assert forall n :: 0 <= n < |s.calls| ==> Arrivals(t.calls)[n] == Arrivals(s.calls)[n];
  }

  lemma Later(steps: seq<Step>, i: nat, j: nat)
    requires i <= j <= |steps|
    ensures forall a :: a in Arrivals(After(steps[..i]).calls) ==> a in Arrivals(After(steps[..j]).calls)
    ensures After(steps[..i]).received <= After(steps[..j]).received
  {
    assert steps[..j] == steps[..i] + steps[i..j];
    ExecuteConcat(NewServer(), steps[..i], steps[i..j]);
    CallsLast(After(steps[..i]), steps[i..j]);
  }

  /** An arrival that times out is parked, so it has no call yet and did arrive. */
  lemma TimesOutParked(steps: seq<Step>, i: nat, arrival: nat)
    requires i < |steps| && TimesOut(After(steps[..i]), steps[i], arrival)
    ensures arrival !in Arrivals(After(steps[..i]).calls) && arrival < |After(steps[..i]).received|
  {
    var s := After(steps[..i]);
    AfterIsSound(steps[..i]);
    assert ParkedAt(s, steps[i].channel, steps[i].index, ParkedOn(s, steps[i].channel)[steps[i].index]);
    hide Arrivals, CalledOnce, TimedOutOnce, ReturnedOnce, OwnReplies, NoneForgotten, ActiveIsLatest;
  }

  lemma EndsCalled(steps: seq<Step>, j: nat, arrival: nat)
    requires j < |steps| && Ends(After(steps[..j]), steps[j], arrival)
    ensures arrival in Arrivals(After(steps[..j]).calls)
  {
    assert Arrivals(After(steps[..j]).calls)[steps[j].call] == arrival;
  }

  /** Its timer fired while it was parked, and later its call ended. */
  ghost predicate TimedOutThenEnded(steps: seq<Step>, arrival: nat) {
    exists i, j :: 0 <= i < j < |steps| && TimesOut(After(steps[..i]), steps[i], arrival) && Ends(After(steps[..j]), steps[j], arrival)
  }

  /** There are two replies exactly when the timer fired while the request was parked and its call ended later. */
  lemma RepliedTwiceExactlyWhen(steps: seq<Step>, arrival: nat)
    ensures arrival in RepliedTo(After(steps).sent, true) && arrival in RepliedTo(After(steps).sent, false)
       <==> TimedOutThenEnded(steps, arrival)
  {
    RepliesWereGiven(steps, arrival);
    hide After, RepliedTo, TimesOut, Ends, Arrivals;
    if TimedOutDuring(steps, arrival) && EndedDuring(steps, arrival) {
      var i :| 0 <= i < |steps| && TimesOut(After(steps[..i]), steps[i], arrival);
      var j :| 0 <= j < |steps| && Ends(After(steps[..j]), steps[j], arrival);
      TimesOutParked(steps, i, arrival);
      EndsCalled(steps, j, arrival);
      if j <= i {
        Later(steps, j, i);
      }
    }
  }

  /** The step receives a request whose channel is registered. */
  predicate Served(s: Server, step: Step) {
    step.Message? && step.message.Ask? && !s.disposed && step.message.request.channel in s.channels
  }

  /** A request whose channel is registered when it arrives never times out: it gets at most one reply. */
  lemma ARegisteredRequestIsAnsweredOnce(steps: seq<Step>, i: nat)
    requires i < |steps| && Served(After(steps[..i]), steps[i])
    ensures var s, arrival := After(steps), |After(steps[..i]).received|;
            arrival !in RepliedTo(s.sent, true)
            && Times(RepliedTo(s.sent, true), arrival) + Times(RepliedTo(s.sent, false), arrival) <= 1
  {
    NeverTimedOut(steps, i);
    AfterIsSound(steps);
    hide After, RepliedTo;
    var s, arrival := After(steps), |After(steps[..i]).received|;
    SoundRepliesOnce(s, arrival);
    assert Places(RepliedTo(s.sent, true), arrival) == {};
  }

  lemma SoundRepliesOnce(s: Server, arrival: nat)
    requires Sound(s)
    ensures Times(RepliedTo(s.sent, false), arrival) <= 1
  {
    assert Distinct(RepliedTo(s.sent, false));
    DistinctTimes<nat>(RepliedTo(s.sent, false));
    hide RepliedTo, Distinct;
  }

  lemma NeverTimedOut(steps: seq<Step>, i: nat)
    requires i < |steps| && Served(After(steps[..i]), steps[i])
    ensures |After(steps[..i]).received| !in RepliedTo(After(steps).sent, true)
  {
    var arrival := |After(steps[..i]).received|;
    RepliesWereGiven(steps, arrival);
    AfterOneMore(steps, i);
    assert Arrivals(After(steps[..i + 1]).calls)[|After(steps[..i]).calls|] == arrival;
    hide After, RepliedTo, TimesOut, Arrivals, Next;
    if TimedOutDuring(steps, arrival) {
      var k :| 0 <= k < |steps| && TimesOut(After(steps[..k]), steps[k], arrival);
      TimesOutParked(steps, k, arrival);
      if k <= i {
        Later(steps, k, i);
      } else {
        Later(steps, i + 1, k);
      }
    }
  }

  function LateRegistration(request: Request, notice: Data, data: Data): seq<Step> {
    [Message(Ask(request)), Timeout(request.channel, 0, notice), Registered(request.channel),
     FlushTurn(request.channel), End(0, PromiseSuccess, data)]
  }

  /** Two replies do happen: the channel of a timed-out request is registered later, and its call then ends. */
  lemma ATimedOutRequestIsAnsweredTwice(request: Request, notice: Data, data: Data)
    ensures After(LateRegistration(request, notice, data)).sent
         == [Reply(request, Response(PromiseError, request.id, notice), 0, true),
             Reply(request, Response(PromiseSuccess, request.id, data), 0, false)]
  {
    var channel := request.channel;
    var s2 := Next(Next(NewServer(), Message(Ask(request))), Timeout(channel, 0, notice));
    assert ParkedOn(Next(NewServer(), Message(Ask(request))), channel) == [Parked(request, 0, Armed)];
    var s3 := Next(s2, Registered(channel));
    assert ParkedOn(s3, channel) == [Parked(request, 0, Fired)];
    StartAllCalls(s3.(due := s3.due - {channel}), [Parked(request, 0, Fired)], channel);
    StartAllLeaves(s3.(due := s3.due - {channel}), [Parked(request, 0, Fired)]);
    var s4 := Next(s3, FlushTurn(channel));
    assert s4.calls == [Call(request, 0, Running, false)] && s4.sent == s2.sent;
    var last := End(0, PromiseSuccess, data);
    var steps := LateRegistration(request, notice, data);
    assert steps == [steps[0], steps[1], Registered(channel), FlushTurn(channel)] + [last];
    hide Next;
    FourSteps(NewServer(), steps[0], steps[1], Registered(channel), FlushTurn(channel));
    ExecuteConcat(NewServer(), [steps[0], steps[1], Registered(channel), FlushTurn(channel)], [last]);
    OneStep(s4, last);
  }

  lemma OneStep(s: Server, step: Step)
    ensures Execute(s, [step]) == Next(s, step)
  {
    hide Next;
    assert Execute(s, [step]) == Execute(Next(s, step), []);
  }

  // ---------------------------------------------------------------------------------------------
  // Over every run: when a cancellation reaches a call
  // ---------------------------------------------------------------------------------------------

  /** The step starts a call of this id. */
  ghost predicate StartsCallOf(s: Server, step: Step, id: nat) {
    exists n :: |s.calls| <= n < |Next(s, step).calls| && Next(s, step).calls[n].request.id == id
  }

  /** The step forgets the active call of this id: its cancellation, the end of any of its calls, or disposal. */
  predicate Forgets(s: Server, step: Step, id: nat) {
    match step
    case Message(CancelOrDispose(other)) => other == id && !s.disposed
    case Finally(n) => n < |s.calls| && s.calls[n].phase.Replied? && s.calls[n].request.id == id
    case Close => true
    case _ => false
  }

  lemma {:induction false} StartAllActive(s: Server, list: seq<Parked>, id: nat)
    ensures id in StartAll(s, list).active <==>
              id in s.active || exists n :: |s.calls| <= n < |StartAll(s, list).calls| && StartAll(s, list).calls[n].request.id == id
    decreases |list|
  {
    if list != [] {
      var t := OnPromise(s, list[0].request, list[0].arrival);
      StartAllActive(t, list[1..], id);
      StartAllLeaves(t, list[1..]);
      hide StartAll;
      assert |t.calls| > |s.calls| ==> t.calls[|s.calls|].request.id == list[0].request.id;
    }
  }

  lemma NextActive(s: Server, step: Step, id: nat)
    requires ActiveIsLatest(s)
    ensures id in Next(s, step).active <==> StartsCallOf(s, step, id) || (id in s.active && !Forgets(s, step, id))
  {
    var t := Next(s, step);
    if step.FlushTurn? {
      StartAllActive(s.(due := s.due - {step.channel}), ParkedOn(s, step.channel), id);
    } else if Served(s, step) {
      assert t.calls[|s.calls|].request.id == step.message.request.id && |t.calls| == |s.calls| + 1;
      hide StartAll;
    } else {
      assert |t.calls| == |s.calls|;
      hide StartAll;
    }
  }

  /** A call of the id was started, and nothing that forgets it has happened since. */
  ghost predicate StartedAndKept(steps: seq<Step>, id: nat) {
    exists i :: 0 <= i < |steps| && StartsCallOf(After(steps[..i]), steps[i], id)
      && forall j :: i < j < |steps| ==> !Forgets(After(steps[..j]), steps[j], id)
  }

  lemma {:induction false} ActiveExactlyWhen(steps: seq<Step>, id: nat)
    ensures id in After(steps).active <==> StartedAndKept(steps, id)
    decreases |steps|
  {
    if steps != [] {
      var n := |steps| - 1;
      var front := steps[..n];
      ActiveExactlyWhen(front, id);
      AfterOneMore(steps, n);
      assert steps[..n + 1] == steps;
      AfterIsSound(front);
      NextActive(After(front), steps[n], id);
      hide After, StartsCallOf, Forgets, Next, StartedAndKept;
      KeptOneMore(steps, id);
    }
  }

  lemma KeptOneMore(steps: seq<Step>, id: nat)
    requires steps != []
    ensures var n := |steps| - 1;
            var s := After(steps[..n]);
            StartedAndKept(steps, id) <==>
              StartsCallOf(s, steps[n], id) || (StartedAndKept(steps[..n], id) && !Forgets(s, steps[n], id))
  {
    hide After, StartsCallOf, Forgets;
    var n := |steps| - 1;
    var front := steps[..n];
    assert forall i :: 0 <= i < n ==> front[..i] == steps[..i] && front[i] == steps[i];
    if StartsCallOf(After(front), steps[n], id) {
      assert StartedAndKept(steps, id);
    } else if StartedAndKept(steps, id) {
      var i :| 0 <= i < |steps| && StartsCallOf(After(steps[..i]), steps[i], id)
               && forall j :: i < j < |steps| ==> !Forgets(After(steps[..j]), steps[j], id);
      assert StartsCallOf(After(front[..i]), front[i], id);
      assert forall j :: i < j < n ==> front[..j] == steps[..j];
      assert StartedAndKept(front, id);
    }
  }

  /** A call that was not cancelled before is cancelled by the step. */
  ghost predicate Cancels(s: Server, step: Step) {
    exists n :: 0 <= n < |s.calls| && !s.calls[n].cancelled && n < |Next(s, step).calls| && Next(s, step).calls[n].cancelled
  }

  /** A cancellation reaches a call exactly when one was started for its id and not forgotten since. */
  lemma CancelReachesExactlyWhen(steps: seq<Step>, id: nat)
    requires !After(steps).disposed
    ensures Cancels(After(steps), Message(CancelOrDispose(id))) <==> StartedAndKept(steps, id)
  {
    var s := After(steps);
    AfterIsSound(steps);
    ActiveExactlyWhen(steps, id);
    hide Kept, After, StartedAndKept;
    if id in s.active {
      assert Next(s, Message(CancelOrDispose(id))).calls[s.active[id]].cancelled;
    }
  }

  /** Of the calls of one id that nothing cancelled, all but one may have been overtaken. */
  ghost predicate OnlyOvertakenEscape(s: Server) {
    forall n :: 0 <= n < |s.calls| && !s.calls[n].cancelled && s.calls[n].request.id !in s.active ==>
      exists m :: m != n && IdAt(s.calls, m, s.calls[n].request.id)
  }

  lemma StartKeepsOvertaken(s: Server, request: Request, arrival: nat)
    requires OnlyOvertakenEscape(s)
    ensures OnlyOvertakenEscape(StartCall(s, request, arrival))
  {
    var t := StartCall(s, request, arrival);
    forall n | 0 <= n < |t.calls| && !t.calls[n].cancelled && t.calls[n].request.id !in t.active
      ensures exists m :: m != n && IdAt(t.calls, m, t.calls[n].request.id)
    {
      var m :| m != n && IdAt(s.calls, m, s.calls[n].request.id);
      assert IdAt(t.calls, m, t.calls[n].request.id);
    }
  }

  lemma PromiseKeepsOvertaken(s: Server, request: Request, arrival: nat)
    requires OnlyOvertakenEscape(s)
    ensures OnlyOvertakenEscape(OnPromise(s, request, arrival))
  {
    if request.channel in s.channels {
      StartKeepsOvertaken(s, request, arrival);
    }
  }

  lemma {:induction false} StartAllKeepsOvertaken(s: Server, list: seq<Parked>)
    requires OnlyOvertakenEscape(s)
    ensures OnlyOvertakenEscape(StartAll(s, list))
    decreases |list|
  {
    if list != [] {
      PromiseKeepsOvertaken(s, list[0].request, list[0].arrival);
      hide OnlyOvertakenEscape;
      StartAllKeepsOvertaken(OnPromise(s, list[0].request, list[0].arrival), list[1..]);
    }
  }

  /** Calls only get cancelled, and an id that is active no more has had its active call cancelled. */
  ghost predicate OnlyCancelled(s: Server, t: Server) {
    && |s.calls| == |t.calls|
    && (forall n :: 0 <= n < |s.calls| ==>
          t.calls[n].request == s.calls[n].request && (s.calls[n].cancelled ==> t.calls[n].cancelled))
    && (forall id :: id in t.active ==> id in s.active)
  }

  ghost predicate IdAt(calls: seq<Call>, n: int, id: nat) {
    0 <= n < |calls| && calls[n].request.id == id
  }

  /** From one state to the next, a call's id is forgotten and the call itself is not cancelled. */
  ghost predicate Escapes(s: Server, t: Server, n: int) {
    0 <= n < |s.calls| && n < |t.calls| && !t.calls[n].cancelled && s.calls[n].request.id in s.active && s.calls[n].request.id !in t.active
  }

  lemma CancelKeepsOvertaken(s: Server, t: Server)
    requires OnlyOvertakenEscape(s) && OnlyCancelled(s, t)
    requires forall n :: Escapes(s, t, n) ==> exists m :: m != n && IdAt(s.calls, m, s.calls[n].request.id)
    ensures OnlyOvertakenEscape(t)
  {
    forall n | 0 <= n < |t.calls| && !t.calls[n].cancelled && t.calls[n].request.id !in t.active
      ensures exists m :: m != n && IdAt(t.calls, m, t.calls[n].request.id)
    {
      var m :| m != n && IdAt(s.calls, m, s.calls[n].request.id);
      assert IdAt(t.calls, m, t.calls[n].request.id);
    }
  }

  lemma NextKeepsOvertaken(s: Server, step: Step)
    requires OnlyOvertakenEscape(s) && ActiveIsLatest(s)
    ensures OnlyOvertakenEscape(Next(s, step))
  {
    hide OnlyOvertakenEscape, ActiveIsLatest, Receive, Dispose, Flush, Finish, TimerFires, Complete, Register;
    match step
    case Message(message) => MessageKeepsOvertaken(s, message);
    case Finally(n) => FinishKeepsOvertaken(s, n);
    case Close => CloseKeepsOvertaken(s);
    case FlushTurn(channel) => FlushKeepsOvertaken(s, channel);
    case _ => QuietKeepsOvertaken(s, step);
  }

  lemma MessageKeepsOvertaken(s: Server, message: ToServer)
    requires OnlyOvertakenEscape(s) && ActiveIsLatest(s)
    ensures OnlyOvertakenEscape(Receive(s, message))
  {
    if message.Ask? {
      PromiseKeepsOvertaken(s.(received := s.received + [message.request]), message.request, |s.received|);
    } else if !s.disposed && message.id in s.active {
      ForgettingKeepsOvertaken(s, Receive(s, message));
    }
  }

  lemma CloseKeepsOvertaken(s: Server)
    requires OnlyOvertakenEscape(s) && ActiveIsLatest(s)
    ensures OnlyOvertakenEscape(Dispose(s))
  {
    ForgettingKeepsOvertaken(s, Dispose(s));
  }

  lemma FlushKeepsOvertaken(s: Server, channel: Text)
    requires OnlyOvertakenEscape(s)
    ensures OnlyOvertakenEscape(Flush(s, channel))
  {
    if channel in s.due {
      StartAllKeepsOvertaken(s.(due := s.due - {channel}), ParkedOn(s, channel));
    }
  }

  /** Whatever else happens starts and cancels nothing. */
  lemma QuietKeepsOvertaken(s: Server, step: Step)
    requires OnlyOvertakenEscape(s) && (step.Ready? || step.End? || step.Timeout? || step.Registered?)
    ensures OnlyOvertakenEscape(Next(s, step))
  {
    assert Next(s, step).active == s.active;
    CancelKeepsOvertaken(s, Next(s, step));
  }

  /** Every id that is forgotten has its active call cancelled. */
  lemma ForgettingKeepsOvertaken(s: Server, t: Server)
    requires OnlyOvertakenEscape(s) && ActiveIsLatest(s) && OnlyCancelled(s, t)
    requires forall id :: id in s.active && id !in t.active ==> t.calls[s.active[id]].cancelled
    ensures OnlyOvertakenEscape(t)
  {
    forall n | Escapes(s, t, n)
      ensures exists m :: m != n && IdAt(s.calls, m, s.calls[n].request.id)
    {
      var m := s.active[s.calls[n].request.id];
      assert m != n && IdAt(s.calls, m, s.calls[n].request.id);
    }
    CancelKeepsOvertaken(s, t);
  }

  lemma FinishKeepsOvertaken(s: Server, n: nat)
    requires OnlyOvertakenEscape(s) && ActiveIsLatest(s)
    ensures OnlyOvertakenEscape(Finish(s, n))
  {
    var t := Finish(s, n);
    forall m | Escapes(s, t, m)
      ensures exists k :: k != m && IdAt(s.calls, k, s.calls[m].request.id)
    {
      assert n != m && IdAt(s.calls, n, s.calls[m].request.id);
    }
    CancelKeepsOvertaken(s, t);
  }

  lemma {:induction false} AfterKeepsOvertaken(s: Server, steps: seq<Step>)
    requires Sound(s) && OnlyOvertakenEscape(s)
    ensures OnlyOvertakenEscape(Execute(s, steps))
    decreases |steps|
  {
    if steps != [] {
      NextKeepsSound(s, steps[0]);
      NextKeepsOvertaken(s, steps[0]);
      hide OnlyOvertakenEscape, Next, Kept;
      AfterKeepsOvertaken(Next(s, steps[0]), steps[1..]);
    }
  }

  /** There is a call of the id that neither ended nor was cancelled. */
  ghost predicate Unfinished(s: Server, id: nat) {
    exists n :: 0 <= n < |s.calls| && s.calls[n].request.id == id && !s.calls[n].cancelled
  }

  /** For an id called once, that is exactly when such a call is still unfinished. */
  lemma CancelReachesTheOnlyCall(steps: seq<Step>, id: nat)
    requires !After(steps).disposed && Times(CallIds(After(steps).calls), id) <= 1
    ensures Cancels(After(steps), Message(CancelOrDispose(id))) <==> Unfinished(After(steps), id)
  {
    var s := After(steps);
    AfterIsSound(steps);
    AfterKeepsOvertaken(NewServer(), steps);
    hide Kept, After, Times;
    forall m, n | 0 <= m < n < |s.calls|
      ensures s.calls[m].request.id != id || s.calls[n].request.id != id
    {
      if s.calls[m].request.id == id == s.calls[n].request.id {
        assert |{m, n}| == 2;
        SubsetBound({m, n}, Places(CallIds(s.calls), id));
      }
    }
    if id in s.active {
      assert Next(s, Message(CancelOrDispose(id))).calls[s.active[id]].cancelled;
    }
  }

  /** The earlier call of a request received twice cannot be cancelled: its id stands for the later one. */
  lemma ARepeatedRequestEscapesItsCancel(request: Request)
    ensures var cancel := Message(CancelOrDispose(request.id));
            var s := After([Registered(request.channel), Message(Ask(request)), Message(Ask(request)), cancel]);
            s.calls == [Call(request, 0, Running, false), Call(request, 1, Running, true)] && Next(s, cancel) == s
  {
    var cancel := Message(CancelOrDispose(request.id));
    var steps := [Registered(request.channel), Message(Ask(request)), Message(Ask(request)), cancel];
    AfterOneMore(steps, 0);
    AfterOneMore(steps, 1);
    AfterOneMore(steps, 2);
    AfterOneMore(steps, 3);
    assert steps[..0] == [] && steps[..4] == steps;
  }

  /** The calls a flush starts. */
  function CallsOf(list: seq<Parked>): (calls: seq<Call>)
    ensures |calls| == |list|
    ensures forall k :: 0 <= k < |list| ==> calls[k] == Call(list[k].request, list[k].arrival, Running, false)
  {
    seq(|list|, k requires 0 <= k < |list| => Call(list[k].request, list[k].arrival, Running, false))
  }

  lemma {:induction false} StartAllCalls(s: Server, list: seq<Parked>, channel: Text)
    requires channel in s.channels && forall k :: 0 <= k < |list| ==> list[k].request.channel == channel
    ensures StartAll(s, list).calls == s.calls + CallsOf(list)
    decreases |list|
  {
    if list == [] {
      assert s.calls + CallsOf(list) == s.calls;
    } else {
      var first := Call(list[0].request, list[0].arrival, Running, false);
      var t := OnPromise(s, list[0].request, list[0].arrival);
      assert t.calls == s.calls + [first] && t.channels == s.channels;
      hide OnPromise, CallsOf;
      StartAllCalls(t, list[1..], channel);
      FirstCallOf(list);
      JoinCalls(s.calls, [first], CallsOf(list[1..]));
    }
  }

  lemma JoinCalls(a: seq<Call>, b: seq<Call>, c: seq<Call>)
    ensures a + b + c == a + (b + c)
  {
  }

  lemma FirstCallOf(list: seq<Parked>)
    requires list != []
    ensures CallsOf(list) == [Call(list[0].request, list[0].arrival, Running, false)] + CallsOf(list[1..])
  {
  }

  /** A cancellation does not reach a parked request: once its channel is registered, it is called and runs uncancelled. */
  lemma ACancelMissesAParkedRequest(steps: seq<Step>, channel: Text, k: nat)
    requires k < |ParkedOn(After(steps), channel)|
    ensures var s := After(steps);
            var entry := ParkedOn(s, channel)[k];
            var cancelled := Next(s, Message(CancelOrDispose(entry.request.id)));
            var t := Next(Next(cancelled, Registered(channel)), FlushTurn(channel));
            ParkedOn(cancelled, channel) == ParkedOn(s, channel)
            && t.calls == cancelled.calls + CallsOf(ParkedOn(s, channel))
            && t.calls[|s.calls| + k] == Call(entry.request, entry.arrival, Running, false)
  {
    var s := After(steps);
    AfterIsSound(steps);
    ParkedChannels(s, channel);
    hide After, Sound;
    var cancelled := Next(s, Message(CancelOrDispose(ParkedOn(s, channel)[k].request.id)));
    var u := Register(cancelled, channel);
    StartAllCalls(u.(due := u.due - {channel}), ParkedOn(s, channel), channel);
  }

  // ---------------------------------------------------------------------------------------------
  // The object
  // ---------------------------------------------------------------------------------------------

  class ChannelServer {
    var channels: set<Text>
    /** Every call started; a disposable of the source is the index of its call. */
    var calls: seq<Call>
    var activeRequests: map<nat, nat>
    var pendingRequests: map<Text, seq<Parked>>
    var due: set<Text>
    var sent: seq<Sent>
    var received: seq<Request>
    var disposed: bool

    ghost function State(): Server
      reads this
    {
      Server(channels, pendingRequests, calls, activeRequests, due, sent, received, disposed)
    }

    constructor ()
      ensures State() == NewServer()
    {
      channels, calls, activeRequests, pendingRequests, due, sent, disposed := {}, [], map[], map[], {}, [], false;
      received := [];
    }

    method OnRawMessage(message: ToServer)
      modifies this
      ensures State() == Receive(old(State()), message)
    {
      if disposed {
        return;
      }
      match message {
        case Ask(request) =>
          received := received + [request];
          OnPromiseRequest(request, |received| - 1);
        case CancelOrDispose(id) => DisposeActiveRequest(id);
      }
    }

    method OnPromiseRequest(request: Request, arrival: nat)
      modifies this
      ensures State() == OnPromise(old(State()), request, arrival)
    {
      if request.channel !in channels {
        CollectPendingRequest(request, arrival);
        return;
      }
      calls := calls + [Call(request, arrival, Running, false)];
      activeRequests := activeRequests[request.id := |calls| - 1];
    }

    method CollectPendingRequest(request: Request, arrival: nat)
      requires request.channel !in channels
      modifies this
      ensures State() == OnPromise(old(State()), request, arrival)
    {
      var list := if request.channel in pendingRequests then pendingRequests[request.channel] else [];
      pendingRequests := pendingRequests[request.channel := list + [Parked(request, arrival, Armed)]];
    }

    method DisposeActiveRequest(id: nat)
      modifies this
      ensures State() == DisposeActive(old(State()), id)
    {
      if id in activeRequests && activeRequests[id] < |calls| {
        var n := activeRequests[id];
        calls := calls[n := calls[n].(cancelled := true)];
        activeRequests := activeRequests - {id};
      }
    }

    method RegisterChannel(channel: Text)
      modifies this
      ensures State() == Register(old(State()), channel)
    {
      channels := channels + {channel};
      due := due + {channel};
    }

    method FlushPendingRequests(channel: Text)
      requires channel in due ==> channel in channels
      modifies this
      ensures State() == Flush(old(State()), channel)
    {
      if channel !in due {
        return;
      }
      due := due - {channel};
      ghost var start := State();
      var requests := if channel in pendingRequests then pendingRequests[channel] else [];
      var k := 0;
      while k < |requests|
        invariant k <= |requests|
        invariant StartAll(start, requests) == StartAll(State(), requests[k..])
      {
        OnPromiseRequest(requests[k].request, requests[k].arrival);
        assert requests[k..][0] == requests[k] && requests[k..][1..] == requests[k + 1..];
        k := k + 1;
      }
      pendingRequests := pendingRequests - {channel};
    }

    method TimeOut(channel: Text, k: nat, notice: Data)
      modifies this
      ensures State() == TimerFires(old(State()), channel, k, notice)
    {
      if channel in pendingRequests && k < |pendingRequests[channel]| && pendingRequests[channel][k].timer == Armed {
        var entry := pendingRequests[channel][k];
        pendingRequests := pendingRequests[channel := pendingRequests[channel][k := entry.(timer := Fired)]];
        sent := sent + [Reply(entry.request, Response(PromiseError, entry.request.id, notice), entry.arrival, true)];
      }
    }

    method CallEnded(n: nat, kind: ResponseKind, data: Data)
      modifies this
      ensures State() == Complete(old(State()), n, kind, data)
    {
      if n < |calls| && calls[n].phase == Running && kind != EventFire {
        var call := calls[n];
        calls := calls[n := call.(phase := Replied)];
        sent := sent + [Reply(call.request, Response(kind, call.request.id, data), call.arrival, false)];
      }
    }

    method CallFinally(n: nat)
      modifies this
      ensures State() == Finish(old(State()), n)
    {
      if n < |calls| && calls[n].phase == Replied {
        activeRequests := activeRequests - {calls[n].request.id};
        calls := calls[n := calls[n].(phase := Finished, cancelled := true)];
      }
    }

    /** Cancels every active call, in whatever order the map yields them. */
    method DisposeAll()
      requires forall id :: id in activeRequests ==> activeRequests[id] < |calls|
      modifies this
      ensures State() == Dispose(old(State()))
    {
      disposed := true;
      var rest := activeRequests.Keys;
      while rest != {}
        invariant rest <= old(activeRequests).Keys && |calls| == |old(calls)|
        invariant activeRequests == old(activeRequests) && channels == old(channels) && pendingRequests == old(pendingRequests)
        invariant due == old(due) && sent == old(sent) && received == old(received) && disposed
        invariant forall n :: 0 <= n < |calls| ==>
                    calls[n] == if exists id :: id in activeRequests && id !in rest && activeRequests[id] == n
                                then old(calls)[n].(cancelled := true) else old(calls)[n]
        decreases |rest|
      {
        var id :| id in rest;
        var n := activeRequests[id];
        rest := rest - {id};
        calls := calls[n := calls[n].(cancelled := true)];
      }
      activeRequests := map[];
    }
  }
}
