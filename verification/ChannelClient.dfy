/** Promise requests of packages/rpc/src/channelClient.ts: who settles them, and how often. */
module ChannelClient {
  import opened ChannelMessages
  import opened Outcomes
  import opened Serialization
  import opened Sequences
  import opened Texts

  datatype Handler = PromiseHandler | EventHandler

  /** How a promise was settled: by a response, by its cancellation token, or by `dispose`. */
  datatype Outcome = Answered(response: Response) | Cancelled | Closed(reason: Option<Data>)

  datatype Settlement = Settlement(id: nat, outcome: Outcome)

  /**
   * The client's fields; `pending` are the keys of the rejection map in insertion order, `waiting` the
   * requests queued behind initialization, `requests` what each promise asked for, `unwritable` the promises whose
   * argument `serialize` throws on, `thrown` those rejected for it by their executor, `outbox` what was handed to the
   * protocol and `log` every other call of a resolve or reject function.
   */
  datatype Client = Client(
    idle: bool,
    disposed: bool,
    handlers: map<nat, Handler>,
    pending: seq<nat>,
    waiting: set<nat>,
    requests: map<nat, Request>,
    unwritable: set<nat>,
    thrown: set<nat>,
    lastRequestId: nat,
    outbox: seq<ToServer>,
    log: seq<Settlement>)

  function NewClient(): Client {
    Client(false, false, map[], [], {}, map[], {}, {}, 0, [], [])
  }

  /** A map's keys without one, the others in their order. */
  function Without(ids: seq<nat>, id: nat): (rest: seq<nat>)
    ensures forall other :: other in rest <==> other in ids && other != id
  {
    if ids == [] then []
    else if ids[0] == id then Without(ids[1..], id)
    else [ids[0]] + Without(ids[1..], id)
  }

  function Settle(c: Client, id: nat, outcome: Outcome): Client {
    c.(handlers := c.handlers - {id}, pending := Without(c.pending, id), log := c.log + [Settlement(id, outcome)])
  }

  /** `doRequest`: nothing after disposal or once the promise is settled; the handler is set before the argument is written. */
  function DoRequest(c: Client, id: nat): Client
    requires id in c.requests
  {
    if c.disposed || id !in c.pending then c
    else
      c.(handlers := c.handlers[id := PromiseHandler],
      outbox := if id in c.unwritable then c.outbox else c.outbox + [Ask(c.requests[id])])
  }

  /** A promise with a new id, neither pending nor sent. */
  function Issued(c: Client, request: Request, writable: bool): Client {
    var id := c.lastRequestId;
    c.(lastRequestId := id + 1, requests := c.requests[id := request],
    unwritable := if writable then c.unwritable - {id} else c.unwritable + {id})
  }

  /** The same, pending. */
  function Registered(c: Client, request: Request, writable: bool): Client {
    Issued(c, request, writable).(pending := c.pending + [c.lastRequestId])
  }

  /** The executor of a promise. */
  function Executed(c: Client, id: nat): Client
    requires id in c.requests
  {
    var registered := c.(pending := c.pending + [id]);
    if !c.idle then registered.(waiting := c.waiting + {id})
    else DoRequest(registered, id).(thrown := if id in c.unwritable then c.thrown + {id} else c.thrown)
  }

  /** What `doRequest` throws in the executor rejects the promise, which stays among the pending ones. */
  function RequestPromise(c: Client, channel: Text, name: Text, arg: Data, writable: bool, cancelled: bool): Client {
    if c.disposed then c
    else
      var issued := Issued(c, Request(c.lastRequestId, channel, name, arg), writable);
      if cancelled then issued.(log := c.log + [Settlement(c.lastRequestId, Cancelled)])
      else Executed(issued, c.lastRequestId)
  }

  /** A queued request gets its turn after initialization. */
  function RunQueued(c: Client, id: nat): Client {
    if !c.idle || id !in c.waiting || id !in c.requests then c
    else DoRequest(c.(waiting := c.waiting - {id}), id)
  }

  /** An executor that threw never listened to its cancellation token. */
  function CancelRequested(c: Client, id: nat): Client {
    if id !in c.pending || id in c.thrown then c
    else Settle(c.(outbox := c.outbox + [CancelOrDispose(id)]), id, Cancelled)
  }

  /** `onBuffer` and `onResponse`; after disposal the protocol listener is gone. */
  function Hear(c: Client, message: ToClient): Client {
    if c.disposed then c
    else
      match message
      case Initialize => c.(idle := true)
      case Answer(response) =>
        if response.id in c.handlers && c.handlers[response.id].PromiseHandler? && !response.kind.EventFire?
        then Settle(c, response.id, Answered(response))
        else c
  }

  /** `requestEvent` takes an id and a handler of its own; its messages are not modelled. */
  function ListenEvent(c: Client): Client {
    if c.disposed then c else c.(lastRequestId := c.lastRequestId + 1, handlers := c.handlers[c.lastRequestId := EventHandler])
  }

  function UnlistenEvent(c: Client, id: nat): Client {
    if id !in c.handlers || c.handlers[id].PromiseHandler? then c
    else c.(handlers := c.handlers - {id}, outbox := c.outbox + [CancelOrDispose(id)])
  }

  function Closings(ids: seq<nat>, reason: Option<Data>): (closings: seq<Settlement>)
    ensures |closings| == |ids|
    ensures forall k :: 0 <= k < |ids| ==> closings[k] == Settlement(ids[k], Closed(reason))
  {
    seq(|ids|, k requires 0 <= k < |ids| => Settlement(ids[k], Closed(reason)))
  }

  function Dispose(c: Client, reason: Option<Data>): Client {
    if c.disposed then c
    else
      c.(disposed := true,
      handlers := map id | id in c.handlers && id !in c.pending :: c.handlers[id],
      pending := [],
      log := c.log + Closings(c.pending, reason))
  }

  datatype Step =
    | Call(channel: Text, name: Text, arg: Data, writable: bool, cancelled: bool)
    | Run(id: nat)
    | Cancel(id: nat)
    | Message(message: ToClient)
    | Listen
    | Unlisten(id: nat)
    | Close(reason: Option<Data>)

  function Next(c: Client, step: Step): Client {
    match step
    case Call(channel, name, arg, writable, cancelled) => RequestPromise(c, channel, name, arg, writable, cancelled)
    case Run(id) => RunQueued(c, id)
    case Cancel(id) => CancelRequested(c, id)
    case Message(message) => Hear(c, message)
    case Listen => ListenEvent(c)
    case Unlisten(id) => UnlistenEvent(c, id)
    case Close(reason) => Dispose(c, reason)
  }

  function Execute(c: Client, steps: seq<Step>): Client
    decreases |steps|
  {
    if steps == [] then c else Execute(Next(c, steps[0]), steps[1..])
  }

  // ---------------------------------------------------------------------------------------------
  // What every step keeps
  // ---------------------------------------------------------------------------------------------

  function SettledIds(log: seq<Settlement>): (ids: seq<nat>)
    ensures |ids| == |log| && forall k :: 0 <= k < |log| ==> ids[k] == log[k].id
  {
    seq(|log|, k requires 0 <= k < |log| => log[k].id)
  }

  /** Each issued promise is pending or settled, and not both; a settled one was settled once. */
  ghost predicate Balanced(c: Client) {
    && Distinct(c.pending) && Distinct(SettledIds(c.log))
    && (forall id :: id in c.requests <==> id in c.pending || id in SettledIds(c.log))
    && (forall id :: id in c.pending ==> id !in SettledIds(c.log))
    && (c.disposed ==> c.pending == [])
  }

  /** Only pending promises have handlers; ids are handed out once, to promises and events alike. */
  ghost predicate Wired(c: Client) {
    && (forall id :: id in c.handlers ==> id < c.lastRequestId)
    && (forall id :: id in c.handlers ==> if c.handlers[id].PromiseHandler? then id in c.pending else id !in c.requests)
    && (forall id :: id in c.requests ==> id < c.lastRequestId && c.requests[id].id == id)
    && (forall id :: id in c.waiting ==> id in c.requests)
  }

  /** A response settles the promise whose id it carries and no other. */
  ghost predicate OwnAnswers(c: Client) {
    forall s :: s in c.log && s.outcome.Answered? ==> s.outcome.response.id == s.id && !s.outcome.response.kind.EventFire?
  }

  /** No request is sent twice, and none while it waits or if it cannot be written. */
  ghost predicate SentOnce(c: Client) {
    && Distinct(AskedIds(c.outbox))
    && (forall id :: id in AskedIds(c.outbox) ==> id in c.requests && id !in c.waiting && id !in c.unwritable)
    && c.thrown <= c.unwritable && (forall id :: id in c.unwritable ==> id in c.requests)
  }

  ghost predicate Inv(c: Client) {
    Balanced(c) && Wired(c) && OwnAnswers(c) && SentOnce(c)
  }

  lemma {:induction false} WithoutDistinct(ids: seq<nat>, id: nat)
    requires Distinct(ids)
    ensures Distinct(Without(ids, id))
  {
    if ids != [] {
      assert forall k :: 0 <= k < |ids[1..]| ==> ids[1..][k] == ids[k + 1];
      WithoutDistinct(ids[1..], id);
      var rest := Without(ids[1..], id);
      assert forall k :: 0 <= k < |rest| ==> rest[k] in rest && rest[k] in ids[1..];
    }
  }

  lemma SettledOneMore(log: seq<Settlement>, s: Settlement)
    ensures SettledIds(log + [s]) == SettledIds(log) + [s.id]
  {
  }

  lemma SettleKeepsBalance(c: Client, id: nat, outcome: Outcome)
    requires Balanced(c) && id in c.pending
    ensures Balanced(Settle(c, id, outcome))
  {
    WithoutDistinct(c.pending, id);
    SettledOneMore(c.log, Settlement(id, outcome));
    DistinctOneMore(SettledIds(c.log), id);
  }

  lemma DoRequestKeepsInv(c: Client, id: nat)
    requires Inv(c) && id in c.requests && id !in c.waiting && id !in AskedIds(c.outbox)
    ensures Inv(DoRequest(c, id))
  {
    hide Distinct, AskedIds, SettledIds, Balanced, OwnAnswers;
    if !c.disposed && id in c.pending && id !in c.unwritable {
      AskedOneMore(c.outbox, Ask(c.requests[id]));
      DistinctOneMore(AskedIds(c.outbox), id);
    }
    LogsAlike(c, DoRequest(c, id));
    PendingParts(c);
  }

  /** What was settled and is pending does not depend on handlers and messages. */
  lemma LogsAlike(c: Client, d: Client)
    requires d.pending == c.pending && d.log == c.log && d.requests == c.requests && d.disposed == c.disposed
    ensures Balanced(d) <==> Balanced(c)
    ensures OwnAnswers(d) <==> OwnAnswers(c)
  {
  }

  lemma PendingParts(c: Client)
    requires Balanced(c)
    ensures forall id :: id in c.pending ==> id in c.requests
  {
  }

  lemma RegisteredKeepsInv(c: Client, request: Request, writable: bool)
    requires Inv(c) && !c.disposed && request.id == c.lastRequestId
    ensures var r := Registered(c, request, writable);
            Inv(r) && request.id !in r.waiting && request.id !in AskedIds(r.outbox)
  {
    hide Distinct, AskedIds, SettledIds;
    DistinctOneMore(c.pending, c.lastRequestId);
  }

  lemma WaitingKeepsInv(c: Client, id: nat)
    requires Inv(c) && id in c.requests && id !in AskedIds(c.outbox)
    ensures Inv(c.(waiting := c.waiting + {id}))
  {
    hide Distinct, AskedIds, SettledIds;
  }

  lemma CancelledAtOnce(c: Client, request: Request, writable: bool)
    requires Inv(c) && !c.disposed && request.id == c.lastRequestId
    ensures Inv(Registered(c, request, writable).(pending := c.pending, log := c.log + [Settlement(c.lastRequestId, Cancelled)]))
  {
    hide Distinct, AskedIds, SettledIds;
    SettledOneMore(c.log, Settlement(c.lastRequestId, Cancelled));
    DistinctOneMore(SettledIds(c.log), c.lastRequestId);
  }

  lemma RequestPromiseKeepsInv(c: Client, channel: Text, name: Text, arg: Data, writable: bool, cancelled: bool)
    requires Inv(c)
    ensures Inv(RequestPromise(c, channel, name, arg, writable, cancelled))
  {
    if !c.disposed {
      hide Inv, DoRequest, Registered;
      var id := c.lastRequestId;
      var request := Request(id, channel, name, arg);
      RegisteredKeepsInv(c, request, writable);
      RegisteredIs(c, request, writable);
      var registered := Registered(c, request, writable);
      CancelledAtOnce(c, request, writable);
      WaitingKeepsInv(registered, id);
      DoRequestKeepsInv(registered, id);
      ThrowingKeepsInv(DoRequest(registered, id), id);
      DoRequestIs(registered, id);
    }
  }

  lemma RegisteredIs(c: Client, request: Request, writable: bool)
    ensures var r := Registered(c, request, writable);
            && c.lastRequestId in r.requests && (!writable ==> c.lastRequestId in r.unwritable)
            && r.waiting == c.waiting && r.thrown == c.thrown
  {
  }

  lemma DoRequestIs(c: Client, id: nat)
    requires id in c.requests
    ensures DoRequest(c, id).thrown == c.thrown && DoRequest(c, id).unwritable == c.unwritable
  {
  }

  lemma ThrowingKeepsInv(c: Client, id: nat)
    requires Inv(c)
    ensures id in c.unwritable ==> Inv(c.(thrown := c.thrown + {id}))
  {
  }

  lemma SettleKeepsInv(c: Client, id: nat, outcome: Outcome)
    requires Inv(c) && id in c.pending
    requires outcome.Answered? ==> outcome.response.id == id && !outcome.response.kind.EventFire?
    ensures Inv(Settle(c, id, outcome))
  {
    SettleKeepsBalance(c, id, outcome);
  }

  lemma DisposeKeepsBalance(c: Client, reason: Option<Data>)
    requires Balanced(c) && !c.disposed
    ensures Balanced(Dispose(c, reason))
  {
    var log := c.log + Closings(c.pending, reason);
    assert SettledIds(log) == SettledIds(c.log) + c.pending;
    DistinctConcat(SettledIds(c.log), c.pending);
  }

  lemma DisposeKeepsInv(c: Client, reason: Option<Data>)
    requires Inv(c)
    ensures Inv(Dispose(c, reason))
  {
    if !c.disposed {
      DisposeKeepsBalance(c, reason);
    }
  }

  lemma RunKeepsInv(c: Client, id: nat)
    requires Inv(c)
    ensures Inv(RunQueued(c, id))
  {
    if c.idle && id in c.waiting {
      DoRequestKeepsInv(c.(waiting := c.waiting - {id}), id);
    }
  }

  lemma CancelKeepsInv(c: Client, id: nat)
    requires Inv(c)
    ensures Inv(CancelRequested(c, id))
  {
    if id in c.pending && id !in c.thrown {
      AskedOneMore(c.outbox, CancelOrDispose(id));
      SettleKeepsInv(c.(outbox := c.outbox + [CancelOrDispose(id)]), id, Cancelled);
    }
  }

  lemma HearKeepsInv(c: Client, message: ToClient)
    requires Inv(c)
    ensures Inv(Hear(c, message))
  {
    if !c.disposed && message.Answer? && message.response.id in c.pending && !message.response.kind.EventFire? {
      SettleKeepsInv(c, message.response.id, Answered(message.response));
    }
  }

  lemma ListenKeepsInv(c: Client)
    requires Inv(c)
    ensures Inv(ListenEvent(c))
  {
  }

  lemma UnlistenKeepsInv(c: Client, id: nat)
    requires Inv(c)
    ensures Inv(UnlistenEvent(c, id))
  {
    AskedOneMore(c.outbox, CancelOrDispose(id));
  }

  lemma NextKeepsInv(c: Client, step: Step)
    requires Inv(c)
    ensures Inv(Next(c, step))
  {
    hide Inv, RequestPromise, RunQueued, CancelRequested, Hear, ListenEvent, UnlistenEvent, Dispose;
    match step
    case Call(channel, name, arg, writable, cancelled) => RequestPromiseKeepsInv(c, channel, name, arg, writable, cancelled);
    case Run(id) => RunKeepsInv(c, id);
    case Cancel(id) => CancelKeepsInv(c, id);
    case Message(message) => HearKeepsInv(c, message);
    case Listen => ListenKeepsInv(c);
    case Unlisten(id) => UnlistenKeepsInv(c, id);
    case Close(reason) => DisposeKeepsInv(c, reason);
  }

  lemma {:induction false} ExecuteKeepsInv(c: Client, steps: seq<Step>)
    requires Inv(c)
    ensures Inv(Execute(c, steps))
    decreases |steps|
  {
    if steps != [] {
      NextKeepsInv(c, steps[0]);
      ExecuteKeepsInv(Next(c, steps[0]), steps[1..]);
    }
  }

  /**
   * Over every run, whatever the messages say: no promise is settled twice, a response settles only the
   * promise with its id, every issued promise is pending or settled, and after disposal none is pending.
   */
  lemma EveryPromiseSettlesOnce(steps: seq<Step>, i: nat, j: nat)
    ensures var c := Execute(NewClient(), steps);
            && (i < j < |c.log| ==> c.log[i].id != c.log[j].id)
            && (i < |c.log| && c.log[i].outcome.Answered? ==> c.log[i].outcome.response.id == c.log[i].id)
            && (forall id :: id in c.requests <==> id in c.pending || exists s :: s in c.log && s.id == id)
            && (forall id :: id in c.pending ==> forall s :: s in c.log ==> s.id != id)
            && (c.disposed ==> c.pending == [])
  {
    ExecuteKeepsInv(NewClient(), steps);
    var c := Execute(NewClient(), steps);
    var ids := SettledIds(c.log);
    assert i < j < |c.log| ==> ids[i] == c.log[i].id && ids[j] == c.log[j].id;
    assert forall k :: 0 <= k < |c.log| ==> c.log[k] in c.log && ids[k] == c.log[k].id;
    forall id
      ensures id in ids <==> exists s :: s in c.log && s.id == id
    {
      if id in ids {
        var k :| 0 <= k < |ids| && ids[k] == id;
        assert c.log[k] in c.log;
      }
    }
  }

  /** How often a promise's resolve or reject function was called, its executor's own rejection included. */
  function Calls(c: Client, id: nat): nat {
    (if id in c.thrown then 1 else 0) + Times(SettledIds(c.log), id)
  }

  /** The step asks for this promise at once, uncancelled, with an argument that cannot be written. */
  predicate Throws(c: Client, step: Step, id: nat) {
    step.Call? && !step.writable && !step.cancelled && c.idle && !c.disposed && c.lastRequestId == id
  }

  /** Some step of the run did. */
  ghost predicate ThrewDuring(steps: seq<Step>, id: nat) {
    exists k :: 0 <= k < |steps| && Throws(Execute(NewClient(), steps[..k]), steps[k], id)
  }

  lemma {:induction false} ExecuteConcat(c: Client, front: seq<Step>, back: seq<Step>)
    ensures Execute(c, front + back) == Execute(Execute(c, front), back)
    decreases |front|
  {
    hide Next;
    if front == [] {
      assert front + back == back;
    } else {
      assert (front + back)[1..] == front[1..] + back;
      ExecuteConcat(Next(c, front[0]), front[1..], back);
    }
  }

  lemma ThrownNext(c: Client, step: Step, id: nat)
    ensures id in Next(c, step).thrown <==> id in c.thrown || Throws(c, step, id)
  {
  }

  lemma {:induction false} ThrownExactlyWhen(steps: seq<Step>, id: nat)
    ensures id in Execute(NewClient(), steps).thrown <==> ThrewDuring(steps, id)
    decreases |steps|
  {
    hide Next, Throws;
    if steps != [] {
      var n := |steps| - 1;
      var front, c := steps[..n], Execute(NewClient(), steps[..n]);
      assert steps == front + [steps[n]];
      ExecuteConcat(NewClient(), front, [steps[n]]);
      assert Execute(c, [steps[n]]) == Execute(Next(c, steps[n]), []);
      ThrownNext(c, steps[n], id);
      ThrownExactlyWhen(front, id);
      ThrewOneMore(steps, id);
    }
  }

  lemma ThrewOneMore(steps: seq<Step>, id: nat)
    requires steps != []
    ensures var n := |steps| - 1;
            ThrewDuring(steps, id) <==> ThrewDuring(steps[..n], id) || Throws(Execute(NewClient(), steps[..n]), steps[n], id)
  {
    hide Execute, Throws;
    var n := |steps| - 1;
    var front := steps[..n];
    assert forall k :: 0 <= k < n ==> front[..k] == steps[..k] && front[k] == steps[k];
    forall k | 0 <= k < n
      ensures Throws(Execute(NewClient(), front[..k]), front[k], id) <==> Throws(Execute(NewClient(), steps[..k]), steps[k], id)
    {
    }
  }

  /**
   * The second call of them, which has no effect: over every run it happens exactly to a promise asked for, uncancelled
   * and after initialization, with an argument that cannot be written, once its rejection entry is gone.
   */
  lemma CalledTwiceExactlyWhen(steps: seq<Step>, id: nat)
    ensures var c := Execute(NewClient(), steps);
            && Calls(c, id) <= 2
            && (Calls(c, id) == 2 <==> ThrewDuring(steps, id) && id !in c.pending)
            && (ThrewDuring(steps, id) ==> id !in AskedIds(c.outbox) && (c.disposed ==> id !in c.pending))
  {
    ExecuteKeepsInv(NewClient(), steps);
    ThrownExactlyWhen(steps, id);
    hide Execute, Wired, OwnAnswers, Distinct, ThrewDuring;
    SettledAtMostOnce(Execute(NewClient(), steps), id);
  }

  lemma SettledAtMostOnce(c: Client, id: nat)
    requires Balanced(c)
    ensures Times(SettledIds(c.log), id) == if id in SettledIds(c.log) then 1 else 0
  {
    DistinctTimes(SettledIds(c.log));
    hide Distinct;
    assert Times(SettledIds(c.log), id) <= 1;
    if id in SettledIds(c.log) {
      assert PlaceOf(SettledIds(c.log), id) in Places(SettledIds(c.log), id);
    } else {
      assert Places(SettledIds(c.log), id) == {};
    }
  }

  /** A promise is closed by disposal only, and cancelled only if its executor did not throw. */
  ghost predicate ThrownWait(c: Client) {
    forall s :: s in c.log ==> (s.outcome.Closed? ==> c.disposed) && (s.outcome.Cancelled? ==> s.id !in c.thrown)
  }

  lemma NextKeepsThrownWait(c: Client, step: Step)
    requires Inv(c) && ThrownWait(c)
    ensures ThrownWait(Next(c, step))
  {
    LogIsOfRequests(c);
    hide Inv, Balanced, SettledIds, AskedIds;
    if step.Close? && !c.disposed {
      var closings := Closings(c.pending, step.reason);
      assert forall s :: s in closings ==> s.outcome.Closed?;
    }
  }

  lemma LogIsOfRequests(c: Client)
    requires Inv(c)
    ensures forall s :: s in c.log ==> s.id in c.requests
    ensures c.lastRequestId !in c.requests && forall id :: id in c.thrown ==> id in c.requests
  {
    assert forall k :: 0 <= k < |c.log| ==> SettledIds(c.log)[k] == c.log[k].id;
    assert forall s :: s in c.log ==> s.id in SettledIds(c.log);
  }

  /** It does happen. */
  lemma AnUnwritableArgumentIsRejectedTwice(channel: Text, name: Text, arg: Data, reason: Option<Data>)
    ensures var steps := [Message(Initialize), Call(channel, name, arg, false, false), Close(reason)];
            var c := Execute(NewClient(), steps);
            c.thrown == {0} && c.log == [Settlement(0, Closed(reason))] && c.outbox == []
  {
    var steps := [Message(Initialize), Call(channel, name, arg, false, false), Close(reason)];
    var c1 := Next(NewClient(), steps[0]);
    var c2 := Next(c1, steps[1]);
    var c3 := Next(c2, steps[2]);
    assert c2.pending == [0] && c2.thrown == {0} && c2.log == [] && c2.outbox == [];
    assert Closings([0], reason) == [Settlement(0, Closed(reason))];
    assert steps[1..][1..] == [steps[2]] && [steps[2]][1..] == [];
    assert Execute(NewClient(), steps) == Execute(c1, steps[1..]) == Execute(c2, [steps[2]]) == Execute(c3, []);
  }

  // ---------------------------------------------------------------------------------------------
  // Disposal, promise by promise
  // ---------------------------------------------------------------------------------------------

  /** The first pending promises are rejected. */
  function ClosedUpTo(c: Client, k: nat, reason: Option<Data>): Client
    requires k <= |c.pending|
  {
    c.(disposed := true,
    handlers := map id | id in c.handlers && id !in c.pending[..k] :: c.handlers[id],
    pending := c.pending[k..],
    log := c.log + Closings(c.pending[..k], reason))
  }

  lemma ClosedNone(c: Client, reason: Option<Data>)
    ensures ClosedUpTo(c, 0, reason) == c.(disposed := true)
  {
    assert c.pending[0..] == c.pending && c.log + Closings([], reason) == c.log;
  }

  lemma ClosedOneMore(c: Client, k: nat, reason: Option<Data>)
    requires k < |c.pending|
    ensures var some, more, id := ClosedUpTo(c, k, reason), ClosedUpTo(c, k + 1, reason), c.pending[k];
            && more.handlers == some.handlers - {id} && more.pending == some.pending[1..]
            && more.log == some.log + [Settlement(id, Closed(reason))]
            && more == some.(handlers := more.handlers, pending := more.pending, log := more.log)
  {
    assert c.pending[..k + 1] == c.pending[..k] + [c.pending[k]];
    assert Closings(c.pending[..k + 1], reason) == Closings(c.pending[..k], reason) + [Settlement(c.pending[k], Closed(reason))];
  }

  lemma ClosedAll(c: Client, reason: Option<Data>)
    requires !c.disposed
    ensures ClosedUpTo(c, |c.pending|, reason) == Dispose(c, reason)
  {
    assert c.pending[..|c.pending|] == c.pending;
  }

  // ---------------------------------------------------------------------------------------------
  // The object
  // ---------------------------------------------------------------------------------------------

  class ChannelClient {
    var idle: bool
    var isDisposed: bool
    var handlers: map<nat, Handler>
    var pendingRejections: seq<nat>
    var lastRequestId: nat
    /** Requests whose turn comes after initialization. */
    var waiting: set<nat>
    /** What the closures of each promise hold. */
    var requests: map<nat, Request>
    /** Promises whose argument cannot be written, and those rejected for it by their executor. */
    var unwritable: set<nat>
    var thrown: set<nat>
    var outbox: seq<ToServer>
    var settlements: seq<Settlement>

    function State(): Client
      reads this
    {
      Client(idle, isDisposed, handlers, pendingRejections, waiting, requests, unwritable, thrown,
             lastRequestId, outbox, settlements)
    }

    constructor ()
      ensures State() == NewClient()
    {
      idle, isDisposed, handlers, pendingRejections, lastRequestId := false, false, map[], [], 0;
      waiting, requests, unwritable, thrown, outbox, settlements := {}, map[], {}, {}, [], [];
    }

    /**
     * `call` of a channel: the id of the promise, or none for the immediate rejection of a disposed client.
     * `writable` says whether `serialize` writes the argument; it throws otherwise.
     */
    method Call(channel: Text, name: Text, arg: Data, writable: bool, cancelled: bool) returns (id: Option<nat>)
      modifies this
      ensures State() == RequestPromise(old(State()), channel, name, arg, writable, cancelled)
      ensures id == if old(isDisposed) then None else Some(old(lastRequestId))
    {
      if isDisposed {
        return None;
      }
      id := Some(lastRequestId);
      lastRequestId := lastRequestId + 1;
      requests := requests[id.value := Request(id.value, channel, name, arg)];
      unwritable := if writable then unwritable - {id.value} else unwritable + {id.value};
      if cancelled {
        settlements := settlements + [Settlement(id.value, Cancelled)];
        return;
      }
      RunExecutor(id.value);
    }

    /** The executor of the promise: its rejection entry, and sending at once or when the client is initialized. */
    method RunExecutor(id: nat)
      requires id in requests && !isDisposed
      modifies this
      ensures State() == Executed(old(State()), id)
    {
      pendingRejections := pendingRejections + [id];
      if idle {
        var threw := DoSend(id);
        if threw {
          thrown := thrown + {id};
        }
      } else {
        waiting := waiting + {id};
      }
    }

    /** Whether `sendRequest` threw. */
    method DoSend(id: nat) returns (threw: bool)
      requires id in requests
      modifies this
      ensures State() == DoRequest(old(State()), id)
      ensures threw == (!old(isDisposed) && id in old(pendingRejections) && id in old(unwritable))
    {
      if isDisposed || id !in pendingRejections {
        return false;
      }
      handlers := handlers[id := PromiseHandler];
      if id in unwritable {
        return true;
      }
      outbox := outbox + [Ask(requests[id])];
      threw := false;
    }

    method RunWaiting(id: nat)
      modifies this
      ensures State() == RunQueued(old(State()), id)
    {
      if idle && id in waiting && id in requests {
        waiting := waiting - {id};
        var _ := DoSend(id);
      }
    }

    method OnCancellationRequested(id: nat)
      modifies this
      ensures State() == CancelRequested(old(State()), id)
    {
      if id !in pendingRejections || id in thrown {
        return;
      }
      outbox := outbox + [CancelOrDispose(id)];
      SettlePromise(id, Cancelled);
    }

    /** Both map deletions and the call of resolve or reject. */
    method SettlePromise(id: nat, outcome: Outcome)
      modifies this
      ensures State() == Settle(old(State()), id, outcome)
    {
      handlers := handlers - {id};
      pendingRejections := Without(pendingRejections, id);
      settlements := settlements + [Settlement(id, outcome)];
    }

    method OnMessage(message: ToClient)
      modifies this
      ensures State() == Hear(old(State()), message)
    {
      if isDisposed {
        return;
      }
      match message {
        case Initialize => idle := true;
        case Answer(response) =>
          if response.id in handlers && handlers[response.id] == PromiseHandler {
            match response.kind {
              case EventFire =>
              case _ => SettlePromise(response.id, Answered(response));
            }
          }
      }
    }

    method Listen()
      modifies this
      ensures State() == ListenEvent(old(State()))
    {
      if isDisposed {
        return;
      }
      handlers := handlers[lastRequestId := EventHandler];
      lastRequestId := lastRequestId + 1;
    }

    method Unlisten(id: nat)
      modifies this
      ensures State() == UnlistenEvent(old(State()), id)
    {
      if id in handlers && handlers[id] == EventHandler {
        handlers := handlers - {id};
        outbox := outbox + [CancelOrDispose(id)];
      }
    }

    /** One turn of the loop over the rejection entries. */
    method RejectFirst(reason: Option<Data>)
      requires pendingRejections != []
      modifies this
      ensures var before, id := old(State()), old(pendingRejections)[0];
              State() == before.(handlers := before.handlers - {id}, pending := before.pending[1..],
                                 log := before.log + [Settlement(id, Closed(reason))])
    {
      var id := pendingRejections[0];
      pendingRejections := pendingRejections[1..];
      handlers := handlers - {id};
      settlements := settlements + [Settlement(id, Closed(reason))];
    }

    /** Rejects the pending promises one after the other, oldest first. */
    method DisposeAll(reason: Option<Data>)
      modifies this
      ensures State() == Dispose(old(State()), reason)
    {
      if isDisposed {
        return;
      }
      isDisposed := true;
      ghost var before, k := old(State()), 0;
      ClosedNone(before, reason);
      hide ClosedUpTo, Closings, Dispose, Without;
      while pendingRejections != []
        invariant k <= |before.pending| && pendingRejections == before.pending[k..]
        invariant State() == ClosedUpTo(before, k, reason)
        decreases |pendingRejections|
      {
        ClosedOneMore(before, k, reason);
        RejectFirst(reason);
        k := k + 1;
      }
      ClosedAll(before, reason);
    }
  }
}
