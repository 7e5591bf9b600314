/** What becomes of a promise: sent, answered, cancelled or closed. */
module ChannelProgress {
  // packages/rpc/src/channelClient.ts: the other half of ChannelClient's laws, which say what never happens.

  import opened ChannelClient
  import opened ChannelMessages
  import opened Outcomes
  import opened Serialization
  import opened Texts

  /** A pending promise waits for initialization, was sent, or cannot be written. */
  ghost predicate Placed(c: Client) {
    forall id :: id in c.pending ==> id in c.waiting || id in AskedIds(c.outbox) || id in c.unwritable
  }

  /** A pending promise that was sent listens for its answer. */
  ghost predicate Listening(c: Client) {
    forall id :: id in c.pending && id in AskedIds(c.outbox) ==> id in c.handlers && c.handlers[id].PromiseHandler?
  }

  ghost predicate Progress(c: Client) {
    Inv(c) && Placed(c) && Listening(c)
  }

  lemma AskedGrow(c: Client, message: ToServer)
    ensures AskedIds(c.outbox + [message]) == AskedIds(c.outbox) + AskedId(message)
  {
    AskedOneMore(c.outbox, message);
  }

  lemma DoRequestProgresses(c: Client, id: nat)
    requires id in c.requests && c.requests[id].id == id && Listening(c)
    requires forall other :: other in c.pending && other != id ==>
               other in c.waiting || other in AskedIds(c.outbox) || other in c.unwritable
    requires id in c.pending ==> !c.disposed
    ensures Placed(DoRequest(c, id)) && Listening(DoRequest(c, id))
  {
    hide AskedIds;
    AskedGrow(c, Ask(c.requests[id]));
  }

  lemma CallProgresses(c: Client, channel: Text, name: Text, arg: Data, writable: bool, cancelled: bool)
    requires Progress(c)
    ensures var d := RequestPromise(c, channel, name, arg, writable, cancelled); Placed(d) && Listening(d)
  {
    hide Inv, Placed, Listening, Issued, Executed;
    var id := c.lastRequestId;
    var request := Request(id, channel, name, arg);
    NewId(c);
    IssuedProgresses(c, request, writable);
    ExecutedProgresses(Issued(c, request, writable), id);
    CancelledProgresses(Issued(c, request, writable), id);
  }

  lemma IssuedProgresses(c: Client, request: Request, writable: bool)
    requires Placed(c) && Listening(c) && c.lastRequestId !in c.pending && request.id == c.lastRequestId
    ensures var issued := Issued(c, request, writable);
            && Placed(issued) && Listening(issued) && request.id in issued.requests && issued.requests[request.id] == request
            && issued.pending == c.pending && issued.outbox == c.outbox && issued.disposed == c.disposed && issued.log == c.log
  {
    hide AskedIds;
  }

  lemma CancelledProgresses(c: Client, id: nat)
    requires Placed(c) && Listening(c)
    ensures var d := c.(log := c.log + [Settlement(id, Cancelled)]); Placed(d) && Listening(d)
  {
    hide AskedIds;
  }

  lemma ExecutedProgresses(c: Client, id: nat)
    requires Placed(c) && Listening(c) && id in c.requests && c.requests[id].id == id
    requires id !in c.pending && id !in AskedIds(c.outbox)
    ensures !c.disposed ==> Placed(Executed(c, id)) && Listening(Executed(c, id))
  {
    hide AskedIds, DoRequest;
    var registered := c.(pending := c.pending + [id]);
    if !c.disposed {
      DoRequestProgresses(registered, id);
    }
  }

  lemma NewId(c: Client)
    requires Inv(c)
    ensures c.lastRequestId !in AskedIds(c.outbox) && c.lastRequestId !in c.pending
  {
    PendingParts(c);
    hide AskedIds, Balanced, OwnAnswers;
  }

  lemma RunProgresses(c: Client, id: nat)
    requires Progress(c)
    ensures Placed(RunQueued(c, id)) && Listening(RunQueued(c, id))
  {
    hide AskedIds, OwnAnswers;
    if c.idle && id in c.waiting && id in c.requests {
      DoRequestProgresses(c.(waiting := c.waiting - {id}), id);
    }
  }

  lemma OthersProgress(c: Client, step: Step)
    requires Progress(c) && !step.Call? && !step.Run?
    ensures Placed(Next(c, step)) && Listening(Next(c, step))
  {
    hide AskedIds, OwnAnswers, SentOnce, Balanced;
    if step.Cancel? {
      AskedGrow(c, CancelOrDispose(step.id));
    } else if step.Unlisten? {
      AskedGrow(c, CancelOrDispose(step.id));
    }
  }

  lemma NextProgresses(c: Client, step: Step)
    requires Progress(c)
    ensures Progress(Next(c, step))
  {
    NextKeepsInv(c, step);
    hide Inv, Placed, Listening, RequestPromise, RunQueued;
    match step
    case Call(channel, name, arg, writable, cancelled) => CallProgresses(c, channel, name, arg, writable, cancelled);
    case Run(id) => RunProgresses(c, id);
    case _ => OthersProgress(c, step);
  }

  lemma {:induction false} ExecuteProgresses(c: Client, steps: seq<Step>)
    requires Progress(c)
    ensures Progress(Execute(c, steps))
    decreases |steps|
  {
    hide Progress, Next;
    if steps != [] {
      NextProgresses(c, steps[0]);
      ExecuteProgresses(Next(c, steps[0]), steps[1..]);
    }
  }

  ghost predicate Reachable(c: Client) {
    exists steps :: c == Execute(NewClient(), steps)
  }

  lemma ReachableProgress(c: Client)
    requires Reachable(c)
    ensures Progress(c)
  {
    var steps :| c == Execute(NewClient(), steps);
    NothingYet();
    hide Progress, Execute, NewClient;
    ExecuteProgresses(NewClient(), steps);
  }

  lemma NothingYet()
    ensures Progress(NewClient())
  {
  }

  // ---------------------------------------------------------------------------------------------
  // The theorems, over every run
  // ---------------------------------------------------------------------------------------------

  /** No promise is forgotten: while it is pending it waits for initialization, was sent, or cannot be written. */
  lemma PendingIsPlaced(c: Client, id: nat)
    requires Reachable(c) && id in c.pending
    ensures id in c.waiting || id in AskedIds(c.outbox) || id in c.unwritable
  {
    ReachableProgress(c);
  }

  /** One promise is settled, in this way; the others stay as they are. */
  ghost predicate SettlesOnly(c: Client, next: Client, id: nat, outcome: Outcome) {
    && next.log == c.log + [Settlement(id, outcome)]
    && forall other :: other in next.pending <==> other in c.pending && other != id
  }

  /** Any response to a promise that was sent and is pending, in success or in error, settles it with that response. */
  lemma AnswerSettles(c: Client, response: Response)
    requires Reachable(c) && response.id in c.pending && response.id in AskedIds(c.outbox) && !response.kind.EventFire?
    ensures var next := Next(c, Message(Answer(response)));
            SettlesOnly(c, next, response.id, Answered(response)) && next.outbox == c.outbox
  {
    ReachableProgress(c);
  }

  /** A response to a promise that is not pending, and any event, settles nothing. */
  lemma OtherResponsesSettleNothing(c: Client, response: Response)
    requires Reachable(c) && (response.id !in c.pending || response.kind.EventFire?)
    ensures Next(c, Message(Answer(response))) == c
  {
    ReachableProgress(c);
  }

  /** Cancelling a pending promise settles it and tells the server; once it is settled nothing happens. */
  lemma CancelSettles(c: Client, id: nat)
    requires Reachable(c) && id !in c.thrown
    ensures var next := Next(c, Cancel(id));
            if id in c.pending then SettlesOnly(c, next, id, Cancelled) && next.outbox == c.outbox + [CancelOrDispose(id)]
            else next == c
  {
  }

  /** Disposal settles every pending promise, in the order they were asked for, and nothing is sent. */
  lemma CloseSettles(c: Client, reason: Option<Data>, k: nat)
    requires Reachable(c) && k < |c.pending|
    ensures var next := Next(c, Close(reason));
            && next.pending == [] && next.outbox == c.outbox && |next.log| == |c.log| + |c.pending|
            && next.log[..|c.log|] == c.log && next.log[|c.log| + k] == Settlement(c.pending[k], Closed(reason))
  {
    ReachableProgress(c);
  }

  /** A call is sent at once after initialization, and waits before; its turn sends it as it was asked for. */
  lemma CallsAreSent(c: Client, channel: Text, name: Text, arg: Data)
    requires Reachable(c) && !c.disposed
    ensures var request := Request(c.lastRequestId, channel, name, arg);
            var next := Next(c, Call(channel, name, arg, true, false));
            && request.id in next.pending && request.id in next.requests && next.requests[request.id] == request
            && next.outbox == (if c.idle then c.outbox + [Ask(request)] else c.outbox)
            && (!c.idle ==> request.id in next.waiting)
  {
  }

  lemma QueuedCallsAreSent(c: Client, id: nat)
    requires Reachable(c) && id in c.waiting && c.idle
    ensures var next := Next(c, Run(id));
            && id in c.requests && id !in next.waiting
            && next.outbox == (if id in c.pending && id !in c.unwritable then c.outbox + [Ask(c.requests[id])] else c.outbox)
  {
    ReachableProgress(c);
  }
}
