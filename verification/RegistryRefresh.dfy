/** The registry's coalescing refresh loop and its runs. */
module RegistryRefresh {
  // packages/provider/src/registry-service.ts: every stretch of code between two awaits is one step; the states
  // between are where the loop is suspended.

  import opened Outcomes
  import opened RefreshWaiters
  import opened Counting

  datatype Config = Config(revision: string, builtinRevision: string)

  datatype Account = Account(revision: string, basedOnBuiltinRevision: string)

  datatype Snapshot = Snapshot(config: Config, account: Account, registryRevision: nat)

  /** Where the loop promise stands: none, waiting for both reads, or settled with its handler still to run. */
  datatype Loop =
    | Idle
    | Reading(generation: nat, reasons: set<string>)
    | Returned
    | Threw

  datatype Service = Service(
    requested: nat,
    completed: nat,
    pendingReasons: set<string>,
    waiters: seq<nat>,
    snapshot: Option<Snapshot>,
    registryRevision: nat,
    loop: Loop,
    disposed: bool,
    history: seq<Event<Snapshot>>)

  /** How the two reads end, and whether the resolver accepts them. */
  datatype ReadResult = ReadFailed | ReadOk(config: Config, account: Account, resolves: bool)

  datatype Step =
    | RequestStep(reason: string)
    | ResumeStep(result: ReadResult, onChange: Listeners, onError: Listeners)
    | FinishStep
    | DisposeStep

  const FRESH: Service := Service(0, 0, {}, [], None, 0, Idle, false, [])

  /** The head of the while loop: begin a round for everything asked so far, or return. */
  function Continue(s: Service, reasons: set<string>): Service {
    if s.completed < s.requested then
      s.(pendingReasons := {}, loop := Reading(s.requested, reasons + s.pendingReasons),
         history := s.history + [ReadsBegan(s.requested)])
    else s.(loop := Returned)
  }

  function EnsureLoop(s: Service): Service {
    if s.loop.Idle? && !s.disposed then Continue(s, {}) else s
  }

  function Request(s: Service, reason: string): Service {
    EnsureLoop(s.(requested := s.requested + 1,
                  pendingReasons := s.pendingReasons + {reason},
                  waiters := s.waiters + [s.requested + 1],
                  history := s.history + [Requested(s.requested + 1)]))
  }

  function Settle(s: Service, generation: nat, round: nat, verdict: Verdict<Snapshot>): Service {
    s.(waiters := Kept(s.waiters, generation),
       history := s.history + Settlement(Taken(s.waiters, generation), round, verdict))
  }

  function Dispose(s: Service): Service {
    if s.disposed then s
    else s.(disposed := true, waiters := [], history := s.history + Settlement(s.waiters, s.requested, Disposed))
  }

  function Make(s: Service, calls: seq<Call>): Service
    decreases |calls|
  {
    if calls == [] then s
    else
      match calls[0]
      case Refresh(reason) => Make(if s.disposed then s else Request(s, reason), calls[1..])
      case DisposeService => Make(Dispose(s), calls[1..])
  }

  /** Disposing clears the listeners, so a disposed service tells nobody. */
  function Emit(s: Service, listeners: Listeners): Service {
    if s.disposed then s else Make(s, listeners.calls)
  }

  /** A round that ends the loop with an error. */
  function Fail(s: Service, generation: nat, reasons: set<string>, onError: Listeners): Service {
    var failed := s.(completed := generation, history := s.history + [Failed(generation, reasons)]);
    var told := Emit(failed, onError);
    if !failed.disposed && onError.throws then told.(loop := Threw)
    else Settle(told, generation, generation, Rejected).(loop := Returned)
  }

  function SameRevisions(s: Service, config: Config, account: Account): bool {
    && s.snapshot.Some?
    && s.snapshot.value.config.revision == config.revision
    && s.snapshot.value.account.revision == account.revision
  }

  /** The publication before anybody is told. */
  function Publication(s: Service, generation: nat, reasons: set<string>, config: Config, account: Account): Service {
    var snapshot := Snapshot(config, account, s.registryRevision + 1);
    Settle(s.(registryRevision := s.registryRevision + 1, snapshot := Some(snapshot), completed := generation,
              history := s.history + [Published(snapshot, reasons)]),
           generation, generation, Resolved(snapshot))
  }

  /** A round whose reads are both current and new: resolve, replace, publish. */
  function Publish(s: Service, generation: nat, reasons: set<string>, config: Config, account: Account,
                   onChange: Listeners, onError: Listeners): Service {
    var told := Emit(Publication(s, generation, reasons, config, account), onChange);
    if onChange.throws then Fail(told, generation, reasons, onError) else Continue(told, {})
  }

  /** From the end of the await to the next await or to the end of the loop. */
  function Resume(s: Service, result: ReadResult, onChange: Listeners, onError: Listeners): Service
    requires s.loop.Reading?
  {
    var generation, reasons := s.loop.generation, s.loop.reasons;
    if generation < s.requested then Continue(s, reasons)
    else
      match result
      case ReadFailed => Fail(s, generation, reasons, onError)
      case ReadOk(config, account, resolves) =>
        var done := s.(completed := generation);
        if s.disposed then s.(loop := Threw)
        else if account.basedOnBuiltinRevision != config.builtinRevision then
          Continue(if s.snapshot.Some? then Settle(done, generation, generation, Resolved(s.snapshot.value)) else done, {})
        else if SameRevisions(s, config, account) then
          Continue(Settle(done, generation, generation, Resolved(s.snapshot.value)), {})
        else if resolves then Publish(s, generation, reasons, config, account, onChange, onError)
        else Fail(s, generation, reasons, onError)
  }

  /** The handler of the loop promise. */
  function Finish(s: Service): Service
    requires s.loop.Returned? || s.loop.Threw?
  {
    var rejected := if s.loop.Threw? then Settle(s, s.requested, s.requested, Crashed) else s;
    var idle := rejected.(loop := Idle);
    if idle.completed < idle.requested then EnsureLoop(idle) else idle
  }

  predicate CanStep(s: Service, step: Step) {
    match step
    case RequestStep(_) => !s.disposed
    case ResumeStep(_, _, _) => s.loop.Reading?
    case FinishStep => s.loop.Returned? || s.loop.Threw?
    case DisposeStep => true
  }

  function Next(s: Service, step: Step): Service
    requires CanStep(s, step)
  {
    match step
    case RequestStep(reason) => Request(s, reason)
    case ResumeStep(result, onChange, onError) => Resume(s, result, onChange, onError)
    case FinishStep => Finish(s)
    case DisposeStep => Dispose(s)
  }

  function Execute(s: Service, steps: seq<Step>): Option<Service>
    decreases |steps|
  {
    if steps == [] then Some(s)
    else if CanStep(s, steps[0]) then Execute(Next(s, steps[0]), steps[1..])
    else None
  }

  // ---------------------------------------------------------------------------------------------
  // What every step keeps
  // ---------------------------------------------------------------------------------------------

  /** A snapshot pairs an account layer with the built-in revision it was computed for. */
  predicate Paired(snapshot: Snapshot) {
    snapshot.account.basedOnBuiltinRevision == snapshot.config.builtinRevision
  }

  /** One registry revision per publication, counted from one. */
  ghost predicate Numbered(revision: nat, snapshots: seq<Snapshot>) {
    && |snapshots| == revision
    && forall k :: 0 <= k < |snapshots| ==> snapshots[k].registryRevision == k + 1 && Paired(snapshots[k])
  }

  /** The parts no step breaks, whoever is running. */
  ghost predicate Sound(s: Service) {
    && Books(s.requested, s.waiters, s.snapshot, s.history)
    && Numbered(s.registryRevision, PublishedOf(s.history))
    && s.completed <= s.requested
    && (s.disposed ==> s.waiters == [])
  }

  /** Where the loop is tells which waiters can still be there. */
  ghost predicate Inv(s: Service) {
    && Sound(s)
    && (s.loop.Reading? ==> s.completed < s.loop.generation <= s.requested && ReadsBegan(s.loop.generation) in s.history)
    && (s.loop.Idle? ==> s.disposed || s.completed == s.requested)
    && (!s.loop.Threw? ==> forall w :: w in s.waiters ==> s.completed < w || s.snapshot.None?)
  }

  lemma ContinueKeeps(s: Service, reasons: set<string>)
    requires Sound(s) && forall w :: w in s.waiters ==> s.completed < w || s.snapshot.None?
    ensures Inv(Continue(s, reasons))
  {
    hide Books, Numbered;
    BeginKeepsBooks(s.requested, s.waiters, s.snapshot, s.history);
  }

  /** What a listener's calls keep while the loop is running. */
  ghost predicate Grows(s: Service, next: Service) {
    && Sound(next)
    && next.loop == s.loop && next.completed == s.completed && next.snapshot == s.snapshot
    && next.registryRevision == s.registryRevision
    && s.requested <= next.requested
    && (forall w :: w in next.waiters ==> w in s.waiters || s.requested < w)
    && (forall e :: e in s.history ==> e in next.history)
  }

  lemma AskKeepsSound(s: Service, reason: string)
    requires Sound(s) && !s.disposed
    ensures Grows(s, s.(requested := s.requested + 1,
                        pendingReasons := s.pendingReasons + {reason},
                        waiters := s.waiters + [s.requested + 1],
                        history := s.history + [Requested(s.requested + 1)]))
  {
    hide Books, Numbered;
    RequestKeepsBooks(s.requested, s.waiters, s.snapshot, s.history);
  }

  lemma DisposeKeepsSound(s: Service)
    requires Sound(s)
    ensures Grows(s, Dispose(s))
  {
    hide Books, Numbered;
    DisposeKeepsBooks(s.requested, s.waiters, s.snapshot, s.history);
  }

  lemma {:induction false} MakeKeepsSound(s: Service, calls: seq<Call>)
    requires Sound(s) && !s.loop.Idle?
    ensures Grows(s, Make(s, calls))
    decreases |calls|
  {
    hide Sound, Dispose, Grows;
    GrowsNot(s);
    if calls != [] {
      var next := if calls[0].DisposeService? then Dispose(s) else if s.disposed then s else Request(s, calls[0].reason);
      if calls[0].DisposeService? {
        DisposeKeepsSound(s);
      } else if !s.disposed {
        AskKeepsSound(s, calls[0].reason);
      }
      GrowsSoundly(s, next);
      MakeKeepsSound(next, calls[1..]);
      GrowsOn(s, next, Make(next, calls[1..]));
    }
  }

  lemma GrowsNot(s: Service)
    requires Sound(s)
    ensures Grows(s, s)
  {
  }

  lemma GrowsSoundly(s: Service, next: Service)
    requires Grows(s, next)
    ensures Sound(next) && next.loop == s.loop
  {
  }

  lemma GrowsOn(s: Service, next: Service, more: Service)
    requires Grows(s, next) && Grows(next, more)
    ensures Grows(s, more)
  {
    hide Sound;
  }

  lemma EmitKeepsSound(s: Service, listeners: Listeners)
    requires Sound(s) && !s.loop.Idle?
    ensures Grows(s, Emit(s, listeners))
  {
    MakeKeepsSound(s, listeners.calls);
  }

  lemma SettleKeepsSound(s: Service, generation: nat, round: nat, verdict: Verdict<Snapshot>)
    requires Sound(s)
    requires verdict.Resolved? || verdict.Rejected? ==> generation == round && ReadsBegan(round) in s.history
    requires verdict.Resolved? ==> s.snapshot == Some(verdict.snapshot)
    ensures Grows(s, Settle(s, generation, round, verdict))
    ensures forall w :: w in Settle(s, generation, round, verdict).waiters <==> w in s.waiters && generation < w
  {
    hide Books, Numbered, Taken;
    SettleKeepsBooks(s.requested, s.waiters, s.snapshot, s.history, generation, round, verdict);
  }

  lemma FailKeeps(s: Service, generation: nat, reasons: set<string>, onError: Listeners)
    requires Sound(s) && s.loop.Reading? && ReadsBegan(generation) in s.history && generation <= s.requested
    ensures Inv(Fail(s, generation, reasons, onError))
  {
    hide Books, Numbered, Emit, Settle;
    FailKeepsBooks(s.requested, s.waiters, s.snapshot, s.history, generation, reasons);
    var failed := s.(completed := generation, history := s.history + [Failed(generation, reasons)]);
    assert Sound(failed);
    EmitKeepsSound(failed, onError);
    var told := Emit(failed, onError);
    SettleKeepsSound(told, generation, generation, Rejected);
  }

  lemma PublishKeeps(s: Service, generation: nat, reasons: set<string>, config: Config, account: Account,
                     onChange: Listeners, onError: Listeners)
    requires Sound(s) && s.loop.Reading? && ReadsBegan(generation) in s.history && generation <= s.requested
    requires account.basedOnBuiltinRevision == config.builtinRevision
    ensures Inv(Publish(s, generation, reasons, config, account, onChange, onError))
  {
    var snapshot := Snapshot(config, account, s.registryRevision + 1);
    var published := s.(registryRevision := s.registryRevision + 1, snapshot := Some(snapshot), completed := generation,
                        history := s.history + [Published(snapshot, reasons)]);
    PublishKeepsSound(s, generation, reasons, snapshot);
    hide Sound, Emit, Settle, Fail, Continue;
    SettleKeepsSound(published, generation, generation, Resolved(snapshot));
    var settled := Settle(published, generation, generation, Resolved(snapshot));
    EmitKeepsSound(settled, onChange);
    var told := Emit(settled, onChange);
    if onChange.throws {
      FailKeeps(told, generation, reasons, onError);
    } else {
      ContinueKeeps(told, {});
    }
  }

  lemma PublishKeepsSound(s: Service, generation: nat, reasons: set<string>, snapshot: Snapshot)
    requires Sound(s) && generation <= s.requested
    requires Paired(snapshot) && snapshot.registryRevision == s.registryRevision + 1
    ensures Sound(s.(registryRevision := s.registryRevision + 1, snapshot := Some(snapshot), completed := generation,
                     history := s.history + [Published(snapshot, reasons)]))
  {
    hide Books;
    PublishKeepsBooks(s.requested, s.waiters, s.snapshot, snapshot, s.history, reasons);
  }

  lemma ResumeKeeps(s: Service, result: ReadResult, onChange: Listeners, onError: Listeners)
    requires Inv(s) && s.loop.Reading?
    ensures Inv(Resume(s, result, onChange, onError))
  {
    var generation, reasons := s.loop.generation, s.loop.reasons;
    var done := s.(completed := generation);
    assert Sound(done);
    if generation < s.requested {
      ContinueKeeps(s, reasons);
    } else if result.ReadFailed? {
      FailKeeps(s, generation, reasons, onError);
    } else if !s.disposed {
      hide Books, Numbered, Continue, Settle, Publish, Fail;
      if result.account.basedOnBuiltinRevision != result.config.builtinRevision || SameRevisions(s, result.config, result.account) {
        if s.snapshot.Some? {
          SettleKeepsSound(done, generation, generation, Resolved(s.snapshot.value));
          ContinueKeeps(Settle(done, generation, generation, Resolved(s.snapshot.value)), {});
        } else {
          ContinueKeeps(done, {});
        }
      } else if result.resolves {
        PublishKeeps(s, generation, reasons, result.config, result.account, onChange, onError);
      } else {
        FailKeeps(s, generation, reasons, onError);
      }
    }
  }

  lemma FinishKeeps(s: Service)
    requires Inv(s) && (s.loop.Returned? || s.loop.Threw?)
    ensures Inv(Finish(s))
  {
    hide Books, Numbered, Settle, Continue;
    var rejected := if s.loop.Threw? then Settle(s, s.requested, s.requested, Crashed) else s;
    CrashLeavesNobody(s);
    var idle := rejected.(loop := Idle);
    assert Sound(idle);
    assert forall w :: w in idle.waiters ==> idle.completed < w || idle.snapshot.None?;
    hide Sound;
    if idle.completed < idle.requested && !idle.disposed {
      ContinueKeeps(idle, {});
    }
  }

  lemma CrashLeavesNobody(s: Service)
    requires Sound(s)
    ensures Grows(s, Settle(s, s.requested, s.requested, Crashed))
    ensures forall w :: w !in Settle(s, s.requested, s.requested, Crashed).waiters
  {
    SettleKeepsSound(s, s.requested, s.requested, Crashed);
    WaitersWereRequested(s);
    hide Sound, Settle;
  }

  lemma WaitersWereRequested(s: Service)
    requires Sound(s)
    ensures forall w :: w in s.waiters ==> w <= s.requested
  {
    assert forall k :: 0 <= k < |s.waiters| ==> s.waiters[k] <= s.requested;
  }

  lemma RequestKeeps(s: Service, reason: string)
    requires Inv(s) && !s.disposed
    ensures Inv(Request(s, reason))
  {
    hide Books, Numbered, Continue;
    AskKeepsSound(s, reason);
    var asked := s.(requested := s.requested + 1,
                    pendingReasons := s.pendingReasons + {reason},
                    waiters := s.waiters + [s.requested + 1],
                    history := s.history + [Requested(s.requested + 1)]);
    hide Sound, Inv;
    AskedKeeps(s, asked);
  }

  /** With more requests waiting the invariant holds as before, or a loop has to be started. */
  lemma AskedKeeps(s: Service, asked: Service)
    requires Inv(s) && Grows(s, asked) && asked.disposed == s.disposed
    ensures if s.loop.Idle? then Inv(Continue(asked, {})) else Inv(asked)
  {
    assert s.completed <= s.requested;
    hide Sound, Continue;
    if s.loop.Idle? {
      ContinueKeeps(asked, {});
    }
  }

  lemma NextKeeps(s: Service, step: Step)
    requires Inv(s) && CanStep(s, step)
    ensures Inv(Next(s, step))
  {
    match step
    case RequestStep(reason) => RequestKeeps(s, reason);
    case ResumeStep(result, onChange, onError) => ResumeKeeps(s, result, onChange, onError);
    case FinishStep => FinishKeeps(s);
    case DisposeStep =>
      hide Sound;
      DisposeKeepsSound(s);
  }

  lemma {:induction false} ExecuteKeeps(s: Service, steps: seq<Step>)
    requires Inv(s) && Execute(s, steps).Some?
    ensures Inv(Execute(s, steps).value)
    decreases |steps|
  {
    if steps != [] {
      NextKeeps(s, steps[0]);
      ExecuteKeeps(Next(s, steps[0]), steps[1..]);
    }
  }

  ghost predicate Reachable(s: Service) {
    exists steps :: Execute(FRESH, steps) == Some(s)
  }

  lemma ReachableInv(s: Service)
    requires Reachable(s)
    ensures Inv(s)
  {
    var steps :| Execute(FRESH, steps) == Some(s);
    assert SettledOf(FRESH.history) == [] && UpTo(0) == [];
    ExecuteKeeps(FRESH, steps);
  }

  // ---------------------------------------------------------------------------------------------
  // The theorems, over every reachable state
  // ---------------------------------------------------------------------------------------------

  /** Every request is pending or settled, and never settled twice. */
  lemma EachRequestSettledOnce(s: Service, g: nat)
    requires Reachable(s) && 1 <= g <= s.requested
    ensures multiset(SettledOf(s.history))[g] + multiset(s.waiters)[g] == 1
  {
    ReachableInv(s);
    SettledOnce(s.requested, s.waiters, s.history, g);
  }

  /** A round only answers requests made before its reads began, and resolves with the latest publication. */
  lemma AnswersAreFresh(s: Service, k: nat)
    requires Reachable(s) && k < |s.history| && s.history[k].Settled?
    requires s.history[k].verdict.Resolved? || s.history[k].verdict.Rejected?
    ensures exists i, j :: 0 <= i < j < k && s.history[i] == Requested(s.history[k].generation) && s.history[j] == ReadsBegan(s.history[k].round)
    ensures forall i, j | 0 <= i < |s.history| && 0 <= j < |s.history| ::
              s.history[i] == Requested(s.history[k].generation) && s.history[j] == ReadsBegan(s.history[k].round) ==> i < j
    ensures s.history[k].verdict.Resolved? ==> Latest(PublishedOf(s.history[..k])) == Some(s.history[k].verdict.snapshot)
  {
    ReachableInv(s);
    AnswerReadsAfterRequest(s.requested, s.waiters, s.snapshot, s.history, k);
  }

  /** Publications pair both sources and are numbered 1, 2, 3, ... */
  lemma PublicationsArePairedAndNumbered(s: Service)
    requires Reachable(s)
    ensures |PublishedOf(s.history)| == s.registryRevision
    ensures forall k :: 0 <= k < s.registryRevision ==>
              Paired(PublishedOf(s.history)[k]) && PublishedOf(s.history)[k].registryRevision == k + 1
    ensures s.snapshot == Latest(PublishedOf(s.history))
  {
    ReachableInv(s);
  }

  /**
   * No wake-up is lost. A waiter its service still owes a round has a loop reading, or one that has
   * ended and whose handler starts the round for it. A round too old for it is followed by one that
   * is not, whatever the reads return.
   */
  lemma NoLostWakeUp(s: Service, w: nat)
    requires Reachable(s) && w in s.waiters && s.completed < w
    ensures !s.disposed && !s.loop.Idle?
    ensures s.loop.Returned? ==> Finish(s).loop.Reading? && w <= Finish(s).loop.generation
    ensures s.loop.Reading? && s.loop.generation < w ==>
              forall result, onChange, onError ::
                var next := Resume(s, result, onChange, onError);
                next.loop.Reading? && w <= next.loop.generation && w in next.waiters
  {
    ReachableInv(s);
    assert w <= s.requested;
  }

  /** A waiter whose round is over without an answer is one of the revision mismatch before any snapshot. */
  lemma OnlyTheFirstMismatchStrands(s: Service, w: nat)
    requires Reachable(s) && w in s.waiters && w <= s.completed && !s.loop.Threw?
    ensures s.snapshot.None?
  {
    ReachableInv(s);
  }

  /** The last round of a burst answers everybody, except in a revision mismatch with no snapshot to give. */
  lemma LastRoundAnswersExactlyWhen(s: Service, result: ReadResult, onChange: Listeners, onError: Listeners)
    requires Reachable(s) && s.loop.Reading? && s.loop.generation == s.requested && !s.disposed && !onError.throws
    ensures var next := Resume(s, result, onChange, onError);
            var stranded := result.ReadOk? && result.account.basedOnBuiltinRevision != result.config.builtinRevision && s.snapshot.None?;
            && (stranded ==> next.waiters == s.waiters)
            && (!stranded ==> forall w :: w in next.waiters ==> s.requested < w)
  {
    ReachableInv(s);
    hide Reachable, Books, Numbered, Publish, Settle, Fail, Continue;
    FailAnswers(s, s.requested, s.loop.reasons, onError);
    if result.ReadOk? {
      ContinueWaiters(s.(completed := s.requested));
      if s.snapshot.Some? {
        OldSnapshotAnswers(s);
      }
      if result.account.basedOnBuiltinRevision == result.config.builtinRevision {
        PublishAnswers(s, s.requested, s.loop.reasons, result.config, result.account, onChange, onError);
      }
    }
  }

  lemma OldSnapshotAnswers(s: Service)
    requires Sound(s) && s.snapshot.Some? && ReadsBegan(s.requested) in s.history
    ensures var settled := Settle(s.(completed := s.requested), s.requested, s.requested, Resolved(s.snapshot.value));
            forall w :: w in Continue(settled, {}).waiters ==> s.requested < w
  {
    hide Books, Numbered, Settle, Continue;
    var done := s.(completed := s.requested);
    SettleKeepsSound(done, s.requested, s.requested, Resolved(s.snapshot.value));
    ContinueWaiters(Settle(done, s.requested, s.requested, Resolved(s.snapshot.value)));
  }

  lemma ContinueWaiters(s: Service)
    ensures Continue(s, {}).waiters == s.waiters
  {
  }

  lemma PublishAnswers(s: Service, generation: nat, reasons: set<string>, config: Config, account: Account,
                       onChange: Listeners, onError: Listeners)
    requires Sound(s) && s.loop.Reading? && ReadsBegan(generation) in s.history && generation == s.requested && !onError.throws
    requires account.basedOnBuiltinRevision == config.builtinRevision
    ensures forall w :: w in Publish(s, generation, reasons, config, account, onChange, onError).waiters ==> generation < w
  {
    var snapshot := Snapshot(config, account, s.registryRevision + 1);
    var published := s.(registryRevision := s.registryRevision + 1, snapshot := Some(snapshot), completed := generation,
                        history := s.history + [Published(snapshot, reasons)]);
    PublishKeepsSound(s, generation, reasons, snapshot);
    hide Sound, Emit, Settle, Fail, Continue, Taken, Kept;
    SettleKeepsSound(published, generation, generation, Resolved(snapshot));
    var settled := Settle(published, generation, generation, Resolved(snapshot));
    EmitKeepsSound(settled, onChange);
    ContinueWaiters(Emit(settled, onChange));
    FailAnswers(Emit(settled, onChange), generation, reasons, onError);
  }

  lemma FailAnswers(s: Service, generation: nat, reasons: set<string>, onError: Listeners)
    requires Sound(s) && s.loop.Reading? && ReadsBegan(generation) in s.history && generation <= s.requested && !onError.throws
    ensures forall w :: w in Fail(s, generation, reasons, onError).waiters ==> generation < w && (w in s.waiters || s.requested < w)
  {
    hide Books, Numbered, Emit, Settle;
    FailKeepsBooks(s.requested, s.waiters, s.snapshot, s.history, generation, reasons);
    var failed := s.(completed := generation, history := s.history + [Failed(generation, reasons)]);
    EmitKeepsSound(failed, onError);
    SettleKeepsSound(Emit(failed, onError), generation, generation, Rejected);
  }

  // What a round publishes and answers

  /** Every waiter up to the generation got the verdict of that round. */
  ghost predicate Answered(s: Service, next: Service, generation: nat, verdict: Verdict<Snapshot>) {
    forall w :: w in s.waiters && w <= generation ==> Settled(w, generation, verdict) in next.history && w !in next.waiters
  }

  lemma SettleAnswers(s: Service, generation: nat, verdict: Verdict<Snapshot>)
    ensures Answered(s, Settle(s, generation, generation, verdict), generation, verdict)
  {
    hide Taken, Kept;
    SplitWaiters(s.waiters, generation);
    var taken := Taken(s.waiters, generation);
    forall w | w in s.waiters && w <= generation
      ensures Settled(w, generation, verdict) in Settle(s, generation, generation, verdict).history
    {
      var k :| 0 <= k < |taken| && taken[k] == w;
      var events: seq<Event<Snapshot>> := Settlement(taken, generation, verdict);
      assert events[k] == Settled(w, generation, verdict);
    }
  }

  /** Later events and newer waiters change no answer. */
  lemma AnsweredLater(s: Service, next: Service, generation: nat, verdict: Verdict<Snapshot>, later: Service)
    requires Answered(s, next, generation, verdict)
    requires forall e :: e in next.history ==> e in later.history
    requires forall w :: w in later.waiters ==> w in next.waiters || generation < w
    ensures Answered(s, later, generation, verdict)
  {
  }

  /** What stays as it is when the round only goes on or ends. */
  ghost predicate Goes(s: Service, next: Service) {
    && next.snapshot == s.snapshot && next.registryRevision == s.registryRevision
    && (forall e :: e in s.history ==> e in next.history)
  }

  lemma FailGoes(s: Service, generation: nat, reasons: set<string>, onError: Listeners)
    requires Sound(s) && s.loop.Reading? && generation <= s.requested
    ensures var next := Fail(s, generation, reasons, onError);
            && Goes(s, next) && Failed(generation, reasons) in next.history
            && forall w :: w in next.waiters ==> w in s.waiters || s.requested < w
    ensures !onError.throws && DisposeService !in onError.calls && !s.disposed ==>
              Answered(s, Fail(s, generation, reasons, onError), generation, Rejected)
  {
    hide Books, Numbered, Emit, Settle;
    FailKeepsBooks(s.requested, s.waiters, s.snapshot, s.history, generation, reasons);
    var failed := s.(completed := generation, history := s.history + [Failed(generation, reasons)]);
    EmitKeepsSound(failed, onError);
    var told := Emit(failed, onError);
    SettleFrame(told, generation, Rejected);
    SettleAnswers(told, generation, Rejected);
    if DisposeService !in onError.calls && !s.disposed {
      forall w | w in s.waiters
        ensures w in told.waiters
      {
        WaitersOutlive(failed, onError.calls, w);
        ToldMakes(failed, onError);
      }
    }
  }

  lemma ToldMakes(s: Service, listeners: Listeners)
    requires !s.disposed
    ensures Emit(s, listeners) == Make(s, listeners.calls)
  {
  }

  lemma SettleFrame(s: Service, generation: nat, verdict: Verdict<Snapshot>)
    ensures var next := Settle(s, generation, generation, verdict);
            && next == s.(waiters := next.waiters, history := next.history)
            && (forall w :: w in next.waiters ==> w in s.waiters) && forall e :: e in s.history ==> e in next.history
  {
    SplitWaiters(s.waiters, generation);
    hide Kept, Taken;
  }

  /** Waiters outlive the calls of listeners that do not dispose the service. */
  lemma {:induction false} WaitersOutlive(s: Service, calls: seq<Call>, w: nat)
    requires w in s.waiters && !s.disposed && !s.loop.Idle? && DisposeService !in calls
    ensures w in Make(s, calls).waiters
    decreases |calls|
  {
    if calls != [] {
      assert calls == [calls[0]] + calls[1..];
      WaitersOutlive(Request(s, calls[0].reason), calls[1..], w);
    }
  }

  lemma ContinueGoes(s: Service)
    ensures Goes(s, Continue(s, {})) && Continue(s, {}).waiters == s.waiters
  {
  }

  /** Whether a publication is needed: there is none, or one of the two sources has another revision than it. */
  predicate Differs(snapshot: Option<Snapshot>, config: Config, account: Account) {
    snapshot.None? || snapshot.value.config.revision != config.revision || snapshot.value.account.revision != account.revision
  }

  /** The round's snapshot stands, and its waiters have it. */
  ghost predicate Stands(s: Service, next: Service, generation: nat, reasons: set<string>, snapshot: Snapshot) {
    && next.registryRevision == snapshot.registryRevision && next.snapshot == Some(snapshot)
    && Answered(s, next, generation, Resolved(snapshot)) && Published(snapshot, reasons) in next.history
  }

  lemma SettledStands(s: Service, generation: nat, reasons: set<string>, config: Config, account: Account)
    requires Sound(s) && s.loop.Reading? && ReadsBegan(generation) in s.history && generation == s.requested
    requires account.basedOnBuiltinRevision == config.builtinRevision
    ensures var settled := Publication(s, generation, reasons, config, account);
            && Stands(s, settled, generation, reasons, Snapshot(config, account, s.registryRevision + 1))
            && Sound(settled) && settled.loop == s.loop && settled.requested == s.requested
  {
    var snapshot := Snapshot(config, account, s.registryRevision + 1);
    var published := s.(registryRevision := s.registryRevision + 1, snapshot := Some(snapshot), completed := generation,
                        history := s.history + [Published(snapshot, reasons)]);
    PublishKeepsSound(s, generation, reasons, snapshot);
    hide Sound, Settle, Answered;
    SettleKeepsSound(published, generation, generation, Resolved(snapshot));
    SettleAnswers(published, generation, Resolved(snapshot));
    SettleFrame(published, generation, Resolved(snapshot));
    PublishedAnswers(s, published, generation, Resolved(snapshot));
  }

  /** Whatever follows keeps the snapshot, the events and only newer waiters. */
  lemma StandsLater(s: Service, next: Service, generation: nat, reasons: set<string>, snapshot: Snapshot, later: Service)
    requires Stands(s, next, generation, reasons, snapshot) && Goes(next, later)
    requires forall w :: w in later.waiters ==> w in next.waiters || generation < w
    ensures Stands(s, later, generation, reasons, snapshot)
  {
    hide Answered;
    AnsweredLater(s, next, generation, Resolved(snapshot), later);
  }

  lemma ToldGoes(s: Service, listeners: Listeners)
    requires Sound(s) && s.loop.Reading?
    ensures var told := Emit(s, listeners);
            && Sound(told) && told.loop == s.loop && s.requested <= told.requested && Goes(s, told)
            && forall w :: w in told.waiters ==> w in s.waiters || s.requested < w
  {
    hide Sound, Emit;
    EmitKeepsSound(s, listeners);
  }

  lemma PublishGoes(s: Service, generation: nat, reasons: set<string>, config: Config, account: Account,
                    onChange: Listeners, onError: Listeners)
    requires Sound(s) && s.loop.Reading? && ReadsBegan(generation) in s.history && generation == s.requested
    requires account.basedOnBuiltinRevision == config.builtinRevision
    ensures var snapshot := Snapshot(config, account, s.registryRevision + 1);
            Stands(s, Publish(s, generation, reasons, config, account, onChange, onError), generation, reasons, snapshot)
  {
    var snapshot := Snapshot(config, account, s.registryRevision + 1);
    var settled := Publication(s, generation, reasons, config, account);
    var told := Emit(settled, onChange);
    var next := Publish(s, generation, reasons, config, account, onChange, onError);
    assert next == if onChange.throws then Fail(told, generation, reasons, onError) else Continue(told, {});
    hide *;
    SettledStands(s, generation, reasons, config, account);
    ToldGoes(settled, onChange);
    StandsLater(s, settled, generation, reasons, snapshot, told);
    ContinueGoes(told);
    FailGoes(told, generation, reasons, onError);
    StandsLater(s, told, generation, reasons, snapshot, next);
  }

  lemma PublishedAnswers(s: Service, published: Service, generation: nat, verdict: Verdict<Snapshot>)
    requires published.waiters == s.waiters
    requires Answered(published, Settle(published, generation, generation, verdict), generation, verdict)
    ensures Answered(s, Settle(published, generation, generation, verdict), generation, verdict)
  {
  }

  /**
   * A round no request has overtaken, whose two reads belong together: afterwards the snapshot carries the revisions
   * read and every waiter got it. It is published, under the next registry revision, exactly when there was none or
   * one of its revisions was another. Whatever the listeners do.
   */
  lemma CurrentRoundPublishes(s: Service, config: Config, account: Account, onChange: Listeners, onError: Listeners)
    requires Reachable(s) && !s.disposed && s.loop.Reading? && s.loop.generation == s.requested
    requires account.basedOnBuiltinRevision == config.builtinRevision
    ensures var next := Resume(s, ReadOk(config, account, true), onChange, onError);
            && next.snapshot.Some?
            && next.snapshot.value.config.revision == config.revision
            && next.snapshot.value.account.revision == account.revision
            && Answered(s, next, s.requested, Resolved(next.snapshot.value))
            && next.registryRevision == s.registryRevision + (if Differs(s.snapshot, config, account) then 1 else 0)
            && (if Differs(s.snapshot, config, account)
                then next.snapshot.value == Snapshot(config, account, s.registryRevision + 1)
                     && Published(next.snapshot.value, s.loop.reasons) in next.history
                else next.snapshot == s.snapshot)
  {
    ReachableInv(s);
    if Differs(s.snapshot, config, account) {
      PublishGoes(s, s.requested, s.loop.reasons, config, account, onChange, onError);
      hide Publish, Answered, Reachable, Inv, Sound;
    } else {
      KeptAnswers(s);
      hide Settle, Continue, Answered, Reachable, Inv;
    }
  }

  /** Answering with the snapshot that stays. */
  lemma KeptAnswers(s: Service)
    requires s.snapshot.Some?
    ensures var verdict := Resolved(s.snapshot.value);
            var next := Continue(Settle(s.(completed := s.requested), s.requested, s.requested, verdict), {});
            Goes(s, next) && Answered(s, next, s.requested, verdict)
  {
    var done := s.(completed := s.requested);
    var verdict := Resolved(s.snapshot.value);
    SettleFrame(done, s.requested, verdict);
    SettleAnswers(done, s.requested, verdict);
    hide Settle, Continue, Answered;
    var settled := Settle(done, s.requested, s.requested, verdict);
    ContinueGoes(settled);
    PublishedAnswersDone(s, settled, verdict);
    AnsweredLater(s, settled, s.requested, verdict, Continue(settled, {}));
  }

  lemma PublishedAnswersDone(s: Service, settled: Service, verdict: Verdict<Snapshot>)
    requires Answered(s.(completed := s.requested), settled, s.requested, verdict)
    ensures Answered(s, settled, s.requested, verdict)
  {
  }

  /** Reads that do not belong together publish nothing; the waiters get the snapshot there is. */
  lemma MismatchedRoundKeeps(s: Service, config: Config, account: Account, resolves: bool, onChange: Listeners, onError: Listeners)
    requires Reachable(s) && !s.disposed && s.loop.Reading? && s.loop.generation == s.requested
    requires account.basedOnBuiltinRevision != config.builtinRevision
    ensures var next := Resume(s, ReadOk(config, account, resolves), onChange, onError);
            && next.snapshot == s.snapshot && next.registryRevision == s.registryRevision
            && (s.snapshot.Some? ==> Answered(s, next, s.requested, Resolved(s.snapshot.value)))
            && (s.snapshot.None? ==> next.waiters == s.waiters)
  {
    if s.snapshot.Some? {
      KeptAnswers(s);
    } else {
      ContinueGoes(s.(completed := s.requested));
    }
    hide Settle, Continue, Answered, Reachable;
  }

  /** A failing round, by its reads or the resolver, publishes nothing; its waiters are rejected if listeners let them. */
  lemma FailingRoundKeeps(s: Service, result: ReadResult, onChange: Listeners, onError: Listeners)
    requires Reachable(s) && !s.disposed && s.loop.Reading? && s.loop.generation == s.requested
    requires result.ReadOk? ==>
               && result.account.basedOnBuiltinRevision == result.config.builtinRevision && !result.resolves
               && Differs(s.snapshot, result.config, result.account)
    ensures var next := Resume(s, result, onChange, onError);
            && next.snapshot == s.snapshot && next.registryRevision == s.registryRevision
            && Failed(s.requested, s.loop.reasons) in next.history
            && (!onError.throws && DisposeService !in onError.calls ==> Answered(s, next, s.requested, Rejected))
  {
    ReachableInv(s);
    FailGoes(s, s.requested, s.loop.reasons, onError);
    hide Fail, Answered, Reachable, Inv;
  }

  /** A round that a request overtook is thrown away, however its reads ended, and the next one covers every request. */
  lemma OvertakenRoundIsDropped(s: Service, result: ReadResult, onChange: Listeners, onError: Listeners)
    requires Reachable(s) && s.loop.Reading? && s.loop.generation < s.requested
    ensures Resume(s, result, onChange, onError)
         == s.(pendingReasons := {}, loop := Reading(s.requested, s.loop.reasons + s.pendingReasons),
               history := s.history + [ReadsBegan(s.requested)])
  {
    ReachableInv(s);
  }

  // Who is told

  lemma {:induction false} MakeAsks(s: Service, calls: seq<Call>)
    requires !s.disposed && DisposeService !in calls
    ensures Make(s, calls).requested == s.requested + |calls| && !Make(s, calls).disposed
    decreases |calls|
  {
    if calls != [] {
      assert calls == [calls[0]] + calls[1..];
      MakeAsks(Request(s, calls[0].reason), calls[1..]);
    }
  }

  lemma EmitAsks(s: Service, listeners: Listeners)
    requires !s.disposed && DisposeService !in listeners.calls
    ensures Emit(s, listeners).requested == s.requested + |listeners.calls| && !Emit(s, listeners).disposed
  {
    hide Make;
    MakeAsks(s, listeners.calls);
  }

  lemma FailAsks(s: Service, generation: nat, reasons: set<string>, onError: Listeners)
    requires !s.disposed && DisposeService !in onError.calls
    ensures Fail(s, generation, reasons, onError).requested == s.requested + |onError.calls|
  {
    hide Emit, Taken, Kept, Settlement;
    EmitAsks(s.(completed := generation, history := s.history + [Failed(generation, reasons)]), onError);
  }

  /**
   * Change listeners are told of every publication and of nothing else, error listeners of every failing round: what
   * they ask for, and nothing else, is requested during the round.
   */
  lemma ListenersAreTold(s: Service, result: ReadResult, onChange: Listeners, onError: Listeners)
    requires s.loop.Reading? && s.loop.generation == s.requested && !s.disposed
    requires DisposeService !in onChange.calls && DisposeService !in onError.calls
    ensures var publishes := result.ReadOk? && result.account.basedOnBuiltinRevision == result.config.builtinRevision
                             && Differs(s.snapshot, result.config, result.account) && result.resolves;
            Resume(s, result, onChange, onError).requested
            == s.requested + (if publishes then |onChange.calls| else 0) + (if RoundFails(s, result, onChange) then |onError.calls| else 0)
  {
    var generation, reasons := s.loop.generation, s.loop.reasons;
    FailAsks(s, generation, reasons, onError);
    if result.ReadOk? {
      hide Emit, Fail, Taken, Kept, Settlement;
      var settled := Publication(s, generation, reasons, result.config, result.account);
      EmitAsks(settled, onChange);
      FailAsks(Emit(settled, onChange), generation, reasons, onError);
    }
  }

  /** A disposed service publishes nothing, tells nobody and starts no loop, however its last rounds end. */
  lemma DisposedServiceIsSilent(s: Service, step: Step)
    requires Reachable(s) && s.disposed && CanStep(s, step)
    ensures var next := Next(s, step);
            && next.disposed && next.snapshot == s.snapshot && next.registryRevision == s.registryRevision
            && next.requested == s.requested && next.waiters == []
            && (step.FinishStep? ==> next.loop.Idle?)
            && (step.ResumeStep? && s.loop.generation == s.requested ==> next.loop.Returned? || next.loop.Threw?)
  {
    ReachableInv(s);
    assert Taken([], s.requested) == [] && Kept([], s.requested) == [];
    hide Books, Numbered, Publish, Make, Reachable;
  }

  // Reasons

  /** A reason that waits has a request behind it that no round covers yet. */
  ghost predicate ReasonsWait(s: Service) {
    s.pendingReasons != {} ==> s.completed < s.requested && (s.loop.Reading? ==> s.loop.generation < s.requested)
  }

  lemma {:induction false} MakeReasonsWait(s: Service, calls: seq<Call>)
    requires ReasonsWait(s) && !s.loop.Idle? && s.completed <= s.requested && (s.loop.Reading? ==> s.loop.generation <= s.requested)
    ensures ReasonsWait(Make(s, calls)) && Make(s, calls).loop == s.loop && s.requested <= Make(s, calls).requested
    ensures Make(s, calls).completed == s.completed
    decreases |calls|
  {
    if calls != [] {
      MakeReasonsWait(if calls[0].DisposeService? then Dispose(s) else if s.disposed then s else Request(s, calls[0].reason), calls[1..]);
    }
  }

  lemma FailReasonsWait(s: Service, generation: nat, reasons: set<string>, onError: Listeners)
    requires s.loop.Reading? && s.loop.generation == generation <= s.requested
    requires s.pendingReasons != {} ==> generation < s.requested
    ensures ReasonsWait(Fail(s, generation, reasons, onError))
  {
    MakeReasonsWait(s.(completed := generation, history := s.history + [Failed(generation, reasons)]), onError.calls);
    hide Make, Taken, Kept, Settlement;
  }

  lemma PublishReasonsWait(s: Service, generation: nat, reasons: set<string>, config: Config, account: Account,
                           onChange: Listeners, onError: Listeners)
    requires s.loop.Reading? && s.loop.generation == generation == s.requested && s.pendingReasons == {}
    ensures ReasonsWait(Publish(s, generation, reasons, config, account, onChange, onError))
  {
    hide Make, Taken, Kept, Settlement, Fail;
    var settled := Publication(s, generation, reasons, config, account);
    MakeReasonsWait(settled, onChange.calls);
    FailReasonsWait(Emit(settled, onChange), generation, reasons, onError);
  }

  lemma ResumeReasonsWait(s: Service, result: ReadResult, onChange: Listeners, onError: Listeners)
    requires Inv(s) && ReasonsWait(s) && s.loop.Reading?
    ensures ReasonsWait(Resume(s, result, onChange, onError))
  {
    hide Sound, Fail, Publish, Taken, Kept, Settlement;
    if s.loop.generation == s.requested {
      FailReasonsWait(s, s.loop.generation, s.loop.reasons, onError);
      if result.ReadOk? {
        PublishReasonsWait(s, s.loop.generation, s.loop.reasons, result.config, result.account, onChange, onError);
      }
    }
  }

  lemma NextReasonsWait(s: Service, step: Step)
    requires Inv(s) && ReasonsWait(s) && CanStep(s, step)
    ensures ReasonsWait(Next(s, step))
  {
    hide Books, Numbered, Resume, Taken, Kept, Settlement;
    if step.ResumeStep? {
      ResumeReasonsWait(s, step.result, step.onChange, step.onError);
    }
  }

  lemma {:induction false} ExecuteReasonsWait(s: Service, steps: seq<Step>)
    requires Inv(s) && ReasonsWait(s) && Execute(s, steps).Some?
    ensures ReasonsWait(Execute(s, steps).value)
    decreases |steps|
  {
    hide Inv, ReasonsWait, Next;
    if steps != [] {
      NextKeeps(s, steps[0]);
      NextReasonsWait(s, steps[0]);
      ExecuteReasonsWait(Next(s, steps[0]), steps[1..]);
    }
  }

  /** The reason is kept for a round to come, or the running round has it. */
  predicate Carries(s: Service, reason: string) {
    reason in s.pendingReasons || (s.loop.Reading? && reason in s.loop.reasons)
  }

  /**
   * No reason is lost: the one a request gives is kept, and what is kept stays until a round that no request has
   * overtaken ends with it among its reasons. Those are the reasons such a round reports.
   */
  lemma ReasonsReachTheirRound(s: Service, step: Step, reason: string)
    requires Reachable(s) && CanStep(s, step)
    ensures step == RequestStep(reason) ==> Carries(Next(s, step), reason)
    ensures Carries(s, reason) ==>
              || Carries(Next(s, step), reason)
              || (step.ResumeStep? && s.loop.generation == s.requested && reason in s.loop.reasons)
  {
    ReachableInv(s);
    var steps :| Execute(FRESH, steps) == Some(s);
    ReachableInv(FRESH) by {
      assert Execute(FRESH, []) == Some(FRESH);
    }
    ExecuteReasonsWait(FRESH, steps);
    hide Reachable, Execute, Sound, Next;
    if step.RequestStep? {
      RequestKeepsReasons(s, step.reason, reason);
    } else {
      OthersKeepReasons(s, step, reason);
    }
  }

  lemma RequestKeepsReasons(s: Service, asked: string, reason: string)
    requires !s.disposed && s.completed <= s.requested
    ensures Carries(Next(s, RequestStep(asked)), asked)
    ensures Carries(s, reason) ==> Carries(Next(s, RequestStep(asked)), reason)
  {
  }

  lemma OthersKeepReasons(s: Service, step: Step, reason: string)
    requires Inv(s) && ReasonsWait(s) && CanStep(s, step) && !step.RequestStep?
    ensures Carries(s, reason) ==>
              || Carries(Next(s, step), reason)
              || (step.ResumeStep? && s.loop.generation == s.requested && reason in s.loop.reasons)
  {
    hide Sound, Fail, Publish, Taken, Kept, Settlement;
  }

  // A throwing error listener

  ghost predicate ErrorListenersReturn(steps: seq<Step>) {
    forall k :: 0 <= k < |steps| && steps[k].ResumeStep? ==> !steps[k].onError.throws
  }

  /** No request was rejected by the handler of a loop that threw. */
  ghost predicate NoneCrashed(history: seq<Event<Snapshot>>) {
    forall e :: e in history && e.Settled? ==> !e.verdict.Crashed?
  }

  ghost predicate Quiet(s: Service) {
    NoneCrashed(s.history) && (s.loop.Threw? ==> s.disposed)
  }

  lemma {:induction false} MakeCrashesNone(s: Service, calls: seq<Call>)
    requires NoneCrashed(s.history)
    ensures NoneCrashed(Make(s, calls).history)
    decreases |calls|
  {
    if calls != [] {
      var next := if calls[0].DisposeService? then Dispose(s) else if s.disposed then s else Request(s, calls[0].reason);
      assert NoneCrashed(next.history);
      MakeCrashesNone(next, calls[1..]);
    }
  }

  lemma FailCrashesNone(s: Service, generation: nat, reasons: set<string>, onError: Listeners)
    requires NoneCrashed(s.history) && !onError.throws
    ensures NoneCrashed(Fail(s, generation, reasons, onError).history) && Fail(s, generation, reasons, onError).loop.Returned?
  {
    MakeCrashesNone(s.(completed := generation, history := s.history + [Failed(generation, reasons)]), onError.calls);
    hide Make, Taken, Kept;
  }

  lemma PublishCrashesNone(s: Service, generation: nat, reasons: set<string>, config: Config, account: Account,
                           onChange: Listeners, onError: Listeners)
    requires NoneCrashed(s.history) && !onError.throws && s.loop.Reading?
    ensures NoneCrashed(Publish(s, generation, reasons, config, account, onChange, onError).history)
    ensures !Publish(s, generation, reasons, config, account, onChange, onError).loop.Threw?
  {
    hide Make, Taken, Kept, Fail;
    var snapshot := Snapshot(config, account, s.registryRevision + 1);
    var published := s.(registryRevision := s.registryRevision + 1, snapshot := Some(snapshot), completed := generation,
                        history := s.history + [Published(snapshot, reasons)]);
    var settled := Settle(published, generation, generation, Resolved(snapshot));
    assert NoneCrashed(settled.history);
    MakeCrashesNone(settled, onChange.calls);
    FailCrashesNone(Emit(settled, onChange), generation, reasons, onError);
  }

  lemma NextCrashesNone(s: Service, step: Step)
    requires Inv(s) && Quiet(s) && CanStep(s, step) && (step.ResumeStep? ==> !step.onError.throws)
    ensures Quiet(Next(s, step))
  {
    hide Books, Numbered, Make, Fail, Publish;
    if step.ResumeStep? {
      FailCrashesNone(s, s.loop.generation, s.loop.reasons, step.onError);
      if step.result.ReadOk? {
        PublishCrashesNone(s, s.loop.generation, s.loop.reasons, step.result.config, step.result.account, step.onChange, step.onError);
      }
    }
  }

  /**
   * While error listeners return normally, no request is ever rejected by an error that is not the
   * failure of a round begun after it.
   */
  lemma {:induction false} RejectionsAreFreshUnlessAnErrorListenerThrows(s: Service, steps: seq<Step>)
    requires Inv(s) && Quiet(s) && Execute(s, steps).Some? && ErrorListenersReturn(steps)
    ensures Quiet(Execute(s, steps).value)
    decreases |steps|
  {
    if steps != [] {
      NextKeeps(s, steps[0]);
      NextCrashesNone(s, steps[0]);
      RejectionsAreFreshUnlessAnErrorListenerThrows(Next(s, steps[0]), steps[1..]);
    }
  }

  /** The reads fail, or they are current and new and the resolver or, once published, a change listener throws. */
  predicate RoundFails(s: Service, result: ReadResult, onChange: Listeners) {
    match result
    case ReadFailed => true
    case ReadOk(config, account, resolves) =>
      account.basedOnBuiltinRevision == config.builtinRevision && Differs(s.snapshot, config, account) && (!resolves || onChange.throws)
  }

  predicate OnlyRequests(steps: seq<Step>) {
    forall k :: 0 <= k < |steps| ==> steps[k].RequestStep?
  }

  /** Requests made after the loop ended and before its handler runs only wait. */
  lemma {:induction false} RequestsWait(s: Service, steps: seq<Step>)
    requires OnlyRequests(steps) && !s.loop.Idle? && Execute(s, steps).Some?
    ensures var t := Execute(s, steps).value;
            t.loop == s.loop && s.requested <= t.requested && t.disposed == s.disposed
    decreases |steps|
  {
    if steps != [] {
      RequestsWait(Next(s, steps[0]), steps[1..]);
    }
  }

  /** However a round fails, the loop ends; it throws exactly when an error listener does that is still listening. */
  lemma FailingRoundEnds(s: Service, result: ReadResult, onChange: Listeners, onError: Listeners)
    requires s.loop.Reading? && s.loop.generation == s.requested && !s.disposed && RoundFails(s, result, onChange)
    ensures var next := Resume(s, result, onChange, onError);
            && (next.loop.Returned? || next.loop.Threw?)
            && (next.loop.Threw? ==> onError.throws) && (onError.throws && !next.disposed ==> next.loop.Threw?)
  {
    hide Make, Taken, Kept;
    var generation, reasons := s.loop.generation, s.loop.reasons;
    FailEnds(s, generation, reasons, onError);
    if result.ReadOk? {
      var snapshot := Snapshot(result.config, result.account, s.registryRevision + 1);
      var published := s.(registryRevision := s.registryRevision + 1, snapshot := Some(snapshot), completed := generation,
                          history := s.history + [Published(snapshot, reasons)]);
      FailEnds(Emit(Settle(published, generation, generation, Resolved(snapshot)), onChange), generation, reasons, onError);
    }
    hide Fail, Emit, Settle;
  }

  lemma FailEnds(s: Service, generation: nat, reasons: set<string>, onError: Listeners)
    ensures var next := Fail(s, generation, reasons, onError);
            && (next.loop.Returned? || next.loop.Threw?)
            && (next.loop.Threw? ==> onError.throws) && (onError.throws && !next.disposed ==> next.loop.Threw?)
  {
    var failed := s.(completed := generation, history := s.history + [Failed(generation, reasons)]);
    MakeStaysDisposed(failed, onError.calls);
    hide Make, Taken, Kept;
  }

  lemma {:induction false} MakeStaysDisposed(s: Service, calls: seq<Call>)
    ensures s.disposed ==> Make(s, calls).disposed
    decreases |calls|
  {
    if calls != [] {
      MakeStaysDisposed(if calls[0].DisposeService? then Dispose(s) else if s.disposed then s else Request(s, calls[0].reason), calls[1..]);
    }
  }

  /**
   * The exact condition: a request made while a failing round is reported, or after its loop ended and before the
   * handler runs, is rejected with that round's error, before any round reads for it, exactly when an error listener
   * throws. The round may fail by its reads, by the resolver or by a change listener.
   */
  lemma NewerRequestCrashesExactlyWhen(s: Service, result: ReadResult, onChange: Listeners, onError: Listeners, more: seq<Step>, w: nat)
    requires Reachable(s) && s.loop.Reading? && s.loop.generation == s.requested && !s.disposed && s.requested < w
    requires RoundFails(s, result, onChange) && OnlyRequests(more)
    requires Execute(Resume(s, result, onChange, onError), more).Some?
    requires w in Execute(Resume(s, result, onChange, onError), more).value.waiters
    ensures var next := Execute(Resume(s, result, onChange, onError), more).value;
            && (next.loop.Returned? || next.loop.Threw?)
            && (w in Finish(next).waiters <==> !onError.throws)
            && (onError.throws ==> Settled(w, next.requested, Crashed) in Finish(next).history)
  {
    ReachableInv(s);
    ResumeKeeps(s, result, onChange, onError);
    FailingRoundEnds(s, result, onChange, onError);
    var ended := Resume(s, result, onChange, onError);
    RequestsWait(ended, more);
    ExecuteKeeps(ended, more);
    var next := Execute(ended, more).value;
    SoundParts(next);
    hide Reachable, Sound, Inv, Emit, Settle, Finish, Resume, Execute;
    WaitersWereRequested(next);
    FinishRejectsExactlyWhen(next, w);
  }

  lemma SoundParts(s: Service)
    requires Inv(s)
    ensures Sound(s) && (s.waiters != [] ==> !s.disposed)
  {
  }

  lemma FinishRejectsExactlyWhen(s: Service, w: nat)
    requires (s.loop.Returned? || s.loop.Threw?) && w in s.waiters && w <= s.requested
    ensures w in Finish(s).waiters <==> s.loop.Returned?
    ensures s.loop.Threw? ==> Settled(w, s.requested, Crashed) in Finish(s).history
  {
    hide Settle;
    CrashSettles(s, w);
  }

  lemma CrashSettles(s: Service, w: nat)
    requires w in s.waiters && w <= s.requested
    ensures var settled := Settle(s, s.requested, s.requested, Crashed);
            w !in settled.waiters && Settled(w, s.requested, Crashed) in settled.history
  {
    SplitWaiters(s.waiters, s.requested);
    var taken := Taken(s.waiters, s.requested);
    var k :| 0 <= k < |taken| && taken[k] == w;
    var events: seq<Event<Snapshot>> := Settlement(taken, s.requested, Crashed);
    assert events[k] == Settled(w, s.requested, Crashed);
  }

  lemma AskedWhileFailing(s1: Service, calls: seq<Call>)
    requires s1 == Request(FRESH, "a") && calls == [Refresh("b")]
    ensures s1.loop.Reading?
    ensures var s2 := Resume(s1, ReadFailed, Listeners([], false), Listeners(calls, true));
            && s2.loop == Threw && s2.requested == 2 && s2.completed == 1 && s2.waiters == [1, 2] && !s2.disposed
            && s2.history == [Requested(1), ReadsBegan(1), Failed(1, s1.loop.reasons), Requested(2)]
  {
    var failed := s1.(completed := 1, history := s1.history + [Failed(1, s1.loop.reasons)]);
    assert calls[1..] == [];
    assert Make(failed, calls) == Request(failed, "b");
  }

  /**
   * A throwing error listener breaks it: the first one asks for a second refresh, the next one throws,
   * and the handler rejects request 2 with the error of round 1, although no round has read for it.
   */
  lemma AThrowingErrorListenerRejectsANewerRequest()
    ensures var steps := [RequestStep("a"), ResumeStep(ReadFailed, Listeners([], false), Listeners([Refresh("b")], true)), FinishStep];
            && Execute(FRESH, steps).Some?
            && var s := Execute(FRESH, steps).value;
            && s.history[4] == Settled(1, 2, Crashed) && s.history[5] == Settled(2, 2, Crashed)
            && forall j :: 0 <= j < 5 ==> s.history[j] != ReadsBegan(2)
  {
    var calls := [Refresh("b")];
    var steps := [RequestStep("a"), ResumeStep(ReadFailed, Listeners([], false), Listeners(calls, true)), FinishStep];
    var s1 := Request(FRESH, "a");
    AskedWhileFailing(s1, calls);
    hide Resume, Request, Finish;
    var s2 := Resume(s1, ReadFailed, Listeners([], false), Listeners(calls, true));
    BothCrash(s2);
    var s3 := Finish(s2);
    assert steps[1..][1..][1..] == [];
    assert Execute(FRESH, steps) == Execute(s1, steps[1..]);
    assert Execute(s1, steps[1..]) == Execute(s2, steps[1..][1..]);
    assert Execute(s2, steps[1..][1..]) == Execute(s3, []);
    hide Execute;
    FirstSix(s3.history, s2.history);
  }

  lemma BothCrash(s: Service)
    requires s.loop == Threw && s.requested == 2 && s.waiters == [1, 2] && |s.history| == 4
    ensures |Finish(s).history| >= 6 && Finish(s).history[..6] == s.history + Settlement([1, 2], 2, Crashed)
  {
    TakenAll(s.waiters, 2);
  }

  lemma FirstSix(history: seq<Event<Snapshot>>, before: seq<Event<Snapshot>>)
    requires |history| >= 6 && |before| == 4 && history[..6] == before + Settlement([1, 2], 2, Crashed)
    ensures history[4] == Settled(1, 2, Crashed) && history[5] == Settled(2, 2, Crashed)
    ensures forall j :: 0 <= j < 4 ==> history[j] == before[j]
  {
    assert forall j :: 0 <= j < 6 ==> history[j] == history[..6][j];
  }

  // ---------------------------------------------------------------------------------------------
  // The class
  // ---------------------------------------------------------------------------------------------

  class ProviderRegistryService {
    var requestedGeneration: nat
    var completedGeneration: nat
    var pendingReasons: set<string>
    var refreshWaiters: seq<nat>
    var snapshot: Option<Snapshot>
    var registryRevision: nat
    var refreshInFlight: Loop
    var disposed: bool
    var history: seq<Event<Snapshot>>

    ghost function State(): Service
      reads this
    {
      Service(requestedGeneration, completedGeneration, pendingReasons, refreshWaiters, snapshot, registryRevision,
              refreshInFlight, disposed, history)
    }

    constructor ()
      ensures State() == FRESH
    {
      requestedGeneration, completedGeneration, pendingReasons, refreshWaiters := 0, 0, {}, [];
      snapshot, registryRevision, refreshInFlight, disposed, history := None, 0, Idle, false, [];
    }

    method RequestRefresh(reason: string)
      modifies this
      ensures State() == Request(old(State()), reason)
    {
      var generation := requestedGeneration + 1;
      requestedGeneration := generation;
      pendingReasons := pendingReasons + {reason};
      refreshWaiters := refreshWaiters + [generation];
      history := history + [Requested(generation)];
      EnsureRefreshLoop();
    }

    method EnsureRefreshLoop()
      modifies this
      ensures State() == EnsureLoop(old(State()))
    {
      if !refreshInFlight.Idle? || disposed {
        return;
      }
      RunRefreshLoop({});
    }

    /** The head of the loop: the next round up to its await, or the end of the loop. */
    method RunRefreshLoop(reasons: set<string>)
      modifies this
      ensures State() == Continue(old(State()), reasons)
    {
      if completedGeneration < requestedGeneration {
        var generation := requestedGeneration;
        refreshInFlight := Reading(generation, reasons + pendingReasons);
        pendingReasons := {};
        history := history + [ReadsBegan(generation)];
      } else {
        refreshInFlight := Returned;
      }
    }

    /** Both settlement loops: the waiters up to a generation, in order, the rest kept. */
    method SettleRefreshWaiters(generation: nat, round: nat, verdict: Verdict<Snapshot>)
      modifies this`refreshWaiters, this`history
      ensures State() == Settle(old(State()), generation, round, verdict)
    {
      var remaining: seq<nat> := [];
      var i := 0;
      ghost var waiters, before := refreshWaiters, history;
      ghost var taken: seq<nat> := [];
      hide Kept, Taken, Settlement;
      SettleNothing(waiters, generation, before, round, verdict);
      while i < |refreshWaiters|
        invariant 0 <= i <= |waiters| && refreshWaiters == waiters
        invariant remaining + Kept(waiters[i..], generation) == Kept(waiters, generation)
        invariant taken + Taken(waiters[i..], generation) == Taken(waiters, generation)
        invariant history == before + Settlement(taken, round, verdict)
      {
        var waiter := refreshWaiters[i];
        SettleStep(waiters, i, generation, taken, remaining, round, verdict);
        if waiter <= generation {
          history := history + [Settled(waiter, round, verdict)];
          taken := taken + [waiter];
        } else {
          remaining := remaining + [waiter];
        }
        i := i + 1;
      }
      SettledAll(waiters, generation, taken, remaining);
      refreshWaiters := remaining;
    }

    method DisposeAll()
      modifies this
      ensures State() == Dispose(old(State()))
    {
      if disposed {
        return;
      }
      disposed := true;
      history := history + Settlement(refreshWaiters, requestedGeneration, Disposed);
      refreshWaiters := [];
    }

    /** Telling the listeners, who may call back. */
    method Tell(listeners: Listeners)
      modifies this
      ensures State() == Emit(old(State()), listeners)
    {
      if disposed {
        return;
      }
      for i := 0 to |listeners.calls|
        invariant Make(State(), listeners.calls[i..]) == Make(old(State()), listeners.calls)
      {
        assert listeners.calls[i..][1..] == listeners.calls[i + 1..];
        match listeners.calls[i]
        case Refresh(reason) =>
          if !disposed {
            RequestRefresh(reason);
          }
        case DisposeService =>
          DisposeAll();
      }
    }

    /** A round that ends the loop: tell the error listeners, then reject the waiters up to it. */
    method FailRound(generation: nat, reasons: set<string>, onError: Listeners)
      modifies this
      ensures State() == Fail(old(State()), generation, reasons, onError)
    {
      completedGeneration := generation;
      history := history + [Failed(generation, reasons)];
      var thrown := !disposed && onError.throws;
      Tell(onError);
      if thrown {
        refreshInFlight := Threw;
        return;
      }
      SettleRefreshWaiters(generation, generation, Rejected);
      refreshInFlight := Returned;
    }

    /** What the loop does when both reads have ended. */
    method ResumeRefreshLoop(result: ReadResult, onChange: Listeners, onError: Listeners)
      requires refreshInFlight.Reading?
      modifies this
      ensures State() == Resume(old(State()), result, onChange, onError)
    {
      var generation, reasons := refreshInFlight.generation, refreshInFlight.reasons;
      if generation < requestedGeneration {
        RunRefreshLoop(reasons);
        return;
      }
      match result {
        case ReadFailed =>
          FailRound(generation, reasons, onError);
        case ReadOk(config, account, resolves) =>
          if disposed {
            refreshInFlight := Threw;
            return;
          }
          if account.basedOnBuiltinRevision != config.builtinRevision {
            completedGeneration := generation;
            if snapshot.Some? {
              SettleRefreshWaiters(generation, generation, Resolved(snapshot.value));
            }
            RunRefreshLoop({});
            return;
          }
          if snapshot.Some? && snapshot.value.config.revision == config.revision && snapshot.value.account.revision == account.revision {
            completedGeneration := generation;
            SettleRefreshWaiters(generation, generation, Resolved(snapshot.value));
            RunRefreshLoop({});
            return;
          }
          if !resolves {
            FailRound(generation, reasons, onError);
            return;
          }
          PublishRound(generation, reasons, config, account, onChange, onError);
      }
    }

    /** The end of a round whose reads are current, new and resolved. */
    method PublishRound(generation: nat, reasons: set<string>, config: Config, account: Account, onChange: Listeners, onError: Listeners)
      modifies this
      ensures State() == Publish(old(State()), generation, reasons, config, account, onChange, onError)
    {
      registryRevision := registryRevision + 1;
      var published := Snapshot(config, account, registryRevision);
      snapshot := Some(published);
      completedGeneration := generation;
      history := history + [Published(published, reasons)];
      SettleRefreshWaiters(generation, generation, Resolved(published));
      Tell(onChange);
      if onChange.throws {
        FailRound(generation, reasons, onError);
        return;
      }
      RunRefreshLoop({});
    }

    /** The handler of the loop promise. */
    method FinishRefresh()
      requires refreshInFlight.Returned? || refreshInFlight.Threw?
      modifies this
      ensures State() == Finish(old(State()))
    {
      if refreshInFlight.Threw? {
        SettleRefreshWaiters(requestedGeneration, requestedGeneration, Crashed);
      }
      refreshInFlight := Idle;
      if completedGeneration < requestedGeneration {
        EnsureRefreshLoop();
      }
    }
  }
}
