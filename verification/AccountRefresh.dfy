/** The account service's coalescing refresh loop and its runs. */
module AccountRefresh {
  // packages/provider/src/account-provider-service.ts: a round reads the configuration, resolves, and reads the
  // configuration again; each await ends a step.

  import opened Outcomes
  import opened RefreshWaiters
  import opened Counting

  /** The built-in revision, and the overlay that grants nothing under it. */
  datatype Config = Config(builtinRevision: string, failClosedOverlay: string)

  /** Overlay and states as one opaque text; the revision is made of both fields, so equal means same revision. */
  datatype Snapshot = Snapshot(basedOnBuiltinRevision: string, overlay: string)

  datatype Loop =
    | Idle
    | ReadingConfig(generation: nat, reasons: set<string>)
    | Resolving(generation: nat, reasons: set<string>, config: Config)
    | Rechecking(generation: nat, reasons: set<string>, config: Config, overlay: string)
    | Returned
    | Threw

  datatype Service = Service(
    requested: nat,
    pendingReasons: set<string>,
    waiters: seq<nat>,
    snapshot: Option<Snapshot>,
    loop: Loop,
    disposed: bool,
    history: seq<Event<Snapshot>>)

  /** How the await ends: the configuration, the resolved overlay, or an error. */
  datatype AwaitResult = ConfigRead(config: Config) | OverlayResolved(overlay: string) | AwaitFailed

  datatype Step =
    | RequestStep(reason: string)
    | ResumeStep(result: AwaitResult, onChange: Listeners, onError: Listeners)
    | FinishStep
    | DisposeStep

  const FRESH: Service := Service(0, {}, [], None, Idle, false, [])
  const SUPERSEDED: string := "superseded-resolution"

  predicate Running(loop: Loop) {
    loop.ReadingConfig? || loop.Resolving? || loop.Rechecking?
  }

  /** The head of the while loop: a round for everything pending, or the end of the loop. */
  function Continue(s: Service): Service {
    if s.pendingReasons != {} then
      s.(loop := ReadingConfig(s.requested, s.pendingReasons), pendingReasons := {},
         history := s.history + [ReadsBegan(s.requested)])
    else s.(loop := if s.snapshot.None? then Threw else Returned)
  }

  function Ask(s: Service, reason: string): Service {
    s.(requested := s.requested + 1, pendingReasons := s.pendingReasons + {reason},
       waiters := s.waiters + [s.requested + 1], history := s.history + [Requested(s.requested + 1)])
  }

  function Request(s: Service, reason: string): Service {
    if s.loop.Idle? then Continue(Ask(s, reason)) else Ask(s, reason)
  }

  function Settle(s: Service, generation: nat, round: nat, verdict: Verdict<Snapshot>): Service {
    s.(waiters := Kept(s.waiters, generation),
       history := s.history + Settlement(Taken(s.waiters, generation), round, verdict))
  }

  function Dispose(s: Service): Service {
    if s.disposed then s
    else s.(disposed := true, waiters := [], history := s.history + Settlement(s.waiters, s.requested, Disposed))
  }

  function Make(s: Service, calls: seq<Call>): Service
    decreases |calls|
  {
    if calls == [] then s
    else
      match calls[0]
      case Refresh(reason) => Make(if s.disposed then s else Request(s, reason), calls[1..])
      case DisposeService => Make(Dispose(s), calls[1..])
  }

  function Emit(s: Service, listeners: Listeners): Service {
    if s.disposed then s else Make(s, listeners.calls)
  }

  /** A snapshot becomes current and answers the waiters of its round. */
  function Store(s: Service, generation: nat, reasons: set<string>, snapshot: Snapshot): Service {
    Settle(s.(snapshot := Some(snapshot), history := s.history + [Published(snapshot, reasons)]),
           generation, generation, Resolved(snapshot))
  }

  /** The catch block: a first failure still publishes a fail-closed snapshot if the configuration was read. */
  function Catch(s: Service, generation: nat, reasons: set<string>, config: Option<Config>, onError: Listeners): Service {
    var failed := s.(history := s.history + [Failed(generation, reasons)]);
    var told := Emit(failed, onError);
    if !s.disposed && onError.throws then told.(loop := Threw)
    else if told.snapshot.None? && config.Some? then
      Continue(Store(told, generation, reasons, Snapshot(config.value.builtinRevision, config.value.failClosedOverlay)))
    else Settle(told, generation, generation, Rejected).(loop := Threw)
  }

  /** The second read agreed: publish unless the result is what is already current. */
  function Accept(s: Service, generation: nat, reasons: set<string>, config: Config, overlay: string,
                  onChange: Listeners, onError: Listeners): Service {
    var next := Snapshot(config.builtinRevision, overlay);
    if s.snapshot == Some(next) then Continue(Settle(s, generation, generation, Resolved(next)))
    else
      var stored := Store(s, generation, reasons, next);
      if s.snapshot.None? then Continue(stored)
      else
        var told := Emit(stored, onChange);
        if onChange.throws then Catch(told, generation, reasons, Some(config), onError) else Continue(told)
  }

  predicate Fits(loop: Loop, result: AwaitResult) {
    && Running(loop)
    && (loop.Resolving? ==> !result.ConfigRead?)
    && (!loop.Resolving? ==> !result.OverlayResolved?)
  }

  function Resume(s: Service, result: AwaitResult, onChange: Listeners, onError: Listeners): Service
    requires Fits(s.loop, result)
  {
    match s.loop
    case ReadingConfig(generation, reasons) =>
      if result.AwaitFailed? then Catch(s, generation, reasons, None, onError)
      else s.(loop := Resolving(generation, reasons, result.config))
    case Resolving(generation, reasons, config) =>
      if result.AwaitFailed? || s.disposed then Catch(s, generation, reasons, Some(config), onError)
      else s.(loop := Rechecking(generation, reasons, config, result.overlay))
    case Rechecking(generation, reasons, config, overlay) =>
      if result.AwaitFailed? || s.disposed then Catch(s, generation, reasons, Some(config), onError)
      else if s.pendingReasons != {} || result.config.builtinRevision != config.builtinRevision then
        Continue(s.(pendingReasons := s.pendingReasons + {SUPERSEDED}))
      else Accept(s, generation, reasons, config, overlay, onChange, onError)
  }

  function Finish(s: Service): Service
    requires s.loop.Returned? || s.loop.Threw?
  {
    var idle := s.(loop := Idle);
    if s.disposed || s.pendingReasons == {} then idle else Continue(idle)
  }

  predicate CanStep(s: Service, step: Step) {
    match step
    case RequestStep(_) => !s.disposed
    case ResumeStep(result, _, _) => Fits(s.loop, result)
    case FinishStep => s.loop.Returned? || s.loop.Threw?
    case DisposeStep => true
  }

  function Next(s: Service, step: Step): Service
    requires CanStep(s, step)
  {
    match step
    case RequestStep(reason) => Request(s, reason)
    case ResumeStep(result, onChange, onError) => Resume(s, result, onChange, onError)
    case FinishStep => Finish(s)
    case DisposeStep => Dispose(s)
  }

  function Execute(s: Service, steps: seq<Step>): Option<Service>
    decreases |steps|
  {
    if steps == [] then Some(s)
    else if CanStep(s, steps[0]) then Execute(Next(s, steps[0]), steps[1..])
    else None
  }

  // ---------------------------------------------------------------------------------------------
  // What every step keeps
  // ---------------------------------------------------------------------------------------------

  ghost predicate Sound(s: Service) {
    && Books(s.requested, s.waiters, s.snapshot, s.history)
    && (s.disposed ==> s.waiters == [])
  }

  /** Whoever asked after the round began left a reason behind. */
  ghost predicate Current(s: Service, generation: nat) {
    && ReadsBegan(generation) in s.history
    && generation <= s.requested
    && (s.pendingReasons == {} ==> generation == s.requested)
  }

  ghost predicate Inv(s: Service) {
    && Sound(s)
    && (Running(s.loop) ==> Current(s, s.loop.generation))
  }

  /** Every waiter is covered by the running round or by a reason that will start one. */
  ghost predicate Covered(s: Service) {
    && (!Running(s.loop) && s.pendingReasons == {} ==> s.waiters == [])
    && (s.loop.Idle? ==> s.waiters == [])
  }

  ghost predicate Grows(s: Service, next: Service) {
    && Sound(next)
    && next.loop == s.loop && next.snapshot == s.snapshot
    && s.requested <= next.requested
    && (next.pendingReasons == {} ==> s.pendingReasons == {} && next.requested == s.requested)
    && (s.disposed ==> next == s)
    && (forall w :: w in next.waiters ==> w in s.waiters || s.requested < w)
    && (forall e :: e in s.history ==> e in next.history)
  }

  lemma ContinueKeeps(s: Service)
    requires Sound(s)
    ensures Inv(Continue(s))
    ensures (s.pendingReasons == {} ==> s.waiters == []) ==> Covered(Continue(s))
  {
    hide Books;
    BeginKeepsBooks(s.requested, s.waiters, s.snapshot, s.history);
  }

  lemma AskKeeps(s: Service, reason: string)
    requires Sound(s) && !s.disposed
    ensures Grows(s, Ask(s, reason))
  {
    hide Books;
    RequestKeepsBooks(s.requested, s.waiters, s.snapshot, s.history);
  }

  lemma DisposeKeeps(s: Service)
    requires Sound(s)
    ensures Grows(s, Dispose(s)) && Dispose(s).waiters == []
  {
    hide Books;
    DisposeKeepsBooks(s.requested, s.waiters, s.snapshot, s.history);
  }

  lemma {:induction false} MakeKeeps(s: Service, calls: seq<Call>)
    requires Sound(s) && !s.loop.Idle?
    ensures var next := Make(s, calls);
            && Sound(next)
            && next.loop == s.loop && next.snapshot == s.snapshot
            && s.requested <= next.requested
            && (next.pendingReasons == {} ==> s.pendingReasons == {} && next.requested == s.requested)
            && (forall w :: w in next.waiters ==> w in s.waiters || s.requested < w)
            && (forall e :: e in s.history ==> e in next.history)
    decreases |calls|
  {
    if calls != [] {
      hide Sound;
      var next := if calls[0].DisposeService? then Dispose(s) else if s.disposed then s else Request(s, calls[0].reason);
      if calls[0].DisposeService? {
        DisposeKeeps(s);
      } else if !s.disposed {
        AskKeeps(s, calls[0].reason);
      }
      MakeKeeps(next, calls[1..]);
    }
  }

  lemma EmitKeeps(s: Service, listeners: Listeners)
    requires Sound(s) && !s.loop.Idle?
    ensures Grows(s, Emit(s, listeners))
  {
    MakeKeeps(s, listeners.calls);
    hide Sound;
  }

  lemma SettleKeeps(s: Service, generation: nat, verdict: Verdict<Snapshot>)
    requires Sound(s) && ReadsBegan(generation) in s.history
    requires verdict.Resolved? ==> s.snapshot == Some(verdict.snapshot)
    ensures var next := Settle(s, generation, generation, verdict);
            && Sound(next)
            && (forall w :: w in next.waiters <==> w in s.waiters && generation < w)
            && (forall e :: e in s.history ==> e in next.history)
  {
    hide Books, Taken;
    SettleKeepsBooks(s.requested, s.waiters, s.snapshot, s.history, generation, generation, verdict);
  }

  lemma StoreKeeps(s: Service, generation: nat, reasons: set<string>, snapshot: Snapshot)
    requires Sound(s) && ReadsBegan(generation) in s.history
    ensures var next := Store(s, generation, reasons, snapshot);
            && Sound(next)
            && (forall w :: w in next.waiters <==> w in s.waiters && generation < w)
            && (forall e :: e in s.history ==> e in next.history)
  {
    hide Books, Settle;
    PublishKeepsBooks(s.requested, s.waiters, s.snapshot, snapshot, s.history, reasons);
    SettleKeeps(s.(snapshot := Some(snapshot), history := s.history + [Published(snapshot, reasons)]), generation, Resolved(snapshot));
  }

  /** Whoever is left after a round settled its waiters asked later, so left a reason. */
  lemma LeftHaveReasons(s: Service, generation: nat)
    requires Sound(s) && Current(s, generation)
    requires forall w :: w in s.waiters ==> generation < w
    ensures s.pendingReasons == {} ==> s.waiters == []
  {
    if s.waiters != [] {
      assert s.waiters[0] in s.waiters && s.waiters[0] <= s.requested;
    }
  }

  lemma StoreAndContinueKeeps(s: Service, generation: nat, reasons: set<string>, snapshot: Snapshot)
    requires Sound(s) && Current(s, generation)
    ensures Inv(Continue(Store(s, generation, reasons, snapshot))) && Covered(Continue(Store(s, generation, reasons, snapshot)))
  {
    hide Sound, Continue, Store;
    StoreKeeps(s, generation, reasons, snapshot);
    StoreFrame(s, generation, reasons, snapshot);
    LeftHaveReasons(Store(s, generation, reasons, snapshot), generation);
    ContinueKeeps(Store(s, generation, reasons, snapshot));
  }

  lemma RejectKeeps(s: Service, generation: nat)
    requires Sound(s) && Current(s, generation)
    ensures var next := Settle(s, generation, generation, Rejected).(loop := Threw); Inv(next) && Covered(next)
  {
    hide Books, Settle;
    SettleKeeps(s, generation, Rejected);
    SettleFrame(s, generation, generation, Rejected);
    LeftHaveReasons(Settle(s, generation, generation, Rejected), generation);
  }

  lemma FailureKeepsSound(s: Service, generation: nat, reasons: set<string>)
    requires Sound(s)
    ensures Sound(s.(history := s.history + [Failed(generation, reasons)]))
  {
    hide Books;
    FailKeepsBooks(s.requested, s.waiters, s.snapshot, s.history, generation, reasons);
  }

  /** Telling the error listeners leaves the round the current one. */
  lemma ToldKeeps(s: Service, generation: nat, reasons: set<string>, onError: Listeners)
    requires Sound(s) && Current(s, generation) && !s.loop.Idle?
    ensures var told := Emit(s.(history := s.history + [Failed(generation, reasons)]), onError);
            Sound(told) && Current(told, generation) && Sound(told.(loop := Threw))
  {
    FailureKeepsSound(s, generation, reasons);
    EmitKeeps(s.(history := s.history + [Failed(generation, reasons)]), onError);
    hide Emit, Books;
  }

  lemma CatchKeeps(s: Service, generation: nat, reasons: set<string>, config: Option<Config>, onError: Listeners)
    requires Sound(s) && Current(s, generation) && !s.loop.Idle?
    ensures Inv(Catch(s, generation, reasons, config, onError))
    ensures !onError.throws ==> Covered(Catch(s, generation, reasons, config, onError))
  {
    hide Sound, Current, Covered, Emit, Settle, Continue, Store;
    ToldKeeps(s, generation, reasons, onError);
    var told := Emit(s.(history := s.history + [Failed(generation, reasons)]), onError);
    if config.Some? {
      StoreAndContinueKeeps(told, generation, reasons, Snapshot(config.value.builtinRevision, config.value.failClosedOverlay));
    }
    RejectKeeps(told, generation);
  }

  lemma SettleFrame(s: Service, generation: nat, round: nat, verdict: Verdict<Snapshot>)
    ensures var next := Settle(s, generation, round, verdict);
            next.requested == s.requested && next.pendingReasons == s.pendingReasons && next.loop == s.loop
            && next.snapshot == s.snapshot && next.disposed == s.disposed
  {
  }

  lemma StoreFrame(s: Service, generation: nat, reasons: set<string>, snapshot: Snapshot)
    ensures var next := Store(s, generation, reasons, snapshot);
            next.requested == s.requested && next.pendingReasons == s.pendingReasons && next.loop == s.loop
            && next.snapshot == Some(snapshot) && next.disposed == s.disposed
  {
  }

  lemma AcceptKeeps(s: Service, generation: nat, reasons: set<string>, config: Config, overlay: string,
                    onChange: Listeners, onError: Listeners)
    requires Sound(s) && Current(s, generation) && !s.loop.Idle?
    ensures Inv(Accept(s, generation, reasons, config, overlay, onChange, onError))
    ensures !onError.throws ==> Covered(Accept(s, generation, reasons, config, overlay, onChange, onError))
  {
    var next := Snapshot(config.builtinRevision, overlay);
    hide Books, Emit, Settle, Continue, Store, Catch;
    if s.snapshot == Some(next) {
      var settled := Settle(s, generation, generation, Resolved(next));
      SettleKeeps(s, generation, Resolved(next));
      SettleFrame(s, generation, generation, Resolved(next));
      LeftHaveReasons(settled, generation);
      ContinueKeeps(settled);
    } else {
      var stored := Store(s, generation, reasons, next);
      StoreKeeps(s, generation, reasons, next);
      StoreFrame(s, generation, reasons, next);
      LeftHaveReasons(stored, generation);
      EmitKeeps(stored, onChange);
      var told := Emit(stored, onChange);
      LeftHaveReasons(told, generation);
      ContinueKeeps(stored);
      ContinueKeeps(told);
      CatchKeeps(told, generation, reasons, Some(config), onError);
    }
  }

  lemma ResumeKeeps(s: Service, result: AwaitResult, onChange: Listeners, onError: Listeners)
    requires Inv(s) && Fits(s.loop, result)
    ensures Inv(Resume(s, result, onChange, onError))
    ensures !onError.throws ==> Covered(Resume(s, result, onChange, onError))
  {
    hide Books, Continue, Catch, Accept;
    var generation, reasons := s.loop.generation, s.loop.reasons;
    CatchKeeps(s, generation, reasons, if s.loop.ReadingConfig? then None else Some(s.loop.config), onError);
    if s.loop.Rechecking? && result.ConfigRead? {
      ContinueKeeps(s.(pendingReasons := s.pendingReasons + {SUPERSEDED}));
      AcceptKeeps(s, generation, reasons, s.loop.config, s.loop.overlay, onChange, onError);
    }
  }

  lemma RequestKeeps(s: Service, reason: string)
    requires Inv(s) && !s.disposed
    ensures Inv(Request(s, reason)) && (Covered(s) ==> Covered(Request(s, reason)))
  {
    hide Books;
    AskKeeps(s, reason);
    ContinueKeeps(Ask(s, reason));
  }

  lemma FinishKeeps(s: Service)
    requires Inv(s) && (s.loop.Returned? || s.loop.Threw?)
    ensures Inv(Finish(s)) && (Covered(s) ==> Covered(Finish(s)))
  {
    hide Books;
    ContinueKeeps(s.(loop := Idle));
  }

  lemma DisposalKeeps(s: Service)
    requires Inv(s)
    ensures Inv(Dispose(s)) && Covered(Dispose(s))
  {
    hide Books;
    DisposeKeeps(s);
  }

  lemma NextKeeps(s: Service, step: Step)
    requires Inv(s) && CanStep(s, step)
    ensures Inv(Next(s, step))
    ensures Covered(s) && (step.ResumeStep? ==> !step.onError.throws) ==> Covered(Next(s, step))
  {
    hide Inv, Covered, Request, Resume, Finish, Dispose;
    match step
    case RequestStep(reason) => RequestKeeps(s, reason);
    case ResumeStep(result, onChange, onError) => ResumeKeeps(s, result, onChange, onError);
    case FinishStep => FinishKeeps(s);
    case DisposeStep => DisposalKeeps(s);
  }

  lemma {:induction false} ExecuteKeeps(s: Service, steps: seq<Step>)
    requires Inv(s) && Execute(s, steps).Some?
    ensures Inv(Execute(s, steps).value)
    ensures Covered(s) && ErrorListenersReturn(steps) ==> Covered(Execute(s, steps).value)
    decreases |steps|
  {
    if steps != [] {
      NextKeeps(s, steps[0]);
      ExecuteKeeps(Next(s, steps[0]), steps[1..]);
    }
  }

  ghost predicate ErrorListenersReturn(steps: seq<Step>) {
    forall k :: 0 <= k < |steps| && steps[k].ResumeStep? ==> !steps[k].onError.throws
  }

  // ---------------------------------------------------------------------------------------------
  // The theorems, over every reachable state
  // ---------------------------------------------------------------------------------------------

  ghost predicate Reachable(s: Service) {
    exists steps :: Execute(FRESH, steps) == Some(s)
  }

  /** Reached by a run in which no error listener threw. */
  ghost predicate ReachableQuietly(s: Service) {
    exists steps :: Execute(FRESH, steps) == Some(s) && ErrorListenersReturn(steps)
  }

  lemma FreshInv()
    ensures Inv(FRESH) && Covered(FRESH)
  {
    assert SettledOf(FRESH.history) == [] && UpTo(0) == [];
  }

  lemma ReachableInv(s: Service)
    requires Reachable(s)
    ensures Inv(s)
  {
    var steps :| Execute(FRESH, steps) == Some(s);
    FreshInv();
    ExecuteKeeps(FRESH, steps);
  }

  /** Every request is pending or settled, and never settled twice. */
  lemma EachRequestSettledOnce(s: Service, g: nat)
    requires Reachable(s) && 1 <= g <= s.requested
    ensures multiset(SettledOf(s.history))[g] + multiset(s.waiters)[g] == 1
  {
    ReachableInv(s);
    SettledOnce(s.requested, s.waiters, s.history, g);
  }

  /** A round only answers requests made before its reads began, and resolves with the latest publication. */
  lemma AnswersAreFresh(s: Service, k: nat)
    requires Reachable(s) && k < |s.history| && s.history[k].Settled?
    requires s.history[k].verdict.Resolved? || s.history[k].verdict.Rejected?
    ensures exists i, j :: 0 <= i < j < k && s.history[i] == Requested(s.history[k].generation) && s.history[j] == ReadsBegan(s.history[k].round)
    ensures forall i, j | 0 <= i < |s.history| && 0 <= j < |s.history| ::
              s.history[i] == Requested(s.history[k].generation) && s.history[j] == ReadsBegan(s.history[k].round) ==> i < j
    ensures s.history[k].verdict.Resolved? ==> Latest(PublishedOf(s.history[..k])) == Some(s.history[k].verdict.snapshot)
  {
    ReachableInv(s);
    AnswerReadsAfterRequest(s.requested, s.waiters, s.snapshot, s.history, k);
  }

  /**
   * No wake-up is lost while error listeners return: a waiter has a round running, or a reason that
   * makes the handler of the ended loop start one, and that round covers it.
   */
  lemma NoLostWakeUp(s: Service, w: nat)
    requires ReachableQuietly(s) && w in s.waiters
    ensures !s.disposed && !s.loop.Idle?
    ensures Running(s.loop) ==> w <= s.loop.generation || s.pendingReasons != {}
    ensures s.loop.Returned? || s.loop.Threw? ==> Running(Finish(s).loop) && w <= Finish(s).loop.generation
  {
    var steps :| Execute(FRESH, steps) == Some(s) && ErrorListenersReturn(steps);
    FreshInv();
    ExecuteKeeps(FRESH, steps);
    assert w <= s.requested;
  }

  /** A resolution is published only if nobody asked after it began, under the revision it was computed for. */
  lemma OvertakenRoundsAreNotPublished(s: Service, result: AwaitResult, onChange: Listeners, onError: Listeners)
    requires Reachable(s) && Fits(s.loop, result) && s.loop.Rechecking? && result.ConfigRead? && !s.disposed
    requires s.loop.generation < s.requested || result.config.builtinRevision != s.loop.config.builtinRevision
    ensures var next := Resume(s, result, onChange, onError);
            && next.snapshot == s.snapshot && next.waiters == s.waiters
            && next.loop.ReadingConfig? && next.loop.generation == s.requested
  {
    ReachableInv(s);
  }

  /**
   * With a throwing error listener the first request is stranded: its round is over, the loop is
   * idle, and nothing is pending that would start another.
   */
  lemma AThrowingErrorListenerStrandsARequest()
    ensures var steps := [RequestStep("a"), ResumeStep(AwaitFailed, Listeners([], false), Listeners([], true)), FinishStep];
            && Execute(FRESH, steps).Some?
            && var s := Execute(FRESH, steps).value;
            s.waiters == [1] && s.loop.Idle? && s.pendingReasons == {} && !s.disposed
  {
    var steps := [RequestStep("a"), ResumeStep(AwaitFailed, Listeners([], false), Listeners([], true)), FinishStep];
    var s1 := Request(FRESH, "a");
    assert s1.pendingReasons == {} && s1.waiters == [1] && s1.loop.ReadingConfig?;
    var s2 := Resume(s1, AwaitFailed, Listeners([], false), Listeners([], true));
    assert s2.loop == Threw && s2.waiters == [1] && s2.pendingReasons == {};
    assert steps[1..][1..][1..] == [];
    assert Execute(FRESH, steps) == Execute(s1, steps[1..]);
    assert Execute(s1, steps[1..]) == Execute(s2, steps[1..][1..]);
    assert Execute(s2, steps[1..][1..]) == Execute(Finish(s2), []);
  }

  lemma {:induction false} DisposedStaysEmpty(s: Service, calls: seq<Call>)
    requires s.disposed && s.waiters == []
    ensures Make(s, calls).waiters == []
    decreases |calls|
  {
    if calls != [] {
      DisposedStaysEmpty(s, calls[1..]);
    }
  }

  /** A waiter outlives a listener's calls unless one of them disposes the service. */
  lemma {:induction false} WaiterOutlivesCalls(s: Service, calls: seq<Call>, w: nat)
    requires w in s.waiters && !s.disposed && !s.loop.Idle?
    ensures w in Make(s, calls).waiters <==> DisposeService !in calls
    decreases |calls|
  {
    if calls != [] {
      assert calls == [calls[0]] + calls[1..];
      match calls[0]
      case Refresh(reason) => WaiterOutlivesCalls(Request(s, reason), calls[1..], w);
      case DisposeService => DisposedStaysEmpty(Dispose(s), calls[1..]);
    }
  }

  /**
   * The exact condition: a failing round leaves a request it covers without an answer exactly when an error
   * listener throws and none disposes the service.
   */
  lemma FailingRoundStrandsExactlyWhen(s: Service, onChange: Listeners, onError: Listeners, w: nat)
    requires Running(s.loop) && !s.disposed && w in s.waiters && w <= s.loop.generation
    ensures w in Resume(s, AwaitFailed, onChange, onError).waiters <==> onError.throws && DisposeService !in onError.calls
  {
    hide Catch;
    CatchStrands(s, s.loop.generation, s.loop.reasons, if s.loop.ReadingConfig? then None else Some(s.loop.config), onError, w);
  }

  lemma CatchStrands(s: Service, generation: nat, reasons: set<string>, config: Option<Config>, onError: Listeners, w: nat)
    requires !s.loop.Idle? && !s.disposed && w in s.waiters && w <= generation
    ensures w in Catch(s, generation, reasons, config, onError).waiters <==> onError.throws && DisposeService !in onError.calls
  {
    hide Make, Continue, Store, Settle;
    var failed := s.(history := s.history + [Failed(generation, reasons)]);
    WaiterOutlivesCalls(failed, onError.calls, w);
    var told := Make(failed, onError.calls);
    LeavesNoneBehind(told, generation, w, Rejected);
    if config.Some? {
      var stored := Snapshot(config.value.builtinRevision, config.value.failClosedOverlay);
      StoreLeavesNoneBehind(told, generation, reasons, stored, w);
      ContinueWaiters(Store(told, generation, reasons, stored));
    }
  }

  lemma ContinueWaiters(s: Service)
    ensures Continue(s).waiters == s.waiters
  {
  }

  lemma LeavesNoneBehind(s: Service, generation: nat, w: nat, verdict: Verdict<Snapshot>)
    requires w <= generation
    ensures w !in Settle(s, generation, generation, verdict).waiters
  {
    SplitWaiters(s.waiters, generation);
    hide Kept, Taken;
  }

  lemma StoreLeavesNoneBehind(s: Service, generation: nat, reasons: set<string>, snapshot: Snapshot, w: nat)
    requires w <= generation
    ensures w !in Store(s, generation, reasons, snapshot).waiters
  {
    hide Settle;
    LeavesNoneBehind(s.(snapshot := Some(snapshot), history := s.history + [Published(snapshot, reasons)]),
                     generation, w, Resolved(snapshot));
  }

  /** A request that is still waiting when every loop has ended for good was stranded by a throwing listener. */
  lemma StrandedOnlyByAThrowingListener(s: Service, steps: seq<Step>, w: nat)
    requires Execute(FRESH, steps) == Some(s) && w in s.waiters && s.loop.Idle?
    ensures !ErrorListenersReturn(steps)
  {
    FreshInv();
    ExecuteKeeps(FRESH, steps);
  }

  // ---------------------------------------------------------------------------------------------
  // What a round publishes and answers
  // ---------------------------------------------------------------------------------------------

  /** Every waiter up to the generation got the verdict of that round. */
  ghost predicate Answered(s: Service, next: Service, generation: nat, verdict: Verdict<Snapshot>) {
    forall w :: w in s.waiters && w <= generation ==> Settled(w, generation, verdict) in next.history && w !in next.waiters
  }

  lemma SettleAnswers(s: Service, generation: nat, verdict: Verdict<Snapshot>)
    ensures Answered(s, Settle(s, generation, generation, verdict), generation, verdict)
    ensures PublishedOf(Settle(s, generation, generation, verdict).history) == PublishedOf(s.history)
  {
    hide Taken, Kept;
    SplitWaiters(s.waiters, generation);
    var taken := Taken(s.waiters, generation);
    var events: seq<Event<Snapshot>> := Settlement(taken, generation, verdict);
    forall w | w in s.waiters && w <= generation
      ensures Settled(w, generation, verdict) in Settle(s, generation, generation, verdict).history
    {
      var k :| 0 <= k < |taken| && taken[k] == w;
      assert events[k] == Settled(w, generation, verdict);
    }
    PublishedAppend(s.history, events);
    PublishedNothing(events);
    NothingMore(PublishedOf(s.history), PublishedOf(events));
  }

  lemma AnsweredOf(s: Service, same: Service, next: Service, generation: nat, verdict: Verdict<Snapshot>)
    requires Answered(same, next, generation, verdict) && forall w :: w in s.waiters && w <= generation ==> w in same.waiters
    ensures Answered(s, next, generation, verdict)
  {
  }

  /** What follows keeps every event, publishes nothing and adds only newer waiters. */
  ghost predicate GoesOn(s: Service, later: Service, generation: nat) {
    && later.snapshot == s.snapshot && PublishedOf(later.history) == PublishedOf(s.history)
    && (forall e :: e in s.history ==> e in later.history)
    && forall w :: w in later.waiters ==> w in s.waiters || generation < w
  }

  lemma GoesOnAnswers(s: Service, next: Service, generation: nat, verdict: Verdict<Snapshot>, later: Service)
    requires Answered(s, next, generation, verdict) && GoesOn(next, later, generation)
    ensures Answered(s, later, generation, verdict)
  {
  }

  lemma GoesOnTwice(s: Service, next: Service, later: Service, generation: nat)
    requires GoesOn(s, next, generation) && GoesOn(next, later, generation)
    ensures GoesOn(s, later, generation)
  {
  }

  /** An event that is no publication. */
  lemma NotedGoesOn(s: Service, event: Event<Snapshot>, generation: nat)
    requires !event.Published?
    ensures GoesOn(s, s.(history := s.history + [event]), generation)
  {
    PublishedAppend(s.history, [event]);
    PublishedNothing([event]);
    NothingMore(PublishedOf(s.history), PublishedOf([event]));
  }

  lemma ContinueGoesOn(s: Service, generation: nat)
    ensures GoesOn(s, Continue(s), generation)
  {
    NotedGoesOn(s, ReadsBegan(s.requested), generation);
  }

  lemma CallGoesOn(s: Service, call: Call, generation: nat)
    requires !s.loop.Idle? && generation <= s.requested
    ensures var next := if call.DisposeService? then Dispose(s) else if s.disposed then s else Request(s, call.reason);
            GoesOn(s, next, generation)
  {
    NotedGoesOn(s, Requested(s.requested + 1), generation);
    var events: seq<Event<Snapshot>> := Settlement(s.waiters, s.requested, Disposed);
    PublishedAppend(s.history, events);
    PublishedNothing(events);
    NothingMore(PublishedOf(s.history), PublishedOf(events));
  }

  lemma {:induction false} MakeGoesOn(s: Service, calls: seq<Call>, generation: nat)
    requires !s.loop.Idle? && generation <= s.requested
    ensures GoesOn(s, Make(s, calls), generation)
    decreases |calls|
  {
    hide GoesOn;
    if calls == [] {
      NothingGoesOn(s, generation);
    } else {
      var next := if calls[0].DisposeService? then Dispose(s) else if s.disposed then s else Request(s, calls[0].reason);
      CallGoesOn(s, calls[0], generation);
      MakeGoesOn(next, calls[1..], generation);
      GoesOnTwice(s, next, Make(next, calls[1..]), generation);
    }
  }

  lemma NothingGoesOn(s: Service, generation: nat)
    ensures GoesOn(s, s, generation)
  {
  }

  lemma EventsGoOn(s: Service, next: Service, generation: nat)
    requires GoesOn(s, next, generation)
    ensures forall e :: e in s.history ==> e in next.history
  {
  }

  /** The error listeners told. */
  function ToldOf(s: Service, generation: nat, reasons: set<string>, onError: Listeners): Service {
    Emit(s.(history := s.history + [Failed(generation, reasons)]), onError)
  }

  lemma ToldGoesOn(s: Service, generation: nat, reasons: set<string>, onError: Listeners)
    requires !s.loop.Idle? && generation <= s.requested
    ensures GoesOn(s, ToldOf(s, generation, reasons, onError), generation)
    ensures Failed(generation, reasons) in ToldOf(s, generation, reasons, onError).history
    ensures !s.disposed && DisposeService !in onError.calls ==>
              forall w :: w in s.waiters ==> w in ToldOf(s, generation, reasons, onError).waiters
  {
    var failed := s.(history := s.history + [Failed(generation, reasons)]);
    NotedGoesOn(s, Failed(generation, reasons), generation);
    MakeGoesOn(failed, onError.calls, generation);
    assert Failed(generation, reasons) in failed.history;
    hide GoesOn, Make;
    EventsGoOn(failed, Make(failed, onError.calls), generation);
    if !s.disposed {
      GoesOnTwice(s, failed, Make(failed, onError.calls), generation);
      forall w | w in s.waiters && DisposeService !in onError.calls
        ensures w in Make(failed, onError.calls).waiters
      {
        WaiterOutlivesCalls(failed, onError.calls, w);
      }
    }
  }

  lemma StoreAnswers(s: Service, generation: nat, reasons: set<string>, snapshot: Snapshot)
    ensures var next := Store(s, generation, reasons, snapshot);
            && Answered(s, next, generation, Resolved(snapshot)) && next.snapshot == Some(snapshot)
            && PublishedOf(next.history) == PublishedOf(s.history) + [snapshot]
  {
    var published := s.(snapshot := Some(snapshot), history := s.history + [Published(snapshot, reasons)]);
    assert published.history[..|s.history|] == s.history;
    hide PublishedOf, Settle;
    PublishedOne(s.history, snapshot, reasons);
    SettleAnswers(published, generation, Resolved(snapshot));
    SettleFrame(published, generation, generation, Resolved(snapshot));
    AnsweredOf(s, published, Settle(published, generation, generation, Resolved(snapshot)), generation, Resolved(snapshot));
  }

  lemma PublishedOne(history: seq<Event<Snapshot>>, snapshot: Snapshot, reasons: set<string>)
    ensures PublishedOf(history + [Published(snapshot, reasons)]) == PublishedOf(history) + [snapshot]
  {
    assert (history + [Published(snapshot, reasons)])[..|history|] == history;
  }

  /** The configuration that the round has read, if it has. */
  function ConfigOf(loop: Loop): Option<Config>
    requires Running(loop)
  {
    if loop.ReadingConfig? then None else Some(loop.config)
  }

  lemma FailedResume(s: Service, onChange: Listeners, onError: Listeners)
    requires Running(s.loop)
    ensures Resume(s, AwaitFailed, onChange, onError) == Catch(s, s.loop.generation, s.loop.reasons, ConfigOf(s.loop), onError)
  {
    hide Catch;
  }

  /** The two ways a caught failure goes on. */
  lemma CatchIs(s: Service, generation: nat, reasons: set<string>, config: Option<Config>, onError: Listeners)
    requires !s.disposed
    ensures var told := ToldOf(s, generation, reasons, onError);
            Catch(s, generation, reasons, config, onError)
            == if onError.throws then told.(loop := Threw)
               else if told.snapshot.None? && config.Some?
               then Continue(Store(told, generation, reasons, Snapshot(config.value.builtinRevision, config.value.failClosedOverlay)))
               else Settle(told, generation, generation, Rejected).(loop := Threw)
  {
    hide Emit, Continue, Store, Settle;
  }

  /** The snapshot that grants nothing under a configuration. */
  function FailClosed(config: Config): Snapshot {
    Snapshot(config.builtinRevision, config.failClosedOverlay)
  }

  lemma StoreNotes(s: Service, generation: nat, reasons: set<string>, snapshot: Snapshot)
    ensures var next := Store(s, generation, reasons, snapshot);
            Published(snapshot, reasons) in next.history && forall e :: e in s.history ==> e in next.history
  {
    hide Taken, Kept;
  }

  lemma CaughtPublishes(s: Service, generation: nat, reasons: set<string>, config: Option<Config>, onError: Listeners)
    requires !s.loop.Idle? && generation <= s.requested && !s.disposed
    ensures var next := Catch(s, generation, reasons, config, onError);
            var first := s.snapshot.None? && config.Some? && !onError.throws;
            && Failed(generation, reasons) in next.history
            && PublishedOf(next.history) == PublishedOf(s.history) + (if first then [FailClosed(config.value)] else [])
            && next.snapshot == (if first then Some(FailClosed(config.value)) else s.snapshot)
  {
    hide Catch, ToldOf, Continue, Store, Settle, PublishedOf;
    var told := ToldOf(s, generation, reasons, onError);
    CatchIs(s, generation, reasons, config, onError);
    ToldGoesOn(s, generation, reasons, onError);
    SettledGoesOn(told, generation);
    SettleFrame(told, generation, generation, Rejected);
    NothingMore(PublishedOf(s.history), []);
    if config.Some? {
      StoreAnswers(told, generation, reasons, FailClosed(config.value));
      StoreNotes(told, generation, reasons, FailClosed(config.value));
      ContinueGoesOn(Store(told, generation, reasons, FailClosed(config.value)), generation);
    }
  }

  lemma CaughtAnswers(s: Service, generation: nat, reasons: set<string>, config: Option<Config>, onError: Listeners)
    requires !s.loop.Idle? && generation <= s.requested && !s.disposed && !onError.throws && DisposeService !in onError.calls
    ensures Answered(s, Catch(s, generation, reasons, config, onError), generation,
                     if s.snapshot.None? && config.Some? then Resolved(FailClosed(config.value)) else Rejected)
  {
    hide Catch, ToldOf, Continue, Store, Settle, PublishedOf, Answered;
    var told := ToldOf(s, generation, reasons, onError);
    CatchIs(s, generation, reasons, config, onError);
    ToldGoesOn(s, generation, reasons, onError);
    SettleAnswers(told, generation, Rejected);
    AnsweredOf(s, told, Settle(told, generation, generation, Rejected), generation, Rejected);
    if config.Some? {
      var snapshot := FailClosed(config.value);
      var stored := Store(told, generation, reasons, snapshot);
      StoreAnswers(told, generation, reasons, snapshot);
      AnsweredOf(s, told, stored, generation, Resolved(snapshot));
      ContinueGoesOn(stored, generation);
      GoesOnAnswers(s, stored, generation, Resolved(snapshot), Continue(stored));
    }
    EndedAnswers(s, Settle(told, generation, generation, Rejected), generation, Rejected);
  }

  lemma EndedAnswers(s: Service, next: Service, generation: nat, verdict: Verdict<Snapshot>)
    ensures Answered(s, next, generation, verdict) ==> Answered(s, next.(loop := Threw), generation, verdict)
  {
  }

  /**
   * A failing round publishes only if nothing was published before, the configuration was read and the error
   * listeners return: the fail-closed snapshot of that configuration. Otherwise the snapshot stays as it is.
   */
  lemma FailingRoundPublishes(s: Service, onChange: Listeners, onError: Listeners)
    requires Reachable(s) && Running(s.loop) && !s.disposed
    ensures var next := Resume(s, AwaitFailed, onChange, onError);
            var first := PublishedOf(s.history) == [] && !s.loop.ReadingConfig? && !onError.throws;
            && Failed(s.loop.generation, s.loop.reasons) in next.history
            && PublishedOf(next.history) == PublishedOf(s.history) + (if first then [FailClosed(s.loop.config)] else [])
            && next.snapshot == (if first then Some(FailClosed(s.loop.config)) else s.snapshot)
  {
    ReachableInv(s);
    FailedResume(s, onChange, onError);
    hide Resume, Catch, PublishedOf, Reachable, Ledger, AnswersLatest;
    CaughtPublishes(s, s.loop.generation, s.loop.reasons, ConfigOf(s.loop), onError);
  }

  /**
   * With error listeners that return and do not dispose the service, each waiter of a failing round is rejected if
   * there is a snapshot or no configuration was read, and resolved with the fail-closed snapshot otherwise.
   */
  lemma FailingRoundAnswers(s: Service, onChange: Listeners, onError: Listeners)
    requires Reachable(s) && Running(s.loop) && !s.disposed && !onError.throws && DisposeService !in onError.calls
    ensures Answered(s, Resume(s, AwaitFailed, onChange, onError), s.loop.generation,
                     if s.snapshot.Some? || s.loop.ReadingConfig? then Rejected else Resolved(FailClosed(s.loop.config)))
  {
    ReachableInv(s);
    FailedResume(s, onChange, onError);
    hide Resume, Catch, Reachable, Books, Answered;
    CaughtAnswers(s, s.loop.generation, s.loop.reasons, ConfigOf(s.loop), onError);
  }

  lemma AcceptIs(s: Service, generation: nat, reasons: set<string>, config: Config, overlay: string,
                 onChange: Listeners, onError: Listeners)
    ensures var snapshot := Snapshot(config.builtinRevision, overlay);
            var stored := Store(s, generation, reasons, snapshot);
            var told := Emit(stored, onChange);
            Accept(s, generation, reasons, config, overlay, onChange, onError)
            == if s.snapshot == Some(snapshot) then Continue(Settle(s, generation, generation, Resolved(snapshot)))
               else if s.snapshot.None? then Continue(stored)
               else if onChange.throws then Catch(told, generation, reasons, Some(config), onError)
               else Continue(told)
  {
    hide Emit, Continue, Store, Settle, Catch;
  }

  /** What is known once the result stands and its waiters have it. */
  ghost predicate Stands(s: Service, next: Service, generation: nat, snapshot: Snapshot, published: seq<Snapshot>) {
    next.snapshot == Some(snapshot) && Answered(s, next, generation, Resolved(snapshot)) && PublishedOf(next.history) == published
  }

  lemma StandsLater(s: Service, next: Service, generation: nat, snapshot: Snapshot, published: seq<Snapshot>, later: Service)
    requires Stands(s, next, generation, snapshot, published) && GoesOn(next, later, generation)
    ensures Stands(s, later, generation, snapshot, published)
  {
    hide Answered;
    GoesOnAnswers(s, next, generation, Resolved(snapshot), later);
  }

  lemma CatchGoesOn(s: Service, generation: nat, reasons: set<string>, config: Option<Config>, onError: Listeners)
    requires !s.loop.Idle? && generation <= s.requested && s.snapshot.Some?
    ensures GoesOn(s, Catch(s, generation, reasons, config, onError), generation)
  {
    hide Emit, Settle, GoesOn, Store, Continue;
    var told := ToldOf(s, generation, reasons, onError);
    ToldGoesOn(s, generation, reasons, onError);
    KeepsSnapshot(s, told, generation);
    SettledGoesOn(told, generation);
    GoesOnTwice(s, told, Settle(told, generation, generation, Rejected), generation);
    EndedGoesOn(s, told, generation);
    EndedGoesOn(s, Settle(told, generation, generation, Rejected), generation);
  }

  lemma KeepsSnapshot(s: Service, next: Service, generation: nat)
    requires GoesOn(s, next, generation)
    ensures next.snapshot == s.snapshot
  {
  }

  lemma SettledGoesOn(s: Service, generation: nat)
    ensures GoesOn(s, Settle(s, generation, generation, Rejected), generation)
  {
    SettleAnswers(s, generation, Rejected);
    SplitWaiters(s.waiters, generation);
    hide Kept, Taken;
  }

  lemma EndedGoesOn(s: Service, next: Service, generation: nat)
    ensures GoesOn(s, next, generation) ==> GoesOn(s, next.(loop := Threw), generation)
  {
  }

  lemma EmitGoesOn(s: Service, listeners: Listeners, generation: nat)
    requires !s.loop.Idle? && generation <= s.requested
    ensures GoesOn(s, Emit(s, listeners), generation)
    ensures !Emit(s, listeners).loop.Idle? && generation <= Emit(s, listeners).requested
  {
    MakeGoesOn(s, listeners.calls, generation);
    NothingGoesOn(s, generation);
    MakeRuns(s, listeners.calls);
    hide GoesOn, Make;
  }

  lemma {:induction false} MakeRuns(s: Service, calls: seq<Call>)
    requires !s.loop.Idle?
    ensures Make(s, calls).loop == s.loop && s.requested <= Make(s, calls).requested
    decreases |calls|
  {
    if calls != [] {
      MakeRuns(if calls[0].DisposeService? then Dispose(s) else if s.disposed then s else Request(s, calls[0].reason), calls[1..]);
    }
  }

  lemma AcceptStands(s: Service, generation: nat, reasons: set<string>, config: Config, overlay: string,
                     onChange: Listeners, onError: Listeners)
    requires !s.loop.Idle? && generation <= s.requested
    ensures var snapshot := Snapshot(config.builtinRevision, overlay);
            var next := Accept(s, generation, reasons, config, overlay, onChange, onError);
            && Stands(s, next, generation, snapshot, PublishedOf(s.history) + (if s.snapshot == Some(snapshot) then [] else [snapshot]))
            && (s.snapshot != Some(snapshot) ==> Published(snapshot, reasons) in next.history)
  {
    var snapshot := Snapshot(config.builtinRevision, overlay);
    var published := PublishedOf(s.history) + (if s.snapshot == Some(snapshot) then [] else [snapshot]);
    AcceptIs(s, generation, reasons, config, overlay, onChange, onError);
    NothingMore(PublishedOf(s.history), []);
    hide Accept, Continue, Store, Settle, Emit, Catch, GoesOn, PublishedOf, Answered;
    if s.snapshot == Some(snapshot) {
      var settled := Settle(s, generation, generation, Resolved(snapshot));
      SettleAnswers(s, generation, Resolved(snapshot));
      SettleFrame(s, generation, generation, Resolved(snapshot));
      ContinueGoesOn(settled, generation);
      StandsLater(s, settled, generation, snapshot, published, Continue(settled));
    } else {
      var stored := Store(s, generation, reasons, snapshot);
      StoreAnswers(s, generation, reasons, snapshot);
      StoreFrame(s, generation, reasons, snapshot);
      StoreNotes(s, generation, reasons, snapshot);
      AcceptedGoesOn(stored, generation, reasons, config, onChange, onError);
      var next := Accept(s, generation, reasons, config, overlay, onChange, onError);
      StandsLater(s, stored, generation, snapshot, published, next);
      EventsGoOn(stored, next, generation);
    }
  }

  /** However a stored round goes on, its snapshot stands. */
  lemma AcceptedGoesOn(stored: Service, generation: nat, reasons: set<string>, config: Config, onChange: Listeners, onError: Listeners)
    requires !stored.loop.Idle? && generation <= stored.requested && stored.snapshot.Some?
    ensures var told := Emit(stored, onChange);
            && GoesOn(stored, Continue(stored), generation) && GoesOn(stored, Continue(told), generation)
            && GoesOn(stored, Catch(told, generation, reasons, Some(config), onError), generation)
  {
    hide Emit, Continue, Catch, GoesOn;
    var told := Emit(stored, onChange);
    ContinueGoesOn(stored, generation);
    EmitGoesOn(stored, onChange, generation);
    KeepsSnapshot(stored, told, generation);
    ContinueGoesOn(told, generation);
    GoesOnTwice(stored, told, Continue(told), generation);
    CatchGoesOn(told, generation, reasons, Some(config), onError);
    GoesOnTwice(stored, told, Catch(told, generation, reasons, Some(config), onError), generation);
  }

  /**
   * A resolution nothing has overtaken, under one built-in revision before and after: it is the snapshot afterwards,
   * every waiter got it, and it is published exactly when it differs from the snapshot before. Whatever listeners do.
   */
  lemma AcceptedRoundPublishes(s: Service, config: Config, onChange: Listeners, onError: Listeners)
    requires Reachable(s) && !s.disposed && s.loop.Rechecking? && s.pendingReasons == {}
    requires config.builtinRevision == s.loop.config.builtinRevision
    ensures var next := Resume(s, ConfigRead(config), onChange, onError);
            var snapshot := Snapshot(config.builtinRevision, s.loop.overlay);
            && next.snapshot == Some(snapshot)
            && Answered(s, next, s.requested, Resolved(snapshot))
            && PublishedOf(next.history) == PublishedOf(s.history) + (if s.snapshot == Some(snapshot) then [] else [snapshot])
            && (s.snapshot != Some(snapshot) ==> Published(snapshot, s.loop.reasons) in next.history)
  {
    ReachableInv(s);
    hide Accept, Reachable, Books, PublishedOf, Answered;
    AcceptStands(s, s.loop.generation, s.loop.reasons, s.loop.config, s.loop.overlay, onChange, onError);
  }

  lemma {:induction false} MakeAsks(s: Service, calls: seq<Call>)
    requires !s.disposed && DisposeService !in calls
    ensures Make(s, calls).requested == s.requested + |calls| && !Make(s, calls).disposed
    decreases |calls|
  {
    if calls != [] {
      assert calls == [calls[0]] + calls[1..];
      MakeAsks(Request(s, calls[0].reason), calls[1..]);
    }
  }

  lemma CatchAsks(s: Service, generation: nat, reasons: set<string>, config: Option<Config>, onError: Listeners)
    requires !s.disposed && DisposeService !in onError.calls
    ensures Catch(s, generation, reasons, config, onError).requested == s.requested + |onError.calls|
  {
    var failed := s.(history := s.history + [Failed(generation, reasons)]);
    MakeAsks(failed, onError.calls);
    var told := Make(failed, onError.calls);
    hide Make, Taken, Kept, Settlement;
  }

  /**
   * Change listeners are told of every publication after the first that a round accepts, error listeners of every
   * failure, and nobody of anything else: what they ask for is what is requested during the step.
   */
  lemma ListenersAreTold(s: Service, result: AwaitResult, onChange: Listeners, onError: Listeners)
    requires Fits(s.loop, result) && !s.disposed && DisposeService !in onChange.calls && DisposeService !in onError.calls
    ensures var accepts := s.loop.Rechecking? && result.ConfigRead? && s.pendingReasons == {}
                           && result.config.builtinRevision == s.loop.config.builtinRevision;
            var changes := accepts && s.snapshot.Some? && s.snapshot != Some(Snapshot(result.config.builtinRevision, s.loop.overlay));
            Resume(s, result, onChange, onError).requested
            == s.requested + (if changes then |onChange.calls| else 0)
               + (if result.AwaitFailed? || (changes && onChange.throws) then |onError.calls| else 0)
  {
    var generation, reasons := s.loop.generation, s.loop.reasons;
    CatchAsks(s, generation, reasons, ConfigOf(s.loop), onError);
    if s.loop.Rechecking? && result.ConfigRead? {
      AcceptAsks(s, generation, reasons, s.loop.config, s.loop.overlay, onChange, onError);
    }
    hide Catch, Accept;
  }

  lemma AcceptAsks(s: Service, generation: nat, reasons: set<string>, config: Config, overlay: string,
                   onChange: Listeners, onError: Listeners)
    requires !s.disposed && DisposeService !in onChange.calls && DisposeService !in onError.calls
    ensures var changes := s.snapshot.Some? && s.snapshot != Some(Snapshot(config.builtinRevision, overlay));
            Accept(s, generation, reasons, config, overlay, onChange, onError).requested
            == s.requested + (if changes then |onChange.calls| + (if onChange.throws then |onError.calls| else 0) else 0)
  {
    hide Catch, Make, Taken, Kept, Settlement;
    var stored := Store(s, generation, reasons, Snapshot(config.builtinRevision, overlay));
    MakeAsks(stored, onChange.calls);
    CatchAsks(Make(stored, onChange.calls), generation, reasons, Some(config), onError);
  }

  /**
   * A disposed service publishes nothing it resolved and tells nobody. A round that ends without a snapshot, after its
   * configuration was read, leaves the fail-closed one behind; no new loop is started.
   */
  lemma DisposedServiceFailsClosed(s: Service, step: Step)
    requires Reachable(s) && s.disposed && CanStep(s, step)
    ensures var next := Next(s, step);
            var ends := step.ResumeStep? && !s.loop.ReadingConfig?;
            && next.disposed && next.requested == s.requested && next.waiters == []
            && next.snapshot == (if ends && s.snapshot.None? then Some(FailClosed(s.loop.config)) else s.snapshot)
            && (step.FinishStep? ==> next.loop.Idle?)
  {
    ReachableInv(s);
    if step.ResumeStep? {
      CatchDisposed(s, s.loop.generation, s.loop.reasons, ConfigOf(s.loop), step.onError);
    }
    hide Books, Catch, Accept, Reachable;
  }

  lemma CatchDisposed(s: Service, generation: nat, reasons: set<string>, config: Option<Config>, onError: Listeners)
    requires s.disposed && s.waiters == []
    ensures var next := Catch(s, generation, reasons, config, onError);
            && next.disposed && next.requested == s.requested && next.waiters == []
            && next.snapshot == if s.snapshot.None? && config.Some? then Some(FailClosed(config.value)) else s.snapshot
  {
    assert Taken([], generation) == [] && Kept([], generation) == [];
    hide Make;
  }

  lemma {:induction false} ExecuteOneMore(s: Service, steps: seq<Step>, step: Step)
    requires Execute(s, steps).Some? && CanStep(Execute(s, steps).value, step)
    ensures Execute(s, steps + [step]) == Some(Next(Execute(s, steps).value, step))
    decreases |steps|
  {
    hide Next, CanStep;
    if steps == [] {
      assert (steps + [step])[1..] == [];
      assert steps + [step] == [step];
    } else {
      assert (steps + [step])[1..] == steps[1..] + [step];
      ExecuteOneMore(Next(s, steps[0]), steps[1..], step);
    }
  }

  lemma ReachableNext(s: Service, step: Step)
    requires Reachable(s) && CanStep(s, step)
    ensures Reachable(Next(s, step))
  {
    hide Next, CanStep;
    var steps :| Execute(FRESH, steps) == Some(s);
    ExecuteOneMore(FRESH, steps, step);
  }

  /**
   * A whole round that nothing comes between: the configuration, the overlay resolved for it, and a second reading under
   * the same built-in revision. What is published is the overlay, under the revision read first.
   */
  lemma QuietRoundPublishes(s: Service, config: Config, overlay: string, again: Config, onChange: Listeners, onError: Listeners)
    requires Reachable(s) && !s.disposed && s.loop.ReadingConfig? && s.pendingReasons == {}
    requires again.builtinRevision == config.builtinRevision
    ensures var resolving := Resume(s, ConfigRead(config), onChange, onError);
            && Fits(resolving.loop, OverlayResolved(overlay))
            && var rechecking := Resume(resolving, OverlayResolved(overlay), onChange, onError);
            && Fits(rechecking.loop, ConfigRead(again))
            && var next := Resume(rechecking, ConfigRead(again), onChange, onError);
            && next.snapshot == Some(Snapshot(config.builtinRevision, overlay))
            && Answered(s, next, s.requested, Resolved(Snapshot(config.builtinRevision, overlay)))
  {
    var first, second := ResumeStep(ConfigRead(config), onChange, onError), ResumeStep(OverlayResolved(overlay), onChange, onError);
    ReachableNext(s, first);
    var resolving := Next(s, first);
    ReachableNext(resolving, second);
    var rechecking := Next(resolving, second);
    AcceptedRoundPublishes(rechecking, again, onChange, onError);
    hide Reachable, Accept, Catch;
    AnsweredOf(s, rechecking, Resume(rechecking, ConfigRead(again), onChange, onError), s.requested,
               Resolved(Snapshot(config.builtinRevision, overlay)));
  }

  /** Failing at any later point instead, the same round falls back on the configuration it read. */
  lemma FailingRoundRemembers(s: Service, config: Config, overlay: string, resolved: bool, onChange: Listeners, onError: Listeners)
    requires Reachable(s) && !s.disposed && s.loop.ReadingConfig? && PublishedOf(s.history) == [] && !onError.throws
    ensures var resolving := Resume(s, ConfigRead(config), onChange, onError);
            && Fits(resolving.loop, OverlayResolved(overlay))
            && var rechecking := Resume(resolving, OverlayResolved(overlay), onChange, onError);
            && var last := if resolved then rechecking else resolving;
            && Fits(last.loop, AwaitFailed)
            && Resume(last, AwaitFailed, onChange, onError).snapshot
               == Some(Snapshot(config.builtinRevision, config.failClosedOverlay))
  {
    var first, second := ResumeStep(ConfigRead(config), onChange, onError), ResumeStep(OverlayResolved(overlay), onChange, onError);
    ReachableNext(s, first);
    var resolving := Next(s, first);
    ReachableNext(resolving, second);
    hide Reachable, Catch, PublishedOf;
    FailingRoundPublishes(if resolved then Next(resolving, second) else resolving, onChange, onError);
  }

  /** The reason is kept for a round to come, or the running round has it. */
  predicate Carries(s: Service, reason: string) {
    reason in s.pendingReasons || (Running(s.loop) && reason in s.loop.reasons)
  }

  lemma {:induction false} MakeCarries(s: Service, calls: seq<Call>, reason: string)
    requires reason in s.pendingReasons && !s.loop.Idle?
    ensures reason in Make(s, calls).pendingReasons
    decreases |calls|
  {
    if calls != [] {
      MakeCarries(if calls[0].DisposeService? then Dispose(s) else if s.disposed then s else Request(s, calls[0].reason), calls[1..], reason);
    }
  }

  lemma EmitCarries(s: Service, listeners: Listeners, reason: string)
    requires reason in s.pendingReasons && !s.loop.Idle?
    ensures reason in Emit(s, listeners).pendingReasons && !Emit(s, listeners).loop.Idle?
  {
    MakeCarries(s, listeners.calls, reason);
    MakeRuns(s, listeners.calls);
    hide Make;
  }

  lemma CatchCarries(s: Service, generation: nat, reasons: set<string>, config: Option<Config>, onError: Listeners, reason: string)
    requires reason in s.pendingReasons && !s.loop.Idle?
    ensures Carries(Catch(s, generation, reasons, config, onError), reason)
  {
    hide Emit, Taken, Kept, Settlement;
    EmitCarries(s.(history := s.history + [Failed(generation, reasons)]), onError, reason);
  }

  lemma AcceptCarries(s: Service, generation: nat, reasons: set<string>, config: Config, overlay: string,
                      onChange: Listeners, onError: Listeners, reason: string)
    requires reason in s.pendingReasons && !s.loop.Idle?
    ensures Carries(Accept(s, generation, reasons, config, overlay, onChange, onError), reason)
  {
    hide Emit, Catch, Taken, Kept, Settlement;
    var stored := Store(s, generation, reasons, Snapshot(config.builtinRevision, overlay));
    EmitCarries(stored, onChange, reason);
    CatchCarries(Emit(stored, onChange), generation, reasons, Some(config), onError, reason);
  }

  /** The reason a request gives is kept until a round begins with it; what an overtaken round began with is dropped. */
  lemma ReasonsReachARound(s: Service, step: Step, reason: string)
    requires CanStep(s, step)
    ensures step == RequestStep(reason) ==> Carries(Next(s, step), reason)
    ensures reason in s.pendingReasons ==> Carries(Next(s, step), reason)
  {
    if step.ResumeStep? && reason in s.pendingReasons {
      CatchCarries(s, s.loop.generation, s.loop.reasons, ConfigOf(s.loop), step.onError, reason);
      if s.loop.Rechecking? && step.result.ConfigRead? {
        AcceptCarries(s, s.loop.generation, s.loop.reasons, s.loop.config, s.loop.overlay, step.onChange, step.onError, reason);
      }
    }
    hide Catch, Accept, Taken, Kept, Settlement;
  }

  // ---------------------------------------------------------------------------------------------
  // The class
  // ---------------------------------------------------------------------------------------------

  class AccountProviderService {
    var requestedGeneration: nat
    var pendingReasons: set<string>
    var refreshWaiters: seq<nat>
    var snapshot: Option<Snapshot>
    var refreshInFlight: Loop
    var disposed: bool
    var history: seq<Event<Snapshot>>

    ghost function State(): Service
      reads this
    {
      Service(requestedGeneration, pendingReasons, refreshWaiters, snapshot, refreshInFlight, disposed, history)
    }

    constructor ()
      ensures State() == FRESH
    {
      requestedGeneration, pendingReasons, refreshWaiters := 0, {}, [];
      snapshot, refreshInFlight, disposed, history := None, Idle, false, [];
    }

    method RequestRefresh(reason: string)
      modifies this
      ensures State() == Request(old(State()), reason)
    {
      var generation := requestedGeneration + 1;
      requestedGeneration := generation;
      pendingReasons := pendingReasons + {reason};
      refreshWaiters := refreshWaiters + [generation];
      history := history + [Requested(generation)];
      if refreshInFlight.Idle? {
        RunRefreshLoop();
      }
    }

    /** The head of the loop: the next round up to its first await, or the end of the loop. */
    method RunRefreshLoop()
      modifies this
      ensures State() == Continue(old(State()))
    {
      if |pendingReasons| > 0 {
        refreshInFlight := ReadingConfig(requestedGeneration, pendingReasons);
        pendingReasons := {};
        history := history + [ReadsBegan(requestedGeneration)];
      } else {
        refreshInFlight := if snapshot.None? then Threw else Returned;
      }
    }

    /** Both settlement loops: the waiters up to a generation, in order, the rest kept. */
    method SettleRefreshWaiters(generation: nat, verdict: Verdict<Snapshot>)
      modifies this`refreshWaiters, this`history
      ensures State() == Settle(old(State()), generation, generation, verdict)
    {
      var remaining: seq<nat> := [];
      var i := 0;
      ghost var waiters, before := refreshWaiters, history;
      ghost var taken: seq<nat> := [];
      hide Kept, Taken, Settlement;
      SettleNothing(waiters, generation, before, generation, verdict);
      while i < |refreshWaiters|
        invariant 0 <= i <= |waiters| && refreshWaiters == waiters
        invariant remaining + Kept(waiters[i..], generation) == Kept(waiters, generation)
        invariant taken + Taken(waiters[i..], generation) == Taken(waiters, generation)
        invariant history == before + Settlement(taken, generation, verdict)
      {
        var waiter := refreshWaiters[i];
        SettleStep(waiters, i, generation, taken, remaining, generation, verdict);
        if waiter <= generation {
          history := history + [Settled(waiter, generation, verdict)];
          taken := taken + [waiter];
        } else {
          remaining := remaining + [waiter];
        }
        i := i + 1;
      }
      SettledAll(waiters, generation, taken, remaining);
      refreshWaiters := remaining;
    }

    method DisposeAll()
      modifies this
      ensures State() == Dispose(old(State()))
    {
      if disposed {
        return;
      }
      disposed := true;
      history := history + Settlement(refreshWaiters, requestedGeneration, Disposed);
      refreshWaiters := [];
    }

    method Tell(listeners: Listeners)
      modifies this
      ensures State() == Emit(old(State()), listeners)
    {
      if disposed {
        return;
      }
      for i := 0 to |listeners.calls|
        invariant Make(State(), listeners.calls[i..]) == Make(old(State()), listeners.calls)
      {
        assert listeners.calls[i..][1..] == listeners.calls[i + 1..];
        match listeners.calls[i]
        case Refresh(reason) =>
          if !disposed {
            RequestRefresh(reason);
          }
        case DisposeService =>
          DisposeAll();
      }
    }

    method StoreSnapshot(generation: nat, reasons: set<string>, next: Snapshot)
      modifies this
      ensures State() == Store(old(State()), generation, reasons, next)
    {
      snapshot := Some(next);
      history := history + [Published(next, reasons)];
      SettleRefreshWaiters(generation, Resolved(next));
    }

    /** The catch block of a round. */
    method CatchRound(generation: nat, reasons: set<string>, config: Option<Config>, onError: Listeners)
      modifies this
      ensures State() == Catch(old(State()), generation, reasons, config, onError)
    {
      history := history + [Failed(generation, reasons)];
      var thrown := !disposed && onError.throws;
      Tell(onError);
      if thrown {
        refreshInFlight := Threw;
        return;
      }
      if snapshot.None? && config.Some? {
        StoreSnapshot(generation, reasons, Snapshot(config.value.builtinRevision, config.value.failClosedOverlay));
        RunRefreshLoop();
        return;
      }
      SettleRefreshWaiters(generation, Rejected);
      refreshInFlight := Threw;
    }

    /** After the second read agreed. */
    method AcceptRound(generation: nat, reasons: set<string>, config: Config, overlay: string,
                       onChange: Listeners, onError: Listeners)
      modifies this
      ensures State() == Accept(old(State()), generation, reasons, config, overlay, onChange, onError)
    {
      var next := Snapshot(config.builtinRevision, overlay);
      if snapshot == Some(next) {
        SettleRefreshWaiters(generation, Resolved(next));
        RunRefreshLoop();
        return;
      }
      var hadSnapshot := snapshot.Some?;
      StoreSnapshot(generation, reasons, next);
      if hadSnapshot {
        Tell(onChange);
        if onChange.throws {
          CatchRound(generation, reasons, Some(config), onError);
          return;
        }
      }
      RunRefreshLoop();
    }

    /** What the round does when the await it is suspended at ends. */
    method ResumeRefreshLoop(result: AwaitResult, onChange: Listeners, onError: Listeners)
      requires Fits(refreshInFlight, result)
      modifies this
      ensures State() == Resume(old(State()), result, onChange, onError)
    {
      match refreshInFlight {
        case ReadingConfig(generation, reasons) =>
          if result.AwaitFailed? {
            CatchRound(generation, reasons, None, onError);
            return;
          }
          refreshInFlight := Resolving(generation, reasons, result.config);
        case Resolving(generation, reasons, config) =>
          if result.AwaitFailed? || disposed {
            CatchRound(generation, reasons, Some(config), onError);
            return;
          }
          refreshInFlight := Rechecking(generation, reasons, config, result.overlay);
        case Rechecking(generation, reasons, config, overlay) =>
          if result.AwaitFailed? || disposed {
            CatchRound(generation, reasons, Some(config), onError);
            return;
          }
          if |pendingReasons| > 0 || result.config.builtinRevision != config.builtinRevision {
            pendingReasons := pendingReasons + {SUPERSEDED};
            RunRefreshLoop();
            return;
          }
          AcceptRound(generation, reasons, config, overlay, onChange, onError);
      }
    }

    /** The handler of the loop promise, the same for both outcomes. */
    method FinishRefresh()
      requires refreshInFlight.Returned? || refreshInFlight.Threw?
      modifies this
      ensures State() == Finish(old(State()))
    {
      refreshInFlight := Idle;
      if disposed || |pendingReasons| == 0 {
        return;
      }
      RunRefreshLoop();
    }
  }
}
