/** The lease and back-off record processes share. */
module RefreshLease {
  // The record lies in a control file, packages/provider-node/src/zcode-builtin-remote-synchronizer.ts. Each body
  // run under the file lock is one step.

  import opened Outcomes
  import opened Powers
  import opened Texts

  /** The record; a missing or unreadable file reads as the empty one. */
  datatype Control = Control(endpoint: Text, lease: Option<nat>, leaseUntil: int, nextEligibleAt: int, failureCount: nat)

  const EMPTY := Control([], None, 0, 0, 0)

  datatype Timing = Timing(successInterval: nat, leaseDuration: nat, failureBase: nat, failureMax: nat)

  datatype Acquisition = LeaseHeld | NotDue | Acquired

  /** How a refresh ended: `true`, `false` or "cancelled" in the source. */
  datatype Ending = Success | Failure | Cancelled

  function Acquire(current: Control, t: Timing, endpoint: Text, force: bool, leaseId: nat, now: int): (Acquisition, Control) {
    var same := current.endpoint == endpoint;
    if same && current.leaseUntil > now then (LeaseHeld, current)
    else if !force && same && current.nextEligibleAt > now then (NotDue, current)
    else
      (Acquired,
       Control(endpoint, Some(leaseId), now + t.leaseDuration,
               if same then current.nextEligibleAt else 0, if same then current.failureCount else 0))
  }

  /** The delay after that many failures in a row. */
  function FailureDelay(t: Timing, failures: nat): nat {
    var delay := t.failureBase * Pow2(if failures == 0 then 0 else failures - 1);
    if delay <= t.failureMax then delay else t.failureMax
  }

  function FailuresAfter(failures: nat, ending: Ending): nat {
    match ending
    case Success => 0
    case Failure => failures + 1
    case Cancelled => failures
  }

  function DelayAfter(t: Timing, failures: nat, ending: Ending): nat {
    match ending
    case Success => t.successInterval
    case Failure => FailureDelay(t, failures + 1)
    case Cancelled => 0
  }

  predicate Holds(current: Control, endpoint: Text, leaseId: nat) {
    current.endpoint == endpoint && current.lease == Some(leaseId)
  }

  function FinishLease(current: Control, t: Timing, endpoint: Text, leaseId: nat, ending: Ending, now: int): Control {
    if !Holds(current, endpoint, leaseId) then current
    else
      Control(endpoint, None, 0, now + DelayAfter(t, current.failureCount, ending), FailuresAfter(current.failureCount, ending))
  }

  // ---------------------------------------------------------------------------------------------
  // Many processes, one file, one clock
  // ---------------------------------------------------------------------------------------------

  /** A process between acquiring and finishing; one that crashes stays here. */
  datatype Holder = Holder(endpoint: Text, until: int)

  /** An ending that changed the record: when, how, and for how long it put the next refresh off. */
  datatype Done = Done(ending: Ending, at: int, delay: nat)

  datatype World = World(now: int, control: Control, holders: map<nat, Holder>, nextLease: nat, done: seq<Done>)

  datatype Step =
    | Tick(later: nat)
    | TryAcquire(endpoint: Text, force: bool)
    | Finish(leaseId: nat, ending: Ending)

  function NewWorld(now: int): World {
    World(now, EMPTY, map[], 0, [])
  }

  /** Lease ids are fresh, as random UUIDs are. */
  function Next(w: World, t: Timing, step: Step): World {
    match step
    case Tick(later) => w.(now := w.now + later)
    case TryAcquire(endpoint, force) =>
      var (result, control) := Acquire(w.control, t, endpoint, force, w.nextLease, w.now);
      if result != Acquired then w
      else
        w.(control := control, nextLease := w.nextLease + 1,
        holders := w.holders[w.nextLease := Holder(endpoint, w.now + t.leaseDuration)])
    case Finish(leaseId, ending) =>
      if leaseId !in w.holders then w
      else
        var endpoint := w.holders[leaseId].endpoint;
        w.(control := FinishLease(w.control, t, endpoint, leaseId, ending, w.now),
        holders := w.holders - {leaseId},
        done := if Holds(w.control, endpoint, leaseId)
                then w.done + [Done(ending, w.now, DelayAfter(t, w.control.failureCount, ending))] else w.done)
  }

  function Execute(w: World, t: Timing, steps: seq<Step>): World
    decreases |steps|
  {
    if steps == [] then w else Execute(Next(w, t, steps[0]), t, steps[1..])
  }

  predicate Live(w: World, leaseId: nat) {
    leaseId in w.holders && w.holders[leaseId].until > w.now
  }

  /** All processes resolve the same, nonempty endpoint. */
  predicate OneEndpoint(endpoint: Text, steps: seq<Step>) {
    endpoint != [] && forall k :: 0 <= k < |steps| && steps[k].TryAcquire? ==> steps[k].endpoint == endpoint
  }

  /** Failures in a row at the end, cancelled refreshes not counted. */
  function Streak(done: seq<Done>): nat {
    if done == [] then 0 else FailuresAfter(Streak(done[..|done| - 1]), done[|done| - 1].ending)
  }

  /** Each recorded delay is the one its streak calls for. */
  predicate DelaysFollow(t: Timing, done: seq<Done>) {
    forall k :: 0 <= k < |done| ==> done[k].delay == DelayAfter(t, Streak(done[..k]), done[k].ending)
  }

  /** What every run keeps, whatever the endpoints. */
  ghost predicate Inv(w: World) {
    && (forall id :: id in w.holders ==> id < w.nextLease)
    && (w.control.lease.Some? ==> w.control.lease.value < w.nextLease)
    && (forall id :: id in w.holders && w.control.lease == Some(id) ==>
          w.holders[id] == Holder(w.control.endpoint, w.control.leaseUntil))
  }

  /** On one endpoint every live holder is the recorded one. */
  ghost predicate Exclusive(w: World, endpoint: Text) {
    && (w.control == EMPTY || w.control.endpoint == endpoint)
    && (w.control == EMPTY ==> w.holders == map[])
    && (forall id :: id in w.holders ==> w.holders[id].endpoint == endpoint)
    && (forall id: nat :: Live(w, id) ==> w.control.lease == Some(id))
  }

  /** The record sums up the endings so far. */
  ghost predicate Summed(w: World, t: Timing) {
    && w.control.failureCount == Streak(w.done)
    && DelaysFollow(t, w.done)
    && (w.control == EMPTY ==> w.done == [])
    && (w.done == [] ==> w.control.nextEligibleAt == 0)
    && (w.done != [] ==> w.control.nextEligibleAt == w.done[|w.done| - 1].at + w.done[|w.done| - 1].delay)
  }

  ghost predicate InvOne(w: World, t: Timing, endpoint: Text) {
    Inv(w) && Exclusive(w, endpoint) && Summed(w, t)
  }

  lemma NextKeepsInv(w: World, t: Timing, step: Step)
    requires Inv(w)
    ensures Inv(Next(w, t, step))
  {
  }

  lemma DoneOneMore(t: Timing, done: seq<Done>, one: Done)
    requires DelaysFollow(t, done) && one.delay == DelayAfter(t, Streak(done), one.ending)
    ensures DelaysFollow(t, done + [one]) && Streak(done + [one]) == FailuresAfter(Streak(done), one.ending)
  {
    var more := done + [one];
    assert more[..|done|] == done;
    forall k | 0 <= k < |more|
      ensures more[k].delay == DelayAfter(t, Streak(more[..k]), more[k].ending)
    {
      if k < |done| {
        assert more[..k] == done[..k];
      }
    }
  }

  lemma NextKeepsExclusive(w: World, t: Timing, endpoint: Text, step: Step)
    requires Inv(w) && Exclusive(w, endpoint) && endpoint != [] && (step.TryAcquire? ==> step.endpoint == endpoint)
    ensures Exclusive(Next(w, t, step), endpoint)
  {
    hide DelayAfter, FailuresAfter;
    var v := Next(w, t, step);
    forall id: nat | Live(v, id)
      ensures v.control.lease == Some(id)
    {
      assert id in w.holders ==> Live(w, id);
    }
  }

  lemma AcquireKeepsSummed(w: World, t: Timing, endpoint: Text, force: bool)
    requires Summed(w, t) && (w.control == EMPTY || w.control.endpoint == endpoint) && endpoint != []
    ensures Summed(Next(w, t, TryAcquire(endpoint, force)), t)
  {
    assert Streak([]) == 0;
    hide DelaysFollow, Streak;
  }

  lemma FinishKeepsSummed(w: World, t: Timing, leaseId: nat, ending: Ending)
    requires Summed(w, t) && leaseId in w.holders && Holds(w.control, w.holders[leaseId].endpoint, leaseId)
    requires w.control.endpoint != []
    ensures Summed(Next(w, t, Finish(leaseId, ending)), t)
  {
    DoneOneMore(t, w.done, Done(ending, w.now, DelayAfter(t, w.control.failureCount, ending)));
    hide DelaysFollow, Streak, DelayAfter, FailuresAfter;
  }

  lemma NextKeepsSummed(w: World, t: Timing, endpoint: Text, step: Step)
    requires Inv(w) && Exclusive(w, endpoint) && Summed(w, t) && endpoint != []
    requires step.TryAcquire? ==> step.endpoint == endpoint
    ensures Summed(Next(w, t, step), t)
  {
    match step
    case Tick(later) =>
    case TryAcquire(e, force) => AcquireKeepsSummed(w, t, e, force);
    case Finish(leaseId, ending) =>
      if leaseId in w.holders && Holds(w.control, w.holders[leaseId].endpoint, leaseId) {
        FinishKeepsSummed(w, t, leaseId, ending);
      }
  }

  lemma NextKeepsInvOne(w: World, t: Timing, endpoint: Text, step: Step)
    requires InvOne(w, t, endpoint) && endpoint != [] && (step.TryAcquire? ==> step.endpoint == endpoint)
    ensures InvOne(Next(w, t, step), t, endpoint)
  {
    NextKeepsInv(w, t, step);
    NextKeepsExclusive(w, t, endpoint, step);
    NextKeepsSummed(w, t, endpoint, step);
    hide Next, Inv, Exclusive, Summed;
  }

  lemma {:induction false} ExecuteKeepsInvOne(w: World, t: Timing, endpoint: Text, steps: seq<Step>)
    requires InvOne(w, t, endpoint) && OneEndpoint(endpoint, steps)
    ensures InvOne(Execute(w, t, steps), t, endpoint)
    decreases |steps|
  {
    if steps != [] {
      NextKeepsInvOne(w, t, endpoint, steps[0]);
      assert forall k :: 0 <= k < |steps[1..]| ==> steps[1..][k] == steps[k + 1];
      ExecuteKeepsInvOne(Next(w, t, steps[0]), t, endpoint, steps[1..]);
    }
  }

  /** Among any number of processes on one endpoint, at most one holds an unexpired lease at a time. */
  lemma AtMostOneLiveLease(start: int, t: Timing, endpoint: Text, steps: seq<Step>, a: nat, b: nat)
    requires OneEndpoint(endpoint, steps)
    requires var w := Execute(NewWorld(start), t, steps); Live(w, a) && Live(w, b)
    ensures a == b
  {
    ExecuteKeepsInvOne(NewWorld(start), t, endpoint, steps);
  }

  // Two live leases on one endpoint, in runs with any endpoints

  /** The step gives a lease to a process that asks for another endpoint while this one is held. */
  predicate Displaces(w: World, t: Timing, step: Step, id: nat) {
    && id in w.holders && step.TryAcquire? && step.endpoint != w.holders[id].endpoint
    && Next(w, t, step).nextLease != w.nextLease
  }

  /** During the run some step displaced it. */
  ghost predicate Displaced(start: nat, t: Timing, steps: seq<Step>, id: nat) {
    exists k :: 0 <= k < |steps| && Displaces(Execute(NewWorld(start), t, steps[..k]), t, steps[k], id)
  }

  lemma {:induction false} ExecuteConcat(w: World, t: Timing, front: seq<Step>, back: seq<Step>)
    ensures Execute(w, t, front + back) == Execute(Execute(w, t, front), t, back)
    decreases |front|
  {
    if front == [] {
      assert front + back == back;
    } else {
      assert (front + back)[1..] == front[1..] + back;
      ExecuteConcat(Next(w, t, front[0]), t, front[1..], back);
    }
  }

  lemma ExecuteOneMore(w: World, t: Timing, steps: seq<Step>, k: nat)
    requires k < |steps|
    ensures Execute(w, t, steps[..k + 1]) == Next(Execute(w, t, steps[..k]), t, steps[k])
  {
    assert steps[..k + 1] == steps[..k] + [steps[k]];
    ExecuteConcat(w, t, steps[..k], [steps[k]]);
    var u := Execute(w, t, steps[..k]);
    assert Execute(u, t, [steps[k]]) == Execute(Next(u, t, steps[k]), t, []);
  }

  lemma {:induction false} ExecuteKeepsInv(w: World, t: Timing, steps: seq<Step>)
    requires Inv(w) && Recorded(w)
    ensures Inv(Execute(w, t, steps)) && Recorded(Execute(w, t, steps))
    decreases |steps|
  {
    if steps != [] {
      NextKeepsInv(w, t, steps[0]);
      NextKeepsRecorded(w, t, steps[0]);
      ExecuteKeepsInv(Next(w, t, steps[0]), t, steps[1..]);
    }
  }

  /** The clock is past its origin, an unexpired record names a holder, and the lease recorded is the latest one given. */
  ghost predicate Recorded(w: World) {
    && w.now >= 0 && (w.control.leaseUntil > 0 ==> w.control.lease.Some?)
    && (w.control.lease.Some? ==> w.control.lease.value in w.holders && w.control.lease.value == w.nextLease - 1)
  }

  lemma NextKeepsRecorded(w: World, t: Timing, step: Step)
    requires Inv(w) && Recorded(w)
    ensures Recorded(Next(w, t, step))
  {
    hide DelayAfter, FailuresAfter;
  }

  /** A live lease drops out of the record exactly when it is displaced. */
  lemma NextDisplaces(w: World, t: Timing, step: Step, id: nat)
    requires Inv(w) && Live(Next(w, t, step), id) && id in w.holders
    ensures Next(w, t, step).control.lease != Some(id) <==> w.control.lease != Some(id) || Displaces(w, t, step, id)
    ensures Live(w, id)
  {
    hide DelayAfter, FailuresAfter;
  }

  /** Over every run, whatever the endpoints: a live lease is recorded exactly unless it was displaced. */
  lemma {:induction false} DisplacedExactlyWhen(start: nat, t: Timing, steps: seq<Step>, id: nat)
    requires Live(Execute(NewWorld(start), t, steps), id)
    ensures Execute(NewWorld(start), t, steps).control.lease != Some(id) <==> Displaced(start, t, steps, id)
    decreases |steps|
  {
    if steps != [] {
      var n := |steps| - 1;
      var front := steps[..n];
      var w := Execute(NewWorld(start), t, front);
      ExecuteOneMore(NewWorld(start), t, steps, n);
      assert steps[..n + 1] == steps;
      ExecuteKeepsInv(NewWorld(start), t, front);
      hide Execute, Displaces;
      if id in w.holders {
        NextDisplaces(w, t, steps[n], id);
        DisplacedExactlyWhen(start, t, front, id);
      } else {
        GrantedNow(w, t, steps[n], id);
        NotYetHeld(start, t, front, id);
      }
      DisplacedOneMore(start, t, steps, id);
    }
  }

  lemma DisplacedOneMore(start: nat, t: Timing, steps: seq<Step>, id: nat)
    requires steps != []
    ensures var n := |steps| - 1;
            Displaced(start, t, steps, id) <==>
              Displaced(start, t, steps[..n], id) || Displaces(Execute(NewWorld(start), t, steps[..n]), t, steps[n], id)
  {
    hide Execute, Displaces;
    var n := |steps| - 1;
    var front := steps[..n];
    assert forall k :: 0 <= k < n ==> front[..k] == steps[..k] && front[k] == steps[k];
    forall k | 0 <= k < n
      ensures Displaces(Execute(NewWorld(start), t, front[..k]), t, front[k], id)
         <==> Displaces(Execute(NewWorld(start), t, steps[..k]), t, steps[k], id)
    {
    }
  }

  /** A lease that appears is the next one, and recorded. */
  lemma GrantedNow(w: World, t: Timing, step: Step, id: nat)
    requires id !in w.holders && id in Next(w, t, step).holders
    ensures id == w.nextLease && Next(w, t, step).control.lease == Some(id) && !Displaces(w, t, step, id)
  {
  }

  /** Before it is given a lease is not displaced. */
  lemma {:induction false} NotYetHeld(start: nat, t: Timing, steps: seq<Step>, id: nat)
    requires id >= Execute(NewWorld(start), t, steps).nextLease
    ensures !Displaced(start, t, steps, id)
    decreases |steps|
  {
    if steps != [] {
      var n := |steps| - 1;
      var w := Execute(NewWorld(start), t, steps[..n]);
      ExecuteOneMore(NewWorld(start), t, steps, n);
      assert steps[..n + 1] == steps;
      ExecuteKeepsInv(NewWorld(start), t, steps[..n]);
      assert w.nextLease <= Next(w, t, steps[n]).nextLease;
      NotYetHeld(start, t, steps[..n], id);
      DisplacedOneMore(start, t, steps, id);
    }
  }

  /** A later lease than this one is live, on the same endpoint. */
  ghost predicate Doubled(w: World, id: nat) {
    exists other: nat :: other > id && Live(w, other) && Live(w, id) && w.holders[other].endpoint == w.holders[id].endpoint
  }

  /**
   * The exact condition for mutual exclusion, over every run with any endpoints: while a lease is live, a refresh
   * forced on its own endpoint ends with a second live one there exactly when another endpoint was given a lease
   * in between, so that the record no longer names the first.
   */
  lemma SecondLeaseExactlyWhen(start: nat, t: Timing, steps: seq<Step>, id: nat)
    requires t.leaseDuration > 0 && Live(Execute(NewWorld(start), t, steps), id)
    ensures var w := Execute(NewWorld(start), t, steps);
            && (w.control.lease != Some(id) <==> Displaced(start, t, steps, id))
            && (Doubled(w, id) ==> Displaced(start, t, steps, id))
            && (Doubled(Next(w, t, TryAcquire(w.holders[id].endpoint, true)), id) <==> Displaced(start, t, steps, id))
  {
    DisplacedExactlyWhen(start, t, steps, id);
    ExecuteKeepsInv(NewWorld(start), t, steps);
    hide Execute, Displaced;
    SecondLease(Execute(NewWorld(start), t, steps), t, id);
  }

  lemma SecondLease(w: World, t: Timing, id: nat)
    requires Inv(w) && Recorded(w) && t.leaseDuration > 0 && Live(w, id)
    ensures Doubled(Next(w, t, TryAcquire(w.holders[id].endpoint, true)), id) <==> w.control.lease != Some(id)
    ensures Doubled(w, id) ==> w.control.lease != Some(id)
  {
    var endpoint := w.holders[id].endpoint;
    var v := Next(w, t, TryAcquire(endpoint, true));
    if w.control.lease != Some(id) {
      if v == w {
        var other := w.control.lease.value;
        assert Live(v, other) && other > id;
      } else {
        assert Live(v, w.nextLease) && v.holders[w.nextLease].endpoint == endpoint;
      }
    }
  }

  /** It does happen: a second endpoint in between, and the first endpoint has two live leases. */
  lemma OneEndpointTwoLeases(start: nat, t: Timing, first: Text, second: Text)
    requires first != second && first != [] && second != [] && t.leaseDuration > 0
    ensures var w := Execute(NewWorld(start), t, [TryAcquire(first, false), TryAcquire(second, false), TryAcquire(first, false)]);
            Doubled(w, 0) && w.holders[0].endpoint == first
  {
    var steps := [TryAcquire(first, false), TryAcquire(second, false), TryAcquire(first, false)];
    ExecuteOneMore(NewWorld(start), t, steps, 0);
    ExecuteOneMore(NewWorld(start), t, steps, 1);
    ExecuteOneMore(NewWorld(start), t, steps, 2);
    assert steps[..0] == [] && steps[..3] == steps;
    assert Live(Execute(NewWorld(start), t, steps), 2);
  }

  /** With two endpoints there are two live leases at once: the condition is needed. */
  lemma TwoEndpointsTwoLeases(start: int, t: Timing, first: Text, second: Text)
    requires first != second && first != [] && second != [] && t.leaseDuration > 0
    ensures var w := Execute(NewWorld(start), t, [TryAcquire(first, false), TryAcquire(second, false)]);
            Live(w, 0) && Live(w, 1)
  {
    var steps := [TryAcquire(first, false), TryAcquire(second, false)];
    var w1 := Next(NewWorld(start), t, steps[0]);
    assert Live(w1, 0) && w1.control.endpoint == first && w1.nextLease == 1;
    var w2 := Next(w1, t, steps[1]);
    assert Live(w2, 0) && Live(w2, 1);
    assert steps[1..] == [steps[1]] && steps[1..][1..] == [];
    assert Execute(w1, t, steps[1..]) == Execute(w2, t, []);
  }

  // ---------------------------------------------------------------------------------------------
  // A replaced holder
  // ---------------------------------------------------------------------------------------------

  /** A lease that is not the recorded one never becomes it again. */
  lemma {:induction false} ReplacedForGood(w: World, t: Timing, steps: seq<Step>, id: nat)
    requires id < w.nextLease && w.control.lease != Some(id)
    ensures Execute(w, t, steps).control.lease != Some(id)
    decreases |steps|
  {
    if steps != [] {
      ReplacedForGood(Next(w, t, steps[0]), t, steps[1..], id);
    }
  }

  /** So a holder whose lease was replaced changes nothing when it finishes, however much later and however it ends. */
  lemma ReplacedHolderChangesNothing(w: World, t: Timing, steps: seq<Step>, id: nat, ending: Ending)
    requires id < w.nextLease && w.control.lease != Some(id)
    ensures var v := Execute(w, t, steps); Next(v, t, Finish(id, ending)).control == v.control
  {
    ReplacedForGood(w, t, steps, id);
  }

  // ---------------------------------------------------------------------------------------------
  // Back-off
  // ---------------------------------------------------------------------------------------------

  lemma ScaledGrows(base: nat, p: nat, q: nat)
    requires p <= q
    ensures base * p <= base * q
  {
  }

  /** More failures never shorten the delay, and it never exceeds the maximum. */
  lemma DelayGrows(t: Timing, m: nat, n: nat)
    requires m <= n
    ensures FailureDelay(t, m) <= FailureDelay(t, n) <= t.failureMax
  {
    var p, q := if m == 0 then 0 else m - 1, if n == 0 then 0 else n - 1;
    Pow2Grows(p, q);
    ScaledGrows(t.failureBase, Pow2(p), Pow2(q));
  }

  /** No ending from `i` up to `j` succeeded. */
  predicate NoSuccess(done: seq<Done>, i: nat, j: nat) {
    forall k :: i <= k < j && k < |done| ==> !done[k].ending.Success?
  }

  lemma {:induction false} StreakGrows(done: seq<Done>, i: nat, j: nat)
    requires i <= j <= |done| && NoSuccess(done, i, j)
    ensures Streak(done[..i]) <= Streak(done[..j])
    decreases j
  {
    if i < j {
      StreakGrows(done, i, j - 1);
      assert done[..j][..j - 1] == done[..j - 1] && done[..j][j - 1] == done[j - 1];
    }
  }

  /** No ending before `j` is a failure, or each is followed by a success before `j`. */
  ghost predicate FreshAt(done: seq<Done>, j: nat) {
    forall k :: 0 <= k < j && k < |done| && done[k].ending.Failure? ==> SuccessBetween(done, k, j)
  }

  ghost predicate SuccessBetween(done: seq<Done>, i: nat, j: nat) {
    exists k :: i < k < j && k < |done| && done[k].ending.Success?
  }

  predicate OnlyCancelled(done: seq<Done>, i: nat, j: nat) {
    forall k :: i < k < j && k < |done| ==> done[k].ending.Cancelled?
  }

  lemma {:induction false} StreakIsOver(done: seq<Done>, j: nat)
    requires j <= |done| && FreshAt(done, j)
    ensures Streak(done[..j]) == 0
    decreases j
  {
    if j > 0 {
      assert done[..j][..j - 1] == done[..j - 1] && done[..j][j - 1] == done[j - 1];
      if done[j - 1].ending.Failure? {
        assert false;
      } else if done[j - 1].ending.Cancelled? {
        forall k | 0 <= k < j - 1 && done[k].ending.Failure?
          ensures SuccessBetween(done, k, j - 1)
        {
          assert SuccessBetween(done, k, j);
        }
        StreakIsOver(done, j - 1);
      }
    }
  }

  lemma {:induction false} StreakPauses(done: seq<Done>, i: nat, j: nat)
    requires i < j <= |done| && done[i].ending.Failure? && OnlyCancelled(done, i, j)
    ensures Streak(done[..j]) == Streak(done[..i]) + 1
    decreases j
  {
    assert done[..j][..j - 1] == done[..j - 1] && done[..j][j - 1] == done[j - 1];
    if i < j - 1 {
      StreakPauses(done, i, j - 1);
    }
  }

  lemma FirstDelay(t: Timing)
    ensures FailureDelay(t, 1) == if t.failureBase <= t.failureMax then t.failureBase else t.failureMax
  {
    assert Pow2(0) == 1;
  }

  lemma NextDelay(t: Timing, n: nat)
    requires n > 0
    ensures var d := FailureDelay(t, n); FailureDelay(t, n + 1) == if 2 * d <= t.failureMax then 2 * d else t.failureMax
  {
    assert Pow2(n) == 2 * Pow2(n - 1);
    assert t.failureBase * Pow2(n) == 2 * (t.failureBase * Pow2(n - 1));
  }

  /** Over every run on one endpoint: a failure that continues no earlier one waits the base delay, or the maximum if that is less. */
  lemma BackOffStarts(start: int, t: Timing, endpoint: Text, steps: seq<Step>, j: nat)
    requires OneEndpoint(endpoint, steps)
    requires var done := Execute(NewWorld(start), t, steps).done; j < |done| && done[j].ending.Failure? && FreshAt(done, j)
    ensures var done := Execute(NewWorld(start), t, steps).done;
            done[j].delay == if t.failureBase <= t.failureMax then t.failureBase else t.failureMax
  {
    ExecuteKeepsInvOne(NewWorld(start), t, endpoint, steps);
    var done := Execute(NewWorld(start), t, steps).done;
    hide Execute, FailureDelay;
    StreakIsOver(done, j);
    FirstDelay(t);
  }

  /** And each further failure waits twice as long as the one before it, up to the maximum; a cancelled refresh changes nothing. */
  lemma BackOffDoubles(start: int, t: Timing, endpoint: Text, steps: seq<Step>, i: nat, j: nat)
    requires OneEndpoint(endpoint, steps)
    requires var done := Execute(NewWorld(start), t, steps).done;
             i < j < |done| && done[i].ending.Failure? && done[j].ending.Failure? && OnlyCancelled(done, i, j)
    ensures var done := Execute(NewWorld(start), t, steps).done;
            done[j].delay == if 2 * done[i].delay <= t.failureMax then 2 * done[i].delay else t.failureMax
  {
    ExecuteKeepsInvOne(NewWorld(start), t, endpoint, steps);
    hide Execute, NewWorld;
    DoublesIn(t, Execute(NewWorld(start), t, steps).done, i, j);
  }

  lemma DoublesIn(t: Timing, done: seq<Done>, i: nat, j: nat)
    requires DelaysFollow(t, done) && i < j < |done| && OnlyCancelled(done, i, j)
    requires done[i].ending.Failure? && done[j].ending.Failure?
    ensures done[j].delay == if 2 * done[i].delay <= t.failureMax then 2 * done[i].delay else t.failureMax
  {
    hide FailureDelay;
    StreakPauses(done, i, j);
    NextDelay(t, Streak(done[..i]) + 1);
  }

  /** A success puts the next refresh off by the regular interval, a cancelled one not at all. */
  lemma OtherDelays(start: int, t: Timing, endpoint: Text, steps: seq<Step>, j: nat)
    requires OneEndpoint(endpoint, steps) && j < |Execute(NewWorld(start), t, steps).done|
    ensures var done := Execute(NewWorld(start), t, steps).done;
            && (done[j].ending.Success? ==> done[j].delay == t.successInterval)
            && (done[j].ending.Cancelled? ==> done[j].delay == 0)
  {
    ExecuteKeepsInvOne(NewWorld(start), t, endpoint, steps);
  }

  /** Over every run on one endpoint: from failure to failure without a success between the delay does not shrink, and it is capped. */
  lemma BackOffGrows(start: int, t: Timing, endpoint: Text, steps: seq<Step>, i: nat, j: nat)
    requires OneEndpoint(endpoint, steps)
    requires var done := Execute(NewWorld(start), t, steps).done;
             i < j < |done| && done[i].ending.Failure? && done[j].ending.Failure? && NoSuccess(done, i, j)
    ensures var done := Execute(NewWorld(start), t, steps).done; done[i].delay <= done[j].delay <= t.failureMax
  {
    ExecuteKeepsInvOne(NewWorld(start), t, endpoint, steps);
    var done := Execute(NewWorld(start), t, steps).done;
    hide Execute, FailureDelay;
    StreakGrows(done, i, j);
    DelayGrows(t, Streak(done[..i]) + 1, Streak(done[..j]) + 1);
  }

  /** A lease recorded as unexpired is a live one. */
  lemma RecordedIsLive(w: World)
    requires Inv(w) && Recorded(w) && w.control.leaseUntil > w.now
    ensures w.control.lease.Some? && Live(w, w.control.lease.value)
  {
  }

  /**
   * Over every run on one endpoint: a process gets the lease exactly when no lease is live and, unless it forces the
   * refresh, the delay of the last ending is over.
   */
  lemma AcquiredExactlyWhen(start: nat, t: Timing, endpoint: Text, steps: seq<Step>, force: bool)
    requires OneEndpoint(endpoint, steps)
    ensures var w := Execute(NewWorld(start), t, steps);
            Next(w, t, TryAcquire(endpoint, force)).nextLease == w.nextLease + 1 <==>
              && (forall id :: id in w.holders ==> !Live(w, id))
              && (force || w.done == [] || w.now >= w.done[|w.done| - 1].at + w.done[|w.done| - 1].delay)
  {
    ExecuteKeepsInvOne(NewWorld(start), t, endpoint, steps);
    ExecuteKeepsInv(NewWorld(start), t, steps);
    var w := Execute(NewWorld(start), t, steps);
    hide Execute, DelaysFollow, Streak;
    if w.control.leaseUntil > w.now {
      RecordedIsLive(w);
    }
  }

  /**
   * Over runs with any endpoints: one the record does not name gets the lease at once, live leases and delays or not.
   * It owes nothing to the failures before: its own first one waits the base delay, and a holder that crashes only
   * keeps it waiting for the lease.
   */
  lemma OtherEndpointStartsOver(start: nat, t: Timing, steps: seq<Step>, endpoint: Text, force: bool, later: nat, again: bool)
    requires Execute(NewWorld(start), t, steps).control.endpoint != endpoint
    ensures var w := Execute(NewWorld(start), t, steps);
            var held := Next(Next(w, t, TryAcquire(endpoint, force)), t, Tick(later));
            var failed := Next(held, t, Finish(w.nextLease, Failure));
            && held.nextLease == w.nextLease + 1 && held.control.endpoint == endpoint
            && failed.control.failureCount == 1
            && failed.control.nextEligibleAt == held.now + (if t.failureBase <= t.failureMax then t.failureBase else t.failureMax)
            && (Next(held, t, TryAcquire(endpoint, again)).nextLease == held.nextLease + 1 <==> later >= t.leaseDuration)
  {
    ExecuteKeepsInv(NewWorld(start), t, steps);
    FirstDelay(t);
    hide Execute, FailureDelay;
  }

  // ---------------------------------------------------------------------------------------------
  // The objects
  // ---------------------------------------------------------------------------------------------

  class ControlFile {
    var control: Control

    constructor ()
      ensures control == EMPTY
    {
      control := EMPTY;
    }
  }

  datatype Refresh = Disposed | Joined | EmptyEndpoint | Skipped(reason: Acquisition) | Holding(leaseId: nat)

  /** One process's synchronizer; its file may be shared with others. */
  class ZCodeBuiltinRemoteSynchronizer {
    const file: ControlFile
    const timing: Timing
    /** The endpoint and lease of the refresh in flight. */
    var inFlight: Option<(Text, nat)>
    var disposed: bool

    constructor (file: ControlFile, timing: Timing)
      ensures this.file == file && this.timing == timing && inFlight == None && !disposed
    {
      this.file, this.timing, inFlight, disposed := file, timing, None, false;
    }

    /** The first half of a refresh: the body under the lock, with a fresh lease id and the trimmed endpoint. */
    method Begin(endpoint: Text, force: bool, leaseId: nat, now: int) returns (r: Refresh)
      modifies this`inFlight, file
      ensures disposed || old(inFlight).Some? || endpoint == [] ==>
                && r == (if disposed then Disposed else if old(inFlight).Some? then Joined else EmptyEndpoint)
                && file.control == old(file.control) && inFlight == old(inFlight)
      ensures !(disposed || old(inFlight).Some? || endpoint == []) ==>
                var (result, control) := Acquire(old(file.control), timing, endpoint, force, leaseId, now);
                && file.control == control
                && r == (if result == Acquired then Holding(leaseId) else Skipped(result))
                && inFlight == (if result == Acquired then Some((endpoint, leaseId)) else None)
    {
      if disposed {
        return Disposed;
      }
      if inFlight.Some? {
        return Joined;
      }
      if endpoint == [] {
        return EmptyEndpoint;
      }
      var current := file.control;
      var sameEndpoint := current.endpoint == endpoint;
      if sameEndpoint && current.leaseUntil > now {
        return Skipped(LeaseHeld);
      }
      if !force && sameEndpoint && current.nextEligibleAt > now {
        return Skipped(NotDue);
      }
      file.control := Control(endpoint, Some(leaseId), now + timing.leaseDuration,
                              if sameEndpoint then current.nextEligibleAt else 0,
                              if sameEndpoint then current.failureCount else 0);
      inFlight := Some((endpoint, leaseId));
      r := Holding(leaseId);
    }

    /**
     * The second half. The fetch succeeds or throws, then the endpoint is read again or reading it throws: a
     * synchronizer disposed by then cancels. A changed endpoint counts as a success, otherwise the application of
     * the release decides, and disposal during a failing one cancels.
     */
    method End(fetched: bool, currentEndpoint: Option<Text>, applied: bool, disposedByThen: bool, disposedLater: bool, now: int)
      requires inFlight.Some?
      modifies this`inFlight, file
      ensures inFlight == None
      ensures var (endpoint, leaseId) := old(inFlight).value;
              var read := fetched && currentEndpoint.Some?;
              var ending := EndingOf(disposed || disposedByThen, read, read && currentEndpoint.value != endpoint, applied, disposedLater);
              file.control == FinishLease(old(file.control), timing, endpoint, leaseId, ending, now)
    {
      var (endpoint, leaseId) := inFlight.value;
      if disposed || disposedByThen {
        Release(endpoint, leaseId, Cancelled, now);
      } else if !fetched || currentEndpoint.None? {
        Release(endpoint, leaseId, Failure, now);
      } else if currentEndpoint.value != endpoint {
        Release(endpoint, leaseId, Success, now);
      } else if applied {
        Release(endpoint, leaseId, Success, now);
      } else {
        Release(endpoint, leaseId, if disposedLater then Cancelled else Failure, now);
      }
      inFlight := None;
    }

    method Release(endpoint: Text, leaseId: nat, ending: Ending, now: int)
      modifies file
      ensures file.control == FinishLease(old(file.control), timing, endpoint, leaseId, ending, now)
    {
      var current := file.control;
      if current.endpoint != endpoint || current.lease != Some(leaseId) {
        return;
      }
      var failureCount := if ending == Cancelled then current.failureCount
                          else if ending == Success then 0 else current.failureCount + 1;
      var delay := if ending == Cancelled then 0
                   else if ending == Success then timing.successInterval else FailureDelay(timing, failureCount);
      file.control := Control(endpoint, None, 0, now + delay, failureCount);
    }

    method Dispose()
      modifies this`disposed
      ensures disposed
    {
      disposed := true;
    }
  }

  /** Disposal before the application cancels whatever else happened; after it, only a failure. */
  function EndingOf(disposedByThen: bool, read: bool, endpointChanged: bool, applied: bool, disposedLater: bool): (ending: Ending)
    ensures ending.Success? <==> !disposedByThen && read && (endpointChanged || applied)
    ensures ending.Failure? <==> !disposedByThen && !(read && (endpointChanged || applied || disposedLater))
  {
    if disposedByThen then Cancelled
    else if !read then Failure
    else if endpointChanged || applied then Success
    else if disposedLater then Cancelled
    else Failure
  }
}
