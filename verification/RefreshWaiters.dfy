/**
 * The waiters both refresh services keep, one per requested generation, and the history of a run:
 * requests, rounds starting to read, settlements and publications, in the order they happened.
 */
module RefreshWaiters {
  import opened Outcomes
  import opened Counting

  datatype Verdict<S> = Resolved(snapshot: S) | Rejected | Crashed | Disposed

  datatype Event<S> =
    | Requested(generation: nat)
    | ReadsBegan(generation: nat)
    | Settled(generation: nat, round: nat, verdict: Verdict<S>)
    | Published(snapshot: S, reasons: set<string>)
    | Failed(round: nat, reasons: set<string>)

  /** What a listener may do while it is being told: ask again, dispose the service, and throw at the end. */
  datatype Call = Refresh(reason: string) | DisposeService

  datatype Listeners = Listeners(calls: seq<Call>, throws: bool)

  /** The waiters a round settles, and those it leaves. */
  function Taken(waiters: seq<nat>, generation: nat): seq<nat> {
    if waiters == [] then []
    else (if waiters[0] <= generation then [waiters[0]] else []) + Taken(waiters[1..], generation)
  }

  function Kept(waiters: seq<nat>, generation: nat): seq<nat> {
    if waiters == [] then []
    else (if waiters[0] <= generation then [] else [waiters[0]]) + Kept(waiters[1..], generation)
  }

  function Settlement<S>(taken: seq<nat>, round: nat, verdict: Verdict<S>): (events: seq<Event<S>>)
    ensures |events| == |taken|
    ensures forall k :: 0 <= k < |taken| ==> events[k] == Settled(taken[k], round, verdict)
  {
    seq(|taken|, k requires 0 <= k < |taken| => Settled(taken[k], round, verdict))
  }

  /** The generations settled so far, in order. */
  function SettledOf<S>(history: seq<Event<S>>): seq<nat> {
    if history == [] then []
    else
      var last := history[|history| - 1];
      SettledOf(history[..|history| - 1]) + (if last.Settled? then [last.generation] else [])
  }

  /** Every generation asked for is pending or settled, and exactly once in all. */
  ghost predicate Conserved<S>(requested: nat, waiters: seq<nat>, history: seq<Event<S>>) {
    multiset(SettledOf(history)) + multiset(waiters) == multiset(UpTo(requested))
  }

  /** Generation numbers tell the order of time: a round covers exactly the requests made before its reads. */
  ghost predicate Timeline<S>(requested: nat, history: seq<Event<S>>) {
    && (forall i :: 0 <= i < |history| && (history[i].Requested? || history[i].ReadsBegan?) ==>
          history[i].generation <= requested)
    && (forall i, j :: 0 <= i < |history| && 0 <= j < |history| && history[i].Requested? && history[j].ReadsBegan? ==>
          (i < j <==> history[i].generation <= history[j].generation))
  }

  ghost predicate Asked<S>(requested: nat, history: seq<Event<S>>) {
    forall g :: 1 <= g <= requested ==> Requested(g) in history
  }

  /** A round only answers requests made before it began to read. */
  ghost predicate AnswersFresh<S>(history: seq<Event<S>>) {
    forall k :: 0 <= k < |history| && history[k].Settled? && (history[k].verdict.Resolved? || history[k].verdict.Rejected?) ==>
      && history[k].generation <= history[k].round
      && Requested(history[k].generation) in history[..k]
      && ReadsBegan(history[k].round) in history[..k]
  }

  /** The snapshots published so far, in order. */
  function PublishedOf<S>(history: seq<Event<S>>): seq<S> {
    if history == [] then []
    else
      var last := history[|history| - 1];
      PublishedOf(history[..|history| - 1]) + (if last.Published? then [last.snapshot] else [])
  }

  function Latest<S>(snapshots: seq<S>): Option<S> {
    if snapshots == [] then None else Some(snapshots[|snapshots| - 1])
  }

  /** A request that is resolved gets the latest snapshot published by then. */
  ghost predicate AnswersLatest<S>(history: seq<Event<S>>) {
    forall k :: 0 <= k < |history| && history[k].Settled? && history[k].verdict.Resolved? ==>
      Latest(PublishedOf(history[..k])) == Some(history[k].verdict.snapshot)
  }

  /** All of it, for the fields of a service. */
  ghost predicate Ledger<S>(requested: nat, waiters: seq<nat>, history: seq<Event<S>>) {
    && Conserved(requested, waiters, history)
    && Timeline(requested, history)
    && Asked(requested, history)
    && AnswersFresh(history)
    && (forall k :: 0 <= k < |waiters| ==> 1 <= waiters[k] <= requested)
  }

  lemma {:induction false} SplitWaiters(waiters: seq<nat>, generation: nat)
    ensures multiset(waiters) == multiset(Taken(waiters, generation)) + multiset(Kept(waiters, generation))
    ensures forall g :: g in Taken(waiters, generation) <==> g in waiters && g <= generation
    ensures forall g :: g in Kept(waiters, generation) <==> g in waiters && generation < g
  {
    if waiters != [] {
      SplitWaiters(waiters[1..], generation);
      assert waiters == [waiters[0]] + waiters[1..];
      assert multiset(waiters) == multiset{waiters[0]} + multiset(waiters[1..]);
    }
  }

  lemma {:induction false} SettledAppend<S>(history: seq<Event<S>>, more: seq<Event<S>>)
    ensures SettledOf(history + more) == SettledOf(history) + SettledOf(more)
  {
    if more == [] {
      assert history + more == history;
    } else {
      var n := |more| - 1;
      assert (history + more)[..|history| + n] == history + more[..n];
      SettledAppend(history, more[..n]);
    }
  }

  lemma {:induction false} SettledSettlement<S>(taken: seq<nat>, round: nat, verdict: Verdict<S>)
    ensures SettledOf(Settlement(taken, round, verdict)) == taken
  {
    if taken != [] {
      var n := |taken| - 1;
      assert Settlement(taken, round, verdict)[..n] == Settlement(taken[..n], round, verdict);
      SettledSettlement(taken[..n], round, verdict);
    }
  }

  lemma UpToNext(n: nat)
    ensures UpTo(n + 1) == UpTo(n) + [n + 1]
  {
  }

  lemma FreshAppend<S>(history: seq<Event<S>>, more: seq<Event<S>>)
    requires AnswersFresh(history)
    requires forall k :: 0 <= k < |more| && more[k].Settled? && (more[k].verdict.Resolved? || more[k].verdict.Rejected?) ==>
               more[k].generation <= more[k].round && Requested(more[k].generation) in history && ReadsBegan(more[k].round) in history
    ensures AnswersFresh(history + more)
  {
    var all := history + more;
    forall k | 0 <= k < |all| && all[k].Settled? && (all[k].verdict.Resolved? || all[k].verdict.Rejected?)
      ensures all[k].generation <= all[k].round
      ensures Requested(all[k].generation) in all[..k] && ReadsBegan(all[k].round) in all[..k]
    {
      if k < |history| {
        assert all[..k] == history[..k];
      } else {
        assert history <= all[..k];
        assert forall e :: e in history ==> e in all[..k];
      }
    }
  }

  /** The order of time survives events that are no request, or the next request, or a round beginning now. */
  lemma TimelineAppend<S>(requested: nat, history: seq<Event<S>>, more: seq<Event<S>>, next: nat)
    requires Timeline(requested, history) && Asked(requested, history) && requested <= next
    requires
      || (next == requested && forall k :: 0 <= k < |more| ==> !more[k].Requested? && !more[k].ReadsBegan?)
      || (next == requested && more == [ReadsBegan(requested)])
      || (next == requested + 1 && more == [Requested(next)])
    ensures Timeline(next, history + more) && Asked(next, history + more)
  {
    var all := history + more;
    forall g | 1 <= g <= next ensures Requested(g) in all {
      if g <= requested {
        assert Requested(g) in history;
      } else {
        assert all[|history|] == Requested(g);
      }
    }
    hide Asked;
  }

  /** Events that neither settle, ask nor begin a round leave the ledger alone. */
  lemma NoteKeepsLedger<S>(requested: nat, waiters: seq<nat>, history: seq<Event<S>>, event: Event<S>)
    requires Ledger(requested, waiters, history) && (event.Published? || event.Failed?)
    ensures Ledger(requested, waiters, history + [event])
  {
    SettledAppend(history, [event]);
    FreshAppend(history, [event]);
    TimelineAppend(requested, history, [event], requested);
    assert SettledOf(history) + [] == SettledOf(history);
    hide Timeline, Asked, AnswersFresh;
  }

  lemma RequestKeepsLedger<S>(requested: nat, waiters: seq<nat>, history: seq<Event<S>>)
    requires Ledger(requested, waiters, history)
    ensures Ledger(requested + 1, waiters + [requested + 1], history + [Requested(requested + 1)])
  {
    hide Timeline, Asked, AnswersFresh, Conserved;
    var event: Event<S> := Requested(requested + 1);
    FreshAppend(history, [event]);
    TimelineAppend(requested, history, [event], requested + 1);
    RequestConserves(requested, waiters, history);
  }

  lemma RequestConserves<S>(requested: nat, waiters: seq<nat>, history: seq<Event<S>>)
    requires Conserved(requested, waiters, history)
    ensures Conserved(requested + 1, waiters + [requested + 1], history + [Requested(requested + 1)])
  {
    var event: Event<S> := Requested(requested + 1);
    SettledAppend(history, [event]);
    UpToNext(requested);
    assert SettledOf([event]) == [];
    hide SettledOf;
    assert SettledOf(history) + [] == SettledOf(history);
  }

  lemma BeginKeepsLedger<S>(requested: nat, waiters: seq<nat>, history: seq<Event<S>>)
    requires Ledger(requested, waiters, history)
    ensures Ledger(requested, waiters, history + [ReadsBegan(requested)])
  {
    SettledAppend(history, [ReadsBegan(requested)]);
    FreshAppend(history, [ReadsBegan(requested)]);
    TimelineAppend(requested, history, [ReadsBegan(requested)], requested);
    assert SettledOf(history) + [] == SettledOf(history);
    hide Timeline, Asked, AnswersFresh;
  }

  lemma SettleConserves<S>(requested: nat, waiters: seq<nat>, history: seq<Event<S>>, generation: nat, round: nat, verdict: Verdict<S>)
    requires Conserved(requested, waiters, history)
    ensures Conserved(requested, Kept(waiters, generation), history + Settlement(Taken(waiters, generation), round, verdict))
  {
    var taken := Taken(waiters, generation);
    SplitWaiters(waiters, generation);
    SettledAppend(history, Settlement(taken, round, verdict));
    SettledSettlement(taken, round, verdict);
    hide Taken, Kept, Settlement, SettledOf;
  }

  lemma SettleKeepsLedger<S>(requested: nat, waiters: seq<nat>, history: seq<Event<S>>, generation: nat, round: nat, verdict: Verdict<S>)
    requires Ledger(requested, waiters, history)
    requires verdict.Resolved? || verdict.Rejected? ==> generation == round && ReadsBegan(round) in history
    ensures Ledger(requested, Kept(waiters, generation), history + Settlement(Taken(waiters, generation), round, verdict))
    ensures forall g :: g in Kept(waiters, generation) <==> g in waiters && generation < g
  {
    hide Taken, Kept, Conserved;
    var taken, kept := Taken(waiters, generation), Kept(waiters, generation);
    var events := Settlement(taken, round, verdict);
    SettleConserves(requested, waiters, history, generation, round, verdict);
    SplitWaiters(waiters, generation);
    forall k | 0 <= k < |taken| ensures taken[k] <= generation && Requested(taken[k]) in history {
      assert taken[k] in taken;
    }
    FreshAppend(history, events);
    TimelineAppend(requested, history, events, requested);
    hide Timeline, Asked, AnswersFresh;
    forall k | 0 <= k < |kept| ensures 1 <= kept[k] <= requested {
      assert kept[k] in kept;
    }
  }

  /** What the ledger says: a request is settled at most once, and never while it still waits. */
  lemma SettledOnce<S>(requested: nat, waiters: seq<nat>, history: seq<Event<S>>, g: nat)
    requires Ledger(requested, waiters, history)
    ensures multiset(SettledOf(history))[g] + multiset(waiters)[g] == if 1 <= g <= requested then 1 else 0
  {
    UpToCounts(requested, g);
    assert multiset(UpTo(requested))[g] == (multiset(SettledOf(history)) + multiset(waiters))[g];
  }

  lemma {:induction false} UpToCounts(n: nat, g: nat)
    ensures multiset(UpTo(n))[g] == if 1 <= g <= n then 1 else 0
  {
    if n > 0 {
      UpToCounts(n - 1, g);
      UpToNext(n - 1);
    } else {
      assert UpTo(n) == [];
    }
  }

  lemma {:induction false} PublishedAppend<S>(history: seq<Event<S>>, more: seq<Event<S>>)
    ensures PublishedOf(history + more) == PublishedOf(history) + PublishedOf(more)
  {
    if more == [] {
      assert history + more == history;
    } else {
      var n := |more| - 1;
      assert (history + more)[..|history| + n] == history + more[..n];
      PublishedAppend(history, more[..n]);
    }
  }

  lemma {:induction false} PublishedNothing<S>(events: seq<Event<S>>)
    requires forall k :: 0 <= k < |events| ==> !events[k].Published?
    ensures PublishedOf(events) == []
  {
    if events != [] {
      PublishedNothing(events[..|events| - 1]);
    }
  }

  lemma NothingMore<S>(snapshots: seq<S>, none: seq<S>)
    requires none == []
    ensures snapshots + none == snapshots
  {
  }

  /** Appending events of which none publishes and all that resolve give the latest snapshot. */
  lemma LatestAppend<S>(history: seq<Event<S>>, more: seq<Event<S>>)
    requires AnswersLatest(history)
    requires forall k :: 0 <= k < |more| ==> !more[k].Published?
    requires forall k :: 0 <= k < |more| && more[k].Settled? && more[k].verdict.Resolved? ==>
               Latest(PublishedOf(history)) == Some(more[k].verdict.snapshot)
    ensures AnswersLatest(history + more) && PublishedOf(history + more) == PublishedOf(history)
  {
    hide PublishedOf, Latest;
    var all := history + more;
    PublishedAppend(history, more);
    PublishedNothing(more);
    NothingMore(PublishedOf(history), PublishedOf(more));
    forall k | 0 <= k < |all| && all[k].Settled? && all[k].verdict.Resolved?
      ensures Latest(PublishedOf(all[..k])) == Some(all[k].verdict.snapshot)
    {
      if k < |history| {
        assert all[..k] == history[..k];
      } else {
        assert all[..k] == history + more[..k - |history|];
        PublishedAppend(history, more[..k - |history|]);
        PublishedNothing(more[..k - |history|]);
        NothingMore(PublishedOf(history), PublishedOf(more[..k - |history|]));
      }
    }
  }

  lemma PublishAppend<S>(history: seq<Event<S>>, snapshot: S, reasons: set<string>)
    requires AnswersLatest(history)
    ensures AnswersLatest(history + [Published(snapshot, reasons)])
    ensures PublishedOf(history + [Published(snapshot, reasons)]) == PublishedOf(history) + [snapshot]
  {
    var all := history + [Published(snapshot, reasons)];
    assert all[..|history|] == history;
    forall k | 0 <= k < |all| && all[k].Settled? && all[k].verdict.Resolved?
      ensures Latest(PublishedOf(all[..k])) == Some(all[k].verdict.snapshot)
    {
      assert all[..k] == history[..k];
    }
  }

  /** The ledger together with what was published. */
  ghost predicate Books<S>(requested: nat, waiters: seq<nat>, snapshot: Option<S>, history: seq<Event<S>>) {
    && Ledger(requested, waiters, history)
    && AnswersLatest(history)
    && snapshot == Latest(PublishedOf(history))
  }

  lemma FailKeepsBooks<S>(requested: nat, waiters: seq<nat>, snapshot: Option<S>, history: seq<Event<S>>, round: nat, reasons: set<string>)
    requires Books(requested, waiters, snapshot, history)
    ensures Books(requested, waiters, snapshot, history + [Failed(round, reasons)])
    ensures PublishedOf(history + [Failed(round, reasons)]) == PublishedOf(history)
  {
    NoteKeepsLedger(requested, waiters, history, Failed(round, reasons));
    LatestAppend(history, [Failed(round, reasons)]);
    hide Ledger;
  }

  lemma PublishKeepsBooks<S>(requested: nat, waiters: seq<nat>, before: Option<S>, snapshot: S, history: seq<Event<S>>, reasons: set<string>)
    requires Books(requested, waiters, before, history)
    ensures Books(requested, waiters, Some(snapshot), history + [Published(snapshot, reasons)])
    ensures PublishedOf(history + [Published(snapshot, reasons)]) == PublishedOf(history) + [snapshot]
  {
    NoteKeepsLedger(requested, waiters, history, Published(snapshot, reasons));
    PublishAppend(history, snapshot, reasons);
    hide Ledger;
  }

  lemma RequestKeepsBooks<S>(requested: nat, waiters: seq<nat>, snapshot: Option<S>, history: seq<Event<S>>)
    requires Books(requested, waiters, snapshot, history)
    ensures Books(requested + 1, waiters + [requested + 1], snapshot, history + [Requested(requested + 1)])
    ensures PublishedOf(history + [Requested(requested + 1)]) == PublishedOf(history)
  {
    hide Ledger, AnswersLatest, Latest, PublishedOf;
    RequestKeepsLedger(requested, waiters, history);
    LatestAppend(history, [Requested(requested + 1)]);
  }

  lemma BeginKeepsBooks<S>(requested: nat, waiters: seq<nat>, snapshot: Option<S>, history: seq<Event<S>>)
    requires Books(requested, waiters, snapshot, history)
    ensures Books(requested, waiters, snapshot, history + [ReadsBegan(requested)])
    ensures PublishedOf(history + [ReadsBegan(requested)]) == PublishedOf(history)
  {
    hide Ledger, AnswersLatest, Latest, PublishedOf;
    BeginKeepsLedger(requested, waiters, history);
    LatestAppend(history, [ReadsBegan(requested)]);
  }

  lemma SettleKeepsBooks<S>(requested: nat, waiters: seq<nat>, snapshot: Option<S>, history: seq<Event<S>>,
                            generation: nat, round: nat, verdict: Verdict<S>)
    requires Books(requested, waiters, snapshot, history)
    requires verdict.Resolved? || verdict.Rejected? ==> generation == round && ReadsBegan(round) in history
    requires verdict.Resolved? ==> snapshot == Some(verdict.snapshot)
    ensures Books(requested, Kept(waiters, generation), snapshot, history + Settlement(Taken(waiters, generation), round, verdict))
    ensures PublishedOf(history + Settlement(Taken(waiters, generation), round, verdict)) == PublishedOf(history)
    ensures forall g :: g in Kept(waiters, generation) <==> g in waiters && generation < g
  {
    SettleKeepsLedger(requested, waiters, history, generation, round, verdict);
    LatestAppend(history, Settlement(Taken(waiters, generation), round, verdict));
    hide Ledger, Taken, Kept;
  }

  lemma {:induction false} TakenAll(waiters: seq<nat>, generation: nat)
    requires forall k :: 0 <= k < |waiters| ==> waiters[k] <= generation
    ensures Taken(waiters, generation) == waiters && Kept(waiters, generation) == []
  {
    if waiters != [] {
      TakenAll(waiters[1..], generation);
    }
  }

  /** Disposing rejects every waiter. */
  lemma DisposeKeepsBooks<S>(requested: nat, waiters: seq<nat>, snapshot: Option<S>, history: seq<Event<S>>)
    requires Books(requested, waiters, snapshot, history)
    ensures Books(requested, [], snapshot, history + Settlement(waiters, requested, Disposed))
    ensures PublishedOf(history + Settlement(waiters, requested, Disposed)) == PublishedOf(history)
  {
    TakenAll(waiters, requested);
    SettleKeepsBooks(requested, waiters, snapshot, history, requested, requested, Disposed);
  }

  // What the books say about a run.

  /** No request is settled twice, and none is settled while its waiter is still kept. */
  lemma NoRequestSettledTwice<S>(requested: nat, waiters: seq<nat>, snapshot: Option<S>, history: seq<Event<S>>, g: nat)
    requires Books(requested, waiters, snapshot, history)
    ensures multiset(SettledOf(history))[g] <= 1
    ensures g in SettledOf(history) ==> g !in waiters && 1 <= g <= requested
  {
    SettledOnce(requested, waiters, history, g);
    assert g in SettledOf(history) ==> g in multiset(SettledOf(history));
    assert g in waiters ==> g in multiset(waiters);
  }

  /** Whoever answers a request, with a snapshot or an error, began to read after it was made. */
  lemma AnswerReadsAfterRequest<S>(requested: nat, waiters: seq<nat>, snapshot: Option<S>, history: seq<Event<S>>, k: nat)
    requires Books(requested, waiters, snapshot, history)
    requires k < |history| && history[k].Settled? && (history[k].verdict.Resolved? || history[k].verdict.Rejected?)
    ensures exists i, j :: 0 <= i < j < k && history[i] == Requested(history[k].generation) && history[j] == ReadsBegan(history[k].round)
    ensures forall i, j | 0 <= i < |history| && 0 <= j < |history| ::
              history[i] == Requested(history[k].generation) && history[j] == ReadsBegan(history[k].round) ==> i < j
    ensures history[k].verdict.Resolved? ==>
              Latest(PublishedOf(history[..k])) == Some(history[k].verdict.snapshot)
  {
    var i :| 0 <= i < k && history[..k][i] == Requested(history[k].generation);
    var j :| 0 <= j < k && history[..k][j] == ReadsBegan(history[k].round);
    assert history[i].Requested? && history[j].ReadsBegan?;
  }

  /** One turn of a settlement loop. */
  lemma SettleNothing<S>(waiters: seq<nat>, generation: nat, history: seq<Event<S>>, round: nat, verdict: Verdict<S>)
    ensures waiters[0..] == waiters && history + Settlement([], round, verdict) == history
    ensures [] + Kept(waiters, generation) == Kept(waiters, generation) && [] + Taken(waiters, generation) == Taken(waiters, generation)
  {
  }

  lemma SettledAll(waiters: seq<nat>, generation: nat, taken: seq<nat>, remaining: seq<nat>)
    ensures remaining + Kept(waiters[|waiters|..], generation) == remaining
    ensures taken + Taken(waiters[|waiters|..], generation) == taken
  {
    assert Kept([], generation) == [] && Taken([], generation) == [];
  }

  lemma SettleStep<S>(waiters: seq<nat>, i: nat, generation: nat, taken: seq<nat>, remaining: seq<nat>, round: nat, verdict: Verdict<S>)
    requires i < |waiters|
    ensures var w := waiters[i];
            if w <= generation then
              && taken + Taken(waiters[i..], generation) == taken + [w] + Taken(waiters[i + 1..], generation)
              && Kept(waiters[i..], generation) == Kept(waiters[i + 1..], generation)
              && Settlement(taken + [w], round, verdict) == Settlement(taken, round, verdict) + [Settled(w, round, verdict)]
            else
              && Taken(waiters[i..], generation) == Taken(waiters[i + 1..], generation)
              && remaining + Kept(waiters[i..], generation) == remaining + [w] + Kept(waiters[i + 1..], generation)
  {
    assert waiters[i..][1..] == waiters[i + 1..];
  }
}
