/** Bundled and active release files. */
module BuiltinSource {
  // packages/provider-node/src/zcode-builtin-provider-config-source.ts: each body run under the lock of the
  // active file is one step.

  import opened Outcomes
  import opened Texts

  /** A decoded release; `content` is its canonical serialization. */
  datatype Release = Release(revision: nat, content: Text)

  /** What reading a release file yields: no file, an undecodable one, or a release. */
  datatype Candidate = Missing | Broken | Valid(release: Release)

  datatype Applied = Updated | Unchanged | Stale

  datatype SourceError = NoRelease | SameRevisionOtherContent(revision: nat) | SourceDisposed

  /** `selectReleaseCandidate`: at equal revisions the bundled content wins, otherwise the newer release. */
  function Select(bundled: Candidate, active: Candidate): Result<Release, SourceError> {
    if bundled.Valid? && active.Valid? && bundled.release.revision == active.release.revision
       && bundled.release != active.release
    then Ok(bundled.release)
    else
      match (bundled, active)
      case (Valid(b), Valid(a)) => Ok(if a.revision > b.revision then a else b)
      case (Valid(b), _) => Ok(b)
      case (_, Valid(a)) => Ok(a)
      case _ => Err(NoRelease)
  }

  /** A process: whether its bundled file is the active file itself, and what its own bundled file holds. */
  datatype Process = Process(sharesFile: bool, bundled: Candidate)

  /** The two candidates a process sees under the lock. */
  function Seen(p: Process, active: Candidate): (Candidate, Candidate) {
    if p.sharesFile then (active, Missing) else (p.bundled, active)
  }

  /** `#readAndMaterializeLocked`: the selected release, which replaces the active file if that says otherwise. */
  function ReadLocked(p: Process, active: Candidate): (Result<Release, SourceError>, Candidate) {
    var (bundled, cached) := Seen(p, active);
    var selected := Select(bundled, cached);
    (selected, if selected.Ok? && !p.sharesFile && active != Valid(selected.value) then Valid(selected.value) else active)
  }

  /** `applyRemoteRelease` under the lock. */
  function ApplyLocked(p: Process, active: Candidate, remote: Release): (Result<Applied, SourceError>, Candidate) {
    var (current, materialized) := ReadLocked(p, active);
    if current.Err? then (Err(current.error), materialized)
    else if remote.revision < current.value.revision then (Ok(Stale), materialized)
    else if remote.revision == current.value.revision then
      (if remote == current.value then Ok(Unchanged) else Err(SameRevisionOtherContent(remote.revision)), materialized)
    else (Ok(Updated), Valid(remote))
  }

  // ---------------------------------------------------------------------------------------------
  // Runs
  // ---------------------------------------------------------------------------------------------

  datatype Step = Read(process: Process) | Apply(process: Process, remote: Release)

  /** The active file, and every release a locked read returned. */
  datatype World = World(active: Candidate, results: seq<Release>)

  function Next(w: World, step: Step): World {
    match step
    case Read(p) =>
      var (result, active) := ReadLocked(p, w.active);
      World(active, if result.Ok? then w.results + [result.value] else w.results)
    case Apply(p, remote) =>
      var (result, active) := ApplyLocked(p, w.active, remote);
      var (current, _) := ReadLocked(p, w.active);
      World(active, if current.Ok? then w.results + [current.value] else w.results)
  }

  function Execute(w: World, steps: seq<Step>): World
    decreases |steps|
  {
    if steps == [] then w else Execute(Next(w, steps[0]), steps[1..])
  }

  /** The revision of a candidate; less than any release's if there is none. */
  function RevisionOf(c: Candidate): int {
    if c.Valid? then c.release.revision else -1
  }

  /** A locked read is at least as new as both files, is one of the two, and prefers the bundled content. */
  lemma ReadIsNewest(p: Process, active: Candidate)
    ensures var (bundled, cached) := Seen(p, active);
            var (result, after) := ReadLocked(p, active);
            && (result.Err? <==> !bundled.Valid? && !cached.Valid?)
            && (result.Ok? ==> result.value.revision >= RevisionOf(bundled) && result.value.revision >= RevisionOf(active))
            && (result.Ok? ==> bundled == Valid(result.value) || cached == Valid(result.value))
            && (result.Ok? ==> after == Valid(result.value))
            && (result.Ok? && bundled.Valid? && result.value.revision == bundled.release.revision ==> result.value == bundled.release)
            && (result.Err? ==> after == active)
  {
  }

  /** The revision of the active file never goes back, and what was readable stays readable. */
  lemma StepNeverGoesBack(w: World, step: Step)
    ensures RevisionOf(Next(w, step).active) >= RevisionOf(w.active)
    ensures w.active.Valid? ==> Next(w, step).active.Valid?
  {
  }

  lemma {:induction false} RunNeverGoesBack(w: World, steps: seq<Step>)
    ensures RevisionOf(Execute(w, steps).active) >= RevisionOf(w.active)
    ensures w.active.Valid? ==> Execute(w, steps).active.Valid?
    decreases |steps|
  {
    if steps != [] {
      StepNeverGoesBack(w, steps[0]);
      RunNeverGoesBack(Next(w, steps[0]), steps[1..]);
    }
  }

  /** The reads so far do not go back, and none is newer than the active file. */
  ghost predicate Ordered(w: World) {
    && (forall i, j :: 0 <= i < j < |w.results| ==> w.results[i].revision <= w.results[j].revision)
    && (forall i :: 0 <= i < |w.results| ==> w.results[i].revision <= RevisionOf(w.active))
  }

  lemma NextKeepsOrder(w: World, step: Step)
    requires Ordered(w)
    ensures Ordered(Next(w, step))
  {
    ReadIsNewest(step.process, w.active);
    StepNeverGoesBack(w, step);
    var v := Next(w, step);
    assert |v.results| > |w.results| ==> v.results[|w.results|].revision >= RevisionOf(w.active);
    assert |v.results| > |w.results| ==> v.results[|w.results|].revision <= RevisionOf(v.active);
  }

  lemma {:induction false} ExecuteKeepsOrder(w: World, steps: seq<Step>)
    requires Ordered(w)
    ensures Ordered(Execute(w, steps))
    decreases |steps|
  {
    if steps != [] {
      NextKeepsOrder(w, steps[0]);
      ExecuteKeepsOrder(Next(w, steps[0]), steps[1..]);
    }
  }

  /**
   * Over every interleaving of reads and applications by processes with different bundled files, from any
   * file, damaged ones included: no locked read is older than an earlier one, whichever process made it.
   */
  lemma ReadsNeverGoBack(active: Candidate, steps: seq<Step>, i: nat, j: nat)
    requires i < j < |Execute(World(active, []), steps).results|
    ensures var results := Execute(World(active, []), steps).results; results[i].revision <= results[j].revision
  {
    ExecuteKeepsOrder(World(active, []), steps);
  }

  /** A remote release is taken up exactly when it is newer than what the process reads under the lock. */
  lemma UpdatedExactlyWhenNewer(p: Process, active: Candidate, remote: Release)
    ensures var (bundled, cached) := Seen(p, active);
            var (result, after) := ApplyLocked(p, active, remote);
            && (result == Ok(Updated) <==> (bundled.Valid? || cached.Valid?)
                                           && remote.revision > RevisionOf(bundled) && remote.revision > RevisionOf(cached))
            && (result == Ok(Updated) ==> after == Valid(remote))
            && (result != Ok(Updated) ==> after == ReadLocked(p, active).1)
  {
  }

  /** Older than one of the two files. */
  predicate Older(p: Process, active: Candidate, remote: Release) {
    var (bundled, cached) := Seen(p, active);
    remote.revision < RevisionOf(bundled) || remote.revision < RevisionOf(cached)
  }

  /** The content in force at its revision: the bundled one, or else the cached one. */
  predicate InForce(p: Process, active: Candidate, remote: Release) {
    var (bundled, cached) := Seen(p, active);
    if RevisionOf(bundled) == remote.revision then bundled == Valid(remote) else cached == Valid(remote)
  }

  /** What a remote release is taken for: stale, unchanged, in conflict with the content in force, or nothing to compare with. */
  lemma JudgedExactlyWhen(p: Process, active: Candidate, remote: Release)
    ensures var (bundled, cached) := Seen(p, active);
            var result := ApplyLocked(p, active, remote).0;
            var same := RevisionOf(bundled) == remote.revision || RevisionOf(cached) == remote.revision;
            && (result == Ok(Stale) <==> Older(p, active, remote))
            && (result == Ok(Unchanged) <==> !Older(p, active, remote) && same && InForce(p, active, remote))
            && (result == Err(SameRevisionOtherContent(remote.revision)) <==>
                  !Older(p, active, remote) && same && !InForce(p, active, remote))
            && (result == Err(NoRelease) <==> !bundled.Valid? && !cached.Valid?)
  {
  }

  /** After a read the file holds another content at the same revision. */
  predicate Swapped(p: Process, active: Release) {
    var after := ReadLocked(p, Valid(active)).1;
    after.Valid? && after.release.revision == active.revision && after.release != active
  }

  /** The reader's own bundled file has the active revision and another content. */
  predicate Contests(p: Process, active: Release) {
    !p.sharesFile && p.bundled.Valid? && p.bundled.release.revision == active.revision && p.bundled.release != active
  }

  /** At one revision the content is not settled: a read swaps it exactly when the reader contests it. */
  lemma ContentChangesExactlyWhen(p: Process, active: Release)
    ensures Swapped(p, active) <==> Contests(p, active)
  {
  }

  /** Two processes bundled with the same revision and different contents replace each other's file without end. */
  lemma TwoBundlesAlternate(a: Release, b: Release, rounds: nat)
    requires a.revision == b.revision && a != b
    ensures var pa, pb := Process(false, Valid(a)), Process(false, Valid(b));
            Execute(World(Valid(b), []), Alternating(pa, pb, rounds)).active == Valid(b)
            && (rounds > 0 ==> Next(World(Valid(b), []), Read(pa)).active == Valid(a))
  {
    AlternationReturns(a, b, [], rounds);
  }

  function Alternating(pa: Process, pb: Process, rounds: nat): seq<Step> {
    if rounds == 0 then [] else [Read(pa), Read(pb)] + Alternating(pa, pb, rounds - 1)
  }

  lemma {:induction false} AlternationReturns(a: Release, b: Release, results: seq<Release>, rounds: nat)
    requires a.revision == b.revision && a != b
    ensures var pa, pb := Process(false, Valid(a)), Process(false, Valid(b));
            Execute(World(Valid(b), results), Alternating(pa, pb, rounds)).active == Valid(b)
    decreases rounds
  {
    if rounds > 0 {
      var pa, pb := Process(false, Valid(a)), Process(false, Valid(b));
      hide *;
      OneAlternation(a, b, results);
      AlternatingSteps(World(Valid(b), results), pa, pb, rounds);
      AlternationReturns(a, b, Next(Next(World(Valid(b), results), Read(pa)), Read(pb)).results, rounds - 1);
    } else {
      assert Alternating(Process(false, Valid(a)), Process(false, Valid(b)), rounds) == [];
    }
  }

  lemma AlternatingSteps(w: World, pa: Process, pb: Process, rounds: nat)
    requires rounds > 0
    ensures Execute(w, Alternating(pa, pb, rounds))
         == Execute(Next(Next(w, Read(pa)), Read(pb)), Alternating(pa, pb, rounds - 1))
  {
    hide Next;
    var rest := Alternating(pa, pb, rounds - 1);
    var steps := Alternating(pa, pb, rounds);
    assert steps[0] == Read(pa) && steps[1..] == [Read(pb)] + rest;
    assert steps[1..][0] == Read(pb) && steps[1..][1..] == rest;
    assert Execute(w, steps) == Execute(Next(w, Read(pa)), steps[1..]);
  }

  lemma OneAlternation(a: Release, b: Release, results: seq<Release>)
    requires a.revision == b.revision && a != b
    ensures var w1 := Next(World(Valid(b), results), Read(Process(false, Valid(a))));
            w1.active == Valid(a) && Next(w1, Read(Process(false, Valid(b)))).active == Valid(b)
  {
  }

  // When the file settles

  /** The run consists of reads by these processes. */
  ghost predicate ReadsBy(processes: set<Process>, steps: seq<Step>) {
    forall k :: 0 <= k < |steps| ==> steps[k].Read? && steps[k].process in processes
  }

  ghost predicate EachReads(processes: set<Process>, steps: seq<Step>) {
    forall p :: p in processes ==> Read(p) in steps
  }

  /** Whatever the processes read from here on, the file stays as it is. */
  ghost predicate Settled(processes: set<Process>, w: World) {
    forall more :: ReadsBy(processes, more) ==> Execute(w, more).active == w.active
  }

  predicate BundledAt(p: Process, revision: int) {
    !p.sharesFile && p.bundled.Valid? && p.bundled.release.revision == revision
  }

  /** Those bundled with this revision are bundled with the same release. */
  ghost predicate Agree(processes: set<Process>, revision: int) {
    forall p, q :: p in processes && q in processes && BundledAt(p, revision) && BundledAt(q, revision) ==> p.bundled == q.bundled
  }

  lemma {:induction false} ExecuteConcat(w: World, front: seq<Step>, back: seq<Step>)
    ensures Execute(w, front + back) == Execute(Execute(w, front), back)
    decreases |front|
  {
    if front == [] {
      assert front + back == back;
    } else {
      assert (front + back)[1..] == front[1..] + back;
      ExecuteConcat(Next(w, front[0]), front[1..], back);
    }
  }

  /** Reads that end at a release's revision, by processes that agree on it there, leave it alone. */
  lemma {:induction false} ReadsKeep(processes: set<Process>, w: World, steps: seq<Step>, release: Release)
    requires ReadsBy(processes, steps) && w.active == Valid(release)
    requires RevisionOf(Execute(w, steps).active) == release.revision
    requires forall p :: p in processes && BundledAt(p, release.revision) ==> p.bundled.release == release
    ensures Execute(w, steps).active == w.active
    decreases |steps|
  {
    if steps != [] {
      var v := Next(w, steps[0]);
      RunNeverGoesBack(v, steps[1..]);
      StepNeverGoesBack(w, steps[0]);
      assert steps[0].process in processes;
      assert v.active == w.active;
      assert forall k :: 0 <= k < |steps[1..]| ==> steps[1..][k] == steps[k + 1];
      ReadsKeep(processes, v, steps[1..], release);
    }
  }

  /** Once a process has read, the file is at least as new as its bundle, and is its bundle if only as new. */
  lemma ReadersBundleArrives(processes: set<Process>, w: World, steps: seq<Step>, p: Process)
    requires ReadsBy(processes, steps) && Read(p) in steps && !p.sharesFile && p.bundled.Valid?
    ensures RevisionOf(Execute(w, steps).active) >= p.bundled.release.revision
    ensures Agree(processes, RevisionOf(Execute(w, steps).active)) && BundledAt(p, RevisionOf(Execute(w, steps).active)) ==>
              Execute(w, steps).active == p.bundled
  {
    var k :| 0 <= k < |steps| && steps[k] == Read(p);
    var u := Execute(w, steps[..k]);
    var v := Next(u, steps[k]);
    assert steps == steps[..k] + ([steps[k]] + steps[k + 1..]);
    ExecuteConcat(w, steps[..k], [steps[k]] + steps[k + 1..]);
    assert ([steps[k]] + steps[k + 1..])[1..] == steps[k + 1..];
    assert Execute(w, steps) == Execute(v, steps[k + 1..]);
    ReadIsNewest(p, u.active);
    RunNeverGoesBack(v, steps[k + 1..]);
    var revision := RevisionOf(Execute(w, steps).active);
    if Agree(processes, revision) && BundledAt(p, revision) {
      assert p in processes;
      assert v.active == p.bundled;
      ReadsKeep(processes, v, steps[k + 1..], p.bundled.release);
    }
  }

  /** A read by a process whose bundle is older, or is the file's release, changes nothing. */
  lemma {:induction false} NothingNewKeeps(processes: set<Process>, w: World, more: seq<Step>)
    requires ReadsBy(processes, more)
    requires forall p :: p in processes && !p.sharesFile && p.bundled.Valid? ==>
               w.active.Valid? && (p.bundled.release.revision < w.active.release.revision || p.bundled == w.active)
    ensures Execute(w, more).active == w.active
    decreases |more|
  {
    if more != [] {
      var v := Next(w, more[0]);
      assert more[0].process in processes;
      assert v.active == w.active;
      assert forall k :: 0 <= k < |more[1..]| ==> more[1..][k] == more[k + 1];
      NothingNewKeeps(processes, v, more[1..]);
    }
  }

  /**
   * The exact condition, over every run of reads: once each process has read, the file is settled for good exactly
   * when those bundled with its revision are bundled with the same content.
   */
  lemma SettlesExactlyWhen(processes: set<Process>, active: Candidate, steps: seq<Step>)
    requires ReadsBy(processes, steps) && EachReads(processes, steps)
    ensures var w := Execute(World(active, []), steps);
            Settled(processes, w) <==> Agree(processes, RevisionOf(w.active))
  {
    var w := Execute(World(active, []), steps);
    var revision := RevisionOf(w.active);
    if Agree(processes, revision) {
      forall p | p in processes && !p.sharesFile && p.bundled.Valid?
        ensures w.active.Valid? && (p.bundled.release.revision < w.active.release.revision || p.bundled == w.active)
      {
        ReadersBundleArrives(processes, World(active, []), steps, p);
      }
      forall more | ReadsBy(processes, more)
        ensures Execute(w, more).active == w.active
      {
        NothingNewKeeps(processes, w, more);
      }
    } else {
      var p, q :| p in processes && q in processes && BundledAt(p, revision) && BundledAt(q, revision) && p.bundled != q.bundled;
      var other := if p.bundled == w.active then q else p;
      var more := [Read(other)];
      assert more[1..] == [];
      assert Execute(w, more) == Execute(Next(w, Read(other)), []);
      ReadIsNewest(other, w.active);
      assert ReadsBy(processes, more) && Execute(w, more).active != w.active;
    }
  }

  // ---------------------------------------------------------------------------------------------
  // The objects
  // ---------------------------------------------------------------------------------------------

  class ActiveFile {
    var content: Candidate

    constructor (content: Candidate)
      ensures this.content == content
    {
      this.content := content;
    }
  }

  /** One process's source; the active file may be shared with others, its bundled file is its own. */
  class NodeZCodeBuiltinProviderConfigSource {
    const process: Process
    const file: ActiveFile
    /** The release whose signature was last announced or first read. */
    var observed: Option<Release>
    var disposed: bool

    constructor (process: Process, file: ActiveFile)
      ensures this.process == process && this.file == file && observed == None && !disposed
    {
      this.process, this.file, observed, disposed := process, file, None, false;
    }

    method ReadAndMaterialize() returns (r: Result<Release, SourceError>)
      modifies file
      ensures (r, file.content) == ReadLocked(process, old(file.content))
    {
      var bundled := if process.sharesFile then file.content else process.bundled;
      var active := if process.sharesFile then Missing else file.content;
      var selected := Select(bundled, active);
      if selected.Err? {
        return selected;
      }
      if !process.sharesFile {
        if active != Valid(selected.value) {
          file.content := Valid(selected.value);
        }
      }
      r := selected;
    }

    /** The locked part of `read`; the first release read becomes the observed one. */
    method Read() returns (r: Result<Release, SourceError>)
      modifies this`observed, file
      ensures disposed ==> r == Err(SourceDisposed) && file.content == old(file.content) && observed == old(observed)
      ensures !disposed ==> (r, file.content) == ReadLocked(process, old(file.content))
      ensures !disposed ==> observed == if old(observed).None? && r.Ok? then Some(r.value) else old(observed)
    {
      if disposed {
        return Err(SourceDisposed);
      }
      r := ReadAndMaterialize();
      if r.Ok? && observed.None? {
        observed := Some(r.value);
      }
    }

    method ApplyRemoteRelease(release: Release) returns (r: Result<Applied, SourceError>)
      modifies this`observed, file
      ensures disposed ==> r == Err(SourceDisposed) && file.content == old(file.content) && observed == old(observed)
      ensures !disposed ==> (r, file.content) == ApplyLocked(process, old(file.content), release)
      ensures !disposed ==> observed == if r == Ok(Updated) then Some(release) else old(observed)
    {
      if disposed {
        return Err(SourceDisposed);
      }
      var current := ReadAndMaterialize();
      if current.Err? {
        return Err(current.error);
      }
      if release.revision < current.value.revision {
        return Ok(Stale);
      }
      if release.revision == current.value.revision {
        if release == current.value {
          return Ok(Unchanged);
        }
        return Err(SameRevisionOtherContent(release.revision));
      }
      file.content := Valid(release);
      observed := Some(release);
      r := Ok(Updated);
    }

    /** What a change of the file leads to: listeners hear of a release other than the observed one. */
    method WatchRefresh() returns (announced: bool)
      modifies this`observed, file
      ensures disposed ==> !announced && file.content == old(file.content)
      ensures !disposed ==>
                var (result, after) := ReadLocked(process, old(file.content));
                && file.content == after
                && (announced <==> result.Ok? && old(observed) != Some(result.value))
                && observed == (if result.Ok? then Some(result.value) else old(observed))
    {
      if disposed {
        return false;
      }
      var release := ReadAndMaterialize();
      if release.Err? || observed == Some(release.value) {
        return false;
      }
      observed := Some(release.value);
      announced := true;
    }

    method Dispose()
      modifies this`disposed
      ensures disposed
    {
      disposed := true;
    }
  }
}
