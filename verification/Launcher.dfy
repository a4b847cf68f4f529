/**
 The container launcher: creation of jobs under a mutex and a cap, leases renewed by heartbeats, and a
 sweep that removes jobs whose lease is too old.

 Every action below is one stretch of the program between two awaits, or one effect of Docker.  A Docker
 operation takes effect, if at all, between its request and its reply; a sweep reads the clock and the
 list of containers in one step and works with both until it ends.
 */
module Launcher {
  import opened Wrappers

  const MAX_JOBS: nat := 2
  const LEASE_MILLIS: int := 90_000

  type Id = nat

  /** How far the one request that holds the creation mutex has come. */
  datatype Creation =
    | Idle
    | Reading
    | Counted(jobs: nat)      // the list was taken, its reply not yet handled
    | Requested               // creation asked of Docker, not done yet
    | Created(id: Id)         // done by Docker, reply not yet handled
    | Starting(id: Id)
    | Cleaning(id: Id)

  /** Any other request or sweep under way. */
  datatype Task =
    | Ended
    | SweepListed(now: int, jobs: seq<Id>)
    | SweepRemoving(now: int, id: Id, rest: seq<Id>)
    | BeatListed(id: Id, found: bool)
    | DeleteListed(id: Id, found: bool)
    | DeleteRemoving(id: Id)

  datatype State = State(
    containers: set<Id>,      // labelled containers that Docker knows
    used: set<Id>,            // every identifier Docker ever gave out
    leases: map<Id, int>,
    clock: int,
    creation: Creation,
    tasks: seq<Task>)

  datatype Action =
    | Tick(to: int)
    | Vanish(id: Id)                  // Docker removes a container, whoever asked for it
    | Post
    | PostFails
    | CountJobs
    | CountReply(ok: bool)
    | DockerCreates(id: Id)
    | CreateReply(ok: bool)
    | StartReply(ok: bool)
    | CleanupReply(ok: bool)
    | Beat(id: Id)
    | BeatReply(p: nat)
    | Delete(id: Id)
    | DeleteReply(p: nat)
    | DeleteDone(p: nat, ok: bool)
    | Sweep(order: seq<Id>)
    | SweepReply(p: nat, ok: bool)
    | SweepDone(p: nat, ok: bool)

  // ----- The leases -----

  function DropUnknown(leases: map<Id, int>, known: set<Id>): map<Id, int> {
    map id | id in leases && id in known :: leases[id]
  }

  /** The sweep's loop over its jobs up to the first await: the new leases and the removal asked for. */
  function Visit(leases: map<Id, int>, now: int, jobs: seq<Id>): (r: (map<Id, int>, Option<(Id, seq<Id>)>))
    decreases |jobs|
  {
    if jobs == [] then (leases, None)
    else
      var leases' := if jobs[0] in leases then leases else leases[jobs[0] := now];
      if now - leases'[jobs[0]] > LEASE_MILLIS then (leases', Some((jobs[0], jobs[1..])))
      else Visit(leases', now, jobs[1..])
  }

  /** The `leases` map and the pieces of code that change it without awaiting. */
  class LeaseTable {
    var entries: map<Id, int>

    constructor ()
      ensures entries == map[]
    {
      entries := map[];
    }

    /** The first loop of a sweep. */
    method Forget(known: set<Id>)
      modifies this
      ensures entries == DropUnknown(old(entries), known)
    {
      var keys := entries.Keys;
      while keys != {}
        invariant keys <= entries.Keys <= old(entries).Keys
        invariant forall id :: id in entries ==> entries[id] == old(entries)[id]
        invariant forall id :: id in old(entries) && (id in keys || id in known) ==> id in entries
        invariant forall id :: id in entries && id !in keys ==> id in known
        decreases |keys|
      {
        var id :| id in keys;
        keys := keys - {id};
        if id !in known {
          entries := entries - {id};
        }
      }
    }

    /** The second loop of a sweep, up to the first job whose lease has run out. */
    method VisitJobs(now: int, jobs: seq<Id>) returns (next: Option<(Id, seq<Id>)>)
      modifies this
      ensures (entries, next) == Visit(old(entries), now, jobs)
    {
      var i := 0;
      while i < |jobs|
        invariant 0 <= i <= |jobs|
        invariant Visit(entries, now, jobs[i..]) == Visit(old(entries), now, jobs)
      {
        if jobs[i] !in entries {
          entries := entries[jobs[i] := now];
        }
        assert jobs[i..][0] == jobs[i] && jobs[i..][1..] == jobs[i + 1..];
        if now - entries[jobs[i]] > LEASE_MILLIS {
          return Some((jobs[i], jobs[i + 1..]));
        }
        i := i + 1;
      }
      return None;
    }
  }

  /** What a sweep does between the reply to its list request and its first removal request. */
  method HandleList(table: LeaseTable, now: int, jobs: seq<Id>) returns (next: Option<(Id, seq<Id>)>)
    modifies table
    ensures (table.entries, next) == Visit(DropUnknown(old(table.entries), set id | id in jobs), now, jobs)
  {
    var known := set id | id in jobs;
    table.Forget(known);
    next := table.VisitJobs(now, jobs);
  }

  /** What a sweep does between the reply to one removal request and the next one. */
  method HandleRemoval(table: LeaseTable, now: int, id: Id, rest: seq<Id>) returns (next: Option<(Id, seq<Id>)>)
    modifies table
    ensures (table.entries, next) == Visit(old(table.entries) - {id}, now, rest)
  {
    table.entries := table.entries - {id};
    next := table.VisitJobs(now, rest);
  }

  // ----- The protocol -----

  ghost predicate Lists(s: State, order: seq<Id>) {
    && (forall id :: id in order <==> id in s.containers)
    && Distinct(order)
  }

  ghost predicate Distinct(ids: seq<Id>) {
    forall i, j :: 0 <= i < j < |ids| ==> ids[i] != ids[j]
  }

  ghost predicate Enabled(s: State, a: Action) {
    match a
    case Tick(to) => s.clock <= to
    case Vanish(id) => id in s.containers
    case Post => s.creation.Idle?
    case PostFails => s.creation.Reading?
    case CountJobs => s.creation.Reading?
    case CountReply(_) => s.creation.Counted?
    case DockerCreates(id) => s.creation.Requested? && id !in s.used
    case CreateReply(ok) => s.creation.Created? || (s.creation.Requested? && !ok)
    case StartReply(_) => s.creation.Starting?
    case CleanupReply(ok) => s.creation.Cleaning? && (ok ==> s.creation.id !in s.containers)
    case Beat(_) => true
    case BeatReply(p) => p < |s.tasks| && s.tasks[p].BeatListed?
    case Delete(_) => true
    case DeleteReply(p) => p < |s.tasks| && s.tasks[p].DeleteListed?
    case DeleteDone(p, ok) =>
      p < |s.tasks| && s.tasks[p].DeleteRemoving? && (ok ==> s.tasks[p].id !in s.containers)
    case Sweep(order) => Lists(s, order)
    case SweepReply(p, _) => p < |s.tasks| && s.tasks[p].SweepListed?
    case SweepDone(p, ok) =>
      p < |s.tasks| && s.tasks[p].SweepRemoving? && (ok ==> s.tasks[p].id !in s.containers)
  }

  /** A sweep goes on over `jobs` with the given leases. */
  function GoOn(s: State, p: nat, leases: map<Id, int>, now: int, jobs: seq<Id>): State
    requires p < |s.tasks|
  {
    var (leases', next) := Visit(leases, now, jobs);
    var task := match next case None => Ended case Some((id, rest)) => SweepRemoving(now, id, rest);
    s.(leases := leases', tasks := s.tasks[p := task])
  }

  function Apply(s: State, a: Action): State
    requires Enabled(s, a)
  {
    match a
    case Tick(to) => s.(clock := to)
    case Vanish(id) => s.(containers := s.containers - {id})
    case Post => s.(creation := Reading)
    case PostFails => s.(creation := Idle)
    case CountJobs => s.(creation := Counted(|s.containers|))
    case CountReply(ok) =>
      // `ok` is false when Docker or one of the workspace checks refuses
      s.(creation := if s.creation.jobs >= MAX_JOBS || !ok then Idle else Requested)
    case DockerCreates(id) =>
      s.(containers := s.containers + {id}, used := s.used + {id}, creation := Created(id))
    case CreateReply(ok) => s.(creation := if ok then Starting(s.creation.id) else Idle)
    case StartReply(ok) =>
      if ok then s.(leases := s.leases[s.creation.id := s.clock], creation := Idle)
      else s.(creation := Cleaning(s.creation.id))
    case CleanupReply(ok) =>
      s.(creation := Idle, leases := if ok then s.leases - {s.creation.id} else s.leases)
    case Beat(id) => s.(tasks := s.tasks + [BeatListed(id, id in s.containers)])
    case BeatReply(p) =>
      var task := s.tasks[p];
      s.(leases := if task.found then s.leases[task.id := s.clock] else s.leases, tasks := s.tasks[p := Ended])
    case Delete(id) => s.(tasks := s.tasks + [DeleteListed(id, id in s.containers)])
    case DeleteReply(p) =>
      var task := s.tasks[p];
      s.(tasks := s.tasks[p := if task.found then DeleteRemoving(task.id) else Ended])
    case DeleteDone(p, ok) =>
      s.(leases := if ok then s.leases - {s.tasks[p].id} else s.leases, tasks := s.tasks[p := Ended])
    case Sweep(order) => s.(tasks := s.tasks + [SweepListed(s.clock, order)])
    case SweepReply(p, ok) =>
      var task := s.tasks[p];
      if !ok then s.(tasks := s.tasks[p := Ended])
      else GoOn(s, p, DropUnknown(s.leases, set id | id in task.jobs), task.now, task.jobs)
    case SweepDone(p, ok) =>
      var task := s.tasks[p];
      if !ok then s.(tasks := s.tasks[p := Ended])
      else GoOn(s, p, s.leases - {task.id}, task.now, task.rest)
  }

  ghost predicate Possible(s: State, run: seq<Action>)
    decreases |run|
  {
    run == [] || (Enabled(s, run[0]) && Possible(Apply(s, run[0]), run[1..]))
  }

  function After(s: State, run: seq<Action>): State
    requires Possible(s, run)
    decreases |run|
  {
    if run == [] then s else After(Apply(s, run[0]), run[1..])
  }

  /** The launcher starts with whatever labelled containers exist, if there are not too many. */
  predicate Initial(s: State) {
    |s.containers| <= MAX_JOBS && s.used >= s.containers && s.leases == map[] && s.creation.Idle? && s.tasks == []
  }

  // ----- The cap -----

  predicate Capped(s: State) {
    && |s.containers| <= MAX_JOBS
    && (s.creation.Counted? ==> |s.containers| <= s.creation.jobs)
    && (s.creation.Requested? ==> |s.containers| < MAX_JOBS)
  }

  lemma CapStep(s: State, a: Action)
    requires Capped(s) && Enabled(s, a)
    ensures Capped(Apply(s, a))
  {
    if a.Vanish? {
      assert s.containers == (s.containers - {a.id}) + {a.id};
    }
  }

  /** In every interleaving, failures included, the number of labelled containers stays within the cap. */
  lemma {:induction false} CapHolds(s: State, run: seq<Action>)
    requires Initial(s) || Capped(s)
    requires Possible(s, run)
    ensures |After(s, run).containers| <= MAX_JOBS
    decreases |run|
  {
    if run != [] {
      CapStep(s, run[0]);
      CapHolds(Apply(s, run[0]), run[1..]);
    }
  }

  // ----- The leases over a run -----

  ghost predicate Wellformed(s: State) {
    && s.containers <= s.used
    && (s.creation.Created? || s.creation.Starting? || s.creation.Cleaning? ==> s.creation.id in s.used)
    && forall p :: 0 <= p < |s.tasks| ==> TaskWellformed(s, s.tasks[p])
  }

  ghost predicate TaskWellformed(s: State, t: Task) {
    match t
    case SweepListed(now, jobs) => now <= s.clock && Distinct(jobs) && forall id :: id in jobs ==> id in s.used
    case SweepRemoving(now, id, rest) =>
      now <= s.clock && Distinct([id] + rest) && forall k :: k in [id] + rest ==> k in s.used
    case _ => true
  }

  /** The jobs a sweep under way still has to look at. */
  function ToVisit(t: Task): seq<Id> {
    match t
    case SweepListed(_, jobs) => jobs
    case SweepRemoving(_, _, rest) => rest
    case _ => []
  }

  /** A list taken before `j` existed is still to be handled: its sweep will forget the lease of `j`. */
  ghost predicate ForgetfulSweep(s: State, j: Id) {
    exists p :: 0 <= p < |s.tasks| && s.tasks[p].SweepListed? && j !in s.tasks[p].jobs
  }

  /** A sweep that started before `h` still has to look at `j`: without a lease it would date it too early. */
  ghost predicate BackdatingSweep(s: State, j: Id, h: int) {
    exists p :: 0 <= p < |s.tasks| && j in ToVisit(s.tasks[p]) && s.tasks[p].now < h
  }

  /** The removal, if any, that a sweep asks Docker for in this step, with the start time of the sweep. */
  ghost function Request(s: State, a: Action): Option<(Id, int)>
    requires Enabled(s, a)
  {
    match a
    case SweepReply(p, true) =>
      var t := Apply(s, a).tasks[p];
      if t.SweepRemoving? then Some((t.id, t.now)) else None
    case SweepDone(p, true) =>
      var t := Apply(s, a).tasks[p];
      if t.SweepRemoving? then Some((t.id, t.now)) else None
    case _ => None
  }

  /** Some step of the run asks for the removal of the live job `j` by a sweep started at `limit` or before. */
  ghost predicate Reaped(s: State, run: seq<Action>, j: Id, limit: int)
    requires Possible(s, run)
    decreases |run|
  {
    run != [] && (
      (j in s.containers && Request(s, run[0]).Some? && Request(s, run[0]).value.0 == j
       && Request(s, run[0]).value.1 <= limit)
      || Reaped(Apply(s, run[0]), run[1..], j, limit))
  }

  /** `Visit` keeps every lease, dates new ones with the sweep's start, and asks only for overdue jobs. */
  lemma {:induction false} VisitFacts(leases: map<Id, int>, now: int, jobs: seq<Id>)
    ensures var (leases', next) := Visit(leases, now, jobs);
            && (forall id :: id in leases ==> id in leases' && leases'[id] == leases[id])
            && (forall id :: id in leases' && id !in leases ==> id in jobs && leases'[id] == now)
            && (next.Some? ==>
                  && |next.value.1| < |jobs|
                  && next.value.0 in jobs && next.value.0 in leases && now - leases[next.value.0] > LEASE_MILLIS
                  && (forall id :: id in next.value.1 ==> id in jobs)
                  && (Distinct(jobs) ==> Distinct([next.value.0] + next.value.1)))
    decreases |jobs|
  {
    if jobs != [] {
      var leases' := if jobs[0] in leases then leases else leases[jobs[0] := now];
      VisitFacts(leases', now, jobs[1..]);
      assert [jobs[0]] + jobs[1..] == jobs;
    }
  }

  lemma DistinctRest(id: Id, rest: seq<Id>)
    requires Distinct([id] + rest)
    ensures Distinct(rest) && id !in rest
  {
    var all := [id] + rest;
    assert forall i :: 0 <= i < |rest| ==> rest[i] == all[i + 1];
    forall i, j | 0 <= i < j < |rest| ensures rest[i] != rest[j] {
      assert all[i + 1] != all[j + 1];
    }
    forall i | 0 <= i < |rest| ensures rest[i] != id {
      assert all[0] != all[i + 1];
    }
  }

  /** Every job is passed over with a lease, asked for, or left for later. */
  lemma {:induction false} VisitReaches(leases: map<Id, int>, now: int, jobs: seq<Id>, j: Id)
    requires j in jobs
    ensures var (leases', next) := Visit(leases, now, jobs);
            || (next.Some? && (j == next.value.0 || j in next.value.1))
            || (j in leases' && now - leases'[j] <= LEASE_MILLIS)
    decreases |jobs|
  {
    var leases' := if jobs[0] in leases then leases else leases[jobs[0] := now];
    VisitFacts(leases', now, jobs[1..]);
    if j in jobs[1..] {
      VisitReaches(leases', now, jobs[1..], j);
    }
  }

  lemma WellformedStep(s: State, a: Action)
    requires Wellformed(s) && Enabled(s, a)
    ensures Wellformed(Apply(s, a))
  {
    var s' := Apply(s, a);
    assert s.clock <= s'.clock && s.used <= s'.used;
    match a
    case SweepReply(p, ok) =>
      if ok {
        var t := s.tasks[p];
        GoOnWellformed(s, p, DropUnknown(s.leases, set id | id in t.jobs), t.now, t.jobs);
      }
    case SweepDone(p, ok) =>
      if ok {
        var t := s.tasks[p];
        DistinctRest(t.id, t.rest);
        assert forall k :: k in t.rest ==> k in [t.id] + t.rest;
        GoOnWellformed(s, p, s.leases - {t.id}, t.now, t.rest);
      }
    case _ =>
  }

  lemma GoOnWellformed(s: State, p: nat, leases: map<Id, int>, now: int, jobs: seq<Id>)
    requires Wellformed(s) && p < |s.tasks| && now <= s.clock
    requires Distinct(jobs) && forall id :: id in jobs ==> id in s.used
    ensures Wellformed(GoOn(s, p, leases, now, jobs))
  {
    VisitFacts(leases, now, jobs);
    var next := Visit(leases, now, jobs).1;
    var t := GoOn(s, p, leases, now, jobs).tasks[p];
    assert t == match next case None => Ended case Some((id, rest)) => SweepRemoving(now, id, rest);
  }

  /** Everything the results below ask of a state holds in every state the launcher reaches. */
  lemma {:induction false} ReachableIsWellformed(s: State, run: seq<Action>)
    requires Initial(s) || Wellformed(s)
    requires Possible(s, run)
    ensures Wellformed(After(s, run))
    decreases |run|
  {
    if run != [] {
      WellformedStep(s, run[0]);
      ReachableIsWellformed(Apply(s, run[0]), run[1..]);
    }
  }

  /** What keeps a lease of `j` from going back before `h` while `j` lives. */
  ghost predicate Guarded(s: State, j: Id, h: int) {
    && j in s.used && h <= s.clock
    && (j in s.containers ==>
          && (j in s.leases ==> h <= s.leases[j])
          && ((j in s.leases && !ForgetfulSweep(s, j)) || !BackdatingSweep(s, j, h)))
  }

  lemma GuardedSweep(s: State, p: nat, leases: map<Id, int>, jobs: seq<Id>, j: Id, h: int)
    requires Wellformed(s) && Guarded(s, j, h) && j in s.containers
    requires p < |s.tasks| && (s.tasks[p].SweepListed? || s.tasks[p].SweepRemoving?) && jobs == ToVisit(s.tasks[p])
    requires forall id :: id in leases ==> id in s.leases && leases[id] == s.leases[id]
    requires j in s.leases && !ForgetfulSweep(s, j) ==> j in leases
    ensures Guarded(GoOn(s, p, leases, s.tasks[p].now, jobs), j, h)
    ensures var t := GoOn(s, p, leases, s.tasks[p].now, jobs).tasks[p];
            t.SweepRemoving? && t.id == j ==> t.now > h + LEASE_MILLIS
  {
    var now := s.tasks[p].now;
    var s' := GoOn(s, p, leases, now, jobs);
    VisitFacts(leases, now, jobs);
    forall q | 0 <= q < |s'.tasks| && q != p
      ensures s'.tasks[q] == s.tasks[q]
    {
    }
    var next := Visit(leases, now, jobs).1;
    assert s'.tasks[p] == match next case None => Ended case Some((id, rest)) => SweepRemoving(now, id, rest);
    if j in s.leases && !ForgetfulSweep(s, j) {
      assert !ForgetfulSweep(s', j) by {
        assert forall q :: 0 <= q < |s.tasks| && s.tasks[q].SweepListed? ==> j in s.tasks[q].jobs;
      }
    } else {
      assert forall id :: id in ToVisit(s'.tasks[p]) ==> id in jobs;
      assert j in jobs ==> h <= now;
      assert !BackdatingSweep(s', j, h);
    }
  }

  lemma GuardedStep(s: State, a: Action, j: Id, h: int)
    requires Wellformed(s) && Guarded(s, j, h) && Enabled(s, a)
    ensures Guarded(Apply(s, a), j, h)
    ensures j in s.containers && Request(s, a).Some? && Request(s, a).value.0 == j
            ==> Request(s, a).value.1 > h + LEASE_MILLIS
  {
    var s' := Apply(s, a);
    match a
    case SweepReply(p, ok) =>
      if ok && j in s.containers {
        var t := s.tasks[p];
        GuardedSweep(s, p, DropUnknown(s.leases, set id | id in t.jobs), t.jobs, j, h);
      } else {
        GuardedOthers(s, a, j, h);
      }
    case SweepDone(p, ok) =>
      if ok && j in s.containers {
        GuardedSweep(s, p, s.leases - {s.tasks[p].id}, s.tasks[p].rest, j, h);
      } else {
        GuardedOthers(s, a, j, h);
      }
    case _ => GuardedOthers(s, a, j, h);
  }

  lemma GuardedOthers(s: State, a: Action, j: Id, h: int)
    requires Wellformed(s) && Guarded(s, j, h) && Enabled(s, a)
    requires j in s.containers && (a.SweepReply? || a.SweepDone?) ==> !a.ok
    ensures Guarded(Apply(s, a), j, h)
  {
    var s' := Apply(s, a);
    if j in s'.containers && j in s.containers {
      assert j in s.leases ==> j in s'.leases;
      if !ForgetfulSweep(s, j) {
        assert forall p :: 0 <= p < |s.tasks| && s.tasks[p].SweepListed? ==> j in s.tasks[p].jobs;
        assert !ForgetfulSweep(s', j);
      }
      if !BackdatingSweep(s, j, h) {
        assert forall p :: 0 <= p < |s.tasks| && j in ToVisit(s.tasks[p]) ==> s.tasks[p].now >= h;
        assert !BackdatingSweep(s', j, h);
      }
    }
  }

  lemma {:induction false} GuardedRun(s: State, run: seq<Action>, j: Id, h: int)
    requires Wellformed(s) && Guarded(s, j, h) && Possible(s, run)
    ensures !Reaped(s, run, j, h + LEASE_MILLIS)
    decreases |run|
  {
    if run != [] {
      GuardedStep(s, run[0], j, h);
      WellformedStep(s, run[0]);
      GuardedRun(Apply(s, run[0]), run[1..], j, h);
    }
  }

  /** A new lease for `j`: a heartbeat, or the end of its creation. */
  ghost predicate Renews(s: State, a: Action, j: Id)
    requires Enabled(s, a)
  {
    match a
    case BeatReply(p) => s.tasks[p].found && s.tasks[p].id == j
    case StartReply(ok) => ok && s.creation.id == j
    case _ => false
  }

  /**
   A sweep started after `limit` that has `j` in its list leaves it behind without asking for its removal: it
   goes on past it, or it ends because another removal failed.
   */
  ghost predicate PassesOver(s: State, a: Action, j: Id, limit: int)
    requires Enabled(s, a)
  {
    match a
    case SweepReply(p, true) =>
      var t, t' := s.tasks[p], Apply(s, a).tasks[p];
      limit < t.now && j in t.jobs && !(t'.SweepRemoving? && j in [t'.id] + t'.rest)
    case SweepDone(p, _) =>
      var t, t' := s.tasks[p], Apply(s, a).tasks[p];
      limit < t.now && j in t.rest && !(t'.SweepRemoving? && j in [t'.id] + t'.rest)
    case _ => false
  }

  /** Before any renewal of the live job `j`, a sweep started after `limit` leaves it behind. */
  ghost predicate Spared(s: State, run: seq<Action>, j: Id, limit: int)
    requires Possible(s, run)
    decreases |run|
  {
    run != [] && (
      (j in s.containers && PassesOver(s, run[0], j, limit))
      || (!Renews(s, run[0], j) && Spared(Apply(s, run[0]), run[1..], j, limit)))
  }

  /** The removal a sweep started after `limit` asked for fails while `j` is still to come. */
  ghost predicate FailsBefore(s: State, a: Action, j: Id, limit: int)
    requires Enabled(s, a)
  {
    a.SweepDone? && !a.ok && limit < s.tasks[a.p].now && j in s.tasks[a.p].rest
  }

  /** Before any renewal of the live job `j`, such a removal fails. */
  ghost predicate Shielded(s: State, run: seq<Action>, j: Id, limit: int)
    requires Possible(s, run)
    decreases |run|
  {
    run != [] && (
      (j in s.containers && FailsBefore(s, run[0], j, limit))
      || (!Renews(s, run[0], j) && Shielded(Apply(s, run[0]), run[1..], j, limit)))
  }

  // ----- The other half: when both kinds of sweep are under way, a fresh lease can be lost -----

  lemma Before(s: State, a: Action, run: seq<Action>)
    requires Enabled(s, a) && Possible(Apply(s, a), run)
    ensures Possible(s, [a] + run)
    ensures After(s, [a] + run) == After(Apply(s, a), run)
    ensures forall j, limit :: Reaped(Apply(s, a), run, j, limit) ==> Reaped(s, [a] + run, j, limit)
    ensures forall j, limit :: !Renews(s, a, j) && Spared(Apply(s, a), run, j, limit) ==> Spared(s, [a] + run, j, limit)
  {
    assert ([a] + run)[1..] == run;
  }

  lemma {:induction false} Listing(c: set<Id>) returns (order: seq<Id>)
    ensures forall id :: id in order <==> id in c
    ensures Distinct(order)
    decreases |c|
  {
    if c == {} {
      order := [];
    } else {
      var id :| id in c;
      var rest := Listing(c - {id});
      order := [id] + rest;
    }
  }

  /** A new sweep that happens to see `j` first. */
  lemma ListingFrom(s: State, j: Id) returns (order: seq<Id>)
    requires j in s.containers
    ensures Lists(s, order) && order != [] && order[0] == j
  {
    var rest := Listing(s.containers - {j});
    order := [j] + rest;
  }

  lemma ReapNow(s: State, j: Id, limit: int) returns (run: seq<Action>)
    requires j in s.containers && j in s.leases && s.clock <= limit && s.leases[j] + LEASE_MILLIS < limit
    ensures Possible(s, run) && Reaped(s, run, j, limit)
  {
    var s1 := Apply(s, Tick(limit));
    var order := ListingFrom(s1, j);
    var s2 := Apply(s1, Sweep(order));
    var last := SweepReply(|s1.tasks|, true);
    assert Enabled(s2, last);
    assert Request(s2, last) == Some((j, limit));
    assert Possible(s2, [last]) && Reaped(s2, [last], j, limit);
    Before(s1, Sweep(order), [last]);
    Before(s, Tick(limit), [Sweep(order)] + [last]);
    run := [Tick(limit)] + ([Sweep(order)] + [last]);
  }

  /** A sweep that still has to look at the unleased job `j` gives it its own old start time as lease. */
  lemma {:induction false} DateBack(s: State, p: nat, j: Id, limit: int) returns (run: seq<Action>)
    requires p < |s.tasks| && j in ToVisit(s.tasks[p]) && s.tasks[p].now + LEASE_MILLIS < limit
    requires j in s.containers && j !in s.leases && s.clock <= limit
    requires s.tasks[p].SweepRemoving? ==> s.tasks[p].id != j
    ensures Possible(s, run) && Reaped(s, run, j, limit)
    decreases |ToVisit(s.tasks[p])|
  {
    var t := s.tasks[p];
    if t.SweepListed? {
      var leases := DropUnknown(s.leases, set id | id in t.jobs);
      run := DateBackOn(s, p, leases, j, limit);
      Before(s, SweepReply(p, true), run);
      run := [SweepReply(p, true)] + run;
    } else {
      var s1 := s.(containers := s.containers - {t.id});
      run := DateBackOn(s1, p, s1.leases - {t.id}, j, limit);
      Before(s1, SweepDone(p, true), run);
      run := [SweepDone(p, true)] + run;
      if t.id in s.containers {
        Before(s, Vanish(t.id), run);
        run := [Vanish(t.id)] + run;
      } else {
        assert s1 == s;
      }
    }
  }

  lemma {:induction false} DateBackOn(s: State, p: nat, leases: map<Id, int>, j: Id, limit: int)
    returns (run: seq<Action>)
    requires p < |s.tasks| && j in ToVisit(s.tasks[p]) && s.tasks[p].now + LEASE_MILLIS < limit
    requires j in s.containers && j !in leases && s.clock <= limit
    ensures var s' := GoOn(s, p, leases, s.tasks[p].now, ToVisit(s.tasks[p]));
            Possible(s', run) && Reaped(s', run, j, limit)
    decreases |ToVisit(s.tasks[p])|, 0
  {
    var now, jobs := s.tasks[p].now, ToVisit(s.tasks[p]);
    var s' := GoOn(s, p, leases, now, jobs);
    VisitFacts(leases, now, jobs);
    VisitReaches(leases, now, jobs, j);
    var next := Visit(leases, now, jobs).1;
    assert s'.tasks[p] == match next case None => Ended case Some((id, rest)) => SweepRemoving(now, id, rest);
    if j in s'.leases {
      run := ReapNow(s', j, limit);
    } else {
      run := DateBack(s', p, j, limit);
    }
  }

  lemma Unguarded(s: State, j: Id, h: int) returns (run: seq<Action>)
    requires Wellformed(s) && j in s.containers && s.clock == h
    requires ForgetfulSweep(s, j) && BackdatingSweep(s, j, h)
    ensures Possible(s, run) && Reaped(s, run, j, h + LEASE_MILLIS)
  {
    var a :| 0 <= a < |s.tasks| && s.tasks[a].SweepListed? && j !in s.tasks[a].jobs;
    var b :| 0 <= b < |s.tasks| && j in ToVisit(s.tasks[b]) && s.tasks[b].now < h;
    var t := s.tasks[a];
    var leases := DropUnknown(s.leases, set id | id in t.jobs);
    var s' := Apply(s, SweepReply(a, true));
    VisitFacts(leases, t.now, t.jobs);
    assert j !in s'.leases && s'.tasks[b] == s.tasks[b];
    if s.tasks[b].SweepRemoving? {
      DistinctRest(s.tasks[b].id, s.tasks[b].rest);
    }
    run := DateBack(s', b, j, h + LEASE_MILLIS);
    Before(s, SweepReply(a, true), run);
    run := [SweepReply(a, true)] + run;
  }

  /**
   A lease recorded now, at `h`, protects a live job from every sweep started by `h + LEASE_MILLIS`, in every
   continuation, exactly when no old list without the job is still to be handled or no sweep older than
   the lease still has to look at the job.
   */
  lemma LeaseProtects(s: State, j: Id, h: int)
    requires Wellformed(s) && j in s.containers && j in s.leases && s.leases[j] == h == s.clock
    ensures (forall run :: Possible(s, run) ==> !Reaped(s, run, j, h + LEASE_MILLIS))
            <==> !(ForgetfulSweep(s, j) && BackdatingSweep(s, j, h))
  {
    if ForgetfulSweep(s, j) && BackdatingSweep(s, j, h) {
      var run := Unguarded(s, j, h);
      assert exists run :: Possible(s, run) && Reaped(s, run, j, h + LEASE_MILLIS);
    } else {
      forall run | Possible(s, run) ensures !Reaped(s, run, j, h + LEASE_MILLIS) {
        GuardedRun(s, run, j, h);
      }
    }
  }

  // ----- What changes a lease -----

  /** A renewal dates the lease of its job with the present and changes no other. */
  lemma RenewalRecords(s: State, a: Action, j: Id)
    requires Enabled(s, a) && Renews(s, a, j)
    ensures var s' := Apply(s, a);
            && j in s'.leases && s'.leases[j] == s'.clock == s.clock
            && s'.leases.Keys == s.leases.Keys + {j}
            && (forall k :: k in s.leases && k != j ==> s'.leases[k] == s.leases[k])
            && s'.containers == s.containers
            && (ForgetfulSweep(s', j) <==> ForgetfulSweep(s, j))
            && forall h :: BackdatingSweep(s', j, h) <==> BackdatingSweep(s, j, h)
  {
    var s' := Apply(s, a);
    assert |s'.tasks| == |s.tasks|;
    assert forall p :: 0 <= p < |s.tasks| && (s.tasks[p].SweepListed? || ToVisit(s.tasks[p]) != []) ==>
             s'.tasks[p] == s.tasks[p];
    assert forall p :: 0 <= p < |s.tasks| && (s'.tasks[p].SweepListed? || ToVisit(s'.tasks[p]) != []) ==>
             s'.tasks[p] == s.tasks[p];
  }

  /**
   After a heartbeat, or a start that worked, its live job is safe from every sweep started within `LEASE_MILLIS`, in
   every continuation, exactly when no old list without the job or no older sweep that has yet to look at it is
   under way.
   */
  lemma RenewalProtects(s: State, a: Action, j: Id)
    requires Wellformed(s) && Enabled(s, a) && Renews(s, a, j) && j in s.containers
    ensures (forall run :: Possible(Apply(s, a), run) ==> !Reaped(Apply(s, a), run, j, s.clock + LEASE_MILLIS))
            <==> !(ForgetfulSweep(s, j) && BackdatingSweep(s, j, s.clock))
  {
    RenewalRecords(s, a, j);
    WellformedStep(s, a);
    hide Apply, Renews, Wellformed;
    LeaseProtects(Apply(s, a), j, s.clock);
  }

  /** A step that forgets the lease of `k`: a removal that is confirmed, or a list without the job. */
  predicate Forgets(s: State, a: Action, k: Id)
    requires Enabled(s, a)
  {
    match a
    case CleanupReply(ok) => ok && s.creation.id == k
    case DeleteDone(p, ok) => ok && s.tasks[p].id == k
    case SweepReply(p, ok) => ok && k !in s.tasks[p].jobs
    case SweepDone(p, ok) => ok && s.tasks[p].id == k
    case _ => false
  }

  /** A sweep goes on in this step, with `k` still to be looked at. */
  predicate Passing(s: State, a: Action, k: Id)
    requires Enabled(s, a)
  {
    (a.SweepReply? || a.SweepDone?) && a.ok && k in ToVisit(s.tasks[a.p])
  }

  /**
   Everything that ever happens to a lease: it is lost exactly by a step that forgets it, it is changed only by a
   renewal, and it appears only by a renewal or dated with the start of a sweep that goes on.
   */
  lemma LeaseChanges(s: State, a: Action, k: Id)
    requires Wellformed(s) && Enabled(s, a)
    ensures var s' := Apply(s, a);
            && (k in s.leases ==> (k !in s'.leases <==> Forgets(s, a, k)))
            && (k in s.leases && k in s'.leases && s'.leases[k] != s.leases[k] ==> Renews(s, a, k))
            && (k !in s.leases && k in s'.leases ==>
                  Renews(s, a, k) || (Passing(s, a, k) && s'.leases[k] == s.tasks[a.p].now))
  {
    match a
    case SweepReply(p, ok) =>
      if ok {
        VisitFacts(DropUnknown(s.leases, set id | id in s.tasks[p].jobs), s.tasks[p].now, s.tasks[p].jobs);
      }
    case SweepDone(p, ok) =>
      if ok {
        DistinctRest(s.tasks[p].id, s.tasks[p].rest);
        VisitFacts(s.leases - {s.tasks[p].id}, s.tasks[p].now, s.tasks[p].rest);
      }
    case _ =>
  }

  /** A list or a removal that fails ends its sweep and does nothing else. */
  lemma FailureEndsSweep(s: State, a: Action)
    requires Enabled(s, a) && (a.SweepReply? || a.SweepDone?) && !a.ok
    ensures Apply(s, a) == s.(tasks := s.tasks[a.p := Ended])
  {
  }

  // ----- Requests from beginning to end -----

  /** The action answers the request or the sweep `n`. */
  predicate Answers(a: Action, n: nat) {
    match a
    case BeatReply(p) => p == n
    case DeleteReply(p) => p == n
    case DeleteDone(p, _) => p == n
    case SweepReply(p, _) => p == n
    case SweepDone(p, _) => p == n
    case _ => false
  }

  lemma {:induction false} TaskWaits(s: State, run: seq<Action>, n: nat)
    requires Possible(s, run) && n < |s.tasks| && forall a :: a in run ==> !Answers(a, n)
    ensures n < |After(s, run).tasks| && After(s, run).tasks[n] == s.tasks[n]
    decreases |run|
  {
    if run != [] {
      assert run[0] in run;
      TaskWaits(Apply(s, run[0]), run[1..], n);
    }
  }

  /** However it is interleaved, a heartbeat renews the lease of its job exactly if the job was there when it asked. */
  lemma HeartbeatRenews(s: State, j: Id, run: seq<Action>, k: Id)
    requires Possible(Apply(s, Beat(j)), run) && forall a :: a in run ==> !Answers(a, |s.tasks|)
    ensures var m, reply := After(Apply(s, Beat(j)), run), BeatReply(|s.tasks|);
            Enabled(m, reply) && (Renews(m, reply, k) <==> k == j && j in s.containers)
  {
    TaskWaits(Apply(s, Beat(j)), run, |s.tasks|);
  }

  /** However it is interleaved, a removal is asked for by a delete exactly if the job was there when it asked. */
  lemma DeleteAsks(s: State, j: Id, run: seq<Action>)
    requires Possible(Apply(s, Delete(j)), run) && forall a :: a in run ==> !Answers(a, |s.tasks|)
    ensures var m, n := After(Apply(s, Delete(j)), run), |s.tasks|;
            && Enabled(m, DeleteReply(n))
            && Apply(m, DeleteReply(n))
               == m.(tasks := m.tasks[n := if j in s.containers then DeleteRemoving(j) else Ended])
  {
    TaskWaits(Apply(s, Delete(j)), run, |s.tasks|);
  }

  /** A delete that is confirmed leaves neither the job nor its lease. */
  lemma DeleteRemoves(s: State, p: nat)
    requires Enabled(s, DeleteDone(p, true))
    ensures var j, s' := s.tasks[p].id, Apply(s, DeleteDone(p, true));
            j !in s'.containers && j !in s'.leases && forall k :: k in s.leases && k != j ==> k in s'.leases
  {
  }

  /** The request that holds the mutex goes on in this step. */
  predicate Creates(a: Action) {
    || a.Post? || a.PostFails? || a.CountJobs? || a.CountReply? || a.DockerCreates? || a.CreateReply?
    || a.StartReply? || a.CleanupReply?
  }

  lemma {:induction false} CreationWaits(s: State, run: seq<Action>)
    requires Possible(s, run) && forall a :: a in run ==> !Creates(a)
    ensures After(s, run).creation == s.creation
    decreases |run|
  {
    if run != [] {
      assert run[0] in run;
      CreationWaits(Apply(s, run[0]), run[1..]);
    }
  }

  /**
   However it is interleaved, a creation goes on exactly if the list it asked for had room and the workspace passed
   its checks; otherwise it ends and gives the mutex back.
   */
  lemma CreationNeedsRoom(s: State, run: seq<Action>, ok: bool)
    requires s.creation.Reading? && Possible(Apply(s, CountJobs), run) && forall a :: a in run ==> !Creates(a)
    ensures var m := After(Apply(s, CountJobs), run);
            && Enabled(m, CountReply(ok))
            && Apply(m, CountReply(ok))
               == m.(creation := if |s.containers| < MAX_JOBS && ok then Requested else Idle)
  {
    CreationWaits(Apply(s, CountJobs), run);
  }

  /**
   However it is interleaved, a start that fails keeps the mutex until its container's removal is answered; one that
   is confirmed leaves neither the container nor a lease.
   */
  lemma FailedStartCleansUp(s: State, run: seq<Action>, ok: bool)
    requires s.creation.Starting? && Possible(Apply(s, StartReply(false)), run) && forall a :: a in run ==> !Creates(a)
    ensures var m, id := After(Apply(s, StartReply(false)), run), s.creation.id;
            && m.creation == Cleaning(id)
            && (Enabled(m, CleanupReply(ok)) ==>
                  var e := Apply(m, CleanupReply(ok));
                  e.creation == Idle && (ok ==> id !in e.containers && id !in e.leases))
  {
    CreationWaits(Apply(s, StartReply(false)), run);
  }

  /** A creation that fails before its container starts, or whose cleanup is answered, gives the mutex back. */
  lemma FailureFreesMutex(s: State, a: Action)
    requires Enabled(s, a)
    requires a.PostFails? || a == CountReply(false) || a == CreateReply(false) || a.CleanupReply?
    ensures Apply(s, a).creation.Idle? && Enabled(Apply(s, a), Post)
    ensures Apply(s, a).containers == s.containers && (!a.CleanupReply? ==> Apply(s, a).leases == s.leases)
  {
  }

  /** With room and no failure, a creation ends with a new container, leased from that moment on. */
  lemma CreationSucceeds(s: State, id: Id) returns (run: seq<Action>)
    requires s.creation.Idle? && |s.containers| < MAX_JOBS && id !in s.used
    ensures Possible(s, run) && forall a :: a in run ==> Creates(a)
    ensures After(s, run) == s.(containers := s.containers + {id}, used := s.used + {id},
                                leases := s.leases[id := s.clock])
  {
    var s1 := Apply(s, Post);
    var s2 := Apply(s1, CountJobs);
    var s3 := Apply(s2, CountReply(true));
    var s4 := Apply(s3, DockerCreates(id));
    var s5 := Apply(s4, CreateReply(true));
    var s6 := Apply(s5, StartReply(true));
    assert Possible(s6, []) && After(s6, []) == s6;
    hide Apply;
    Before(s5, StartReply(true), []);
    run := [StartReply(true)] + [];
    Before(s4, CreateReply(true), run);
    run := [CreateReply(true)] + run;
    Before(s3, DockerCreates(id), run);
    run := [DockerCreates(id)] + run;
    Before(s2, CountReply(true), run);
    run := [CountReply(true)] + run;
    Before(s1, CountJobs, run);
    run := [CountJobs] + run;
    Before(s, Post, run);
    run := [Post] + run;
  }

  // ----- Abandoned jobs -----

  ghost predicate Abandoned(s: State, j: Id, t: int) {
    j in s.used && (j in s.containers ==> j in s.leases && s.leases[j] <= t && !ForgetfulSweep(s, j))
  }

  lemma AbandonedSweep(s: State, p: nat, leases: map<Id, int>, jobs: seq<Id>, j: Id, t: int)
    requires Abandoned(s, j, t) && j in s.containers && j in leases && leases[j] == s.leases[j]
    requires p < |s.tasks| && (s.tasks[p].SweepListed? || s.tasks[p].SweepRemoving?) && jobs == ToVisit(s.tasks[p])
    ensures var s' := GoOn(s, p, leases, s.tasks[p].now, jobs);
            Abandoned(s', j, t)
    ensures var t' := GoOn(s, p, leases, s.tasks[p].now, jobs).tasks[p];
            j in jobs && t + LEASE_MILLIS < s.tasks[p].now ==> t'.SweepRemoving? && j in [t'.id] + t'.rest
  {
    var now := s.tasks[p].now;
    var s' := GoOn(s, p, leases, now, jobs);
    var next := Visit(leases, now, jobs).1;
    assert s'.tasks[p] == match next case None => Ended case Some((id, rest)) => SweepRemoving(now, id, rest);
    VisitFacts(leases, now, jobs);
    assert !ForgetfulSweep(s', j) by {
      assert forall q :: 0 <= q < |s.tasks| && s.tasks[q].SweepListed? ==> j in s.tasks[q].jobs;
    }
    if j in jobs {
      VisitReaches(leases, now, jobs, j);
    }
  }

  lemma AbandonedStep(s: State, a: Action, j: Id, t: int)
    requires Wellformed(s) && Abandoned(s, j, t) && Enabled(s, a)
    ensures Renews(s, a, j) || Abandoned(Apply(s, a), j, t)
    ensures j in s.containers ==>
              (PassesOver(s, a, j, t + LEASE_MILLIS) <==> FailsBefore(s, a, j, t + LEASE_MILLIS))
  {
    if a.SweepReply? && a.ok && j in s.containers {
      var task := s.tasks[a.p];
      AbandonedSweep(s, a.p, DropUnknown(s.leases, set id | id in task.jobs), task.jobs, j, t);
    } else if a.SweepDone? && a.ok && j in s.containers {
      AbandonedSweep(s, a.p, s.leases - {s.tasks[a.p].id}, s.tasks[a.p].rest, j, t);
    } else {
      var s' := Apply(s, a);
      if j in s'.containers && j in s.containers && !Renews(s, a, j) {
        assert forall p :: 0 <= p < |s.tasks| && s.tasks[p].SweepListed? ==> j in s.tasks[p].jobs;
        assert !ForgetfulSweep(s', j);
      }
    }
  }

  lemma {:induction false} AbandonedRun(s: State, run: seq<Action>, j: Id, t: int)
    requires Wellformed(s) && Abandoned(s, j, t) && Possible(s, run)
    ensures Spared(s, run, j, t + LEASE_MILLIS) <==> Shielded(s, run, j, t + LEASE_MILLIS)
    decreases |run|
  {
    if run != [] {
      AbandonedStep(s, run[0], j, t);
      if !Renews(s, run[0], j) {
        WellformedStep(s, run[0]);
        AbandonedRun(Apply(s, run[0]), run[1..], j, t);
      }
    }
  }

  lemma Forgotten(s: State, j: Id, limit: int) returns (run: seq<Action>)
    requires Wellformed(s) && j in s.containers && ForgetfulSweep(s, j)
    ensures Possible(s, run) && Spared(s, run, j, limit) && !Shielded(s, run, j, limit)
  {
    var a :| 0 <= a < |s.tasks| && s.tasks[a].SweepListed? && j !in s.tasks[a].jobs;
    var t := s.tasks[a];
    var s1 := Apply(s, SweepReply(a, true));
    VisitFacts(DropUnknown(s.leases, set id | id in t.jobs), t.now, t.jobs);
    assert j !in s1.leases;
    var more := PassUnleased(s1, j, limit);
    Before(s, SweepReply(a, true), more);
    run := [SweepReply(a, true)] + more;
    NothingFails(s, run, j, limit);
  }

  lemma {:induction false} NothingFails(s: State, run: seq<Action>, j: Id, limit: int)
    requires Possible(s, run) && forall a :: a in run ==> !a.SweepDone?
    ensures !Shielded(s, run, j, limit)
    decreases |run|
  {
    if run != [] {
      assert run[0] in run;
      NothingFails(Apply(s, run[0]), run[1..], j, limit);
    }
  }

  lemma PassUnleased(s: State, j: Id, limit: int) returns (run: seq<Action>)
    requires j in s.containers && j !in s.leases
    ensures Possible(s, run) && Spared(s, run, j, limit)
    ensures forall a :: a in run ==> !a.SweepDone?
  {
    var later := if s.clock <= limit then limit + 1 else s.clock;
    var s2 := Apply(s, Tick(later));
    var order := ListingFrom(s2, j);
    var s3 := Apply(s2, Sweep(order));
    var last := SweepReply(|s2.tasks|, true);
    NewcomerPasses(s3, |s2.tasks|, j, limit);
    assert Possible(s3, [last]) && Spared(s3, [last], j, limit);
    Before(s2, Sweep(order), [last]);
    Before(s, Tick(later), [Sweep(order)] + [last]);
    run := [Tick(later)] + ([Sweep(order)] + [last]);
  }

  lemma NewcomerPasses(s: State, p: nat, j: Id, limit: int)
    requires p < |s.tasks| && s.tasks[p].SweepListed? && limit < s.tasks[p].now
    requires s.tasks[p].jobs != [] && s.tasks[p].jobs[0] == j && Distinct(s.tasks[p].jobs) && j !in s.leases
    ensures Enabled(s, SweepReply(p, true)) && PassesOver(s, SweepReply(p, true), j, limit)
  {
    var now, jobs := s.tasks[p].now, s.tasks[p].jobs;
    var leases := DropUnknown(s.leases, set id | id in jobs);
    VisitFacts(leases[j := now], now, jobs[1..]);
    assert Visit(leases, now, jobs) == Visit(leases[j := now], now, jobs[1..]);
  }

  /**
   A live job `j` whose lease is not later than `t`, until it is renewed.  With no old list without the job still
   to be handled, a run lets a sweep that started after `t + LEASE_MILLIS` with the job in its list end without
   asking for it exactly when a removal that such a sweep asked for before the job fails.  With an old list
   pending, this can happen although no removal fails.
   */
  lemma AbandonedJobsAreReaped(s: State, j: Id, t: int)
    requires Wellformed(s) && j in s.containers && j in s.leases && s.leases[j] <= t
    ensures !ForgetfulSweep(s, j) ==>
              forall run :: Possible(s, run) ==>
                (Spared(s, run, j, t + LEASE_MILLIS) <==> Shielded(s, run, j, t + LEASE_MILLIS))
    ensures (forall run :: Possible(s, run) && !Shielded(s, run, j, t + LEASE_MILLIS) ==>
                             !Spared(s, run, j, t + LEASE_MILLIS))
            <==> !ForgetfulSweep(s, j)
  {
    if ForgetfulSweep(s, j) {
      var run := Forgotten(s, j, t + LEASE_MILLIS);
      assert exists run :: Possible(s, run) && !Shielded(s, run, j, t + LEASE_MILLIS)
                           && Spared(s, run, j, t + LEASE_MILLIS);
    } else {
      forall run | Possible(s, run)
        ensures Spared(s, run, j, t + LEASE_MILLIS) <==> Shielded(s, run, j, t + LEASE_MILLIS)
      {
        AbandonedRun(s, run, j, t);
      }
    }
  }

  /** No sweep asks for `j` anywhere in the run. */
  ghost predicate NeverAsked(s: State, run: seq<Action>, j: Id)
    requires Possible(s, run)
    decreases |run|
  {
    run == [] || (
      (Request(s, run[0]).Some? ==> Request(s, run[0]).value.0 != j)
      && NeverAsked(Apply(s, run[0]), run[1..], j))
  }

  lemma RemovalFails(s: State, p: nat, j: Id)
    requires p < |s.tasks| && s.tasks[p].SweepRemoving? && j in s.tasks[p].rest && j in s.containers
    ensures var last := [SweepDone(p, false)];
            && Possible(s, last) && NeverAsked(s, last, j) && After(s, last) == Apply(s, SweepDone(p, false))
            && forall limit :: limit < s.tasks[p].now ==> Spared(s, last, j, limit)
  {
    var a := SweepDone(p, false);
    assert [a][1..] == [];
    assert Possible(Apply(s, a), []) && After(Apply(s, a), []) == Apply(s, a);
    assert forall limit :: limit < s.tasks[p].now ==> PassesOver(s, a, j, limit);
  }

  /** One sweep that lists an overdue job `i` first, fails to remove it, and so never gets to the others. */
  lemma ShieldOnce(s: State, i: Id, j: Id) returns (run: seq<Action>, s': State)
    requires i in s.containers && j in s.containers && i != j
    requires i in s.leases && s.clock - s.leases[i] > LEASE_MILLIS
    ensures Possible(s, run) && NeverAsked(s, run, j) && |run| == 3 && s' == After(s, run)
    ensures s'.containers == s.containers && s'.clock == s.clock
    ensures i in s'.leases && s'.leases[i] == s.leases[i]
    ensures forall limit :: limit < s.clock ==> Spared(s, run, j, limit)
  {
    var order := ListingFrom(s, i);
    var p := |s.tasks|;
    s' := ShieldStates(s, i, j, order);
    var s1 := Apply(s, Sweep(order));
    hide Apply, Spared, Renews, Visit, Lists;
    ThreeSteps(s, s1, Sweep(order), SweepReply(p, true), SweepDone(p, false), j);
    run := [Sweep(order), SweepReply(p, true), SweepDone(p, false)];
  }

  lemma ShieldStates(s: State, i: Id, j: Id, order: seq<Id>) returns (s3: State)
    requires i in s.containers && j in s.containers && i != j
    requires i in s.leases && s.clock - s.leases[i] > LEASE_MILLIS
    requires Lists(s, order) && order != [] && order[0] == i
    ensures Enabled(s, Sweep(order)) && Request(s, Sweep(order)).None? && !Renews(s, Sweep(order), j)
    ensures var s1, p := Apply(s, Sweep(order)), |s.tasks|;
            var reply := SweepReply(p, true);
            && Enabled(s1, reply) && Request(s1, reply).Some? && Request(s1, reply).value.0 == i
            && !Renews(s1, reply, j)
            && var s2 := Apply(s1, reply);
               && p < |s2.tasks| && s2.tasks[p].SweepRemoving? && j in s2.tasks[p].rest && j in s2.containers
               && s2.tasks[p].now == s.clock
               && Enabled(s2, SweepDone(p, false)) && s3 == Apply(s2, SweepDone(p, false))
    ensures s3.containers == s.containers && s3.clock == s.clock && i in s3.leases && s3.leases[i] == s.leases[i]
  {
    var p, rest := |s.tasks|, order[1..];
    assert order == [i] + rest && j in rest;
    var s1 := Apply(s, Sweep(order));
    var s2 := Apply(s1, SweepReply(p, true));
    assert Visit(DropUnknown(s.leases, set id | id in order), s.clock, order).1 == Some((i, rest));
    assert s2.tasks[p] == SweepRemoving(s.clock, i, rest);
    s3 := Apply(s2, SweepDone(p, false));
  }

  lemma ThreeSteps(s: State, s1: State, a: Action, b: Action, c: Action, j: Id)
    requires Enabled(s, a) && s1 == Apply(s, a) && !Renews(s, a, j)
    requires Request(s, a).Some? ==> Request(s, a).value.0 != j
    requires Enabled(s1, b) && !Renews(s1, b, j) && (Request(s1, b).Some? ==> Request(s1, b).value.0 != j)
    requires c.SweepDone? && !c.ok && var s2 := Apply(s1, b);
             && c.p < |s2.tasks| && s2.tasks[c.p].SweepRemoving? && j in s2.tasks[c.p].rest && j in s2.containers
             && Enabled(s2, c)
    ensures var run := [a, b, c];
            && Possible(s, run) && NeverAsked(s, run, j)
            && After(s, run) == Apply(Apply(s1, b), c)
            && forall limit :: limit < Apply(s1, b).tasks[c.p].now ==> Spared(s, run, j, limit)
  {
    var s2 := Apply(s1, b);
    RemovalFails(s2, c.p, j);
    hide Apply, Spared, Renews, NeverAsked;
    Before(s1, b, [c]);
    AskedBefore(s1, b, [c], j);
    Before(s, a, [b] + [c]);
    AskedBefore(s, a, [b] + [c], j);
    assert [a] + ([b] + [c]) == [a, b, c];
  }

  lemma AskedBefore(s: State, a: Action, run: seq<Action>, j: Id)
    requires Enabled(s, a) && Possible(Apply(s, a), run) && Possible(s, [a] + run)
    ensures NeverAsked(s, [a] + run, j)
            <==> (Request(s, a).Some? ==> Request(s, a).value.0 != j) && NeverAsked(Apply(s, a), run, j)
  {
    assert ([a] + run)[1..] == run;
  }

  /**
   A job that cannot be removed shields another one, however long that one has been abandoned, from any number of
   sweeps.
   */
  lemma {:induction false} StuckJobShields(s: State, i: Id, j: Id, sweeps: nat) returns (run: seq<Action>)
    requires i in s.containers && j in s.containers && i != j
    requires i in s.leases && s.clock - s.leases[i] > LEASE_MILLIS
    ensures Possible(s, run) && NeverAsked(s, run, j) && |run| == 3 * sweeps
    ensures forall limit :: limit < s.clock && sweeps > 0 ==> Spared(s, run, j, limit)
    decreases sweeps
  {
    run := [];
    if sweeps > 0 {
      var first, s' := ShieldOnce(s, i, j);
      var more := StuckJobShields(s', i, j, sweeps - 1);
      Joined(s, first, more, j);
      run := first + more;
    }
  }

  lemma {:induction false} Joined(s: State, first: seq<Action>, more: seq<Action>, j: Id)
    requires Possible(s, first) && Possible(After(s, first), more)
    requires NeverAsked(s, first, j) && NeverAsked(After(s, first), more, j)
    ensures Possible(s, first + more) && NeverAsked(s, first + more, j)
    ensures forall limit :: Spared(s, first, j, limit) ==> Spared(s, first + more, j, limit)
    decreases |first|
  {
    if first == [] {
      assert first + more == more;
    } else {
      Joined(Apply(s, first[0]), first[1..], more, j);
      assert first + more == [first[0]] + (first[1..] + more);
      assert (first + more)[1..] == first[1..] + more;
    }
  }

  /** From a launcher just started with two jobs, the second can stay for ever although nobody renews it. */
  lemma FailedRemovalStrands(s: State, sweeps: nat) returns (run: seq<Action>)
    requires s == State({1, 2}, {1, 2}, map[], 0, Idle, [])
    ensures Initial(s) && |run| == 3 + 3 * sweeps && Possible(s, run) && NeverAsked(s, run, 2)
    ensures run[..3] == [Sweep([1, 2]), SweepReply(0, true), Tick(100_000)]
  {
    var s1 := Apply(s, Sweep([1, 2]));
    assert Lists(s, [1, 2]);
    var s2 := Apply(s1, SweepReply(0, true));
    assert [1, 2][1..] == [2] && [2][1..] == [];
    assert s2.leases == map[1 := 0, 2 := 0] && s2.tasks == [Ended];
    var s3 := Apply(s2, Tick(100_000));
    var more := StuckJobShields(s3, 1, 2, sweeps);
    Before(s2, Tick(100_000), more);
    AskedBefore(s2, Tick(100_000), more, 2);
    Before(s1, SweepReply(0, true), [Tick(100_000)] + more);
    AskedBefore(s1, SweepReply(0, true), [Tick(100_000)] + more, 2);
    Before(s, Sweep([1, 2]), [SweepReply(0, true)] + ([Tick(100_000)] + more));
    AskedBefore(s, Sweep([1, 2]), [SweepReply(0, true)] + ([Tick(100_000)] + more), 2);
    run := [Sweep([1, 2])] + ([SweepReply(0, true)] + ([Tick(100_000)] + more));
  }

  /** A job that never got a lease has one, dated with the start of the sweep, once a sweep passes it. */
  lemma FirstSightCounts(s: State, p: nat, j: Id)
    requires Enabled(s, SweepReply(p, true)) && j in s.tasks[p].jobs && j !in s.leases
    ensures var s' := Apply(s, SweepReply(p, true));
            || (j in s'.leases && s'.leases[j] == s.tasks[p].now)
            || (s'.tasks[p].SweepRemoving? && j in s'.tasks[p].rest)
  {
    var t := s.tasks[p];
    var leases := DropUnknown(s.leases, set id | id in t.jobs);
    VisitFacts(leases, t.now, t.jobs);
    VisitReaches(leases, t.now, t.jobs, j);
  }

  const OLD_SWEEP := SweepListed(0, [])
  const LATE_SWEEP := SweepListed(30_000, [7])
  const FIRST_HALF := [Sweep([]), Tick(30_000), Post, CountJobs, CountReply(true)]
  const SECOND_HALF := [DockerCreates(7), Sweep([7]), CreateReply(true), Tick(30_500), StartReply(true)]

  lemma FirstHalf(s: State, m: State)
    requires s == State({}, {}, map[], 0, Idle, [])
    requires m == State({}, {}, map[], 30_000, Requested, [OLD_SWEEP])
    ensures Possible(s, FIRST_HALF) && After(s, FIRST_HALF) == m
  {
    var s1 := Apply(s, Sweep([]));
    assert s1.tasks == [OLD_SWEEP];
    var s2 := Apply(s1, Tick(30_000));
    var s3 := Apply(s2, Post);
    var s4 := Apply(s3, CountJobs);
    assert Apply(s4, CountReply(true)) == m && Possible(m, []);
    Before(s4, CountReply(true), []);
    Before(s3, CountJobs, [CountReply(true)]);
    Before(s2, Post, [CountJobs] + [CountReply(true)]);
    Before(s1, Tick(30_000), [Post, CountJobs, CountReply(true)]);
    Before(s, Sweep([]), [Tick(30_000), Post, CountJobs, CountReply(true)]);
    assert FIRST_HALF == [Sweep([])] + [Tick(30_000), Post, CountJobs, CountReply(true)];
  }

  lemma SecondHalf(s: State, m: State)
    requires s == State({}, {}, map[], 30_000, Requested, [OLD_SWEEP])
    requires m == State({7}, {7}, map[7 := 30_500], 30_500, Idle, [OLD_SWEEP, LATE_SWEEP])
    ensures Possible(s, SECOND_HALF) && After(s, SECOND_HALF) == m
  {
    var s1 := Apply(s, DockerCreates(7));
    assert Lists(s1, [7]);
    var s2 := Apply(s1, Sweep([7]));
    assert s2.tasks == [OLD_SWEEP, LATE_SWEEP];
    var s3 := Apply(s2, CreateReply(true));
    var s4 := Apply(s3, Tick(30_500));
    assert Apply(s4, StartReply(true)) == m && Possible(m, []);
    hide Apply, Renews, Reaped, Spared;
    Before(s4, StartReply(true), []);
    Before(s3, Tick(30_500), [StartReply(true)]);
    Before(s2, CreateReply(true), [Tick(30_500)] + [StartReply(true)]);
    Before(s1, Sweep([7]), [CreateReply(true), Tick(30_500), StartReply(true)]);
    Before(s, DockerCreates(7), [Sweep([7]), CreateReply(true), Tick(30_500), StartReply(true)]);
    assert SECOND_HALF == [DockerCreates(7)] + [Sweep([7]), CreateReply(true), Tick(30_500), StartReply(true)];
  }

  /** Both kinds of sweep can be under way: from an idle launcher, a fresh lease can fail to protect its job. */
  lemma OverlappingSweeps(s: State)
    requires s == State({}, {}, map[], 0, Idle, [])
    ensures Initial(s) && Possible(s, FIRST_HALF) && Possible(After(s, FIRST_HALF), SECOND_HALF)
    ensures var m := After(After(s, FIRST_HALF), SECOND_HALF);
            && 7 in m.containers && 7 in m.leases && m.leases[7] == m.clock == 30_500
            && exists run :: Possible(m, run) && Reaped(m, run, 7, m.clock + LEASE_MILLIS)
  {
    var half := State({}, {}, map[], 30_000, Requested, [OLD_SWEEP]);
    var m := State({7}, {7}, map[7 := 30_500], 30_500, Idle, [OLD_SWEEP, LATE_SWEEP]);
    FirstHalf(s, half);
    SecondHalf(half, m);
    assert ForgetfulSweep(m, 7) by {
      assert m.tasks[0] == OLD_SWEEP;
    }
    assert BackdatingSweep(m, 7, 30_500) by {
      assert m.tasks[1] == LATE_SWEEP && 7 in ToVisit(m.tasks[1]);
    }
    var run := Unguarded(m, 7, 30_500);
  }
}
