/**
 The recovery sweep over generations left IN_PROGRESS, and what it does to the exclusion the project lock gives.
 */
module Recovery {
  import opened Artifacts

  type Project(==, !new)

  datatype Record = Record(project: Project, status: Status)

  /** How the calls for one record end; each of the last two may take effect although it fails. */
  datatype Luck = Luck(readable: bool, active: bool, released: bool, saved: bool, saveRaises: bool)

  datatype Table = Table(records: seq<Record>, locked: set<Project>)

  /** One round of the loop: the record as listed when the sweep began, the table as it is now. */
  function SweepOne(t: Table, i: nat, listed: Record, luck: Luck): (out: (Table, bool))
    requires i < |t.records|
    ensures |out.0.records| == |t.records|
  {
    if !luck.readable || luck.active then (t, false)
    else
      var locked := if luck.released then t.locked - {listed.project} else t.locked;
      var records := if luck.saved || !luck.saveRaises then t.records[i := listed.(status := Failed)] else t.records;
      (Table(records, locked), !luck.saveRaises)
  }

  /** The positions `list_by_status(IN_PROGRESS)` returns among the first `n` records. */
  function Zombies(records: seq<Record>, n: nat): (todo: seq<nat>)
    requires n <= |records|
    ensures forall k :: 0 <= k < |todo| ==> todo[k] < n
    ensures forall i :: i in todo <==> 0 <= i < n && records[i].status.InProgress?
    ensures forall k, m :: 0 <= k < m < |todo| ==> todo[k] < todo[m]
  {
    if n == 0 then []
    else if records[n - 1].status.InProgress? then Zombies(records, n - 1) + [n - 1]
    else Zombies(records, n - 1)
  }

  function Sweep(t: Table, listed: seq<Record>, todo: seq<nat>, luck: nat -> Luck): (Table, nat)
    requires |listed| == |t.records| && forall k :: 0 <= k < |todo| ==> todo[k] < |t.records|
    decreases |todo|
  {
    if todo == [] then (t, 0)
    else
      var (t', done) := SweepOne(t, todo[0], listed[todo[0]], luck(todo[0]));
      var (end, recovered) := Sweep(t', listed, todo[1..], luck);
      (end, if done then recovered + 1 else recovered)
  }

  /** `recover_zombie_implementations`. */
  method Recover(records: seq<Record>, locked: set<Project>, luck: nat -> Luck)
    returns (records': seq<Record>, locked': set<Project>, recovered: nat)
    ensures (Table(records', locked'), recovered)
            == Sweep(Table(records, locked), records, Zombies(records, |records|), luck)
  {
    var todo := Zombies(records, |records|);
    records', locked', recovered := records, locked, 0;
    var n := 0;
    while n < |todo|
      invariant 0 <= n <= |todo| && |records'| == |records|
      invariant Sweep(Table(records, locked), records, todo, luck)
                == (var (end, more) := Sweep(Table(records', locked'), records, todo[n..], luck);
                    (end, recovered + more))
    {
      hide SweepOne;
      assert todo[n..][0] == todo[n] && todo[n..][1..] == todo[n + 1..];
      var i := todo[n];
      var (t, done) := SweepOne(Table(records', locked'), i, records[i], luck(i));
      records', locked' := t.records, t.locked;
      if done {
        recovered := recovered + 1;
      }
      n := n + 1;
    }
  }

  /** The records a sweep counts: inactive ones whose save did not raise. */
  function Recovered(todo: seq<nat>, luck: nat -> Luck): set<nat> {
    set i | i in todo && luck(i).readable && !luck(i).active && !luck(i).saveRaises
  }

  /**
   What a sweep does: it fails exactly the listed records it may touch and whose save took effect, it only releases
   locks, and those of the projects of such records; with no failing call no inactive record stays IN_PROGRESS.
   */
  lemma {:induction false} SweepSettles(t: Table, listed: seq<Record>, todo: seq<nat>, luck: nat -> Luck)
    requires |listed| == |t.records| && forall k :: 0 <= k < |todo| ==> todo[k] < |t.records|
    requires forall k, m :: 0 <= k < m < |todo| ==> todo[k] != todo[m]
    ensures var (end, recovered) := Sweep(t, listed, todo, luck);
            && |end.records| == |t.records|
            && (forall i :: 0 <= i < |t.records| ==>
                  end.records[i] == if i in todo && luck(i).readable && !luck(i).active
                                       && (luck(i).saved || !luck(i).saveRaises)
                                    then listed[i].(status := Failed) else t.records[i])
            && end.locked <= t.locked
            && (forall p :: p in t.locked - end.locked <==>
                  p in t.locked && exists i :: i in todo && listed[i].project == p && luck(i).readable
                                               && !luck(i).active && luck(i).released)
            && recovered <= |todo|
    decreases |todo|
  {
    if todo != [] {
      var i, rest := todo[0], todo[1..];
      var t' := SweepOne(t, i, listed[i], luck(i)).0;
      assert forall j :: j in todo <==> j == i || j in rest;
      assert i !in rest;
      SweepSettles(t', listed, rest, luck);
    }
  }

  /** The sweep counts the inactive records whose save did not raise, each once. */
  lemma {:induction false} SweepCounts(t: Table, listed: seq<Record>, todo: seq<nat>, luck: nat -> Luck)
    requires |listed| == |t.records| && forall k :: 0 <= k < |todo| ==> todo[k] < |t.records|
    requires forall k, m :: 0 <= k < m < |todo| ==> todo[k] != todo[m]
    ensures Sweep(t, listed, todo, luck).1 == |Recovered(todo, luck)|
    decreases |todo|
  {
    if todo == [] {
      assert Recovered(todo, luck) == {};
    } else {
      var i, rest := todo[0], todo[1..];
      var (t', done) := SweepOne(t, i, listed[i], luck(i));
      assert done <==> luck(i).readable && !luck(i).active && !luck(i).saveRaises;
      assert i !in rest;
      hide SweepOne;
      OneCounted(todo, luck);
      SweepCounts(t', listed, rest, luck);
      hide Recovered;
    }
  }

  lemma OneCounted(todo: seq<nat>, luck: nat -> Luck)
    requires todo != [] && todo[0] !in todo[1..]
    ensures var i := todo[0];
            |Recovered(todo, luck)|
            == |Recovered(todo[1..], luck)|
               + (if luck(i).readable && !luck(i).active && !luck(i).saveRaises then 1 else 0)
  {
    var i, rest := todo[0], todo[1..];
    var one := if luck(i).readable && !luck(i).active && !luck(i).saveRaises then {i} else {};
    assert forall j :: j in todo <==> j == i || j in rest;
    assert Recovered(todo, luck) == one + Recovered(rest, luck) && one !! Recovered(rest, luck);
  }

  // ----- The lock over many runs -----

  type Run = nat

  /**
   The locked projects, and the runs that work under a lock.  A run takes it once, first, and gives it back once,
   last.
   */
  datatype Locks = Locks(locked: set<Project>, holders: map<Run, Project>)

  /**
   `Stray`: an acquire that took effect although it failed.  `Quit`: a run that ends without its release taking
   effect.  `Release`: what a sweep does, and what it comes to for another process when a lock has grown stale.
   */
  datatype Step =
    | Begin(run: Run, project: Project)
    | Stray(project: Project)
    | Finish(run: Run)
    | Quit(run: Run)
    | Release(project: Project)

  function Next(l: Locks, step: Step): Locks {
    match step
    case Begin(run, project) =>
      if project in l.locked || run in l.holders then l
      else Locks(l.locked + {project}, l.holders[run := project])
    case Finish(run) =>
      if run in l.holders then Locks(l.locked - {l.holders[run]}, l.holders - {run}) else l
    case Stray(project) => l.(locked := l.locked + {project})
    case Quit(run) => l.(holders := l.holders - {run})
    case Release(project) => l.(locked := l.locked - {project})
  }

  function After(l: Locks, steps: seq<Step>): Locks
    decreases |steps|
  {
    if steps == [] then l else After(Next(l, steps[0]), steps[1..])
  }

  /** No two runs hold the lock of the same project. */
  ghost predicate Exclusive(l: Locks) {
    forall r, q :: r in l.holders && q in l.holders && l.holders[r] == l.holders[q] ==> r == q
  }

  ghost predicate Guarded(l: Locks) {
    Exclusive(l) && forall r :: r in l.holders ==> l.holders[r] in l.locked
  }

  /**
   What a run does with a free lock: it holds it; giving it back undoes that; ending without giving it back, or an
   acquire for nobody, keeps every other run out until it is released.
   */
  lemma LockHandedOver(l: Locks, run: Run, project: Project, other: Run)
    requires Guarded(l) && project !in l.locked && run !in l.holders && other !in l.holders
    ensures var held := Next(l, Begin(run, project));
            && run in held.holders && held.holders[run] == project && project in held.locked
            && Next(held, Finish(run)) == l
            && (other != run ==> Next(held, Begin(other, project)) == held)
    ensures var stuck := Next(Next(l, Begin(run, project)), Quit(run));
            && stuck == Next(l, Stray(project)) && stuck.holders == l.holders
            && Next(stuck, Begin(other, project)) == stuck
            && Next(stuck, Release(project)) == l
  {
    assert l.locked + {project} - {project} == l.locked;
    assert l.holders[run := project] - {run} == l.holders;
  }

  ghost predicate NoSweep(steps: seq<Step>) {
    forall k :: 0 <= k < |steps| ==> !steps[k].Release?
  }

  /** With no sweep and no lock grown stale, no two runs ever hold the lock of the same project. */
  lemma {:induction false} RunsExclude(l: Locks, steps: seq<Step>)
    requires Guarded(l) && NoSweep(steps)
    ensures Guarded(After(l, steps))
    decreases |steps|
  {
    if steps != [] {
      assert !steps[0].Release?;
      assert NoSweep(steps[1..]);
      RunsExclude(Next(l, steps[0]), steps[1..]);
    }
  }

  /**
   Once a sweep has released the lock of a project, no two later runs can share a project, whatever they do, if and
   only if nobody held that lock.
   */
  lemma SweepKeepsExclusion(l: Locks, project: Project)
    requires Guarded(l)
    ensures (forall steps :: NoSweep(steps) ==> Exclusive(After(Next(l, Release(project)), steps)))
            <==> project !in l.holders.Values
  {
    var l' := Next(l, Release(project));
    if project in l.holders.Values {
      var run :| run in l.holders && l.holders[run] == project;
      var other := Fresh(l.holders.Keys);
      var steps := [Begin(other, project)];
      var end := Next(l', steps[0]);
      assert steps[1..] == [] && After(l', steps) == After(end, []) == end;
      assert end.holders[other] == end.holders[run] && run != other;
      assert NoSweep(steps) && !Exclusive(After(l', steps));
    } else {
      forall steps | NoSweep(steps) ensures Exclusive(After(l', steps)) {
        RunsExclude(l', steps);
      }
    }
  }

  ghost function Sum(s: set<Run>): (n: nat)
    ensures forall r :: r in s ==> r <= n
  {
    if s == {} then 0
    else
      var r :| r in s;
      assert forall x :: x in s ==> x == r || x in s - {r};
      r + Sum(s - {r})
  }

  ghost function Fresh(s: set<Run>): (r: Run)
    ensures r !in s
  {
    Sum(s) + 1
  }

  /** From no lock at all: a run under way, a sweep over an old record of its project, and a second run. */
  lemma SweepLetsInTwo(project: Project)
    ensures var end := After(Locks({}, map[]), [Begin(1, project), Release(project), Begin(2, project)]);
            end.holders == map[1 := project, 2 := project] && !Exclusive(end)
  {
    var l1 := Next(Locks({}, map[]), Begin(1, project));
    var l2 := Next(l1, Release(project));
    var l3 := Next(l2, Begin(2, project));
    assert l1 == Locks({project}, map[1 := project]) && l2 == Locks({}, map[1 := project]);
    assert After(l2, [Begin(2, project)]) == After(l3, []) == l3;
    assert After(l1, [Release(project), Begin(2, project)]) == l3;
    assert l3.holders[1] == l3.holders[2];
  }
}
