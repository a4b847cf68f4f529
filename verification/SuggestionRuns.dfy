/**
 The life of suggestions: written by an evaluation, then applied behind the snapshot guard, discarded, made
 obsolete or superseded, one by one or in bulk, with edits in between.
 */
module SuggestionRuns {
  import opened Wrappers
  import opened Artifacts
  import opened Suggestions

  /**
   An apply that has passed the guard and not yet run its transaction.  `written` and `seen` are the artifacts
   at the time the row was written and at the time the guard read them.
   */
  datatype Ticket = Ticket(index: nat, row: Row, written: Artifacts, seen: Artifacts)

  /** Rows in the order of their creation; `written[i]` remembers what row `i` was made from. */
  datatype State = State(artifacts: Artifacts, rows: seq<Row>, written: seq<Artifacts>)

  /** How the request ends; `Thrown` is an exception that no use case catches. */
  datatype Reply = Resolved | Stale | NoProject | NotFound | Thrown

  /** How a save ends: done, failed without effect, or failed although it took effect. */
  datatype Saving = Saved | Lost | Late

  /**
   How the calls for one row go: whether the row, the texts behind it and the project can be read, whether some call
   of its transaction raises, and how its status is saved.
   */
  datatype Luck = Luck(row: bool, readable: bool, project: bool, crash: bool, saving: Saving)

  const FINE := Luck(true, true, true, false, Saved)

  predicate Fresh(d: Domain, a: Artifacts, r: Row) {
    Snapshot(d, a, r) == r.snapshot
  }

  /** `_impact_for_apply`, with the defaults it fills in. */
  function ImpactOf(r: Row): Impact {
    match r.proposal.diff
    case None => Impact(r.artifactType, Scope(r.artifactId), r.proposal.action, "description", "", "")
    case Some(diff) =>
      Impact(r.artifactType, Scope(r.artifactId), r.proposal.action, diff.field, diff.before, diff.after)
  }

  function Mark(rows: seq<Row>, i: nat, status: RowStatus): seq<Row>
    requires i < |rows|
  {
    rows[i := rows[i].(status := status)]
  }

  /** The table after a row is saved, and the reply unless the save raises. */
  function Record(st: State, i: nat, r: Row, saving: Saving, reply: Reply): (out: (State, Reply))
    requires i < |st.rows|
    ensures |out.0.rows| == |st.rows| && out.0.written == st.written && out.0.artifacts == st.artifacts
    ensures forall j :: 0 <= j < |st.rows| && j != i ==> out.0.rows[j] == st.rows[j]
  {
    (if saving.Lost? then st else st.(rows := st.rows[i := r]), if saving.Saved? then reply else Thrown)
  }

  /** The first half of an apply: the status check and the snapshot guard. */
  function Guard(d: Domain, st: State, i: nat, luck: Luck): (out: (State, Reply, Option<Ticket>))
    requires i < |st.rows| == |st.written|
    ensures |out.0.rows| == |st.rows| && out.0.written == st.written && out.0.artifacts == st.artifacts
  {
    var r := st.rows[i];
    if !luck.row then (st, Thrown, None)
    else if !r.status.Completed? then (st, Stale, None)
    else if !luck.readable then (st, Thrown, None)
    else if !Fresh(d, st.artifacts, r) then
      var (st', reply) := Record(st, i, r.(status := Discarded), luck.saving, Stale);
      (st', reply, None)
    else (st, Resolved, Some(Ticket(i, r, st.written[i], st.artifacts)))
  }

  /** The second half: the transaction, and the row saved as it was read. */
  function Settle(d: Domain, st: State, t: Ticket, project: bool, luck: Luck): (out: (State, Reply))
    requires t.index < |st.rows|
    ensures |out.0.rows| == |st.rows| && out.0.written == st.written
  {
    if !luck.project then (st, Thrown)
    else if !project then (st, NoProject)
    else
      var (a, verdict) := Attempt(d, st.artifacts, ImpactOf(t.row), luck.crash);
      Record(st.(artifacts := a), t.index, t.row.(status := if verdict.Done? then Applied else RowFailed), luck.saving,
             if verdict.Done? then Resolved else Stale)
  }

  /** `ApplyConsistencyEvaluationUseCase.execute` with nothing in between. */
  function ApplyAt(d: Domain, st: State, i: nat, project: bool, luck: Luck): (out: (State, Reply))
    requires |st.rows| == |st.written|
    ensures |out.0.rows| == |st.rows| && out.0.written == st.written
  {
    if i >= |st.rows| then (st, if luck.row then NotFound else Thrown)
    else
      match Guard(d, st, i, luck)
      case (st', reply, None) => (st', reply)
      case (st', _, Some(t)) => Settle(d, st', t, project, luck)
  }

  /** `DiscardConsistencyEvaluationUseCase.execute`. */
  function DiscardAt(st: State, i: nat, luck: Luck): (out: (State, Reply))
    ensures |out.0.rows| == |st.rows| && out.0.written == st.written && out.0.artifacts == st.artifacts
  {
    if !luck.row then (st, Thrown)
    else if i >= |st.rows| then (st, NotFound)
    else if !st.rows[i].status.Completed? then (st, Stale)
    else Record(st, i, st.rows[i].(status := Discarded), luck.saving, Resolved)
  }

  // ----- What one apply touches -----

  /** The text a row suggests to change. */
  function TextOf(d: Domain, a: Artifacts, r: Row): string {
    TargetText(d, a, r.artifactType, Scope(r.artifactId))
  }

  predicate SameText(r: Row, r': Row) {
    && r.artifactType == r'.artifactType
    && (Scope(r.artifactId) == Scope(r'.artifactId) || r.artifactType == "DiscoveryDocument")
  }

  lemma SourceThenText(d: Domain, a: Artifacts, a': Artifacts, r: Row)
    ensures TextOf(d, a, r) != TextOf(d, a', r)
            && (SourceText(d, a, r.source, Scope(r.artifactId)) == SourceText(d, a', r.source, Scope(r.artifactId))
                || (SourceText(d, a, r.source, Scope(r.artifactId)) == TextOf(d, a, r)
                    && SourceText(d, a', r.source, Scope(r.artifactId)) == TextOf(d, a', r)))
            ==> Snapshot(d, a, r) != Snapshot(d, a', r)
    ensures TextOf(d, a, r) == TextOf(d, a', r)
            && SourceText(d, a, r.source, Scope(r.artifactId)) == SourceText(d, a', r.source, Scope(r.artifactId))
            ==> Snapshot(d, a, r) == Snapshot(d, a', r)
  {
    SameSnapshot(d, a, a', r);
    hide Snapshot, SourceText, TargetText;
    var s, t := SourceText(d, a, r.source, Scope(r.artifactId)), TextOf(d, a, r);
    var s', t' := SourceText(d, a', r.source, Scope(r.artifactId)), TextOf(d, a', r);
    CancelPrefix(s + "|", t, t');
    Doubled(t, t');
  }

  lemma Doubled(t: string, t': string)
    ensures t != t' ==> t + "|" + t != t' + "|" + t'
  {
    if t + "|" + t == t' + "|" + t' {
      assert |t| == |t'|;
      assert t == (t + "|" + t)[..|t|] && t' == (t' + "|" + t')[..|t'|];
    }
  }

  /** A removed feature's text held two bars, so no snapshot that quotes it survives. */
  lemma FeatureGone(s: string, f: Feature)
    ensures s + "|" + (f.title + "|" + f.description + "|" + f.origin) != "none|none"
  {
    var text := f.title + "|" + f.description + "|" + f.origin;
    var k := |f.title|;
    var joined := s + "|" + text;
    assert text[k] == '|' && joined[|s|] == '|' && joined[|s| + 1 + k] == '|';
  }

  lemma StepOnFeature(d: Domain, a: Artifacts, i: Impact, r: Row)
    requires r.artifactType == "Feature"
    ensures var a' := UpdateFeature(d, a, i).0;
            && (i.targetId != Scope(r.artifactId) ==> TextOf(d, a', r) == TextOf(d, a, r))
            && (Snapshot(d, a', r) == Snapshot(d, a, r) <==> TextOf(d, a', r) == TextOf(d, a, r))
  {
    FeaturesOnly(d, a, i);
    hide Snapshot, UpdateFeature, FeatureText;
    SourceThenText(d, a, UpdateFeature(d, a, i).0, r);
  }

  lemma FeaturesOnly(d: Domain, a: Artifacts, i: Impact)
    ensures var a' := UpdateFeature(d, a, i).0;
            && a' == a.(features := a'.features)
            && forall id :: id != i.targetId ==> FeatureText(a', id) == FeatureText(a, id)
  {
  }

  lemma StepOnDeletion(d: Domain, a: Artifacts, id: FeatureId, r: Row)
    requires r.artifactType == "Feature"
    ensures var a' := DeleteFeature(a, id).0;
            && (id != Scope(r.artifactId) ==> TextOf(d, a', r) == TextOf(d, a, r))
            && (Snapshot(d, a', r) == Snapshot(d, a, r) <==> TextOf(d, a', r) == TextOf(d, a, r))
  {
    hide Snapshot;
    var a' := DeleteFeature(a, id).0;
    SourceThenText(d, a, a', r);
    if id == Scope(r.artifactId) && id in a.features && (r.source.Requirements? || r.source.Model?) {
      SameSnapshot(d, a, a', r);
      FeatureGone(SourceText(d, a, r.source, id), a.features[id]);
      FeatureGone("", a.features[id]);
      assert SourceText(d, a', r.source, id) == "none";
      assert TextOf(d, a', r) == "none";
      assert "none" + "|" + "none" == "none|none";
      assert TextOf(d, a, r) != "none" by { HasBar(a.features[id]); }
    }
  }

  lemma HasBar(f: Feature)
    ensures f.title + "|" + f.description + "|" + f.origin != "none"
  {
    var text := f.title + "|" + f.description + "|" + f.origin;
    assert text[|f.title|] == '|' && '|' !in "none";
  }

  lemma StepOnRequirement(d: Domain, a: Artifacts, i: Impact, r: Row)
    requires r.artifactType == "EARSRequirement"
    ensures var a' := UpdateRequirement(d, a, i).0;
            && (i.targetId != Scope(r.artifactId) ==> TextOf(d, a', r) == TextOf(d, a, r))
            && (Snapshot(d, a', r) == Snapshot(d, a, r) <==> TextOf(d, a', r) == TextOf(d, a, r))
  {
    hide Snapshot;
    SourceThenText(d, a, UpdateRequirement(d, a, i).0, r);
  }

  lemma StepOnDiagram(d: Domain, a: Artifacts, i: Impact, r: Row)
    requires r.artifactType == "ActivityDiagram"
    ensures var a' := UpdateDiagram(d, a, i).0;
            && (i.targetId != Scope(r.artifactId) ==> TextOf(d, a', r) == TextOf(d, a, r))
            && (Snapshot(d, a', r) == Snapshot(d, a, r) <==> TextOf(d, a', r) == TextOf(d, a, r))
  {
    hide Snapshot;
    SourceThenText(d, a, UpdateDiagram(d, a, i).0, r);
  }

  lemma StepOnDiscovery(d: Domain, a: Artifacts, i: Impact, r: Row)
    requires r.artifactType == "DiscoveryDocument"
    ensures var a' := UpdateDiscovery(d, a, i).0;
            Snapshot(d, a', r) == Snapshot(d, a, r) <==> TextOf(d, a', r) == TextOf(d, a, r)
  {
    hide Snapshot;
    SourceThenText(d, a, UpdateDiscovery(d, a, i).0, r);
  }

  lemma StepOnCode(d: Domain, a: Artifacts, i: Impact, r: Row)
    requires i.artifactType == r.artifactType == "FeatureImplementation"
    ensures var a' := Transact(d, a, i).0;
            && (i.targetId != Scope(r.artifactId) ==> TextOf(d, a', r) == TextOf(d, a, r))
            && (Snapshot(d, a', r) == Snapshot(d, a, r) <==> TextOf(d, a', r) == TextOf(d, a, r))
  {
    hide Snapshot;
    SourceThenText(d, a, Transact(d, a, i).0, r);
  }

  /**
   Applying `actor` makes another row on the same kind of artifact stale exactly when it changes that row's target
   text, and it changes no other text of that kind than its own.
   */
  lemma TextDecidesFreshness(d: Domain, a: Artifacts, actor: Row, r: Row, crash: bool)
    requires actor.artifactType == r.artifactType
    ensures var a' := Attempt(d, a, ImpactOf(actor), crash).0;
            && (!SameText(actor, r) ==> TextOf(d, a', r) == TextOf(d, a, r))
            && (Snapshot(d, a', r) == Snapshot(d, a, r) <==> TextOf(d, a', r) == TextOf(d, a, r))
  {
    hide Snapshot, TargetText, UpdateFeature, DeleteFeature, UpdateRequirement, UpdateDiagram, UpdateDiscovery;
    var i := ImpactOf(actor);
    if Attempt(d, a, i, crash).0 != a {
      StepOnFeatureKind(d, a, i, r);
      if r.artifactType == "EARSRequirement" {
        StepOnRequirement(d, a, i, r);
      } else if r.artifactType == "ActivityDiagram" {
        StepOnDiagram(d, a, i, r);
      } else if r.artifactType == "FeatureImplementation" {
        StepOnCode(d, a, i, r);
      } else if r.artifactType == "DiscoveryDocument" {
        StepOnDiscovery(d, a, i, r);
      }
    }
  }

  lemma StepOnFeatureKind(d: Domain, a: Artifacts, i: Impact, r: Row)
    ensures i.artifactType == r.artifactType == "Feature" ==>
              var a' := Transact(d, a, i).0;
              && (i.targetId != Scope(r.artifactId) ==> TextOf(d, a', r) == TextOf(d, a, r))
              && (Snapshot(d, a', r) == Snapshot(d, a, r) <==> TextOf(d, a', r) == TextOf(d, a, r))
  {
    hide Snapshot, TargetText, UpdateFeature, DeleteFeature;
    if i.artifactType == r.artifactType == "Feature" {
      StepOnFeature(d, a, i, r);
      StepOnDeletion(d, a, i.targetId, r);
    }
  }

  // ----- Bulk resolution -----

  datatype Mode = Mode(apply: bool, project: bool, luck: nat -> Luck)

  function ResolveAt(d: Domain, st: State, i: nat, mode: Mode): (out: (State, Reply))
    requires |st.rows| == |st.written|
    ensures |out.0.rows| == |st.rows| && out.0.written == st.written
  {
    if mode.apply then ApplyAt(d, st, i, mode.project, mode.luck(i)) else DiscardAt(st, i, mode.luck(i))
  }

  datatype BulkEnd = BulkEnd(st: State, resolved: nat, skipped: nat, raised: bool)

  /** The loop of `BulkResolveConsistencyUseCase.execute` over the rows in `todo`; a crash ends it. */
  function Bulk(d: Domain, st: State, todo: seq<nat>, mode: Mode): BulkEnd
    requires |st.rows| == |st.written|
    decreases |todo|
  {
    if todo == [] then BulkEnd(st, 0, 0, false)
    else
      var (st', reply) := ResolveAt(d, st, todo[0], mode);
      if reply.Thrown? then BulkEnd(st', 0, 0, true)
      else
        var end := Bulk(d, st', todo[1..], mode);
        if reply.Resolved? then end.(resolved := end.resolved + 1) else end.(skipped := end.skipped + 1)
  }

  /** The positions of the COMPLETED rows of a target phase among the first `n` rows. */
  function Awaiting(rows: seq<Row>, target: Phase, n: nat): (todo: seq<nat>)
    requires n <= |rows|
    ensures forall k :: 0 <= k < |todo| ==> todo[k] < n
    ensures forall i :: i in todo <==> 0 <= i < n && rows[i].target == target && rows[i].status.Completed?
    ensures forall k, m :: 0 <= k < m < |todo| ==> todo[k] < todo[m]
  {
    if n == 0 then []
    else if rows[n - 1].target == target && rows[n - 1].status.Completed? then Awaiting(rows, target, n - 1) + [n - 1]
    else Awaiting(rows, target, n - 1)
  }

  /** How many of the rows at `todo` have the given status. */
  function CountIn(rows: seq<Row>, todo: seq<nat>, status: RowStatus): nat {
    if todo == [] then 0
    else
      (if todo[0] < |rows| && rows[todo[0]].status == status then 1 else 0) + CountIn(rows, todo[1..], status)
  }

  ghost predicate Distinct(todo: seq<nat>) {
    forall k, m :: 0 <= k < m < |todo| ==> todo[k] != todo[m]
  }

  ghost predicate AllPending(rows: seq<Row>, todo: seq<nat>) {
    Distinct(todo) && forall i :: i in todo ==> i < |rows| && rows[i].status.Completed?
  }

  /** What resolving one row does to the table. */
  lemma OneResolved(d: Domain, st: State, i: nat, mode: Mode)
    requires |st.rows| == |st.written| && i < |st.rows| && st.rows[i].status.Completed?
    ensures var (st', reply) := ResolveAt(d, st, i, mode);
            var status := if mode.apply then Applied else Discarded;
            && (forall j :: 0 <= j < |st.rows| && j != i ==> st'.rows[j] == st.rows[j])
            && st'.rows[i] == st.rows[i].(status := st'.rows[i].status)
            && (!reply.Thrown? ==>
                  && (reply.Resolved? <==> st'.rows[i].status == status)
                  && (st'.rows[i].status.Completed? <==>
                        mode.apply && !mode.project && Fresh(d, st.artifacts, st.rows[i])))
            && (!mode.apply || !mode.project ==> st'.artifacts == st.artifacts)
  {
    hide Fresh, Attempt;
  }

  lemma AfterFirst(d: Domain, st: State, todo: seq<nat>, mode: Mode)
    requires |st.rows| == |st.written| && todo != [] && AllPending(st.rows, todo)
    ensures var st' := ResolveAt(d, st, todo[0], mode).0;
            && todo[0] < |st.rows| && st.rows[todo[0]].status.Completed?
            && AllPending(st'.rows, todo[1..]) && todo[0] !in todo[1..]
            && forall i :: i in todo <==> i == todo[0] || i in todo[1..]
  {
    hide ResolveAt;
    assert todo[0] in todo;
    OneResolved(d, st, todo[0], mode);
    assert forall i :: i in todo[1..] ==> i in todo && i != todo[0];
  }

  /** Rows not in `todo` stay as they are, and the others change their status only. */
  lemma {:induction false} BulkTouches(d: Domain, st: State, todo: seq<nat>, mode: Mode)
    requires |st.rows| == |st.written| && AllPending(st.rows, todo)
    ensures var end := Bulk(d, st, todo, mode);
            && |end.st.rows| == |st.rows| && end.st.written == st.written
            && (forall j :: 0 <= j < |st.rows| && j !in todo ==> end.st.rows[j] == st.rows[j])
            && (forall i :: i in todo ==> end.st.rows[i] == st.rows[i].(status := end.st.rows[i].status))
            && (!end.raised ==>
                  forall i :: i in todo ==>
                    (end.st.rows[i].status.Completed? <==>
                       mode.apply && !mode.project && Fresh(d, st.artifacts, st.rows[i])))
    decreases |todo|
  {
    hide Fresh, ResolveAt;
    if todo != [] {
      var (st', reply) := ResolveAt(d, st, todo[0], mode);
      AfterFirst(d, st, todo, mode);
      OneResolved(d, st, todo[0], mode);
      if !reply.Thrown? {
        BulkTouches(d, st', todo[1..], mode);
      }
    }
  }

  lemma {:induction false} BulkCounts(d: Domain, st: State, todo: seq<nat>, mode: Mode)
    requires |st.rows| == |st.written| && AllPending(st.rows, todo)
    ensures var end := Bulk(d, st, todo, mode);
            !end.raised ==>
              && end.resolved + end.skipped == |todo|
              && end.resolved == CountIn(end.st.rows, todo, if mode.apply then Applied else Discarded)
    decreases |todo|
  {
    hide Fresh, ResolveAt;
    if todo != [] {
      var (st', reply) := ResolveAt(d, st, todo[0], mode);
      AfterFirst(d, st, todo, mode);
      OneResolved(d, st, todo[0], mode);
      if !reply.Thrown? {
        BulkCounts(d, st', todo[1..], mode);
        BulkTouches(d, st', todo[1..], mode);
      }
    }
  }

  lemma {:induction false} BulkBreaks(d: Domain, st: State, todo: seq<nat>, mode: Mode)
    requires |st.rows| == |st.written| && AllPending(st.rows, todo)
    ensures var end := Bulk(d, st, todo, mode);
            end.raised ==>
              && end.resolved + end.skipped < |todo| && |end.st.rows| == |st.rows|
              && forall k :: end.resolved + end.skipped < k < |todo| ==>
                   todo[k] < |st.rows| && end.st.rows[todo[k]] == st.rows[todo[k]]
    decreases |todo|
  {
    hide Fresh, ResolveAt;
    if todo != [] {
      var (st', reply) := ResolveAt(d, st, todo[0], mode);
      var rest := todo[1..];
      AfterFirst(d, st, todo, mode);
      OneResolved(d, st, todo[0], mode);
      assert forall k :: 0 < k < |todo| ==> todo[k] == rest[k - 1] && todo[k] in rest;
      if !reply.Thrown? {
        BulkBreaks(d, st', rest, mode);
      }
    }
  }

  /**
   A bulk resolution that is not broken off counts every COMPLETED row once, as resolved exactly when it ends APPLIED
   (DISCARDED, for a discard), and none stays COMPLETED unless the project is gone and the row was still fresh.  One
   that is broken off has counted the rows before the one that failed and leaves those after it alone.
   */
  lemma BulkSettles(d: Domain, st: State, todo: seq<nat>, mode: Mode)
    requires |st.rows| == |st.written| && AllPending(st.rows, todo)
    ensures var end := Bulk(d, st, todo, mode);
            var rows := end.st.rows;
            && |rows| == |st.rows| && end.st.written == st.written
            && (forall j :: 0 <= j < |st.rows| && j !in todo ==> rows[j] == st.rows[j])
            && (forall i :: i in todo ==> rows[i] == st.rows[i].(status := rows[i].status))
            && (!end.raised ==>
                  && end.resolved + end.skipped == |todo|
                  && end.resolved == CountIn(rows, todo, if mode.apply then Applied else Discarded)
                  && (forall i :: i in todo ==>
                        (rows[i].status.Completed? <==>
                           mode.apply && !mode.project && Fresh(d, st.artifacts, st.rows[i]))))
            && (end.raised ==>
                  && end.resolved + end.skipped < |todo|
                  && forall k :: end.resolved + end.skipped < k < |todo| ==>
                       todo[k] < |st.rows| && rows[todo[k]] == st.rows[todo[k]])
  {
    BulkTouches(d, st, todo, mode);
    BulkCounts(d, st, todo, mode);
    BulkBreaks(d, st, todo, mode);
    hide Bulk, Fresh, CountIn;
  }

  /** How many of the applies change the text that `r` aims at. */
  function Changes(d: Domain, st: State, todo: seq<nat>, mode: Mode, r: Row): nat
    requires |st.rows| == |st.written|
    decreases |todo|
  {
    if todo == [] then 0
    else
      var (st', reply) := ResolveAt(d, st, todo[0], mode);
      (if TextOf(d, st'.artifacts, r) != TextOf(d, st.artifacts, r) then 1 else 0)
      + (if reply.Thrown? then 0 else Changes(d, st', todo[1..], mode, r))
  }

  ghost predicate OneKind(rows: seq<Row>, todo: seq<nat>, r: Row) {
    forall i :: i in todo ==> i < |rows| && rows[i].artifactType == r.artifactType
  }

  /** One apply in terms of the text it aims at. */
  lemma OneApplied(d: Domain, st: State, i: nat, mode: Mode, r: Row)
    requires |st.rows| == |st.written| && i < |st.rows| && st.rows[i].artifactType == r.artifactType
    ensures var a' := ResolveAt(d, st, i, mode).0.artifacts;
            && (Fresh(d, a', r) == Fresh(d, st.artifacts, r) || TextOf(d, a', r) != TextOf(d, st.artifacts, r))
            && (TextOf(d, a', r) != TextOf(d, st.artifacts, r) ==>
                  && SameText(st.rows[i], r) && st.rows[i].status.Completed? && Fresh(d, st.artifacts, st.rows[i])
                  && (Fresh(d, st.artifacts, r) ==> !Fresh(d, a', r)))
  {
    hide Attempt, Snapshot, TextOf, Scope;
    TextDecidesFreshness(d, st.artifacts, st.rows[i], r, mode.luck(i).crash);
  }

  lemma OnlyThatRow(d: Domain, st: State, i: nat, mode: Mode)
    requires |st.rows| == |st.written|
    ensures forall j :: 0 <= j < |st.rows| && j != i ==> ResolveAt(d, st, i, mode).0.rows[j] == st.rows[j]
  {
    hide Attempt, Fresh;
  }

  lemma SameTextSame(d: Domain, a: Artifacts, r: Row, r': Row)
    requires SameText(r, r')
    ensures TextOf(d, a, r) == TextOf(d, a, r')
  {
  }

  ghost predicate StaleOnText(d: Domain, st: State, todo: seq<nat>, r: Row) {
    forall i :: i in todo && i < |st.rows| && SameText(st.rows[i], r) && st.rows[i].status.Completed? ==>
      !Fresh(d, st.artifacts, st.rows[i])
  }

  ghost predicate FreshOnText(d: Domain, st: State, todo: seq<nat>, r: Row) {
    forall i :: i in todo && i < |st.rows| && SameText(st.rows[i], r) && st.rows[i].status.Completed? ==>
      Fresh(d, st.artifacts, st.rows[i])
  }

  /** Carries freshness of the rows still to come over one apply. */
  lemma RestAfterOne(d: Domain, st: State, todo: seq<nat>, mode: Mode, r: Row)
    requires |st.rows| == |st.written| && todo != [] && Distinct(todo) && OneKind(st.rows, todo, r)
    ensures var (st', rest) := (ResolveAt(d, st, todo[0], mode).0, todo[1..]);
            && Distinct(rest) && OneKind(st'.rows, rest, r)
            && (TextOf(d, st'.artifacts, r) == TextOf(d, st.artifacts, r) ==>
                  && (StaleOnText(d, st, todo, r) ==> StaleOnText(d, st', rest, r))
                  && (FreshOnText(d, st, todo, r) ==> FreshOnText(d, st', rest, r)))
            && (TextOf(d, st'.artifacts, r) != TextOf(d, st.artifacts, r) ==>
                  && !StaleOnText(d, st, todo, r)
                  && (FreshOnText(d, st, todo, r) ==> StaleOnText(d, st', rest, r)))
  {
    hide ResolveAt, Fresh, TextOf, SameText;
    assert todo[0] in todo;
    var st' := ResolveAt(d, st, todo[0], mode).0;
    var rest := todo[1..];
    OneApplied(d, st, todo[0], mode, r);
    OnlyThatRow(d, st, todo[0], mode);
    forall i | i in rest
      ensures i in todo && i != todo[0] && i < |st.rows| && st'.rows[i] == st.rows[i]
      ensures SameText(st.rows[i], r) ==>
                && (TextOf(d, st'.artifacts, r) == TextOf(d, st.artifacts, r) ==>
                      Fresh(d, st'.artifacts, st.rows[i]) == Fresh(d, st.artifacts, st.rows[i]))
                && (TextOf(d, st'.artifacts, r) != TextOf(d, st.artifacts, r) ==>
                      (Fresh(d, st.artifacts, st.rows[i]) ==> !Fresh(d, st'.artifacts, st.rows[i])))
    {
      assert i in todo;
      if SameText(st.rows[i], r) {
        SameTextSame(d, st.artifacts, st.rows[i], r);
        SameTextSame(d, st'.artifacts, st.rows[i], r);
        OneApplied(d, st, todo[0], mode, st.rows[i]);
      }
    }
  }

  lemma {:induction false} StaleStaysPut(d: Domain, st: State, todo: seq<nat>, mode: Mode, r: Row)
    requires |st.rows| == |st.written| && Distinct(todo) && OneKind(st.rows, todo, r)
    requires StaleOnText(d, st, todo, r)
    ensures Changes(d, st, todo, mode, r) == 0
    decreases |todo|
  {
    hide ResolveAt, Fresh, TextOf, SameText;
    if todo != [] {
      RestAfterOne(d, st, todo, mode, r);
      hide StaleOnText;
      StaleStaysPut(d, ResolveAt(d, st, todo[0], mode).0, todo[1..], mode, r);
    }
  }

  /** Of rows that are all fresh when a bulk apply starts, at most one changes a given text. */
  lemma {:induction false} OneChangePerText(d: Domain, st: State, todo: seq<nat>, mode: Mode, r: Row)
    requires |st.rows| == |st.written| && Distinct(todo) && OneKind(st.rows, todo, r)
    requires FreshOnText(d, st, todo, r)
    ensures Changes(d, st, todo, mode, r) <= 1
    decreases |todo|
  {
    hide ResolveAt, Fresh, TextOf, SameText, StaleOnText, FreshOnText;
    if todo != [] {
      RestAfterOne(d, st, todo, mode, r);
      var st' := ResolveAt(d, st, todo[0], mode).0;
      if TextOf(d, st'.artifacts, r) != TextOf(d, st.artifacts, r) {
        StaleStaysPut(d, st', todo[1..], mode, r);
      } else {
        OneChangePerText(d, st', todo[1..], mode, r);
      }
    }
  }

  /** The state right after the first change of the text of `r`, and the rows still to come. */
  ghost function FirstChange(d: Domain, st: State, todo: seq<nat>, mode: Mode, r: Row): Option<(State, seq<nat>)>
    requires |st.rows| == |st.written|
    decreases |todo|
  {
    if todo == [] then None
    else
      var (st', reply) := ResolveAt(d, st, todo[0], mode);
      if reply.Thrown? then None
      else if TextOf(d, st'.artifacts, r) != TextOf(d, st.artifacts, r) then Some((st', todo[1..]))
      else FirstChange(d, st', todo[1..], mode, r)
  }

  /**
   Whatever the rows were at the start: for a bulk apply to change a text a second time, some row still to come must
   match the artifacts as the first change left them.
   */
  lemma {:induction false} SecondChangeNeedsRevival(d: Domain, st: State, todo: seq<nat>, mode: Mode, r: Row)
    requires |st.rows| == |st.written| && Distinct(todo) && OneKind(st.rows, todo, r)
    requires Changes(d, st, todo, mode, r) >= 2
    ensures var first := FirstChange(d, st, todo, mode, r);
            && first.Some?
            && var (st', rest) := first.value;
               exists i :: i in rest && i < |st'.rows| && SameText(st'.rows[i], r) && st'.rows[i].status.Completed?
                           && Fresh(d, st'.artifacts, st'.rows[i])
    decreases |todo|
  {
    hide ResolveAt, Fresh, TextOf, SameText;
    RestAfterOne(d, st, todo, mode, r);
    var st' := ResolveAt(d, st, todo[0], mode).0;
    if TextOf(d, st'.artifacts, r) != TextOf(d, st.artifacts, r) {
      if StaleOnText(d, st', todo[1..], r) {
        StaleStaysPut(d, st', todo[1..], mode, r);
      }
    } else {
      SecondChangeNeedsRevival(d, st', todo[1..], mode, r);
    }
  }

  /** The state in which a bulk resolution comes to its row `k`, if it does. */
  ghost function StateAt(d: Domain, st: State, todo: seq<nat>, mode: Mode, k: nat): Option<State>
    requires |st.rows| == |st.written| && k <= |todo|
    ensures StateAt(d, st, todo, mode, k).Some? ==>
              var s := StateAt(d, st, todo, mode, k).value; |s.rows| == |s.written|
    decreases k
  {
    if k == 0 then Some(st)
    else
      var (st', reply) := ResolveAt(d, st, todo[0], mode);
      if reply.Thrown? then None else StateAt(d, st', todo[1..], mode, k - 1)
  }

  /** Applying row `i` now changes the text of `r`: it passes its guard, and its impact finds something to change. */
  ghost predicate Changing(d: Domain, st: State, i: nat, mode: Mode, r: Row) {
    && mode.apply && mode.project && i < |st.rows| && st.rows[i].status.Completed? && SameText(st.rows[i], r)
    && mode.luck(i).row && mode.luck(i).readable && mode.luck(i).project && Fresh(d, st.artifacts, st.rows[i])
    && TextOf(d, Attempt(d, st.artifacts, ImpactOf(st.rows[i]), mode.luck(i).crash).0, r) != TextOf(d, st.artifacts, r)
  }

  lemma ChangingChanges(d: Domain, st: State, i: nat, mode: Mode, r: Row)
    requires |st.rows| == |st.written| && i < |st.rows| && st.rows[i].artifactType == r.artifactType
    ensures TextOf(d, ResolveAt(d, st, i, mode).0.artifacts, r) != TextOf(d, st.artifacts, r)
            <==> Changing(d, st, i, mode, r)
  {
    OneApplied(d, st, i, mode, r);
    hide Attempt, Snapshot, TextOf, SameText, ImpactOf;
  }

  ghost predicate SomeChanging(d: Domain, st: State, todo: seq<nat>, mode: Mode, r: Row)
    requires |st.rows| == |st.written|
  {
    exists k :: 0 <= k < |todo| && StateAt(d, st, todo, mode, k).Some?
                && Changing(d, StateAt(d, st, todo, mode, k).value, todo[k], mode, r)
  }

  /** A bulk resolution changes a text exactly if it comes to a row that changes it then. */
  lemma {:induction false} ChangesExactly(d: Domain, st: State, todo: seq<nat>, mode: Mode, r: Row)
    requires |st.rows| == |st.written| && Distinct(todo) && OneKind(st.rows, todo, r)
    ensures Changes(d, st, todo, mode, r) >= 1 <==> SomeChanging(d, st, todo, mode, r)
    decreases |todo|
  {
    hide ResolveAt, TextOf, Changing;
    if todo != [] {
      assert todo[0] in todo;
      var (st', reply) := ResolveAt(d, st, todo[0], mode);
      var rest := todo[1..];
      ChangingChanges(d, st, todo[0], mode, r);
      assert StateAt(d, st, todo, mode, 0) == Some(st);
      if !reply.Thrown? {
        RestAfterOne(d, st, todo, mode, r);
        ChangesExactly(d, st', rest, mode, r);
      }
      LaterState(d, st, todo, mode, r);
    }
  }

  lemma LaterState(d: Domain, st: State, todo: seq<nat>, mode: Mode, r: Row)
    requires |st.rows| == |st.written| && todo != []
    ensures var (st', reply) := ResolveAt(d, st, todo[0], mode);
            SomeChanging(d, st, todo, mode, r)
            <==> Changing(d, st, todo[0], mode, r) || (!reply.Thrown? && SomeChanging(d, st', todo[1..], mode, r))
  {
    hide ResolveAt, Changing;
    var (st', reply) := ResolveAt(d, st, todo[0], mode);
    var rest := todo[1..];
    assert StateAt(d, st, todo, mode, 0) == Some(st);
    if SomeChanging(d, st, todo, mode, r) {
      var k :| 0 <= k < |todo| && StateAt(d, st, todo, mode, k).Some?
               && Changing(d, StateAt(d, st, todo, mode, k).value, todo[k], mode, r);
      assert k > 0 ==> rest[k - 1] == todo[k];
    }
    if !reply.Thrown? && SomeChanging(d, st', rest, mode, r) {
      var k :| 0 <= k < |rest| && StateAt(d, st', rest, mode, k).Some?
               && Changing(d, StateAt(d, st', rest, mode, k).value, rest[k], mode, r);
      assert todo[k + 1] == rest[k];
      assert StateAt(d, st, todo, mode, k + 1) == StateAt(d, st', rest, mode, k);
    }
  }

  /** A text is changed a second time exactly if, after the first change, the bulk comes to another row that does. */
  lemma {:induction false} SecondChangeExactly(d: Domain, st: State, todo: seq<nat>, mode: Mode, r: Row)
    requires |st.rows| == |st.written| && Distinct(todo) && OneKind(st.rows, todo, r)
    ensures Changes(d, st, todo, mode, r) >= 2
            <==> var first := FirstChange(d, st, todo, mode, r);
                 && first.Some? && |first.value.0.rows| == |first.value.0.written|
                 && SomeChanging(d, first.value.0, first.value.1, mode, r)
    decreases |todo|
  {
    hide ResolveAt, TextOf, SomeChanging;
    if todo != [] {
      var (st', reply) := ResolveAt(d, st, todo[0], mode);
      RestAfterOne(d, st, todo, mode, r);
      if !reply.Thrown? {
        ChangesExactly(d, st', todo[1..], mode, r);
        SecondChangeExactly(d, st', todo[1..], mode, r);
      }
    }
  }

  // ----- Review -----

  /** The positions `list_unresolved` returns among the first `n` rows. */
  function Unresolved(rows: seq<Row>, target: Phase, n: nat): (todo: seq<nat>)
    requires n <= |rows|
    ensures forall k :: 0 <= k < |todo| ==> todo[k] < n
    ensures forall i :: i in todo <==>
              0 <= i < n && rows[i].target == target && !rows[i].status.Applied? && !rows[i].status.Discarded?
    ensures forall k, m :: 0 <= k < m < |todo| ==> todo[k] < todo[m]
  {
    if n == 0 then []
    else if rows[n - 1].target == target && !rows[n - 1].status.Applied? && !rows[n - 1].status.Discarded? then
      Unresolved(rows, target, n - 1) + [n - 1]
    else Unresolved(rows, target, n - 1)
  }

  predicate Obsolete(d: Domain, st: State, i: nat, luck: nat -> Luck)
    requires i < |st.rows|
  {
    st.rows[i].status.Completed? && luck(i).readable && !Fresh(d, st.artifacts, st.rows[i])
  }

  predicate Shown(d: Domain, st: State, i: nat, luck: nat -> Luck)
    requires i < |st.rows|
  {
    !st.rows[i].status.Completed? || (luck(i).readable && Fresh(d, st.artifacts, st.rows[i]))
  }

  /** Row `i` after a review has looked at it. */
  function Looked(d: Domain, st: State, i: nat, luck: nat -> Luck): (out: (State, Reply))
    requires i < |st.rows|
    ensures |out.0.rows| == |st.rows| && out.0.written == st.written && out.0.artifacts == st.artifacts
    ensures forall j :: 0 <= j < |st.rows| && j != i ==> out.0.rows[j] == st.rows[j]
  {
    if Obsolete(d, st, i, luck) then Record(st, i, st.rows[i].(status := Discarded), luck(i).saving, Stale)
    else (st, Resolved)
  }

  /**
   The loop of `GetConsistencyReviewUseCase.execute`: the table afterwards and the rows shown as cards, or no cards
   if a save raises.
   */
  function Review(d: Domain, st: State, todo: seq<nat>, luck: nat -> Luck): (State, Option<seq<nat>>)
    requires forall k :: 0 <= k < |todo| ==> todo[k] < |st.rows|
    decreases |todo|
  {
    if todo == [] then (st, Some([]))
    else
      var (st', reply) := Looked(d, st, todo[0], luck);
      if reply.Thrown? then (st', None)
      else
        match Review(d, st', todo[1..], luck)
        case (end, None) => (end, None)
        case (end, Some(cards)) => (end, Some((if Shown(d, st, todo[0], luck) then [todo[0]] else []) + cards))
  }

  /**
   A review discards only stale rows among those it could check, and changes nothing else.  If it is not broken off it
   discards them all, and shows the rest, each once.
   */
  lemma {:induction false} ReviewSifts(d: Domain, st: State, todo: seq<nat>, luck: nat -> Luck)
    requires (forall k :: 0 <= k < |todo| ==> todo[k] < |st.rows|) && Distinct(todo)
    ensures var (end, shown) := Review(d, st, todo, luck);
            && |end.rows| == |st.rows| && end.artifacts == st.artifacts && end.written == st.written
            && (forall i :: 0 <= i < |st.rows| ==>
                  end.rows[i] == st.rows[i]
                  || (i in todo && Obsolete(d, st, i, luck) && end.rows[i] == st.rows[i].(status := Discarded)))
            && (shown.Some? ==>
                  && (forall i :: i in todo && i < |st.rows| && Obsolete(d, st, i, luck) ==>
                        end.rows[i].status == Discarded)
                  && (forall i :: i in shown.value <==> i in todo && i < |st.rows| && Shown(d, st, i, luck))
                  && Distinct(shown.value))
    decreases |todo|
  {
    hide Fresh;
    if todo != [] {
      var i := todo[0];
      var rest := todo[1..];
      var (st', reply) := Looked(d, st, i, luck);
      assert forall j :: j in todo <==> j == i || j in rest;
      assert i !in rest;
      if !reply.Thrown? {
        ReviewSifts(d, st', rest, luck);
        assert forall j :: j in rest ==> st'.rows[j] == st.rows[j];
      }
    }
  }
}
