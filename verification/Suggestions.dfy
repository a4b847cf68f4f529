/**
 Consistency suggestions: rows written by an evaluation, guarded by a snapshot of the texts they were made
 from, then reviewed, applied, discarded or superseded.
 */
module Suggestions {
  import opened Wrappers
  import opened Artifacts

  datatype Phase = Discovery | Features | Requirements | Model | Code

  datatype RowStatus = Evaluating | Completed | RowFailed | Applied | Discarded

  datatype Diff = Diff(field: string, before: string, after: string)

  /** The part of an evaluation result that applying uses. */
  datatype Proposal = Proposal(action: string, diff: Option<Diff>)

  datatype Row = Row(
    source: Phase,
    target: Phase,
    artifactId: string,
    artifactType: string,
    snapshot: string,
    status: RowStatus,
    proposal: Proposal)

  // ----- Keys and scopes -----

  /** `_feature_scope`: what comes before the first colon. */
  function Scope(artifactId: string): string {
    if artifactId == "" || artifactId[0] == ':' then "" else [artifactId[0]] + Scope(artifactId[1..])
  }

  datatype Item = Item(targetId: string, displayId: string, artifactType: string, proposal: Proposal)

  /** `_row_key`. */
  function RowKey(item: Item): string {
    if item.artifactType == "EARSRequirement" then item.targetId + ":" + item.displayId else item.targetId
  }

  lemma {:induction false} ScopeOf(id: string, tail: string)
    ensures ':' !in id ==> Scope(id) == id && Scope(id + ":" + tail) == id
    ensures ':' in id ==> Scope(id) != id && Scope(id + ":" + tail) != id
    ensures ':' !in Scope(id)
  {
    if id == "" {
      assert id + ":" + tail == ":" + tail;
    } else {
      assert id == [id[0]] + id[1..];
      assert (id + ":" + tail)[1..] == id[1..] + ":" + tail;
      ScopeOf(id[1..], tail);
      assert |Scope(id + ":" + tail)| <= |id| by {
        ScopeWithin(id, ":" + tail);
        assert id + (":" + tail) == id + ":" + tail;
      }
    }
  }

  lemma {:induction false} ScopeWithin(id: string, tail: string)
    requires tail != "" && tail[0] == ':'
    ensures |Scope(id + tail)| <= |id|
  {
    if id == "" {
      assert id + tail == tail;
    } else {
      assert (id + tail)[1..] == id[1..] + tail;
      ScopeWithin(id[1..], tail);
    }
  }

  /** The guard reads, and applying changes, the artifact the item is about exactly when its id has no colon. */
  lemma ScopeUndoesKey(item: Item)
    ensures Scope(RowKey(item)) == item.targetId <==> ':' !in item.targetId
  {
    ScopeOf(item.targetId, item.displayId);
  }

  // ----- Snapshots -----

  function PhaseName(p: Phase): string {
    match p
    case Discovery => "descubrimiento"
    case Features => "caracteristicas"
    case Requirements => "requisitos"
    case Model => "modelo"
    case Code => "implementacion"
  }

  function StatusName(s: Status): string {
    match s
    case Pending => "pending"
    case InProgress => "in_progress"
    case Implemented => "implemented"
    case RequiresReview => "requires_review"
    case Failed => "failed"
  }

  /** Phases and statuses are told apart by the names that enter a snapshot, and no name holds a bar. */
  lemma NamesDiffer(p: Phase, q: Phase, s: Status, t: Status)
    ensures PhaseName(p) == PhaseName(q) <==> p == q
    ensures StatusName(s) == StatusName(t) <==> s == t
    ensures '|' !in PhaseName(p) && '|' !in StatusName(s)
  {
    assert |PhaseName(Discovery)| == 14 && |PhaseName(Features)| == 15 && |PhaseName(Requirements)| == 10;
    assert |PhaseName(Model)| == 6 && |PhaseName(Code)| == 14;
    assert PhaseName(Discovery)[0] == 'd' && PhaseName(Code)[0] == 'i';
    assert |StatusName(Pending)| == 7 && |StatusName(InProgress)| == 11 && |StatusName(Implemented)| == 11;
    assert |StatusName(RequiresReview)| == 15 && |StatusName(Failed)| == 6;
    assert StatusName(InProgress)[2] == '_' && StatusName(Implemented)[2] == 'p';
  }

  function Joined(parts: seq<string>, bar: string): string {
    if parts == [] then "" else if |parts| == 1 then parts[0] else parts[0] + bar + Joined(parts[1..], bar)
  }

  function FeatureText(a: Artifacts, id: string): string {
    if id in a.features then
      a.features[id].title + "|" + a.features[id].description + "|" + a.features[id].origin
    else "none"
  }

  function RequirementText(a: Artifacts, id: string): string {
    if id in a.requirements && a.requirements[id] != "" then a.requirements[id] else "none"
  }

  function DiagramText(a: Artifacts, id: string): string {
    if id in a.diagrams then a.diagrams[id] else "none"
  }

  function DiscoveryText(d: Domain, a: Artifacts): string {
    match a.discovery case Some(document) => d.toMarkdown(document) case None => "none"
  }

  function CodeText(a: Artifacts, id: string): string {
    if id in a.implementations then
      StatusName(a.implementations[id].status) + "|" + Joined(a.implementations[id].files, ",")
    else "none"
  }

  function SourceText(d: Domain, a: Artifacts, source: Phase, scope: string): string {
    match source
    case Discovery => DiscoveryText(d, a)
    case Features => FeatureText(a, scope)
    case Requirements => RequirementText(a, scope)
    case Model => DiagramText(a, scope)
    case Code => "none"
  }

  function TargetText(d: Domain, a: Artifacts, artifactType: string, scope: string): string {
    if artifactType == "Feature" then FeatureText(a, scope)
    else if artifactType == "EARSRequirement" then RequirementText(a, scope)
    else if artifactType == "ActivityDiagram" then DiagramText(a, scope)
    else if artifactType == "DiscoveryDocument" then DiscoveryText(d, a)
    else if artifactType == "FeatureImplementation" then CodeText(a, scope)
    else "none"
  }

  /** `fetch_snapshot_parts`. */
  function Parts(d: Domain, a: Artifacts, r: Row): seq<string> {
    [PhaseName(r.source), PhaseName(r.target), r.artifactId, r.artifactType,
     SourceText(d, a, r.source, Scope(r.artifactId)), TargetText(d, a, r.artifactType, Scope(r.artifactId))]
  }

  /** What is hashed: the parts joined with a bar.  The hash is taken to be injective on this string. */
  function Snapshot(d: Domain, a: Artifacts, r: Row): string {
    Joined(Parts(d, a, r), "|")
  }

  function Prefix(r: Row): string {
    PhaseName(r.source) + "|" + PhaseName(r.target) + "|" + r.artifactId + "|" + r.artifactType + "|"
  }

  lemma SnapshotSplits(d: Domain, a: Artifacts, r: Row)
    ensures Snapshot(d, a, r) == Prefix(r) + (SourceText(d, a, r.source, Scope(r.artifactId)) + "|"
                                              + TargetText(d, a, r.artifactType, Scope(r.artifactId)))
  {
    var p := Parts(d, a, r);
    assert p == [p[0]] + ([p[1]] + ([p[2]] + ([p[3]] + ([p[4]] + [p[5]]))));
    JoinedMore(p[4], [p[5]]);
    JoinedMore(p[3], [p[4]] + [p[5]]);
    JoinedMore(p[2], [p[3]] + ([p[4]] + [p[5]]));
    JoinedMore(p[1], [p[2]] + ([p[3]] + ([p[4]] + [p[5]])));
    JoinedMore(p[0], [p[1]] + ([p[2]] + ([p[3]] + ([p[4]] + [p[5]]))));
    JoinedOne(p[5]);
    hide Joined, SourceText, TargetText;
    FiveBars(p[0], p[1], p[2], p[3], p[4], p[5]);
  }

  lemma JoinedMore(first: string, rest: seq<string>)
    requires rest != []
    ensures Joined([first] + rest, "|") == first + "|" + Joined(rest, "|")
  {
    assert ([first] + rest)[1..] == rest;
  }

  lemma JoinedOne(only: string)
    ensures Joined([only], "|") == only
  {
  }

  lemma FiveBars(a: string, b: string, c: string, d: string, e: string, f: string)
    ensures a + "|" + (b + "|" + (c + "|" + (d + "|" + (e + "|" + f))))
            == (a + "|" + b + "|" + c + "|" + d + "|") + (e + "|" + f)
  {
  }

  lemma SameSnapshot(d: Domain, a: Artifacts, a': Artifacts, r: Row)
    ensures var sc := Scope(r.artifactId);
            Snapshot(d, a, r) == Snapshot(d, a', r) <==>
              SourceText(d, a, r.source, sc) + "|" + TargetText(d, a, r.artifactType, sc)
              == SourceText(d, a', r.source, sc) + "|" + TargetText(d, a', r.artifactType, sc)
  {
    SnapshotSplits(d, a, r);
    SnapshotSplits(d, a', r);
    var sc := Scope(r.artifactId);
    var x := SourceText(d, a, r.source, sc) + "|" + TargetText(d, a, r.artifactType, sc);
    var y := SourceText(d, a', r.source, sc) + "|" + TargetText(d, a', r.artifactType, sc);
    CancelPrefix(Prefix(r), x, y);
  }

  lemma CancelPrefix(p: string, x: string, y: string)
    ensures p + x == p + y <==> x == y
  {
    if p + x == p + y {
      assert x == (p + x)[|p|..] && y == (p + y)[|p|..];
    }
  }
}
