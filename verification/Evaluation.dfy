/**
 The evaluation of a phase against the phases after it, which writes the rows of each pair of phases and
 supersedes those it did not reproduce.
 */
module Evaluation {
  import opened Wrappers
  import opened Artifacts
  import opened Suggestions
  import opened SuggestionRuns

  // ----- The natural key, and what an evaluation writes -----

  predicate SameKey(r: Row, r': Row) {
    r.source == r'.source && r.target == r'.target && r.artifactId == r'.artifactId
  }

  /** The position of the row with the key of `r`, or the number of rows. */
  function Find(rows: seq<Row>, r: Row): (i: nat)
    ensures i <= |rows|
    ensures i < |rows| ==> SameKey(rows[i], r)
    ensures forall j :: 0 <= j < i ==> !SameKey(rows[j], r)
  {
    if rows == [] || SameKey(rows[0], r) then 0 else 1 + Find(rows[1..], r)
  }

  /** `save`: a row whose key is taken is overwritten in its place. */
  function Save(st: State, r: Row, seen: Artifacts): State
    requires |st.rows| == |st.written|
  {
    var i := Find(st.rows, r);
    if i < |st.rows| then State(st.artifacts, st.rows[i := r], st.written[i := seen])
    else State(st.artifacts, st.rows + [r], st.written + [seen])
  }

  ghost predicate KeysUnique(rows: seq<Row>) {
    forall i, j :: 0 <= i < j < |rows| ==> !SameKey(rows[i], rows[j])
  }

  function Suggestion(d: Domain, seen: Artifacts, source: Phase, target: Phase, item: Item): Row {
    var draft := Row(source, target, RowKey(item), item.artifactType, "", Completed, item.proposal);
    draft.(snapshot := Snapshot(d, seen, draft))
  }

  /** The row that records a failed pair. */
  function Marker(source: Phase, target: Phase): Row {
    Row(source, target, "_pair", "_PairEvaluation", "", RowFailed, Proposal("update", None))
  }

  /** The artifact type `enrich_impact_items` gives to the items of a target phase. */
  function KindOf(target: Phase): string {
    match target
    case Discovery => "DiscoveryDocument"
    case Features => "Feature"
    case Requirements => "EARSRequirement"
    case Model => "ActivityDiagram"
    case Code => "FeatureImplementation"
  }

  /** What a row suggests to change is what its target phase holds: the text that phase is the source of. */
  lemma KindIsOfItsPhase(d: Domain, a: Artifacts, target: Phase, scope: string)
    ensures TargetText(d, a, KindOf(target), scope)
            == if target.Code? then CodeText(a, scope) else SourceText(d, a, target, scope)
  {
  }

  /** Where an exception that nothing catches ends the work on a reported pair: among the items, or among the rows. */
  datatype Stop = Nowhere | AfterItems(n: nat) | AfterRows(n: nat)

  /**
   How it goes with a pair.  `marker` tells how the marker row is saved; `stop` of an empty pair is the row at which
   superseding fails, which counts as a failed pair.  `readable(k)` says that the texts behind item `k` can be read.
   */
  datatype Outcome =
    | Broken(marker: Saving)
    | NothingThere(rows: Option<nat>, marker: Saving)
    | Reported(items: seq<Item>, readable: nat -> bool, stop: Stop)

  /** The loop over the items from position `n`. */
  function WriteItems(d: Domain, st: State, source: Phase, target: Phase, items: seq<Item>,
                      readable: nat -> bool, n: nat): (out: State)
    requires |st.rows| == |st.written| && n <= |items|
    ensures |out.rows| == |out.written| && out.artifacts == st.artifacts
    decreases |items| - n
  {
    if n == |items| then st
    else if readable(n) then
      WriteItems(d, Save(st, Suggestion(d, st.artifacts, source, target, items[n]), st.artifacts),
                 source, target, items, readable, n + 1)
    else WriteItems(d, st, source, target, items, readable, n + 1)
  }

  function KeysOf(items: seq<Item>): (keys: set<string>)
    ensures forall k :: 0 <= k < |items| ==> RowKey(items[k]) in keys
    ensures forall key :: key in keys ==> exists k :: 0 <= k < |items| && RowKey(items[k]) == key
  {
    set k | 0 <= k < |items| :: RowKey(items[k])
  }

  predicate Superseded(r: Row, source: Phase, target: Phase, kept: set<string>) {
    r.source == source && r.target == target && r.status.Completed? && r.artifactId !in kept
  }

  /** `_supersede_pair`, up to row `n`. */
  function Supersede(rows: seq<Row>, source: Phase, target: Phase, kept: set<string>, n: nat): (out: seq<Row>)
    ensures |out| == |rows|
  {
    seq(|rows|, i requires 0 <= i < |rows| =>
      if i < n && Superseded(rows[i], source, target, kept) then rows[i].(status := Discarded) else rows[i])
  }

  function SaveMarker(st: State, source: Phase, target: Phase, marker: Saving): (out: (State, bool))
    requires |st.rows| == |st.written|
    ensures |out.0.rows| == |out.0.written| && out.0.artifacts == st.artifacts
  {
    (if marker.Lost? then st else Save(st, Marker(source, target), st.artifacts), !marker.Saved?)
  }

  function FirstItems(items: seq<Item>, n: nat): seq<Item> {
    if n < |items| then items[..n] else items
  }

  /** One round of the loop of `run_consistency_evaluation`, and whether an exception ends the evaluation there. */
  function EvaluatePair(d: Domain, st: State, source: Phase, target: Phase, outcome: Outcome): (out: (State, bool))
    requires |st.rows| == |st.written|
    ensures |out.0.rows| == |out.0.written| && out.0.artifacts == st.artifacts
  {
    match outcome
    case Broken(marker) => SaveMarker(st, source, target, marker)
    case NothingThere(None, _) => (st.(rows := Supersede(st.rows, source, target, {}, |st.rows|)), false)
    case NothingThere(Some(n), marker) =>
      SaveMarker(st.(rows := Supersede(st.rows, source, target, {}, n)), source, target, marker)
    case Reported(items, readable, Nowhere) =>
      var st' := WriteItems(d, st, source, target, items, readable, 0);
      (st'.(rows := Supersede(st'.rows, source, target, KeysOf(items), |st'.rows|)), false)
    case Reported(items, readable, AfterItems(n)) =>
      (WriteItems(d, st, source, target, FirstItems(items, n), readable, 0), true)
    case Reported(items, readable, AfterRows(n)) =>
      var st' := WriteItems(d, st, source, target, items, readable, 0);
      (st'.(rows := Supersede(st'.rows, source, target, KeysOf(items), n)), true)
  }

  // ----- What saving keeps -----

  ghost predicate InPair(r: Row, source: Phase, target: Phase) {
    r.source == source && r.target == target
  }

  /** The old rows stay where they are, with their keys; only rows of the pair change or appear. */
  ghost predicate OnlyPair(before: seq<Row>, after: seq<Row>, source: Phase, target: Phase) {
    && |before| <= |after|
    && (forall i :: 0 <= i < |before| ==>
          SameKey(after[i], before[i]) && (InPair(before[i], source, target) || after[i] == before[i]))
    && (forall i :: |before| <= i < |after| ==> InPair(after[i], source, target))
  }

  ghost predicate Present(rows: seq<Row>, r: Row) {
    exists i :: 0 <= i < |rows| && rows[i] == r
  }

  lemma SaveKeeps(st: State, r: Row, seen: Artifacts)
    requires |st.rows| == |st.written|
    ensures var st' := Save(st, r, seen);
            && OnlyPair(st.rows, st'.rows, r.source, r.target)
            && Present(st'.rows, r)
            && (KeysUnique(st.rows) ==> KeysUnique(st'.rows))
            && (forall i :: 0 <= i < |st'.rows| && st'.rows[i] != r ==> i < |st.rows| && st'.rows[i] == st.rows[i])
            && (forall i :: 0 <= i < |st.rows| && !SameKey(st.rows[i], r) ==> st'.rows[i] == st.rows[i])
  {
    var i := Find(st.rows, r);
    var st' := Save(st, r, seen);
    assert st'.rows[i] == r;
  }

  /** Rows of the pair are either as before or written by this evaluation, from the artifacts as they are. */
  ghost predicate Written(d: Domain, st: State, r: Row, source: Phase, target: Phase, items: seq<Item>,
                          readable: nat -> bool, n: nat)
    requires n <= |items|
  {
    exists k :: n <= k < |items| && readable(k) && r == Suggestion(d, st.artifacts, source, target, items[k])
  }

  lemma OnlyPairTwice(a: seq<Row>, b: seq<Row>, c: seq<Row>, source: Phase, target: Phase)
    requires OnlyPair(a, b, source, target) && OnlyPair(b, c, source, target)
    ensures OnlyPair(a, c, source, target)
  {
  }

  lemma SuggestionFacts(d: Domain, seen: Artifacts, source: Phase, target: Phase, item: Item)
    ensures var r := Suggestion(d, seen, source, target, item);
            InPair(r, source, target) && r.artifactId == RowKey(item) && r.status.Completed? && Fresh(d, seen, r)
  {
  }

  lemma SaveFits(st: State, r: Row, seen: Artifacts)
    requires |st.rows| == |st.written|
    ensures Save(st, r, seen).artifacts == st.artifacts
    ensures |Save(st, r, seen).rows| == |Save(st, r, seen).written|
  {
  }

  /** The table after the first item of those left, when it is written. */
  function WriteOne(d: Domain, st: State, source: Phase, target: Phase, item: Item): (out: State)
    requires |st.rows| == |st.written|
    ensures |out.rows| == |out.written| && out.artifacts == st.artifacts
  {
    Save(st, Suggestion(d, st.artifacts, source, target, item), st.artifacts)
  }

  lemma {:induction false} WriteItemsKeeps(d: Domain, st: State, source: Phase, target: Phase, items: seq<Item>,
                                           readable: nat -> bool, n: nat)
    requires |st.rows| == |st.written| && n <= |items| && KeysUnique(st.rows)
    ensures var out := WriteItems(d, st, source, target, items, readable, n);
            OnlyPair(st.rows, out.rows, source, target) && KeysUnique(out.rows)
    decreases |items| - n
  {
    hide Save, Suggestion, KeysUnique, OnlyPair;
    if n == |items| {
      assert OnlyPair(st.rows, st.rows, source, target) by { OnlyPairNone(st.rows, source, target); }
    } else if readable(n) {
      var r := Suggestion(d, st.artifacts, source, target, items[n]);
      var st' := WriteOne(d, st, source, target, items[n]);
      SuggestionFacts(d, st.artifacts, source, target, items[n]);
      SaveKeeps(st, r, st.artifacts);
      WriteItemsKeeps(d, st', source, target, items, readable, n + 1);
      OnlyPairTwice(st.rows, st'.rows, WriteItems(d, st', source, target, items, readable, n + 1).rows, source, target);
    } else {
      WriteItemsKeeps(d, st, source, target, items, readable, n + 1);
    }
  }

  lemma OnlyPairNone(rows: seq<Row>, source: Phase, target: Phase)
    ensures OnlyPair(rows, rows, source, target)
  {
  }

  /** Every row is as it was, or written by this evaluation. */
  lemma {:induction false} WriteItemsWrite(d: Domain, st: State, source: Phase, target: Phase, items: seq<Item>,
                                           readable: nat -> bool, n: nat, i: nat)
    requires |st.rows| == |st.written| && n <= |items|
    requires i < |WriteItems(d, st, source, target, items, readable, n).rows|
    ensures var r := WriteItems(d, st, source, target, items, readable, n).rows[i];
            (i < |st.rows| && r == st.rows[i]) || Written(d, st, r, source, target, items, readable, n)
    decreases |items| - n
  {
    hide Save, Suggestion, OnlyPair, KeysUnique;
    if n < |items| && readable(n) {
      var r := Suggestion(d, st.artifacts, source, target, items[n]);
      SaveKeeps(st, r, st.artifacts);
      WriteItemsWrite(d, WriteOne(d, st, source, target, items[n]), source, target, items, readable, n + 1, i);
    } else if n < |items| {
      WriteItemsWrite(d, st, source, target, items, readable, n + 1, i);
    }
  }

  ghost predicate Current(d: Domain, a: Artifacts, rows: seq<Row>, source: Phase, target: Phase, key: string) {
    exists i :: 0 <= i < |rows| && InPair(rows[i], source, target) && rows[i].artifactId == key
                && rows[i].status.Completed? && Fresh(d, a, rows[i])
  }

  /** A key that is current stays current. */
  lemma {:induction false} StaysCurrent(d: Domain, st: State, source: Phase, target: Phase, items: seq<Item>,
                                        readable: nat -> bool, n: nat, key: string)
    requires |st.rows| == |st.written| && n <= |items|
    requires Current(d, st.artifacts, st.rows, source, target, key)
             || exists k :: n <= k < |items| && readable(k) && RowKey(items[k]) == key
    ensures Current(d, st.artifacts, WriteItems(d, st, source, target, items, readable, n).rows, source, target, key)
    decreases |items| - n
  {
    hide Save, Suggestion, OnlyPair, KeysUnique, Fresh, RowKey, Current;
    if n < |items| && readable(n) {
      CurrentAfterOne(d, st, source, target, items[n], key);
      StaysCurrent(d, WriteOne(d, st, source, target, items[n]), source, target, items, readable, n + 1, key);
    } else if n < |items| {
      StaysCurrent(d, st, source, target, items, readable, n + 1, key);
    }
  }

  lemma CurrentAfterOne(d: Domain, st: State, source: Phase, target: Phase, item: Item, key: string)
    requires |st.rows| == |st.written|
    ensures var st' := WriteOne(d, st, source, target, item);
            && Current(d, st.artifacts, st'.rows, source, target, RowKey(item))
            && (Current(d, st.artifacts, st.rows, source, target, key) ==>
                  Current(d, st.artifacts, st'.rows, source, target, key))
  {
    hide Save, Suggestion, OnlyPair, KeysUnique, Fresh, RowKey;
    var r := Suggestion(d, st.artifacts, source, target, item);
    SuggestionFacts(d, st.artifacts, source, target, item);
    SaveKeeps(st, r, st.artifacts);
    var rows' := WriteOne(d, st, source, target, item).rows;
    var j :| 0 <= j < |rows'| && rows'[j] == r;
    if key != RowKey(item) && Current(d, st.artifacts, st.rows, source, target, key) {
      var i :| 0 <= i < |st.rows| && InPair(st.rows[i], source, target) && st.rows[i].artifactId == key
               && st.rows[i].status.Completed? && Fresh(d, st.artifacts, st.rows[i]);
      assert !SameKey(st.rows[i], r);
      assert rows'[i] == st.rows[i];
    }
  }

  // ----- The main results -----

  /**
   After a reported pair: its COMPLETED rows carry keys of the items; every readable item has a COMPLETED row that
   matches the artifacts; a COMPLETED row not rewritten is one that was there; other pairs are untouched.
   */
  lemma ReportSettlesPair(d: Domain, st: State, source: Phase, target: Phase, items: seq<Item>,
                          readable: nat -> bool)
    requires |st.rows| == |st.written| && KeysUnique(st.rows)
    ensures var out := EvaluatePair(d, st, source, target, Reported(items, readable, Nowhere)).0;
            && KeysUnique(out.rows) && OnlyPair(st.rows, out.rows, source, target)
            && (forall i :: 0 <= i < |out.rows| && InPair(out.rows[i], source, target) && out.rows[i].status.Completed?
                  ==> out.rows[i].artifactId in KeysOf(items)
                      && ((i < |st.rows| && out.rows[i] == st.rows[i])
                          || Written(d, st, out.rows[i], source, target, items, readable, 0)))
            && (forall k :: 0 <= k < |items| && readable(k) ==>
                  Current(d, st.artifacts, out.rows, source, target, RowKey(items[k])))
  {
    hide WriteItems, Fresh, RowKey, Written, Current, KeysUnique, OnlyPair;
    var mid := WriteItems(d, st, source, target, items, readable, 0);
    var keys := KeysOf(items);
    var rows := Supersede(mid.rows, source, target, keys, |mid.rows|);
    WriteThenSupersede(d, st, source, target, items, readable, keys, |mid.rows|);
    SupersedeKeeps(mid.rows, source, target, keys, |mid.rows|);
    forall i | 0 <= i < |rows| && InPair(rows[i], source, target) && rows[i].status.Completed?
      ensures (i < |st.rows| && rows[i] == st.rows[i]) || Written(d, st, rows[i], source, target, items, readable, 0)
    {
      WriteItemsWrite(d, st, source, target, items, readable, 0, i);
    }
    forall k | 0 <= k < |items| && readable(k)
      ensures Current(d, st.artifacts, rows, source, target, RowKey(items[k]))
    {
      StaysCurrent(d, st, source, target, items, readable, 0, RowKey(items[k]));
      CurrentKept(d, st.artifacts, mid.rows, source, target, keys, |mid.rows|, RowKey(items[k]));
    }
  }

  lemma WriteThenSupersede(d: Domain, st: State, source: Phase, target: Phase, items: seq<Item>,
                           readable: nat -> bool, keys: set<string>, n: nat)
    requires |st.rows| == |st.written| && KeysUnique(st.rows)
    ensures var mid := WriteItems(d, st, source, target, items, readable, 0);
            var rows := Supersede(mid.rows, source, target, keys, n);
            OnlyPair(st.rows, rows, source, target) && KeysUnique(rows)
  {
    hide WriteItems, KeysUnique, OnlyPair, Supersede;
    var mid := WriteItems(d, st, source, target, items, readable, 0);
    WriteItemsKeeps(d, st, source, target, items, readable, 0);
    SupersedeKeeps(mid.rows, source, target, keys, n);
    OnlyPairTwice(st.rows, mid.rows, Supersede(mid.rows, source, target, keys, n), source, target);
  }

  lemma SupersedeKeeps(rows: seq<Row>, source: Phase, target: Phase, kept: set<string>, n: nat)
    ensures var out := Supersede(rows, source, target, kept, n);
            && OnlyPair(rows, out, source, target) && (KeysUnique(rows) ==> KeysUnique(out))
            && forall i :: 0 <= i < |rows| && out[i].status.Completed? ==>
                 out[i] == rows[i] && (i < n && InPair(rows[i], source, target) ==> rows[i].artifactId in kept)
  {
    SupersededKeys(rows, source, target, kept, n);
    hide KeysUnique;
  }

  lemma SupersededKeys(rows: seq<Row>, source: Phase, target: Phase, kept: set<string>, n: nat)
    ensures KeysUnique(rows) ==> KeysUnique(Supersede(rows, source, target, kept, n))
  {
    var out := Supersede(rows, source, target, kept, n);
    assert forall i :: 0 <= i < |rows| ==> SameKey(out[i], rows[i]);
  }

  lemma CurrentKept(d: Domain, a: Artifacts, rows: seq<Row>, source: Phase, target: Phase, kept: set<string>, n: nat,
                    key: string)
    requires Current(d, a, rows, source, target, key) && key in kept
    ensures Current(d, a, Supersede(rows, source, target, kept, n), source, target, key)
  {
    hide Fresh;
    var i :| 0 <= i < |rows| && InPair(rows[i], source, target) && rows[i].artifactId == key
             && rows[i].status.Completed? && Fresh(d, a, rows[i]);
    assert Supersede(rows, source, target, kept, n)[i] == rows[i];
  }

  lemma MarkerKeeps(st: State, source: Phase, target: Phase, marker: Saving)
    requires |st.rows| == |st.written|
    ensures var (out, raised) := SaveMarker(st, source, target, marker);
            && OnlyPair(st.rows, out.rows, source, target) && (KeysUnique(st.rows) ==> KeysUnique(out.rows))
            && (!raised ==> Present(out.rows, Marker(source, target)))
            && (forall i :: 0 <= i < |out.rows| && !SameKey(out.rows[i], Marker(source, target)) ==>
                  i < |st.rows| && out.rows[i] == st.rows[i])
  {
    OnlyPairNone(st.rows, source, target);
    hide Save, KeysUnique, OnlyPair;
    SaveKeeps(st, Marker(source, target), st.artifacts);
  }

  /**
   A failed pair changes its marker row and no other.  A pair with nothing to evaluate keeps no suggestion, unless
   superseding fails half way: then it counts as failed and gets its marker row.
   */
  lemma OtherOutcomes(d: Domain, st: State, source: Phase, target: Phase, n: nat, marker: Saving)
    requires |st.rows| == |st.written| && KeysUnique(st.rows)
    ensures var (out, raised) := EvaluatePair(d, st, source, target, Broken(marker));
            && KeysUnique(out.rows) && OnlyPair(st.rows, out.rows, source, target)
            && (!raised ==> Present(out.rows, Marker(source, target)))
            && (forall i :: 0 <= i < |out.rows| && !SameKey(out.rows[i], Marker(source, target)) ==>
                  i < |st.rows| && out.rows[i] == st.rows[i])
    ensures var (out, raised) := EvaluatePair(d, st, source, target, NothingThere(None, marker));
            && !raised && KeysUnique(out.rows) && OnlyPair(st.rows, out.rows, source, target)
            && (forall i :: 0 <= i < |out.rows| && InPair(out.rows[i], source, target) ==>
                  !out.rows[i].status.Completed?)
    ensures var (out, raised) := EvaluatePair(d, st, source, target, NothingThere(Some(n), marker));
            && KeysUnique(out.rows) && OnlyPair(st.rows, out.rows, source, target)
            && (!raised ==> Present(out.rows, Marker(source, target)))
  {
    hide SaveMarker, KeysUnique, OnlyPair;
    MarkerKeeps(st, source, target, marker);
    SupersedeKeeps(st.rows, source, target, {}, |st.rows|);
    var st' := st.(rows := Supersede(st.rows, source, target, {}, n));
    SupersedeKeeps(st.rows, source, target, {}, n);
    MarkerKeeps(st', source, target, marker);
    OnlyPairTwice(st.rows, st'.rows, SaveMarker(st', source, target, marker).0.rows, source, target);
  }

  /**
   A pair with nothing to evaluate whose superseding fails at row `n` counts as failed, but the rows before are
   discarded and stay so.  It changes no row other than its marker exactly if there was none to discard before `n`.
   */
  lemma HalfwayExactly(d: Domain, st: State, source: Phase, target: Phase, n: nat, marker: Saving)
    requires |st.rows| == |st.written|
    ensures var (out, raised) := EvaluatePair(d, st, source, target, NothingThere(Some(n), marker));
            var mark := Marker(source, target);
            && |st.rows| <= |out.rows|
            && (forall i :: 0 <= i < |st.rows| && !SameKey(st.rows[i], mark) ==>
                  out.rows[i] == if i < n && Superseded(st.rows[i], source, target, {})
                                 then st.rows[i].(status := Discarded) else st.rows[i])
            && ((forall i :: 0 <= i < |st.rows| && !SameKey(st.rows[i], mark) ==> out.rows[i] == st.rows[i])
                <==> forall i :: 0 <= i < |st.rows| && i < n && !SameKey(st.rows[i], mark) ==>
                       !Superseded(st.rows[i], source, target, {}))
  {
    var mark := Marker(source, target);
    var st' := st.(rows := Supersede(st.rows, source, target, {}, n));
    var out := EvaluatePair(d, st, source, target, NothingThere(Some(n), marker)).0;
    SaveKeeps(st', mark, st.artifacts);
    hide Save;
    assert forall i :: 0 <= i < |st.rows| ==> (SameKey(st.rows[i], mark) <==> SameKey(st'.rows[i], mark));
    assert forall i :: 0 <= i < |st.rows| && !SameKey(st.rows[i], mark) ==> out.rows[i] == st'.rows[i];
  }

  /** A failed pair that discards a pending suggestion: superseding succeeds at its only row and then raises. */
  lemma FailedPairDiscards(d: Domain, a: Artifacts, r: Row)
    requires r.status.Completed? && r.artifactId != "_pair"
    ensures var st := State(a, [r], [a]);
            var (out, raised) := EvaluatePair(d, st, r.source, r.target, NothingThere(Some(1), Saved));
            && !raised && Present(out.rows, Marker(r.source, r.target))
            && out.rows[0] == r.(status := Discarded)
  {
    var st := State(a, [r], [a]);
    HalfwayExactly(d, st, r.source, r.target, 1, Saved);
    MarkerKeeps(st.(rows := Supersede(st.rows, r.source, r.target, {}, 1)), r.source, r.target, Saved);
  }

  /** `trace_downstream_phases`. */
  function Downstream(source: Phase): seq<Phase> {
    match source
    case Discovery => [Features, Requirements, Model, Code]
    case Features => [Requirements, Model, Code]
    case Requirements => [Model, Code]
    case Model => [Code]
    case Code => []
  }

  /** The loop over the phases, and whether an exception ends it early. */
  function EvaluateFrom(d: Domain, st: State, source: Phase, targets: seq<Phase>, outcome: Phase -> Outcome)
    : (out: (State, bool))
    requires |st.rows| == |st.written|
    ensures |out.0.rows| == |out.0.written| && out.0.artifacts == st.artifacts
    decreases |targets|
  {
    if targets == [] then (st, false)
    else
      var (st', raised) := EvaluatePair(d, st, source, targets[0], outcome(targets[0]));
      if raised then (st', true) else EvaluateFrom(d, st', source, targets[1..], outcome)
  }

  lemma PairKeeps(d: Domain, st: State, source: Phase, target: Phase, outcome: Outcome)
    requires |st.rows| == |st.written| && KeysUnique(st.rows)
    ensures var out := EvaluatePair(d, st, source, target, outcome).0;
            KeysUnique(out.rows) && OnlyPair(st.rows, out.rows, source, target)
  {
    hide KeysUnique, OnlyPair, WriteItems, SaveMarker, Supersede;
    match outcome
    case Broken(marker) => OtherOutcomes(d, st, source, target, 0, marker);
    case NothingThere(None, marker) => OtherOutcomes(d, st, source, target, 0, marker);
    case NothingThere(Some(n), marker) => OtherOutcomes(d, st, source, target, n, marker);
    case Reported(items, readable, Nowhere) =>
      WriteThenSupersede(d, st, source, target, items, readable, KeysOf(items),
                         |WriteItems(d, st, source, target, items, readable, 0).rows|);
    case Reported(items, readable, AfterItems(n)) =>
      WriteItemsKeeps(d, st, source, target, FirstItems(items, n), readable, 0);
    case Reported(items, readable, AfterRows(n)) =>
      WriteThenSupersede(d, st, source, target, items, readable, KeysOf(items), n);
  }

  ghost predicate Touched(r: Row, source: Phase, targets: seq<Phase>) {
    r.source == source && r.target in targets
  }

  /** Only rows from `source` to one of `targets` change or appear. */
  ghost predicate OnlyTargets(before: seq<Row>, after: seq<Row>, source: Phase, targets: seq<Phase>) {
    && |before| <= |after|
    && (forall i :: 0 <= i < |before| ==>
          SameKey(after[i], before[i]) && (Touched(before[i], source, targets) || after[i] == before[i]))
    && (forall i :: |before| <= i < |after| ==> Touched(after[i], source, targets))
  }

  lemma PairThenTargets(a: seq<Row>, b: seq<Row>, c: seq<Row>, source: Phase, targets: seq<Phase>)
    requires targets != [] && OnlyPair(a, b, source, targets[0]) && OnlyTargets(b, c, source, targets[1..])
    ensures OnlyTargets(a, c, source, targets)
  {
    assert targets[0] in targets && forall t :: t in targets[1..] ==> t in targets;
  }

  /**
   An evaluation, broken off or not, leaves every row alone that is from another phase or to a phase it does not
   evaluate.
   */
  lemma {:induction false} EvaluationKeepsOthers(d: Domain, st: State, source: Phase, targets: seq<Phase>,
                                                 outcome: Phase -> Outcome)
    requires |st.rows| == |st.written| && KeysUnique(st.rows)
    ensures var out := EvaluateFrom(d, st, source, targets, outcome).0;
            KeysUnique(out.rows) && OnlyTargets(st.rows, out.rows, source, targets)
    decreases |targets|
  {
    hide KeysUnique, OnlyPair, EvaluatePair, OnlyTargets;
    OnlyTargetsNone(st.rows, source, targets);
    if targets != [] {
      var (st', raised) := EvaluatePair(d, st, source, targets[0], outcome(targets[0]));
      PairKeeps(d, st, source, targets[0], outcome(targets[0]));
      if raised {
        OnlyTargetsNone(st'.rows, source, targets[1..]);
        PairThenTargets(st.rows, st'.rows, st'.rows, source, targets);
      } else {
        EvaluationKeepsOthers(d, st', source, targets[1..], outcome);
        PairThenTargets(st.rows, st'.rows, EvaluateFrom(d, st', source, targets[1..], outcome).0.rows, source, targets);
      }
    }
  }

  lemma OnlyTargetsNone(rows: seq<Row>, source: Phase, targets: seq<Phase>)
    ensures OnlyTargets(rows, rows, source, targets)
  {
  }

  /** What an evaluation promises of one pair, given the rows before and after. */
  ghost predicate Settled(d: Domain, a: Artifacts, before: seq<Row>, after: seq<Row>, source: Phase, target: Phase,
                          outcome: Outcome) {
    match outcome
    case Broken(_) =>
      && Present(after, Marker(source, target))
      && forall i :: 0 <= i < |after| && InPair(after[i], source, target) && !SameKey(after[i], Marker(source, target))
           ==> i < |before| && after[i] == before[i]
    case NothingThere(None, _) =>
      forall i :: 0 <= i < |after| && InPair(after[i], source, target) ==> !after[i].status.Completed?
    case NothingThere(Some(_), _) => Present(after, Marker(source, target))
    case Reported(items, readable, _) =>
      && (forall i :: 0 <= i < |after| && InPair(after[i], source, target) && after[i].status.Completed? ==>
            after[i].artifactId in KeysOf(items))
      && (forall k :: 0 <= k < |items| && readable(k) ==> Current(d, a, after, source, target, RowKey(items[k])))
  }

  lemma PairSettled(d: Domain, st: State, source: Phase, target: Phase, outcome: Outcome)
    requires |st.rows| == |st.written| && KeysUnique(st.rows)
    ensures var (out, raised) := EvaluatePair(d, st, source, target, outcome);
            !raised ==> Settled(d, st.artifacts, st.rows, out.rows, source, target, outcome)
  {
    hide KeysUnique, OnlyPair, Current, Written, RowKey, WriteItems, SaveMarker, Supersede;
    match outcome
    case Broken(marker) => OtherOutcomes(d, st, source, target, 0, marker);
    case NothingThere(None, marker) => OtherOutcomes(d, st, source, target, 0, marker);
    case NothingThere(Some(n), marker) => OtherOutcomes(d, st, source, target, n, marker);
    case Reported(items, readable, Nowhere) => ReportSettlesPair(d, st, source, target, items, readable);
    case _ =>
  }

  lemma SettledStays(d: Domain, a: Artifacts, before: seq<Row>, mid: seq<Row>, after: seq<Row>, source: Phase,
                     target: Phase, outcome: Outcome, targets: seq<Phase>)
    requires Settled(d, a, before, mid, source, target, outcome)
    requires target !in targets && OnlyTargets(mid, after, source, targets)
    ensures Settled(d, a, before, after, source, target, outcome)
  {
    hide RowKey, Fresh, Present, Current;
    assert forall i :: 0 <= i < |after| && InPair(after[i], source, target) ==> i < |mid| && after[i] == mid[i];
    if Present(mid, Marker(source, target)) {
      PresentStays(mid, after, Marker(source, target), source, targets);
    }
    if outcome.Reported? {
      forall k | 0 <= k < |outcome.items| && outcome.readable(k)
        ensures Current(d, a, after, source, target, RowKey(outcome.items[k]))
      {
        CurrentStays(d, a, mid, after, source, target, RowKey(outcome.items[k]), targets);
      }
    }
  }

  lemma PresentStays(mid: seq<Row>, after: seq<Row>, r: Row, source: Phase, targets: seq<Phase>)
    requires Present(mid, r) && OnlyTargets(mid, after, source, targets) && r.target !in targets
    ensures Present(after, r)
  {
    var i :| 0 <= i < |mid| && mid[i] == r;
    assert after[i] == r;
  }

  lemma CurrentStays(d: Domain, a: Artifacts, mid: seq<Row>, after: seq<Row>, source: Phase, target: Phase,
                     key: string, targets: seq<Phase>)
    requires Current(d, a, mid, source, target, key) && OnlyTargets(mid, after, source, targets) && target !in targets
    ensures Current(d, a, after, source, target, key)
  {
    hide Fresh;
    var i :| 0 <= i < |mid| && InPair(mid[i], source, target) && mid[i].artifactId == key
             && mid[i].status.Completed? && Fresh(d, a, mid[i]);
    assert after[i] == mid[i];
  }

  lemma SettledFromBefore(d: Domain, a: Artifacts, before: seq<Row>, mid: seq<Row>, after: seq<Row>, source: Phase,
                          target: Phase, outcome: Outcome, first: Phase)
    requires Settled(d, a, mid, after, source, target, outcome)
    requires target != first && OnlyPair(before, mid, source, first)
    requires |mid| <= |after| && forall i :: 0 <= i < |mid| ==> SameKey(after[i], mid[i])
    ensures Settled(d, a, before, after, source, target, outcome)
  {
    hide RowKey, Fresh, Present, Current;
  }

  /** After a whole evaluation every pair it went through is settled. */
  lemma {:induction false} EvaluationSettles(d: Domain, st: State, source: Phase, targets: seq<Phase>,
                                             outcome: Phase -> Outcome, target: Phase)
    requires |st.rows| == |st.written| && KeysUnique(st.rows)
    requires target in targets && forall i, j :: 0 <= i < j < |targets| ==> targets[i] != targets[j]
    ensures var (out, raised) := EvaluateFrom(d, st, source, targets, outcome);
            !raised ==> Settled(d, st.artifacts, st.rows, out.rows, source, target, outcome(target))
    decreases |targets|
  {
    hide KeysUnique, OnlyPair, EvaluatePair, Settled;
    var first := targets[0];
    var (st', raised) := EvaluatePair(d, st, source, first, outcome(first));
    if !raised {
      var out := EvaluateFrom(d, st', source, targets[1..], outcome).0;
      PairKeeps(d, st, source, first, outcome(first));
      EvaluationKeepsOthers(d, st', source, targets[1..], outcome);
      if target == first {
        PairSettled(d, st, source, first, outcome(first));
        SettledStays(d, st.artifacts, st.rows, st'.rows, out.rows, source, target, outcome(target), targets[1..]);
      } else if !EvaluateFrom(d, st', source, targets[1..], outcome).1 {
        EvaluationSettles(d, st', source, targets[1..], outcome, target);
        SettledFromBefore(d, st.artifacts, st.rows, st'.rows, out.rows, source, target, outcome(target), first);
      }
    }
  }

  /** The phases in their order. */
  function Place(p: Phase): nat {
    match p case Discovery => 0 case Features => 1 case Requirements => 2 case Model => 3 case Code => 4
  }

  /** The phases after a phase, in order. */
  lemma DownstreamIsAfter(source: Phase)
    ensures forall p: Phase :: p in Downstream(source) <==> Place(source) < Place(p)
    ensures forall i, j :: 0 <= i < j < |Downstream(source)| ==>
              Place(Downstream(source)[i]) < Place(Downstream(source)[j])
  {
  }

  lemma DownstreamDistinct(source: Phase)
    ensures forall i, j :: 0 <= i < j < |Downstream(source)| ==> Downstream(source)[i] != Downstream(source)[j]
    ensures source !in Downstream(source)
  {
  }

  /**
   The evaluation of a phase, over the phases after it: one that runs to its end settles every pair, and in any case
   rows of other sources, and rows to the phase itself or one before it, are left alone.
   */
  lemma WholeEvaluationSettles(d: Domain, st: State, source: Phase, outcome: Phase -> Outcome)
    requires |st.rows| == |st.written| && KeysUnique(st.rows)
    ensures var (out, raised) := EvaluateFrom(d, st, source, Downstream(source), outcome);
            && KeysUnique(out.rows) && OnlyTargets(st.rows, out.rows, source, Downstream(source))
            && source !in Downstream(source)
            && (!raised ==>
                  forall target :: target in Downstream(source) ==>
                    Settled(d, st.artifacts, st.rows, out.rows, source, target, outcome(target)))
  {
    hide KeysUnique, OnlyTargets, EvaluateFrom, Settled;
    DownstreamDistinct(source);
    EvaluationKeepsOthers(d, st, source, Downstream(source), outcome);
    var (out, raised) := EvaluateFrom(d, st, source, Downstream(source), outcome);
    forall target | target in Downstream(source)
      ensures !raised ==> Settled(d, st.artifacts, st.rows, out.rows, source, target, outcome(target))
    {
      EvaluationSettles(d, st, source, Downstream(source), outcome, target);
    }
  }

  // ----- What an evaluation does to a row that was there -----

  /**
   A row is left as it is, written anew, or, if it was COMPLETED, discarded.  So a row that was applied, discarded or
   had failed is never discarded, and is touched only where an item of the evaluation or the marker has its key.
   */
  predicate Treated(r: Row, r': Row) {
    || r' == r
    || r'.status.Completed?
    || r' == Marker(r.source, r.target)
    || (r.status.Completed? && r' == r.(status := Discarded))
  }

  ghost predicate AllTreated(before: seq<Row>, after: seq<Row>) {
    |before| <= |after| && forall i :: 0 <= i < |before| ==> Treated(before[i], after[i])
  }

  lemma WriteItemsTreat(d: Domain, st: State, source: Phase, target: Phase, items: seq<Item>, readable: nat -> bool)
    requires |st.rows| == |st.written| && KeysUnique(st.rows)
    ensures var mid := WriteItems(d, st, source, target, items, readable, 0).rows;
            && |st.rows| <= |mid|
            && forall i :: 0 <= i < |st.rows| ==>
                 mid[i] == st.rows[i] || (mid[i].status.Completed? && mid[i].artifactId in KeysOf(items))
  {
    hide WriteItems, Suggestion, KeysUnique, RowKey;
    var mid := WriteItems(d, st, source, target, items, readable, 0).rows;
    WriteItemsKeeps(d, st, source, target, items, readable, 0);
    forall i | 0 <= i < |st.rows|
      ensures mid[i] == st.rows[i] || (mid[i].status.Completed? && mid[i].artifactId in KeysOf(items))
    {
      WriteItemsWrite(d, st, source, target, items, readable, 0, i);
      if mid[i] != st.rows[i] {
        var k :| 0 <= k < |items| && readable(k) && mid[i] == Suggestion(d, st.artifacts, source, target, items[k]);
        SuggestionFacts(d, st.artifacts, source, target, items[k]);
      }
    }
  }

  lemma SupersedeTreats(before: seq<Row>, mid: seq<Row>, source: Phase, target: Phase, kept: set<string>, n: nat)
    requires |before| <= |mid|
    requires forall i :: 0 <= i < |before| ==>
               mid[i] == before[i] || (mid[i].status.Completed? && mid[i].artifactId in kept)
    ensures AllTreated(before, Supersede(mid, source, target, kept, n))
  {
    hide Marker;
    var out := Supersede(mid, source, target, kept, n);
    forall i | 0 <= i < |before| ensures Treated(before[i], out[i]) {
      if mid[i] != before[i] {
        assert out[i] == mid[i];
      }
    }
  }

  lemma MarkerTreats(before: seq<Row>, st: State, source: Phase, target: Phase, marker: Saving)
    requires |st.rows| == |st.written| && |before| == |st.rows| && AllTreated(before, st.rows)
    requires forall i :: 0 <= i < |before| ==> SameKey(before[i], st.rows[i])
    ensures AllTreated(before, SaveMarker(st, source, target, marker).0.rows)
  {
    hide Find;
    var mark := Marker(source, target);
    var i := Find(st.rows, mark);
    assert i < |st.rows| ==> SameKey(before[i], mark);
  }

  lemma PairTreats(d: Domain, st: State, source: Phase, target: Phase, outcome: Outcome)
    requires |st.rows| == |st.written| && KeysUnique(st.rows)
    ensures AllTreated(st.rows, EvaluatePair(d, st, source, target, outcome).0.rows)
  {
    hide KeysUnique, WriteItems, SaveMarker, AllTreated, Superseded;
    match outcome
    case Broken(marker) =>
      NoneSuperseded(st.rows, source, target);
      SupersedeTreats(st.rows, st.rows, source, target, {}, 0);
      MarkerTreats(st.rows, st, source, target, marker);
    case NothingThere(None, _) => SupersedeTreats(st.rows, st.rows, source, target, {}, |st.rows|);
    case NothingThere(Some(n), marker) =>
      SupersedeTreats(st.rows, st.rows, source, target, {}, n);
      MarkerTreats(st.rows, st.(rows := Supersede(st.rows, source, target, {}, n)), source, target, marker);
    case Reported(items, readable, Nowhere) =>
      WriteItemsTreat(d, st, source, target, items, readable);
      var mid := WriteItems(d, st, source, target, items, readable, 0).rows;
      SupersedeTreats(st.rows, mid, source, target, KeysOf(items), |mid|);
    case Reported(items, readable, AfterItems(n)) =>
      WriteItemsTreat(d, st, source, target, FirstItems(items, n), readable);
      var mid := WriteItems(d, st, source, target, FirstItems(items, n), readable, 0).rows;
      NoneSuperseded(mid, source, target);
      SupersedeTreats(st.rows, mid, source, target, KeysOf(FirstItems(items, n)), 0);
      assert Supersede(mid, source, target, KeysOf(FirstItems(items, n)), 0) == mid;
    case Reported(items, readable, AfterRows(n)) =>
      WriteItemsTreat(d, st, source, target, items, readable);
      SupersedeTreats(st.rows, WriteItems(d, st, source, target, items, readable, 0).rows,
                      source, target, KeysOf(items), n);
  }

  lemma NoneSuperseded(rows: seq<Row>, source: Phase, target: Phase)
    ensures Supersede(rows, source, target, {}, 0) == rows
  {
  }

  /** A whole evaluation, broken off or not, does nothing else to a row that was there. */
  lemma {:induction false} EvaluationTreats(d: Domain, st: State, source: Phase, targets: seq<Phase>,
                                            outcome: Phase -> Outcome)
    requires |st.rows| == |st.written| && KeysUnique(st.rows)
    requires forall i, j :: 0 <= i < j < |targets| ==> targets[i] != targets[j]
    ensures AllTreated(st.rows, EvaluateFrom(d, st, source, targets, outcome).0.rows)
    decreases |targets|
  {
    hide KeysUnique, EvaluatePair, Treated;
    if targets == [] {
      NothingTreated(st.rows);
    } else {
      var (st', raised) := EvaluatePair(d, st, source, targets[0], outcome(targets[0]));
      PairKeeps(d, st, source, targets[0], outcome(targets[0]));
      PairTreats(d, st, source, targets[0], outcome(targets[0]));
      if !raised {
        EvaluationTreats(d, st', source, targets[1..], outcome);
        EvaluationKeepsOthers(d, st', source, targets[1..], outcome);
        var out := EvaluateFrom(d, st', source, targets[1..], outcome).0;
        EachTreatedOnce(st.rows, st'.rows, out.rows, source, targets);
      }
    }
  }

  lemma NothingTreated(rows: seq<Row>)
    ensures AllTreated(rows, rows)
  {
  }

  lemma EachTreatedOnce(a: seq<Row>, b: seq<Row>, c: seq<Row>, source: Phase, targets: seq<Phase>)
    requires targets != [] && forall i, j :: 0 <= i < j < |targets| ==> targets[i] != targets[j]
    requires OnlyPair(a, b, source, targets[0]) && OnlyTargets(b, c, source, targets[1..])
    requires AllTreated(a, b) && AllTreated(b, c)
    ensures AllTreated(a, c)
  {
    hide Treated;
    forall i | 0 <= i < |a| ensures Treated(a[i], c[i]) {
      if InPair(a[i], source, targets[0]) {
        assert b[i].target !in targets[1..];
        assert c[i] == b[i];
      } else {
        assert b[i] == a[i];
      }
    }
  }

  // ----- What the rows of a pair say -----

  /** A pending row of the pair says what the item says. */
  ghost predicate Holds(rows: seq<Row>, source: Phase, target: Phase, item: Item) {
    exists i :: 0 <= i < |rows| && InPair(rows[i], source, target) && rows[i].artifactId == RowKey(item)
                && rows[i].artifactType == item.artifactType && rows[i].proposal == item.proposal
                && rows[i].status.Completed?
  }

  lemma {:induction false} StaysHeld(d: Domain, st: State, source: Phase, target: Phase, items: seq<Item>,
                                     readable: nat -> bool, n: nat, item: Item)
    requires |st.rows| == |st.written| && n <= |items| && Holds(st.rows, source, target, item)
    requires forall m :: n <= m < |items| && readable(m) ==> RowKey(items[m]) != RowKey(item)
    ensures Holds(WriteItems(d, st, source, target, items, readable, n).rows, source, target, item)
    decreases |items| - n
  {
    hide Save, Suggestion, RowKey, Holds;
    if n < |items| && readable(n) {
      OthersHeld(d, st, source, target, items[n], item);
      StaysHeld(d, WriteOne(d, st, source, target, items[n]), source, target, items, readable, n + 1, item);
    } else if n < |items| {
      StaysHeld(d, st, source, target, items, readable, n + 1, item);
    }
  }

  lemma OthersHeld(d: Domain, st: State, source: Phase, target: Phase, written: Item, item: Item)
    requires |st.rows| == |st.written| && Holds(st.rows, source, target, item) && RowKey(written) != RowKey(item)
    ensures Holds(WriteOne(d, st, source, target, written).rows, source, target, item)
  {
    hide Save, Suggestion, OnlyPair, KeysUnique, RowKey;
    var r := Suggestion(d, st.artifacts, source, target, written);
    SuggestionFacts(d, st.artifacts, source, target, written);
    SaveKeeps(st, r, st.artifacts);
    var i :| 0 <= i < |st.rows| && InPair(st.rows[i], source, target) && st.rows[i].artifactId == RowKey(item)
             && st.rows[i].artifactType == item.artifactType && st.rows[i].proposal == item.proposal
             && st.rows[i].status.Completed?;
    assert !SameKey(st.rows[i], r);
    assert WriteOne(d, st, source, target, written).rows[i] == st.rows[i];
  }

  lemma WrittenIsHeld(d: Domain, st: State, source: Phase, target: Phase, item: Item)
    requires |st.rows| == |st.written|
    ensures Holds(WriteOne(d, st, source, target, item).rows, source, target, item)
  {
    var r := Suggestion(d, st.artifacts, source, target, item);
    SaveKeeps(st, r, st.artifacts);
    hide Save, OnlyPair, KeysUnique, RowKey, Snapshot;
    var rows := WriteOne(d, st, source, target, item).rows;
    var j :| 0 <= j < |rows| && rows[j] == r;
  }

  lemma {:induction false} LastIsHeld(d: Domain, st: State, source: Phase, target: Phase, items: seq<Item>,
                                      readable: nat -> bool, n: nat, k: nat)
    requires |st.rows| == |st.written| && n <= k < |items| && readable(k)
    requires forall m :: k < m < |items| && readable(m) ==> RowKey(items[m]) != RowKey(items[k])
    ensures Holds(WriteItems(d, st, source, target, items, readable, n).rows, source, target, items[k])
    decreases |items| - n
  {
    hide Save, Suggestion, RowKey, Holds;
    var st' := if readable(n) then WriteOne(d, st, source, target, items[n]) else st;
    assert WriteItems(d, st, source, target, items, readable, n)
           == WriteItems(d, st', source, target, items, readable, n + 1);
    if n < k {
      LastIsHeld(d, st', source, target, items, readable, n + 1, k);
    } else {
      WrittenIsHeld(d, st, source, target, items[k]);
      StaysHeld(d, st', source, target, items, readable, n + 1, items[k]);
    }
  }

  /**
   After a reported pair each readable item has a pending row with its key, its kind and its proposal, unless a later
   readable item has the same key.
   */
  lemma ReportCarriesItems(d: Domain, st: State, source: Phase, target: Phase, items: seq<Item>,
                           readable: nat -> bool, k: nat)
    requires |st.rows| == |st.written| && k < |items| && readable(k)
    requires forall m :: k < m < |items| && readable(m) ==> RowKey(items[m]) != RowKey(items[k])
    ensures var out := EvaluatePair(d, st, source, target, Reported(items, readable, Nowhere)).0;
            Holds(out.rows, source, target, items[k])
  {
    hide WriteItems, RowKey;
    LastIsHeld(d, st, source, target, items, readable, 0, k);
    var mid := WriteItems(d, st, source, target, items, readable, 0).rows;
    var i :| 0 <= i < |mid| && InPair(mid[i], source, target) && mid[i].artifactId == RowKey(items[k])
             && mid[i].artifactType == items[k].artifactType && mid[i].proposal == items[k].proposal
             && mid[i].status.Completed?;
    assert Supersede(mid, source, target, KeysOf(items), |mid|)[i] == mid[i];
  }
}
