/**
 The table of suggestions as the use cases change it, each proved against the function that specifies it.  Any save
 may fail, with or without effect, and then ends the request.
 */
module SuggestionBook {
  import opened Wrappers
  import opened Artifacts
  import opened Suggestions
  import opened SuggestionRuns
  import opened Evaluation

  class Book {
    var artifacts: Artifacts
    var rows: seq<Row>
    ghost var written: seq<Artifacts>

    ghost function Value(): State
      reads this
    {
      State(artifacts, rows, written)
    }

    ghost predicate Valid()
      reads this
    {
      |rows| == |written|
    }

    constructor (a: Artifacts)
      ensures Valid() && Value() == State(a, [], [])
    {
      artifacts, rows, written := a, [], [];
    }

    /** `save` of a row that may be new. */
    method SaveRow(r: Row)
      requires Valid()
      modifies this
      ensures Valid() && Value() == Save(old(Value()), r, old(artifacts))
    {
      var i := Find(rows, r);
      if i < |rows| {
        rows, written := rows[i := r], written[i := artifacts];
      } else {
        rows, written := rows + [r], written + [artifacts];
      }
    }

    /** `save` of row `i` with a new status, and the reply unless it raises. */
    method SaveStatus(i: nat, r: Row, saving: Saving, wanted: Reply) returns (reply: Reply)
      requires Valid() && i < |rows|
      modifies `rows
      ensures Valid() && (Value(), reply) == Record(old(Value()), i, r, saving, wanted)
    {
      if !saving.Lost? {
        rows := rows[i := r];
      }
      reply := if saving.Saved? then wanted else Thrown;
    }

    /** `ApplyConsistencyEvaluationUseCase.execute`. */
    method Apply(d: Domain, i: nat, project: bool, luck: Luck) returns (reply: Reply)
      requires Valid()
      modifies this
      ensures Valid() && (Value(), reply) == ApplyAt(d, old(Value()), i, project, luck)
    {
      hide Snapshot, Attempt, ImpactOf, Record;
      if !luck.row {
        return Thrown;
      }
      if i >= |rows| {
        return NotFound;
      }
      var row := rows[i];
      if !row.status.Completed? {
        return Stale;
      }
      if !luck.readable {
        return Thrown;
      }
      if Snapshot(d, artifacts, row) != row.snapshot {
        reply := SaveStatus(i, row.(status := Discarded), luck.saving, Stale);
        return;
      }
      if !luck.project {
        return Thrown;
      }
      if !project {
        return NoProject;
      }
      var (a, verdict) := Attempt(d, artifacts, ImpactOf(row), luck.crash);
      artifacts := a;
      if verdict.Refused? {
        reply := SaveStatus(i, row.(status := RowFailed), luck.saving, Stale);
        return;
      }
      reply := SaveStatus(i, row.(status := Applied), luck.saving, Resolved);
    }

    /** `DiscardConsistencyEvaluationUseCase.execute`. */
    method Discard(i: nat, luck: Luck) returns (reply: Reply)
      requires Valid()
      modifies this
      ensures Valid() && (Value(), reply) == DiscardAt(old(Value()), i, luck)
    {
      hide Record;
      if !luck.row {
        return Thrown;
      }
      if i >= |rows| {
        return NotFound;
      }
      if !rows[i].status.Completed? {
        return Stale;
      }
      reply := SaveStatus(i, rows[i].(status := Discarded), luck.saving, Resolved);
    }

    method Resolve(d: Domain, i: nat, mode: Mode) returns (reply: Reply)
      requires Valid()
      modifies this
      ensures Valid() && (Value(), reply) == ResolveAt(d, old(Value()), i, mode)
    {
      hide ApplyAt, DiscardAt;
      if mode.apply {
        reply := Apply(d, i, mode.project, mode.luck(i));
      } else {
        reply := Discard(i, mode.luck(i));
      }
    }

    /** `BulkResolveConsistencyUseCase.execute`. */
    method BulkResolve(d: Domain, target: Phase, mode: Mode) returns (resolved: nat, skipped: nat, raised: bool)
      requires Valid()
      modifies this
      ensures Valid()
      ensures BulkEnd(Value(), resolved, skipped, raised)
              == Bulk(d, old(Value()), Awaiting(old(rows), target, |old(rows)|), mode)
    {
      hide ResolveAt, Bulk;
      var todo := Awaiting(rows, target, |rows|);
      hide Awaiting;
      resolved, skipped, raised := 0, 0, false;
      var n := 0;
      assert todo[0..] == todo;
      while n < |todo|
        invariant Valid() && 0 <= n <= |todo| && !raised
        invariant Bulk(d, old(Value()), todo, mode) == Plus(Bulk(d, Value(), todo[n..], mode), resolved, skipped)
      {
        assert todo[n..][0] == todo[n] && todo[n..][1..] == todo[n + 1..];
        BulkRounds(d, Value(), todo[n..], mode);
        var reply := Resolve(d, todo[n], mode);
        if reply.Thrown? {
          raised := true;
          return;
        } else if reply.Resolved? {
          resolved := resolved + 1;
        } else {
          skipped := skipped + 1;
        }
        n := n + 1;
      }
      BulkRounds(d, Value(), todo[n..], mode);
    }

    /** `GetConsistencyReviewUseCase.execute`; no cards if a save raises. */
    method ReviewPhase(d: Domain, target: Phase, luck: nat -> Luck) returns (shown: Option<seq<nat>>)
      requires Valid()
      modifies this
      ensures Valid()
      ensures (Value(), shown) == Review(d, old(Value()), Unresolved(old(rows), target, |old(rows)|), luck)
    {
      hide Fresh, Review, Looked, Shown;
      var todo := Unresolved(rows, target, |rows|);
      var cards: seq<nat> := [];
      var n := 0;
      assert todo[0..] == todo;
      NoCardsYet(Review(d, Value(), todo, luck));
      while n < |todo|
        invariant Valid() && 0 <= n <= |todo| && |rows| == |old(rows)|
        invariant Review(d, old(Value()), todo, luck) == AfterCards(cards, Review(d, Value(), todo[n..], luck))
      {
        var i := todo[n];
        assert todo[n..][0] == i && todo[n..][1..] == todo[n + 1..];
        ReviewRound(d, Value(), todo[n..], luck, cards);
        Sifted(d, Value(), i, luck);
        if !rows[i].status.Completed? {
          cards := cards + [i];
        } else if luck(i).readable {
          if !Fresh(d, artifacts, rows[i]) {
            var reply := SaveStatus(i, rows[i].(status := Discarded), luck(i).saving, Stale);
            if reply.Thrown? {
              return None;
            }
          } else {
            cards := cards + [i];
          }
        }
        n := n + 1;
      }
      assert todo[n..] == [];
      ReviewEnd(d, Value(), luck, cards);
      return Some(cards);
    }

    /** `_supersede_pair`; an exception may end it before row `limit`. */
    method SupersedePair(source: Phase, target: Phase, kept: set<string>, limit: nat)
      requires Valid()
      modifies this
      ensures Valid() && Value() == old(Value()).(rows := Supersede(old(rows), source, target, kept, limit))
    {
      var n := 0;
      while n < |rows| && n < limit
        invariant 0 <= n <= |rows| == |old(rows)| && n <= limit
        invariant artifacts == old(artifacts) && written == old(written)
        invariant forall i :: 0 <= i < |rows| ==>
                    rows[i] == if i < n then Supersede(old(rows), source, target, kept, limit)[i] else old(rows)[i]
      {
        if Superseded(rows[n], source, target, kept) {
          rows := Mark(rows, n, Discarded);
        }
        n := n + 1;
      }
      assert rows == Supersede(old(rows), source, target, kept, limit);
    }

    /** `run_consistency_evaluation`, for a project that exists. */
    method Evaluate(d: Domain, source: Phase, outcome: Phase -> Outcome) returns (raised: bool)
      requires Valid()
      modifies this
      ensures Valid() && (Value(), raised) == EvaluateFrom(d, old(Value()), source, Downstream(source), outcome)
    {
      hide EvaluatePair;
      var targets := Downstream(source);
      var n := 0;
      raised := false;
      while n < |targets|
        invariant Valid() && 0 <= n <= |targets| && !raised
        invariant EvaluateFrom(d, Value(), source, targets[n..], outcome)
                  == EvaluateFrom(d, old(Value()), source, targets, outcome)
      {
        assert targets[n..][0] == targets[n] && targets[n..][1..] == targets[n + 1..];
        raised := EvaluateTarget(d, source, targets[n], outcome(targets[n]));
        if raised {
          return;
        }
        n := n + 1;
      }
    }

    method EvaluateTarget(d: Domain, source: Phase, target: Phase, outcome: Outcome) returns (raised: bool)
      requires Valid()
      modifies this
      ensures Valid() && (Value(), raised) == EvaluatePair(d, old(Value()), source, target, outcome)
    {
      hide Save, Suggestion, RowKey, WriteItems, Supersede;
      match outcome
      case Broken(marker) =>
        raised := WriteMarker(source, target, marker);
      case NothingThere(None, _) =>
        SupersedePair(source, target, {}, |rows|);
        raised := false;
      case NothingThere(Some(n), marker) =>
        SupersedePair(source, target, {}, n);
        raised := WriteMarker(source, target, marker);
      case Reported(items, readable, stop) =>
        if stop.AfterItems? {
          var _ := WriteAll(d, source, target, FirstItems(items, stop.n), readable);
          return true;
        }
        var kept := WriteAll(d, source, target, items, readable);
        SupersedePair(source, target, kept, if stop.AfterRows? then stop.n else |rows|);
        raised := stop.AfterRows?;
    }

    method WriteMarker(source: Phase, target: Phase, marker: Saving) returns (raised: bool)
      requires Valid()
      modifies this
      ensures Valid() && (Value(), raised) == SaveMarker(old(Value()), source, target, marker)
    {
      hide Save;
      SaveFits(Value(), Marker(source, target), artifacts);
      if !marker.Lost? {
        SaveRow(Marker(source, target));
      }
      raised := !marker.Saved?;
    }

    /** The loop over the items of a pair, which also collects their keys. */
    method WriteAll(d: Domain, source: Phase, target: Phase, items: seq<Item>, readable: nat -> bool)
      returns (kept: set<string>)
      requires Valid()
      modifies this
      ensures kept == KeysOf(items)
      ensures Valid() && Value() == WriteItems(d, old(Value()), source, target, items, readable, 0)
    {
      hide Save, Suggestion, RowKey;
      var n := 0;
      kept := {};
      while n < |items|
        invariant Valid() && 0 <= n <= |items|
        invariant kept == set k | 0 <= k < n :: RowKey(items[k])
        invariant artifacts == old(artifacts)
        invariant WriteItems(d, Value(), source, target, items, readable, n)
                  == WriteItems(d, old(Value()), source, target, items, readable, 0)
      {
        kept := kept + {RowKey(items[n])};
        if readable(n) {
          SaveFits(Value(), Suggestion(d, artifacts, source, target, items[n]), artifacts);
          SaveRow(Suggestion(d, artifacts, source, target, items[n]));
        }
        n := n + 1;
      }
    }
  }

  function Plus(end: BulkEnd, resolved: nat, skipped: nat): BulkEnd {
    end.(resolved := end.resolved + resolved, skipped := end.skipped + skipped)
  }

  lemma BulkRounds(d: Domain, st: State, todo: seq<nat>, mode: Mode)
    requires |st.rows| == |st.written|
    ensures todo == [] ==> Bulk(d, st, todo, mode) == BulkEnd(st, 0, 0, false)
    ensures todo != [] ==>
              var (st', reply) := ResolveAt(d, st, todo[0], mode);
              Bulk(d, st, todo, mode)
              == if reply.Thrown? then BulkEnd(st', 0, 0, true)
                 else Plus(Bulk(d, st', todo[1..], mode), if reply.Resolved? then 1 else 0,
                           if reply.Resolved? then 0 else 1)
  {
    hide ResolveAt;
  }

  function AfterCards(cards: seq<nat>, end: (State, Option<seq<nat>>)): (State, Option<seq<nat>>) {
    (end.0, match end.1 case None => None case Some(more) => Some(cards + more))
  }

  lemma NoCardsYet(end: (State, Option<seq<nat>>))
    ensures AfterCards([], end) == end
  {
    if end.1.Some? {
      assert [] + end.1.value == end.1.value;
    }
  }

  lemma ReviewRound(d: Domain, st: State, todo: seq<nat>, luck: nat -> Luck, cards: seq<nat>)
    requires todo != [] && forall k :: 0 <= k < |todo| ==> todo[k] < |st.rows|
    ensures var (st', reply) := Looked(d, st, todo[0], luck);
            var shown := if Shown(d, st, todo[0], luck) then cards + [todo[0]] else cards;
            AfterCards(cards, Review(d, st, todo, luck))
            == if reply.Thrown? then (st', None) else AfterCards(shown, Review(d, st', todo[1..], luck))
  {
    hide Looked, Shown;
    var st' := Looked(d, st, todo[0], luck).0;
    var rest := Review(d, st', todo[1..], luck).1;
    if rest.Some? {
      Associates(cards, if Shown(d, st, todo[0], luck) then [todo[0]] else [], rest.value);
      assert cards + [] == cards;
    }
  }

  lemma ReviewEnd(d: Domain, st: State, luck: nat -> Luck, cards: seq<nat>)
    ensures AfterCards(cards, Review(d, st, [], luck)) == (st, Some(cards))
  {
    assert cards + [] == cards;
  }

  lemma Sifted(d: Domain, st: State, i: nat, luck: nat -> Luck)
    requires i < |st.rows|
    ensures Shown(d, st, i, luck)
            <==> !st.rows[i].status.Completed? || (luck(i).readable && Fresh(d, st.artifacts, st.rows[i]))
    ensures Looked(d, st, i, luck)
            == if st.rows[i].status.Completed? && luck(i).readable && !Fresh(d, st.artifacts, st.rows[i]) then
                 Record(st, i, st.rows[i].(status := Discarded), luck(i).saving, Stale)
               else (st, Resolved)
  {
  }
}
