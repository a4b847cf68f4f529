/**
 What an impact writes: which text of which artifact, what it then holds, and what stays as it was.
 */
module Impacts {
  import opened Wrappers
  import opened Artifacts
  import opened Suggestions
  import opened SuggestionRuns

  // ----- Texts that impacts change -----

  /** Where a text is kept. */
  datatype Place =
    | Title(id: FeatureId)
    | Description(id: FeatureId)
    | Origin(id: FeatureId)
    | Requirement(id: FeatureId)
    | Diagram(id: FeatureId)
    | Document

  function TextAt(d: Domain, a: Artifacts, place: Place): Option<string> {
    match place
    case Title(id) => if id in a.features then Some(a.features[id].title) else None
    case Description(id) => if id in a.features then Some(a.features[id].description) else None
    case Origin(id) => if id in a.features then Some(a.features[id].origin) else None
    case Requirement(id) => if id in a.requirements then Some(a.requirements[id]) else None
    case Diagram(id) => if id in a.diagrams then Some(a.diagrams[id]) else None
    case Document => if a.discovery.Some? then Some(d.toMarkdown(a.discovery.value)) else None
  }

  /** The text an update is about; none for the kinds without a text and for fields that cannot be changed. */
  function PlaceOf(i: Impact): Option<Place> {
    if i.artifactType == "EARSRequirement" then Some(Requirement(i.targetId))
    else if i.artifactType == "ActivityDiagram" then Some(Diagram(i.targetId))
    else if i.artifactType == "DiscoveryDocument" then Some(Document)
    else if i.artifactType != "Feature" then None
    else if i.field == "title" then Some(Title(i.targetId))
    else if i.field == "description" then Some(Description(i.targetId))
    else if i.field == "origin" then Some(Origin(i.targetId))
    else None
  }

  /** The text with the suggested change, if the text to change is found in it; descriptions lose their origin line. */
  function Changed(d: Domain, text: string, place: Place, i: Impact): Option<string> {
    if place.Description? then d.applyDiff(d.stripOrigin(text), d.stripOrigin(i.before), d.stripOrigin(i.after))
    else d.applyDiff(text, i.before, i.after)
  }

  /** Its data are complete, it suggests something, and no call of its transaction raises. */
  predicate GoesThrough(i: Impact, crash: bool) {
    && i.artifactType != "" && i.targetId != "" && !crash
    && !(i.action == "update" && i.before == "" && i.after == "" && i.artifactType != "FeatureImplementation")
  }

  /** The place is there, the diff finds what to change, and a diagram stays valid. */
  predicate Fits(d: Domain, a: Artifacts, place: Place, i: Impact) {
    && TextAt(d, a, place).Some?
    && Changed(d, TextAt(d, a, place).value, place, i).Some?
    && (place.Diagram? ==> d.validDiagram(Changed(d, TextAt(d, a, place).value, place, i).value))
  }

  /** The slug of a feature follows a new title and nothing else. */
  ghost predicate SlugsFollow(d: Domain, a: Artifacts, a': Artifacts, place: Place) {
    forall id :: id in a.features && id in a'.features ==>
      a'.features[id].slug == if place == Title(id) then d.slugOf(a'.features[id].title) else a.features[id].slug
  }

  /** `text` was written at `place`, and nothing else changed. */
  ghost predicate Wrote(d: Domain, a: Artifacts, a': Artifacts, place: Place, text: string) {
    && (if place.Document? then a'.discovery == Some(d.fromMarkdown(text))
        else TextAt(d, a', place) == Some(text) && a'.discovery == a.discovery)
    && (forall other: Place :: other != place ==> TextAt(d, a', other) == TextAt(d, a, other))
    && SlugsFollow(d, a, a', place)
    && a'.features.Keys == a.features.Keys && a'.implementations == a.implementations
  }

  /**
   An update of a text is done exactly when it goes through, its place is there, the diff finds the text to change,
   and a diagram stays valid.  Then the place holds the diff's result, a feature with a new title the slug of it,
   and everything else is as it was.
   */
  lemma UpdateWrites(d: Domain, a: Artifacts, i: Impact, crash: bool)
    requires i.action != "delete" && PlaceOf(i).Some?
    ensures var (a', verdict) := Attempt(d, a, i, crash);
            var place := PlaceOf(i).value;
            && (verdict.Done? <==> GoesThrough(i, crash) && Fits(d, a, place, i))
            && (verdict.Done? ==> Wrote(d, a, a', place, Changed(d, TextAt(d, a, place).value, place, i).value))
  {
    var place := PlaceOf(i).value;
    if GoesThrough(i, crash) {
      if place.Requirement? {
        RequirementWritten(d, a, i);
      } else if place.Diagram? {
        DiagramWritten(d, a, i);
      } else if place.Document? {
        DocumentWritten(d, a, i);
      } else {
        FeatureWritten(d, a, i, place);
      }
    }
  }

  lemma RequirementWritten(d: Domain, a: Artifacts, i: Impact)
    ensures var (a', verdict), place := UpdateRequirement(d, a, i), Requirement(i.targetId);
            && (verdict.Done? <==> Fits(d, a, place, i))
            && (verdict.Done? ==> Wrote(d, a, a', place, Changed(d, TextAt(d, a, place).value, place, i).value))
  {
  }

  lemma DiagramWritten(d: Domain, a: Artifacts, i: Impact)
    ensures var (a', verdict), place := UpdateDiagram(d, a, i), Diagram(i.targetId);
            && (verdict.Done? <==> Fits(d, a, place, i))
            && (verdict.Done? ==> Wrote(d, a, a', place, Changed(d, TextAt(d, a, place).value, place, i).value))
  {
  }

  lemma DocumentWritten(d: Domain, a: Artifacts, i: Impact)
    ensures var (a', verdict) := UpdateDiscovery(d, a, i);
            && (verdict.Done? <==> Fits(d, a, Document, i))
            && (verdict.Done? ==>
                  Wrote(d, a, a', Document, Changed(d, TextAt(d, a, Document).value, Document, i).value))
  {
  }

  lemma FeatureWritten(d: Domain, a: Artifacts, i: Impact, place: Place)
    requires i.artifactType == "Feature" && PlaceOf(i) == Some(place)
    ensures var (a', verdict) := UpdateFeature(d, a, i);
            && (verdict.Done? <==> Fits(d, a, place, i))
            && (verdict.Done? ==> Wrote(d, a, a', place, Changed(d, TextAt(d, a, place).value, place, i).value))
  {
    FeatureFits(d, a, i, place);
    var (a', verdict) := UpdateFeature(d, a, i);
    if verdict.Done? {
      var text := Changed(d, TextAt(d, a, place).value, place, i).value;
      OneFeature(d, a, i, place, text);
      hide UpdateFeature, PlaceOf;
      OtherPlaces(d, a, a', place);
    }
  }

  lemma FeatureFits(d: Domain, a: Artifacts, i: Impact, place: Place)
    requires i.artifactType == "Feature" && PlaceOf(i) == Some(place)
    ensures UpdateFeature(d, a, i).1.Done? <==> Fits(d, a, place, i)
  {
  }

  lemma OneFeature(d: Domain, a: Artifacts, i: Impact, place: Place, text: string)
    requires i.artifactType == "Feature" && PlaceOf(i) == Some(place) && UpdateFeature(d, a, i).1.Done?
    requires TextAt(d, a, place).Some? && Changed(d, TextAt(d, a, place).value, place, i) == Some(text)
    ensures var a' := UpdateFeature(d, a, i).0;
            && a' == a.(features := a'.features) && place.id in a.features && place.id in a'.features
            && a'.features == a.features[place.id := a'.features[place.id]]
            && var f, f' := a.features[place.id], a'.features[place.id];
               f' == if place.Title? then f.(title := text, slug := d.slugOf(text))
                     else if place.Description? then f.(description := text) else f.(origin := text)
  {
  }

  lemma OtherPlaces(d: Domain, a: Artifacts, a': Artifacts, place: Place)
    requires place.Title? || place.Description? || place.Origin?
    requires a' == a.(features := a'.features) && place.id in a.features && place.id in a'.features
    requires a'.features == a.features[place.id := a'.features[place.id]]
    requires var f, f' := a.features[place.id], a'.features[place.id];
             && (place.Title? || f'.title == f.title) && (place.Description? || f'.description == f.description)
             && (place.Origin? || f'.origin == f.origin)
    ensures forall other: Place :: other != place ==> TextAt(d, a', other) == TextAt(d, a, other)
  {
  }

  // ----- Deletions and implementations -----

  /** Everything but what is kept under `id` is as it was. */
  ghost predicate SameBut(a: Artifacts, a': Artifacts, id: FeatureId) {
    && a'.discovery == a.discovery
    && a'.features - {id} == a.features - {id} && a'.requirements - {id} == a.requirements - {id}
    && a'.diagrams - {id} == a.diagrams - {id} && a'.implementations - {id} == a.implementations - {id}
  }

  /** Nothing is kept under `id`. */
  ghost predicate NothingAt(a: Artifacts, id: FeatureId) {
    id !in a.features && id !in a.requirements && id !in a.diagrams && id !in a.implementations
  }

  /** A feature is deleted exactly if it is there, with all that belongs to it and nothing else. */
  lemma DeletionTakesAll(d: Domain, a: Artifacts, i: Impact, crash: bool)
    requires i.action == "delete" && i.artifactType == "Feature"
    ensures var (a', verdict) := Attempt(d, a, i, crash);
            && (verdict.Done? <==> GoesThrough(i, crash) && i.targetId in a.features)
            && (verdict.Done? ==> NothingAt(a', i.targetId) && SameBut(a, a', i.targetId))
  {
  }

  /**
   Deleting requirements or a diagram changes nothing and is done, since they go with their feature; the discovery
   document cannot be deleted; an implementation is, if it is there.
   */
  lemma OtherDeletions(d: Domain, a: Artifacts, i: Impact, crash: bool)
    requires i.action == "delete" && i.artifactType != "Feature"
    ensures var (a', verdict) := Attempt(d, a, i, crash);
            && (verdict.Done? <==>
                  && GoesThrough(i, crash)
                  && i.artifactType in {"EARSRequirement", "ActivityDiagram", "FeatureImplementation"})
            && (i.artifactType != "FeatureImplementation" ==> a' == a)
            && (i.artifactType == "FeatureImplementation" && verdict.Done? ==>
                  && i.targetId !in a'.implementations && SameBut(a, a', i.targetId)
                  && a'.features == a.features && a'.requirements == a.requirements && a'.diagrams == a.diagrams)
  {
  }

  /** An update of an implementation marks it for review, whatever it suggests, and changes nothing else. */
  lemma MarkedForReview(d: Domain, a: Artifacts, i: Impact, crash: bool)
    requires i.action != "delete" && i.artifactType == "FeatureImplementation"
    ensures var (a', verdict) := Attempt(d, a, i, crash);
            && (verdict.Done? <==> i.targetId != "" && !crash && i.targetId in a.implementations)
            && (verdict.Done? ==>
                  && i.targetId in a'.implementations && a'.implementations[i.targetId].status == RequiresReview
                  && a'.implementations[i.targetId].files == a.implementations[i.targetId].files
                  && SameBut(a, a', i.targetId)
                  && a'.features == a.features && a'.requirements == a.requirements && a'.diagrams == a.diagrams)
  {
  }

  /** Nothing else is ever done: an unknown kind, or a field that cannot be changed. */
  lemma NothingElse(d: Domain, a: Artifacts, i: Impact, crash: bool)
    requires i.action != "delete" && PlaceOf(i).None? && i.artifactType != "FeatureImplementation"
    ensures Attempt(d, a, i, crash).1.Refused? && Attempt(d, a, i, crash).0 == a
  {
  }

  // ----- Lists of impacts, and suggestions -----

  lemma {:induction false} FinalAppend(d: Domain, a: Artifacts, first: seq<Order>, second: seq<Order>)
    ensures Final(d, a, first + second) == Final(d, Final(d, a, first), second)
    ensures Verdicts(d, a, first + second) == Verdicts(d, a, first) + Verdicts(d, Final(d, a, first), second)
    decreases |first|
  {
    hide Attempt;
    if first == [] {
      assert first + second == second;
    } else {
      assert (first + second)[0] == first[0] && (first + second)[1..] == first[1..] + second;
      FinalAppend(d, Attempt(d, a, first[0].impact, first[0].crash).0, first[1..], second);
    }
  }

  /** In a list, each impact is attempted on what those before it left, and those after it start from what it leaves. */
  lemma EachInTurn(d: Domain, a: Artifacts, orders: seq<Order>, k: nat)
    requires k < |orders|
    ensures Attempt(d, Final(d, a, orders[..k]), orders[k].impact, orders[k].crash)
            == (Final(d, a, orders[..k + 1]), Verdicts(d, a, orders)[k])
  {
    hide Attempt;
    var before, one, after := orders[..k], [orders[k]], orders[k + 1..];
    assert orders == before + one + after && orders[..k + 1] == before + one;
    FinalAppend(d, a, before, one);
    FinalAppend(d, a, before + one, after);
    var (a', verdict) := Attempt(d, Final(d, a, before), orders[k].impact, orders[k].crash);
    assert one[1..] == [] && Final(d, Final(d, a, before), one) == a';
    assert Verdicts(d, Final(d, a, before), one) == [verdict] + [];
    assert Verdicts(d, a, orders)[k] == Verdicts(d, a, before + one)[k];
  }

  /** So in a list each applied update of a text writes it, between what the impacts before and after it see. */
  lemma ListWrites(d: Domain, a: Artifacts, orders: seq<Order>, k: nat)
    requires k < |orders| && orders[k].impact.action != "delete" && PlaceOf(orders[k].impact).Some?
    ensures var i, before := orders[k].impact, Final(d, a, orders[..k]);
            var place := PlaceOf(i).value;
            && (Verdicts(d, a, orders)[k].Done? <==> GoesThrough(i, orders[k].crash) && Fits(d, before, place, i))
            && (Verdicts(d, a, orders)[k].Done? ==>
                  Wrote(d, before, Final(d, a, orders[..k + 1]), place,
                        Changed(d, TextAt(d, before, place).value, place, i).value))
  {
    hide Attempt, Wrote, Fits, Changed, TextAt;
    EachInTurn(d, a, orders, k);
    UpdateWrites(d, Final(d, a, orders[..k]), orders[k].impact, orders[k].crash);
  }

  /** The change a row suggests, as an impact on the artifact its key is about. */
  function Suggested(r: Row, diff: Diff): Impact {
    Impact(r.artifactType, Scope(r.artifactId), r.proposal.action, diff.field, diff.before, diff.after)
  }

  /**
   A suggestion to change a text that passes its guard and whose row can be saved: it is resolved exactly when no call
   of its transaction raises and the change fits.  Then the text of the artifact its key is about holds the suggested
   change, nothing else has changed, and the row is APPLIED.  Otherwise the row has failed and nothing else changed.
   */
  lemma SuggestionWrites(d: Domain, st: State, i: nat, luck: Luck, diff: Diff)
    requires i < |st.rows| == |st.written| && st.rows[i].status.Completed? && Fresh(d, st.artifacts, st.rows[i])
    requires luck == FINE.(crash := luck.crash) && st.rows[i].proposal.diff == Some(diff)
    requires st.rows[i].proposal.action != "delete" && PlaceOf(Suggested(st.rows[i], diff)).Some?
    ensures var (st', reply) := ApplyAt(d, st, i, true, luck);
            var impact := Suggested(st.rows[i], diff);
            var place := PlaceOf(impact).value;
            && st'.rows == st.rows[i := st.rows[i].(status := if reply.Resolved? then Applied else RowFailed)]
            && (reply.Resolved? <==> GoesThrough(impact, luck.crash) && Fits(d, st.artifacts, place, impact))
            && (reply.Resolved? ==>
                  Wrote(d, st.artifacts, st'.artifacts, place,
                        Changed(d, TextAt(d, st.artifacts, place).value, place, impact).value))
            && (!reply.Resolved? ==> st'.artifacts == st.artifacts)
  {
    hide Attempt, Wrote, Fits, Changed, TextAt, Snapshot;
    UpdateWrites(d, st.artifacts, ImpactOf(st.rows[i]), luck.crash);
    RefusedChangesNothing(d, st.artifacts, ImpactOf(st.rows[i]), luck.crash);
  }

  /** An update without a suggested text changes no text: its row fails. */
  lemma NothingSuggested(d: Domain, st: State, i: nat, luck: Luck)
    requires i < |st.rows| == |st.written| && st.rows[i].status.Completed? && Fresh(d, st.artifacts, st.rows[i])
    requires luck == FINE.(crash := luck.crash) && st.rows[i].proposal == Proposal("update", None)
    requires st.rows[i].artifactType != "FeatureImplementation"
    ensures ApplyAt(d, st, i, true, luck) == (st.(rows := Mark(st.rows, i, RowFailed)), Stale)
  {
    hide Snapshot, Transact;
  }
}
