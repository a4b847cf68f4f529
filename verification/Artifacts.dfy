/**
 The artifacts of a project and the application of consistency impacts to them, one transaction an impact.
 */
module Artifacts {
  import opened Wrappers

  type FeatureId = string

  datatype Feature = Feature(title: string, description: string, origin: string, slug: string)

  datatype Status = Pending | InProgress | Implemented | RequiresReview | Failed

  datatype Implementation = Implementation(status: Status, files: seq<string>)

  datatype Artifacts = Artifacts(
    discovery: Option<string>,
    features: map<FeatureId, Feature>,
    requirements: map<FeatureId, string>,
    diagrams: map<FeatureId, string>,
    implementations: map<FeatureId, Implementation>)

  /** The functions of the domain layer this part calls; `applyDiff` is `None` when the text is not found. */
  datatype Domain = Domain(
    applyDiff: (string, string, string) -> Option<string>,
    validDiagram: string -> bool,
    stripOrigin: string -> string,
    slugOf: string -> string,
    toMarkdown: string -> string,
    fromMarkdown: string -> string)

  datatype Impact = Impact(
    artifactType: string, targetId: string, action: string, field: string, before: string, after: string)

  datatype Reason =
    | Incomplete | NoSuggestion | Crashed | NoArtifact | TextNotFound | InvalidDiagram | FixedField
    | Undeletable | UnknownType

  datatype Verdict = Done | Refused(reason: Reason)

  // ----- One transaction -----

  function UpdateFeature(d: Domain, a: Artifacts, i: Impact): (Artifacts, Verdict) {
    if i.targetId !in a.features then (a, Refused(NoArtifact))
    else if i.field !in {"title", "description", "origin"} then (a, Refused(FixedField))
    else
      var f := a.features[i.targetId];
      if i.field == "description" then
        match d.applyDiff(d.stripOrigin(f.description), d.stripOrigin(i.before), d.stripOrigin(i.after))
        case None => (a, Refused(TextNotFound))
        case Some(text) => (a.(features := a.features[i.targetId := f.(description := text)]), Done)
      else
        match d.applyDiff(if i.field == "title" then f.title else f.origin, i.before, i.after)
        case None => (a, Refused(TextNotFound))
        case Some(text) =>
          var f' := if i.field == "title" then f.(title := text, slug := d.slugOf(text)) else f.(origin := text);
          (a.(features := a.features[i.targetId := f']), Done)
  }

  /** The record of the feature's implementation goes with it: the database cascades. */
  function DeleteFeature(a: Artifacts, id: FeatureId): (Artifacts, Verdict) {
    if id !in a.features then (a, Refused(NoArtifact))
    else (a.(requirements := a.requirements - {id}, diagrams := a.diagrams - {id}, features := a.features - {id},
             implementations := a.implementations - {id}), Done)
  }

  function UpdateRequirement(d: Domain, a: Artifacts, i: Impact): (Artifacts, Verdict) {
    if i.targetId !in a.requirements then (a, Refused(NoArtifact))
    else match d.applyDiff(a.requirements[i.targetId], i.before, i.after)
         case None => (a, Refused(TextNotFound))
         case Some(text) => (a.(requirements := a.requirements[i.targetId := text]), Done)
  }

  function UpdateDiagram(d: Domain, a: Artifacts, i: Impact): (Artifacts, Verdict) {
    if i.targetId !in a.diagrams then (a, Refused(NoArtifact))
    else match d.applyDiff(a.diagrams[i.targetId], i.before, i.after)
         case None => (a, Refused(TextNotFound))
         case Some(text) =>
           if !d.validDiagram(text) then (a, Refused(InvalidDiagram))
           else (a.(diagrams := a.diagrams[i.targetId := text]), Done)
  }

  function UpdateDiscovery(d: Domain, a: Artifacts, i: Impact): (Artifacts, Verdict) {
    match a.discovery
    case None => (a, Refused(NoArtifact))
    case Some(document) =>
      match d.applyDiff(d.toMarkdown(document), i.before, i.after)
      case None => (a, Refused(TextNotFound))
      case Some(text) => (a.(discovery := Some(d.fromMarkdown(text))), Done)
  }

  /** `_apply_impact`. */
  function Transact(d: Domain, a: Artifacts, i: Impact): (Artifacts, Verdict) {
    if i.artifactType == "EARSRequirement" then
      if i.action == "delete" then (a, Done) else UpdateRequirement(d, a, i)
    else if i.artifactType == "Feature" then
      if i.action == "delete" then DeleteFeature(a, i.targetId) else UpdateFeature(d, a, i)
    else if i.artifactType == "ActivityDiagram" then
      if i.action == "delete" then (a, Done) else UpdateDiagram(d, a, i)
    else if i.artifactType == "FeatureImplementation" then
      if i.action == "delete" then (a.(implementations := a.implementations - {i.targetId}), Done)
      else if i.targetId !in a.implementations then (a, Refused(NoArtifact))
      else (a.(implementations :=
                 a.implementations[i.targetId := a.implementations[i.targetId].(status := RequiresReview)]), Done)
    else if i.artifactType == "DiscoveryDocument" then
      if i.action == "delete" then (a, Refused(Undeletable)) else UpdateDiscovery(d, a, i)
    else (a, Refused(UnknownType))
  }

  /** One round of the loop of `execute`; `crash` says that some call of the transaction raises, which rolls it back. */
  function Attempt(d: Domain, a: Artifacts, i: Impact, crash: bool): (Artifacts, Verdict) {
    if i.artifactType == "" || i.targetId == "" then (a, Refused(Incomplete))
    else if i.action == "update" && i.before == "" && i.after == "" && i.artifactType != "FeatureImplementation" then
      (a, Refused(NoSuggestion))
    else if crash then (a, Refused(Crashed))
    else Transact(d, a, i)
  }

  // ----- The loop -----

  /** An impact with what will happen to its transaction. */
  datatype Order = Order(impact: Impact, crash: bool)

  datatype FailedImpact = FailedImpact(impact: Impact, reason: Reason)

  function Verdicts(d: Domain, a: Artifacts, orders: seq<Order>): (v: seq<Verdict>)
    ensures |v| == |orders|
    decreases |orders|
  {
    if orders == [] then []
    else
      var (a', verdict) := Attempt(d, a, orders[0].impact, orders[0].crash);
      [verdict] + Verdicts(d, a', orders[1..])
  }

  function Final(d: Domain, a: Artifacts, orders: seq<Order>): Artifacts
    decreases |orders|
  {
    if orders == [] then a
    else Final(d, Attempt(d, a, orders[0].impact, orders[0].crash).0, orders[1..])
  }

  function AppliedOf(orders: seq<Order>, verdicts: seq<Verdict>): seq<Impact>
    requires |orders| == |verdicts|
  {
    if orders == [] then []
    else (if verdicts[0].Done? then [orders[0].impact] else []) + AppliedOf(orders[1..], verdicts[1..])
  }

  function FailedOf(orders: seq<Order>, verdicts: seq<Verdict>): seq<FailedImpact>
    requires |orders| == |verdicts|
  {
    if orders == [] then []
    else (if verdicts[0].Done? then [] else [FailedImpact(orders[0].impact, verdicts[0].reason)])
         + FailedOf(orders[1..], verdicts[1..])
  }

  /** The repositories of one project. */
  class ArtifactStore {
    var discovery: Option<string>
    var features: map<FeatureId, Feature>
    var requirements: map<FeatureId, string>
    var diagrams: map<FeatureId, string>
    var implementations: map<FeatureId, Implementation>

    function Value(): Artifacts
      reads this
    {
      Artifacts(discovery, features, requirements, diagrams, implementations)
    }

    constructor (a: Artifacts)
      ensures Value() == a
    {
      discovery, features, requirements := a.discovery, a.features, a.requirements;
      diagrams, implementations := a.diagrams, a.implementations;
    }

    method Commit(a: Artifacts)
      modifies this
      ensures Value() == a
    {
      discovery, features, requirements := a.discovery, a.features, a.requirements;
      diagrams, implementations := a.diagrams, a.implementations;
    }

    /** `ApplyConsistencyImpactsUseCase.execute`, for a project that exists. */
    method ApplyImpacts(d: Domain, orders: seq<Order>) returns (applied: seq<Impact>, failed: seq<FailedImpact>)
      modifies this
      ensures Value() == Final(d, old(Value()), orders)
      ensures applied == AppliedOf(orders, Verdicts(d, old(Value()), orders))
      ensures failed == FailedOf(orders, Verdicts(d, old(Value()), orders))
    {
      hide Attempt, AppliedOf, FailedOf;
      applied, failed := [], [];
      var n := 0;
      while n < |orders|
        invariant 0 <= n <= |orders|
        invariant Final(d, Value(), orders[n..]) == Final(d, old(Value()), orders)
        invariant applied + AppliedOf(orders[n..], Verdicts(d, Value(), orders[n..]))
                  == AppliedOf(orders, Verdicts(d, old(Value()), orders))
        invariant failed + FailedOf(orders[n..], Verdicts(d, Value(), orders[n..]))
                  == FailedOf(orders, Verdicts(d, old(Value()), orders))
      {
        var order := orders[n];
        LoopRound(d, Value(), orders[n..], applied, failed);
        assert orders[n..][0] == order && orders[n..][1..] == orders[n + 1..];
        var (a, verdict) := Attempt(d, Value(), order.impact, order.crash);
        Commit(a);
        if verdict.Done? {
          applied := applied + [order.impact];
        } else {
          failed := failed + [FailedImpact(order.impact, verdict.reason)];
        }
        n := n + 1;
      }
      LoopEnd(d, Value(), applied, failed);
      assert orders[n..] == [];
    }
  }

  lemma LoopRound(d: Domain, a: Artifacts, orders: seq<Order>, applied: seq<Impact>, failed: seq<FailedImpact>)
    requires orders != []
    ensures var (a', verdict) := Attempt(d, a, orders[0].impact, orders[0].crash);
            && Final(d, a, orders) == Final(d, a', orders[1..])
            && applied + AppliedOf(orders, Verdicts(d, a, orders))
               == applied + (if verdict.Done? then [orders[0].impact] else [])
                  + AppliedOf(orders[1..], Verdicts(d, a', orders[1..]))
            && failed + FailedOf(orders, Verdicts(d, a, orders))
               == failed + (if verdict.Done? then [] else [FailedImpact(orders[0].impact, verdict.reason)])
                  + FailedOf(orders[1..], Verdicts(d, a', orders[1..]))
  {
    hide Attempt, Final;
    var (a', verdict) := Attempt(d, a, orders[0].impact, orders[0].crash);
    var v' := Verdicts(d, a', orders[1..]);
    assert Verdicts(d, a, orders)[1..] == v';
    hide Verdicts;
    Associates(applied, if verdict.Done? then [orders[0].impact] else [], AppliedOf(orders[1..], v'));
    Associates(failed, if verdict.Done? then [] else [FailedImpact(orders[0].impact, verdict.reason)],
               FailedOf(orders[1..], v'));
    FinalRound(d, a, orders);
  }

  lemma FinalRound(d: Domain, a: Artifacts, orders: seq<Order>)
    requires orders != []
    ensures Final(d, a, orders) == Final(d, Attempt(d, a, orders[0].impact, orders[0].crash).0, orders[1..])
  {
    hide Attempt;
  }

  lemma Associates<T>(x: seq<T>, y: seq<T>, z: seq<T>)
    ensures x + (y + z) == (x + y) + z
  {
  }

  lemma LoopEnd(d: Domain, a: Artifacts, applied: seq<Impact>, failed: seq<FailedImpact>)
    ensures Final(d, a, []) == a
    ensures applied + AppliedOf([], Verdicts(d, a, [])) == applied
    ensures failed + FailedOf([], Verdicts(d, a, [])) == failed
  {
  }

  // ----- What applying promises -----

  /** A refused impact changes nothing. */
  lemma RefusedChangesNothing(d: Domain, a: Artifacts, i: Impact, crash: bool)
    ensures Attempt(d, a, i, crash).1.Refused? ==> Attempt(d, a, i, crash).0 == a
  {
  }

  function ImpactsOf(orders: seq<Order>): seq<Impact> {
    if orders == [] then [] else [orders[0].impact] + ImpactsOf(orders[1..])
  }

  /** `xs` is `ys` and `zs` merged, each in its own order. */
  ghost predicate Merged(xs: seq<Impact>, ys: seq<Impact>, zs: seq<Impact>)
    decreases |xs|
  {
    if xs == [] then ys == [] && zs == []
    else
      || (ys != [] && ys[0] == xs[0] && Merged(xs[1..], ys[1..], zs))
      || (zs != [] && zs[0] == xs[0] && Merged(xs[1..], ys, zs[1..]))
  }

  function FailedImpacts(failed: seq<FailedImpact>): seq<Impact> {
    if failed == [] then [] else [failed[0].impact] + FailedImpacts(failed[1..])
  }

  /** Applied and failed together are the impacts given, each list in order, none lost or repeated. */
  lemma {:induction false} NothingLost(d: Domain, a: Artifacts, orders: seq<Order>)
    ensures var v := Verdicts(d, a, orders);
            && Merged(ImpactsOf(orders), AppliedOf(orders, v), FailedImpacts(FailedOf(orders, v)))
            && |AppliedOf(orders, v)| + |FailedOf(orders, v)| == |orders|
    decreases |orders|
  {
    hide Attempt;
    if orders != [] {
      var (a', verdict) := Attempt(d, a, orders[0].impact, orders[0].crash);
      var v' := Verdicts(d, a', orders[1..]);
      NothingLost(d, a', orders[1..]);
      assert Verdicts(d, a, orders)[1..] == v';
      var applied, failed := AppliedOf(orders[1..], v'), FailedOf(orders[1..], v');
      assert ImpactsOf(orders)[1..] == ImpactsOf(orders[1..]);
      if verdict.Done? {
        assert ([orders[0].impact] + applied)[1..] == applied;
        assert FailedOf(orders, [verdict] + v') == failed;
      } else {
        var f := FailedImpact(orders[0].impact, verdict.reason);
        assert ([f] + failed)[1..] == failed;
        assert FailedImpacts([f] + failed)[1..] == FailedImpacts(failed);
        assert AppliedOf(orders, [verdict] + v') == applied;
      }
    }
  }

  /** The orders whose impacts were applied. */
  function Kept(orders: seq<Order>, verdicts: seq<Verdict>): seq<Order>
    requires |orders| == |verdicts|
  {
    if orders == [] then []
    else (if verdicts[0].Done? then [orders[0]] else []) + Kept(orders[1..], verdicts[1..])
  }

  /** Running only the applied impacts applies them all and gives the same artifacts. */
  lemma {:induction false} OnlyAppliedMatter(d: Domain, a: Artifacts, orders: seq<Order>)
    ensures var kept := Kept(orders, Verdicts(d, a, orders));
            && Final(d, a, kept) == Final(d, a, orders)
            && forall v :: v in Verdicts(d, a, kept) ==> v.Done?
    decreases |orders|
  {
    hide Attempt;
    if orders != [] {
      var (a', verdict) := Attempt(d, a, orders[0].impact, orders[0].crash);
      var v' := Verdicts(d, a', orders[1..]);
      var kept := Kept(orders[1..], v');
      OnlyAppliedMatter(d, a', orders[1..]);
      RefusedChangesNothing(d, a, orders[0].impact, orders[0].crash);
      assert Verdicts(d, a, orders)[1..] == v';
      if verdict.Done? {
        var k := [orders[0]] + kept;
        assert k[0] == orders[0] && k[1..] == kept;
        assert Verdicts(d, a, k) == [verdict] + Verdicts(d, a', kept);
        assert Final(d, a, k) == Final(d, a', kept);
        assert Kept(orders, Verdicts(d, a, orders)) == k;
      } else {
        assert Kept(orders, Verdicts(d, a, orders)) == kept;
      }
    }
  }

  ghost predicate DiagramsValid(d: Domain, a: Artifacts) {
    forall id :: id in a.diagrams ==> d.validDiagram(a.diagrams[id])
  }

  /** Whatever is applied, diagrams that were all valid stay valid. */
  lemma {:induction false} DiagramsStayValid(d: Domain, a: Artifacts, orders: seq<Order>)
    requires DiagramsValid(d, a)
    ensures DiagramsValid(d, Final(d, a, orders))
    decreases |orders|
  {
    hide Attempt, DiagramsValid;
    if orders != [] {
      OneKeepsValid(d, a, orders[0].impact, orders[0].crash);
      DiagramsStayValid(d, Attempt(d, a, orders[0].impact, orders[0].crash).0, orders[1..]);
    }
  }

  lemma OneKeepsValid(d: Domain, a: Artifacts, i: Impact, crash: bool)
    requires DiagramsValid(d, a)
    ensures DiagramsValid(d, Attempt(d, a, i, crash).0)
  {
  }
}
