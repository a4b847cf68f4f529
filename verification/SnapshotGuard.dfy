/**
 What the snapshot of a row tells about its source and target texts: the texts are joined with a bar, and a feature's
 text holds bars of its own.
 */
module SnapshotGuard {
  import opened Wrappers
  import opened Artifacts
  import opened Suggestions

  // ----- Which texts artifacts can have -----

  /** The text of some feature: three parts with bars between them. */
  predicate TwoBars(s: string) {
    exists i, j :: 0 <= i < j < |s| && s[i] == '|' && s[j] == '|'
  }

  /** The text of some implementation: the name of a status, a bar, and any list of files. */
  predicate StatusFirst(s: string) {
    exists status: Status :: StatusName(status) + "|" <= s
  }

  /** The markdown of some document. */
  ghost predicate Written(d: Domain, s: string) {
    exists document :: d.toMarkdown(document) == s
  }

  /** What the source text of a row can be. */
  ghost predicate CanBeSource(d: Domain, source: Phase, s: string) {
    match source
    case Discovery => s == "none" || Written(d, s)
    case Features => s == "none" || TwoBars(s)
    case Requirements => s != ""
    case Model => true
    case Code => s == "none"
  }

  /** What its target text can be. */
  ghost predicate CanBeTarget(d: Domain, artifactType: string, t: string) {
    if artifactType == "Feature" then t == "none" || TwoBars(t)
    else if artifactType == "EARSRequirement" then t != ""
    else if artifactType == "ActivityDiagram" then true
    else if artifactType == "DiscoveryDocument" then t == "none" || Written(d, t)
    else if artifactType == "FeatureImplementation" then t == "none" || StatusFirst(t)
    else t == "none"
  }

  /** Source and target are the same text. */
  predicate Doubled(r: Row) {
    match r.source
    case Discovery => r.artifactType == "DiscoveryDocument"
    case Features => r.artifactType == "Feature"
    case Requirements => r.artifactType == "EARSRequirement"
    case Model => r.artifactType == "ActivityDiagram"
    case Code => false
  }

  function Source(d: Domain, a: Artifacts, r: Row): string {
    SourceText(d, a, r.source, Scope(r.artifactId))
  }

  function Target(d: Domain, a: Artifacts, r: Row): string {
    TargetText(d, a, r.artifactType, Scope(r.artifactId))
  }

  lemma FeatureHasBars(f: Feature)
    ensures TwoBars(f.title + "|" + f.description + "|" + f.origin)
  {
    var s := f.title + "|" + f.description + "|" + f.origin;
    var i, j := |f.title|, |f.title| + 1 + |f.description|;
    assert s[i] == '|' && s[j] == '|';
  }

  /** Every text with two bars is the text of a feature. */
  lemma FeatureOf(s: string) returns (f: Feature)
    requires TwoBars(s)
    ensures f.title + "|" + f.description + "|" + f.origin == s
  {
    var i, j :| 0 <= i < j < |s| && s[i] == '|' && s[j] == '|';
    f := Feature(s[..i], s[i + 1..j], s[j + 1..], "");
  }

  lemma ImplementationOf(s: string) returns (i: Implementation)
    requires StatusFirst(s)
    ensures StatusName(i.status) + "|" + Joined(i.files, ",") == s
  {
    var status: Status :| StatusName(status) + "|" <= s;
    i := Implementation(status, [s[|StatusName(status)| + 1..]]);
  }

  lemma SourceIsPossible(d: Domain, a: Artifacts, r: Row)
    ensures CanBeSource(d, r.source, Source(d, a, r))
  {
    var id := Scope(r.artifactId);
    if id in a.features {
      FeatureHasBars(a.features[id]);
    }
  }

  lemma TargetIsPossible(d: Domain, a: Artifacts, r: Row)
    ensures CanBeTarget(d, r.artifactType, Target(d, a, r))
  {
    var id := Scope(r.artifactId);
    if id in a.features {
      FeatureHasBars(a.features[id]);
    }
    if id in a.implementations {
      assert StatusName(a.implementations[id].status) + "|" <= CodeText(a, id);
    }
  }

  // ----- Artifacts with given texts -----

  const NOTHING := Artifacts(None, map[], map[], map[], map[])

  lemma WithDocument(d: Domain, a: Artifacts, s: string) returns (a': Artifacts)
    requires s == "none" || Written(d, s)
    ensures DiscoveryText(d, a') == s && a' == a.(discovery := a'.discovery)
  {
    if Written(d, s) {
      var document :| d.toMarkdown(document) == s;
      a' := a.(discovery := Some(document));
    } else {
      a' := a.(discovery := None);
    }
  }

  lemma WithFeature(a: Artifacts, id: FeatureId, s: string) returns (a': Artifacts)
    requires s == "none" || TwoBars(s)
    ensures FeatureText(a', id) == s && a' == a.(features := a'.features)
  {
    if s == "none" {
      a' := a.(features := a.features - {id});
    } else {
      var f := FeatureOf(s);
      a' := a.(features := a.features[id := f]);
    }
  }

  /** `a` with the given source text. */
  lemma WithSource(d: Domain, a: Artifacts, r: Row, s: string) returns (a': Artifacts)
    requires CanBeSource(d, r.source, s)
    ensures Source(d, a', r) == s
    ensures !Doubled(r) ==> Target(d, a', r) == Target(d, a, r)
  {
    hide TwoBars, Written;
    var id := Scope(r.artifactId);
    match r.source
    case Discovery => a' := WithDocument(d, a, s);
    case Features => a' := WithFeature(a, id, s);
    case Requirements => a' := a.(requirements := a.requirements[id := s]);
    case Model => a' := a.(diagrams := a.diagrams[id := s]);
    case Code => a' := a;
  }

  lemma WithTarget(d: Domain, r: Row, t: string) returns (a: Artifacts)
    requires CanBeTarget(d, r.artifactType, t)
    ensures Target(d, a, r) == t
  {
    hide TwoBars, Written, StatusFirst;
    var id := Scope(r.artifactId);
    a := NOTHING;
    if r.artifactType == "Feature" {
      a := WithFeature(a, id, t);
    } else if r.artifactType == "EARSRequirement" {
      a := a.(requirements := map[id := t]);
    } else if r.artifactType == "ActivityDiagram" {
      a := a.(diagrams := map[id := t]);
    } else if r.artifactType == "DiscoveryDocument" {
      a := WithDocument(d, a, t);
    } else if r.artifactType == "FeatureImplementation" && t != "none" {
      var i := ImplementationOf(t);
      a := a.(implementations := map[id := i]);
    }
  }

  // ----- When the snapshot pins the texts -----

  /**
   No other bar of the joined string cuts it into a source text and a target text that artifacts can have.
   */
  ghost predicate OneCut(d: Domain, r: Row, s: string, t: string) {
    var joined := s + "|" + t;
    forall k :: 0 <= k < |joined| && joined[k] == '|' && k != |s| ==>
      !(CanBeSource(d, r.source, joined[..k]) && CanBeTarget(d, r.artifactType, joined[k + 1..]))
  }

  /** Whatever has the same snapshot has the same texts. */
  ghost predicate Pinned(d: Domain, a: Artifacts, r: Row) {
    forall a' :: Snapshot(d, a', r) == Snapshot(d, a, r) ==>
      Source(d, a', r) == Source(d, a, r) && Target(d, a', r) == Target(d, a, r)
  }

  lemma Cut(s: string, t: string, s': string, t': string)
    requires s + "|" + t == s' + "|" + t'
    ensures var joined := s + "|" + t;
            && |s'| < |joined| && joined[|s'|] == '|' && joined[..|s'|] == s' && joined[|s'| + 1..] == t'
            && (|s'| == |s| ==> s' == s && t' == t)
  {
    var joined := s + "|" + t;
    assert joined == s' + "|" + t';
    assert joined[..|s|] == s && joined[|s| + 1..] == t;
    assert (s' + "|" + t')[..|s'|] == s' && (s' + "|" + t')[|s'| + 1..] == t';
  }

  /**
   The snapshot of a row pins its source and target texts exactly when they are the same text, or the joined string
   can be cut into texts of their kinds in one way only.
   */
  lemma BarsBlurTheGuard(d: Domain, a: Artifacts, r: Row)
    ensures Pinned(d, a, r) <==> Doubled(r) || OneCut(d, r, Source(d, a, r), Target(d, a, r))
  {
    hide Snapshot, Source, Target, CanBeSource, CanBeTarget;
    var s, t := Source(d, a, r), Target(d, a, r);
    if Doubled(r) {
      DoubledPins(d, a, r);
    } else if OneCut(d, r, s, t) {
      forall a' | Snapshot(d, a', r) == Snapshot(d, a, r)
        ensures Source(d, a', r) == s && Target(d, a', r) == t
      {
        JoinedTexts(d, a, a', r);
        SourceIsPossible(d, a', r);
        TargetIsPossible(d, a', r);
        Cut(s, t, Source(d, a', r), Target(d, a', r));
      }
    } else {
      var a' := OtherCut(d, a, r);
      assert Snapshot(d, a', r) == Snapshot(d, a, r) && Source(d, a', r) != s;
    }
  }

  lemma JoinedTexts(d: Domain, a: Artifacts, a': Artifacts, r: Row)
    ensures Snapshot(d, a, r) == Snapshot(d, a', r)
            <==> Source(d, a, r) + "|" + Target(d, a, r) == Source(d, a', r) + "|" + Target(d, a', r)
  {
    hide Snapshot, SourceText, TargetText;
    SameSnapshot(d, a, a', r);
  }

  lemma DoubledPins(d: Domain, a: Artifacts, r: Row)
    requires Doubled(r)
    ensures Pinned(d, a, r)
  {
    assert forall b :: Source(d, b, r) == Target(d, b, r);
    hide Snapshot, Source, Target;
    forall a' | Snapshot(d, a', r) == Snapshot(d, a, r)
      ensures Source(d, a', r) == Source(d, a, r)
    {
      JoinedTexts(d, a, a', r);
      var s, s' := Source(d, a, r), Source(d, a', r);
      assert |s| == |s'|;
      Cut(s, s, s', s');
    }
  }

  lemma OtherCut(d: Domain, a: Artifacts, r: Row) returns (a': Artifacts)
    requires !Doubled(r) && !OneCut(d, r, Source(d, a, r), Target(d, a, r))
    ensures Snapshot(d, a', r) == Snapshot(d, a, r)
    ensures Source(d, a', r) != Source(d, a, r) && Target(d, a', r) != Target(d, a, r)
  {
    hide Snapshot, Source, Target, CanBeSource, CanBeTarget;
    var s, t := Source(d, a, r), Target(d, a, r);
    var joined := s + "|" + t;
    var k :| 0 <= k < |joined| && joined[k] == '|' && k != |s|
             && CanBeSource(d, r.source, joined[..k]) && CanBeTarget(d, r.artifactType, joined[k + 1..]);
    var b := WithTarget(d, r, joined[k + 1..]);
    a' := WithSource(d, b, r, joined[..k]);
    assert joined[..k] + "|" + joined[k + 1..] == joined;
    JoinedTexts(d, a, a', r);
  }

  // ----- The kinds of rows -----

  predicate BarFree(s: string) {
    '|' !in s
  }

  /** Where the bars of four bar-free texts are. */
  lemma FourTexts(a: string, b: string, c: string, e: string)
    requires BarFree(a) && BarFree(b) && BarFree(c) && BarFree(e)
    ensures var joined := a + "|" + b + "|" + c + "|" + e;
            var i := |a|;
            var j := i + 1 + |b|;
            var k := j + 1 + |c|;
            && (forall m :: 0 <= m < |joined| && joined[m] == '|' <==> m in {i, j, k})
            && joined[..i] == a && joined[i + 1..] == b + "|" + c + "|" + e
            && joined[..j] == a + "|" + b && joined[j + 1..] == c + "|" + e
            && joined[..k] == a + "|" + b + "|" + c && joined[k + 1..] == e
  {
    var joined := a + "|" + b + "|" + c + "|" + e;
    var i := |a|;
    var j := i + 1 + |b|;
    var k := j + 1 + |c|;
    forall m | 0 <= m < |joined| ensures joined[m] == '|' <==> m in {i, j, k} {
      if m < i {
        assert joined[m] == a[m];
      } else if i < m < j {
        assert joined[m] == b[m - i - 1];
      } else if j < m < k {
        assert joined[m] == c[m - j - 1];
      } else if m > k {
        assert joined[m] == e[m - k - 1];
      }
    }
  }

  lemma OneBar(a: string, b: string)
    requires BarFree(a) && BarFree(b)
    ensures !TwoBars(a + "|" + b) && a + "|" + b != "none" && !BarFree(a + "|" + b)
  {
    var s := a + "|" + b;
    assert s[|a|] == '|' && '|' !in "none";
    assert forall m :: 0 <= m < |s| && s[m] == '|' ==> m == |a|;
  }

  lemma NoBars(a: string)
    requires BarFree(a)
    ensures !TwoBars(a)
  {
  }

  /** Two texts without bars are always pinned, whatever their kinds. */
  lemma BarFreeTextsArePinned(d: Domain, a: Artifacts, r: Row)
    requires BarFree(Source(d, a, r)) && BarFree(Target(d, a, r))
    ensures Pinned(d, a, r)
  {
    hide Snapshot, Source, Target, CanBeSource, CanBeTarget;
    var s, t := Source(d, a, r), Target(d, a, r);
    var joined := s + "|" + t;
    assert forall k :: 0 <= k < |joined| && joined[k] == '|' ==> k == |s|;
    BarsBlurTheGuard(d, a, r);
  }

  /**
   From a feature to its requirements or its diagram, with no bar in any of the texts: the row is pinned exactly
   when the title is not the word that stands for a missing feature.
   */
  lemma FeatureSourceIsPinned(d: Domain, a: Artifacts, r: Row)
    requires r.source == Features && r.artifactType in {"EARSRequirement", "ActivityDiagram"}
    requires Scope(r.artifactId) in a.features
    requires var f := a.features[Scope(r.artifactId)];
             BarFree(f.title) && BarFree(f.description) && BarFree(f.origin) && BarFree(Target(d, a, r))
    ensures Pinned(d, a, r) <==> a.features[Scope(r.artifactId)].title != "none"
  {
    var f := a.features[Scope(r.artifactId)];
    var s, t := Source(d, a, r), Target(d, a, r);
    BarsBlurTheGuard(d, a, r);
    FourTexts(f.title, f.description, f.origin, t);
    NoBars(f.title);
    OneBar(f.title, f.description);
    hide Snapshot, Source, Target, TwoBars, Pinned;
    var joined := s + "|" + t;
    assert s == f.title + "|" + f.description + "|" + f.origin;
    var i := |f.title|;
    assert joined[i] == '|' && i != |s| && joined[..i] == f.title && joined[i + 1..] != "";
    assert CanBeTarget(d, r.artifactType, joined[i + 1..]);
  }

  /**
   From the discovery document to a feature, with no bar in any of the texts: the row is pinned exactly unless the
   origin is the word that stands for a missing feature and some other document reads as the rest.
   */
  lemma FeatureTargetIsPinned(d: Domain, a: Artifacts, r: Row)
    requires r.source == Discovery && r.artifactType == "Feature" && Scope(r.artifactId) in a.features
    requires var f := a.features[Scope(r.artifactId)];
             BarFree(f.title) && BarFree(f.description) && BarFree(f.origin) && BarFree(Source(d, a, r))
    ensures var f := a.features[Scope(r.artifactId)];
            Pinned(d, a, r)
            <==> !(f.origin == "none" && Written(d, Source(d, a, r) + "|" + f.title + "|" + f.description))
  {
    var f := a.features[Scope(r.artifactId)];
    BarsBlurTheGuard(d, a, r);
    assert Target(d, a, r) == f.title + "|" + f.description + "|" + f.origin;
    hide Snapshot, Source, Target, Pinned, OneCut;
    CutsBeforeAFeature(d, r, Source(d, a, r), f);
  }

  lemma CutsBeforeAFeature(d: Domain, r: Row, s: string, f: Feature)
    requires r.source == Discovery && r.artifactType == "Feature"
    requires BarFree(s) && BarFree(f.title) && BarFree(f.description) && BarFree(f.origin)
    ensures OneCut(d, r, s, f.title + "|" + f.description + "|" + f.origin)
            <==> !(f.origin == "none" && Written(d, s + "|" + f.title + "|" + f.description))
  {
    var t := f.title + "|" + f.description + "|" + f.origin;
    var left, right := s + "|" + f.title + "|" + f.description, f.description + "|" + f.origin;
    AfterTheJoint(s, f.title, f.description, f.origin);
    NoBars(f.origin);
    OneBar(f.description, f.origin);
    OnlyTheLastCut(d, r, s, t, |s| + 1 + |f.title|, left, right, f.origin);
  }

  lemma AfterTheJoint(s: string, a: string, b: string, c: string)
    requires BarFree(s) && BarFree(a) && BarFree(b) && BarFree(c)
    ensures var t, j, left := a + "|" + b + "|" + c, |s| + 1 + |a|, s + "|" + a + "|" + b;
            var joined := s + "|" + t;
            && |s| < j < |left| <= |s| + |t| && left != "none"
            && (forall m :: 0 <= m < |joined| && joined[m] == '|' <==> m in {|s|, j, |left|})
            && joined[j + 1..] == b + "|" + c && joined[..|left|] == left && joined[|left| + 1..] == c
  {
    FourTexts(s, a, b, c);
    Nested(s, a, b, c);
    var left := s + "|" + a + "|" + b;
    assert left[|s|] == '|' && '|' !in "none";
  }

  lemma OnlyTheLastCut(d: Domain, r: Row, s: string, t: string, j: nat, left: string, right: string, origin: string)
    requires r.source == Discovery && r.artifactType == "Feature"
    requires |s| < j < |left| <= |s| + |t|
    requires forall m :: 0 <= m < |s + "|" + t| && (s + "|" + t)[m] == '|' <==> m in {|s|, j, |left|}
    requires var joined := s + "|" + t;
             joined[j + 1..] == right && joined[..|left|] == left && joined[|left| + 1..] == origin
    requires !TwoBars(right) && right != "none" && left != "none" && !TwoBars(origin)
    ensures OneCut(d, r, s, t) <==> !(origin == "none" && Written(d, left))
  {
    AtTheBars(d, r, s, t, j, |left|);
    hide OneCut, TwoBars, Written;
  }

  lemma Nested(a: string, b: string, c: string, e: string)
    ensures a + "|" + (b + "|" + c + "|" + e) == a + "|" + b + "|" + c + "|" + e
  {
  }

  /** With two bars after the joint, those are the cuts to look at. */
  lemma AtTheBars(d: Domain, r: Row, s: string, t: string, j: nat, k: nat)
    requires |s| < j < k <= |s| + |t|
    requires forall m :: 0 <= m < |s + "|" + t| && (s + "|" + t)[m] == '|' <==> m in {|s|, j, k}
    ensures var joined := s + "|" + t;
            OneCut(d, r, s, t)
            <==> !(CanBeSource(d, r.source, joined[..j]) && CanBeTarget(d, r.artifactType, joined[j + 1..]))
                 && !(CanBeSource(d, r.source, joined[..k]) && CanBeTarget(d, r.artifactType, joined[k + 1..]))
  {
    hide CanBeSource, CanBeTarget;
    var joined := s + "|" + t;
    assert joined[j] == '|' && joined[k] == '|';
  }

  /** From requirements to a diagram: the row is pinned exactly when no other bar follows the first letter. */
  lemma DiagramIsPinned(d: Domain, a: Artifacts, r: Row)
    requires r.source == Requirements && r.artifactType == "ActivityDiagram"
    ensures Source(d, a, r) != ""
    ensures Pinned(d, a, r) <==> BarFree(Source(d, a, r)[1..]) && BarFree(Target(d, a, r))
  {
    SourceIsPossible(d, a, r);
    BarsBlurTheGuard(d, a, r);
    hide Snapshot, Source, Target, Pinned;
    var s, t := Source(d, a, r), Target(d, a, r);
    var joined := s + "|" + t;
    if !BarFree(s[1..]) {
      var k :| 0 <= k < |s| - 1 && s[1..][k] == '|';
      assert joined[k + 1] == '|' && k + 1 != |s| && joined[..k + 1] != "";
    } else if !BarFree(t) {
      var k :| 0 <= k < |t| && t[k] == '|';
      var cut := |s| + 1 + k;
      assert joined[cut] == '|' && joined[..cut] != "";
    } else {
      assert forall k :: 0 < k < |s| ==> s[k] in s[1..];
      assert forall k :: 0 <= k < |joined| && joined[k] == '|' ==> k == |s| || k == 0;
    }
  }

  // ----- Two artifacts with one snapshot -----

  /** A bar in the requirements, as in any table, can pass from the target text to the source text. */
  lemma OneSnapshotTwoReadings(d: Domain, r: Row)
    requires r.source == Features && r.artifactType == "EARSRequirement" && r.artifactId == "f"
    ensures var a := NOTHING.(features := map["f" := Feature("T", "D", "O", "t")], requirements := map["f" := "x|y"]);
            var b := NOTHING.(features := map["f" := Feature("T", "D", "O|x", "t")], requirements := map["f" := "y"]);
            && Snapshot(d, a, r) == Snapshot(d, b, r)
            && Source(d, a, r) != Source(d, b, r) && Target(d, a, r) != Target(d, b, r)
  {
    var a := NOTHING.(features := map["f" := Feature("T", "D", "O", "t")], requirements := map["f" := "x|y"]);
    var b := NOTHING.(features := map["f" := Feature("T", "D", "O|x", "t")], requirements := map["f" := "y"]);
    assert Scope("f") == "f";
    assert Source(d, a, r) == "T|D|O" && Source(d, b, r) == "T|D|O|x";
    assert Target(d, a, r) == "x|y" && Target(d, b, r) == "y";
    assert "T|D|O" + "|" + "x|y" == "T|D|O|x" + "|" + "y";
    JoinedTexts(d, a, b, r);
  }
}
