/**
 Every run of edits, evaluations, reviews, applies and discards, one row at a time: what the snapshot guard
 guarantees, and where it stops.
 */
module SuggestionSafety {
  import opened Wrappers
  import opened Artifacts
  import opened Suggestions
  import opened SuggestionRuns
  import opened Evaluation

  /** The table with the applies that have passed their guard and not yet run their transaction. */
  datatype World = World(st: State, tickets: seq<Ticket>)

  /**
   One step of somebody.  A row is written from artifacts `seen` at some earlier time; `Withdraw` stands for a
   user's discard, a supersession and a review that finds the row obsolete.  An evaluation, a review or a bulk
   resolution that is broken off is a run that stops earlier.
   */
  datatype Step =
    | Edit(artifacts: Artifacts)
    | Write(source: Phase, target: Phase, item: Item, seen: Artifacts)
    | Fail(source: Phase, target: Phase)
    | Withdraw(i: nat)
    | Check(i: nat, luck: Luck)
    | Conclude(k: nat, project: bool, luck: Luck)

  predicate Fits(w: World) {
    && |w.st.rows| == |w.st.written|
    && forall k :: 0 <= k < |w.tickets| ==> w.tickets[k].index < |w.st.rows|
  }

  function Next(d: Domain, w: World, step: Step): (w': World)
    requires Fits(w)
    ensures Fits(w')
  {
    match step
    case Edit(a) => w.(st := w.st.(artifacts := a))
    case Write(source, target, item, seen) =>
      if item.artifactType == KindOf(target) then
        w.(st := Save(w.st, Suggestion(d, seen, source, target, item), seen))
      else w
    case Fail(source, target) => w.(st := Save(w.st, Marker(source, target), w.st.artifacts))
    case Withdraw(i) => w.(st := DiscardAt(w.st, i, FINE).0)
    case Check(i, luck) =>
      if i >= |w.st.rows| then w
      else
        (match Guard(d, w.st, i, luck)
         case (st', _, None) => w.(st := st')
         case (st', _, Some(t)) => World(st', w.tickets + [t]))
    case Conclude(k, project, luck) =>
      if k >= |w.tickets| then w
      else World(Settle(d, w.st, w.tickets[k], project, luck).0, w.tickets[..k] + w.tickets[k + 1..])
  }

  /** The steps that only change the table do what they are named for. */
  lemma StepsTakeEffect(d: Domain, w: World, source: Phase, target: Phase, item: Item, seen: Artifacts, i: nat)
    requires Fits(w)
    ensures item.artifactType == KindOf(target) ==>
              Present(Next(d, w, Write(source, target, item, seen)).st.rows, Suggestion(d, seen, source, target, item))
    ensures Present(Next(d, w, Fail(source, target)).st.rows, Marker(source, target))
    ensures i < |w.st.rows| && w.st.rows[i].status.Completed? ==>
              Next(d, w, Withdraw(i)) == w.(st := w.st.(rows := Mark(w.st.rows, i, Discarded)))
  {
    SaveKeeps(w.st, Suggestion(d, seen, source, target, item), seen);
    SaveKeeps(w.st, Marker(source, target), w.st.artifacts);
    hide Save, Suggestion, OnlyPair, KeysUnique;
  }

  function Run(d: Domain, w: World, steps: seq<Step>): (w': World)
    requires Fits(w)
    ensures Fits(w')
    decreases |steps|
  {
    if steps == [] then w else Run(d, Next(d, w, steps[0]), steps[1..])
  }

  function Start(a: Artifacts): World {
    World(State(a, [], []), [])
  }

  // ----- The invariant -----

  /** A COMPLETED row holds the snapshot of what it was made from, and names the kind of its target phase. */
  ghost predicate Captured(d: Domain, r: Row, written: Artifacts) {
    r.status.Completed? ==> Fresh(d, written, r) && r.artifactType == KindOf(r.target)
  }

  ghost predicate GoodTicket(d: Domain, st: State, t: Ticket) {
    && t.index < |st.rows| && SameKey(t.row, st.rows[t.index])
    && t.row.status.Completed? && t.row.artifactType == KindOf(t.row.target)
    && Fresh(d, t.written, t.row) && Fresh(d, t.seen, t.row)
  }

  ghost predicate Sound(d: Domain, w: World) {
    && Fits(w) && KeysUnique(w.st.rows)
    && (forall i :: 0 <= i < |w.st.rows| ==> Captured(d, w.st.rows[i], w.st.written[i]))
    && (forall k :: 0 <= k < |w.tickets| ==> GoodTicket(d, w.st, w.tickets[k]))
  }

  /** Rows of `after` are those of `before` with the same keys, each as captured; a new one may come last. */
  ghost predicate Carries(d: Domain, before: State, after: State) {
    && |before.written| == |before.rows| <= |after.rows| == |after.written|
    && (forall i :: 0 <= i < |before.rows| ==> SameKey(after.rows[i], before.rows[i]))
    && (forall i :: 0 <= i < |after.rows| ==>
          Captured(d, after.rows[i], after.written[i])
          || (i < |before.rows| && after.rows[i] == before.rows[i] && after.written[i] == before.written[i]))
    && (KeysUnique(before.rows) ==> KeysUnique(after.rows))
  }

  lemma CarriedSound(d: Domain, w: World, st: State, tickets: seq<Ticket>)
    requires Sound(d, w) && |w.st.written| == |w.st.rows| && Carries(d, w.st, st)
    requires forall t :: t in tickets ==> t in w.tickets || GoodTicket(d, w.st, t)
    ensures Sound(d, World(st, tickets))
  {
    hide Fresh, KeysUnique;
    forall k | 0 <= k < |tickets| ensures GoodTicket(d, st, tickets[k]) {
      assert tickets[k] in tickets;
      assert GoodTicket(d, w.st, tickets[k]);
    }
  }

  lemma SaveCarries(d: Domain, st: State, r: Row, seen: Artifacts)
    requires |st.rows| == |st.written| && Captured(d, r, seen)
    ensures Carries(d, st, Save(st, r, seen))
  {
    hide Fresh, Captured;
  }

  lemma StepIsSound(d: Domain, w: World, step: Step)
    requires Sound(d, w)
    ensures Sound(d, Next(d, w, step))
  {
    hide Fresh, KeysUnique, Save, Suggestion, Attempt, Sound, Carries;
    match step
    case Edit(a) => EditSound(d, w, a);
    case Write(source, target, item, seen) =>
      if item.artifactType == KindOf(target) {
        SuggestionFacts(d, seen, source, target, item);
        WriteSound(d, w, source, target, item, seen);
      }
    case Fail(source, target) => FailSound(d, w, source, target);
    case Withdraw(i) => WithdrawSound(d, w, i);
    case Check(i, luck) => if i < |w.st.rows| { CheckSound(d, w, i, luck); }
    case Conclude(k, project, luck) => if k < |w.tickets| { ConcludeSound(d, w, k, project, luck); }
  }

  lemma EditSound(d: Domain, w: World, a: Artifacts)
    requires Sound(d, w)
    ensures Sound(d, w.(st := w.st.(artifacts := a)))
  {
    hide Fresh;
  }

  lemma WriteSound(d: Domain, w: World, source: Phase, target: Phase, item: Item, seen: Artifacts)
    requires Sound(d, w) && item.artifactType == KindOf(target)
    ensures Sound(d, World(Save(w.st, Suggestion(d, seen, source, target, item), seen), w.tickets))
  {
    hide Save, Snapshot;
    var r := Suggestion(d, seen, source, target, item);
    SuggestionFacts(d, seen, source, target, item);
    hide Suggestion;
    SuggestionKind(d, seen, source, target, item);
    SaveCarries(d, w.st, r, seen);
    CarriedSound(d, w, Save(w.st, r, seen), w.tickets);
  }

  lemma SuggestionKind(d: Domain, seen: Artifacts, source: Phase, target: Phase, item: Item)
    ensures Suggestion(d, seen, source, target, item).artifactType == item.artifactType
    ensures Suggestion(d, seen, source, target, item).target == target
  {
  }

  lemma FailSound(d: Domain, w: World, source: Phase, target: Phase)
    requires Sound(d, w)
    ensures Sound(d, World(Save(w.st, Marker(source, target), w.st.artifacts), w.tickets))
  {
    hide Save, Snapshot;
    SaveCarries(d, w.st, Marker(source, target), w.st.artifacts);
    CarriedSound(d, w, Save(w.st, Marker(source, target), w.st.artifacts), w.tickets);
  }

  lemma WithdrawSound(d: Domain, w: World, i: nat)
    requires Sound(d, w)
    ensures Sound(d, w.(st := DiscardAt(w.st, i, FINE).0))
  {
    hide Fresh;
    CarriedSound(d, w, DiscardAt(w.st, i, FINE).0, w.tickets);
  }

  lemma CheckSound(d: Domain, w: World, i: nat, luck: Luck)
    requires Sound(d, w) && i < |w.st.rows|
    ensures Sound(d, Next(d, w, Check(i, luck)))
  {
    hide Snapshot, KeysUnique;
    var (st', _, ticket) := Guard(d, w.st, i, luck);
    assert Carries(d, w.st, st') by { GuardCarries(d, w.st, i, luck); }
    match ticket
    case None => CarriedSound(d, w, st', w.tickets);
    case Some(t) => CarriedSound(d, w, st', w.tickets + [t]);
  }

  lemma GuardCarries(d: Domain, st: State, i: nat, luck: Luck)
    requires i < |st.rows| == |st.written|
    requires forall j :: 0 <= j < |st.rows| ==> Captured(d, st.rows[j], st.written[j])
    ensures Carries(d, st, Guard(d, st, i, luck).0)
  {
    hide Snapshot;
  }

  lemma ConcludeSound(d: Domain, w: World, k: nat, project: bool, luck: Luck)
    requires Sound(d, w) && k < |w.tickets|
    ensures Sound(d, Next(d, w, Conclude(k, project, luck)))
  {
    hide Fresh, Attempt;
    var t := w.tickets[k];
    var st' := Settle(d, w.st, t, project, luck).0;
    assert GoodTicket(d, w.st, t);
    assert Carries(d, w.st, st');
    CarriedSound(d, w, st', w.tickets[..k] + w.tickets[k + 1..]);
  }

  lemma {:induction false} RunIsSound(d: Domain, w: World, steps: seq<Step>)
    requires Sound(d, w)
    ensures Sound(d, Run(d, w, steps))
    decreases |steps|
  {
    assert Fits(w);
    hide Sound, Next;
    if steps != [] {
      StepIsSound(d, w, steps[0]);
      RunIsSound(d, Next(d, w, steps[0]), steps[1..]);
    }
  }

  // ----- What the guard guarantees -----

  /** The two texts a row depends on, as they enter the snapshot. */
  function Texts(d: Domain, a: Artifacts, r: Row): string {
    SourceText(d, a, r.source, Scope(r.artifactId)) + "|" + TextOf(d, a, r)
  }

  /**
   In every run from an empty table, artifacts change through a suggestion only when its guard, at its check,
   found the texts the row was made from.
   */
  lemma ChangedAsCaptured(d: Domain, a: Artifacts, steps: seq<Step>, k: nat, project: bool, luck: Luck)
    ensures var w := Run(d, Start(a), steps);
            var w' := Next(d, w, Conclude(k, project, luck));
            w'.st.artifacts != w.st.artifacts ==>
              && k < |w.tickets| && project && luck.project && !luck.crash
              && Texts(d, w.tickets[k].seen, w.tickets[k].row) == Texts(d, w.tickets[k].written, w.tickets[k].row)
  {
    hide Snapshot, SourceText, TargetText, Run;
    var w := Run(d, Start(a), steps);
    RunIsSound(d, Start(a), steps);
    if k < |w.tickets| {
      var t := w.tickets[k];
      assert GoodTicket(d, w.st, t);
      SameSnapshot(d, t.seen, t.written, t.row);
      RefusedChangesNothing(d, w.st.artifacts, ImpactOf(t.row), luck.crash);
    }
  }

  /**
   In every run from an empty table, the guard lets a COMPLETED row whose texts can be read pass exactly when the
   texts are those it was made from, and changes nothing then.  It turns the row away otherwise, and discards it
   unless that save is lost.
   */
  lemma OutOfDateExactly(d: Domain, a: Artifacts, steps: seq<Step>, i: nat, luck: Luck)
    requires i < |Run(d, Start(a), steps).st.rows|
    requires Run(d, Start(a), steps).st.rows[i].status.Completed?
    ensures var w := Run(d, Start(a), steps);
            var w' := Next(d, w, Check(i, luck));
            var r := w.st.rows[i];
            && w'.st.artifacts == w.st.artifacts
            && if luck.row && luck.readable && Texts(d, w.st.artifacts, r) == Texts(d, w.st.written[i], r) then
                 w'.st == w.st && |w'.tickets| == |w.tickets| + 1 && w'.tickets[|w.tickets|].row == r
               else
                 w'.tickets == w.tickets
                 && w'.st.rows[i].status
                    == (if luck.row && luck.readable && !luck.saving.Lost? then Discarded else Completed)
  {
    hide Snapshot, SourceText, TargetText, Run;
    var w := Run(d, Start(a), steps);
    RunIsSound(d, Start(a), steps);
    assert Captured(d, w.st.rows[i], w.st.written[i]);
    SameSnapshot(d, w.st.artifacts, w.st.written[i], w.st.rows[i]);
  }

  // ----- At the moment of the change -----

  /** Nothing here changes artifacts or concludes an apply. */
  predicate Quiet(steps: seq<Step>) {
    forall k :: 0 <= k < |steps| ==> !steps[k].Edit? && !steps[k].Conclude?
  }

  lemma {:induction false} QuietKeeps(d: Domain, w: World, steps: seq<Step>)
    requires Fits(w) && Quiet(steps)
    ensures var w' := Run(d, w, steps);
            w'.st.artifacts == w.st.artifacts && w.tickets <= w'.tickets
    decreases |steps|
  {
    if steps != [] {
      QuietStep(d, w, steps[0]);
      assert Quiet(steps[1..]);
      hide Next;
      QuietKeeps(d, Next(d, w, steps[0]), steps[1..]);
    }
  }

  lemma QuietStep(d: Domain, w: World, step: Step)
    requires Fits(w) && !step.Edit? && !step.Conclude?
    ensures var w' := Next(d, w, step);
            w'.st.artifacts == w.st.artifacts && w.tickets <= w'.tickets
  {
    hide Snapshot, Suggestion;
  }

  /** If this conclusion changes the artifacts, the texts its row depends on are those the row was made from. */
  ghost predicate FindsCaptured(d: Domain, w: World, k: nat, project: bool, luck: Luck)
    requires Fits(w) && k < |w.tickets|
  {
    var t := w.tickets[k];
    Next(d, w, Conclude(k, project, luck)).st.artifacts != w.st.artifacts ==>
      Texts(d, w.st.artifacts, t.row) == Texts(d, t.written, t.row)
  }

  /** The same after some more steps. */
  ghost predicate FindsAfter(d: Domain, w: World, k: nat, steps: seq<Step>, project: bool, luck: Luck)
    requires Fits(w) && k < |w.tickets|
  {
    k < |Run(d, w, steps).tickets| && FindsCaptured(d, Run(d, w, steps), k, project, luck)
  }

  /** However the run goes on, short of an edit or a conclusion, the conclusion of this apply finds what it should. */
  ghost predicate Protected(d: Domain, w: World, k: nat)
    requires Fits(w) && k < |w.tickets|
  {
    forall steps, project, luck :: Quiet(steps) ==> FindsAfter(d, w, k, steps, project, luck)
  }

  /**
   In every run from an empty table: with no edit and no other conclusion between an apply's check and its
   conclusion, whatever else happens, a change finds the texts the row was made from.
   */
  lemma QuietApplyIsProtected(d: Domain, a: Artifacts, past: seq<Step>, i: nat, luck: Luck)
    requires var w := Run(d, Start(a), past);
             |Next(d, w, Check(i, luck)).tickets| > |w.tickets|
    ensures var w := Run(d, Start(a), past);
            Protected(d, Next(d, w, Check(i, luck)), |w.tickets|)
  {
    var w := Run(d, Start(a), past);
    var w1 := Next(d, w, Check(i, luck));
    var k := |w.tickets|;
    RunIsSound(d, Start(a), past);
    StepIsSound(d, w, Check(i, luck));
    assert w1.tickets[k].seen == w1.st.artifacts by { CheckSeesNow(d, w, i, luck); }
    hide Run, Next, Snapshot, SourceText, TargetText;
    assert GoodTicket(d, w1.st, w1.tickets[k]);
    SameSnapshot(d, w1.st.artifacts, w1.tickets[k].written, w1.tickets[k].row);
    ProtectedIfCaptured(d, w1, k);
  }

  lemma CheckSeesNow(d: Domain, w: World, i: nat, luck: Luck)
    requires Fits(w) && |Next(d, w, Check(i, luck)).tickets| > |w.tickets|
    ensures var w' := Next(d, w, Check(i, luck));
            w'.st.artifacts == w.st.artifacts && w'.tickets[|w.tickets|].seen == w.st.artifacts
  {
    hide Snapshot;
  }

  lemma ProtectedIfCaptured(d: Domain, w: World, k: nat)
    requires Fits(w) && k < |w.tickets|
    requires Texts(d, w.st.artifacts, w.tickets[k].row) == Texts(d, w.tickets[k].written, w.tickets[k].row)
    ensures Protected(d, w, k)
  {
    hide Run, Next, Texts;
    forall steps, project, luck | Quiet(steps)
      ensures FindsAfter(d, w, k, steps, project, luck)
    {
      QuietKeeps(d, w, steps);
    }
  }

  /**
   Exactly: from any world, an apply that has passed its check is protected if and only if its texts are still those
   its row was made from, or its impact, as the artifacts are, changes nothing.
   */
  lemma ProtectedExactly(d: Domain, w: World, k: nat)
    requires Fits(w) && k < |w.tickets|
    ensures Protected(d, w, k)
            <==> || Texts(d, w.st.artifacts, w.tickets[k].row) == Texts(d, w.tickets[k].written, w.tickets[k].row)
                 || Attempt(d, w.st.artifacts, ImpactOf(w.tickets[k].row), false).0 == w.st.artifacts
  {
    hide Protected, Texts, Attempt, ImpactOf;
    var t := w.tickets[k];
    if Texts(d, w.st.artifacts, t.row) == Texts(d, t.written, t.row) {
      ProtectedIfCaptured(d, w, k);
    } else if Attempt(d, w.st.artifacts, ImpactOf(t.row), false).0 == w.st.artifacts {
      ProtectedIfIdle(d, w, k);
    } else {
      UnprotectedElse(d, w, k);
    }
  }

  lemma ProtectedIfIdle(d: Domain, w: World, k: nat)
    requires Fits(w) && k < |w.tickets|
    requires Attempt(d, w.st.artifacts, ImpactOf(w.tickets[k].row), false).0 == w.st.artifacts
    ensures Protected(d, w, k)
  {
    hide Run, Next, Texts, Attempt, ImpactOf;
    forall steps, project, luck | Quiet(steps)
      ensures FindsAfter(d, w, k, steps, project, luck)
    {
      QuietKeeps(d, w, steps);
      NothingToChange(d, Run(d, w, steps), k, project, luck);
    }
  }

  lemma UnprotectedElse(d: Domain, w: World, k: nat)
    requires Fits(w) && k < |w.tickets|
    requires Texts(d, w.st.artifacts, w.tickets[k].row) != Texts(d, w.tickets[k].written, w.tickets[k].row)
    requires Attempt(d, w.st.artifacts, ImpactOf(w.tickets[k].row), false).0 != w.st.artifacts
    ensures !Protected(d, w, k)
  {
    RunNone(d, w);
    hide Texts, Attempt, ImpactOf;
    assert !FindsCaptured(d, w, k, true, FINE);
    assert Quiet([]) && !FindsAfter(d, w, k, [], true, FINE);
  }

  lemma NothingToChange(d: Domain, w: World, k: nat, project: bool, luck: Luck)
    requires Fits(w) && k < |w.tickets|
    requires Attempt(d, w.st.artifacts, ImpactOf(w.tickets[k].row), false).0 == w.st.artifacts
    ensures Next(d, w, Conclude(k, project, luck)).st.artifacts == w.st.artifacts
  {
    var impact := ImpactOf(w.tickets[k].row);
    assert Attempt(d, w.st.artifacts, impact, luck.crash).0 == w.st.artifacts;
    hide Attempt, ImpactOf;
  }

  /** An apply that nobody interrupts is its check followed by its conclusion. */
  lemma ApplyIsTwoSteps(d: Domain, st: State, i: nat, project: bool, luck: Luck)
    requires |st.rows| == |st.written|
    ensures Run(d, World(st, []), [Check(i, luck), Conclude(0, project, luck)]).st == ApplyAt(d, st, i, project, luck).0
  {
    hide Fresh, Attempt;
    var steps := [Check(i, luck), Conclude(0, project, luck)];
    assert steps[1..] == [Conclude(0, project, luck)] && steps[1..][1..] == [];
    var w := Next(d, World(st, []), Check(i, luck));
    assert Run(d, w, steps[1..]) == Run(d, Next(d, w, steps[1]), steps[1..][1..]);
    assert Run(d, World(st, []), steps) == Next(d, w, Conclude(0, project, luck));
  }

  // ----- One change per writing -----

  /** An apply of row `i` has passed its check and not concluded. */
  ghost predicate Underway(w: World, i: nat) {
    exists k :: 0 <= k < |w.tickets| && w.tickets[k].index == i
  }

  /** No apply of row `i` is checked while another one is under way. */
  ghost predicate Orderly(d: Domain, w: World, steps: seq<Step>, i: nat)
    requires Fits(w)
    decreases |steps|
  {
    steps == [] || (
      (steps[0].Check? && steps[0].i == i ==> !Underway(w, i))
      && Orderly(d, Next(d, w, steps[0]), steps[1..], i))
  }

  /** This step changes the artifacts through row `i`. */
  ghost predicate ChangesBy(d: Domain, w: World, step: Step, i: nat)
    requires Fits(w)
  {
    && step.Conclude? && step.k < |w.tickets| && w.tickets[step.k].index == i
    && Next(d, w, step).st.artifacts != w.st.artifacts
  }

  /** This step writes row `i` anew. */
  ghost predicate Rewrites(d: Domain, w: World, step: Step, i: nat)
    requires Fits(w) && i < |w.st.rows|
  {
    && step.Write? && step.item.artifactType == KindOf(step.target)
    && SameKey(w.st.rows[i], Suggestion(d, step.seen, step.source, step.target, step.item))
  }

  ghost predicate Rewritten(d: Domain, w: World, steps: seq<Step>, i: nat)
    requires Fits(w) && i < |w.st.rows|
    decreases |steps|
  {
    steps != [] && (
      Rewrites(d, w, steps[0], i)
      || (i < |Next(d, w, steps[0]).st.rows| && Rewritten(d, Next(d, w, steps[0]), steps[1..], i)))
  }

  ghost predicate OneTicket(w: World, i: nat) {
    forall k, m :: 0 <= k < m < |w.tickets| && w.tickets[k].index == i ==> w.tickets[m].index != i
  }

  lemma OneTicketStep(d: Domain, w: World, step: Step, i: nat)
    requires Fits(w) && OneTicket(w, i) && (step.Check? && step.i == i ==> !Underway(w, i))
    ensures OneTicket(Next(d, w, step), i)
  {
    hide Save, Suggestion, Fresh, Attempt;
    var w' := Next(d, w, step);
    if step.Check? {
      assert forall k :: 0 <= k < |w.tickets| ==> w'.tickets[k] == w.tickets[k];
      assert |w'.tickets| > |w.tickets| ==> w'.tickets[|w.tickets|].index == step.i;
    } else if step.Conclude? && step.k < |w.tickets| {
      assert forall m :: 0 <= m < |w'.tickets| ==> w'.tickets[m] == w.tickets[if m < step.k then m else m + 1];
    }
  }

  lemma {:induction false} OrderlyHasOneTicket(d: Domain, w: World, steps: seq<Step>, i: nat)
    requires Fits(w) && OneTicket(w, i) && Orderly(d, w, steps, i)
    ensures OneTicket(Run(d, w, steps), i)
    decreases |steps|
  {
    if steps != [] {
      OneTicketStep(d, w, steps[0], i);
      hide Next, OneTicket;
      OrderlyHasOneTicket(d, Next(d, w, steps[0]), steps[1..], i);
    }
  }

  /** Row `i` has been dealt with, and nobody is about to apply it. */
  ghost predicate Closed(w: World, i: nat) {
    i < |w.st.rows| && !w.st.rows[i].status.Completed? && !Underway(w, i)
  }

  lemma SaveElsewhere(st: State, r: Row, seen: Artifacts, i: nat)
    requires |st.rows| == |st.written| && i < |st.rows| && !st.rows[i].status.Completed?
    requires r.status.Completed? ==> !SameKey(st.rows[i], r)
    ensures var st' := Save(st, r, seen);
            i < |st'.rows| && !st'.rows[i].status.Completed?
  {
  }

  lemma ClosedStep(d: Domain, w: World, step: Step, i: nat)
    requires Fits(w) && Closed(w, i) && !Rewrites(d, w, step, i)
    ensures Closed(Next(d, w, step), i)
  {
    hide Save, Suggestion, Fresh, Attempt;
    var w' := Next(d, w, step);
    match step
    case Write(source, target, item, seen) =>
      if item.artifactType == KindOf(target) {
        SaveElsewhere(w.st, Suggestion(d, seen, source, target, item), seen, i);
      }
    case Fail(source, target) => SaveElsewhere(w.st, Marker(source, target), w.st.artifacts, i);
    case Check(j, luck) =>
      assert forall k :: 0 <= k < |w'.tickets| ==> w'.tickets[k].index != i;
    case Conclude(k, project, luck) =>
      assert forall m :: 0 <= m < |w'.tickets| ==> w'.tickets[m] in w.tickets;
    case _ =>
  }

  lemma {:induction false} ClosedRun(d: Domain, w: World, steps: seq<Step>, i: nat)
    requires Fits(w) && Closed(w, i) && !Rewritten(d, w, steps, i)
    ensures Closed(Run(d, w, steps), i)
    decreases |steps|
  {
    if steps != [] {
      ClosedStep(d, w, steps[0], i);
      assert i < |Next(d, w, steps[0]).st.rows|;
      hide Next, Closed, Rewrites;
      ClosedRun(d, Next(d, w, steps[0]), steps[1..], i);
    }
  }

  lemma ChangeCloses(d: Domain, w: World, step: Step, i: nat)
    requires Fits(w) && OneTicket(w, i) && ChangesBy(d, w, step, i) && !step.luck.saving.Lost?
    ensures Closed(Next(d, w, step), i)
  {
    RefusedChangesNothing(d, w.st.artifacts, ImpactOf(w.tickets[step.k].row), step.luck.crash);
    hide Attempt, ImpactOf;
    var w' := Next(d, w, step);
    assert forall m :: 0 <= m < |w'.tickets| ==> w'.tickets[m] == w.tickets[if m < step.k then m else m + 1];
  }

  /**
   In every run from an empty table in which no apply of row `i` is checked while another one is under way: after a
   change made through the row and recorded, the row makes another one only if an evaluation wrote it anew in
   between.
   */
  lemma OneChangePerWriting(d: Domain, a: Artifacts, past: seq<Step>, first: Step, between: seq<Step>, again: Step,
                            i: nat)
    requires Orderly(d, Start(a), past, i)
    requires ChangesBy(d, Run(d, Start(a), past), first, i) && !first.luck.saving.Lost?
    requires ChangesBy(d, Run(d, Next(d, Run(d, Start(a), past), first), between), again, i)
    ensures var w := Next(d, Run(d, Start(a), past), first);
            i < |w.st.rows| && Rewritten(d, w, between, i)
  {
    hide Run, Next;
    var w := Run(d, Start(a), past);
    OrderlyHasOneTicket(d, Start(a), past, i);
    ChangeCloses(d, w, first, i);
    var w1 := Next(d, w, first);
    if !Rewritten(d, w1, between, i) {
      ClosedRun(d, w1, between, i);
    }
  }

  /**
   Two applies of a fresh COMPLETED row that overlap run its transaction twice: the change is made again exactly if
   the impact changes its own result.
   */
  lemma OverlapAppliesTwice(d: Domain, w: World, i: nat)
    requires Fits(w) && i < |w.st.rows| && w.st.rows[i].status.Completed? && Fresh(d, w.st.artifacts, w.st.rows[i])
    ensures var n, impact := |w.tickets|, ImpactOf(w.st.rows[i]);
            var w3 := Run(d, w, [Check(i, FINE), Check(i, FINE), Conclude(n, true, FINE)]);
            var w4 := Run(d, w, [Check(i, FINE), Check(i, FINE), Conclude(n, true, FINE), Conclude(n, true, FINE)]);
            && w3.st.artifacts == Attempt(d, w.st.artifacts, impact, false).0
            && w4.st.artifacts == Attempt(d, w3.st.artifacts, impact, false).0
  {
    hide Snapshot, Attempt, ImpactOf, Run;
    var n := |w.tickets|;
    var c, e := Check(i, FINE), Conclude(n, true, FINE);
    var t := Ticket(i, w.st.rows[i], w.st.written[i], w.st.artifacts);
    RunFour(d, w, c, c, e, e);
    var w1 := Next(d, w, c);
    assert w1 == World(w.st, w.tickets + [t]);
    var w2 := Next(d, w1, c);
    assert w2.st == w.st && w2.tickets == w.tickets + [t] + [t];
    var w3 := Next(d, w2, e);
    assert w3.tickets == w.tickets + [t];
  }

  /**
   A change through row `i` whose record is lost, when the row is as it was checked and its texts are still those it
   was made from: the row stays COMPLETED, and would pass the guard again exactly if its target text is unchanged.
   */
  lemma LostRecordStaysPending(d: Domain, w: World, k: nat, luck: Luck)
    requires Fits(w) && k < |w.tickets| && w.tickets[k].row == w.st.rows[w.tickets[k].index]
    requires luck.project && luck.saving.Lost? && Fresh(d, w.st.artifacts, w.tickets[k].row)
    ensures var i, w' := w.tickets[k].index, Next(d, w, Conclude(k, true, luck));
            var r := w.tickets[k].row;
            && w'.st.rows == w.st.rows
            && (Fresh(d, w'.st.artifacts, r) <==> TextOf(d, w'.st.artifacts, r) == TextOf(d, w.st.artifacts, r))
  {
    hide Snapshot, TextOf, Attempt;
    var r := w.tickets[k].row;
    TextDecidesFreshness(d, w.st.artifacts, r, r, luck.crash);
  }

  // ----- One change per text -----

  /** In every run: a bulk apply that follows a review of everything changes each target text at most once. */
  lemma BulkAfterReview(d: Domain, a: Artifacts, steps: seq<Step>, target: Phase, luck: nat -> Luck, mode: Mode, r: Row)
    requires r.artifactType == KindOf(target) && forall i :: luck(i).readable
    requires var st := Run(d, Start(a), steps).st;
             Review(d, st, Unresolved(st.rows, target, |st.rows|), luck).1.Some?
    ensures var st := Run(d, Start(a), steps).st;
            var st' := Review(d, st, Unresolved(st.rows, target, |st.rows|), luck).0;
            |st'.rows| == |st'.written| && Changes(d, st', Awaiting(st'.rows, target, |st'.rows|), mode, r) <= 1
  {
    hide Snapshot, Run, Changes, Review;
    var st := Run(d, Start(a), steps).st;
    RunIsSound(d, Start(a), steps);
    var shown := Unresolved(st.rows, target, |st.rows|);
    var st' := Review(d, st, shown, luck).0;
    ReviewSifts(d, st, shown, luck);
    var todo := Awaiting(st'.rows, target, |st'.rows|);
    forall i | i in todo
      ensures i < |st'.rows| && st'.rows[i].artifactType == r.artifactType && Fresh(d, st'.artifacts, st'.rows[i])
    {
      assert Captured(d, st.rows[i], st.written[i]);
      assert st'.rows[i] == st.rows[i] && i in shown && !Obsolete(d, st, i, luck);
    }
    OneChangePerText(d, st', todo, mode, r);
  }

  // ----- Where the guard stops -----

  /** A text replaced as a whole. */
  function Swap(text: string, before: string, after: string): Option<string> {
    if text == before then Some(after) else None
  }

  /** The first letter replaced. */
  function Head(text: string, before: string, after: string): Option<string> {
    if text != "" && [text[0]] == before then Some(after + text[1..]) else None
  }

  function Plain(applyDiff: (string, string, string) -> Option<string>): Domain {
    Domain(applyDiff, (s: string) => true, (s: string) => s, (s: string) => s, (s: string) => s, (s: string) => s)
  }

  function OneText(text: string): Artifacts {
    Artifacts(None, map[], map["f" := text], map[], map[])
  }

  function Replacing(before: string, after: string): Item {
    Item("f", "R1", "EARSRequirement", Proposal("update", Some(Diff("statement", before, after))))
  }

  /** Applying a suggestion of the examples whose text is found puts the new text in its place. */
  lemma Replaced(d: Domain, text: string, r: Row, before: string, after: string, text': string)
    requires r.artifactType == "EARSRequirement" && r.artifactId == "f" + ":" + "R1"
    requires r.proposal == Replacing(before, after).proposal && after != ""
    requires d.applyDiff(text, before, after) == Some(text')
    ensures Attempt(d, OneText(text), ImpactOf(r), false) == (OneText(text'), Done)
  {
    ScopeOf("f", "R1");
    assert map["f" := text]["f" := text'] == map["f" := text'];
  }

  lemma RunFirst(d: Domain, w: World, step: Step, rest: seq<Step>)
    requires Fits(w)
    ensures Run(d, w, [step] + rest) == Run(d, Next(d, w, step), rest)
  {
    hide Next;
    assert ([step] + rest)[0] == step && ([step] + rest)[1..] == rest;
  }

  lemma RunNone(d: Domain, w: World)
    requires Fits(w)
    ensures Run(d, w, []) == w
  {
  }

  /** The row `Replacing` writes, its snapshot left as a snapshot. */
  lemma FirstRow(d: Domain, a: Artifacts, source: Phase, item: Item)
    requires item.artifactType == "EARSRequirement"
    ensures var r := Suggestion(d, a, source, Requirements, item);
            && Next(d, Start(a), Write(source, Requirements, item, a)) == World(State(a, [r], [a]), [])
            && r.status.Completed? && Fresh(d, a, r)
            && r.proposal == item.proposal && r.artifactType == "EARSRequirement" && r.target == Requirements
            && r.source == source && r.artifactId == item.targetId + ":" + item.displayId
  {
    SuggestionFacts(d, a, source, Requirements, item);
    hide Snapshot;
  }

  lemma SecondRow(d: Domain, a: Artifacts, b: Artifacts, first: Row, source: Phase, item: Item)
    requires item.artifactType == "EARSRequirement" && first.source != source
    ensures var r := Suggestion(d, b, source, Requirements, item);
            && Next(d, World(State(b, [first], [a]), []), Write(source, Requirements, item, b))
               == World(State(b, [first, r], [a, b]), [])
            && r.status.Completed? && Fresh(d, b, r)
            && r.proposal == item.proposal && r.artifactType == "EARSRequirement" && r.target == Requirements
            && r.source == source && r.artifactId == item.targetId + ":" + item.displayId
  {
    SuggestionFacts(d, b, source, Requirements, item);
    hide Snapshot;
    assert Find([first][1..], Suggestion(d, b, source, Requirements, item)) == 0;
  }

  const BOTH := [Check(0, FINE), Check(0, FINE), Conclude(0, true, FINE), Conclude(0, true, FINE)]

  /** Two applies of one row that overlap both pass the guard, and the change is made twice. */
  lemma OverlappingAppliesRepeat()
    ensures var d := Plain(Head);
            var steps := [Write(Features, Requirements, Replacing("x", "xx"), OneText("x")),
                          Check(0, FINE), Check(0, FINE), Conclude(0, true, FINE), Conclude(0, true, FINE)];
            && Run(d, Start(OneText("x")), steps[..4]).st.artifacts == OneText("xx")
            && Run(d, Start(OneText("x")), steps).st.artifacts == OneText("xxx")
  {
    var d := Plain(Head);
    var r := Suggestion(d, OneText("x"), Features, Requirements, Replacing("x", "xx"));
    FirstRow(d, OneText("x"), Features, Replacing("x", "xx"));
    hide Run, Next, Suggestion;
    var check, end := [Check(0, FINE)], [Conclude(0, true, FINE)];
    var s1 := Write(Features, Requirements, Replacing("x", "xx"), OneText("x"));
    var w1 := World(State(OneText("x"), [r], [OneText("x")]), []);
    Repeats(d, r);
    RunFirst(d, Start(OneText("x")), s1, [Check(0, FINE), Check(0, FINE), Conclude(0, true, FINE)]);
    RunFirst(d, Start(OneText("x")), s1, BOTH);
    var steps := [s1, Check(0, FINE), Check(0, FINE), Conclude(0, true, FINE), Conclude(0, true, FINE)];
    assert steps[..4] == [s1] + [Check(0, FINE), Check(0, FINE), Conclude(0, true, FINE)];
    assert steps == [s1] + BOTH;
  }

  lemma Repeats(d: Domain, r: Row)
    requires d == Plain(Head) && r.status.Completed? && Fresh(d, OneText("x"), r)
    requires r.artifactType == "EARSRequirement" && r.artifactId == "f" + ":" + "R1"
    requires r.proposal == Replacing("x", "xx").proposal
    ensures var w := World(State(OneText("x"), [r], [OneText("x")]), []);
            && Run(d, w, [Check(0, FINE), Check(0, FINE), Conclude(0, true, FINE)]).st.artifacts == OneText("xx")
            && Run(d, w, BOTH).st.artifacts == OneText("xxx")
  {
    hide Snapshot, Attempt, ImpactOf;
    var a := OneText("x");
    var c, e := Check(0, FINE), Conclude(0, true, FINE);
    var t := Ticket(0, r, a, a);
    var st := State(a, [r], [a]);
    var st4 := State(OneText("xx"), [r.(status := Applied)], [a]);
    var st5 := State(OneText("xxx"), [r.(status := Applied)], [a]);
    assert Next(d, World(st, []), c) == World(st, [t]);
    assert Next(d, World(st, [t]), c) == World(st, [t, t]);
    HeadTwice();
    hide Fresh, Head;
    Replaced(d, "x", r, "x", "xx", "xx");
    assert Next(d, World(st, [t, t]), e) == World(st4, [t]);
    Replaced(d, "xx", r, "x", "xx", "xxx");
    assert Next(d, World(st4, [t]), e) == World(st5, []);
    hide Next, Run, OneText;
    RunFour(d, World(st, []), c, c, e, e);
  }

  lemma HeadTwice()
    ensures Head("x", "x", "xx") == Some("xx") && Head("xx", "x", "xx") == Some("xxx")
  {
    assert ["x"[0]] == "x" && "xx" + "x"[1..] == "xx";
    assert ["xx"[0]] == "x" && "xx" + "xx"[1..] == "xxx";
  }

  lemma RunFour(d: Domain, w: World, a: Step, b: Step, c: Step, e: Step)
    requires Fits(w)
    ensures Run(d, w, [a, b, c]) == Next(d, Next(d, Next(d, w, a), b), c)
    ensures Run(d, w, [a, b, c, e]) == Next(d, Next(d, Next(d, Next(d, w, a), b), c), e)
  {
    hide Next, Run;
    var w1 := Next(d, w, a);
    var w2 := Next(d, w1, b);
    var w3 := Next(d, w2, c);
    RunFirst(d, w, a, [b, c]);
    RunFirst(d, w1, b, [c]);
    RunFirst(d, w, a, [b, c, e]);
    RunFirst(d, w1, b, [c, e]);
    RunFirst(d, w2, c, []);
    RunFirst(d, w2, c, [e]);
    RunFirst(d, w3, e, []);
    RunNone(d, w3);
    RunNone(d, Next(d, w3, e));
    assert [a] + [b, c] == [a, b, c] && [b] + [c] == [b, c] && [c] + [] == [c];
    assert [a] + [b, c, e] == [a, b, c, e] && [b] + [c, e] == [b, c, e] && [c] + [e] == [c, e] && [e] + [] == [e];
  }

  /** An edit between the guard and the transaction goes unseen: the text is changed although it is another one. */
  lemma EditSlipsIn()
    ensures var d := Plain(Head);
            var w := Run(d, Start(OneText("x")),
                         [Write(Features, Requirements, Replacing("x", "xx"), OneText("x")), Check(0, FINE),
                          Edit(OneText("xy"))]);
            && |w.tickets| == 1 && w.st.artifacts == OneText("xy")
            && Next(d, w, Conclude(0, true, FINE)).st.artifacts == OneText("xxy")
            && Texts(d, w.st.artifacts, w.tickets[0].row) != Texts(d, w.tickets[0].written, w.tickets[0].row)
  {
    var d := Plain(Head);
    var a, b := OneText("x"), OneText("xy");
    var r := Suggestion(d, a, Features, Requirements, Replacing("x", "xx"));
    FirstRow(d, a, Features, Replacing("x", "xx"));
    hide Snapshot, Suggestion, Attempt, ImpactOf;
    var write := Write(Features, Requirements, Replacing("x", "xx"), a);
    var t := Ticket(0, r, a, a);
    var w1 := World(State(a, [r], [a]), []);
    var w3 := World(State(b, [r], [a]), [t]);
    assert Next(d, w1, Check(0, FINE)) == World(w1.st, [t]);
    RunFour(d, Start(a), write, Check(0, FINE), Edit(b), Edit(b));
    assert Run(d, Start(a), [write, Check(0, FINE), Edit(b)]) == w3;
    assert Head("xy", "x", "xx") == Some("xxy") by { assert ["xy"[0]] == "x" && "xx" + "xy"[1..] == "xxy"; }
    Replaced(d, "xy", r, "x", "xx", "xxy");
    assert Next(d, w3, Conclude(0, true, FINE)).st.artifacts == OneText("xxy");
    TextsOfExample(d, r);
  }

  lemma TextsOfExample(d: Domain, r: Row)
    requires r.source == Features && r.artifactType == "EARSRequirement" && r.artifactId == "f" + ":" + "R1"
    ensures Texts(d, OneText("x"), r) == "none|x" && Texts(d, OneText("xy"), r) == "none|xy"
  {
    ScopeOf("f", "R1");
  }

  /**
   Without a review first, a bulk apply can change one text twice: applying the first row brings back the text
   the second, stale until then, was made from.
   */
  lemma StaleRowRevives()
    ensures var d := Plain(Swap);
            var w := Run(d, Start(OneText("A")),
                         [Write(Discovery, Requirements, Replacing("A", "B"), OneText("A")), Edit(OneText("B")),
                          Write(Features, Requirements, Replacing("B", "C"), OneText("B")), Edit(OneText("A"))]);
            && Awaiting(w.st.rows, Requirements, |w.st.rows|) == [0, 1]
            && Changes(d, w.st, [0, 1], Mode(true, true, (i: nat) => FINE), w.st.rows[1]) == 2
  {
    var d := Plain(Swap);
    var a, b := OneText("A"), OneText("B");
    var r := Suggestion(d, a, Discovery, Requirements, Replacing("A", "B"));
    var q := Suggestion(d, b, Features, Requirements, Replacing("B", "C"));
    FirstRow(d, a, Discovery, Replacing("A", "B"));
    SecondRow(d, a, b, r, Features, Replacing("B", "C"));
    var st := State(a, [r, q], [a, b]);
    var s1 := Write(Discovery, Requirements, Replacing("A", "B"), a);
    var s3 := Write(Features, Requirements, Replacing("B", "C"), b);
    TwoChanges(d, st, r, q);
    assert Next(d, World(State(a, [r], [a]), []), Edit(b)) == World(State(b, [r], [a]), []);
    assert Next(d, World(State(b, [r, q], [a, b]), []), Edit(a)) == World(st, []);
    assert Awaiting([r, q], Requirements, 2) == [0, 1] by { BothAwait(r, q); }
    hide Next, Run, Suggestion, Changes, OneText, Awaiting;
    RunFour(d, Start(a), s1, Edit(b), s3, Edit(a));
  }

  lemma BothAwait(r: Row, q: Row)
    requires r.target == q.target && r.status.Completed? && q.status.Completed?
    ensures Awaiting([r, q], r.target, 2) == [0, 1]
  {
    assert Awaiting([r, q], r.target, 1) == [0];
  }

  lemma TwoChanges(d: Domain, st: State, r: Row, q: Row)
    requires d == Plain(Swap) && st == State(OneText("A"), [r, q], [OneText("A"), OneText("B")])
    requires forall x :: x in [r, q] ==>
               x.status.Completed? && x.artifactType == "EARSRequirement" && x.artifactId == "f" + ":" + "R1"
    requires r.proposal == Replacing("A", "B").proposal && q.proposal == Replacing("B", "C").proposal
    requires Fresh(d, OneText("A"), r) && Fresh(d, OneText("B"), q)
    ensures Changes(d, st, [0, 1], Mode(true, true, (i: nat) => FINE), q) == 2
  {
    hide Snapshot, Attempt, ImpactOf;
    var mode := Mode(true, true, (i: nat) => FINE);
    assert r in [r, q] && q in [r, q];
    Replaced(d, "A", r, "A", "B", "B");
    Replaced(d, "B", q, "B", "C", "C");
    var st1 := State(OneText("B"), [r.(status := Applied), q], st.written);
    var st2 := State(OneText("C"), [r.(status := Applied), q.(status := Applied)], st.written);
    assert ResolveAt(d, st, 0, mode).0 == st1;
    assert ResolveAt(d, st1, 1, mode).0 == st2;
    ScopeOf("f", "R1");
    assert TextOf(d, OneText("A"), q) == "A" && TextOf(d, OneText("B"), q) == "B" && TextOf(d, OneText("C"), q) == "C";
    hide ResolveAt, TextOf;
    assert [0, 1][1..] == [1] && [1][1..] == [];
    assert Changes(d, st1, [1], mode, q) == 1 + Changes(d, st2, [], mode, q);
  }
}
