/**
 The grace window: when a use of a refresh token that found nothing to consume can still be given the pair of the
 first use.
 */
module TokenGrace {
  import opened Wrappers
  import opened TokenFamilies
  import opened TokenRuns

  // ----- A token is consumed once -----

  /** A refresh that has been to the store has left no token behind. */
  ghost predicate Spent(s: State) {
    forall p :: 0 <= p < |s.tasks| && s.tasks[p].RefreshTask? && !s.tasks[p].stage.Start? && !s.tasks[p].stage.Failed?
      ==> s.tasks[p].c.jti !in s.store.refresh
  }

  lemma SpentStep(s: State, a: Action)
    requires Fits(s) && Spent(s) && Enabled(s, a)
    ensures Spent(Apply(s, a))
  {
    var s' := Apply(s, a);
    forall p | 0 <= p < |s'.tasks| && s'.tasks[p].RefreshTask?
               && !s'.tasks[p].stage.Start? && !s'.tasks[p].stage.Failed?
      ensures s'.tasks[p].c.jti !in s'.store.refresh
    {
      assert TaskFits(s.issued, s.tasks[p]);
    }
  }

  lemma {:induction false} SpentAfter(s: State, run: seq<Action>)
    requires Sound(s) && Spent(s) && Possible(s, run)
    ensures Spent(After(s, run))
    decreases |run|
  {
    if run != [] {
      hide Sound, Spent, Apply;
      SoundStep(s, run[0]);
      SpentAfter(Apply(s, run[0]), run[1..]);
    }
  }

  lemma SoundStep(s: State, a: Action)
    requires Sound(s) && Enabled(s, a)
    ensures Sound(Apply(s, a))
    ensures Spent(s) ==> Spent(Apply(s, a))
  {
    hide Apply, Fits, OneCarrier, OnePair, Spent;
    FitsStep(s, a);
    RunStep(s, a);
    if Spent(s) {
      SpentStep(s, a);
    }
  }

  // ----- The condition -----

  /** A first use of the token `j` that will still publish its pair. */
  predicate Carries(t: Task, j: Jti) {
    t.RefreshTask? && t.c.jti == j && (t.stage.Consumed? || t.stage.Checked? || t.stage.Registered?)
  }

  ghost predicate Awaited(s: State, j: Jti) {
    exists q :: 0 <= q < |s.tasks| && Carries(s.tasks[q], j)
  }

  /** The family is alive, or a rotation past its check will open it again. */
  ghost predicate Revivable(s: State, family: Option<Family>) {
    Alive(s.store, family) || PastCheck(s, family.value)
  }

  ghost predicate Succeeds(s: State, run: seq<Action>, p: nat)
    requires Possible(s, run)
  {
    var s' := After(s, run);
    p < |s'.tasks| && s'.tasks[p].RefreshTask? && s'.tasks[p].stage.Returned?
  }

  // ----- Without the condition the pair never comes -----

  /** Nobody will publish a pair for `j`, and the task `p` has none and sees none. */
  ghost predicate Barren(s: State, p: nat, j: Jti) {
    && j in s.issued && j !in s.store.refresh && !Awaited(s, j)
    && p < |s.tasks| && s.tasks[p].RefreshTask? && s.tasks[p].c.jti == j
    && (s.tasks[p].stage.Missed? || s.tasks[p].stage.Failed?
        || (GracePair(s.store, j).None?
            && (s.tasks[p].stage.Polling? || s.tasks[p].stage.NoGrace? || s.tasks[p].stage.Reuse?)))
  }

  lemma BarrenStep(s: State, a: Action, p: nat, j: Jti)
    requires Fits(s) && Barren(s, p, j) && Enabled(s, a)
    ensures Barren(Apply(s, a), p, j)
  {
    if a.Go? {
      BarrenGo(s, a, p, j);
    } else {
      NobodyNew(s, a, p, j);
    }
  }

  lemma NobodyNew(s: State, a: Action, p: nat, j: Jti)
    requires Fits(s) && Barren(s, p, j) && Enabled(s, a) && !a.Go?
    ensures Barren(Apply(s, a), p, j)
  {
    var s' := Apply(s, a);
    assert forall q :: 0 <= q < |s.tasks| ==> !Carries(s.tasks[q], j);
    assert forall q :: 0 <= q < |s'.tasks| ==> !Carries(s'.tasks[q], j);
    assert j in s'.issued && j !in s'.store.refresh;
    assert GracePair(s.store, j).None? ==> GracePair(s'.store, j).None?;
  }

  lemma BarrenGo(s: State, a: Action, p: nat, j: Jti)
    requires Fits(s) && Barren(s, p, j) && Enabled(s, a) && a.Go?
    ensures Barren(Apply(s, a), p, j)
  {
    var s' := Apply(s, a);
    assert TaskFits(s.issued, s.tasks[a.p]);
    assert forall q :: 0 <= q < |s.tasks| ==> !Carries(s.tasks[q], j);
    assert forall q :: 0 <= q < |s'.tasks| ==> !Carries(s'.tasks[q], j);
  }

  lemma {:induction false} BarrenForever(s: State, run: seq<Action>, p: nat, j: Jti)
    requires Sound(s) && Barren(s, p, j) && Possible(s, run)
    ensures Barren(After(s, run), p, j)
    decreases |run|
  {
    if run != [] {
      SoundStep(s, run[0]);
      BarrenStep(s, run[0], p, j);
      hide Apply, Barren, Sound;
      BarrenForever(Apply(s, run[0]), run[1..], p, j);
    }
  }

  lemma ShutForever(s: State, run: seq<Action>, p: nat, family: Option<Family>)
    requires Sound(s) && Possible(s, run) && p < |s.tasks| && s.tasks[p].c.family == family
    requires !Revivable(s, family) && !Settled(s.tasks[p])
    ensures !Succeeds(s, run, p)
  {
    assert TaskFits(s.issued, s.tasks[p]);
    assert family.value in FamilySet(s.issued[s.tasks[p].c.jti].family);
    DeadFamilyStaysShut(s, run, family.value);
  }

  // ----- With it the pair can come -----

  lemma Finish(s: State, p: nat, c: Claims) returns (run: seq<Action>)
    requires Sound(s) && p < |s.tasks| && s.tasks[p] == RefreshTask(c, Polling(0))
    requires GracePair(s.store, c.jti).Some? && Alive(s.store, c.family)
    ensures Possible(s, run) && Succeeds(s, run, p)
  {
    var go := Go(p, 0, 0, 0);
    var pair := GracePair(s.store, c.jti).value;
    assert TaskFits(s.issued, s.tasks[p]) && PairFor(c, pair);
    var s1 := Apply(s, go);
    assert s1.tasks[p] == RefreshTask(c, FoundGrace(pair)) && s1.store == s.store;
    var s2 := Apply(s1, go);
    assert s2.tasks[p] == RefreshTask(c, Returned(pair)) && Possible(s2, []) && After(s2, []) == s2;
    Before(s1, go, []);
    Before(s, go, [go] + []);
    run := [go] + ([go] + []);
  }

  /** A rotation past its check of `f` registers its token. */
  lemma Revive(s: State, f: Family) returns (a: Action)
    requires Sound(s) && PastCheck(s, f)
    ensures Enabled(s, a) && a.Go? && s.tasks[a.p].RefreshTask? && s.tasks[a.p].stage == Checked(Some(f))
    ensures var s' := Apply(s, a);
            && Sound(s') && f in s'.store.families && s'.store.grace == s.store.grace
            && |s'.tasks| == |s.tasks| && forall q :: 0 <= q < |s.tasks| && q != a.p ==> s'.tasks[q] == s.tasks[q]
  {
    var r :| 0 <= r < |s.tasks| && s.tasks[r].RefreshTask? && s.tasks[r].stage == Checked(Some(f));
    var ja, jr := FreshIds(s);
    a := Go(r, ja, jr, 1);
    SoundStep(s, a);
  }

  lemma FromRegistered(s: State, p: nat, q: nat, c: Claims) returns (run: seq<Action>)
    requires Sound(s) && p < |s.tasks| && q < |s.tasks| && s.tasks[p] == RefreshTask(c, Polling(0))
    requires s.tasks[q].RefreshTask? && s.tasks[q].c == c && s.tasks[q].stage.Registered? && Revivable(s, c.family)
    ensures Possible(s, run) && Succeeds(s, run, p)
  {
    if Alive(s.store, c.family) {
      run := FromPublished(s, p, q, c);
    } else {
      var a := Revive(s, c.family.value);
      var more := FromPublished(Apply(s, a), p, q, c);
      Before(s, a, more);
      run := [a] + more;
    }
  }

  lemma FromPublished(s: State, p: nat, q: nat, c: Claims) returns (run: seq<Action>)
    requires Sound(s) && p < |s.tasks| && q < |s.tasks| && s.tasks[p] == RefreshTask(c, Polling(0))
    requires s.tasks[q].RefreshTask? && s.tasks[q].c == c && s.tasks[q].stage.Registered?
    requires Alive(s.store, c.family)
    ensures Possible(s, run) && Succeeds(s, run, p)
  {
    var a := Go(q, 0, 0, 0);
    SoundStep(s, a);
    var more := Finish(Apply(s, a), p, c);
    Before(s, a, more);
    run := [a] + more;
  }

  lemma FromChecked(s: State, p: nat, q: nat, c: Claims) returns (run: seq<Action>)
    requires Sound(s) && p < |s.tasks| && q < |s.tasks| && s.tasks[p] == RefreshTask(c, Polling(0))
    requires s.tasks[q].RefreshTask? && s.tasks[q].c == c && s.tasks[q].stage.Checked?
    ensures Possible(s, run) && Succeeds(s, run, p)
  {
    assert TaskFits(s.issued, s.tasks[q]);
    var ja, jr := FreshIds(s);
    var a := Go(q, ja, jr, 1);
    SoundStep(s, a);
    var more := FromPublished(Apply(s, a), p, q, c);
    Before(s, a, more);
    run := [a] + more;
  }

  lemma FromConsumed(s: State, p: nat, q: nat, c: Claims) returns (run: seq<Action>)
    requires Sound(s) && p < |s.tasks| && q < |s.tasks| && s.tasks[p] == RefreshTask(c, Polling(0))
    requires s.tasks[q].RefreshTask? && s.tasks[q].c == c && s.tasks[q].stage.Consumed? && Revivable(s, c.family)
    ensures Possible(s, run) && Succeeds(s, run, p)
  {
    assert TaskFits(s.issued, s.tasks[q]);
    assert forall r :: 0 <= r < |s.tasks| && r != q ==>
             TaskFits(s.issued, s.tasks[r]) && ApartTasks(s.tasks[q], s.tasks[r]);
    assert Alive(s.store, c.family);
    var a := Go(q, 0, 0, 0);
    SoundStep(s, a);
    var more := FromChecked(Apply(s, a), p, q, c);
    Before(s, a, more);
    run := [a] + more;
  }

  lemma FromCarrier(s: State, p: nat, q: nat, c: Claims) returns (run: seq<Action>)
    requires Sound(s) && p < |s.tasks| && q < |s.tasks| && s.tasks[p] == RefreshTask(c, Polling(0))
    requires Carries(s.tasks[q], c.jti) && Revivable(s, c.family)
    ensures Possible(s, run) && Succeeds(s, run, p)
  {
    assert TaskFits(s.issued, s.tasks[p]) && TaskFits(s.issued, s.tasks[q]);
    if s.tasks[q].stage.Consumed? {
      run := FromConsumed(s, p, q, c);
    } else if s.tasks[q].stage.Checked? {
      run := FromChecked(s, p, q, c);
    } else {
      run := FromRegistered(s, p, q, c);
    }
  }

  /**
   In every reachable state, a use that found nothing to consume can still be given the pair, in some continuation,
   exactly when a first use of the same token has yet to publish it and the family is alive or about to be opened
   again.  A pair published before does not help: this use deletes it first.
   */
  lemma SecondUseCanReturn(past: seq<Action>, p: nat)
    requires Possible(EMPTY, past)
    requires var s := After(EMPTY, past); p < |s.tasks| && s.tasks[p].RefreshTask? && s.tasks[p].stage.Missed?
    ensures var s := After(EMPTY, past);
            (exists run :: Possible(s, run) && Succeeds(s, run, p))
            <==> Awaited(s, s.tasks[p].c.jti) && Revivable(s, s.tasks[p].c.family)
  {
    var s := After(EMPTY, past);
    ReachableIsSound(EMPTY, past);
    assert Sound(EMPTY) && Spent(EMPTY);
    SpentAfter(EMPTY, past);
    var c := s.tasks[p].c;
    assert TaskFits(s.issued, s.tasks[p]);
    if Awaited(s, c.jti) && Revivable(s, c.family) {
      var run := ThenReturns(s, p, c);
    } else {
      forall run | Possible(s, run) ensures !Succeeds(s, run, p) {
        if !Awaited(s, c.jti) {
          BarrenForever(s, run, p, c.jti);
        } else {
          ShutForever(s, run, p, c.family);
        }
      }
    }
  }

  lemma ThenReturns(s: State, p: nat, c: Claims) returns (run: seq<Action>)
    requires Sound(s) && p < |s.tasks| && s.tasks[p] == RefreshTask(c, Missed)
    requires Awaited(s, c.jti) && Revivable(s, c.family)
    ensures Possible(s, run) && Succeeds(s, run, p)
  {
    var q :| 0 <= q < |s.tasks| && Carries(s.tasks[q], c.jti);
    var a := Go(p, 0, 0, 0);
    GraceDeleted(s, p, c);
    hide Apply, Sound;
    var more := FromCarrier(Apply(s, a), p, q, c);
    Before(s, a, more);
    run := [a] + more;
  }

  /** What the use does after its miss: it deletes the stored pair and nothing else. */
  lemma GraceDeleted(s: State, p: nat, c: Claims)
    requires Sound(s) && p < |s.tasks| && s.tasks[p] == RefreshTask(c, Missed)
    ensures var s' := Apply(s, Go(p, 0, 0, 0));
            && Sound(s') && |s'.tasks| == |s.tasks| && s'.tasks[p] == RefreshTask(c, Polling(0))
            && (forall q :: 0 <= q < |s.tasks| && q != p ==> s'.tasks[q] == s.tasks[q])
            && (Revivable(s, c.family) ==> Revivable(s', c.family))
  {
    SoundStep(s, Go(p, 0, 0, 0));
    hide Sound;
    var s' := Apply(s, Go(p, 0, 0, 0));
    assert s'.store.families == s.store.families;
    if c.family.Some? && PastCheck(s, c.family.value) {
      var r :| 0 <= r < |s.tasks| && s.tasks[r].RefreshTask? && s.tasks[r].stage == Checked(c.family);
      assert s'.tasks[r] == s.tasks[r];
    }
  }

  /** A use that has found the pair can still return it exactly when the family is alive or about to be opened again. */
  lemma FoundPairCanReturn(s: State, p: nat)
    requires Sound(s) && p < |s.tasks| && s.tasks[p].RefreshTask? && s.tasks[p].stage.FoundGrace?
    ensures (exists run :: Possible(s, run) && Succeeds(s, run, p)) <==> Revivable(s, s.tasks[p].c.family)
  {
    var c := s.tasks[p].c;
    if Revivable(s, c.family) {
      var run := FoundReturns(s, p, c);
    } else {
      forall run | Possible(s, run) ensures !Succeeds(s, run, p) {
        ShutForever(s, run, p, c.family);
      }
    }
  }

  lemma FoundReturns(s: State, p: nat, c: Claims) returns (run: seq<Action>)
    requires Sound(s) && p < |s.tasks| && s.tasks[p].RefreshTask? && s.tasks[p].c == c && s.tasks[p].stage.FoundGrace?
    requires Revivable(s, c.family)
    ensures Possible(s, run) && Succeeds(s, run, p)
  {
    var go := Go(p, 0, 0, 0);
    if Alive(s.store, c.family) {
      run := FoundThenAlive(s, p);
    } else {
      var a := Revive(s, c.family.value);
      var more := FoundThenAlive(Apply(s, a), p);
      Before(s, a, more);
      run := [a] + more;
    }
  }

  lemma FoundThenAlive(s: State, p: nat) returns (run: seq<Action>)
    requires Sound(s) && p < |s.tasks| && s.tasks[p].RefreshTask? && s.tasks[p].stage.FoundGrace?
    requires Alive(s.store, s.tasks[p].c.family)
    ensures Possible(s, run) && Succeeds(s, run, p)
  {
    var go := Go(p, 0, 0, 0);
    assert TaskFits(s.issued, s.tasks[p]);
    var s1 := Apply(s, go);
    assert Possible(s1, []) && After(s1, []) == s1;
    Before(s, go, []);
    run := [go] + [];
  }
}
