/**
 One use of a refresh token from beginning to end: how long it waits for the pair of a first use, and what becomes of
 a use that finds its token stored.
 */
module TokenUse {
  import opened Wrappers
  import opened TokenFamilies
  import opened TokenRuns

  // ----- How a later use waits -----

  predicate Polls(s: State, p: nat) {
    p < |s.tasks| && s.tasks[p].RefreshTask? && s.tasks[p].stage.Polling?
  }

  function Seen(s: Store, j: Jti): Option<Grace> {
    if j in s.grace then Some(s.grace[j]) else None
  }

  /** What the use `p` finds at the grace key of its token, read by read. */
  ghost function Reads(s: State, run: seq<Action>, p: nat): seq<Option<Grace>>
    requires Possible(s, run)
    decreases |run|
  {
    if run == [] then []
    else
      (if run[0].Go? && run[0].p == p && Polls(s, p) then [Seen(s.store, s.tasks[p].c.jti)] else [])
      + Reads(Apply(s, run[0]), run[1..], p)
  }

  ghost predicate AllRotating(looks: seq<Option<Grace>>) {
    forall i :: 0 <= i < |looks| ==> looks[i] == Some(Rotating)
  }

  /** What a use has become that found the pair. */
  predicate HasFound(stage: Stage, pair: Pair, aborted: bool) {
    stage in {FoundGrace(pair), Returned(pair), Failed(Revoked)} || (aborted && stage == Failed(Invalid))
  }

  /** What a use has become that gave up. */
  predicate HasGivenUp(stage: Stage) {
    stage in {NoGrace, Reuse, Failed(Invalid), Failed(Reused)}
  }

  lemma OtherStep(s: State, a: Action, p: nat)
    requires Enabled(s, a) && p < |s.tasks| && s.tasks[p].RefreshTask?
    ensures var s' := Apply(s, a);
            && p < |s'.tasks| && s'.tasks[p].RefreshTask? && s'.tasks[p].c == s.tasks[p].c
            && (!(a.Go? && a.p == p) ==>
                  s'.tasks[p].stage == s.tasks[p].stage || (a == Abort(p) && s'.tasks[p].stage == Failed(Invalid)))
            && (s.tasks[p].stage.Returned? || s.tasks[p].stage.Failed? ==>
                  s'.tasks[p].stage == s.tasks[p].stage || (a == Abort(p) && s'.tasks[p].stage == Failed(Invalid)))
  {
  }

  lemma OffStep(s: State, a: Action, p: nat, pair: Pair, aborted: bool)
    requires Enabled(s, a) && p < |s.tasks| && s.tasks[p].RefreshTask?
    ensures HasFound(s.tasks[p].stage, pair, aborted) ==>
              HasFound(Apply(s, a).tasks[p].stage, pair, aborted || a == Abort(p))
    ensures HasGivenUp(s.tasks[p].stage) ==> HasGivenUp(Apply(s, a).tasks[p].stage)
  {
    OtherStep(s, a, p);
  }

  /** Once it has found the pair or given up a use reads no more. */
  lemma {:induction false} OffForGood(s: State, run: seq<Action>, p: nat, pair: Pair, aborted: bool)
    requires Possible(s, run) && p < |s.tasks| && s.tasks[p].RefreshTask?
    requires HasFound(s.tasks[p].stage, pair, aborted) || HasGivenUp(s.tasks[p].stage)
    ensures var s' := After(s, run);
            && p < |s'.tasks| && s'.tasks[p].RefreshTask? && Reads(s, run, p) == []
            && (HasFound(s.tasks[p].stage, pair, aborted) ==>
                  HasFound(s'.tasks[p].stage, pair, aborted || Abort(p) in run))
            && (HasGivenUp(s.tasks[p].stage) ==> HasGivenUp(s'.tasks[p].stage))
    decreases |run|
  {
    if run != [] {
      OtherStep(s, run[0], p);
      OffStep(s, run[0], p, pair, aborted);
      hide Apply, HasFound, HasGivenUp;
      OffForGood(Apply(s, run[0]), run[1..], p, pair, aborted || run[0] == Abort(p));
      InRun(run, p);
    }
  }

  /** One read, the `n + 1`-st, and what it makes of the use. */
  lemma OneRead(s: State, a: Action, p: nat, n: nat)
    requires Enabled(s, a) && a.Go? && a.p == p && Polls(s, p) && s.tasks[p].stage == Polling(n)
    ensures var stage' := Apply(s, a).tasks[p].stage;
            match Seen(s.store, s.tasks[p].c.jti)
            case None => HasGivenUp(stage')
            case Some(Rotated(pair)) => HasFound(stage', pair, false)
            case Some(Rotating) => if n + 1 < POLL_ATTEMPTS then stage' == Polling(n + 1) else HasGivenUp(stage')
  {
  }

  /**
   What a use has become after its last reads, when `n` came before: it goes on as long as each read found ROTATING
   and there were fewer than `POLL_ATTEMPTS`; it has found the pair exactly if its last read did, at whatever attempt;
   it gives up only after a read that found no key, or after `POLL_ATTEMPTS` reads that all found ROTATING; unless it
   is aborted.
   */
  ghost predicate Outcome(looks: seq<Option<Grace>>, n: nat, stage: Stage, aborted: bool) {
    && n + |looks| <= POLL_ATTEMPTS
    && (looks != [] ==> AllRotating(looks[..|looks| - 1]))
    && if AllRotating(looks) && n + |looks| < POLL_ATTEMPTS then
         stage == Polling(n + |looks|) || (aborted && stage == Failed(Invalid))
       else
         looks != [] && match looks[|looks| - 1]
                        case Some(Rotated(pair)) => HasFound(stage, pair, aborted)
                        case _ => HasGivenUp(stage)
  }

  /** So it is in every run, however many requests there are. */
  lemma {:induction false} WaitsForThePair(s: State, run: seq<Action>, p: nat, n: nat)
    requires Possible(s, run) && Polls(s, p) && s.tasks[p].stage == Polling(n) && n < POLL_ATTEMPTS
    ensures var s' := After(s, run);
            && p < |s'.tasks| && s'.tasks[p].RefreshTask?
            && Outcome(Reads(s, run, p), n, s'.tasks[p].stage, Abort(p) in run)
    decreases |run|, 1
  {
    if run != [] {
      var a := run[0];
      var s1 := Apply(s, a);
      OtherStep(s, a, p);
      if a.Go? && a.p == p {
        AfterRead(s, run, p, n);
      } else {
        assert Reads(s, run, p) == [] + Reads(s1, run[1..], p) == Reads(s1, run[1..], p);
        hide Apply, Reads;
        InRun(run, p);
        if s1.tasks[p].stage == Failed(Invalid) {
          OffForGood(s1, run[1..], p, ANY_PAIR, true);
          StaysFailed(s1, run[1..], p);
        } else {
          hide Outcome;
          WaitsForThePair(s1, run[1..], p, n);
        }
      }
    }
  }

  lemma {:induction false} AfterRead(s: State, run: seq<Action>, p: nat, n: nat)
    requires Possible(s, run) && Polls(s, p) && s.tasks[p].stage == Polling(n) && n < POLL_ATTEMPTS
    requires run != [] && run[0].Go? && run[0].p == p
    ensures var s' := After(s, run);
            && p < |s'.tasks| && s'.tasks[p].RefreshTask?
            && Outcome(Reads(s, run, p), n, s'.tasks[p].stage, Abort(p) in run)
    decreases |run|, 0
  {
    var s1, seen := Apply(s, run[0]), Seen(s.store, s.tasks[p].c.jti);
    OtherStep(s, run[0], p);
    OneRead(s, run[0], p, n);
    hide Apply, Outcome, HasFound, HasGivenUp;
    var more := Reads(s1, run[1..], p);
    assert Reads(s, run, p) == [seen] + more;
    InRun(run, p);
    var aborted := Abort(p) in run[1..];
    if seen == Some(Rotating) && n + 1 < POLL_ATTEMPTS {
      WaitsForThePair(s1, run[1..], p, n + 1);
      OneMoreRead(more, n, After(s1, run[1..]).tasks[p].stage, aborted);
    } else {
      OffForGood(s1, run[1..], p, if seen.Some? && seen.value.Rotated? then seen.value.pair else ANY_PAIR, false);
      LastRead(seen, n, After(s1, run[1..]).tasks[p].stage, aborted);
    }
  }

  const ANY_PAIR := NewPair(Claims(0, Refresh, 0, None), None, 0, 0)

  lemma InRun(run: seq<Action>, p: nat)
    requires run != []
    ensures Abort(p) in run <==> run[0] == Abort(p) || Abort(p) in run[1..]
  {
  }

  lemma OneMoreRead(more: seq<Option<Grace>>, n: nat, stage: Stage, aborted: bool)
    requires Outcome(more, n + 1, stage, aborted)
    ensures Outcome([Some(Rotating)] + more, n, stage, aborted)
  {
    hide HasFound, HasGivenUp;
    var looks := [Some(Rotating)] + more;
    assert AllRotating(looks) ==> forall i :: 0 <= i < |more| ==> more[i] == looks[i + 1];
    if more != [] {
      assert looks[..|looks| - 1] == [Some(Rotating)] + more[..|more| - 1];
    }
  }

  lemma LastRead(seen: Option<Grace>, n: nat, stage: Stage, aborted: bool)
    requires n < POLL_ATTEMPTS && (seen == Some(Rotating) ==> n + 1 == POLL_ATTEMPTS)
    requires match seen case Some(Rotated(pair)) => HasFound(stage, pair, aborted) case _ => HasGivenUp(stage)
    ensures Outcome([seen] + [], n, stage, aborted)
  {
    hide HasFound, HasGivenUp;
    assert [seen] + [] == [seen];
    assert [seen][0] == seen;
  }

  lemma {:induction false} StaysFailed(s: State, run: seq<Action>, p: nat)
    requires Possible(s, run) && p < |s.tasks| && s.tasks[p].RefreshTask? && s.tasks[p].stage == Failed(Invalid)
    ensures var s' := After(s, run); p < |s'.tasks| && s'.tasks[p].RefreshTask? && s'.tasks[p].stage == Failed(Invalid)
    decreases |run|
  {
    if run != [] {
      OtherStep(s, run[0], p);
      hide Apply;
      StaysFailed(Apply(s, run[0]), run[1..], p);
    }
  }

  // ----- Why it pays to wait -----

  lemma Step(s: State, a: Action, run: seq<Action>, q: nat)
    requires Enabled(s, a) && Possible(Apply(s, a), run)
    ensures Possible(s, [a] + run) && After(s, [a] + run) == After(Apply(s, a), run)
    ensures Reads(s, [a] + run, q)
            == (if a.Go? && a.p == q && Polls(s, q) then [Seen(s.store, s.tasks[q].c.jti)] else [])
               + Reads(Apply(s, a), run, q)
  {
    assert ([a] + run)[1..] == run;
  }

  /**
   Three uses of one stored token at once: the second misses and deletes the mark of the first, the third misses and
   puts the mark back, so the second reads ROTATING, waits, and is given the pair of the first.
   */
  lemma WaitingPays(s: State, p: nat, q: nat, r: nat, c: Claims) returns (run: seq<Action>, pair: Pair)
    requires p < |s.tasks| && q < |s.tasks| && r < |s.tasks| && p != q && p != r && q != r
    requires s.tasks[p] == s.tasks[q] == s.tasks[r] == RefreshTask(c, Start)
    requires c.jti in s.store.refresh && s.store.refresh[c.jti] == EntryOf(c) && Alive(s.store, c.family)
    ensures Possible(s, run) && Reads(s, run, q) == [Some(Rotating), Some(Rotated(pair))]
    ensures var s' := After(s, run);
            && |s'.tasks| == |s.tasks|
            && s'.tasks[p] == RefreshTask(c, Returned(pair)) && s'.tasks[q] == RefreshTask(c, Returned(pair))
  {
    var first, second, third := Go(p, 0, 0, 0), Go(q, 0, 0, 0), Go(r, 0, 0, 0);
    var s1 := Apply(s, first);
    assert s1.tasks[p] == RefreshTask(c, Consumed(EntryOf(c))) && s1.tasks[q] == s1.tasks[r] == s.tasks[q];
    var s2 := Apply(s1, second);
    assert s2.tasks[q] == RefreshTask(c, Missed) && s2.tasks[p] == s1.tasks[p] && s2.tasks[r] == s.tasks[r];
    var s3 := Apply(s2, second);
    assert s3.tasks[q] == RefreshTask(c, Polling(0)) && s3.tasks[p] == s1.tasks[p] && s3.tasks[r] == s.tasks[r];
    var s4 := Apply(s3, third);
    assert s4.tasks[q] == s3.tasks[q] && s4.tasks[p] == s1.tasks[p] && Seen(s4.store, c.jti) == Some(Rotating);
    assert s4.store.families == s.store.families && |s4.tasks| == |s.tasks|;
    hide Apply, Reads, Seen;
    run, pair := WaitsAndReturns(s4, p, q, c);
    Step(s3, third, run, q);
    run := [third] + run;
    Step(s2, second, run, q);
    run := [second] + run;
    Step(s1, second, run, q);
    run := [second] + run;
    Step(s, first, run, q);
    run := [first] + run;
  }

  lemma WaitsAndReturns(s: State, p: nat, q: nat, c: Claims) returns (run: seq<Action>, pair: Pair)
    requires p < |s.tasks| && q < |s.tasks| && p != q && Alive(s.store, c.family)
    requires s.tasks[p] == RefreshTask(c, Consumed(EntryOf(c))) && s.tasks[q] == RefreshTask(c, Polling(0))
    requires Seen(s.store, c.jti) == Some(Rotating)
    ensures Possible(s, run) && Reads(s, run, q) == [Some(Rotating), Some(Rotated(pair))]
    ensures var s' := After(s, run);
            && |s'.tasks| == |s.tasks|
            && s'.tasks[p] == RefreshTask(c, Returned(pair)) && s'.tasks[q] == RefreshTask(c, Returned(pair))
  {
    var first, second := Go(p, 0, 0, 0), Go(q, 0, 0, 0);
    var s1 := Apply(s, second);
    assert s1.tasks[q] == RefreshTask(c, Polling(1)) && s1.tasks[p] == s.tasks[p] && s1.store == s.store;
    var s2 := Apply(s1, first);
    assert s2.tasks[p] == RefreshTask(c, Checked(c.family)) && s2.tasks[q] == s1.tasks[q] && s2.store == s.store;
    assert |s2.tasks| == |s.tasks|;
    hide Apply, Reads, Seen;
    run, pair := PublishedIsReturned(s2, p, q, c);
    Step(s1, first, run, q);
    run := [first] + run;
    Step(s, second, run, q);
    run := [second] + run;
    assert [Some(Rotating)] + ([] + [Some(Rotated(pair))]) == [Some(Rotating), Some(Rotated(pair))];
  }

  lemma PublishedIsReturned(s: State, p: nat, q: nat, c: Claims) returns (run: seq<Action>, pair: Pair)
    requires p < |s.tasks| && q < |s.tasks| && p != q && Alive(s.store, c.family)
    requires s.tasks[p] == RefreshTask(c, Checked(c.family)) && s.tasks[q] == RefreshTask(c, Polling(1))
    ensures Possible(s, run) && Reads(s, run, q) == [Some(Rotated(pair))]
    ensures var s' := After(s, run);
            && |s'.tasks| == |s.tasks|
            && s'.tasks[p] == RefreshTask(c, Returned(pair)) && s'.tasks[q] == RefreshTask(c, Returned(pair))
  {
    var ja, jr := FreshIds(s);
    pair := NewPair(c, c.family, ja, jr);
    var register, publish := Go(p, ja, jr, 1), Go(p, 0, 0, 0);
    var s1 := Apply(s, register);
    assert s1.tasks[p] == RefreshTask(c, Registered(pair)) && s1.tasks[q] == s.tasks[q];
    assert Alive(s1.store, c.family) && |s1.tasks| == |s.tasks|;
    var s2 := Apply(s1, publish);
    assert s2.tasks[p] == RefreshTask(c, Returned(pair)) && s2.tasks[q] == s.tasks[q];
    assert Seen(s2.store, c.jti) == Some(Rotated(pair)) && s2.store.families == s1.store.families;
    hide Apply, Reads, Seen;
    run := FoundIsReturned(s2, p, q, c, pair);
    Step(s1, publish, run, q);
    run := [publish] + run;
    Step(s, register, run, q);
    run := [register] + run;
  }

  lemma FoundIsReturned(s: State, p: nat, q: nat, c: Claims, pair: Pair) returns (run: seq<Action>)
    requires p < |s.tasks| && q < |s.tasks| && p != q && Alive(s.store, c.family)
    requires s.tasks[q] == RefreshTask(c, Polling(1)) && Seen(s.store, c.jti) == Some(Rotated(pair))
    requires pair.refresh.family == c.family
    ensures Possible(s, run) && Reads(s, run, q) == [Some(Rotated(pair))]
    ensures var s' := After(s, run);
            && |s'.tasks| == |s.tasks|
            && s'.tasks[p] == s.tasks[p] && s'.tasks[q] == RefreshTask(c, Returned(pair))
  {
    var second := Go(q, 0, 0, 0);
    var s1 := Apply(s, second);
    assert s1.tasks[q] == RefreshTask(c, FoundGrace(pair)) && s1.tasks[p] == s.tasks[p] && s1.store == s.store;
    var s2 := Apply(s1, second);
    assert s2.tasks[q] == RefreshTask(c, Returned(pair)) && s2.tasks[p] == s.tasks[p] && |s2.tasks| == |s.tasks|;
    assert Possible(s2, []) && After(s2, []) == s2 && Reads(s2, [], q) == [];
    hide Apply, Reads, Seen;
    Step(s1, second, [], q);
    run := [second] + [];
    Step(s, second, run, q);
    run := [second] + run;
  }

  // ----- A use that finds its token -----

  /**
   With nothing in between, a use whose token is stored takes it, and then: a wrong subject revokes the family of the
   token; a dead family fails; otherwise the new pair is registered, published and returned.
   */
  lemma StoredUseAlone(s: Store, c: Claims, ja: Jti, jr: Jti, ttl: int)
    requires c.jti in s.refresh && jr != c.jti
    ensures var e := s.refresh[c.jti];
            var family := if e.family.Some? then e.family else c.family;
            var pair := Pair(Claims(ja, Access, c.subject, family), Claims(jr, Refresh, c.subject, family));
            var (s', end) := Alone(s, c, Start, ja, jr, ttl);
            && c.jti !in s'.refresh && s'.revoked == s.revoked
            && (e.subject != c.subject ==>
                  && end == Failed(Invalid) && s'.families == s.families - FamilySet(c.family)
                  && s'.refresh == s.refresh - {c.jti} && s'.grace == s.grace[c.jti := Rotating])
            && (e.subject == c.subject && family.Some? && family.value !in s.families ==>
                  && end == Failed(Revoked) && s'.families == s.families
                  && s'.refresh == s.refresh - {c.jti} && s'.grace == s.grace[c.jti := Rotating])
            && (e.subject == c.subject && (family.None? || family.value in s.families) ==>
                  && end == Returned(pair) && s'.grace == s.grace[c.jti := Rotated(pair)]
                  && s'.families == s.families
                  && s'.refresh == s.refresh - {c.jti}
                                   + (if ttl > 0 then map[jr := Entry(c.subject, family)] else map[]))
  {
    var e := s.refresh[c.jti];
    var family := Or(e.family, c.family);
    var s1 := Consume(s, c.jti).0;
    AloneStep(s, c, Start, ja, jr, ttl);
    AloneStep(s1, c, Consumed(e), ja, jr, ttl);
    if e.subject == c.subject && Alive(s, family) {
      var s2 := Register(s1, jr, c.subject, ttl, family);
      AloneStep(s1, c, Checked(family), ja, jr, ttl);
      AloneStep(s2, c, Registered(NewPair(c, family, ja, jr)), ja, jr, ttl);
      assert s1.families + FamilySet(family) == s1.families;
    }
  }

  /** A login's pair is good: its access token passes a check, and its refresh token is stored for its first use. */
  lemma LoginIsGood(s: State, subject: Subject, f: Family, ja: Jti, jr: Jti, ttl: int)
    requires Sound(s) && Enabled(s, Login(subject, f, ja, jr, ttl)) && ttl > 0
    ensures var s' := Apply(s, Login(subject, f, ja, jr, ttl));
            var access, refresh := Claims(ja, Access, subject, Some(f)), Claims(jr, Refresh, subject, Some(f));
            && Enabled(s', BeginCheck(access)) && Accepted(s'.store, access)
            && Enabled(s', BeginRefresh(refresh)) && Alive(s'.store, Some(f))
            && jr in s'.store.refresh && s'.store.refresh[jr] == EntryOf(refresh)
  {
  }
}
