/**
 Removing a feature's code: delete, commit, validate, let an agent repair, and revert when that does not help.
 */
module Deletion {
  import opened Codegen

  datatype Ending = Deleted | Reverted

  /**
   What the run meets; attempts are counted from 1.  `reverts(n)` says whether Git carries out the `n`-th revert,
   which the call does not tell: it swallows every error.
   */
  datatype Plan = Plan(
    workspace: bool,
    removes: bool,
    hash: bool,
    passes: nat -> bool,
    healthy: nat -> bool,
    hasJobs: bool,
    replies: nat -> nat,
    reverts: nat -> bool)

  /** The `k`-th validation is reached and passes: those before it failed, and the agent was there for a repair. */
  ghost predicate PassesAt(p: Plan, k: nat, maxFixes: nat) {
    1 <= k <= maxFixes + 1 && p.passes(k) && forall j :: 1 <= j < k ==> !p.passes(j) && p.healthy(j)
  }

  /** The application can be kept working without the feature. */
  ghost predicate Repairable(p: Plan, maxFixes: nat) {
    exists k :: PassesAt(p, k, maxFixes)
  }

  class Removal {
    var lock: Lock
    var record: bool
    var commits: nat
    var revertsAt: seq<nat>
    var reverted: bool
    var checks: nat
    var prompts: nat
    var passed: bool
    var endings: seq<Ending>
    var ticks: nat
    const fates: Fates

    constructor (fates: Fates)
      ensures lock == Free && record && commits == 0 && revertsAt == [] && !reverted
      ensures checks == 0 && prompts == 0 && !passed
      ensures endings == [] && ticks == 0 && this.fates == fates
    {
      this.fates := fates;
      lock, record, commits, revertsAt, reverted := Free, true, 0, [], false;
      checks, prompts, passed, endings, ticks := 0, 0, false, [], 0;
    }

    /** No call fails or is cancelled. */
    ghost predicate Calm() {
      forall n, port :: fates(n, port) == Fine
    }

    /** No call other than the drop of the record fails or is cancelled. */
    ghost predicate CalmElsewhere() {
      forall n, port :: port != SaveRecord ==> fates(n, port) == Fine
    }

    /** The `n`-th revert took effect. */
    ghost predicate Effective(p: Plan, n: nat)
      requires n < |revertsAt|
      reads `revertsAt
    {
      Took(fates(revertsAt[n], ChangeWorkspace)) && p.reverts(n)
    }

    /** The code is back exactly if one of the reverts took effect. */
    ghost predicate RevertFits(p: Plan)
      reads `revertsAt, `reverted
    {
      reverted <==> exists n :: 0 <= n < |revertsAt| && Effective(p, n)
    }

    method Await(port: Port) returns (exit: Exit, took: bool)
      modifies `ticks
      ensures ticks == old(ticks) + 1
      ensures exit == ExitOf(fates(old(ticks), port)) && took == Took(fates(old(ticks), port))
    {
      exit, took := ExitOf(fates(ticks, port)), Took(fates(ticks, port));
      ticks := ticks + 1;
    }

    method Call() returns (exit: Exit)
      modifies `ticks
      ensures CalmElsewhere() ==> exit.Normal?
    {
      var took;
      exit, took := Await(Other);
    }

    method QuietCall() returns (exit: Exit)
      modifies `ticks
      ensures !exit.Raised? && (CalmElsewhere() ==> exit.Normal?)
    {
      exit := Call();
      exit := Suppressed(exit);
    }

    /** A `yield`: the reader may close the generator there, which is no `Exception`. */
    method Yield() returns (exit: Exit)
      modifies `ticks
      ensures !exit.Raised? && (CalmElsewhere() ==> exit.Normal?)
    {
      exit := QuietCall();
    }

    method YieldEnding(e: Ending) returns (exit: Exit)
      modifies `ticks, `endings
      ensures endings == old(endings) + [e] && !exit.Raised? && (CalmElsewhere() ==> exit.Normal?)
    {
      endings := endings + [e];
      exit := Yield();
    }

    method DropRecord() returns (exit: Exit)
      modifies `ticks, `record
      ensures exit == ExitOf(fates(old(ticks), SaveRecord))
      ensures record == (old(record) && !Took(fates(old(ticks), SaveRecord)))
    {
      var took;
      exit, took := Await(SaveRecord);
      if took {
        record := false;
      }
    }

    /** `revert_commit`, when there is a commit to revert. */
    method AskRevert(p: Plan) returns (exit: Exit)
      requires RevertFits(p)
      modifies `ticks, `revertsAt, `reverted
      ensures RevertFits(p)
      ensures |revertsAt| == |old(revertsAt)| + (if p.hash then 1 else 0) && old(revertsAt) <= revertsAt
      ensures !exit.Normal? ==> p.hash
      ensures CalmElsewhere() ==> exit.Normal?
    {
      if !p.hash {
        return Normal;
      }
      ghost var n := |revertsAt|;
      var took;
      var works := p.reverts(|revertsAt|);
      revertsAt := revertsAt + [ticks];
      exit, took := Await(ChangeWorkspace);
      reverted := reverted || (took && works);
      assert Effective(p, n) == (took && works);
      assert forall k :: 0 <= k < n ==> Effective(p, k) == old(Effective(p, k));
    }

    /** A prompt to the agent, its answers passed on. */
    method Prompt(n: nat) returns (exit: Exit)
      modifies `ticks, `prompts
      ensures prompts == old(prompts) + 1 && (CalmElsewhere() ==> exit.Normal?)
    {
      prompts := prompts + 1;
      for i := 0 to n
        invariant prompts == old(prompts) + 1
      {
        :- Call();
        :- Yield();
      }
      exit := Call();
    }

    /** One round of repair; `asked` is false when the agent is not available. */
    method AskForFix(p: Plan, attempt: nat, session: bool, job: bool)
      returns (exit: Exit, session': bool, job': bool, asked: bool)
      modifies `ticks, `prompts
      ensures prompts == old(prompts) || prompts == old(prompts) + 1
      ensures exit.Normal? ==> asked == p.healthy(attempt) && (asked <==> prompts == old(prompts) + 1)
      ensures CalmElsewhere() ==> exit.Normal?
    {
      session', job', asked := session, job, false;
      if !job' && p.hasJobs {
        :- Call();
        job' := true;
      }
      :- Call();
      if !p.healthy(attempt) {
        return Normal, session', job', false;
      }
      if !session' {
        :- Call();
        session' := true;
      }
      asked := true;
      exit := Prompt(p.replies(attempt));
    }

    /** The inner `try` block: validate, repair, and give up with a revert. */
    method Repair(p: Plan, maxFixes: nat) returns (exit: Exit, session: bool, job: bool)
      requires checks == 0 && prompts == 0 && endings == [] && !passed && revertsAt == [] && !reverted
      modifies `ticks, `checks, `prompts, `passed, `endings, `revertsAt, `reverted
      ensures checks <= maxFixes + 1 && prompts <= maxFixes && (prompts == checks || prompts + 1 == checks)
      ensures passed ==> checks > 0 && p.passes(checks) && prompts + 1 == checks
      ensures forall k :: 1 <= k < checks ==> !p.passes(k)
      ensures exit.Normal? ==> checks > 0 && endings == [if passed then Deleted else Reverted]
      ensures exit.Normal? ==> |revertsAt| == if p.hash && !passed then 1 else 0
      ensures exit.Raised? ==> endings == [] && !passed
      ensures exit.Normal? && !passed ==> checks == maxFixes + 1 || !p.healthy(checks)
      ensures exit.Normal? ==> (passed <==> Repairable(p, maxFixes))
      ensures RevertFits(p) && |revertsAt| <= 1 && (revertsAt != [] ==> p.hash && !passed)
      ensures CalmElsewhere() ==> exit.Normal?
    {
      session, job := false, false;
      var attempt := 1;
      while attempt <= maxFixes + 1
        invariant 1 <= attempt <= maxFixes + 1
        invariant checks == attempt - 1 == prompts && !passed && endings == []
        invariant revertsAt == [] && !reverted
        invariant forall k :: 1 <= k <= checks ==> !p.passes(k) && p.healthy(k)
      {
        :- Yield();
        :- Call();
        checks := checks + 1;
        if p.passes(attempt) {
          assert PassesAt(p, attempt, maxFixes);
          passed := true;
          exit := YieldEnding(Deleted);
          return;
        }
        if attempt > maxFixes {
          break;
        }
        var asked;
        exit, session, job, asked := AskForFix(p, attempt, session, job);
        if exit.IsFailure() {
          return;
        }
        if !asked {
          break;
        }
        attempt := attempt + 1;
      }
      assert !Repairable(p, maxFixes);
      :- AskRevert(p);
      exit := YieldEnding(Reverted);
    }

    /** The inner `try` with its `except` and `finally`. */
    method RepairGuarded(p: Plan, maxFixes: nat) returns (exit: Exit)
      requires checks == 0 && prompts == 0 && endings == [] && !passed && revertsAt == [] && !reverted
      modifies `ticks, `checks, `prompts, `passed, `endings, `revertsAt, `reverted
      ensures checks <= maxFixes + 1 && prompts <= maxFixes && (prompts == checks || prompts + 1 == checks)
      ensures passed ==> checks > 0 && p.passes(checks) && prompts + 1 == checks
      ensures forall k :: 1 <= k < checks ==> !p.passes(k)
      ensures !exit.Raised?
      ensures exit.Normal? ==> endings == (if passed then [Deleted] else [Reverted])
      ensures RevertFits(p) && |revertsAt| <= 2 && (revertsAt != [] ==> p.hash && !passed)
      ensures exit.Normal? && p.hash && !passed ==> revertsAt != []
      ensures revertsAt == [] ==> !reverted
      ensures CalmElsewhere() ==> exit.Normal? && |revertsAt| <= 1 && checks > 0
      ensures CalmElsewhere() ==> (passed <==> Repairable(p, maxFixes))
    {
      var session, job;
      exit, session, job := Repair(p, maxFixes);
      if exit.Raised? {
        exit := AskRevert(p);
        exit := Suppressed(exit);
        if exit.Normal? {
          exit := YieldEnding(Reverted);
        }
      }
      var closed := Close(session, job);
      exit := if closed.Cancelled? then closed else exit;
    }

    method Close(session: bool, job: bool) returns (exit: Exit)
      modifies `ticks
      ensures !exit.Raised? && (CalmElsewhere() ==> exit.Normal?)
    {
      if session {
        :- QuietCall();
      }
      if job {
        :- QuietCall();
      }
      return Normal;
    }

    /** The outer `try` block. */
    method Remove(p: Plan, maxFixes: nat) returns (exit: Exit)
      requires checks == 0 && prompts == 0 && commits == 0 && endings == [] && !passed && revertsAt == [] && !reverted
      modifies `ticks, `checks, `prompts, `passed, `endings, `revertsAt, `reverted, `record, `commits
      ensures checks <= maxFixes + 1 && prompts <= maxFixes && commits <= 1
      ensures forall k :: 1 <= k < checks ==> !p.passes(k)
      ensures passed ==> checks > 0 && p.passes(checks)
      ensures exit.Raised? ==> endings == [] && checks == 0 && revertsAt == []
      ensures revertsAt == [] ==> !reverted
      ensures exit.Normal? ==> !record && (checks > 0 ==> p.workspace && p.removes && commits == 1)
      ensures exit.Normal? ==> endings == [if passed || !p.workspace || !p.removes then Deleted else Reverted]
      ensures exit.Normal? && p.workspace && p.removes ==> commits == 1
      ensures RevertFits(p) && |revertsAt| <= 2 && (revertsAt != [] ==> p.workspace && p.removes && p.hash && !passed)
      ensures exit.Normal? && p.workspace && p.removes && p.hash && !passed ==> revertsAt != []
      ensures Calm() ==> exit.Normal?
      ensures Calm() ==> (endings == [Deleted] <==> !p.workspace || !p.removes || Repairable(p, maxFixes))
      ensures CalmElsewhere() && (forall n :: fates(n, SaveRecord) == Fails(false, false)) ==>
                exit.Raised? && record == old(record) && (p.workspace && p.removes ==> commits == 1)
    {
      hide Repairable;
      exit := Normal;
      :- Yield();
      :- Call();
      if !p.workspace {
        :- DropRecord();
        exit := YieldEnding(Deleted);
        return;
      }
      :- Call();
      :- Call();
      if p.removes {
        var took;
        exit, took := Await(ChangeWorkspace);
        commits := if took then 1 else 0;
        if exit.IsFailure() {
          return;
        }
      }
      :- DropRecord();
      if !p.removes {
        exit := YieldEnding(Deleted);
        return;
      }
      exit := RepairGuarded(p, maxFixes);
    }

    /**
     `DeleteFeatureCodeUseCase.execute_stream`.  A run that ends normally says once how it ended: deleted, after a
     validation that passed or with nothing to validate; or reverted.  Reverted is true exactly if there was a commit
     to revert and one of the at most two reverts took effect.  Either way the record is gone.  A run that raises did
     so before any validation, says nothing, and leaves a commit it made unreverted.  With no call failing the feature
     is deleted exactly if there is nothing to validate or a validation within the allowed repair rounds passes.  The
     lock is given back exactly if the release, the last call, takes effect.
     */
    method ExecuteStream(p: Plan, maxFixes: nat) returns (exit: Exit, locked: bool)
      requires lock.Free? && checks == 0 && prompts == 0 && commits == 0 && endings == [] && !passed
      requires revertsAt == [] && !reverted
      modifies this
      ensures !locked ==> !exit.Normal? && record == old(record) && endings == [] && commits == 0
      ensures locked && !exit.Cancelled? ==>
                ticks > 0 && lock == if Took(fates(ticks - 1, ReleaseLock)) then Released else Held
      ensures checks <= maxFixes + 1 && prompts <= maxFixes && commits <= 1
      ensures forall k :: 1 <= k < checks ==> !p.passes(k)
      ensures exit.Raised? ==> endings == [] && checks == 0 && revertsAt == [] && !reverted
      ensures exit.Normal? ==> locked && !record && |endings| == 1
      ensures exit.Normal? && endings == [Deleted] ==>
                !reverted && (if checks > 0 then p.passes(checks) else !p.workspace || !p.removes)
      ensures exit.Normal? && endings == [Reverted] ==>
                commits == 1 && !passed && |revertsAt| <= 2 && (p.hash <==> revertsAt != []) && RevertFits(p)
      ensures Calm() ==> exit.Normal?
      ensures Calm() ==> (endings == [Deleted] <==> !p.workspace || !p.removes || Repairable(p, maxFixes))
      ensures CalmElsewhere() && (forall n :: fates(n, SaveRecord) == Fails(false, false)) ==>
                exit.Raised? && record == old(record) && (p.workspace && p.removes ==> commits == 1)
    {
      hide RevertFits, Repairable;
      locked := false;
      var took;
      exit, took := Await(AcquireLock);
      lock := if took then Held else Free;
      if exit.IsFailure() {
        return;
      }
      locked := true;
      exit := Remove(p, maxFixes);
      var released;
      released, took := Await(ReleaseLock);
      lock := if took then Released else Held;
      exit := if released.Cancelled? then released else exit;
    }
  }

  /** A feature with code whose removal breaks the build for good; `reverts` says whether Git can revert the commit. */
  function BreaksTheBuild(reverts: bool): Plan {
    Plan(true, true, true, k => false, k => true, false, k => 0, n => reverts)
  }

  method RemoveCalmly(reverts: bool) returns (r: Removal)
    ensures r.Calm() && r.endings == [Reverted] && r.commits == 1 && !r.record && r.reverted == reverts
  {
    var p := BreaksTheBuild(reverts);
    r := new Removal((n, port) => Fine);
    assert r.Calm();
    var exit, locked := r.ExecuteStream(p, 2);
    assert !p.passes(r.checks) && r.endings != [Deleted];
    assert r.endings == [r.endings[0]];
    match r.endings[0] {
      case Deleted =>
      case Reverted =>
        assert r.Effective(p, 0) == reverts;
    }
  }

  /** No call fails and Git cannot revert: the run says that the code is back, and it is not. */
  method AnnouncedInVain() returns (r: Removal)
    ensures r.Calm() && r.endings == [Reverted] && !r.reverted && r.commits == 1 && !r.record
  {
    r := RemoveCalmly(false);
  }

  /** No call fails and Git can revert: the code is back, its record is gone. */
  method RecordLostCodeBack() returns (r: Removal)
    ensures r.Calm() && r.endings == [Reverted] && r.reverted && !r.record
  {
    r := RemoveCalmly(true);
  }

  /** The drop of the record fails, every other call is fine: the run raises and the commit stays, with the record. */
  method StrandedCommit() returns (r: Removal, raised: bool)
    ensures raised && r.commits == 1 && !r.reverted && r.record && r.endings == [] && r.lock.Released?
    ensures forall n, port :: port != SaveRecord ==> r.fates(n, port) == Fine
  {
    r := new Removal(Only(SaveRecord, Fails(false, false)));
    var exit, locked := r.ExecuteStream(BreaksTheBuild(true), 2);
    raised := exit.Raised?;
  }
}
