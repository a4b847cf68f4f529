/**
 One generation run: take the project's lock, plan, build, validate with retries, then commit or roll back, when
 any call may fail or be cancelled.
 */
module Codegen {
  import opened Wrappers
  import opened Artifacts

  /**
   How one awaited call ends.  `done` says whether a failed or cancelled call took effect all the same, and
   `generation` that its exception is an `OpenCodeGenerationError`.
   */
  datatype Fate = Fine | Fails(done: bool, generation: bool) | Cancels(done: bool)

  /** What a call is for, as far as it matters how it ends. */
  datatype Port =
    | AcquireLock
    | ReleaseLock
    | SaveRecord
    | ReadRecord
    | ChangeWorkspace
    | EventSink
    | AgentReply
    | Closing
    | Other

  /** The end of the `n`-th call, if it is a call of the given port. */
  type Fates = (nat, Port) -> Fate

  predicate Took(fate: Fate) {
    match fate case Fine => true case Fails(done, _) => done case Cancels(done) => done
  }

  datatype Exit = Normal | Raised(generation: bool) | Cancelled {
    predicate IsFailure() {
      !Normal?
    }

    function PropagateFailure(): Exit
      requires IsFailure()
    {
      this
    }
  }

  function ExitOf(fate: Fate): Exit {
    match fate case Fine => Normal case Fails(_, generation) => Raised(generation) case Cancels(_) => Cancelled
  }

  /** `contextlib.suppress(Exception)`, which lets a cancellation through. */
  function Suppressed(exit: Exit): Exit {
    if exit.Cancelled? then Cancelled else Normal
  }

  datatype Event = Progress | SessionCreated | Retry | Forwarded | DoneEvent | FatalError

  predicate Terminal(e: Event) {
    e.DoneEvent? || e.FatalError?
  }

  datatype Action =
    | Acquire
    | Release
    | Emit(event: Event)
    | Commit
    | Rollback
    | Store(status: Status)
    | Check(structure: bool, tech: bool)

  // ----- What a run may do, watched action by action -----

  datatype Lock = Free | Held | Released

  /**
   `passed`: the last check passed; `committed` and `rolledBack`: since the last check; `ended`: how many terminal
   events there were; `ok`: every action so far was allowed.
   */
  datatype Watch = Watch(lock: Lock, passed: bool, committed: bool, rolledBack: bool, ended: nat, ok: bool)

  predicate Allowed(w: Watch, a: Action) {
    match a
    case Acquire => w.lock.Free?
    case Release => w.lock.Held?
    case Emit(e) => w.lock.Held? && (w.ended == 0 || e.FatalError?)
    case Commit => w.lock.Held?
    case Rollback => w.lock.Held?
    case Check(_, _) => w.lock.Held? && !w.passed
    case Store(status) =>
      && w.lock.Held?
      && (match status
          case Pending => false
          case InProgress => !w.committed
          case Implemented => w.passed && w.committed && !w.rolledBack
          case RequiresReview => !w.passed && w.rolledBack
          case Failed => true)
  }

  function Note(w: Watch, a: Action): Watch {
    var w' := w.(ok := w.ok && Allowed(w, a));
    match a
    case Acquire => w'.(lock := Held)
    case Release => w'.(lock := Released)
    case Emit(e) => if Terminal(e) then w'.(ended := w.ended + 1) else w'
    case Commit => w'.(committed := true)
    case Rollback => w'.(rolledBack := true)
    case Check(structure, tech) => w'.(passed := structure && tech, committed := false, rolledBack := false)
    case Store(_) => w'
  }

  function Watched(trace: seq<Action>): Watch {
    if trace == [] then Watch(Free, false, false, false, 0, true)
    else Note(Watched(trace[..|trace| - 1]), trace[|trace| - 1])
  }

  function EventsOf(trace: seq<Action>): seq<Event> {
    if trace == [] then []
    else EventsOf(trace[..|trace| - 1]) + (match trace[|trace| - 1] case Emit(e) => [e] case _ => [])
  }

  /**
   The events that reach the collector: all of them without a sink, otherwise those whose sink call, at the time
   `at` gives, succeeded.
   */
  function Delivered(events: seq<Event>, at: seq<nat>, fates: Fates, sink: bool): seq<Event>
    requires |events| == |at|
  {
    if events == [] then []
    else
      var n := |events| - 1;
      var last := if !sink || fates(at[n], EventSink).Fine? then [events[n]] else [];
      Delivered(events[..n], at[..n], fates, sink) + last
  }

  lemma DeliveredMore(events: seq<Event>, at: seq<nat>, fates: Fates, sink: bool, e: Event, t: nat)
    requires |events| == |at|
    ensures Delivered(events + [e], at + [t], fates, sink)
            == if !sink || fates(t, EventSink).Fine? then Delivered(events, at, fates, sink) + [e]
               else Delivered(events, at, fates, sink)
  {
    assert (events + [e])[..|events|] == events && (at + [t])[..|events|] == at;
  }

  lemma {:induction false} AllDelivered(events: seq<Event>, at: seq<nat>, fates: Fates)
    requires |events| == |at|
    ensures Delivered(events, at, fates, false) == events
  {
    if events != [] {
      AllDelivered(events[..|events| - 1], at[..|events| - 1], fates);
    }
  }

  /** How often the workspace was committed. */
  function Commits(trace: seq<Action>): nat {
    if trace == [] then 0 else Commits(trace[..|trace| - 1]) + (if trace[|trace| - 1].Commit? then 1 else 0)
  }

  lemma CommitsMore(trace: seq<Action>, a: Action)
    ensures Commits(trace + [a]) == Commits(trace) + (if a.Commit? then 1 else 0)
  {
    assert (trace + [a])[..|trace|] == trace;
  }

  lemma WatchedMore(trace: seq<Action>, a: Action)
    ensures Watched(trace + [a]) == Note(Watched(trace), a)
    ensures EventsOf(trace + [a]) == if a.Emit? then EventsOf(trace) + [a.event] else EventsOf(trace)
  {
    assert (trace + [a])[..|trace|] == trace;
  }

  // ----- What the environment decides -----

  datatype Reply = Piece | Wrong

  /**
   The data a run meets: what it reads first, what the agents stream, and the verdict of each validation attempt.
   `callsBefore` and `callsAfter` count the calls of a GitHub sync around its commit.
   */
  datatype Script = Script(
    feature: bool,
    requirements: bool,
    diagram: bool,
    healthy: bool,
    hasJobs: bool,
    planReplies: seq<Reply>,
    planValid: bool,
    buildReplies: seq<Reply>,
    structureAfterBuild: bool,
    structure: nat -> bool,
    tech: nat -> bool,
    fixReplies: nat -> seq<Reply>,
    github: bool,
    projectFound: bool,
    sync: SyncScript,
    deploys: bool,
    deployedBefore: bool,
    deploySyncs: bool)

  datatype SyncScript = SyncScript(isPublic: bool, linked: bool, workspace: bool, callsBefore: nat, callsAfter: nat)

  /** Nothing stands in the way of a sync. */
  predicate Syncable(s: SyncScript) {
    s.isPublic && s.linked && s.workspace
  }

  predicate NoneWrong(replies: seq<Reply>) {
    forall k :: 0 <= k < |replies| ==> replies[k].Piece?
  }

  function Pieces(replies: seq<Reply>): nat {
    if replies == [] then 0
    else Pieces(replies[..|replies| - 1]) + (if replies[|replies| - 1].Piece? then 1 else 0)
  }

  /** Nothing the run reads first stands in its way. */
  predicate Available(s: Script) {
    s.feature && s.requirements && s.diagram && s.healthy
  }

  /**
   The agent reports no error while planning and its plan is valid; and it reports none while building, or what it left
   on disk is valid all the same.
   */
  predicate Buildable(s: Script) {
    NoneWrong(s.planReplies) && s.planValid && (NoneWrong(s.buildReplies) || s.structureAfterBuild)
  }

  /** How many of the events announce another attempt. */
  function Retries(events: seq<Event>): nat {
    if events == [] then 0
    else Retries(events[..|events| - 1]) + (if events[|events| - 1].Retry? then 1 else 0)
  }

  lemma RetriesMore(events: seq<Event>, e: Event)
    ensures Retries(events + [e]) == Retries(events) + (if e.Retry? then 1 else 0)
  {
    assert (events + [e])[..|events|] == events;
  }

  function Repeated(e: Event, n: nat): (events: seq<Event>)
    ensures |events| == n && forall k :: 0 <= k < n ==> events[k] == e
  {
    seq(n, _ => e)
  }

  /** What the exception handler leaves, given what it found and how its read and its save end. */
  function Repaired(found: Option<Status>, read: Fate, save: Fate): Option<Status> {
    if found == Some(InProgress) && read.Fine? && Took(save) then Some(Failed) else found
  }

  predicate Passes(s: Script, attempt: nat) {
    s.structure(attempt) && s.tech(attempt)
  }

  /** The attempt at which validation stops: the first that passes, else the last one allowed. */
  function LastAttempt(s: Script, attempt: nat, max: nat): (last: nat)
    requires attempt <= max
    ensures attempt <= last <= max
    ensures forall k :: attempt < k < last ==> !Passes(s, k)
    ensures last == max || (attempt < last && Passes(s, last))
    decreases max - attempt
  {
    if attempt == max then max
    else if Passes(s, attempt + 1) then attempt + 1
    else LastAttempt(s, attempt + 1, max)
  }

  class Generation {
    var stored: Option<Status>
    var trace: seq<Action>
    var queue: seq<Event>
    var sinkAt: seq<nat>
    var ticks: nat
    /** What the actions so far amount to; its lock is the lock of the project. */
    var watch: Watch
    const fates: Fates
    const sink: bool

    ghost predicate Tracked()
      reads this
    {
      watch == Watched(trace) && watch.ok
    }

    /** Every action was allowed, and the collector has the events that reached it. */
    ghost predicate Valid()
      reads this
    {
      && Tracked() && |sinkAt| == |EventsOf(trace)|
      && queue == Delivered(EventsOf(trace), sinkAt, fates, sink)
    }

    /** The lock is held and nothing final has happened. */
    ghost predicate Working()
      reads this
    {
      Valid() && watch.lock.Held? && watch.ended == 0
    }

    constructor (stored: Option<Status>, fates: Fates, sink: bool)
      ensures Valid() && this.stored == stored && trace == [] && queue == [] && this.fates == fates && this.sink == sink
      ensures ticks == 0
    {
      this.stored, this.fates, this.sink := stored, fates, sink;
      trace, queue, sinkAt, ticks, watch := [], [], [], 0, Watch(Free, false, false, false, 0, true);
    }

    method Log(a: Action)
      requires Tracked() && Allowed(watch, a)
      modifies `trace, `watch
      ensures Tracked() && trace == old(trace) + [a] && watch == Note(old(watch), a)
      ensures EventsOf(trace) == if a.Emit? then EventsOf(old(trace)) + [a.event] else EventsOf(old(trace))
      ensures Commits(trace) == Commits(old(trace)) + (if a.Commit? then 1 else 0)
    {
      WatchedMore(trace, a);
      CommitsMore(trace, a);
      trace, watch := trace + [a], Note(watch, a);
    }

    /** No sink, and no trouble with the calls that do the work. */
    ghost predicate Smooth() {
      !sink && forall n, port :: port in {SaveRecord, ChangeWorkspace, AgentReply, Other} ==> fates(n, port) == Fine
    }

    /** Reading the agent's stream fails, with an `OpenCodeGenerationError` or with another exception. */
    ghost predicate AgentFails(generation: bool) {
      forall n :: fates(n, AgentReply).Fails? && fates(n, AgentReply).generation == generation
    }

    /** None of the calls that only close or repair something is cancelled, nor one that asks for the lock. */
    ghost predicate Patient() {
      forall n, port :: port in {AcquireLock, ReadRecord, Closing, ReleaseLock} ==> !fates(n, port).Cancels?
    }

    /** Some call. */
    method Await(port: Port) returns (exit: Exit, took: bool)
      modifies `ticks
      ensures ticks == old(ticks) + 1
      ensures exit == ExitOf(fates(old(ticks), port)) && took == Took(fates(old(ticks), port))
    {
      exit, took := ExitOf(fates(ticks, port)), Took(fates(ticks, port));
      ticks := ticks + 1;
    }

    /** A call whose effect is not followed here. */
    method CallOf(port: Port) returns (exit: Exit)
      modifies `ticks
      ensures ticks == old(ticks) + 1 && exit == ExitOf(fates(old(ticks), port))
    {
      var took;
      exit, took := Await(port);
    }

    method Call() returns (exit: Exit)
      modifies `ticks
      ensures ticks == old(ticks) + 1 && (Smooth() ==> exit.Normal?)
    {
      exit := CallOf(Other);
    }

    method Calls(n: nat) returns (exit: Exit)
      modifies `ticks
      ensures exit.Normal? ==> ticks == old(ticks) + n
      ensures Smooth() ==> exit.Normal?
    {
      for i := 0 to n
        invariant ticks == old(ticks) + i
      {
        :- Call();
      }
      return Normal;
    }

    /** `_emit`: kept first, then handed to the sink, then to the collector, which never fails. */
    method EmitEvent(e: Event) returns (exit: Exit)
      requires Valid() && Allowed(watch, Emit(e))
      modifies `trace, `queue, `sinkAt, `ticks, `watch
      ensures Valid() && trace == old(trace) + [Emit(e)] && watch == Note(old(watch), Emit(e))
      ensures !sink ==> exit.Normal?
      ensures queue == if exit.Normal? then old(queue) + [e] else old(queue)
      ensures Commits(trace) == Commits(old(trace))
    {
      Log(Emit(e));
      DeliveredMore(EventsOf(old(trace)), sinkAt, fates, sink, e, ticks);
      sinkAt := sinkAt + [ticks];
      if sink {
        :- CallOf(EventSink);
      }
      queue := queue + [e];
      return Normal;
    }

    method SaveStatus(status: Status) returns (exit: Exit)
      requires Valid() && Allowed(watch, Store(status))
      modifies `stored, `trace, `ticks, `watch
      ensures Valid() && watch == old(watch) && EventsOf(trace) == EventsOf(old(trace))
      ensures ticks == old(ticks) + 1 && exit == ExitOf(fates(old(ticks), SaveRecord))
      ensures stored == if Took(fates(old(ticks), SaveRecord)) then Some(status) else old(stored)
      ensures trace == if Took(fates(old(ticks), SaveRecord)) then old(trace) + [Store(status)] else old(trace)
      ensures Commits(trace) == Commits(old(trace))
    {
      var took;
      exit, took := Await(SaveRecord);
      if took {
        stored := Some(status);
        Log(Store(status));
      }
    }

    /** A commit or a rollback of the workspace. */
    method Workspace(a: Action) returns (exit: Exit)
      requires Valid() && Allowed(watch, a) && (a.Commit? || a.Rollback?)
      modifies `trace, `ticks, `watch
      ensures Valid() && ticks == old(ticks) + 1 && exit == ExitOf(fates(old(ticks), ChangeWorkspace))
      ensures watch == if Took(fates(old(ticks), ChangeWorkspace)) then Note(old(watch), a) else old(watch)
      ensures trace == if Took(fates(old(ticks), ChangeWorkspace)) then old(trace) + [a] else old(trace)
      ensures Commits(trace)
              == Commits(old(trace)) + (if a.Commit? && Took(fates(old(ticks), ChangeWorkspace)) then 1 else 0)
    {
      var took;
      exit, took := Await(ChangeWorkspace);
      if took {
        Log(a);
      }
    }

    /** An event that ends nothing. */
    method Say(e: Event) returns (exit: Exit)
      requires Working() && !Terminal(e)
      modifies `trace, `queue, `sinkAt, `ticks, `watch
      ensures Working() && watch == old(watch) && (!sink ==> exit.Normal?)
      ensures EventsOf(trace) == EventsOf(old(trace)) + [e]
      ensures Retries(EventsOf(trace)) == Retries(EventsOf(old(trace))) + (if e.Retry? then 1 else 0)
      ensures Commits(trace) == Commits(old(trace))
    {
      WatchedMore(trace, Emit(e));
      RetriesMore(EventsOf(trace), e);
      exit := EmitEvent(e);
    }

    method SaveProgress() returns (exit: Exit)
      requires Working() && !watch.committed
      modifies `stored, `trace, `ticks, `watch
      ensures Working() && watch == old(watch) && EventsOf(trace) == EventsOf(old(trace))
      ensures stored == old(stored) || stored == Some(InProgress)
      ensures exit.Normal? ==> stored == Some(InProgress)
      ensures Smooth() ==> exit.Normal?
    {
      exit := SaveStatus(InProgress);
    }

    /** A call inside `contextlib.suppress(Exception)`. */
    method QuietCall(port: Port) returns (exit: Exit)
      modifies `ticks
      ensures ticks == old(ticks) + 1 && exit == Suppressed(ExitOf(fates(old(ticks), port)))
    {
      exit := CallOf(port);
      exit := Suppressed(exit);
    }

    /** Reads a stream of the agent, passing each piece on, until it ends or reports an error. */
    method Stream(replies: seq<Reply>) returns (exit: Exit)
      requires Working()
      modifies `trace, `queue, `sinkAt, `ticks, `watch
      ensures Working() && watch == old(watch)
      ensures Smooth() ==> exit == if NoneWrong(replies) then Normal else Raised(true)
      ensures AgentFails(false) ==> exit == Raised(false)
      ensures AgentFails(true) ==> exit == Raised(true)
      ensures exit.Normal? ==>
                NoneWrong(replies) && EventsOf(trace) == EventsOf(old(trace)) + Repeated(Forwarded, |replies|)
    {
      hide Watched, EventsOf, Delivered, Commits;
      for i := 0 to |replies|
        invariant Working() && watch == old(watch)
        invariant NoneWrong(replies[..i])
        invariant EventsOf(trace) == EventsOf(old(trace)) + Repeated(Forwarded, i)
      {
        :- CallOf(AgentReply);
        if replies[i].Wrong? {
          return Raised(true);
        }
        :- Say(Forwarded);
        assert Repeated(Forwarded, i + 1) == Repeated(Forwarded, i) + [Forwarded];
        assert NoneWrong(replies[..i + 1]);
      }
      assert replies[..|replies|] == replies;
      exit := CallOf(AgentReply);
    }

    /** `PlanningService.execute_plan`. */
    method Plan(s: Script) returns (exit: Exit)
      requires Working() && !watch.committed
      modifies this
      ensures Working() && watch == old(watch)
      ensures stored == old(stored) || stored == Some(InProgress)
      ensures exit.Normal? ==> stored == Some(InProgress)
      ensures exit.Normal? ==> NoneWrong(s.planReplies) && s.planValid
      ensures Smooth() ==> exit == if !NoneWrong(s.planReplies) then Raised(true)
                                   else if s.planValid then Normal else Raised(false)
    {
      exit := Normal;
      :- QuietCall(Other);
      :- Calls(3);
      :- Say(Progress);
      :- Stream(s.planReplies);
      if !s.planValid {
        return Raised(false);
      }
      exit := SaveProgress();
    }

    /** `BuildService.execute_build`. */
    method Build(s: Script) returns (exit: Exit)
      requires Working()
      modifies `trace, `queue, `sinkAt, `ticks, `watch
      ensures Working() && watch == old(watch).(rolledBack := watch.rolledBack)
      ensures exit.Normal? ==> watch == old(watch)
      ensures exit.Normal? ==> NoneWrong(s.buildReplies) || s.structureAfterBuild
      ensures Smooth() ==>
                if NoneWrong(s.buildReplies) || s.structureAfterBuild then exit.Normal?
                else exit == Raised(true) && watch.rolledBack
      // Only such an error is ever recovered from, and only with valid code on disk.
      ensures AgentFails(false) ==> exit == Raised(false) && watch == old(watch)
      ensures AgentFails(true) ==>
                if s.structureAfterBuild then sink || exit.Normal? else exit in {Raised(true), Cancelled}
    {
      exit := Stream(s.buildReplies);
      if exit == Raised(true) {
        if s.structureAfterBuild {
          exit := Say(Progress);
        } else {
          var undone := Workspace(Rollback);
          exit := if undone.Cancelled? then Cancelled else exit;
        }
      }
    }

    /** `ValidationService.execute_validation`. */
    method Validate(s: Script, max: nat) returns (exit: Exit, attempt: nat, passed: bool, history: seq<(bool, bool)>)
      requires Working() && !watch.passed && !watch.committed
      modifies this
      ensures Working() && !watch.committed
      ensures stored == old(stored) || stored == Some(InProgress)
      ensures exit.Normal? ==>
                && attempt == LastAttempt(s, 0, max)
                && passed == (attempt > 0 && Passes(s, attempt)) == watch.passed
                && |history| == (if passed then attempt - 1 else attempt)
                && (forall k :: 0 <= k < |history| ==> history[k] == (s.structure(k + 1), s.tech(k + 1)))
                && (attempt > 0 ==> stored == Some(InProgress) && !watch.rolledBack)
                && Retries(EventsOf(trace)) == Retries(EventsOf(old(trace))) + (if attempt > 0 then attempt - 1 else 0)
      ensures Smooth() ==> exit.Normal?
    {
      hide Allowed, Note, Watched, EventsOf, Delivered, Retries;
      attempt, passed, history := 0, false, [];
      while attempt < max
        invariant Working() && !watch.committed && !watch.passed && !passed
        invariant stored == old(stored) || stored == Some(InProgress)
        invariant attempt <= max && LastAttempt(s, attempt, max) == LastAttempt(s, 0, max)
        invariant attempt > 0 ==> !Passes(s, attempt) && stored == Some(InProgress) && !watch.rolledBack
        invariant |history| == attempt
        invariant Retries(EventsOf(trace))
                  == Retries(EventsOf(old(trace)))
                     + (if attempt == 0 then 0 else if attempt < max then attempt else attempt - 1)
        invariant forall k :: 0 <= k < |history| ==> history[k] == (s.structure(k + 1), s.tech(k + 1))
      {
        attempt := attempt + 1;
        :- Examine(s, attempt);
        if Passes(s, attempt) {
          passed := true;
          :- Say(Progress);
          break;
        }
        history := history + [(s.structure(attempt), s.tech(attempt))];
        if attempt < max {
          :- Say(Retry);
          :- Fix(s.fixReplies(attempt));
        }
      }
      exit := Normal;
    }

    /** One attempt: both checks, and their outcome saved. */
    method Examine(s: Script, attempt: nat) returns (exit: Exit)
      requires Working() && !watch.passed && !watch.committed
      modifies this
      ensures Working() && !watch.committed
      ensures stored == old(stored) || stored == Some(InProgress)
      ensures exit.Normal? ==> stored == Some(InProgress) && !watch.rolledBack && watch.passed == Passes(s, attempt)
      ensures exit.Normal? ==> Retries(EventsOf(trace)) == Retries(EventsOf(old(trace)))
      ensures Smooth() ==> exit.Normal?
    {
      hide Watched, EventsOf, Delivered, Retries;
      :- Say(Progress);
      :- Call();
      Log(Check(s.structure(attempt), s.tech(attempt)));
      exit := SaveProgress();
    }

    /** The correction prompt; an error the agent reports is skipped here. */
    method Fix(replies: seq<Reply>) returns (exit: Exit)
      requires Working()
      modifies `trace, `queue, `sinkAt, `ticks, `watch
      ensures Working() && watch == old(watch) && (Smooth() ==> exit.Normal?)
      ensures exit.Normal? ==> Retries(EventsOf(trace)) == Retries(EventsOf(old(trace)))
      ensures exit.Normal? ==> EventsOf(trace) == EventsOf(old(trace)) + Repeated(Forwarded, Pieces(replies))
    {
      hide Watched, EventsOf, Delivered, Retries;
      for i := 0 to |replies|
        invariant Working() && watch == old(watch)
        invariant EventsOf(trace) == EventsOf(old(trace)) + Repeated(Forwarded, Pieces(replies[..i]))
        invariant Retries(EventsOf(trace)) == Retries(EventsOf(old(trace)))
      {
        :- CallOf(AgentReply);
        assert replies[..i + 1][..i] == replies[..i];
        if replies[i].Piece? {
          :- Say(Forwarded);
          assert Repeated(Forwarded, Pieces(replies[..i]) + 1)
                 == Repeated(Forwarded, Pieces(replies[..i])) + [Forwarded];
        }
      }
      assert replies[..|replies|] == replies;
      exit := CallOf(AgentReply);
    }

    /**
     `SyncGitHubRepositoryUseCase.execute`.  `locked`: it went on with the lock, its own or the caller's.  Without
     `skip_lock`, under a lock that is held already, it is always refused.
     */
    method Sync(s: SyncScript, skipLock: bool) returns (exit: Exit, locked: bool)
      requires Valid() && (if skipLock then watch.lock.Held? else !watch.lock.Released?)
      modifies `trace, `ticks, `watch
      ensures Valid() && watch.ended == old(watch).ended && watch.passed == old(watch).passed
      ensures skipLock ==> locked && watch.lock.Held?
      ensures !skipLock && old(watch).lock.Held? ==> !locked && trace == old(trace) && watch == old(watch)
      ensures !locked ==> !exit.Normal? && (trace == old(trace) || trace == old(trace) + [Acquire])
      ensures exit.Normal? ==> s.isPublic && s.linked && s.workspace && watch.committed
      ensures Smooth() && Patient() ==>
                !exit.Cancelled? && (locked && s.isPublic && s.linked && s.workspace ==> exit.Normal?)
      ensures !skipLock && locked && !exit.Cancelled? ==>
                ticks > 0 && if Took(fates(ticks - 1, ReleaseLock)) then
                               watch.lock.Released? && trace[|trace| - 1] == Release
                             else watch.lock.Held?
      ensures Smooth() && locked ==>
                Commits(trace) == Commits(old(trace)) + (if Syncable(s) then 1 else 0)
      ensures !locked ==> Commits(trace) == Commits(old(trace))
    {
      hide Watched, EventsOf, Delivered, Took, Note, Commits;
      locked := skipLock;
      if !skipLock {
        exit := TakeLock();
        if exit.IsFailure() {
          return;
        }
        locked := true;
      }
      exit := SyncBody(s);
      if !skipLock {
        var released := GiveBack();
        exit := if released.Cancelled? then Cancelled else exit;
      }
    }

    /**
     A call of `acquire_lock`.  It is refused while the lock is held; one that fails otherwise can have taken the lock
     all the same.
     */
    method TakeLock() returns (exit: Exit)
      requires Valid() && !watch.lock.Released?
      modifies `trace, `ticks, `watch
      ensures Valid() && ticks == old(ticks) + 1 && (exit.Cancelled? <==> fates(old(ticks), AcquireLock).Cancels?)
      ensures old(watch).lock.Held? ==> !exit.Normal? && trace == old(trace) && watch == old(watch)
      ensures old(watch).lock.Free? ==>
                var fate := fates(old(ticks), AcquireLock);
                && exit == ExitOf(fate) && (exit.Normal? ==> watch.lock.Held?)
                && trace == (if Took(fate) then old(trace) + [Acquire] else old(trace))
                && watch == if Took(fate) then old(watch).(lock := Held) else old(watch)
      ensures Commits(trace) == Commits(old(trace))
    {
      var took;
      exit, took := Await(AcquireLock);
      if watch.lock.Held? {
        exit := if exit.Cancelled? then Cancelled else Raised(false);
      } else if took {
        Log(Acquire);
      }
    }

    /** A call of `release_lock` inside `contextlib.suppress(Exception)`: a failure goes unseen. */
    method GiveBack() returns (exit: Exit)
      requires Valid() && watch.lock.Held?
      modifies `trace, `ticks, `watch
      ensures Valid() && ticks == old(ticks) + 1 && EventsOf(trace) == EventsOf(old(trace))
      ensures var fate := fates(old(ticks), ReleaseLock);
              && exit == Suppressed(ExitOf(fate))
              && trace == (if Took(fate) then old(trace) + [Release] else old(trace))
              && watch == if Took(fate) then old(watch).(lock := Released) else old(watch)
      ensures Commits(trace) == Commits(old(trace))
    {
      var took;
      exit, took := Await(ReleaseLock);
      if took {
        Log(Release);
      }
      exit := Suppressed(exit);
    }

    method SyncBody(s: SyncScript) returns (exit: Exit)
      requires Valid() && watch.lock.Held?
      modifies `trace, `ticks, `watch
      ensures Valid() && watch == old(watch).(committed := watch.committed)
      ensures exit.Normal? ==> s.isPublic && s.linked && s.workspace && watch.committed
      ensures Smooth() ==> !exit.Cancelled? && (s.isPublic && s.linked && s.workspace ==> exit.Normal?)
      ensures Smooth() ==>
                Commits(trace) == Commits(old(trace)) + (if Syncable(s) then 1 else 0)
    {
      if !s.isPublic {
        return Raised(false);
      }
      :- Call();
      if !s.linked {
        return Raised(false);
      }
      :- Calls(3);
      if !s.workspace {
        return Raised(false);
      }
      exit := Push(s);
      if exit.Raised? {
        var recorded := Calls(2);
        exit := if recorded.Normal? then exit else recorded;
      }
    }

    method Push(s: SyncScript) returns (exit: Exit)
      requires Valid() && watch.lock.Held?
      modifies `trace, `ticks, `watch
      ensures Valid() && watch == old(watch).(committed := watch.committed)
      ensures (exit.Normal? ==> watch.committed) && (Smooth() ==> exit.Normal?)
      ensures Smooth() ==> Commits(trace) == Commits(old(trace)) + 1
    {
      exit := Normal;
      :- Calls(s.callsBefore);
      :- Workspace(Commit);
      exit := Calls(s.callsAfter);
    }

    /** `PostDeployService.handle_success`. */
    method Succeed(s: Script) returns (exit: Exit)
      requires Working() && watch.passed && !watch.rolledBack && stored == Some(InProgress)
      modifies this
      ensures Valid() && watch.lock.Held?
      ensures stored == Some(InProgress) || stored == Some(Implemented)
      ensures exit.Normal? ==> stored == Some(Implemented)
      ensures exit.Normal? ==> watch.ended == 1 && trace != [] && trace[|trace| - 1] == Emit(DoneEvent)
      ensures !exit.Normal? ==> watch.ended == 0 || (sink && watch.ended == 1)
      ensures Smooth() && Patient() ==> exit.Normal?
      // Its own commit, and one that is pushed if the project is connected to GitHub.
      ensures Smooth() && Patient() ==>
                Commits(trace)
                == Commits(old(trace)) + (if s.github && s.projectFound && Syncable(s.sync) then 2 else 1)
    {
      hide Watched, EventsOf, Delivered, Commits;
      :- Say(Progress);
      :- Workspace(Commit);
      :- SaveStatus(Implemented);
      :- Publish(s);
      exit := EmitEvent(DoneEvent);
    }

    /** The best-effort steps between saving IMPLEMENTED and the last event: each reports its own failure. */
    method Publish(s: Script) returns (exit: Exit)
      requires Working()
      modifies `trace, `queue, `sinkAt, `ticks, `watch
      ensures Working()
      ensures Smooth() && Patient() ==> exit.Normal?
      ensures Smooth() && Patient() ==>
                Commits(trace)
                == Commits(old(trace)) + (if s.github && s.projectFound && Syncable(s.sync) then 1 else 0)
    {
      if s.github {
        exit := AutoSync(s);
        if exit.Raised? {
          exit := Say(Progress);
        }
        :- exit;
      }
      if s.deploys {
        exit := AutoDeploy(s);
        if exit.Raised? {
          exit := Say(Progress);
        }
        :- exit;
      }
      exit := Call();
      if exit.Raised? {
        exit := Say(Progress);
      }
      :- exit;
      exit := QuietCall(Other);
    }

    method AutoSync(s: Script) returns (exit: Exit)
      requires Working()
      modifies `trace, `queue, `sinkAt, `ticks, `watch
      ensures Working() && (Smooth() && Patient() ==> !exit.Cancelled?)
      ensures Smooth() ==>
                Commits(trace)
                == Commits(old(trace)) + (if s.projectFound && Syncable(s.sync) then 1 else 0)
    {
      exit := Normal;
      :- Call();
      if s.projectFound {
        :- Say(Progress);
        var _ :- Sync(s.sync, true);
        :- Say(Progress);
      }
      return Normal;
    }

    /**
     The redeployment.  As it is wired, it syncs with GitHub first, without `skip_lock`: under the lock of the run
     that sync is refused, so the redeployment can only end in its warning.
     */
    method AutoDeploy(s: Script) returns (exit: Exit)
      requires Working()
      modifies `trace, `queue, `sinkAt, `ticks, `watch
      ensures Working() && (Smooth() && Patient() ==> !exit.Cancelled?)
      ensures s.projectFound && s.deployedBefore && s.deploySyncs ==> !exit.Normal?
      ensures Commits(trace) == Commits(old(trace))
    {
      exit := Normal;
      :- Call();
      if s.projectFound {
        :- Call();
        if s.deployedBefore {
          :- Say(Progress);
          :- Calls(2);
          if s.deploySyncs {
            var _ :- Sync(s.sync, false);
          }
          :- Call();
          :- Say(Progress);
        }
      }
      return Normal;
    }

    /** `PostDeployService.handle_failure`. */
    method GiveUp() returns (exit: Exit)
      requires Working() && !watch.passed && !watch.committed && stored == Some(InProgress)
      modifies this
      ensures Valid() && watch.lock.Held?
      ensures stored == Some(InProgress) || stored == Some(RequiresReview)
      ensures exit.Normal? ==> stored == Some(RequiresReview)
      ensures exit.Normal? ==> watch.ended == 1 && trace != [] && trace[|trace| - 1] == Emit(FatalError)
      ensures !exit.Normal? ==> watch.ended == 0 || (sink && watch.ended == 1)
      ensures Smooth() ==> exit.Normal?
    {
      hide Watched, EventsOf, Delivered, Commits;
      :- Workspace(Rollback);
      :- SaveStatus(RequiresReview);
      exit := EmitEvent(FatalError);
    }

    /** The exception handler of `_run_pipeline`, up to its `raise`. */
    method Handle() returns (exit: Exit)
      requires Valid() && watch.lock.Held?
      modifies this
      ensures Valid() && watch.lock.Held? && !exit.Raised? && stored in {old(stored), Some(Failed)}
      ensures exit.Normal? ==>
                stored == Repaired(old(stored), fates(old(ticks) + 1, ReadRecord), fates(old(ticks) + 2, SaveRecord))
      ensures Took(fates(old(ticks), ChangeWorkspace)) ==> watch.rolledBack
      ensures Smooth() && Patient() ==> exit.Normal?
      ensures exit.Normal? ==>
                watch.ended == old(watch).ended + 1 && trace != [] && trace[|trace| - 1] == Emit(FatalError)
    {
      hide Watched, EventsOf, Delivered, Commits;
      exit := Workspace(Rollback);
      :- Suppressed(exit);
      :- MarkFailed();
      exit := EmitEvent(FatalError);
      exit := Suppressed(exit);
    }

    method MarkFailed() returns (exit: Exit)
      requires Valid() && watch.lock.Held?
      modifies `stored, `trace, `ticks, `watch
      ensures Valid() && watch == old(watch) && !exit.Raised? && stored in {old(stored), Some(Failed)}
      ensures exit.Normal? ==>
                stored == Repaired(old(stored), fates(old(ticks), ReadRecord), fates(old(ticks) + 1, SaveRecord))
      ensures Smooth() && Patient() ==> exit.Normal?
    {
      hide Watched, EventsOf, Delivered, Commits;
      exit := CallOf(ReadRecord);
      if exit.Normal? && stored == Some(InProgress) {
        exit := SaveStatus(Failed);
      }
      exit := Suppressed(exit);
    }

    /**
     The `finally` block.  The lock is given back exactly if the release, the last call, takes effect; a
     cancellation on the way keeps it from being made.
     */
    method CleanUp(session: bool, job: bool) returns (exit: Exit)
      requires Valid() && watch.lock.Held?
      modifies `trace, `ticks, `watch
      ensures Valid() && !exit.Raised? && EventsOf(trace) == EventsOf(old(trace))
      ensures watch == old(watch).(lock := watch.lock) && !watch.lock.Free?
      ensures exit.Normal? ==>
                ticks > 0 && if Took(fates(ticks - 1, ReleaseLock)) then
                               watch.lock.Released? && trace == old(trace) + [Release]
                             else watch.lock.Held? && trace == old(trace)
      ensures Patient() ==> exit.Normal?
      ensures session && (forall n :: fates(n, Closing).Cancels?) ==> exit.Cancelled? && watch.lock.Held?
    {
      hide Watched, EventsOf, Delivered, Took, Note, Commits;
      if session {
        :- QuietCall(Closing);
      }
      if job {
        :- QuietCall(Closing);
      }
      exit := GiveBack();
    }

    /** The `try` block up to the session: workspace, record, job and session. */
    method Prepare(s: Script) returns (exit: Exit, saved: bool, session: bool, job: bool)
      requires Working() && !watch.committed
      modifies this
      ensures Working() && watch == old(watch)
      ensures saved ==> stored == Some(InProgress)
      ensures stored in {old(stored), Some(InProgress)}
      ensures exit.Normal? ==>
                saved && session && EventsOf(trace) == EventsOf(old(trace)) + [Progress] + [Progress] + [SessionCreated]
      ensures Smooth() ==> exit.Normal?
    {
      hide Watched, EventsOf, Delivered, Allowed, Note;
      saved, session, job := false, false, false;
      :- Say(Progress);
      :- Calls(2);
      :- SaveProgress();
      saved := true;
      if s.hasJobs {
        :- Call();
        job := true;
      }
      :- Say(Progress);
      :- Call();
      session := true;
      :- SaveProgress();
      exit := Say(SessionCreated);
    }

    /** The `try` block of `_run_pipeline`.  `saved`: the record was saved; `session`, `job`: what to close. */
    method Body(s: Script, max: nat) returns (exit: Exit, success: bool, saved: bool, session: bool, job: bool)
      requires Working() && !watch.passed && !watch.committed
      modifies this
      ensures Valid() && watch.lock.Held?
      ensures saved ==> stored in {Some(InProgress), Some(Implemented), Some(RequiresReview)}
      ensures exit.Normal? ==> saved && stored == Some(if success then Implemented else RequiresReview)
      ensures exit.Normal? ==> success == exists k :: 1 <= k <= max && Passes(s, k)
      ensures success ==> exit.Normal?
      ensures exit.Normal? ==>
                && watch.ended == 1 && trace != []
                && trace[|trace| - 1] == Emit(if success then DoneEvent else FatalError)
      ensures !exit.Normal? ==> watch.ended == 0 || (sink && watch.ended == 1)
      ensures exit.Normal? ==> Buildable(s)
      ensures !Buildable(s) ==> stored in {old(stored), Some(InProgress)}
      ensures Smooth() ==> saved && session && (!Buildable(s) ==> exit.Raised? && stored == Some(InProgress))
      ensures Smooth() && Patient() && Buildable(s) ==> exit.Normal?
    {
      hide Watched, EventsOf, Delivered, Passes, Allowed, Note;
      success := false;
      exit, saved, session, job := Prepare(s);
      if exit.IsFailure() {
        return;
      }
      :- Plan(s);
      :- Build(s);
      var attempt, passed, history :- Validate(s, max);
      if passed {
        exit := Succeed(s);
        success := exit.Normal?;
      } else {
        exit := GiveUp();
      }
    }

    /**
     `_run_pipeline` from the moment it has the lock.  `saved` says that the record was saved; `found` and
     `handlerAt` tell what was stored, and how many calls had been made, when the exception handler began.
     */
    method Locked(s: Script, max: nat)
      returns (exit: Exit, success: bool, saved: bool, found: Option<Status>, handlerAt: nat)
      requires Working() && !watch.passed && !watch.committed
      modifies this
      ensures Valid() && trace != []
      ensures exit.Normal? ==> saved && stored == Some(if success then Implemented else RequiresReview)
      ensures exit.Normal? ==> success == exists k :: 1 <= k <= max && Passes(s, k)
      ensures exit.Raised? ==>
                && !success
                && stored == Repaired(found, fates(handlerAt + 1, ReadRecord), fates(handlerAt + 2, SaveRecord))
      ensures exit.Raised? && saved ==> found in {Some(InProgress), Some(Implemented), Some(RequiresReview)}
      ensures !exit.Cancelled? ==>
                ticks > 0 && if Took(fates(ticks - 1, ReleaseLock)) then
                               watch.lock.Released? && trace[|trace| - 1] == Release
                             else watch.lock.Held?
      ensures !exit.Cancelled? ==>
                && EventsOf(trace) != []
                && EventsOf(trace)[|EventsOf(trace)| - 1] == (if success then DoneEvent else FatalError)
                && (watch.ended == 1 || (sink && exit.Raised? && watch.ended == 2))
      // Runs that get through, and how one ends in the handler or in the clean-up.
      ensures !Buildable(s) ==> !exit.Normal? && !success && found in {old(stored), Some(InProgress)}
      ensures !Buildable(s) ==> stored in {found, Some(Failed)}
      ensures Smooth() && Patient() && Buildable(s) ==> exit.Normal?
      ensures Smooth() && Patient() && !Buildable(s) ==> exit.Raised? && saved && found == Some(InProgress)
      ensures Smooth() && (forall n :: fates(n, Closing).Cancels?) ==> exit.Cancelled? && watch.lock.Held?
      ensures exit.Raised? && Took(fates(handlerAt, ChangeWorkspace)) ==> watch.rolledBack
    {
      hide Watched, EventsOf, Delivered, Passes, Allowed, Note, Repaired;
      var session, job;
      exit, success, saved, session, job := Body(s, max);
      found, handlerAt := stored, ticks;
      if exit.Raised? {
        var handled := Handle();
        exit := if handled.Cancelled? then Cancelled else exit;
      }
      LastEvent(trace);
      var closed := CleanUp(session, job);
      LockedTrace(trace);
      exit := if closed.Cancelled? then Cancelled else exit;
    }

    /** `_run_pipeline`.  `locked`: the lock was acquired. */
    method Generate(s: Script, max: nat)
      returns (exit: Exit, success: bool, locked: bool, saved: bool, found: Option<Status>, handlerAt: nat)
      requires Valid() && trace == []
      modifies this
      ensures Valid() && (locked ==> trace != [])
      // Without the lock nothing happens, except that a failed acquire may have taken it for nobody.
      ensures !locked ==> !exit.Normal? && !success && !saved && stored == old(stored) && queue == old(queue)
      ensures !locked ==> trace == [] || trace == [Acquire]
      ensures locked ==> Available(s)
      ensures Smooth() && !Available(s) ==> exit == Raised(false) && trace == []
      // The record.
      ensures exit.Normal? ==> locked && saved && stored == Some(if success then Implemented else RequiresReview)
      ensures exit.Normal? ==> success == exists k :: 1 <= k <= max && Passes(s, k)
      ensures exit.Raised? && locked ==>
                && !success
                && stored == Repaired(found, fates(handlerAt + 1, ReadRecord), fates(handlerAt + 2, SaveRecord))
      ensures exit.Raised? && saved ==>
                locked && found in {Some(InProgress), Some(Implemented), Some(RequiresReview)}
      // The lock: given back exactly if the release, the last call of all, takes effect.
      ensures !exit.Cancelled? && locked ==>
                ticks > 0 && if Took(fates(ticks - 1, ReleaseLock)) then
                               watch.lock.Released? && trace[|trace| - 1] == Release
                             else watch.lock.Held?
      // The events.
      ensures !exit.Cancelled? && locked ==>
                && EventsOf(trace) != []
                && EventsOf(trace)[|EventsOf(trace)| - 1] == (if success then DoneEvent else FatalError)
                && (watch.ended == 1 || (sink && exit.Raised? && watch.ended == 2))
      // Runs that get through, and how one ends in the handler or in the clean-up.
      ensures locked && !Buildable(s) ==>
                !exit.Normal? && !success && found in {old(stored), Some(InProgress)} && stored in {found, Some(Failed)}
      ensures locked && Smooth() && Patient() && Buildable(s) ==> exit.Normal?
      ensures locked && Smooth() && Patient() && !Buildable(s) ==> exit.Raised? && saved && found == Some(InProgress)
      ensures locked && Smooth() && (forall n :: fates(n, Closing).Cancels?) ==> exit.Cancelled? && watch.lock.Held?
      ensures locked && exit.Raised? && Took(fates(handlerAt, ChangeWorkspace)) ==> watch.rolledBack
      ensures Smooth() && Available(s) ==>
                var fate := fates(old(ticks) + 5, AcquireLock);
                && locked == fate.Fine?
                && (!locked ==> exit == ExitOf(fate) && trace == if Took(fate) then [Acquire] else [])
    {
      hide Watched, EventsOf, Delivered, Delivered, Passes, Allowed, Note, Repaired;
      exit, success, locked, saved, found, handlerAt := Normal, false, false, false, stored, 0;
      :- Calls(3);
      if !s.feature || !s.requirements || !s.diagram {
        exit := Raised(false);
        return;
      }
      :- Calls(2);
      if !s.healthy {
        exit := Raised(false);
        return;
      }
      :- Begin();
      locked := true;
      exit, success, saved, found, handlerAt := Locked(s, max);
    }

    method Begin() returns (exit: Exit)
      requires Valid() && trace == []
      modifies `trace, `ticks, `watch
      ensures Valid() && (trace == [] || trace == [Acquire])
      ensures exit.Normal? ==> Working() && !watch.passed && !watch.committed
      ensures var fate := fates(old(ticks), AcquireLock);
              exit == ExitOf(fate) && trace == if Took(fate) then [Acquire] else []
    {
      exit := TakeLock();
    }
  }

  lemma LastEvent(trace: seq<Action>)
    ensures trace != [] && trace[|trace| - 1].Emit? ==>
              EventsOf(trace) != [] && EventsOf(trace)[|EventsOf(trace)| - 1] == trace[|trace| - 1].event
  {
  }

  lemma LockedTrace(trace: seq<Action>)
    ensures !Watched(trace).lock.Free? ==> trace != []
  {
  }

  // ----- What an allowed trace says -----

  lemma {:induction false} PrefixAllowed(trace: seq<Action>, k: nat)
    requires Watched(trace).ok && k < |trace|
    ensures Watched(trace[..k]).ok && Allowed(Watched(trace[..k]), trace[k])
  {
    hide Allowed;
    var n := |trace| - 1;
    if k < n {
      assert trace[..n][..k] == trace[..k];
      PrefixAllowed(trace[..n], k);
    }
  }

  /** The position of the last check, or -1. */
  function LastCheck(trace: seq<Action>): (i: int)
    ensures -1 <= i < |trace| && (i >= 0 ==> trace[i].Check?)
    ensures forall m :: i < m < |trace| ==> !trace[m].Check?
  {
    if trace == [] then -1
    else if trace[|trace| - 1].Check? then |trace| - 1
    else LastCheck(trace[..|trace| - 1])
  }

  ghost predicate Since(trace: seq<Action>, i: int, a: Action)
    requires -1 <= i
  {
    exists j :: i < j < |trace| && trace[j] == a
  }

  lemma SinceMore(trace: seq<Action>, i: int, a: Action)
    requires trace != [] && -1 <= i < |trace|
    ensures Since(trace, i, a)
            <==> (i < |trace| - 1 && trace[|trace| - 1] == a) || Since(trace[..|trace| - 1], i, a)
  {
    var before := trace[..|trace| - 1];
    if Since(trace, i, a) {
      var j :| i < j < |trace| && trace[j] == a;
      if j < |trace| - 1 {
        assert before[j] == a;
      }
    }
    if Since(before, i, a) {
      var j :| i < j < |before| && before[j] == a;
      assert trace[j] == a;
    }
  }

  /** What the watch remembers is what the trace holds since its last check. */
  lemma {:induction false} WatchMeans(trace: seq<Action>)
    ensures var w, i := Watched(trace), LastCheck(trace);
            && (w.passed <==> i >= 0 && trace[i] == Check(true, true))
            && (w.committed <==> Since(trace, i, Commit))
            && (w.rolledBack <==> Since(trace, i, Rollback))
  {
    hide Allowed, Note, Since, Watched, LastCheck;
    if trace == [] {
      NothingYet();
    } else {
      var before := trace[..|trace| - 1];
      WatchMeans(before);
      WatchStep(trace);
      LastCheckStep(trace);
      NothingSinceLast(trace, Commit);
      NothingSinceLast(trace, Rollback);
      SinceMore(trace, LastCheck(trace), Commit);
      SinceMore(trace, LastCheck(trace), Rollback);
    }
  }

  lemma NothingYet()
    ensures LastCheck([]) == -1 && Watched([]) == Watch(Free, false, false, false, 0, true)
    ensures !Since([], -1, Commit) && !Since([], -1, Rollback)
  {
  }

  lemma WatchStep(trace: seq<Action>)
    requires trace != []
    ensures var a := trace[|trace| - 1];
            var w, w' := Watched(trace[..|trace| - 1]), Watched(trace);
            if a.Check? then !w'.committed && !w'.rolledBack && (w'.passed <==> a == Check(true, true))
            else
              && w'.passed == w.passed
              && w'.committed == (w.committed || a == Commit) && w'.rolledBack == (w.rolledBack || a == Rollback)
  {
    var a := trace[|trace| - 1];
    assert Watched(trace) == Note(Watched(trace[..|trace| - 1]), a);
    hide Allowed, Watched;
  }

  lemma LastCheckStep(trace: seq<Action>)
    requires trace != []
    ensures var n := |trace| - 1;
            var i := LastCheck(trace[..n]);
            if trace[n].Check? then LastCheck(trace) == n
            else LastCheck(trace) == i && (i >= 0 ==> trace[i] == trace[..n][i])
  {
  }

  lemma NothingSinceLast(trace: seq<Action>, a: Action)
    requires trace != []
    ensures !Since(trace, |trace| - 1, a)
  {
  }

  lemma {:induction false} PassingIsLast(trace: seq<Action>, i: nat)
    requires Watched(trace).ok && i < |trace| && trace[i] == Check(true, true)
    ensures LastCheck(trace) == i
  {
    var before := trace[..|trace| - 1];
    if i < |before| {
      assert before[i] == trace[i];
      PassingIsLast(before, i);
      WatchMeans(before);
    }
  }

  /** IMPLEMENTED is stored only after a check that passed, a commit, and no rollback or other check in between. */
  lemma ImplementedIsEarned(trace: seq<Action>, k: nat)
    requires Watched(trace).ok && k < |trace| && trace[k] == Store(Implemented)
    ensures exists i, j :: 0 <= i < j < k && trace[i] == Check(true, true) && trace[j] == Commit
                           && forall m :: i < m < k ==> !trace[m].Check? && !trace[m].Rollback?
  {
    hide Watched;
    var before := trace[..k];
    PrefixAllowed(trace, k);
    WatchMeans(before);
    var i := LastCheck(before);
    var j :| i < j < |before| && before[j] == Commit;
    assert trace[i] == before[i] && trace[j] == before[j];
    assert forall m :: i < m < k ==> trace[m] == before[m];
  }

  /** REQUIRES_REVIEW is stored only after a rollback that follows the last check, and when no check has passed. */
  lemma ReviewIsRolledBack(trace: seq<Action>, k: nat)
    requires Watched(trace).ok && k < |trace| && trace[k] == Store(RequiresReview)
    ensures exists j :: 0 <= j < k && trace[j] == Rollback && forall m :: j < m < k ==> !trace[m].Check?
    ensures forall i :: 0 <= i < k ==> trace[i] != Check(true, true)
  {
    hide Watched;
    var before := trace[..k];
    PrefixAllowed(trace, k);
    WatchMeans(before);
    var j :| LastCheck(before) < j < |before| && before[j] == Rollback;
    assert trace[j] == before[j];
    assert forall m :: 0 <= m < k ==> trace[m] == before[m];
    forall i | 0 <= i < k ensures trace[i] != Check(true, true) {
      if before[i] == Check(true, true) {
        PassingIsLast(before, i);
      }
    }
  }

  /** The lock is taken once, first, and released at most once, last; nothing in between touches it. */
  lemma LockBrackets(trace: seq<Action>, k: nat)
    requires Watched(trace).ok && k < |trace|
    ensures trace[k] == Acquire <==> k == 0
    ensures trace[k] == Release ==> k == |trace| - 1
  {
    hide Watched;
    PrefixAllowed(trace, 0);
    PrefixAllowed(trace, k);
    LockPhases(trace[..k]);
    assert trace[..0] == [];
    LockPhases([]);
    if trace[k] == Release && k < |trace| - 1 {
      PrefixAllowed(trace, k + 1);
      assert trace[..k + 1][|trace[..k + 1]| - 1] == Release;
      LockPhases(trace[..k + 1]);
    }
  }

  lemma {:induction false} LockPhases(trace: seq<Action>)
    requires Watched(trace).ok
    ensures trace == [] <==> Watched(trace).lock.Free?
    ensures trace != [] && trace[|trace| - 1] == Release ==> Watched(trace).lock.Released?
  {
    if trace != [] {
      var before, a := trace[..|trace| - 1], trace[|trace| - 1];
      assert Watched(trace) == Note(Watched(before), a) && Watched(before).ok;
      LockPhases(before);
      NoteLock(Watched(before), a);
      hide Watched, Note, Allowed;
    }
  }

  lemma NoteLock(w: Watch, a: Action)
    requires Note(w, a).ok
    ensures !Note(w, a).lock.Free? && (a == Release ==> Note(w, a).lock.Released?)
  {
  }

  function Count(events: seq<Event>): nat {
    if events == [] then 0
    else Count(events[..|events| - 1]) + (if Terminal(events[|events| - 1]) then 1 else 0)
  }

  /** `ended` counts the terminal events. */
  lemma {:induction false} EndedCounts(trace: seq<Action>)
    ensures Watched(trace).ended == Count(EventsOf(trace))
  {
    if trace != [] {
      var before, a := trace[..|trace| - 1], trace[|trace| - 1];
      EndedCounts(before);
      WatchedMore(before, a);
      assert trace == before + [a];
      NoteEnded(Watched(before), a);
      hide Watched, EventsOf, Allowed, Note;
      if a.Emit? {
        CountMore(EventsOf(before), a.event);
      }
    }
  }

  lemma NoteEnded(w: Watch, a: Action)
    ensures Note(w, a).ended == w.ended + (if a.Emit? && Terminal(a.event) then 1 else 0)
  {
    hide Allowed;
  }

  lemma CountMore(events: seq<Event>, e: Event)
    ensures Count(events + [e]) == Count(events) + (if Terminal(e) then 1 else 0)
  {
    assert (events + [e])[..|events|] == events;
  }

  /** Only a fatal error can follow a terminal event. */
  lemma {:induction false} OnlyFatalAfterTerminal(trace: seq<Action>)
    requires Watched(trace).ok
    ensures forall i, j :: 0 <= i < j < |EventsOf(trace)| && Terminal(EventsOf(trace)[i]) ==>
              EventsOf(trace)[j] == FatalError
  {
    if trace != [] {
      var before := trace[..|trace| - 1];
      var a := trace[|trace| - 1];
      assert Watched(before).ok && Allowed(Watched(before), a);
      OnlyFatalAfterTerminal(before);
      EndedCounts(before);
      hide Watched, Note;
      if a.Emit? && a.event != FatalError {
        NoneTerminal(EventsOf(before));
      }
    }
  }

  lemma {:induction false} NoneTerminal(events: seq<Event>)
    requires Count(events) == 0
    ensures forall i :: 0 <= i < |events| ==> !Terminal(events[i])
  {
    if events != [] {
      NoneTerminal(events[..|events| - 1]);
    }
  }

  // ----- The stream a client reads -----

  datatype Slot = Item(event: Event) | Failure | End

  /** What `_run` puts into the queue; a cancellation is not an `Exception`, so it only ends the stream. */
  function Slots(events: seq<Event>, exit: Exit): seq<Slot> {
    seq(|events|, i requires 0 <= i < |events| => Item(events[i])) + (if exit.Raised? then [Failure] else []) + [End]
  }

  /** The reading loop of `execute_stream`. */
  method Drain(slots: seq<Slot>, events: seq<Event>, exit: Exit) returns (yielded: seq<Event>, raised: bool)
    requires slots == Slots(events, exit)
    ensures yielded == events && raised == exit.Raised?
  {
    yielded, raised := [], false;
    var n := 0;
    while true
      invariant n <= |events| && yielded == events[..n] && !raised
      decreases |events| - n
    {
      match slots[n]
      case End => break;
      case Failure => raised := true; break;
      case Item(event) => yielded := yielded + [event];
      n := n + 1;
    }
  }

  /**
   `execute_stream`: the client reads the events that reached the collector, each once and in order, and the stream
   fails exactly when the run raised.  Without an event sink these are all the events of the run, one of them
   terminal, and it comes last.
   */
  method ExecuteStream(g: Generation, s: Script, max: nat)
    returns (yielded: seq<Event>, raised: bool, exit: Exit, success: bool, locked: bool)
    requires g.Valid() && g.trace == []
    modifies g
    ensures g.Valid() && raised == exit.Raised?
    ensures yielded == Delivered(EventsOf(g.trace), g.sinkAt, g.fates, g.sink)
    ensures !g.sink ==> yielded == EventsOf(g.trace)
    ensures !g.sink && !exit.Cancelled? && locked ==>
              && Count(yielded) == 1 && yielded != []
              && yielded[|yielded| - 1] == (if success then DoneEvent else FatalError)
    ensures success && !exit.Cancelled? ==> exit.Normal? && g.stored == Some(Implemented)
  {
    var saved, found, at;
    exit, success, locked, saved, found, at := g.Generate(s, max);
    EndedCounts(g.trace);
    if !g.sink {
      AllDelivered(EventsOf(g.trace), g.sinkAt, g.fates);
    }
    yielded, raised := Drain(Slots(g.queue, exit), g.queue, exit);
  }

  // ----- Runs that leave something behind -----

  /** A script without obstacles and without publication, whose plan and whose checks are as told. */
  function Simple(planValid: bool, passes: bool): Script {
    Script(true, true, true, true, false, [], planValid, [], true, k => passes, k => passes, k => [], false, false,
           SyncScript(false, false, false, 0, 0), false, false, false)
  }

  /** Every call is fine except those of one port. */
  function Only(port: Port, fate: Fate): Fates {
    (n, p) => if p == port then fate else Fine
  }

  /** The agent reports an error while planning and no call fails: the run ends FAILED, whatever the checks say. */
  method AgentErrorFails() returns (g: Generation, raised: bool)
    ensures raised && g.stored == Some(Failed) && g.watch.lock.Released? && g.watch.rolledBack
    ensures forall n, port :: g.fates(n, port) == Fine
  {
    g := new Generation(Some(Pending), (n, port) => Fine, false);
    var s := Simple(true, true).(planReplies := [Wrong]);
    var exit, success, locked, saved, found, at := g.Generate(s, 1);
    raised := exit.Raised?;
    assert s.planReplies[0].Wrong?;
  }

  /** The plan is rejected and the handler cannot read the record: the run is over and still IN_PROGRESS. */
  method FailedRunStaysInProgress() returns (g: Generation, raised: bool)
    ensures raised && g.stored == Some(InProgress) && g.watch.lock.Released?
    ensures forall n, port :: port != ReadRecord ==> g.fates(n, port) == Fine
  {
    g := new Generation(Some(Pending), Only(ReadRecord, Fails(false, false)), false);
    var s := Simple(false, true);
    var exit, success, locked, saved, found, at := g.Generate(s, 1);
    raised := exit.Raised?;
  }

  /** The run succeeds, its release fails and the failure is suppressed: the project stays locked. */
  method LockKeptAfterSuccess() returns (g: Generation, normal: bool)
    ensures normal && g.stored == Some(Implemented) && g.watch.lock.Held?
    ensures forall n, port :: port != ReleaseLock ==> g.fates(n, port) == Fine
  {
    g := new Generation(Some(Pending), Only(ReleaseLock, Fails(false, false)), false);
    var s := Simple(true, true);
    var exit, success, locked, saved, found, at := g.Generate(s, 1);
    normal := exit.Normal?;
    assert Passes(s, 1);
  }

  /** The lock is taken by a call that fails all the same: the run raises, and the project stays locked for nobody. */
  method StrayAcquire() returns (g: Generation, raised: bool)
    ensures raised && g.trace == [Acquire] && g.watch.lock.Held?
    ensures forall n, port :: port != AcquireLock ==> g.fates(n, port) == Fine
  {
    g := new Generation(Some(Pending), Only(AcquireLock, Fails(true, false)), false);
    var s := Simple(true, true);
    var exit, success, locked, saved, found, at := g.Generate(s, 1);
    WatchedMore([], Acquire);
    assert [] + [Acquire] == [Acquire];
    raised := exit.Raised?;
  }

  /** The closing of the session is cancelled after a success: the release is never asked for. */
  method CancelledClosingKeepsLock() returns (g: Generation, cancelled: bool)
    ensures cancelled && g.watch.lock.Held?
    ensures forall n, port :: port != Closing ==> g.fates(n, port) == Fine
  {
    g := new Generation(Some(Pending), Only(Closing, Cancels(true)), false);
    var s := Simple(true, true);
    var exit, success, locked, saved, found, at := g.Generate(s, 1);
    cancelled := exit.Cancelled?;
  }
}
