/**
 The API client of the browser: a call that is answered 401 refreshes the session once, while other calls
 that are answered 401 meanwhile wait in a queue.

 A step is what the program does between two awaits.  Calls are numbered in the order they were made.
 */
module ApiClient {
  import opened Wrappers

  type Token = nat

  datatype Outcome = Resolved(token: Token) | RejectedBy(error: nat)

  datatype Call =
    | Fetching(eligible: bool)     // eligible: refresh token present, authentication on, not an auth URL
    | Waiting
    | Settled(outcome: Outcome)    // a waiter that goes on with the outcome
    | Refreshing                   // the refresh request is under way
    | ReadingBody(ok: bool)
    | Retrying(token: Token)       // waiters were told; the owner's own retry is under way
    | Ended

  /** One settlement of a waiter: who, by which owner, and how. */
  datatype Settlement = Settlement(waiter: nat, owner: nat, outcome: Outcome)

  datatype State = State(
    refreshing: bool,
    queue: seq<nat>,
    calls: seq<Call>,
    log: seq<Settlement>)

  datatype Answer = NetworkFailure(error: nat) | Unauthorized | Other

  datatype Action =
    | Begin(eligible: bool)
    | FetchAnswer(p: nat, answer: Answer)
    | RefreshAnswer(p: nat, failure: Option<nat>, ok: bool)
    | BodyAnswer(p: nat, failure: Option<nat>, token: Token)
    | RetryAnswer(p: nat, failure: Option<nat>)
    | WaiterEnds(p: nat)

  // ----- The queue -----

  function Settlements(queue: seq<nat>, owner: nat, outcome: Outcome): seq<Settlement> {
    if queue == [] then [] else [Settlement(queue[0], owner, outcome)] + Settlements(queue[1..], owner, outcome)
  }

  function SettleAll(calls: seq<Call>, queue: seq<nat>, outcome: Outcome): seq<Call> {
    seq(|calls|, i requires 0 <= i < |calls| => if i in queue then Settled(outcome) else calls[i])
  }

  /** The two module variables, and the promises of the waiters. */
  class RefreshQueue {
    var isRefreshing: bool
    var failedQueue: seq<nat>
    var settled: seq<Settlement>

    constructor ()
      ensures !isRefreshing && failedQueue == [] && settled == []
    {
      isRefreshing, failedQueue, settled := false, [], [];
    }

    method ProcessQueue(owner: nat, error: Option<nat>, token: Token)
      modifies this
      ensures failedQueue == [] && isRefreshing == old(isRefreshing)
      ensures settled == old(settled) + Settlements(old(failedQueue), owner,
                                                    if error.Some? then RejectedBy(error.value) else Resolved(token))
    {
      ghost var outcome := if error.Some? then RejectedBy(error.value) else Resolved(token);
      var i := 0;
      while i < |failedQueue|
        invariant 0 <= i <= |failedQueue|
        invariant failedQueue == old(failedQueue) && isRefreshing == old(isRefreshing)
        invariant settled + Settlements(failedQueue[i..], owner, outcome)
                  == old(settled) + Settlements(failedQueue, owner, outcome)
      {
        assert failedQueue[i..][0] == failedQueue[i] && failedQueue[i..][1..] == failedQueue[i + 1..];
        if error.Some? {
          settled := settled + [Settlement(failedQueue[i], owner, RejectedBy(error.value))];
        } else {
          settled := settled + [Settlement(failedQueue[i], owner, Resolved(token))];
        }
        i := i + 1;
      }
      failedQueue := [];
    }
  }

  // ----- The protocol -----

  predicate Enabled(s: State, a: Action) {
    match a
    case Begin(_) => true
    case FetchAnswer(p, _) => p < |s.calls| && s.calls[p].Fetching?
    case RefreshAnswer(p, _, _) => p < |s.calls| && s.calls[p].Refreshing?
    case BodyAnswer(p, _, _) => p < |s.calls| && s.calls[p].ReadingBody?
    case RetryAnswer(p, _) => p < |s.calls| && s.calls[p].Retrying?
    case WaiterEnds(p) => p < |s.calls| && s.calls[p].Settled?
  }

  function ProcessQueue(s: State, p: nat, outcome: Outcome): State {
    s.(queue := [], calls := SettleAll(s.calls, s.queue, outcome), log := s.log + Settlements(s.queue, p, outcome))
  }

  /** The `catch` and `finally` of the owner: everybody in the queue is rejected and the flag is cleared. */
  function Fail(s: State, p: nat, error: nat): State
    requires p < |s.calls|
  {
    var s' := ProcessQueue(s, p, RejectedBy(error));
    s'.(refreshing := false, calls := s'.calls[p := Ended])
  }

  function Apply(s: State, a: Action): State
    requires Enabled(s, a)
  {
    match a
    case Begin(eligible) => s.(calls := s.calls + [Fetching(eligible)])
    case FetchAnswer(p, answer) =>
      if !answer.Unauthorized? || !s.calls[p].eligible then s.(calls := s.calls[p := Ended])
      else if s.refreshing then s.(calls := s.calls[p := Waiting], queue := s.queue + [p])
      else s.(calls := s.calls[p := Refreshing], refreshing := true)
    case RefreshAnswer(p, failure, ok) =>
      if failure.Some? then Fail(s, p, failure.value) else s.(calls := s.calls[p := ReadingBody(ok)])
    case BodyAnswer(p, failure, token) =>
      // A refused refresh is thrown whatever its body says.
      if !s.calls[p].ok then Fail(s, p, if failure.Some? then failure.value else 0)
      else if failure.Some? then Fail(s, p, failure.value)
      else
        var s' := ProcessQueue(s, p, Resolved(token));
        s'.(calls := s'.calls[p := Retrying(token)])
    case RetryAnswer(p, failure) =>
      if failure.Some? then Fail(s, p, failure.value)
      else s.(calls := s.calls[p := Ended], refreshing := false)
    case WaiterEnds(p) => s.(calls := s.calls[p := Ended])
  }

  ghost predicate Possible(s: State, run: seq<Action>)
    decreases |run|
  {
    run == [] || (Enabled(s, run[0]) && Possible(Apply(s, run[0]), run[1..]))
  }

  function After(s: State, run: seq<Action>): State
    requires Possible(s, run)
    decreases |run|
  {
    if run == [] then s else After(Apply(s, run[0]), run[1..])
  }

  const START := State(false, [], [], [])

  // ----- What every step keeps -----

  predicate Owner(c: Call) {
    c.Refreshing? || c.ReadingBody? || c.Retrying?
  }

  ghost predicate OneOwner(s: State) {
    && (forall p, q :: 0 <= p < |s.calls| && 0 <= q < |s.calls| && Owner(s.calls[p]) && Owner(s.calls[q]) ==> p == q)
    && (s.refreshing <==> exists p :: 0 <= p < |s.calls| && Owner(s.calls[p]))
  }

  ghost predicate Distinct(xs: seq<nat>) {
    forall i, j :: 0 <= i < j < |xs| ==> xs[i] != xs[j]
  }

  /** The waiters are exactly the queued calls, and nobody in the log waits or is there twice. */
  ghost predicate QueueFits(s: State) {
    && Distinct(s.queue)
    && (forall w :: w in s.queue <==> 0 <= w < |s.calls| && s.calls[w].Waiting?)
    && (forall i :: 0 <= i < |s.log| ==>
          s.log[i].waiter < |s.calls| && (s.calls[s.log[i].waiter].Settled? || s.calls[s.log[i].waiter].Ended?))
    && (forall i, j :: 0 <= i < j < |s.log| ==> s.log[i].waiter != s.log[j].waiter)
  }

  ghost predicate Sound(s: State) {
    OneOwner(s) && QueueFits(s)
  }

  lemma {:induction false} SettlementsAt(queue: seq<nat>, owner: nat, outcome: Outcome)
    ensures |Settlements(queue, owner, outcome)| == |queue|
    ensures forall i :: 0 <= i < |queue| ==>
              Settlements(queue, owner, outcome)[i] == Settlement(queue[i], owner, outcome)
  {
    if queue != [] {
      SettlementsAt(queue[1..], owner, outcome);
    }
  }

  /** Only the owner gets answers to a refresh. */
  lemma OwnerAlone(s: State, a: Action, o: nat)
    requires OneOwner(s) && Enabled(s, a) && o < |s.calls| && Owner(s.calls[o])
    ensures a.RefreshAnswer? || a.BodyAnswer? || a.RetryAnswer? ==> a.p == o
  {
    if a.RefreshAnswer? || a.BodyAnswer? || a.RetryAnswer? {
      assert Owner(s.calls[a.p]);
    }
  }

  lemma OwnerStep(s: State, a: Action)
    requires OneOwner(s) && QueueFits(s) && Enabled(s, a)
    ensures OneOwner(Apply(s, a))
  {
    hide Apply, OneOwner, QueueFits;
    if a.RefreshAnswer? || a.BodyAnswer? || a.RetryAnswer? {
      OwnerAnswered(s, a);
    } else {
      OthersMove(s, a);
    }
  }

  lemma OwnerAnswered(s: State, a: Action)
    requires OneOwner(s) && QueueFits(s) && Enabled(s, a) && (a.RefreshAnswer? || a.BodyAnswer? || a.RetryAnswer?)
    ensures OneOwner(Apply(s, a))
  {
    var s' := Apply(s, a);
    assert Owner(s.calls[a.p]);
    assert forall q :: 0 <= q < |s'.calls| && q != a.p && Owner(s'.calls[q]) ==> Owner(s.calls[q]);
    assert s'.refreshing <==> Owner(s'.calls[a.p]);
  }

  lemma OthersMove(s: State, a: Action)
    requires OneOwner(s) && Enabled(s, a) && !a.RefreshAnswer? && !a.BodyAnswer? && !a.RetryAnswer?
    ensures OneOwner(Apply(s, a))
  {
    var s' := Apply(s, a);
    assert forall q :: 0 <= q < |s.calls| && Owner(s.calls[q]) ==> Owner(s'.calls[q]);
    if s.refreshing {
      var o :| 0 <= o < |s.calls| && Owner(s.calls[o]);
      assert Owner(s'.calls[o]);
    } else if s'.refreshing {
      assert Owner(s'.calls[a.p]);
    }
  }

  lemma QueueStep(s: State, a: Action)
    requires QueueFits(s) && Enabled(s, a)
    ensures QueueFits(Apply(s, a))
  {
    hide QueueFits;
    match a
    case RefreshAnswer(p, failure, ok) =>
      if failure.Some? {
        FailFits(s, p, failure.value);
      } else {
        OwnerMoves(s, p, ReadingBody(ok), s.refreshing);
      }
    case BodyAnswer(p, failure, token) =>
      if !s.calls[p].ok || failure.Some? {
        FailFits(s, p, if failure.Some? then failure.value else 0);
      } else {
        ProcessFits(s, p, Resolved(token));
        OwnerMoves(ProcessQueue(s, p, Resolved(token)), p, Retrying(token), s.refreshing);
      }
    case RetryAnswer(p, failure) =>
      if failure.Some? {
        FailFits(s, p, failure.value);
      } else {
        OwnerMoves(s, p, Ended, false);
      }
    case Begin(eligible) => CallBegins(s, Fetching(eligible));
    case FetchAnswer(p, _) => CallAnswered(s, a);
    case WaiterEnds(p) => WaiterGoes(s, p);
  }

  lemma CallBegins(s: State, c: Call)
    requires QueueFits(s) && c.Fetching?
    ensures QueueFits(s.(calls := s.calls + [c]))
  {
    var s' := s.(calls := s.calls + [c]);
    assert forall i :: 0 <= i < |s.log| ==> s'.calls[s.log[i].waiter] == s.calls[s.log[i].waiter];
  }

  lemma CallAnswered(s: State, a: Action)
    requires QueueFits(s) && Enabled(s, a) && a.FetchAnswer?
    ensures QueueFits(Apply(s, a))
  {
  }

  lemma WaiterGoes(s: State, p: nat)
    requires QueueFits(s) && p < |s.calls| && s.calls[p].Settled?
    ensures QueueFits(s.(calls := s.calls[p := Ended]))
  {
  }

  lemma OwnerMoves(s: State, p: nat, c: Call, refreshing: bool)
    requires QueueFits(s) && p < |s.calls| && Owner(s.calls[p]) && (Owner(c) || c.Ended?)
    ensures QueueFits(s.(refreshing := refreshing, calls := s.calls[p := c]))
  {
  }

  lemma FailFits(s: State, p: nat, error: nat)
    requires QueueFits(s) && p < |s.calls| && Owner(s.calls[p])
    ensures QueueFits(Fail(s, p, error))
  {
    ProcessFits(s, p, RejectedBy(error));
    hide QueueFits;
    OwnerMoves(ProcessQueue(s, p, RejectedBy(error)), p, Ended, false);
  }

  lemma ProcessFits(s: State, p: nat, outcome: Outcome)
    requires QueueFits(s)
    ensures QueueFits(ProcessQueue(s, p, outcome))
    ensures p < |s.calls| && Owner(s.calls[p]) ==> ProcessQueue(s, p, outcome).calls[p] == s.calls[p]
  {
    var s' := ProcessQueue(s, p, outcome);
    var n := |s.log|;
    SettlementsAt(s.queue, p, outcome);
    assert forall i :: n <= i < |s'.log| ==> s'.log[i].waiter == s.queue[i - n] && s'.log[i].waiter in s.queue;
    assert forall i :: 0 <= i < n ==> s'.log[i] == s.log[i] && s.log[i].waiter !in s.queue;
  }

  /** At most one refresh is under way, and nobody is settled twice, in every interleaving. */
  lemma {:induction false} ReachableIsSound(s: State, run: seq<Action>)
    requires s == START || Sound(s)
    requires Possible(s, run)
    ensures Sound(After(s, run))
    decreases |run|
  {
    assert Sound(START);
    if run != [] {
      OwnerStep(s, run[0]);
      QueueStep(s, run[0]);
      ReachableIsSound(Apply(s, run[0]), run[1..]);
    }
  }

  // ----- Who settles a waiter -----

  /** The owner has not yet told the queue. */
  predicate Untold(c: Call) {
    c.Refreshing? || c.ReadingBody?
  }

  /**
   What the owner `o` tells the queue in this step, if it does: the error its refresh failed with, or the token it
   was given and retries with.  A refused refresh is an error whatever its body says.
   */
  function Told(s: State, a: Action, o: nat): Option<Outcome>
    requires Enabled(s, a)
  {
    match a
    case RefreshAnswer(p, failure, _) =>
      if p == o && failure.Some? then Some(RejectedBy(failure.value)) else None
    case BodyAnswer(p, failure, token) =>
      if p != o then None
      else if failure.Some? then Some(RejectedBy(failure.value))
      else if !s.calls[p].ok then Some(RejectedBy(0))
      else Some(Resolved(token))
    case _ => None
  }

  /** What the owner tells the queue first in a run. */
  function FirstTold(s: State, run: seq<Action>, o: nat): Option<Outcome>
    requires Possible(s, run)
    decreases |run|
  {
    if run == [] then None
    else if Told(s, run[0], o).Some? then Told(s, run[0], o)
    else FirstTold(Apply(s, run[0]), run[1..], o)
  }

  /** `w` is in the log, with this owner and this outcome and no other. */
  ghost predicate SettledBy(s: State, w: nat, o: nat, outcome: Outcome) {
    && Settlement(w, o, outcome) in s.log
    && forall i :: 0 <= i < |s.log| && s.log[i].waiter == w ==> s.log[i] == Settlement(w, o, outcome)
  }

  lemma {:induction false} LogGrows(s: State, run: seq<Action>)
    requires Possible(s, run)
    ensures s.log <= After(s, run).log
    decreases |run|
  {
    if run != [] {
      LogGrows(Apply(s, run[0]), run[1..]);
    }
  }

  /**
   The step at which an owner tells the queue settles the whole queue, in order, in its name and with what it tells;
   the owner then retries with that token, or is done and the refresh is over.  Before that step a queued call stays
   queued.
   */
  lemma TellingStep(s: State, a: Action, w: nat, o: nat)
    requires Sound(s) && Enabled(s, a) && w in s.queue
    requires o < |s.calls| && Untold(s.calls[o])
    ensures var s' := Apply(s, a);
            && o < |s'.calls|
            && match Told(s, a, o)
               case None => w in s'.queue && Untold(s'.calls[o])
               case Some(outcome) =>
                 && s'.queue == [] && s'.log == s.log + Settlements(s.queue, o, outcome)
                 && s'.calls[o] == (if outcome.Resolved? then Retrying(outcome.token) else Ended)
                 && (forall v :: v in s.queue ==> v < |s'.calls| && s'.calls[v] == Settled(outcome))
                 && s'.refreshing == outcome.Resolved?
  {
    OwnerAlone(s, a, o);
  }

  lemma QueuedIsSettled(s: State, s': State, w: nat, o: nat, outcome: Outcome)
    requires QueueFits(s) && QueueFits(s') && w in s.queue && s'.log == s.log + Settlements(s.queue, o, outcome)
    ensures SettledBy(s', w, o, outcome)
  {
    SettlementsAt(s.queue, o, outcome);
    var i :| 0 <= i < |s.queue| && s.queue[i] == w;
    assert s'.log[|s.log| + i] == Settlement(w, o, outcome);
  }

  lemma SettledStays(s: State, s': State, w: nat, o: nat, outcome: Outcome)
    requires QueueFits(s') && s.log <= s'.log && SettledBy(s, w, o, outcome)
    ensures SettledBy(s', w, o, outcome)
  {
    var i :| 0 <= i < |s.log| && s.log[i] == Settlement(w, o, outcome);
    assert s'.log[i] == s.log[i];
  }

  /**
   A waiter queued before the owner tells the queue waits for that owner, and is settled by it alone, once, with the
   token its refresh gave or the error it failed with.
   */
  lemma {:induction false} SettledByItsOwner(s: State, run: seq<Action>, w: nat, o: nat)
    requires Sound(s) && Possible(s, run) && w in s.queue
    requires o < |s.calls| && Untold(s.calls[o])
    ensures var s' := After(s, run);
            match FirstTold(s, run, o)
            case None => w in s'.queue && o < |s'.calls| && Untold(s'.calls[o])
            case Some(outcome) => SettledBy(s', w, o, outcome)
    decreases |run|
  {
    if run != [] {
      var s1 := Apply(s, run[0]);
      OwnerStep(s, run[0]);
      QueueStep(s, run[0]);
      TellingStep(s, run[0], w, o);
      hide Apply, SettledBy;
      match Told(s, run[0], o)
      case None => SettledByItsOwner(s1, run[1..], w, o);
      case Some(outcome) =>
        QueuedIsSettled(s, s1, w, o, outcome);
        LogGrows(s1, run[1..]);
        ReachableIsSound(s1, run[1..]);
        SettledStays(s1, After(s1, run[1..]), w, o, outcome);
    }
  }

  // ----- What an answer begins -----

  /**
   A call becomes the owner of a refresh exactly when it is answered 401, may refresh and nobody does; it joins the
   queue, at its end, exactly when somebody does.
   */
  lemma RefreshBegins(s: State, a: Action, p: nat)
    requires Sound(s) && Enabled(s, a) && p < |s.calls| && s.calls[p].Fetching?
    ensures var s', turnedAway := Apply(s, a), a == FetchAnswer(p, Unauthorized) && s.calls[p].eligible;
            && (s'.calls[p].Refreshing? <==> turnedAway && !s.refreshing)
            && (p in s'.queue <==> turnedAway && s.refreshing)
            && (p in s'.queue ==> s'.queue == s.queue + [p])
            && (turnedAway ==> s'.refreshing && s'.log == s.log)
  {
    if a.RefreshAnswer? || a.BodyAnswer? || a.RetryAnswer? {
      assert Owner(s.calls[a.p]);
    }
  }

  /**
   Any other answer to a call ends it, and nothing else: no refresh, nobody queued, nobody told.  So does the end of a
   waiter that was settled.
   */
  lemma OtherAnswersEnd(s: State, a: Action)
    requires Enabled(s, a) && (a.FetchAnswer? || a.WaiterEnds?)
    requires a.FetchAnswer? ==> !s.calls[a.p].eligible || !a.answer.Unauthorized?
    ensures Apply(s, a) == s.(calls := s.calls[a.p := Ended])
  {
  }

  /** While the body of the refresh's answer is read, the owner remembers whether the refresh was refused. */
  lemma {:induction false} VerdictKept(s: State, run: seq<Action>, o: nat)
    requires Possible(s, run) && o < |s.calls| && s.calls[o].ReadingBody? && Sound(s)
    requires forall a :: a in run ==> !(a.BodyAnswer? && a.p == o)
    ensures o < |After(s, run).calls| && After(s, run).calls[o] == s.calls[o]
    decreases |run|
  {
    if run != [] {
      var a := run[0];
      assert a in run;
      OwnerAlone(s, a, o);
      OwnerStep(s, a);
      QueueStep(s, a);
      assert Apply(s, a).calls[o] == s.calls[o];
      hide Apply;
      VerdictKept(Apply(s, a), run[1..], o);
    }
  }

  /**
   However it is interleaved, once a refresh is answered: one that was refused rejects the queue, whatever its body
   says; one that was not resolves the queue with the token of its body, if that can be read.
   */
  lemma AnswerDecides(s: State, o: nat, ok: bool, run: seq<Action>, failure: Option<nat>, token: Token)
    requires Sound(s) && Enabled(s, RefreshAnswer(o, None, ok))
    requires Possible(Apply(s, RefreshAnswer(o, None, ok)), run)
    requires forall a :: a in run ==> !(a.BodyAnswer? && a.p == o)
    ensures var m, body := After(Apply(s, RefreshAnswer(o, None, ok)), run), BodyAnswer(o, failure, token);
            && Enabled(m, body)
            && Told(m, body, o).Some?
            && (Told(m, body, o).value.Resolved? <==> ok && failure.None?)
            && (ok && failure.None? ==> Told(m, body, o) == Some(Resolved(token)))
  {
    OwnerStep(s, RefreshAnswer(o, None, ok));
    QueueStep(s, RefreshAnswer(o, None, ok));
    VerdictKept(Apply(s, RefreshAnswer(o, None, ok)), run, o);
  }

  // ----- Waiters that come too late -----

  /** The calls that join the queue during a run. */
  ghost function Arrivals(s: State, run: seq<Action>): seq<nat>
    requires Possible(s, run)
    decreases |run|
  {
    if run == [] then []
    else
      var s1 := Apply(s, run[0]);
      (if |s1.queue| > |s.queue| then [run[0].p] else []) + Arrivals(s1, run[1..])
  }

  /** While the owner `o` waits for its own retry, calls join the queue and nothing else happens to it. */
  lemma {:induction false} LateQueue(s: State, run: seq<Action>, o: nat)
    requires Sound(s) && Possible(s, run)
    requires o < |s.calls| && s.calls[o].Retrying?
    requires forall a :: a in run ==> !(a.RetryAnswer? && a.p == o)
    ensures var s' := After(s, run);
            && o < |s'.calls| && s'.calls[o] == s.calls[o] && s'.log == s.log
            && s'.queue == s.queue + Arrivals(s, run)
    decreases |run|
  {
    if run != [] {
      var a := run[0];
      var s1 := Apply(s, a);
      OwnerAlone(s, a, o);
      assert a in run && !(a.RefreshAnswer? || a.BodyAnswer? || a.RetryAnswer?);
      assert s1.queue == s.queue + (if |s1.queue| > |s.queue| then [a.p] else []);
      OwnerStep(s, a);
      QueueStep(s, a);
      LateQueue(s1, run[1..], o);
    }
  }

  /**
   From the moment an owner has told the queue to the end of its own retry: if the retry is answered, the
   calls that joined in between, and only they, are left in the queue with nobody refreshing; if the
   retry fails, they are rejected by the owner and the queue is empty.
   */
  lemma LeftBehind(s: State, run: seq<Action>, o: nat, failure: Option<nat>)
    requires Sound(s) && s.queue == [] && Possible(s, run)
    requires o < |s.calls| && s.calls[o].Retrying?
    requires forall a :: a in run ==> !(a.RetryAnswer? && a.p == o)
    ensures Enabled(After(s, run), RetryAnswer(o, failure))
    ensures var late := Arrivals(s, run);
            var s' := Apply(After(s, run), RetryAnswer(o, failure));
            && !s'.refreshing
            && s'.queue == (if failure.None? then late else [])
            && s'.log == s.log + (if failure.None? then [] else Settlements(late, o, RejectedBy(failure.value)))
  {
    LateQueue(s, run, o);
    assert s.queue + Arrivals(s, run) == Arrivals(s, run);
    assert s.log + [] == s.log;
  }

  /** So "the queue is empty when nobody refreshes" fails, from a fresh client, with a single late call. */
  lemma QueueCanOutliveRefresh()
    ensures exists run :: Possible(START, run) && !After(START, run).refreshing && After(START, run).queue == [1]
  {
    var s1 := State(false, [], [Fetching(true)], []);
    var s2 := State(false, [], [Fetching(true), Fetching(true)], []);
    var s3 := State(true, [], [Refreshing, Fetching(true)], []);
    var s4 := State(true, [], [ReadingBody(true), Fetching(true)], []);
    var s5 := State(true, [], [Retrying(7), Fetching(true)], []);
    var s6 := State(true, [1], [Retrying(7), Waiting], []);
    var s7 := State(false, [1], [Ended, Waiting], []);
    assert Possible(s7, []);
    Link(s6, RetryAnswer(0, None), s7, []);
    Link(s5, FetchAnswer(1, Unauthorized), s6, [RetryAnswer(0, None)] + []);
    assert SettleAll(s4.calls, [], Resolved(7)) == s4.calls;
    var r5 := [FetchAnswer(1, Unauthorized)] + ([RetryAnswer(0, None)] + []);
    Link(s4, BodyAnswer(0, None, 7), s5, r5);
    Link(s3, RefreshAnswer(0, None, true), s4, [BodyAnswer(0, None, 7)] + r5);
    var r3 := [RefreshAnswer(0, None, true)] + ([BodyAnswer(0, None, 7)] + r5);
    Link(s2, FetchAnswer(0, Unauthorized), s3, r3);
    Link(s1, Begin(true), s2, [FetchAnswer(0, Unauthorized)] + r3);
    Link(START, Begin(true), s1, [Begin(true)] + ([FetchAnswer(0, Unauthorized)] + r3));
  }

  lemma Link(s: State, a: Action, s': State, run: seq<Action>)
    requires Enabled(s, a) && Apply(s, a) == s' && Possible(s', run)
    ensures Possible(s, [a] + run) && After(s, [a] + run) == After(s', run)
  {
    assert ([a] + run)[1..] == run;
  }
}
