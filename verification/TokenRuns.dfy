/**
 Any number of refreshes, access checks, logins and logouts in any order, with keys expiring at any time
 and tasks dying at any time.
 */
module TokenRuns {
  import opened Wrappers
  import opened TokenFamilies

  datatype CheckStep = Begun | NotRevoked | Passed | Refused

  datatype Task =
    | RefreshTask(c: Claims, stage: Stage)
    | CheckTask(c: Claims, step: CheckStep)

  datatype State = State(
    store: Store,
    issued: map<Jti, Claims>,   // every token ever signed: the only ones the verifier accepts
    families: set<Family>,      // every family ever opened
    tasks: seq<Task>)

  datatype Action =
    | Login(subject: Subject, family: Family, ja: Jti, jr: Jti, ttl: int)
    | BeginRefresh(c: Claims)
    | BeginCheck(c: Claims)
    | Go(p: nat, ja: Jti, jr: Jti, ttl: int)
    | Abort(p: nat)
    | DropRefresh(jti: Jti)      // logout or expiry
    | DropFamily(family: Family) // logout or expiry
    | DropGrace(jti: Jti)
    | RevokeAccess(jti: Jti)
    | ForgetRevoked(jti: Jti)

  predicate Fresh(s: State, ja: Jti, jr: Jti) {
    ja != jr && ja !in s.issued && jr !in s.issued
  }

  predicate Enabled(s: State, a: Action) {
    match a
    case Login(_, f, ja, jr, _) => f !in s.families && Fresh(s, ja, jr)
    case BeginRefresh(c) => c.jti in s.issued && s.issued[c.jti] == c && c.kind.Refresh?
    case BeginCheck(c) => c.jti in s.issued && s.issued[c.jti] == c && c.kind.Access?
    case Go(p, ja, jr, _) =>
      && p < |s.tasks|
      && (s.tasks[p].RefreshTask? && s.tasks[p].stage.Checked? ==> Fresh(s, ja, jr))
    case Abort(p) => p < |s.tasks| && s.tasks[p].RefreshTask?
    case RevokeAccess(j) => j in s.issued
    case _ => true
  }

  function Issue(issued: map<Jti, Claims>, pair: Pair): map<Jti, Claims> {
    issued[pair.access.jti := pair.access][pair.refresh.jti := pair.refresh]
  }

  function Apply(s: State, a: Action): State
    requires Enabled(s, a)
  {
    match a
    case Login(subject, f, ja, jr, ttl) =>
      var pair := NewPair(Claims(jr, Refresh, subject, Some(f)), Some(f), ja, jr);
      s.(store := Register(s.store, jr, subject, ttl, Some(f)),
         issued := Issue(s.issued, pair), families := s.families + {f})
    case BeginRefresh(c) => s.(tasks := s.tasks + [RefreshTask(c, Start)])
    case BeginCheck(c) => s.(tasks := s.tasks + [CheckTask(c, Begun)])
    case Go(p, ja, jr, ttl) => GoTask(s, p, ja, jr, ttl)
    case Abort(p) =>
      var t := s.tasks[p];
      s.(tasks := s.tasks[p := t.(stage := if t.stage.Returned? then t.stage else Failed(Invalid))])
    case DropRefresh(jti) => s.(store := s.store.(refresh := s.store.refresh - {jti}))
    case DropFamily(f) => s.(store := s.store.(families := s.store.families - {f}))
    case DropGrace(jti) => s.(store := s.store.(grace := s.store.grace - {jti}))
    case RevokeAccess(jti) => s.(store := s.store.(revoked := s.store.revoked + {jti}))
    case ForgetRevoked(jti) => s.(store := s.store.(revoked := s.store.revoked - {jti}))
  }

  function GoTask(s: State, p: nat, ja: Jti, jr: Jti, ttl: int): State
    requires p < |s.tasks|
  {
    match s.tasks[p]
    case RefreshTask(c, stage) =>
      var (store', stage') := StageStep(s.store, c, stage, ja, jr, ttl);
      s.(store := store', tasks := s.tasks[p := RefreshTask(c, stage')],
         issued := if stage.Checked? then Issue(s.issued, stage'.pair) else s.issued)
    case CheckTask(c, step) =>
      var step' := match step
        case Begun => if c.jti in s.store.revoked then Refused else NotRevoked
        case NotRevoked => if Alive(s.store, c.family) then Passed else Refused
        case _ => step;
      s.(tasks := s.tasks[p := CheckTask(c, step')])
  }

  ghost predicate Possible(s: State, run: seq<Action>)
    decreases |run|
  {
    run == [] || (Enabled(s, run[0]) && Possible(Apply(s, run[0]), run[1..]))
  }

  function After(s: State, run: seq<Action>): State
    requires Possible(s, run)
    decreases |run|
  {
    if run == [] then s else After(Apply(s, run[0]), run[1..])
  }

  const EMPTY := State(Store(map[], {}, map[], {}), map[], {}, [])

  // ----- What every step keeps -----

  function EntryOf(c: Claims): Entry {
    Entry(c.subject, c.family)
  }

  predicate PairFor(c: Claims, pair: Pair) {
    pair == NewPair(c, c.family, pair.access.jti, pair.refresh.jti)
  }

  /** Between taking the old token and registering the new one. */
  predicate Rotating(t: Task) {
    t.RefreshTask? && (t.stage.Consumed? || t.stage.Checked?)
  }

  function PairOf(t: Task): Option<Pair> {
    if t.RefreshTask? && (t.stage.FoundGrace? || t.stage.Registered? || t.stage.Returned?) then Some(t.stage.pair)
    else None
  }

  function GracePair(s: Store, jti: Jti): Option<Pair> {
    if jti in s.grace && s.grace[jti].Rotated? then Some(s.grace[jti].pair) else None
  }

  predicate TaskFits(issued: map<Jti, Claims>, t: Task) {
    && t.c.jti in issued && issued[t.c.jti] == t.c
    && (t.RefreshTask? && t.stage.Consumed? ==> t.stage.entry == EntryOf(t.c))
    && (t.RefreshTask? && t.stage.Checked? ==> t.stage.family == t.c.family)
    && (PairOf(t).Some? ==> PairFor(t.c, PairOf(t).value))
  }

  ghost predicate IssuedFits(s: State) {
    forall j :: j in s.issued ==> s.issued[j].jti == j && FamilySet(s.issued[j].family) <= s.families
  }

  ghost predicate StoreFits(s: State) {
    && (forall j :: j in s.store.refresh ==> j in s.issued && s.store.refresh[j] == EntryOf(s.issued[j]))
    && (forall j :: GracePair(s.store, j).Some? ==>
          j in s.issued && PairFor(s.issued[j], GracePair(s.store, j).value))
    && (forall j :: j in s.store.revoked ==> j in s.issued)
  }

  /** Keys, marks and tasks all agree with the tokens that were signed. */
  ghost predicate Fits(s: State) {
    && IssuedFits(s)
    && StoreFits(s)
    && (forall p :: 0 <= p < |s.tasks| ==> TaskFits(s.issued, s.tasks[p]))
  }

  /** Two different carriers of the same family: stored tokens, or rotations under way. */
  ghost predicate ApartTokens(s: Store, i: Jti, j: Jti) {
    i in s.refresh && j in s.refresh && i != j && s.refresh[i].family.Some? ==>
      s.refresh[i].family != s.refresh[j].family
  }

  ghost predicate ApartTask(s: Store, j: Jti, t: Task) {
    j in s.refresh && Rotating(t) && t.c.family.Some? ==> s.refresh[j].family != t.c.family
  }

  ghost predicate ApartTasks(t: Task, u: Task) {
    Rotating(t) && Rotating(u) && t.c.family.Some? ==> t.c.family != u.c.family
  }

  /** Each family is carried by at most one stored token or one rotation under way. */
  ghost predicate OneCarrier(s: State) {
    && (forall i, j :: ApartTokens(s.store, i, j))
    && (forall j, p :: 0 <= p < |s.tasks| ==> ApartTask(s.store, j, s.tasks[p]))
    && (forall p, q :: 0 <= p < |s.tasks| && 0 <= q < |s.tasks| && p != q ==> ApartTasks(s.tasks[p], s.tasks[q]))
  }

  /** While a token is stored there is neither a rotation nor a pair for it. */
  ghost predicate Unspent(s: Store, j: Jti, t: Task) {
    j in s.refresh && t.c.jti == j ==> !Rotating(t) && PairOf(t).None?
  }

  /** While it is being rotated nobody else has a pair for it, and afterwards everybody has the same. */
  ghost predicate Agree(t: Task, u: Task) {
    t.c.jti == u.c.jti ==>
      && (Rotating(t) ==> !Rotating(u) && PairOf(u).None?)
      && (PairOf(t).Some? && PairOf(u).Some? ==> PairOf(t) == PairOf(u))
  }

  ghost predicate AgreeGrace(s: Store, t: Task) {
    && (Rotating(t) ==> GracePair(s, t.c.jti).None?)
    && (PairOf(t).Some? && GracePair(s, t.c.jti).Some? ==> PairOf(t) == GracePair(s, t.c.jti))
  }

  ghost predicate OnePair(s: State) {
    && (forall j, p :: 0 <= p < |s.tasks| ==> Unspent(s.store, j, s.tasks[p]))
    && (forall j :: j in s.store.refresh ==> GracePair(s.store, j).None?)
    && (forall p, q :: 0 <= p < |s.tasks| && 0 <= q < |s.tasks| && p != q ==> Agree(s.tasks[p], s.tasks[q]))
    && (forall p :: 0 <= p < |s.tasks| ==> AgreeGrace(s.store, s.tasks[p]))
  }

  lemma FitsStep(s: State, a: Action)
    requires Fits(s) && Enabled(s, a)
    ensures Fits(Apply(s, a))
  {
    hide StageStep, PairFor;
    var s' := Apply(s, a);
    match a
    case Go(p, ja, jr, ttl) => FitsGo(s, p, ja, jr, ttl);
    case Abort(p) => assert TaskFits(s.issued, s.tasks[p]);
    case Login(subject, f, ja, jr, ttl) =>
      FitsLogin(s, subject, f, ja, jr, ttl);
    case _ =>
      assert IssuedFits(s') && StoreFits(s');
      assert forall p :: 0 <= p < |s.tasks| ==> TaskFits(s.issued, s.tasks[p]);
  }

  lemma LoginStoreFits(s: State, subject: Subject, f: Family, ja: Jti, jr: Jti, ttl: int)
    requires IssuedFits(s) && StoreFits(s) && Enabled(s, Login(subject, f, ja, jr, ttl))
    ensures var s' := Apply(s, Login(subject, f, ja, jr, ttl));
            IssuedFits(s') && StoreFits(s')
  {
    hide StageStep, PairFor, TaskFits, PairOf;
  }

  lemma FitsLogin(s: State, subject: Subject, f: Family, ja: Jti, jr: Jti, ttl: int)
    requires Fits(s) && Enabled(s, Login(subject, f, ja, jr, ttl))
    ensures Fits(Apply(s, Login(subject, f, ja, jr, ttl)))
  {
    hide StageStep, PairFor;
    var s' := Apply(s, Login(subject, f, ja, jr, ttl));
    LoginStoreFits(s, subject, f, ja, jr, ttl);
    hide IssuedFits, StoreFits, PairOf;
    forall p | 0 <= p < |s.tasks| ensures TaskFits(s'.issued, s'.tasks[p]) {
      assert TaskFits(s.issued, s.tasks[p]);
    }
  }

  lemma FitsGo(s: State, p: nat, ja: Jti, jr: Jti, ttl: int)
    requires Fits(s) && Enabled(s, Go(p, ja, jr, ttl))
    ensures Fits(GoTask(s, p, ja, jr, ttl))
  {
    hide StageStep, PairFor;
    var s' := GoTask(s, p, ja, jr, ttl);
    assert TaskFits(s.issued, s.tasks[p]);
    if s.tasks[p].RefreshTask? {
      var c, stage := s.tasks[p].c, s.tasks[p].stage;
      StageFits(s, c, stage, ja, jr, ttl);
      var r := StageStep(s.store, c, stage, ja, jr, ttl);
      if stage.Checked? {
        IssueFits(s, c, ja, jr);
      }
      forall q | 0 <= q < |s.tasks| ensures TaskFits(s'.issued, s'.tasks[q]) {
        assert TaskFits(s.issued, s.tasks[q]);
      }
    } else {
      forall q | 0 <= q < |s.tasks| ensures TaskFits(s'.issued, s'.tasks[q]) {
        assert TaskFits(s.issued, s.tasks[q]);
      }
    }
  }

  lemma IssueFits(s: State, c: Claims, ja: Jti, jr: Jti)
    requires IssuedFits(s) && Fresh(s, ja, jr) && c.jti in s.issued && s.issued[c.jti] == c
    ensures IssuedFits(s.(issued := Issue(s.issued, NewPair(c, c.family, ja, jr))))
  {
  }

  /** One store call of the refresh of a signed token. */
  lemma StageFits(s: State, c: Claims, stage: Stage, ja: Jti, jr: Jti, ttl: int)
    requires Fits(s) && TaskFits(s.issued, RefreshTask(c, stage)) && (stage.Checked? ==> Fresh(s, ja, jr))
    ensures var (store', stage') := StageStep(s.store, c, stage, ja, jr, ttl);
            var issued' := if stage.Checked? then Issue(s.issued, NewPair(c, c.family, ja, jr)) else s.issued;
            && (stage.Checked? ==> stage' == Registered(NewPair(c, c.family, ja, jr)))
            && StoreFits(s.(store := store', issued := issued'))
            && TaskFits(issued', RefreshTask(c, stage'))
  {
    if stage.Checked? {
      RegisterFits(s, c, ja, jr, ttl);
    } else if stage.Registered? {
      GraceFits(s, c, stage.pair);
    }
  }

  lemma RegisterFits(s: State, c: Claims, ja: Jti, jr: Jti, ttl: int)
    requires StoreFits(s) && Fresh(s, ja, jr)
    ensures var pair := NewPair(c, c.family, ja, jr);
            StoreFits(s.(store := Register(s.store, jr, c.subject, ttl, c.family), issued := Issue(s.issued, pair)))
  {
  }

  lemma GraceFits(s: State, c: Claims, pair: Pair)
    requires StoreFits(s) && c.jti in s.issued && s.issued[c.jti] == c && PairFor(c, pair)
    ensures StoreFits(s.(store := s.store.(grace := s.store.grace[c.jti := Rotated(pair)])))
  {
    hide PairFor;
  }

  // Most steps only lose keys and calm one task down.

  ghost predicate Shrinks(s: Store, s': Store) {
    && (forall j :: j in s'.refresh ==> j in s.refresh && s'.refresh[j] == s.refresh[j])
    && (forall j :: GracePair(s', j).Some? ==> GracePair(s', j) == GracePair(s, j))
  }

  ghost predicate Calmer(s: Store, t: Task, t': Task) {
    && t'.c == t.c
    && (Rotating(t') ==> Rotating(t))
    && (PairOf(t').Some? ==> PairOf(t') == PairOf(t) || PairOf(t') == GracePair(s, t.c.jti))
  }

  ghost predicate OneTaskChanged(s: State, s': State, p: nat) {
    && p < |s.tasks| == |s'.tasks|
    && forall q :: 0 <= q < |s.tasks| && q != p ==> s'.tasks[q] == s.tasks[q]
  }

  lemma Calm(s: State, s': State, p: nat)
    requires OneCarrier(s) && OnePair(s)
    requires Shrinks(s.store, s'.store) && OneTaskChanged(s, s', p) && Calmer(s.store, s.tasks[p], s'.tasks[p])
    ensures OneCarrier(s') && OnePair(s')
  {
    hide Rotating, PairOf, GracePair;
    CalmCarriers(s, s', p);
    var t, t' := s.tasks[p], s'.tasks[p];
    forall j, q | 0 <= q < |s'.tasks| ensures Unspent(s'.store, j, s'.tasks[q]) {
      assert Unspent(s.store, j, s.tasks[q]);
    }
    forall u, v | 0 <= u < |s'.tasks| && 0 <= v < |s'.tasks| && u != v ensures Agree(s'.tasks[u], s'.tasks[v]) {
      assert Agree(s.tasks[u], s.tasks[v]) && Agree(s.tasks[v], s.tasks[u]);
      assert AgreeGrace(s.store, s.tasks[u]) && AgreeGrace(s.store, s.tasks[v]);
    }
    forall q | 0 <= q < |s'.tasks| ensures AgreeGrace(s'.store, s'.tasks[q]) {
      assert AgreeGrace(s.store, s.tasks[q]);
    }
  }

  lemma CalmCarriers(s: State, s': State, p: nat)
    requires OneCarrier(s)
    requires forall j :: j in s'.store.refresh ==> j in s.store.refresh && s'.store.refresh[j] == s.store.refresh[j]
    requires OneTaskChanged(s, s', p) && s'.tasks[p].c == s.tasks[p].c
    requires Rotating(s'.tasks[p]) ==> Rotating(s.tasks[p])
    ensures OneCarrier(s')
  {
    hide Rotating, PairOf, GracePair;
    forall i, j ensures ApartTokens(s'.store, i, j) {
      assert ApartTokens(s.store, i, j);
    }
    forall j, q | 0 <= q < |s'.tasks| ensures ApartTask(s'.store, j, s'.tasks[q]) {
      assert ApartTask(s.store, j, s.tasks[q]);
    }
    forall u, v | 0 <= u < |s'.tasks| && 0 <= v < |s'.tasks| && u != v ensures ApartTasks(s'.tasks[u], s'.tasks[v]) {
      assert ApartTasks(s.tasks[u], s.tasks[v]);
    }
  }

  /** A new task, or no task at all, and keys only lost. */
  lemma CalmNew(s: State, s': State, t: Task)
    requires OneCarrier(s) && OnePair(s) && Shrinks(s.store, s'.store)
    requires s'.tasks == s.tasks || (s'.tasks == s.tasks + [t] && !Rotating(t) && PairOf(t).None?)
    ensures OneCarrier(s') && OnePair(s')
  {
    hide Rotating, PairOf, GracePair;
    var n := |s.tasks|;
    forall i, j ensures ApartTokens(s'.store, i, j) {
      assert ApartTokens(s.store, i, j);
    }
    forall j, q | 0 <= q < |s'.tasks|
      ensures ApartTask(s'.store, j, s'.tasks[q]) && Unspent(s'.store, j, s'.tasks[q])
      ensures AgreeGrace(s'.store, s'.tasks[q])
    {
      if q < n {
        assert ApartTask(s.store, j, s.tasks[q]) && Unspent(s.store, j, s.tasks[q]) && AgreeGrace(s.store, s.tasks[q]);
      }
    }
    forall u, v | 0 <= u < |s'.tasks| && 0 <= v < |s'.tasks| && u != v
      ensures ApartTasks(s'.tasks[u], s'.tasks[v]) && Agree(s'.tasks[u], s'.tasks[v])
    {
      if u < n && v < n {
        assert ApartTasks(s.tasks[u], s.tasks[v]) && Agree(s.tasks[u], s.tasks[v]);
      }
    }
  }

  /** Taking a stored token: the token stops carrying its family and its refresh begins to rotate. */
  lemma TakeToken(s: State, s': State, p: nat, c: Claims)
    requires Fits(s) && OneCarrier(s) && OnePair(s)
    requires p < |s.tasks| && s.tasks[p] == RefreshTask(c, Start) && c.jti in s.store.refresh
    requires OneTaskChanged(s, s', p) && s'.tasks[p] == RefreshTask(c, Consumed(s.store.refresh[c.jti]))
    requires s'.store.refresh == s.store.refresh - {c.jti}
    requires Shrinks(s.store, s'.store) && GracePair(s'.store, c.jti).None?
    ensures OneCarrier(s') && OnePair(s')
  {
    var t' := s'.tasks[p];
    assert TaskFits(s.issued, s.tasks[p]);
    var f := s.store.refresh[c.jti].family;
    forall i, j ensures ApartTokens(s'.store, i, j) {
      assert ApartTokens(s.store, i, j);
    }
    forall j, q | 0 <= q < |s'.tasks|
      ensures ApartTask(s'.store, j, s'.tasks[q]) && Unspent(s'.store, j, s'.tasks[q])
      ensures AgreeGrace(s'.store, s'.tasks[q])
    {
      assert ApartTask(s.store, j, s.tasks[q]) && Unspent(s.store, j, s.tasks[q]) && AgreeGrace(s.store, s.tasks[q]);
      assert ApartTokens(s.store, j, c.jti);
    }
    forall u, v | 0 <= u < |s'.tasks| && 0 <= v < |s'.tasks| && u != v
      ensures ApartTasks(s'.tasks[u], s'.tasks[v]) && Agree(s'.tasks[u], s'.tasks[v])
    {
      assert ApartTasks(s.tasks[u], s.tasks[v]) && Agree(s.tasks[u], s.tasks[v]);
      assert ApartTask(s.store, c.jti, s.tasks[u]) && Unspent(s.store, c.jti, s.tasks[u]);
      assert ApartTask(s.store, c.jti, s.tasks[v]) && Unspent(s.store, c.jti, s.tasks[v]);
    }
  }

  /** Registering the new token: it takes over the family from the refresh. */
  lemma PutToken(s: State, s': State, p: nat, c: Claims, ja: Jti, jr: Jti, ttl: int)
    requires Fits(s) && OneCarrier(s) && OnePair(s) && Fresh(s, ja, jr)
    requires p < |s.tasks| && s.tasks[p] == RefreshTask(c, Checked(c.family))
    requires OneTaskChanged(s, s', p) && s'.tasks[p] == RefreshTask(c, Registered(NewPair(c, c.family, ja, jr)))
    requires s'.store == Register(s.store, jr, c.subject, ttl, c.family)
    ensures OneCarrier(s') && OnePair(s')
  {
    var t := s.tasks[p];
    assert TaskFits(s.issued, t);
    forall i, j ensures ApartTokens(s'.store, i, j) {
      assert ApartTokens(s.store, i, j);
      assert ApartTask(s.store, i, t) && ApartTask(s.store, j, t);
    }
    assert GracePair(s.store, jr).None?;
    forall j, q | 0 <= q < |s'.tasks|
      ensures ApartTask(s'.store, j, s'.tasks[q]) && Unspent(s'.store, j, s'.tasks[q])
      ensures AgreeGrace(s'.store, s'.tasks[q])
    {
      assert ApartTask(s.store, j, s.tasks[q]) && Unspent(s.store, j, s.tasks[q]) && AgreeGrace(s.store, s.tasks[q]);
      assert q != p ==> ApartTasks(t, s.tasks[q]);
      assert TaskFits(s.issued, s.tasks[q]);
    }
    forall u, v | 0 <= u < |s'.tasks| && 0 <= v < |s'.tasks| && u != v
      ensures ApartTasks(s'.tasks[u], s'.tasks[v]) && Agree(s'.tasks[u], s'.tasks[v])
    {
      assert ApartTasks(s.tasks[u], s.tasks[v]) && Agree(s.tasks[u], s.tasks[v]) && Agree(s.tasks[v], s.tasks[u]);
    }
  }

  /** Publishing the pair of a rotation for later uses of the same token. */
  lemma PutGrace(s: State, s': State, p: nat, c: Claims, pair: Pair)
    requires Fits(s) && OneCarrier(s) && OnePair(s)
    requires p < |s.tasks| && s.tasks[p] == RefreshTask(c, Registered(pair))
    requires OneTaskChanged(s, s', p) && s'.tasks[p] == RefreshTask(c, Returned(pair))
    requires s'.store == s.store.(grace := s.store.grace[c.jti := Rotated(pair)])
    ensures OneCarrier(s') && OnePair(s')
  {
    var t := s.tasks[p];
    CalmCarriers(s, s', p);
    hide OneCarrier, Fits;
    assert Unspent(s.store, c.jti, t);
    forall j, q | 0 <= q < |s'.tasks|
      ensures Unspent(s'.store, j, s'.tasks[q]) && AgreeGrace(s'.store, s'.tasks[q])
    {
      assert Unspent(s.store, j, s.tasks[q]) && AgreeGrace(s.store, s.tasks[q]);
      assert q != p ==> Agree(t, s.tasks[q]) && Agree(s.tasks[q], t);
    }
    forall u, v | 0 <= u < |s'.tasks| && 0 <= v < |s'.tasks| && u != v ensures Agree(s'.tasks[u], s'.tasks[v]) {
      assert Agree(s.tasks[u], s.tasks[v]);
    }
  }

  lemma OpenFamily(s: State, subject: Subject, f: Family, ja: Jti, jr: Jti, ttl: int)
    requires Fits(s) && OneCarrier(s) && OnePair(s) && Enabled(s, Login(subject, f, ja, jr, ttl))
    ensures var s' := Apply(s, Login(subject, f, ja, jr, ttl)); OneCarrier(s') && OnePair(s')
  {
    var s' := Apply(s, Login(subject, f, ja, jr, ttl));
    forall i, j ensures ApartTokens(s'.store, i, j) {
      assert ApartTokens(s.store, i, j);
      assert forall k :: k in s.store.refresh && s.store.refresh[k].family.Some? ==>
        FamilySet(s.issued[k].family) <= s.families && s.store.refresh[k].family.value in FamilySet(s.issued[k].family);
    }
    assert GracePair(s.store, jr).None?;
    forall j, q | 0 <= q < |s'.tasks|
      ensures ApartTask(s'.store, j, s'.tasks[q]) && Unspent(s'.store, j, s'.tasks[q])
    {
      var t := s.tasks[q];
      assert ApartTask(s.store, j, t) && Unspent(s.store, j, t) && TaskFits(s.issued, t);
      assert t.c.family.Some? ==> t.c.family.value in FamilySet(s.issued[t.c.jti].family);
    }
  }

  lemma RunStep(s: State, a: Action)
    requires Fits(s) && OneCarrier(s) && OnePair(s) && Enabled(s, a)
    ensures OneCarrier(Apply(s, a)) && OnePair(Apply(s, a))
  {
    hide OneCarrier, OnePair, Fits, StageStep;
    var s' := Apply(s, a);
    match a
    case Login(subject, f, ja, jr, ttl) => OpenFamily(s, subject, f, ja, jr, ttl);
    case Go(p, ja, jr, ttl) =>
      if s.tasks[p].RefreshTask? {
        GoStep(s, p, ja, jr, ttl);
      } else {
        Calm(s, s', p);
      }
    case Abort(p) => Calm(s, s', p);
    case BeginRefresh(c) => CalmNew(s, s', RefreshTask(c, Start));
    case BeginCheck(c) => CalmNew(s, s', CheckTask(c, Begun));
    case _ => CalmNew(s, s', CheckTask(Claims(0, Access, 0, None), Begun));
  }

  lemma GoStep(s: State, p: nat, ja: Jti, jr: Jti, ttl: int)
    requires Fits(s) && OneCarrier(s) && OnePair(s) && Enabled(s, Go(p, ja, jr, ttl)) && s.tasks[p].RefreshTask?
    ensures var s' := GoTask(s, p, ja, jr, ttl); OneCarrier(s') && OnePair(s')
  {
    hide OneCarrier, OnePair;
    var s' := GoTask(s, p, ja, jr, ttl);
    var c, stage := s.tasks[p].c, s.tasks[p].stage;
    assert TaskFits(s.issued, s.tasks[p]);
    hide Fits;
    match stage
    case Start =>
      if c.jti in s.store.refresh {
        TakeToken(s, s', p, c);
      } else {
        Calm(s, s', p);
      }
    case Checked(_) => PutToken(s, s', p, c, ja, jr, ttl);
    case Registered(pair) => PutGrace(s, s', p, c, pair);
    case _ => Calm(s, s', p);
  }

  ghost predicate Sound(s: State) {
    Fits(s) && OneCarrier(s) && OnePair(s)
  }

  /** In every interleaving a family is carried at most once, and rotation of a token happens at most once. */
  lemma {:induction false} ReachableIsSound(s: State, run: seq<Action>)
    requires s == EMPTY || Sound(s)
    requires Possible(s, run)
    ensures Sound(After(s, run))
    decreases |run|
  {
    if run != [] {
      assert Sound(s);
      FitsStep(s, run[0]);
      RunStep(s, run[0]);
      ReachableIsSound(Apply(s, run[0]), run[1..]);
    }
  }

  /** Any two refreshes of the same token that return a pair return the same one, subject and family kept. */
  lemma SamePair(run: seq<Action>, p: nat, q: nat)
    requires Possible(EMPTY, run)
    requires var s := After(EMPTY, run);
             && p < |s.tasks| && q < |s.tasks| && s.tasks[p].RefreshTask? && s.tasks[q].RefreshTask?
             && s.tasks[p].c.jti == s.tasks[q].c.jti && s.tasks[p].stage.Returned? && s.tasks[q].stage.Returned?
    ensures var s := After(EMPTY, run);
            var c, pair := s.tasks[p].c, s.tasks[p].stage.pair;
            && pair == s.tasks[q].stage.pair
            && pair.refresh.subject == pair.access.subject == c.subject
            && pair.refresh.family == pair.access.family == c.family
  {
    var s := After(EMPTY, run);
    ReachableIsSound(EMPTY, run);
    assert TaskFits(s.issued, s.tasks[p]);
    if p != q {
      assert Agree(s.tasks[p], s.tasks[q]);
    }
  }

  // ----- Is a revoked family gone for good? -----

  /** A rotation that has already checked the family and will write its key again. */
  ghost predicate PastCheck(s: State, f: Family) {
    exists p :: 0 <= p < |s.tasks| && s.tasks[p].RefreshTask? && s.tasks[p].stage == Checked(Some(f))
  }

  ghost predicate Gone(s: State, f: Family) {
    f in s.families && f !in s.store.families && !PastCheck(s, f)
  }

  lemma GoneStep(s: State, a: Action, f: Family)
    requires Fits(s) && Gone(s, f) && Enabled(s, a)
    ensures Gone(Apply(s, a), f)
  {
    var s' := Apply(s, a);
    assert forall p :: 0 <= p < |s.tasks| && s.tasks[p].RefreshTask? ==> s.tasks[p].stage != Checked(Some(f));
    if a.Go? && s.tasks[a.p].RefreshTask? {
      assert TaskFits(s.issued, s.tasks[a.p]);
    }
  }

  lemma {:induction false} GoneForGood(s: State, run: seq<Action>, f: Family)
    requires Sound(s) && Gone(s, f) && Possible(s, run)
    ensures Gone(After(s, run), f)
    decreases |run|
  {
    if run != [] {
      GoneStep(s, run[0], f);
      FitsStep(s, run[0]);
      RunStep(s, run[0]);
      GoneForGood(Apply(s, run[0]), run[1..], f);
    }
  }

  lemma FreshIds(s: State) returns (ja: Jti, jr: Jti)
    ensures Fresh(s, ja, jr)
  {
    var top := Above(s.issued.Keys);
    ja, jr := top, top + 1;
    assert ja !in s.issued.Keys && jr !in s.issued.Keys;
  }

  lemma {:induction false} Above(used: set<Jti>) returns (top: Jti)
    ensures forall j :: j in used ==> j < top
    decreases |used|
  {
    if used == {} {
      top := 0;
    } else {
      var j :| j in used;
      var rest := Above(used - {j});
      assert forall i :: i in used ==> i == j || i in used - {j};
      top := if rest > j then rest else j + 1;
    }
  }

  /**
   A family whose key is gone (logout, reuse detection or expiry) stays gone in every continuation exactly
   when no rotation has already passed its family check without having registered its new token.
   */
  lemma RevocationIsFinal(s: State, f: Family)
    requires Sound(s) && f in s.families && f !in s.store.families
    ensures (forall run :: Possible(s, run) ==> f !in After(s, run).store.families) <==> !PastCheck(s, f)
  {
    if PastCheck(s, f) {
      var p :| 0 <= p < |s.tasks| && s.tasks[p].RefreshTask? && s.tasks[p].stage == Checked(Some(f));
      var ja, jr := FreshIds(s);
      var run := [Go(p, ja, jr, 1)];
      assert run[1..] == [] && Possible(Apply(s, run[0]), []);
      assert Possible(s, run) && After(s, run) == Apply(s, run[0]);
      assert exists run :: Possible(s, run) && f in After(s, run).store.families;
    } else {
      forall run | Possible(s, run) ensures f !in After(s, run).store.families {
        GoneForGood(s, run, f);
      }
    }
  }

  // ----- What a dead family still allows -----

  /** A task that may end well: it had, before the family went, all the answers it needs. */
  predicate Settled(t: Task) {
    match t
    case RefreshTask(_, stage) => stage.Registered? || stage.Returned?
    case CheckTask(_, step) => step.Passed?
  }

  ghost predicate NoNewSuccess(s: State, s': State, f: Family) {
    && |s.tasks| <= |s'.tasks|
    && (forall p :: 0 <= p < |s.tasks| ==> s'.tasks[p].c == s.tasks[p].c)
    && (forall p :: 0 <= p < |s'.tasks| && Settled(s'.tasks[p]) && s'.tasks[p].c.family == Some(f) ==>
          p < |s.tasks| && Settled(s.tasks[p]))
  }

  lemma NoNewSuccessStep(s: State, a: Action, f: Family)
    requires Fits(s) && Gone(s, f) && Enabled(s, a)
    ensures NoNewSuccess(s, Apply(s, a), f)
  {
    if a.Go? && s.tasks[a.p].RefreshTask? {
      assert TaskFits(s.issued, s.tasks[a.p]);
      assert s.tasks[a.p].stage != Checked(Some(f));
    }
  }

  /**
   Once a family is gone with no rotation past its check, no later access check in it passes and no later
   refresh in it returns a pair: only tasks that had everything already may still end well.
   */
  lemma {:induction false} DeadFamilyStaysShut(s: State, run: seq<Action>, f: Family)
    requires Sound(s) && Gone(s, f) && Possible(s, run)
    ensures NoNewSuccess(s, After(s, run), f)
    decreases |run|
  {
    if run != [] {
      var s1 := Apply(s, run[0]);
      GoneStep(s, run[0], f);
      NoNewSuccessStep(s, run[0], f);
      FitsStep(s, run[0]);
      RunStep(s, run[0]);
      DeadFamilyStaysShut(s1, run[1..], f);
      var s' := After(s1, run[1..]);
      forall p | 0 <= p < |s'.tasks| && Settled(s'.tasks[p]) && s'.tasks[p].c.family == Some(f)
        ensures p < |s.tasks| && Settled(s.tasks[p])
      {
        assert Settled(s1.tasks[p]) && s1.tasks[p].c.family == Some(f);
      }
    }
  }

  // ----- What a passed check means -----

  /** The family is alive at some moment of the run. */
  ghost predicate AliveDuring(s: State, run: seq<Action>, family: Option<Family>)
    requires Possible(s, run)
    decreases |run|
  {
    Alive(s.store, family) || (run != [] && AliveDuring(Apply(s, run[0]), run[1..], family))
  }

  /** At some moment of the run the token is not revoked, and then or later its family is alive. */
  ghost predicate GoodDuring(s: State, run: seq<Action>, c: Claims)
    requires Possible(s, run)
    decreases |run|
  {
    || (c.jti !in s.store.revoked && AliveDuring(s, run, c.family))
    || (run != [] && GoodDuring(Apply(s, run[0]), run[1..], c))
  }

  /**
   However a check is interleaved, it passes only if while it was under way the token was at some moment not revoked
   and its family at that moment or later alive.
   */
  lemma {:induction false} PassedWasGood(s: State, run: seq<Action>, p: nat, c: Claims)
    requires Possible(s, run) && p < |s.tasks| && p < |After(s, run).tasks|
    requires After(s, run).tasks[p] == CheckTask(c, Passed)
    ensures s.tasks[p] == CheckTask(c, Begun) ==> GoodDuring(s, run, c)
    ensures s.tasks[p] == CheckTask(c, NotRevoked) ==> AliveDuring(s, run, c.family)
    decreases |run|
  {
    if run != [] {
      var s1 := Apply(s, run[0]);
      assert After(s, run) == After(s1, run[1..]);
      if s.tasks[p] == CheckTask(c, Begun) || s.tasks[p] == CheckTask(c, NotRevoked) {
        CheckMoves(s, run[0], p, c);
        hide Apply;
        PassedWasGood(s1, run[1..], p, c);
        if s1.tasks[p] == CheckTask(c, Refused) {
          RefusedStays(s1, run[1..], p, c);
        }
      }
    }
  }

  lemma CheckMoves(s: State, a: Action, p: nat, c: Claims)
    requires Enabled(s, a) && p < |s.tasks| && s.tasks[p].CheckTask? && s.tasks[p].c == c
    ensures var s', moves := Apply(s, a), a.Go? && a.p == p;
            && p < |s'.tasks|
            && s'.tasks[p] == match s.tasks[p].step
               case Begun =>
                 CheckTask(c, if !moves then Begun else if c.jti in s.store.revoked then Refused else NotRevoked)
               case NotRevoked =>
                 CheckTask(c, if !moves then NotRevoked else if Alive(s.store, c.family) then Passed else Refused)
               case _ => s.tasks[p]
  {
  }

  lemma {:induction false} RefusedStays(s: State, run: seq<Action>, p: nat, c: Claims)
    requires Possible(s, run) && p < |s.tasks| && s.tasks[p] == CheckTask(c, Refused)
    ensures p < |After(s, run).tasks| && After(s, run).tasks[p] == CheckTask(c, Refused)
    decreases |run|
  {
    if run != [] {
      CheckMoves(s, run[0], p, c);
      hide Apply;
      RefusedStays(Apply(s, run[0]), run[1..], p, c);
    }
  }

  // ----- The ways this fails to be final, and the ways the grace window fails -----

  lemma Before(s: State, a: Action, run: seq<Action>)
    requires Enabled(s, a) && Possible(Apply(s, a), run)
    ensures Possible(s, [a] + run) && After(s, [a] + run) == After(Apply(s, a), run)
  {
    assert ([a] + run)[1..] == run;
  }

  /** A rotation past its check can finish and open the family again: an access token it issues then passes. */
  lemma RotationReopens(s: State, p: nat, f: Family) returns (run: seq<Action>)
    requires Sound(s) && p < |s.tasks| && s.tasks[p].RefreshTask? && s.tasks[p].stage == Checked(Some(f))
    ensures Possible(s, run)
    ensures var s' := After(s, run);
            && |s'.tasks| == |s.tasks| + 1
            && s'.tasks[p].c == s.tasks[p].c && s'.tasks[p].RefreshTask? && s'.tasks[p].stage.Returned?
            && s'.tasks[|s.tasks|] == CheckTask(s'.tasks[p].stage.pair.access, Passed)
            && s'.tasks[|s.tasks|].c.family == Some(f)
  {
    var n := |s.tasks|;
    var c := s.tasks[p].c;
    assert TaskFits(s.issued, s.tasks[p]);
    var ja, jr := FreshIds(s);
    var pair := NewPair(c, Some(f), ja, jr);
    var go := Go(p, ja, jr, 1);
    var s1 := Apply(s, go);
    assert s1.tasks[p] == RefreshTask(c, Registered(pair)) && f in s1.store.families;
    var again := Go(p, 0, 0, 0);
    var s2 := Apply(s1, again);
    assert s2.tasks[p] == RefreshTask(c, Returned(pair));
    var rest := CheckPasses(s2, pair.access);
    Before(s1, again, rest);
    Before(s, go, [again] + rest);
    run := [go] + ([again] + rest);
  }

  lemma CheckPasses(s: State, c: Claims) returns (run: seq<Action>)
    requires Enabled(s, BeginCheck(c)) && Accepted(s.store, c)
    ensures Possible(s, run)
    ensures After(s, run) == s.(tasks := s.tasks + [CheckTask(c, Passed)])
  {
    var n := |s.tasks|;
    var step := Go(n, 0, 0, 0);
    var s1 := Apply(s, BeginCheck(c));
    assert s1.tasks[n] == CheckTask(c, Begun);
    var s2 := Apply(s1, step);
    assert s2 == s.(tasks := s.tasks + [CheckTask(c, NotRevoked)]);
    var s3 := Apply(s2, step);
    assert s3 == s.(tasks := s.tasks + [CheckTask(c, Passed)]) && Possible(s3, []);
    Before(s2, step, []);
    Before(s1, step, [step] + []);
    Before(s, BeginCheck(c), [step] + ([step] + []));
    run := [BeginCheck(c)] + ([step] + ([step] + []));
  }

  const TOKEN := Claims(11, Refresh, 1, Some(5))
  const LOGOUT_RUN := [Login(1, 5, 10, 11, 60), BeginRefresh(TOKEN), Go(0, 0, 0, 0), Go(0, 0, 0, 0), DropFamily(5)]

  /** A logout that falls between the family check and the registration of a running refresh. */
  lemma LogoutDuringRefresh()
    ensures Possible(EMPTY, LOGOUT_RUN)
    ensures var s := After(EMPTY, LOGOUT_RUN);
            && Sound(s) && 5 in s.families && 5 !in s.store.families && PastCheck(s, 5)
            && exists run :: Possible(s, run) && 5 in After(s, run).store.families
  {
    var step := Go(0, 0, 0, 0);
    var s1 := Apply(EMPTY, Login(1, 5, 10, 11, 60));
    assert s1.issued[11] == TOKEN && s1.store.refresh == map[11 := Entry(1, Some(5))] && 5 in s1.store.families;
    var s2 := Apply(s1, BeginRefresh(TOKEN));
    assert s2.tasks == [RefreshTask(TOKEN, Start)];
    var s3 := Apply(s2, step);
    assert s3.tasks == [RefreshTask(TOKEN, Consumed(Entry(1, Some(5))))] && s3.store.families == s1.store.families;
    var s4 := Apply(s3, step);
    assert s4.tasks == [RefreshTask(TOKEN, Checked(Some(5)))];
    var s5 := Apply(s4, DropFamily(5));
    assert Possible(s5, []);
    Before(s4, DropFamily(5), []);
    Before(s3, step, [DropFamily(5)]);
    Before(s2, step, [step, DropFamily(5)]);
    Before(s1, BeginRefresh(TOKEN), [step, step, DropFamily(5)]);
    Before(EMPTY, Login(1, 5, 10, 11, 60), [BeginRefresh(TOKEN), step, step, DropFamily(5)]);
    assert LOGOUT_RUN == [Login(1, 5, 10, 11, 60)] + [BeginRefresh(TOKEN), step, step, DropFamily(5)];
    ReachableIsSound(EMPTY, LOGOUT_RUN);
    assert s5.tasks[0].stage == Checked(Some(5));
    RevocationIsFinal(s5, 5);
  }

  /** No rotation of the token `j` is under way, and no pair for it is waiting to be found. */
  ghost predicate Quiet(s: State, j: Jti) {
    && j in s.issued && j !in s.store.refresh && GracePair(s.store, j).None?
    && forall p :: 0 <= p < |s.tasks| && s.tasks[p].c.jti == j ==>
         !Rotating(s.tasks[p]) && (PairOf(s.tasks[p]).Some? ==> s.tasks[p].stage.Returned?)
  }

  ghost predicate NoNewPair(s: State, s': State, j: Jti) {
    && |s.tasks| <= |s'.tasks|
    && forall p :: 0 <= p < |s'.tasks| && s'.tasks[p].c.jti == j && PairOf(s'.tasks[p]).Some? ==>
         p < |s.tasks| && s'.tasks[p] == s.tasks[p]
  }

  lemma QuietStep(s: State, a: Action, j: Jti)
    requires Fits(s) && Quiet(s, j) && Enabled(s, a)
    ensures Quiet(Apply(s, a), j)
    ensures var s' := Apply(s, a);
            NoNewPair(s, s', j)
  {
    if a.Go? {
      assert TaskFits(s.issued, s.tasks[a.p]);
    }
  }

  lemma {:induction false} QuietForever(s: State, run: seq<Action>, j: Jti)
    requires Sound(s) && Quiet(s, j) && Possible(s, run)
    ensures var s' := After(s, run);
            NoNewPair(s, s', j)
    decreases |run|
  {
    if run != [] {
      QuietStep(s, run[0], j);
      FitsStep(s, run[0]);
      RunStep(s, run[0]);
      QuietForever(Apply(s, run[0]), run[1..], j);
    }
  }

  /**
   A second use that finds nothing to consume deletes the stored pair.  If no rotation of the token is under
   way at that moment, nobody who does not have the pair yet will ever get it, grace window or not.
   */
  lemma ReplayNeedsOverlap(s: State, p: nat, run: seq<Action>)
    requires Sound(s) && p < |s.tasks| && s.tasks[p].RefreshTask? && s.tasks[p].stage.Missed?
    requires var j := s.tasks[p].c.jti;
             j !in s.store.refresh && forall q :: 0 <= q < |s.tasks| && s.tasks[q].c.jti == j ==>
               !Rotating(s.tasks[q]) && (PairOf(s.tasks[q]).Some? ==> s.tasks[q].stage.Returned?)
    requires Possible(s, [Go(p, 0, 0, 0)] + run)
    ensures var s' := After(s, [Go(p, 0, 0, 0)] + run);
            NoNewPair(s, s', s.tasks[p].c.jti)
  {
    var a := Go(p, 0, 0, 0);
    var s1 := Apply(s, a);
    assert ([a] + run)[0] == a && ([a] + run)[1..] == run;
    assert TaskFits(s.issued, s.tasks[p]);
    assert Quiet(s1, s.tasks[p].c.jti);
    FitsStep(s, a);
    RunStep(s, a);
    QuietForever(s1, run, s.tasks[p].c.jti);
  }

  /** A use that finds nothing to consume, undisturbed, revokes the live family of its token. */
  lemma ReplayRevokes(s: State, q: nat, c: Claims, f: Family) returns (run: seq<Action>)
    requires q < |s.tasks| && s.tasks[q] == RefreshTask(c, Start) && c.jti !in s.store.refresh
    requires c.family == Some(f) && f in s.store.families
    ensures Possible(s, run)
    ensures var s' := After(s, run);
            && f !in s'.store.families
            && s'.tasks == s.tasks[q := RefreshTask(c, Failed(Reused))]
  {
    var go := Go(q, 0, 0, 0);
    var s2 := Apply(s, go);
    assert s2.tasks == s.tasks[q := RefreshTask(c, Missed)];
    var s3 := Apply(s2, go);
    assert s3.tasks == s.tasks[q := RefreshTask(c, Polling(0))] && c.jti !in s3.store.grace;
    var s4 := Apply(s3, go);
    assert s4.tasks == s.tasks[q := RefreshTask(c, NoGrace)];
    var s5 := Apply(s4, go);
    assert s5.tasks == s.tasks[q := RefreshTask(c, Reuse)];
    var s6 := Apply(s5, go);
    assert s6.tasks == s.tasks[q := RefreshTask(c, Failed(Reused))] && f !in s6.store.families;
    hide Apply, GoTask;
    assert Possible(s6, []);
    Before(s5, go, []);
    Before(s4, go, [go] + []);
    Before(s3, go, [go] + ([go] + []));
    Before(s2, go, [go] + ([go] + ([go] + [])));
    Before(s, go, [go] + ([go] + ([go] + ([go] + []))));
    run := [go] + ([go] + ([go] + ([go] + ([go] + []))));
  }

  /** Two uses of a stored token at once can both fail and take the session with them. */
  lemma BurstCanFail(s: State, p: nat, q: nat, c: Claims, f: Family) returns (run: seq<Action>)
    requires p < |s.tasks| && q < |s.tasks| && p != q
    requires s.tasks[p] == RefreshTask(c, Start) && s.tasks[q] == RefreshTask(c, Start)
    requires c.jti in s.store.refresh && s.store.refresh[c.jti] == EntryOf(c) && c.family == Some(f)
    requires f in s.store.families
    ensures Possible(s, run)
    ensures var s' := After(s, run);
            && f !in s'.store.families
            && |s'.tasks| == |s.tasks|
            && s'.tasks[p] == RefreshTask(c, Failed(Revoked)) && s'.tasks[q] == RefreshTask(c, Failed(Reused))
  {
    var go := Go(p, 0, 0, 0);
    var s1 := Apply(s, go);
    assert s1.tasks[p] == RefreshTask(c, Consumed(EntryOf(c))) && s1.tasks[q] == s.tasks[q];
    var middle := ReplayRevokes(s1, q, c, f);
    var s6 := After(s1, middle);
    var s7 := Apply(s6, go);
    assert s7.tasks[p] == RefreshTask(c, Failed(Revoked)) && s7.tasks[q] == s6.tasks[q];
    assert Possible(s7, []);
    Before(s6, go, []);
    Follow(s1, middle, [go] + []);
    Before(s, go, middle + ([go] + []));
    run := [go] + (middle + ([go] + []));
  }

  lemma {:induction false} Follow(s: State, first: seq<Action>, second: seq<Action>)
    requires Possible(s, first) && Possible(After(s, first), second)
    ensures Possible(s, first + second) && After(s, first + second) == After(After(s, first), second)
    decreases |first|
  {
    if first == [] {
      assert first + second == second;
    } else {
      assert (first + second)[1..] == first[1..] + second;
      Follow(Apply(s, first[0]), first[1..], second);
    }
  }
}
