/**
 Refresh-token families: the Redis store, and the refresh, verification and logout use cases on top of it.

 A use case is a task whose steps are its store calls, each atomic; several tasks run in any order.  One
 `StageStep` is one store call together with the plain code up to the next one, so running a task without
 interruption (`Alone`) and interleaving it with others (`Apply`) use the same definition.
 */
module TokenFamilies {
  import opened Wrappers

  type Jti = nat
  type Family = nat
  type Subject = nat

  datatype Kind = Access | Refresh

  /** The verified content of a token. */
  datatype Claims = Claims(jti: Jti, kind: Kind, subject: Subject, family: Option<Family>)

  datatype Pair = Pair(access: Claims, refresh: Claims)

  datatype Entry = Entry(subject: Subject, family: Option<Family>)

  datatype Grace = Rotating | Rotated(pair: Pair)

  /** The keys of the store; a missing key has expired or was deleted. */
  datatype Store = Store(
    refresh: map<Jti, Entry>,
    families: set<Family>,
    grace: map<Jti, Grace>,
    revoked: set<Jti>)

  const POLL_ATTEMPTS: nat := 30

  // ----- The store -----

  function FamilySet(family: Option<Family>): set<Family> {
    match family case Some(f) => {f} case None => {}
  }

  /** Writing a refresh token also writes the key of its family, whether or not it was there. */
  function Register(s: Store, jti: Jti, subject: Subject, ttl: int, family: Option<Family>): Store {
    if ttl <= 0 then s
    else s.(refresh := s.refresh[jti := Entry(subject, family)], families := s.families + FamilySet(family))
  }

  /** The transaction of `consume_refresh`: it marks the grace key even when there is nothing to consume. */
  function Consume(s: Store, jti: Jti): (Store, Option<Entry>) {
    (s.(refresh := s.refresh - {jti}, grace := s.grace[jti := Rotating]),
     if jti in s.refresh then Some(s.refresh[jti]) else None)
  }

  function Alive(s: Store, family: Option<Family>): bool {
    family.None? || family.value in s.families
  }

  function RevokeFamily(s: Store, family: Option<Family>): Store {
    s.(families := s.families - FamilySet(family))
  }

  class TokenStore {
    var refresh: map<Jti, Entry>
    var families: set<Family>
    var grace: map<Jti, Grace>
    var revoked: set<Jti>

    function Value(): Store
      reads this
    {
      Store(refresh, families, grace, revoked)
    }

    constructor ()
      ensures Value() == Store(map[], {}, map[], {})
    {
      refresh, families, grace, revoked := map[], {}, map[], {};
    }

    method RegisterRefresh(jti: Jti, subject: Subject, ttl: int, family: Option<Family>)
      modifies this
      ensures Value() == Register(old(Value()), jti, subject, ttl, family)
    {
      if ttl > 0 {
        refresh := refresh[jti := Entry(subject, family)];
        if family.Some? {
          families := families + {family.value};
        }
      }
    }

    method BeginConsume(jti: Jti) returns (consumed: Option<Entry>)
      modifies this
      ensures (Value(), consumed) == Consume(old(Value()), jti)
    {
      consumed := if jti in refresh then Some(refresh[jti]) else None;
      refresh := refresh - {jti};
      grace := grace[jti := Rotating];
    }

    method ClearGrace(jti: Jti)
      modifies this
      ensures Value() == old(Value()).(grace := old(Value()).grace - {jti})
    {
      grace := grace - {jti};
    }

    method StoreGrace(jti: Jti, pair: Pair)
      modifies this
      ensures Value() == old(Value()).(grace := old(Value()).grace[jti := Rotated(pair)])
    {
      grace := grace[jti := Rotated(pair)];
    }

    method DropRefresh(jti: Jti)
      modifies this
      ensures Value() == old(Value()).(refresh := old(Value()).refresh - {jti})
    {
      refresh := refresh - {jti};
    }

    method RevokeAccess(jti: Jti, ttl: int)
      modifies this
      ensures Value() == if ttl > 0 then old(Value()).(revoked := old(Value()).revoked + {jti}) else old(Value())
    {
      if ttl > 0 {
        revoked := revoked + {jti};
      }
    }

    method DropFamily(family: Option<Family>)
      modifies this
      ensures Value() == RevokeFamily(old(Value()), family)
    {
      if family.Some? {
        families := families - {family.value};
      }
    }
  }

  // ----- One refresh -----

  datatype Failure = Invalid | Revoked | Reused

  datatype Stage =
    | Start
    | Missed                              // nothing consumed; the grace mark is still to be deleted
    | Polling(attempt: nat)
    | FoundGrace(pair: Pair)
    | NoGrace
    | Reuse                               // the family is alive and about to be revoked
    | Consumed(entry: Entry)
    | Checked(family: Option<Family>)     // past the family check; the new token is still to be registered
    | Registered(pair: Pair)              // the grace pair is still to be stored
    | Returned(pair: Pair)
    | Failed(why: Failure)

  function Or(a: Option<Family>, b: Option<Family>): Option<Family> {
    if a.Some? then a else b
  }

  function NewPair(c: Claims, family: Option<Family>, ja: Jti, jr: Jti): Pair {
    Pair(Claims(ja, Access, c.subject, family), Claims(jr, Refresh, c.subject, family))
  }

  /** The next store call of a refresh of the token `c`; `ja`, `jr` and `ttl` are what the issuer would give. */
  function StageStep(s: Store, c: Claims, stage: Stage, ja: Jti, jr: Jti, ttl: int): (Store, Stage) {
    match stage
    case Start =>
      var (s', entry) := Consume(s, c.jti);
      (s', match entry case Some(e) => Consumed(e) case None => Missed)
    case Missed => (s.(grace := s.grace - {c.jti}), Polling(0))
    case Polling(n) =>
      (s,
       if c.jti !in s.grace then NoGrace
       else if s.grace[c.jti].Rotated? then FoundGrace(s.grace[c.jti].pair)
       else if n + 1 >= POLL_ATTEMPTS then NoGrace
       else Polling(n + 1))
    case FoundGrace(pair) =>
      (s, if Alive(s, Or(pair.refresh.family, c.family)) then Returned(pair) else Failed(Revoked))
    case NoGrace => (s, if c.family.Some? && Alive(s, c.family) then Reuse else Failed(Invalid))
    case Reuse => (RevokeFamily(s, c.family), Failed(Reused))
    case Consumed(e) =>
      if e.subject != c.subject then (RevokeFamily(s, c.family), Failed(Invalid))
      else if Alive(s, Or(e.family, c.family)) then (s, Checked(Or(e.family, c.family)))
      else (s, Failed(Revoked))
    case Checked(family) => (Register(s, jr, c.subject, ttl, family), Registered(NewPair(c, family, ja, jr)))
    case Registered(pair) => (s.(grace := s.grace[c.jti := Rotated(pair)]), Returned(pair))
    case Returned(_) => (s, stage)
    case Failed(_) => (s, stage)
  }

  function Rank(stage: Stage): nat {
    match stage
    case Start => POLL_ATTEMPTS + 10
    case Missed => POLL_ATTEMPTS + 9
    case Polling(n) => 4 + if n < POLL_ATTEMPTS then POLL_ATTEMPTS - n else 0
    case FoundGrace(_) => 1
    case NoGrace => 2
    case Reuse => 1
    case Consumed(_) => 3
    case Checked(_) => 2
    case Registered(_) => 1
    case Returned(_) => 0
    case Failed(_) => 0
  }

  /** A refresh that nobody interrupts. */
  function Alone(s: Store, c: Claims, stage: Stage, ja: Jti, jr: Jti, ttl: int): (Store, Stage)
    decreases Rank(stage)
  {
    if stage.Returned? || stage.Failed? then (s, stage)
    else
      var (s', stage') := StageStep(s, c, stage, ja, jr, ttl);
      Alone(s', c, stage', ja, jr, ttl)
  }

  /** One store call of a refresh. */
  method Advance(store: TokenStore, c: Claims, stage: Stage, ja: Jti, jr: Jti, ttl: int) returns (next: Stage)
    modifies store
    ensures (store.Value(), next) == StageStep(old(store.Value()), c, stage, ja, jr, ttl)
  {
    match stage
    case Start =>
      var consumed := store.BeginConsume(c.jti);
      next := if consumed.Some? then Consumed(consumed.value) else Missed;
    case Missed =>
      store.ClearGrace(c.jti);
      next := Polling(0);
    case Polling(attempt) =>
      if c.jti !in store.grace {
        next := NoGrace;
      } else if store.grace[c.jti].Rotated? {
        next := FoundGrace(store.grace[c.jti].pair);
      } else {
        next := if attempt + 1 >= POLL_ATTEMPTS then NoGrace else Polling(attempt + 1);
      }
    case FoundGrace(pair) =>
      var family := Or(pair.refresh.family, c.family);
      next := if family.Some? && family.value !in store.families then Failed(Revoked) else Returned(pair);
    case NoGrace =>
      next := if c.family.Some? && c.family.value in store.families then Reuse else Failed(Invalid);
    case Reuse =>
      store.DropFamily(c.family);
      next := Failed(Reused);
    case Consumed(entry) =>
      if entry.subject != c.subject {
        store.DropFamily(c.family);
        next := Failed(Invalid);
      } else {
        var family := Or(entry.family, c.family);
        next := if family.Some? && family.value !in store.families then Failed(Revoked) else Checked(family);
      }
    case Checked(family) =>
      store.RegisterRefresh(jr, c.subject, ttl, family);
      next := Registered(NewPair(c, family, ja, jr));
    case Registered(pair) =>
      store.StoreGrace(c.jti, pair);
      next := Returned(pair);
    case _ => next := stage;
  }

  /** `RefreshTokenPair.execute` with no other request running. */
  method RefreshTokenPair(store: TokenStore, c: Claims, ja: Jti, jr: Jti, ttl: int) returns (end: Stage)
    modifies store
    ensures (store.Value(), end) == Alone(old(store.Value()), c, Start, ja, jr, ttl)
    ensures end.Returned? || end.Failed?
  {
    end := Start;
    while !end.Returned? && !end.Failed?
      invariant Alone(store.Value(), c, end, ja, jr, ttl) == Alone(old(store.Value()), c, Start, ja, jr, ttl)
      decreases Rank(end)
    {
      AloneStep(store.Value(), c, end, ja, jr, ttl);
      end := Advance(store, c, end, ja, jr, ttl);
    }
  }

  lemma AloneStep(s: Store, c: Claims, stage: Stage, ja: Jti, jr: Jti, ttl: int)
    requires !stage.Returned? && !stage.Failed?
    ensures var (s', stage') := StageStep(s, c, stage, ja, jr, ttl);
            && Alone(s, c, stage, ja, jr, ttl) == Alone(s', c, stage', ja, jr, ttl)
            && Rank(stage') < Rank(stage)
  {
  }

  // ----- Checking an access token, and logging out -----

  predicate Accepted(s: Store, c: Claims) {
    c.jti !in s.revoked && Alive(s, c.family)
  }

  /** `VerifyAccessToken.execute` with no other request running. */
  method VerifyAccessToken(store: TokenStore, c: Claims) returns (ok: bool)
    ensures ok == Accepted(store.Value(), c)
  {
    if c.jti in store.revoked {
      return false;
    }
    if c.family.Some? && c.family.value !in store.families {
      return false;
    }
    return true;
  }

  /** What the verifier makes of a token handed in with a logout. */
  datatype Presented = Missing | Expired | Forged | Good(claims: Claims)

  datatype LogoutResult = LoggedOut | TokenExpired | TokenInvalid

  /** `RevokeSession.execute` with no other request running. */
  method RevokeSession(store: TokenStore, access: Presented, refresh: Presented, ttl: int) returns (r: LogoutResult)
    modifies store
    ensures r == if access.Forged? || refresh.Forged? then TokenInvalid
                 else if refresh.Expired? || (refresh.Missing? && access.Expired?) then TokenExpired
                 else if refresh.Missing? && access.Missing? then TokenInvalid
                 else LoggedOut
    ensures var v := store.Value();
            && v.grace == old(store.Value()).grace
            && v.families == old(store.Value()).families
               - (if access.Good? then FamilySet(access.claims.family) else {})
               - (if refresh.Good? && !access.Forged? then FamilySet(refresh.claims.family) else {})
            && v.refresh == old(store.Value()).refresh
               - (if refresh.Good? && !access.Forged? then {refresh.claims.jti} else {})
            && v.revoked == old(store.Value()).revoked
               + (if access.Good? && ttl > 0 then {access.claims.jti} else {})
    ensures access.Good? && access.claims.family.Some? ==> !Accepted(store.Value(), access.claims)
  {
    if access.Forged? {
      return TokenInvalid;
    }
    if access.Good? {
      store.RevokeAccess(access.claims.jti, ttl);
      store.DropFamily(access.claims.family);
    }
    if refresh.Good? {
      store.DropRefresh(refresh.claims.jti);
      store.DropFamily(refresh.claims.family);
      return LoggedOut;
    }
    if refresh.Forged? {
      return TokenInvalid;
    }
    if refresh.Expired? || access.Expired? {
      return TokenExpired;
    }
    return if access.Missing? then TokenInvalid else LoggedOut;
  }

  /** A first use: the old token is gone, the new one is registered and its pair returned, family and subject kept. */
  lemma FirstUseAlone(s: Store, c: Claims, ja: Jti, jr: Jti, ttl: int)
    requires c.jti in s.refresh && s.refresh[c.jti] == Entry(c.subject, c.family) && Alive(s, c.family)
    requires ttl > 0 && jr != c.jti
    ensures var (s', end) := Alone(s, c, Start, ja, jr, ttl);
            && end == Returned(NewPair(c, c.family, ja, jr))
            && s'.refresh == s.refresh - {c.jti} + map[jr := Entry(c.subject, c.family)]
            && s'.families == s.families && s'.revoked == s.revoked
            && s'.grace == s.grace[c.jti := Rotated(NewPair(c, c.family, ja, jr))]
  {
    var s1 := Consume(s, c.jti).0;
    var s2 := Register(s1, jr, c.subject, ttl, c.family);
    AloneStep(s, c, Start, ja, jr, ttl);
    AloneStep(s1, c, Consumed(s.refresh[c.jti]), ja, jr, ttl);
    AloneStep(s1, c, Checked(c.family), ja, jr, ttl);
    AloneStep(s2, c, Registered(NewPair(c, c.family, ja, jr)), ja, jr, ttl);
    assert s1.families + FamilySet(c.family) == s1.families;
  }

  /**
   A later use on its own never returns the grace pair: the consume transaction has overwritten it.  It
   revokes the family if it is alive, whatever the grace key held.
   */
  lemma ReplayAlone(s: Store, c: Claims, ja: Jti, jr: Jti, ttl: int)
    requires c.jti !in s.refresh
    ensures var (s', end) := Alone(s, c, Start, ja, jr, ttl);
            && end == Failed(if c.family.Some? && Alive(s, c.family) then Reused else Invalid)
            && s' == s.(grace := s.grace - {c.jti}, families := s.families - FamilySet(c.family))
  {
    var s1 := Consume(s, c.jti).0;
    var s2 := s1.(grace := s1.grace - {c.jti});
    assert s1.refresh == s.refresh && s2.grace == s.grace - {c.jti};
    AloneStep(s, c, Start, ja, jr, ttl);
    AloneStep(s1, c, Missed, ja, jr, ttl);
    AloneStep(s2, c, Polling(0), ja, jr, ttl);
    AloneStep(s2, c, NoGrace, ja, jr, ttl);
    if !(c.family.Some? && Alive(s, c.family)) {
      assert s.families - FamilySet(c.family) == s.families;
    }
  }
}
