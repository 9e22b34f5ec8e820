/**
 * Refresh-token rotation: `issue_tokens`, `rotate_refresh` and `logout` of
 * backend/app/services/auth_service.py over `RefreshTokenRepo` of
 * backend/app/db/repositories.py. A token stands for its hash; times are plain numbers. A rotation is
 * several database calls with waits between them, so rotations interleave with each other and with everything else.
 */
module RefreshTokens {
  import opened Common

  /** `chain` numbers the login a token descends from; the program does not store it, the properties speak of it. */
  datatype Row = Row(user: string, revokedAt: Option<nat>, chain: nat)

  type Table = map<string, Row>

  predicate Live(rows: Table, token: string) {
    token in rows && rows[token].revokedAt.None?
  }

  predicate Revoked(rows: Table, token: string) {
    token in rows && rows[token].revokedAt.Some?
  }

  /** `UPDATE ... SET revoked_at WHERE id = ? AND revoked_at IS NULL`. */
  function Revoke(rows: Table, token: string, now: nat): Table {
    if Live(rows, token) then rows[token := rows[token].(revokedAt := Some(now))] else rows
  }

  /** The same for every token of a user. */
  function RevokeUser(rows: Table, user: string, now: nat): Table {
    map t | t in rows ::
      if rows[t].user == user && rows[t].revokedAt.None? then rows[t].(revokedAt := Some(now)) else rows[t]
  }

  /** A fresh token starts a new chain. */
  function Issued(rows: Table, user: string, token: string, chain: nat): Table {
    rows[token := Row(user, None, chain)]
  }

  /** The new token of a rotation belongs to the old one's user and chain. */
  function Replaced(rows: Table, token: string, next: string): Table
    requires token in rows
  {
    rows[next := Row(rows[token].user, None, rows[token].chain)]
  }

  /**
   * How far a rotation has come: the row was found in order and its user comes next, the presented token is revoked
   * and the new one comes next, a revoked row was found and its user's tokens come next, or it has its answer.
   */
  datatype Work = Judged(token: string) | Minting(token: string) | Striking(user: string) | Over

  /** What the lookup says of a presented token. */
  function Looked(rows: Table, token: string, expired: bool): Work {
    if token !in rows then Over
    else if rows[token].revokedAt.Some? then Striking(rows[token].user)
    else if expired then Over
    else Judged(token)
  }

  /** A whole rotation with nothing in between. */
  function Rotate(rows: Table, token: string, next: string, now: nat, expired: bool, userOk: bool): Table {
    match Looked(rows, token, expired)
    case Striking(user) => RevokeUser(rows, user, now)
    case Judged(_) => if userOk then Replaced(Revoke(rows, token, now), token, next) else rows
    case _ => rows
  }

  /** The token table, how many logins there have been, and the rotations, each by its place. */
  datatype Server = Server(rows: Table, logins: nat, works: seq<Work>)

  const NEW_SERVER := Server(map[], 0, [])

  datatype Action =
    | Login(user: string, token: string)
    | Present(token: string, expired: bool)   // a rotation looks its token up
    | RevokeOld(k: nat, now: nat)             // ... its user is in order: the token is revoked
    | Mint(k: nat, next: string)              // ... the new one is stored
    | Strike(k: nat, now: nat)                // ... or the user's tokens are revoked
    | Drop(k: nat)                            // ... or it ends early: no such user, or the request dies
    | Logout(token: string, now: nat)         // what its lookup finds is still so at the revocation

  /** Fresh tokens really are fresh; anything else may be presented at any time. */
  predicate Enabled(s: Server, a: Action) {
    match a
    case Login(_, token) => token !in s.rows
    case RevokeOld(k, _) => k < |s.works| && s.works[k].Judged?
    case Mint(k, next) => k < |s.works| && s.works[k].Minting? && s.works[k].token in s.rows && next !in s.rows
    case Strike(k, _) => k < |s.works| && s.works[k].Striking?
    case Drop(k) => k < |s.works|
    case _ => true
  }

  function Effect(s: Server, a: Action): Server
    requires Enabled(s, a)
  {
    match a
    case Login(user, token) => s.(rows := Issued(s.rows, user, token, s.logins), logins := s.logins + 1)
    case Present(token, expired) => s.(works := s.works + [Looked(s.rows, token, expired)])
    case RevokeOld(k, now) =>
      s.(rows := Revoke(s.rows, s.works[k].token, now), works := s.works[k := Minting(s.works[k].token)])
    case Mint(k, next) => s.(rows := Replaced(s.rows, s.works[k].token, next), works := s.works[k := Over])
    case Strike(k, now) => s.(rows := RevokeUser(s.rows, s.works[k].user, now), works := s.works[k := Over])
    case Drop(k) => s.(works := s.works[k := Over])
    case Logout(token, now) => s.(rows := Revoke(s.rows, token, now))
  }

  function Next(s: Server, a: Action): Server {
    if Enabled(s, a) then Effect(s, a) else s
  }

  function Run(s: Server, actions: seq<Action>): Server
    decreases |actions|
  {
    if actions == [] then s else Next(Run(s, actions[..|actions| - 1]), actions[|actions| - 1])
  }

  // ----- the service object -------------------------------------------------------------------

  class AuthService {
    var rows: Table
    var logins: nat
    var works: seq<Work>

    ghost function View(): Server
      reads this
    {
      Server(rows, logins, works)
    }

    constructor ()
      ensures View() == NEW_SERVER
    {
      rows, logins, works := map[], 0, [];
    }

    /** A login: a fresh token starts a new chain. */
    method IssueTokens(user: string, token: string)
      requires token !in rows
      modifies this
      ensures View() == Effect(old(View()), Login(user, token))
    {
      rows := rows[token := Row(user, None, logins)];
      logins := logins + 1;
    }

    /** `get_by_hash` and the tests on the row. */
    method LookUp(token: string, expired: bool) returns (k: nat)
      modifies this
      ensures View() == Effect(old(View()), Present(token, expired)) && k == |old(works)|
      ensures works[k].Judged? <==> token in rows && rows[token].revokedAt.None? && !expired
      ensures works[k].Striking? <==> token in rows && rows[token].revokedAt.Some?
    {
      k := |works|;
      if token !in rows {
        works := works + [Over];
        return;
      }
      var row := rows[token];
      if row.revokedAt.Some? {
        works := works + [Striking(row.user)];
      } else if expired {
        works := works + [Over];
      } else {
        works := works + [Judged(token)];
      }
    }

    method RevokePresented(k: nat, now: nat)
      requires Enabled(View(), RevokeOld(k, now))
      modifies this
      ensures View() == Effect(old(View()), RevokeOld(k, now))
    {
      var token := works[k].token;
      if token in rows && rows[token].revokedAt.None? {
        rows := rows[token := rows[token].(revokedAt := Some(now))];
      }
      works := works[k := Minting(token)];
    }

    method StoreNext(k: nat, next: string)
      requires Enabled(View(), Mint(k, next))
      modifies this
      ensures View() == Effect(old(View()), Mint(k, next))
    {
      var row := rows[works[k].token];
      rows := rows[next := Row(row.user, None, row.chain)];
      works := works[k := Over];
    }

    method RevokeFamily(k: nat, now: nat)
      requires Enabled(View(), Strike(k, now))
      modifies this
      ensures View() == Effect(old(View()), Strike(k, now))
    {
      RevokeAllForUser(works[k].user, now);
      works := works[k := Over];
    }

    /** `rotate_refresh`, when nothing comes between its database calls. */
    method RotateRefresh(token: string, next: string, now: nat, expired: bool, userOk: bool) returns (minted: Option<string>)
      requires next !in rows
      modifies this
      ensures rows == Rotate(old(rows), token, next, now, expired, userOk) && logins == old(logins)
      ensures minted == if token in old(rows) && old(rows)[token].revokedAt.None? && !expired && userOk then Some(next) else None
      ensures minted.Some? ==> rows == old(rows)[token := Row(old(rows)[token].user, Some(now), old(rows)[token].chain)]
                                                [next := Row(old(rows)[token].user, None, old(rows)[token].chain)]
      ensures minted.None? && (token !in old(rows) || old(rows)[token].revokedAt.None?) ==> rows == old(rows)
    {
      var k := LookUp(token, expired);
      minted := None;
      if works[k].Striking? {
        RevokeFamily(k, now);
      } else if works[k].Judged? && userOk {
        RevokePresented(k, now);
        StoreNext(k, next);
        minted := Some(next);
      }
    }

    method RevokeAllForUser(user: string, now: nat)
      modifies this`rows
      ensures rows == RevokeUser(old(rows), user, now)
    {
      var todo := rows.Keys;
      ghost var before := rows;
      while todo != {}
        invariant rows.Keys == before.Keys && todo <= before.Keys
        invariant forall t :: t in todo ==> rows[t] == before[t]
        invariant forall t :: t in before && t !in todo ==> rows[t] == RevokeUser(before, user, now)[t]
        decreases |todo|
      {
        var t :| t in todo;
        if rows[t].user == user && rows[t].revokedAt.None? {
          rows := rows[t := rows[t].(revokedAt := Some(now))];
        }
        todo := todo - {t};
      }
      assert rows == RevokeUser(before, user, now);
    }

    method LogOut(token: string, now: nat)
      modifies this
      ensures View() == Effect(old(View()), Logout(token, now))
    {
      if token in rows && rows[token].revokedAt.None? {
        rows := rows[token := rows[token].(revokedAt := Some(now))];
      }
    }
  }

  // ----- what the table keeps, in every history ------------------------------------------------------

  /** Each chain belongs to one user. */
  ghost predicate Owned(rows: Table, logins: nat) {
    && (forall t :: t in rows ==> rows[t].chain < logins)
    && (forall t, u :: t in rows && u in rows && rows[t].chain == rows[u].chain ==> rows[t].user == rows[u].user)
  }

  /** Rotations work on known tokens. */
  ghost predicate WorksKnown(rows: Table, works: seq<Work>) {
    forall k :: 0 <= k < |works| && (works[k].Judged? || works[k].Minting?) ==> works[k].token in rows
  }

  ghost predicate OwnersOk(s: Server) {
    Owned(s.rows, s.logins) && WorksKnown(s.rows, s.works)
  }

  /** Once revoked, a token stays revoked, with the time it was first given. */
  ghost predicate StampsKept(before: Table, after: Table) {
    forall t :: t in before ==>
      && t in after
      && after[t].user == before[t].user && after[t].chain == before[t].chain
      && (before[t].revokedAt.Some? ==> after[t].revokedAt == before[t].revokedAt)
  }

  lemma RevokeOwned(rows: Table, logins: nat, token: string, now: nat)
    requires Owned(rows, logins)
    ensures Owned(Revoke(rows, token, now), logins) && StampsKept(rows, Revoke(rows, token, now))
  {
  }

  lemma RevokeUserOwned(rows: Table, logins: nat, user: string, now: nat)
    requires Owned(rows, logins)
    ensures Owned(RevokeUser(rows, user, now), logins) && StampsKept(rows, RevokeUser(rows, user, now))
  {
  }

  lemma IssuedOwned(rows: Table, logins: nat, user: string, token: string)
    requires Owned(rows, logins) && token !in rows
    ensures Owned(Issued(rows, user, token, logins), logins + 1) && StampsKept(rows, Issued(rows, user, token, logins))
  {
  }

  lemma ReplacedOwned(rows: Table, logins: nat, token: string, next: string)
    requires Owned(rows, logins) && token in rows && next !in rows
    ensures Owned(Replaced(rows, token, next), logins) && StampsKept(rows, Replaced(rows, token, next))
  {
  }

  /** A table that lost no row still knows all the rotations work on. */
  lemma StillKnown(before: Table, after: Table, works: seq<Work>, more: seq<Work>)
    requires WorksKnown(before, works) && StampsKept(before, after)
    requires forall k :: 0 <= k < |more| ==>
               (k < |works| && more[k] == works[k]) || !(more[k].Judged? || more[k].Minting?) || more[k].token in after
    ensures WorksKnown(after, more)
  {
  }

  lemma NextOwners(s: Server, a: Action)
    requires OwnersOk(s)
    ensures OwnersOk(Next(s, a)) && StampsKept(s.rows, Next(s, a).rows)
  {
    hide Owned, StampsKept, Revoke, RevokeUser, Issued, Replaced;
    SameStamps(s.rows);
    if Enabled(s, a) {
      match a {
        case Login(user, token) => IssuedOwned(s.rows, s.logins, user, token);
        case RevokeOld(k, now) =>
          RevokeOwned(s.rows, s.logins, s.works[k].token, now);
          KeepsRows(s.rows, Revoke(s.rows, s.works[k].token, now), s.works[k].token);
        case Mint(k, next) => ReplacedOwned(s.rows, s.logins, s.works[k].token, next);
        case Strike(k, now) => RevokeUserOwned(s.rows, s.logins, s.works[k].user, now);
        case Logout(token, now) => RevokeOwned(s.rows, s.logins, token, now);
        case _ =>
      }
      var t := Effect(s, a);
      StillKnown(s.rows, t.rows, s.works, t.works);
    }
  }

  lemma KeepsRows(before: Table, after: Table, token: string)
    requires StampsKept(before, after) && token in before
    ensures token in after
  {
  }

  lemma StampsCompose(a: Table, b: Table, c: Table)
    requires StampsKept(a, b) && StampsKept(b, c)
    ensures StampsKept(a, c)
  {
  }

  lemma SameStamps(rows: Table)
    ensures StampsKept(rows, rows)
  {
  }

  lemma {:induction false} RunOwners(s: Server, actions: seq<Action>)
    requires OwnersOk(s)
    ensures OwnersOk(Run(s, actions)) && StampsKept(s.rows, Run(s, actions).rows)
    decreases |actions|
  {
    hide OwnersOk, Next, StampsKept;
    SameStamps(s.rows);
    if actions != [] {
      var mid := Run(s, actions[..|actions| - 1]);
      RunOwners(s, actions[..|actions| - 1]);
      NextOwners(mid, actions[|actions| - 1]);
      StampsCompose(s.rows, mid.rows, Run(s, actions).rows);
    }
  }

  lemma {:induction false} RunAppend(s: Server, a: seq<Action>, b: seq<Action>)
    ensures Run(s, a + b) == Run(Run(s, a), b)
    decreases |b|
  {
    hide Next;
    if b == [] {
      assert a + b == a;
    } else {
      var n := |b| - 1;
      assert (a + b)[..|a| + n] == a + b[..n];
      RunAppend(s, a, b[..n]);
    }
  }

  /** Whatever happens after it, a revocation stays, with the time it got first. */
  lemma RevocationIsFinal(before: seq<Action>, after: seq<Action>, t: string)
    requires Revoked(Run(NEW_SERVER, before).rows, t)
    ensures t in Run(NEW_SERVER, before + after).rows
    ensures Run(NEW_SERVER, before + after).rows[t].revokedAt == Run(NEW_SERVER, before).rows[t].revokedAt
  {
    RunAppend(NEW_SERVER, before, after);
    RunOwners(NEW_SERVER, before);
    RunOwners(Run(NEW_SERVER, before), after);
  }

  // ----- one session per login --------------------------------------------------------------------

  /** Rotation k is about to store a new token of this chain. */
  predicate MintsIn(s: Server, k: nat, chain: nat) {
    k < |s.works| && s.works[k].Minting? && s.works[k].token in s.rows && s.rows[s.works[k].token].chain == chain
  }

  predicate LiveIn(rows: Table, t: string, chain: nat) {
    Live(rows, t) && rows[t].chain == chain
  }

  /** A chain has one unrevoked token, or one about to be stored, or none. */
  ghost predicate ChainSingle(s: Server, chain: nat) {
    && (forall t, u :: LiveIn(s.rows, t, chain) && LiveIn(s.rows, u, chain) ==> t == u)
    && (forall j: nat, k: nat :: MintsIn(s, j, chain) && MintsIn(s, k, chain) ==> j == k)
    && (forall t, k: nat :: LiveIn(s.rows, t, chain) ==> !MintsIn(s, k, chain))
  }

  ghost predicate OneSession(s: Server) {
    forall chain :: ChainSingle(s, chain)
  }

  /** The chain has an unrevoked token, or one about to be stored. */
  ghost predicate Alive(s: Server, chain: nat) {
    (exists t :: LiveIn(s.rows, t, chain)) || (exists k: nat :: MintsIn(s, k, chain))
  }

  /** A rotation goes on with a token revoked since it was looked up, while its chain is alive without it. */
  ghost predicate Races(s: Server, a: Action) {
    && a.RevokeOld? && Enabled(s, a)
    && Revoked(s.rows, s.works[a.k].token) && Alive(s, s.rows[s.works[a.k].token].chain)
  }

  /** Tables and rotations that only lose unrevoked tokens and new tokens to come. */
  lemma FewerStaySingle(s: Server, t: Server)
    requires OneSession(s)
    requires forall x, chain :: LiveIn(t.rows, x, chain) ==> LiveIn(s.rows, x, chain)
    requires forall k: nat, chain :: MintsIn(t, k, chain) ==> MintsIn(s, k, chain)
    ensures OneSession(t)
  {
    hide LiveIn, MintsIn;
    forall chain
      ensures ChainSingle(t, chain)
    {
      assert ChainSingle(s, chain);
    }
  }

  lemma LoginSession(s: Server, user: string, token: string)
    requires OwnersOk(s) && OneSession(s) && token !in s.rows
    ensures OneSession(Effect(s, Login(user, token)))
  {
    var t := Effect(s, Login(user, token));
    forall chain
      ensures ChainSingle(t, chain)
    {
      assert ChainSingle(s, chain);
      assert forall x :: LiveIn(t.rows, x, chain) ==> if chain == s.logins then x == token else LiveIn(s.rows, x, chain);
      assert forall k: nat :: MintsIn(t, k, chain) ==> MintsIn(s, k, chain) && chain != s.logins;
      hide LiveIn, MintsIn;
    }
  }

  lemma MintSession(s: Server, k: nat, next: string)
    requires OwnersOk(s) && OneSession(s) && Enabled(s, Mint(k, next))
    ensures OneSession(Effect(s, Mint(k, next)))
  {
    var t := Effect(s, Mint(k, next));
    var own := s.rows[s.works[k].token].chain;
    assert MintsIn(s, k, own);
    forall chain
      ensures ChainSingle(t, chain)
    {
      assert ChainSingle(s, chain);
      assert forall x :: LiveIn(t.rows, x, chain) ==> (x == next && chain == own) || LiveIn(s.rows, x, chain);
      assert forall j: nat :: MintsIn(t, j, chain) ==> MintsIn(s, j, chain) && j != k;
      hide LiveIn, MintsIn;
    }
  }

  lemma RevokeSession(s: Server, k: nat, now: nat)
    requires OwnersOk(s) && OneSession(s) && Enabled(s, RevokeOld(k, now))
    ensures OneSession(Effect(s, RevokeOld(k, now))) <==> !Races(s, RevokeOld(k, now))
  {
    var t, token := Effect(s, RevokeOld(k, now)), s.works[k].token;
    var own := s.rows[token].chain;
    forall chain
      ensures forall x :: LiveIn(t.rows, x, chain) <==> LiveIn(s.rows, x, chain) && x != token
      ensures forall j: nat :: MintsIn(t, j, chain) <==> MintsIn(s, j, chain) || (j == k && chain == own)
      ensures !MintsIn(s, k, chain)
    {
    }
    assert Live(s.rows, token) <==> LiveIn(s.rows, token, own);
    hide Effect, Enabled, Revoke, LiveIn, MintsIn;
    RevokeSessionFacts(s, t, token, k, own);
  }

  lemma RevokeSessionFacts(s: Server, t: Server, token: string, k: nat, own: nat)
    requires OneSession(s)
    requires forall chain, x :: LiveIn(t.rows, x, chain) <==> LiveIn(s.rows, x, chain) && x != token
    requires forall chain, j: nat :: MintsIn(t, j, chain) <==> MintsIn(s, j, chain) || (j == k && chain == own)
    requires forall chain :: !MintsIn(s, k, chain)
    ensures OneSession(t) <==> LiveIn(s.rows, token, own) || !Alive(s, own)
  {
    hide LiveIn, MintsIn;
    assert ChainSingle(s, own);
    if LiveIn(s.rows, token, own) || !Alive(s, own) {
      forall chain
        ensures ChainSingle(t, chain)
      {
        assert ChainSingle(s, chain);
      }
    } else {
      assert MintsIn(t, k, own);
      if x :| LiveIn(s.rows, x, own) {
        assert LiveIn(t.rows, x, own);
      } else {
        var j: nat :| MintsIn(s, j, own);
        assert MintsIn(t, j, own) && j != k;
      }
      assert !ChainSingle(t, own);
    }
  }

  /** One session per login survives a step if and only if the step is no race. */
  lemma NextSession(s: Server, a: Action)
    requires OwnersOk(s) && OneSession(s)
    ensures OneSession(Next(s, a)) <==> !Races(s, a)
  {
    if Enabled(s, a) {
      match a
      case Login(user, token) => LoginSession(s, user, token);
      case RevokeOld(k, now) => RevokeSession(s, k, now);
      case Mint(k, next) => MintSession(s, k, next);
      case _ =>
        var t := Effect(s, a);
        assert forall x, chain :: LiveIn(t.rows, x, chain) ==> LiveIn(s.rows, x, chain);
        assert forall k: nat, chain :: MintsIn(t, k, chain) ==> MintsIn(s, k, chain);
        FewerStaySingle(s, t);
    }
  }

  ghost predicate SingleUpTo(actions: seq<Action>, i: nat)
    requires i <= |actions|
  {
    OneSession(Run(NEW_SERVER, actions[..i]))
  }

  ghost predicate RaceAt(actions: seq<Action>, i: nat)
    requires i < |actions|
  {
    Races(Run(NEW_SERVER, actions[..i]), actions[i])
  }

  lemma NewSingle()
    ensures OwnersOk(NEW_SERVER) && OneSession(NEW_SERVER)
  {
  }

  /**
   * Over every history of logins, logouts and rotations that overlap in whatever way: each login keeps a single
   * session at all times if and only if no rotation ever goes on with a token revoked since it was looked up while
   * the login's chain is alive without it.
   */
  lemma {:induction false} OneSessionIff(actions: seq<Action>)
    ensures (forall i :: 0 <= i <= |actions| ==> SingleUpTo(actions, i)) <==> (forall i :: 0 <= i < |actions| ==> !RaceAt(actions, i))
  {
    hide Next, OneSession, Races, OwnersOk;
    NewSingle();
    if actions == [] {
      assert actions[..0] == [];
    } else {
      var n := |actions| - 1;
      var init := actions[..n];
      OneSessionIff(init);
      RunOwners(NEW_SERVER, init);
      assert forall i :: 0 <= i <= n ==> init[..i] == actions[..i];
      assert forall i :: 0 <= i < n ==> RaceAt(actions, i) == RaceAt(init, i);
      assert forall i :: 0 <= i <= n ==> SingleUpTo(actions, i) == SingleUpTo(init, i);
      assert actions[..|actions|] == actions && init[..n] == init;
      if OneSession(Run(NEW_SERVER, init)) {
        NextSession(Run(NEW_SERVER, init), actions[n]);
      }
      assert SingleUpTo(actions, n) == OneSession(Run(NEW_SERVER, init));
      assert SingleUpTo(actions, |actions|) == OneSession(Next(Run(NEW_SERVER, init), actions[n]));
      assert RaceAt(actions, n) == Races(Run(NEW_SERVER, init), actions[n]);
    }
  }

  /** In every history without such a race a login's chain has one owner and at most one unrevoked token. */
  lemma OneLiveTokenPerChain(actions: seq<Action>, t: string, u: string)
    requires var rows := Run(NEW_SERVER, actions).rows;
             t in rows && u in rows && rows[t].chain == rows[u].chain
    ensures var rows := Run(NEW_SERVER, actions).rows;
            rows[t].user == rows[u].user
    ensures var rows := Run(NEW_SERVER, actions).rows;
            Live(rows, t) && Live(rows, u) && t != u ==> exists i :: 0 <= i < |actions| && RaceAt(actions, i)
  {
    NewSingle();
    RunOwners(NEW_SERVER, actions);
    OneSessionIff(actions);
    var s := Run(NEW_SERVER, actions);
    hide Run, Races;
    if Live(s.rows, t) && Live(s.rows, u) && t != u {
      var chain := s.rows[t].chain;
      assert LiveIn(s.rows, t, chain) && LiveIn(s.rows, u, chain);
      assert !ChainSingle(s, chain);
      assert actions[..|actions|] == actions;
      assert !SingleUpTo(actions, |actions|);
    }
  }

  lemma RunOne(s: Server, a: Action)
    ensures Run(s, [a]) == Next(s, a)
  {
    assert [a][..0] == [];
  }

  lemma RunTwo(s: Server, a: Action, b: Action)
    ensures Run(s, [a, b]) == Next(Next(s, a), b)
  {
    hide Next;
    assert [a, b][..1] == [a];
    RunOne(s, a);
  }

  /** And a race does break it: as soon as the rotations store their tokens the chain has two. */
  lemma RaceMakesTwo(s: Server, a: Action, x: string, y: string) returns (actions: seq<Action>)
    requires OwnersOk(s) && OneSession(s) && Races(s, a) && x !in s.rows && y !in s.rows && x != y
    ensures var rows, chain := Run(Next(s, a), actions).rows, s.rows[s.works[a.k].token].chain;
            exists t, u :: t != u && LiveIn(rows, t, chain) && LiveIn(rows, u, chain)
  {
    var t, token := Next(s, a), s.works[a.k].token;
    var chain := s.rows[token].chain;
    assert t.rows == s.rows && MintsIn(t, a.k, chain);
    var u := Next(t, Mint(a.k, x));
    RunOne(t, Mint(a.k, x));
    assert LiveIn(u.rows, x, chain);
    if z :| LiveIn(s.rows, z, chain) {
      actions := [Mint(a.k, x)];
      assert LiveIn(u.rows, z, chain) && z != x;
    } else {
      var j: nat :| MintsIn(s, j, chain);
      assert MintsIn(u, j, chain);
      actions := [Mint(a.k, x), Mint(j, y)];
      RunTwo(t, Mint(a.k, x), Mint(j, y));
      hide Run;
      var v := Next(u, Mint(j, y));
      assert LiveIn(v.rows, x, chain) && LiveIn(v.rows, y, chain);
    }
  }

  /** Two rotations of one token that overlap: both succeed, and the login has two sessions. */
  lemma OverlappingRotations(now: nat)
    ensures var history := [Login("u", "A"), Present("A", false), Present("A", false), RevokeOld(0, now), RevokeOld(1, now),
                            Mint(0, "B"), Mint(1, "C")];
            var rows := Run(NEW_SERVER, history).rows;
            LiveIn(rows, "B", 0) && LiveIn(rows, "C", 0)
  {
    var first, second := [Login("u", "A")] + [Present("A", false), Present("A", false)], [RevokeOld(0, now), RevokeOld(1, now)];
    assert [Login("u", "A"), Present("A", false), Present("A", false), RevokeOld(0, now), RevokeOld(1, now),
            Mint(0, "B"), Mint(1, "C")] == first + second + [Mint(0, "B"), Mint(1, "C")];
    RunAppend(NEW_SERVER, first + second, [Mint(0, "B"), Mint(1, "C")]);
    RunAppend(NEW_SERVER, first, second);
    RunAppend(NEW_SERVER, [Login("u", "A")], [Present("A", false), Present("A", false)]);
    RunOne(NEW_SERVER, Login("u", "A"));
    var s1 := Next(NEW_SERVER, Login("u", "A"));
    RunTwo(s1, Present("A", false), Present("A", false));
    var s3 := Next(Next(s1, Present("A", false)), Present("A", false));
    RunTwo(s3, RevokeOld(0, now), RevokeOld(1, now));
    var s5 := Next(Next(s3, RevokeOld(0, now)), RevokeOld(1, now));
    RunTwo(s5, Mint(0, "B"), Mint(1, "C"));
    hide Run, Next;
    TwoLookUps();
    TwoRevocations(s3, now);
    TwoMints(s5);
  }

  lemma TwoLookUps()
    ensures var s := Next(Next(Next(NEW_SERVER, Login("u", "A")), Present("A", false)), Present("A", false));
            s.rows == map["A" := Row("u", None, 0)] && s.works == [Judged("A"), Judged("A")]
  {
  }

  lemma TwoRevocations(s: Server, now: nat)
    requires s.rows == map["A" := Row("u", None, 0)] && s.works == [Judged("A"), Judged("A")]
    ensures var t := Next(Next(s, RevokeOld(0, now)), RevokeOld(1, now));
            t.rows == map["A" := Row("u", Some(now), 0)] && t.works == [Minting("A"), Minting("A")]
  {
    var t := Next(s, RevokeOld(0, now));
    assert t.rows == map["A" := Row("u", Some(now), 0)] && t.works == [Minting("A"), Judged("A")];
  }

  lemma TwoMints(s: Server)
    requires s.rows.Keys == {"A"} && s.rows["A"].chain == 0 && s.works == [Minting("A"), Minting("A")]
    ensures var rows := Next(Next(s, Mint(0, "B")), Mint(1, "C")).rows;
            LiveIn(rows, "B", 0) && LiveIn(rows, "C", 0)
  {
    var t := Next(s, Mint(0, "B"));
    assert t.rows.Keys == {"A", "B"} && t.works == [Over, Minting("A")] && LiveIn(t.rows, "B", 0);
  }

  // ----- a rotation with nothing in between ------------------------------------------------------------

  /** Looked up, revoked and stored at one go, or struck at one go, the rotation is the simple one. */
  lemma SerialIsRotate(s: Server, token: string, next: string, now: nat, expired: bool)
    requires next !in s.rows
    ensures var k, looked := |s.works|, Looked(s.rows, token, expired);
            var t := Next(s, Present(token, expired));
            && (looked.Judged? ==> Next(Next(t, RevokeOld(k, now)), Mint(k, next)).rows == Rotate(s.rows, token, next, now, expired, true))
            && (looked.Striking? ==> Next(t, Strike(k, now)).rows == Rotate(s.rows, token, next, now, expired, true))
            && (looked.Over? ==> t.rows == Rotate(s.rows, token, next, now, expired, true))
  {
    hide RevokeUser;
  }

  /**
   * The simple one stores a new token if and only if the old one is known, unrevoked and unexpired and its user is in
   * order, and then revokes the old one; a revoked token costs its user every token; else nothing changes.
   */
  lemma RotateIff(rows: Table, token: string, next: string, now: nat, expired: bool, userOk: bool)
    requires next !in rows
    ensures var after := Rotate(rows, token, next, now, expired, userOk);
            && (next in after <==> token in rows && rows[token].revokedAt.None? && !expired && userOk)
            && (next in after ==>
                  after == rows[token := Row(rows[token].user, Some(now), rows[token].chain)]
                               [next := Row(rows[token].user, None, rows[token].chain)])
            && (token in rows && rows[token].revokedAt.Some? ==>
                  forall t :: t in rows && rows[t].user == rows[token].user ==> t in after && after[t].revokedAt.Some?)
            && (next !in after && !(token in rows && rows[token].revokedAt.Some?) ==> after == rows)
  {
  }

  /** Which of a rotation's steps can come after its lookup is decided by the row and the clock, and the lookup stores nothing. */
  lemma LookUpDecides(s: Server, token: string, expired: bool, now: nat)
    ensures var k, t := |s.works|, Next(s, Present(token, expired));
            && t.rows == s.rows
            && (Enabled(t, RevokeOld(k, now)) <==> token in s.rows && s.rows[token].revokedAt.None? && !expired)
            && (Enabled(t, Strike(k, now)) <==> token in s.rows && s.rows[token].revokedAt.Some?)
            && (forall next :: !Enabled(t, Mint(k, next)))
            && (Enabled(t, RevokeOld(k, now)) ==> t.works[k].token == token)
            && (Enabled(t, Strike(k, now)) ==> t.works[k].user == s.rows[token].user)
  {
  }

  /** Tokens that a step revokes, if they are not revoked yet. */
  predicate Hits(s: Server, a: Action, t: string)
    requires Enabled(s, a) && t in s.rows
  {
    match a
    case RevokeOld(k, _) => t == s.works[k].token
    case Strike(k, _) => s.rows[t].user == s.works[k].user
    case Logout(token, _) => t == token
    case _ => false
  }

  /** What each step writes: new rows of a login and of a rotation's last step, stamps on what it revokes, no more. */
  lemma StepWrites(s: Server, a: Action)
    requires Enabled(s, a)
    ensures var rows := Next(s, a).rows;
            && (forall t :: t in rows <==> t in s.rows || (a.Login? && t == a.token) || (a.Mint? && t == a.next))
            && (a.Login? ==> rows[a.token] == Row(a.user, None, s.logins))
            && (a.Mint? ==> rows[a.next] == Row(s.rows[s.works[a.k].token].user, None, s.rows[s.works[a.k].token].chain))
            && (forall t :: t in s.rows ==>
                  rows[t] == if Hits(s, a, t) && s.rows[t].revokedAt.None? then s.rows[t].(revokedAt := Some(a.now)) else s.rows[t])
  {
    hide Looked;
  }

  /** No rotation is under way at that place. */
  predicate Closed(s: Server, k: nat) {
    k < |s.works| && !s.works[k].Judged? && !s.works[k].Minting?
  }

  lemma {:induction false} StaysClosed(s: Server, actions: seq<Action>, k: nat)
    requires Closed(s, k)
    ensures Closed(Run(s, actions), k)
    decreases |actions|
  {
    if actions != [] {
      StaysClosed(s, actions[..|actions| - 1], k);
      hide Revoke, RevokeUser, Issued, Replaced, Looked;
    }
  }

  /** Over every history: what is presented expired, unknown or revoked is never exchanged, whatever comes after. */
  lemma NeverExchanged(before: seq<Action>, token: string, expired: bool, after: seq<Action>)
    requires var rows := Run(NEW_SERVER, before).rows;
             expired || token !in rows || rows[token].revokedAt.Some?
    ensures Closed(Run(NEW_SERVER, before + [Present(token, expired)] + after), |Run(NEW_SERVER, before).works|)
  {
    var s, a := Run(NEW_SERVER, before), Present(token, expired);
    RunAppend(NEW_SERVER, before, [a]);
    RunOne(s, a);
    RunAppend(NEW_SERVER, before + [a], after);
    StaysClosed(Next(s, a), after, |s.works|);
  }

  // ----- a theft signs the user out ----------------------------------------------------------------------

  /** The user has no unrevoked token. */
  ghost predicate SignedOut(rows: Table, user: string) {
    forall t :: t in rows && rows[t].user == user ==> rows[t].revokedAt.Some?
  }

  /** Rotation k is past its lookup with a token of the user's. */
  predicate OpenFor(s: Server, k: nat, user: string) {
    && k < |s.works| && (s.works[k].Judged? || s.works[k].Minting?)
    && s.works[k].token in s.rows && s.rows[s.works[k].token].user == user
  }

  /** No rotation is. */
  ghost predicate Quiet(s: Server, user: string) {
    forall k: nat :: !OpenFor(s, k, user)
  }

  /** None of the actions is a login of the user's. */
  predicate NoLogin(actions: seq<Action>, user: string) {
    forall a :: a in actions && a.Login? ==> a.user != user
  }

  lemma StrikeSignsOut(s: Server, a: Action)
    requires a.Strike? && Enabled(s, a)
    ensures SignedOut(Next(s, a).rows, s.works[a.k].user)
  {
  }

  /** Of all actions only a login of the user's, or the last step of a rotation of the user's, signs in again. */
  lemma SignedOutNext(s: Server, a: Action, user: string)
    requires OwnersOk(s) && SignedOut(s.rows, user)
    ensures SignedOut(Next(s, a).rows, user)
            <==> !(Enabled(s, a) && ((a.Login? && a.user == user) || (a.Mint? && OpenFor(s, a.k, user))))
  {
    if Enabled(s, a) {
      var rows := Next(s, a).rows;
      if a.Login? {
        assert Live(rows, a.token) && rows[a.token].user == a.user;
      } else if a.Mint? {
        assert Live(rows, a.next) && rows[a.next].user == s.rows[s.works[a.k].token].user;
      }
    }
  }

  /** Once signed out, a user without an open rotation gets none. */
  lemma QuietNext(s: Server, a: Action, user: string)
    requires OwnersOk(s) && SignedOut(s.rows, user) && Quiet(s, user) && (a.Login? ==> a.user != user)
    ensures SignedOut(Next(s, a).rows, user) && Quiet(Next(s, a), user)
  {
    SignedOutNext(s, a, user);
    var t := Next(s, a);
    forall k: nat
      ensures !OpenFor(t, k, user)
    {
      assert !OpenFor(s, k, user);
    }
  }

  lemma {:induction false} StaysQuiet(s: Server, user: string, actions: seq<Action>)
    requires OwnersOk(s) && SignedOut(s.rows, user) && Quiet(s, user)
    requires NoLogin(actions, user)
    ensures SignedOut(Run(s, actions).rows, user) && Quiet(Run(s, actions), user)
    decreases |actions|
  {
    hide Next, OwnersOk, SignedOut, Quiet;
    if actions != [] {
      var init := actions[..|actions| - 1];
      assert forall a :: a in init ==> a in actions;
      StaysQuiet(s, user, init);
      RunOwners(s, init);
      QuietNext(Run(s, init), actions[|actions| - 1], user);
    }
  }

  /** A rotation open at that moment can still be completed. */
  lemma CompletesAnyway(s: Server, k: nat, user: string, next: string, now: nat) returns (actions: seq<Action>)
    requires OpenFor(s, k, user) && next !in s.rows
    ensures NoLogin(actions, user) && !SignedOut(Run(s, actions).rows, user)
  {
    if s.works[k].Minting? {
      actions := [Mint(k, next)];
      RunOne(s, Mint(k, next));
    } else {
      actions := [RevokeOld(k, now), Mint(k, next)];
      RunTwo(s, RevokeOld(k, now), Mint(k, next));
    }
    hide Run;
    var rows := Run(s, actions).rows;
    assert next in rows && rows[next].user == user && rows[next].revokedAt.None?;
  }

  /**
   * Presenting a revoked token signs its user out everywhere; and whatever follows short of the user's next login
   * leaves it so if and only if, at that moment, no rotation of the user's was past its lookup.
   */
  lemma ReuseSignsOut(before: seq<Action>, strike: Action, unused: string)
    requires var s := Run(NEW_SERVER, before);
             strike.Strike? && Enabled(s, strike) && unused !in s.rows
    ensures var s := Run(NEW_SERVER, before);
            var user, t := s.works[strike.k].user, Run(NEW_SERVER, before + [strike]);
            && SignedOut(t.rows, user)
            && ((forall after :: NoLogin(after, user) ==> SignedOut(Run(t, after).rows, user))
                <==> Quiet(t, user))
  {
    var s := Run(NEW_SERVER, before);
    var user, t := s.works[strike.k].user, Next(s, strike);
    RunAppend(NEW_SERVER, before, [strike]);
    RunOne(s, strike);
    NewSingle();
    RunOwners(NEW_SERVER, before);
    NextOwners(s, strike);
    StrikeSignsOut(s, strike);
    assert t.rows.Keys == s.rows.Keys;
    hide Run, Next, OwnersOk, SignedOut, StampsKept;
    if Quiet(t, user) {
      forall after | NoLogin(after, user)
        ensures SignedOut(Run(t, after).rows, user)
      {
        StaysQuiet(t, user, after);
      }
    } else {
      var k: nat :| OpenFor(t, k, user);
      var after := CompletesAnyway(t, k, user, unused, 0);
      assert !SignedOut(Run(t, after).rows, user);
    }
  }
}
