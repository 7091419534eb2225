/** Refresh tokens: login, rotation with reuse detection, logout, and the families they form. */
module Auth {
  import opened Common

  datatype UserStatus = UserActive | UserSuspended | UserBlocked

  /**
   * A stored token. A raw token is identified with the index of its row: generated values are fresh, and the keyed
   * hash is injective, so a presented value finds its own row or, when it was never issued, none.
   */
  datatype Token = Token(user: nat, family: nat, expires: int, revokedAt: Option<int>)

  datatype Sessions = Sessions(users: seq<UserStatus>, tokens: seq<Token>, nextFamily: nat)

  datatype RotationOutcome = Rotated(token: nat) | Invalid | SigningFailed

  // ------------------------------------------------------------------------------------------
  // The service calls

  predicate IsAuthenticatable(s: UserStatus) {
    s == UserActive
  }

  /** `updateMany({ familyId, revokedAt: null }, { revokedAt: now })`. */
  function RevokeFamily(tokens: seq<Token>, family: nat, now: int): (r: seq<Token>)
    ensures |r| == |tokens|
    ensures forall i :: 0 <= i < |tokens| ==>
              r[i] == if tokens[i].family == family && tokens[i].revokedAt.None?
                      then tokens[i].(revokedAt := Some(now)) else tokens[i]
  {
    seq(|tokens|, i requires 0 <= i < |tokens| =>
      if tokens[i].family == family && tokens[i].revokedAt.None?
      then tokens[i].(revokedAt := Some(now)) else tokens[i])
  }

  /** The insert at the end of a login, for a user whose credentials and status were checked earlier. */
  function IssueSpec(s: Sessions, user: nat, expires: int): Sessions {
    s.(tokens := s.tokens + [Token(user, s.nextFamily, expires, None)], nextFamily := s.nextFamily + 1)
  }

  function LoginSpec(s: Sessions, user: nat, passwordMatches: bool, expires: int): (Sessions, bool) {
    if user >= |s.users| || !passwordMatches || !IsAuthenticatable(s.users[user]) then (s, false)
    else (IssueSpec(s, user, expires), true)
  }

  /** The conditional claim: the row exists, is not revoked and has not expired. */
  predicate Claimable(s: Sessions, token: nat, now: int) {
    token < |s.tokens| && s.tokens[token].revokedAt.None? && s.tokens[token].expires > now
  }

  function Revoke(s: Sessions, token: nat, now: int): Sessions
    requires token < |s.tokens|
  {
    s.(tokens := s.tokens[token := s.tokens[token].(revokedAt := Some(now))])
  }

  function RefreshSpec(s: Sessions, token: nat, now: int, expires: int, signingWorks: bool)
    : (Sessions, RotationOutcome)
  {
    if !Claimable(s, token, now) then
      if token < |s.tokens| && s.tokens[token].revokedAt.Some?
      then (s.(tokens := RevokeFamily(s.tokens, s.tokens[token].family, now)), Invalid)
      else (s, Invalid)
    else
      var record, claimed := s.tokens[token], Revoke(s, token, now);
      if record.user >= |s.users| || !IsAuthenticatable(s.users[record.user]) then (claimed, Invalid)
      else if !signingWorks then (s, SigningFailed)
      else
        (claimed.(tokens := claimed.tokens + [Token(record.user, record.family, expires, None)]),
         Rotated(|s.tokens|))
  }

  function LogoutSpec(s: Sessions, user: nat, token: nat, now: int): Sessions {
    if token >= |s.tokens| || s.tokens[token].user != user then s
    else s.(tokens := RevokeFamily(s.tokens, s.tokens[token].family, now))
  }

  class SessionStore {
    var users: seq<UserStatus>
    var tokens: seq<Token>
    var nextFamily: nat

    constructor ()
      ensures Now() == Sessions([], [], 0)
    {
      users, tokens, nextFamily := [], [], 0;
    }

    function Now(): Sessions
      reads this
    {
      Sessions(users, tokens, nextFamily)
    }

    method Login(user: nat, passwordMatches: bool, expires: int) returns (ok: bool)
      modifies this
      ensures (Now(), ok) == LoginSpec(old(Now()), user, passwordMatches, expires)
    {
      if user >= |users| || !passwordMatches {
        return false;
      }
      if !IsAuthenticatable(users[user]) {
        return false;
      }
      tokens := tokens + [Token(user, nextFamily, expires, None)];
      nextFamily := nextFamily + 1;
      ok := true;
    }

    method Refresh(token: nat, now: int, expires: int, signingWorks: bool) returns (outcome: RotationOutcome)
      modifies this
      ensures (Now(), outcome) == RefreshSpec(old(Now()), token, now, expires, signingWorks)
    {
      var start := tokens;
      if !Claimable(Now(), token, now) {
        if token < |tokens| && tokens[token].revokedAt.Some? {
          tokens := RevokeFamily(tokens, tokens[token].family, now);
        }
        return Invalid;
      }
      tokens := tokens[token := tokens[token].(revokedAt := Some(now))];
      var record := tokens[token];
      if record.user >= |users| || !IsAuthenticatable(users[record.user]) {
        return Invalid;
      }
      var issued := |tokens|;
      tokens := tokens + [Token(record.user, record.family, expires, None)];
      if !signingWorks {
        tokens := start;
        return SigningFailed;
      }
      outcome := Rotated(issued);
    }

    method Logout(user: nat, token: nat, now: int)
      modifies this
      ensures Now() == LogoutSpec(old(Now()), user, token, now)
    {
      if token >= |tokens| {
        return;
      }
      var record := tokens[token];
      if record.user != user {
        return;
      }
      tokens := RevokeFamily(tokens, record.family, now);
    }
  }

  // ------------------------------------------------------------------------------------------
  // Runs

  datatype Step =
    | Register(status: UserStatus)
    | SetStatus(user: nat, status: UserStatus)   // an administrator, outside this service
    | Issue(user: nat, expires: int)             // a login's insert, however stale its status check
    | Refresh(token: nat, now: int, expires: int, signingWorks: bool)
    | Logout(user: nat, token: nat, now: int)

  /** The sessions, and the tokens that were exchanged, one entry per successful refresh. */
  datatype World = World(s: Sessions, exchanged: seq<nat>)

  function Next(w: World, step: Step): World {
    var s := w.s;
    match step
    case Register(status) => w.(s := s.(users := s.users + [status]))
    case SetStatus(u, status) => if u < |s.users| then w.(s := s.(users := s.users[u := status])) else w
    case Issue(u, expires) => w.(s := IssueSpec(s, u, expires))
    case Refresh(t, now, expires, signing) =>
      var (after, outcome) := RefreshSpec(s, t, now, expires, signing);
      World(after, if outcome.Rotated? then w.exchanged + [t] else w.exchanged)
    case Logout(u, t, now) => w.(s := LogoutSpec(s, u, t, now))
  }

  function Run(w: World, steps: seq<Step>): World
    decreases |steps|
  {
    if steps == [] then w else Run(Next(w, steps[0]), steps[1..])
  }

  const INITIAL := World(Sessions([], [], 0), [])

  function InFamily(f: nat): Token -> int {
    (t: Token) => if t.family == f then 1 else 0
  }

  /** How many exchanges were of tokens of a family. */
  function ExchangesOf(tokens: seq<Token>, f: nat): nat -> int {
    (t: nat) => if t < |tokens| && tokens[t].family == f then 1 else 0
  }

  /** A family is a chain of one user's tokens, of which only the newest may be live. */
  ghost predicate ChainsOk(tokens: seq<Token>) {
    forall i, j :: 0 <= i < j < |tokens| && tokens[i].family == tokens[j].family ==>
      tokens[i].user == tokens[j].user && tokens[i].revokedAt.Some?
  }

  ghost predicate ExchangesOk(w: World) {
    && (forall i :: 0 <= i < |w.exchanged| ==>
          w.exchanged[i] < |w.s.tokens| && w.s.tokens[w.exchanged[i]].revokedAt.Some?)
    && (forall i, j :: 0 <= i < j < |w.exchanged| ==> w.exchanged[i] != w.exchanged[j])
    && (forall f: nat :: Sum(w.s.tokens, InFamily(f)) ==
          Sum(w.exchanged, ExchangesOf(w.s.tokens, f)) + if f < w.s.nextFamily then 1 else 0)
  }

  ghost predicate Inv(w: World) {
    && ChainsOk(w.s.tokens)
    && (forall i :: 0 <= i < |w.s.tokens| ==> w.s.tokens[i].family < w.s.nextFamily)
    && ExchangesOk(w)
  }

  /** Revoking rows changes neither whose they are nor which family they form. */
  ghost predicate SameChains(before: seq<Token>, after: seq<Token>) {
    && |after| == |before|
    && (forall i :: 0 <= i < |before| ==>
          && after[i].family == before[i].family && after[i].user == before[i].user
          && (before[i].revokedAt.Some? ==> after[i] == before[i]))
  }

  lemma SameChainsKeepInv(w: World, tokens: seq<Token>)
    requires Inv(w) && SameChains(w.s.tokens, tokens)
    ensures Inv(w.(s := w.s.(tokens := tokens)))
  {
    forall f: nat
      ensures Sum(tokens, InFamily(f)) == Sum(w.s.tokens, InFamily(f))
      ensures Sum(w.exchanged, ExchangesOf(tokens, f)) == Sum(w.exchanged, ExchangesOf(w.s.tokens, f))
    {
      SumAlike(tokens, InFamily(f), w.s.tokens, InFamily(f));
      SumAlike(w.exchanged, ExchangesOf(tokens, f), w.exchanged, ExchangesOf(w.s.tokens, f));
    }
  }

  lemma IssueKeepsInv(w: World, user: nat, expires: int)
    requires Inv(w)
    ensures Inv(w.(s := IssueSpec(w.s, user, expires)))
  {
    var after := IssueSpec(w.s, user, expires);
    forall f: nat
      ensures Sum(after.tokens, InFamily(f)) ==
              Sum(w.exchanged, ExchangesOf(after.tokens, f)) + if f < after.nextFamily then 1 else 0
    {
      SumSnoc(w.s.tokens, after.tokens[|w.s.tokens|], InFamily(f));
      SumAlike(w.exchanged, ExchangesOf(after.tokens, f), w.exchanged, ExchangesOf(w.s.tokens, f));
    }
  }

  lemma {:induction false} RotationKeepsInv(w: World, token: nat, now: int, expires: int)
    requires Inv(w) && RefreshSpec(w.s, token, now, expires, true).1.Rotated?
    ensures Inv(World(RefreshSpec(w.s, token, now, expires, true).0, w.exchanged + [token]))
  {
    var before, after := w.s.tokens, RefreshSpec(w.s, token, now, expires, true).0.tokens;
    var claimed := Revoke(w.s, token, now).tokens;
    var issued := after[|before|];
    assert after == claimed + [issued];
    forall i | 0 <= i < |before| && before[i].family == issued.family
      ensures after[i].user == issued.user && after[i].revokedAt.Some?
    {
      // the claimed token is live, so it is the newest of its family and every other one is revoked
      assert i <= token;
    }
    forall f: nat
      ensures Sum(after, InFamily(f)) ==
              Sum(w.exchanged + [token], ExchangesOf(after, f)) + if f < w.s.nextFamily then 1 else 0
    {
      SumAlike(claimed, InFamily(f), before, InFamily(f));
      SumSnoc(claimed, issued, InFamily(f));
      SumAlike(w.exchanged, ExchangesOf(after, f), w.exchanged, ExchangesOf(before, f));
      SumSnoc(w.exchanged, token, ExchangesOf(after, f));
    }
  }

  lemma FailedRefreshKeepsInv(w: World, t: nat, now: int, expires: int, signing: bool)
    requires Inv(w) && !RefreshSpec(w.s, t, now, expires, signing).1.Rotated?
    ensures Inv(w.(s := RefreshSpec(w.s, t, now, expires, signing).0))
  {
    var after := RefreshSpec(w.s, t, now, expires, signing).0;
    SameChainsKeepInv(w, after.tokens);
    assert after == w.s.(tokens := after.tokens);
  }

  lemma LogoutKeepsInv(w: World, user: nat, t: nat, now: int)
    requires Inv(w)
    ensures Inv(w.(s := LogoutSpec(w.s, user, t, now)))
  {
    SameChainsKeepInv(w, LogoutSpec(w.s, user, t, now).tokens);
  }

  lemma UsersDoNotMatter(w: World, users: seq<UserStatus>)
    requires Inv(w)
    ensures Inv(w.(s := w.s.(users := users)))
  {
  }

  lemma StepKeepsInv(w: World, step: Step)
    requires Inv(w)
    ensures Inv(Next(w, step))
  {
    hide Inv;
    match step
    case Register(status) => UsersDoNotMatter(w, w.s.users + [status]);
    case SetStatus(u, status) => if u < |w.s.users| { UsersDoNotMatter(w, w.s.users[u := status]); }
    case Issue(u, expires) => IssueKeepsInv(w, u, expires);
    case Refresh(t, now, expires, signing) =>
      if RefreshSpec(w.s, t, now, expires, signing).1.Rotated? {
        RotationKeepsInv(w, t, now, expires);
      } else {
        FailedRefreshKeepsInv(w, t, now, expires, signing);
      }
    case Logout(u, t, now) => LogoutKeepsInv(w, u, t, now);
  }

  lemma {:induction false} RunKeepsInv(w: World, steps: seq<Step>)
    requires Inv(w)
    ensures Inv(Run(w, steps))
    decreases |steps|
  {
    if steps != [] {
      StepKeepsInv(w, steps[0]);
      RunKeepsInv(Next(w, steps[0]), steps[1..]);
    }
  }

  /**
   * In every reachable state: a family belongs to one user, only its newest token may be live, it has one token
   * more than it has had successful refreshes, and no token was ever exchanged twice.
   */
  lemma FamiliesAreChains(steps: seq<Step>)
    ensures var w := Run(INITIAL, steps);
            && ChainsOk(w.s.tokens)
            && (forall i, j :: 0 <= i < j < |w.exchanged| ==> w.exchanged[i] != w.exchanged[j])
            && (forall f: nat :: f < w.s.nextFamily ==>
                  Sum(w.s.tokens, InFamily(f)) == Sum(w.exchanged, ExchangesOf(w.s.tokens, f)) + 1)
  {
    assert Inv(INITIAL);
    RunKeepsInv(INITIAL, steps);
  }

  // ------------------------------------------------------------------------------------------
  // A family dies for good

  /** The family was opened, and none of its tokens is live. */
  ghost predicate Dead(s: Sessions, f: nat) {
    f < s.nextFamily && forall i :: 0 <= i < |s.tokens| && s.tokens[i].family == f ==> s.tokens[i].revokedAt.Some?
  }

  lemma StepKeepsDead(w: World, step: Step, f: nat)
    requires Dead(w.s, f)
    ensures Dead(Next(w, step).s, f)
  {
  }

  /** No later step in any run makes a refresh of a dead family succeed. */
  lemma {:induction false} DeadForGood(w: World, steps: seq<Step>, f: nat, t: nat, now: int, expires: int,
                                        signing: bool)
    requires Dead(w.s, f)
    ensures var s := Run(w, steps).s;
            Dead(s, f) &&
            (t < |s.tokens| && s.tokens[t].family == f ==> RefreshSpec(s, t, now, expires, signing).1 == Invalid)
    decreases |steps|
  {
    if steps != [] {
      StepKeepsDead(w, steps[0], f);
      DeadForGood(Next(w, steps[0]), steps[1..], f, t, now, expires, signing);
    }
  }

  /** Every token outside family `f` is untouched. */
  ghost predicate OthersUntouched(s: Sessions, after: Sessions, f: nat) {
    && |after.tokens| >= |s.tokens|
    && (forall i :: 0 <= i < |s.tokens| && s.tokens[i].family != f ==> after.tokens[i] == s.tokens[i])
    && (forall i :: |s.tokens| <= i < |after.tokens| ==> after.tokens[i].family == f)
  }

  /** What kills a family: reuse of a consumed token, its owner's logout, or a claim by a restricted user. */
  lemma WhatKillsAFamily(w: World, t: nat, user: nat, now: int, expires: int, signing: bool)
    requires Inv(w) && t < |w.s.tokens|
    ensures var s, f := w.s, w.s.tokens[t].family;
            var (after, outcome) := RefreshSpec(s, t, now, expires, signing);
            && OthersUntouched(s, after, f)
            && (s.tokens[t].revokedAt.Some? ==> outcome == Invalid && Dead(after, f))
            && (Claimable(s, t, now) && s.tokens[t].user < |s.users| && s.users[s.tokens[t].user] != UserActive ==>
                  outcome == Invalid && Dead(after, f))
    ensures var s, f := w.s, w.s.tokens[t].family;
            var after := LogoutSpec(s, user, t, now);
            && OthersUntouched(s, after, f)
            && (if s.tokens[t].user == user then Dead(after, f) else after == s)
  {
  }

  /** A refresh of a consumed token, a refresh by a restricted user that claims a live one, or the owner's logout. */
  predicate Kills(s: Sessions, step: Step, f: nat) {
    match step
    case Refresh(t, now, _, _) =>
      && t < |s.tokens| && s.tokens[t].family == f
      && (s.tokens[t].revokedAt.Some?
          || (Claimable(s, t, now) && s.tokens[t].user < |s.users| && s.users[s.tokens[t].user] != UserActive))
    case Logout(user, t, _) => t < |s.tokens| && s.tokens[t].family == f && s.tokens[t].user == user
    case _ => false
  }

  /** A killed family never refreshes again, whatever runs afterwards, and killing it touches no other family. */
  lemma {:induction false} KilledFamilyStaysDead(w: World, kill: Step, later: seq<Step>, f: nat, t: nat, now: int,
                                                 expires: int, signing: bool)
    requires Inv(w) && Kills(w.s, kill, f)
    ensures OthersUntouched(w.s, Next(w, kill).s, f)
    ensures var s := Run(Next(w, kill), later).s;
            t < |s.tokens| && s.tokens[t].family == f ==> RefreshSpec(s, t, now, expires, signing).1 == Invalid
  {
    hide Inv, Run, Dead, OthersUntouched, RevokeFamily;
    match kill {
      case Refresh(t', now', expires', signing') =>
        WhatKillsAFamily(w, t', w.s.tokens[t'].user, now', expires', signing');
      case Logout(user, t', now') => WhatKillsAFamily(w, t', user, now', 0, false);
    }
    DeadForGood(Next(w, kill), later, f, t, now, expires, signing);
  }

  /** A refresh succeeds exactly for a live token of an ACTIVE user when signing works; failing to sign undoes it. */
  lemma RefreshSucceedsIff(s: Sessions, t: nat, now: int, expires: int, signing: bool)
    ensures RefreshSpec(s, t, now, expires, signing).1.Rotated? <==>
              Claimable(s, t, now) && s.tokens[t].user < |s.users| && s.users[s.tokens[t].user] == UserActive && signing
    ensures RefreshSpec(s, t, now, expires, signing).1 == SigningFailed ==>
              RefreshSpec(s, t, now, expires, signing).0 == s
    ensures var (after, outcome) := RefreshSpec(s, t, now, expires, signing);
            outcome.Rotated? ==>
              && outcome.token == |s.tokens| && |after.tokens| == |s.tokens| + 1
              && after.tokens[|s.tokens|] == Token(s.tokens[t].user, s.tokens[t].family, expires, None)
              && after.tokens[t].revokedAt.Some?
  {
  }

  // ------------------------------------------------------------------------------------------
  // Login

  /** A login succeeds exactly for an existing, ACTIVE user with the right password, and refuses without a trace. */
  lemma LoginIff(s: Sessions, user: nat, passwordMatches: bool, expires: int)
    ensures var (after, ok) := LoginSpec(s, user, passwordMatches, expires);
            && (ok <==> user < |s.users| && passwordMatches && s.users[user] == UserActive)
            && (!ok ==> after == s)
  {
  }

  /** It opens a family that no token had before, with one live token of that user; no other token changes. */
  lemma LoginOpensAFamily(w: World, user: nat, passwordMatches: bool, expires: int)
    requires Inv(w) && LoginSpec(w.s, user, passwordMatches, expires).1
    ensures var after := LoginSpec(w.s, user, passwordMatches, expires).0;
            && after.users == w.s.users && |after.tokens| == |w.s.tokens| + 1
            && after.tokens[..|w.s.tokens|] == w.s.tokens
            && var newest := after.tokens[|w.s.tokens|];
            && newest.user == user && newest.expires == expires && newest.revokedAt.None?
            && (forall i :: 0 <= i < |w.s.tokens| ==> w.s.tokens[i].family != newest.family)
            && newest.family < after.nextFamily
  {
  }

  /** A login call is at most the one step of the runs above that inserts its token. */
  lemma LoginIsAStep(w: World, user: nat, passwordMatches: bool, expires: int)
    ensures var (after, ok) := LoginSpec(w.s, user, passwordMatches, expires);
            w.(s := after) == if ok then Next(w, Issue(user, expires)) else w
  {
  }

  /** The token of a fresh login can be refreshed at once, unless it has already expired. */
  lemma LoginCanRefresh(w: World, user: nat, passwordMatches: bool, expires: int, now: int, next: int)
    requires LoginSpec(w.s, user, passwordMatches, expires).1
    ensures var after := LoginSpec(w.s, user, passwordMatches, expires).0;
            RefreshSpec(after, |w.s.tokens|, now, next, true).1.Rotated? <==> expires > now
  {
  }
}
