// Signing in (app/auth.py authenticate, app/access.py finish_login): one user row,
// the passwords, one-time codes and recovery codes tried against it, and the
// lockout that both steps share. Each call is one transaction on the locked row.

module SignInThrottle {
  import opened Prelude

  const MAX_FAILURES: nat := 8
  const LOCKOUT_SECONDS: real := 900.0
  const TOTP_STEP: real := 30.0
  const TOTP_SKEW: int := 1
  const TOTP_DIGITS: nat := 6

  // HOTP (section 5.3 of RFC 4226) of a secret and a step, the tidying of what was
  // typed, and the hash recovery codes are kept by.
  datatype Rules = Rules(
    hotp: (string, int) -> string,
    unspaced: string -> string, looksLikeRecovery: string -> bool, recoveryHash: string -> string)

  // `secret` set and `on` false is a setup not yet finished.
  datatype Row = Row(
    failures: nat, lockedUntil: Option<real>, disabled: bool,
    secret: Option<string>, on: bool, lastStep: Option<int>, codes: seq<string>)

  predicate IsEnabled(u: Row) { u.secret.Some? && u.on }

  predicate IsLocked(u: Row, now: real) { u.lockedUntil.Some? && u.lockedUntil.value > now }

  function Failed(u: Row, now: real): Row {
    if u.failures + 1 >= MAX_FAILURES then u.(failures := 0, lockedUntil := Some(now + LOCKOUT_SECONDS))
    else u.(failures := u.failures + 1)
  }

  function SignedIn(u: Row): Row { u.(failures := 0, lockedUntil := None) }

  // --- one-time codes -----------------------------------------------------------------

  // The time step of section 4 of RFC 6238.
  function StepAt(now: real): int { (now / TOTP_STEP).Floor }

  predicate SixDigits(code: string) { |code| == TOTP_DIGITS && forall c :: c in code ==> '0' <= c <= '9' }

  predicate Matches(rules: Rules, secret: string, code: string, step: int, last: Option<int>) {
    rules.hotp(secret, step) == rules.unspaced(code) && (last.None? || step > last.value)
  }

  function MatchUpTo(rules: Rules, secret: string, code: string,
                     first: int, latest: int, last: Option<int>): Option<int>
    decreases latest - first
  {
    if latest < first then None
    else if Matches(rules, secret, code, latest, last) then Some(latest)
    else MatchUpTo(rules, secret, code, first, latest - 1, last)
  }

  function MatchCode(rules: Rules, secret: string, code: string, now: real, last: Option<int>): Option<int> {
    if !SixDigits(rules.unspaced(code)) then None
    else MatchUpTo(rules, secret, code, StepAt(now) - TOTP_SKEW, StepAt(now) + TOTP_SKEW, last)
  }

  // `r` is the latest step from `first` to `latest` that the code matches.
  ghost predicate IsLatest(rules: Rules, secret: string, code: string,
                           first: int, latest: int, last: Option<int>, r: Option<int>) {
    && (r.Some? ==> first <= r.value <= latest && Matches(rules, secret, code, r.value, last))
    && (forall step :: first <= step <= latest && (r.None? || step > r.value) ==>
          !Matches(rules, secret, code, step, last))
  }

  lemma {:induction false} MatchUpToIsLatest(rules: Rules, secret: string, code: string,
                                             first: int, latest: int, last: Option<int>)
    ensures IsLatest(rules, secret, code, first, latest, last, MatchUpTo(rules, secret, code, first, latest, last))
    decreases latest - first
  {
    if first <= latest { MatchUpToIsLatest(rules, secret, code, first, latest - 1, last); }
  }

  // A code is taken exactly when it is that of one of the three steps around now
  // and later than the last one taken; it counts as the latest such step.
  lemma CodeIsOfANewStepNearby(rules: Rules, secret: string, code: string, now: real, last: Option<int>)
    ensures SixDigits(rules.unspaced(code)) ==>
      IsLatest(rules, secret, code, StepAt(now) - 1, StepAt(now) + 1, last, MatchCode(rules, secret, code, now, last))
    ensures !SixDigits(rules.unspaced(code)) ==> MatchCode(rules, secret, code, now, last).None?
  {
    MatchUpToIsLatest(rules, secret, code, StepAt(now) - TOTP_SKEW, StepAt(now) + TOTP_SKEW, last);
  }

  function IndexOf(codes: seq<string>, h: string): (i: nat)
    ensures i <= |codes| && (i < |codes| ==> codes[i] == h)
    ensures forall j :: 0 <= j < i ==> codes[j] != h
  {
    if codes == [] || codes[0] == h then 0 else 1 + IndexOf(codes[1..], h)
  }

  // `_check_second`: whether the code is right, and the row with it spent.
  function Checked(u: Row, code: string, now: real, rules: Rules): (bool, Row)
    requires u.secret.Some?
  {
    if rules.looksLikeRecovery(code) then
      var i := IndexOf(u.codes, rules.recoveryHash(code));
      if i < |u.codes| then (true, u.(codes := u.codes[..i] + u.codes[i + 1..])) else (false, u)
    else
      var step := MatchCode(rules, u.secret.value, code, now, u.lastStep);
      if step.Some? then (true, u.(lastStep := step)) else (false, u)
  }

  // --- what can happen to an account --------------------------------------------------

  datatype Event =
    | Password(now: real, right: bool)
    | Code(now: real, valid: bool, code: string)         // `valid`: the challenge is
    | Unlock
    | SetPassword
    | SetDisabled(disabled: bool)
    | BeginSetup(right: bool, secret: string)
    | Enable(now: real, code: string, codes: seq<string>)
    | Disable(now: real, right: bool, code: string)
    | Regenerate(now: real, right: bool, code: string, codes: seq<string>)
    | AdminReset

  datatype Outcome = TooMany | Wrong | HalfIn | In | Refused | Done

  function Clear(u: Row): Row { u.(secret := None, on := false, lastStep := None, codes := []) }

  function Authenticated(u: Row, now: real, right: bool): (Row, Outcome) {
    if IsLocked(u, now) then (u, TooMany)
    else if u.disabled || !right then (Failed(u, now), Wrong)
    else if IsEnabled(u) then (u, HalfIn)
    else (SignedIn(u), In)
  }

  function Finished(u: Row, now: real, valid: bool, code: string, rules: Rules): (Row, Outcome) {
    if !valid || u.disabled || !IsEnabled(u) then (u, Refused)
    else if IsLocked(u, now) then (u, TooMany)
    else
      var (ok, v) := Checked(u, code, now, rules);
      if ok then (SignedIn(v), In) else (Failed(u, now), Wrong)
  }

  function Next(u: Row, e: Event, rules: Rules): (Row, Outcome) {
    match e
    case Password(now, right) => Authenticated(u, now, right)
    case Code(now, valid, code) => Finished(u, now, valid, code, rules)
    case Unlock => (SignedIn(u), Done)
    case SetPassword => (SignedIn(u), Done)
    case SetDisabled(disabled) => (u.(disabled := disabled), Done)
    case BeginSetup(right, secret) =>
      if !right || IsEnabled(u) then (u, Refused)
      else (u.(secret := Some(secret), on := false, lastStep := None), Done)
    case Enable(now, code, codes) =>
      if IsEnabled(u) || u.secret.None? then (u, Refused)
      else
        var step := MatchCode(rules, u.secret.value, code, now, None);
        if step.None? then (u, Refused) else (u.(on := true, lastStep := step, codes := codes), Done)
    case Disable(now, right, code) =>
      if !right then (u, Refused)
      else if !IsEnabled(u) then (u.(secret := None), Done)
      else
        var (ok, v) := Checked(u, code, now, rules);
        if ok then (Clear(v), Done) else (u, Refused)
    case Regenerate(now, right, code, codes) =>
      if !right || !IsEnabled(u) then (u, Refused)
      else
        var (ok, v) := Checked(u, code, now, rules);
        if ok then (v.(codes := codes), Done) else (u, Refused)
    case AdminReset => (Clear(u), Done)
  }

  function After(u: Row, events: seq<Event>, rules: Rules): Row {
    if events == [] then u else Next(After(u, events[..|events| - 1], rules), events[|events| - 1], rules).0
  }

  function OutcomeAt(u: Row, events: seq<Event>, i: nat, rules: Rules): Outcome
    requires i < |events|
  {
    Next(After(u, events[..i], rules), events[i], rules).1
  }

  // --- throttling -----------------------------------------------------------------------

  lemma StepStaysBelow(u: Row, e: Event, rules: Rules)
    requires u.failures < MAX_FAILURES
    ensures Next(u, e, rules).0.failures < MAX_FAILURES
  {
    match e {
      case Password(now, right) =>
      case Code(now, valid, code) =>
      case _ =>
    }
  }

  lemma {:induction false} StoredFailuresStayBelow(u: Row, events: seq<Event>, rules: Rules)
    requires u.failures < MAX_FAILURES
    ensures After(u, events, rules).failures < MAX_FAILURES
  {
    if events != [] {
      StoredFailuresStayBelow(u, events[..|events| - 1], rules);
      StepStaysBelow(After(u, events[..|events| - 1], rules), events[|events| - 1], rules);
    }
  }

  predicate Attempts(e: Event) { e.Password? || e.Code? }

  // A sign-in gone all the way through, an unlock or a new password.
  predicate Resets(e: Event, out: Outcome) { out.In? || e.Unlock? || e.SetPassword? }

  ghost predicate NoReset(u: Row, events: seq<Event>, rules: Rules) {
    forall i :: 0 <= i < |events| ==> !Resets(events[i], OutcomeAt(u, events, i, rules))
  }

  // Any two attempts less than the lockout apart, whatever order their clocks give.
  ghost predicate WithinOneLockout(events: seq<Event>) {
    forall i, j :: 0 <= i < |events| && 0 <= j < |events| && Attempts(events[i]) && Attempts(events[j]) ==>
      events[i].now - events[j].now < LOCKOUT_SECONDS
  }

  function WrongCount(u: Row, events: seq<Event>, rules: Rules): nat {
    if events == [] then 0
    else
      WrongCount(u, events[..|events| - 1], rules)
      + if OutcomeAt(u, events, |events| - 1, rules).Wrong? then 1 else 0
  }

  // Where the count of wrong attempts stands against the row: either all of them
  // are in `failures`, or the eighth has locked it past every attempt in sight.
  ghost predicate Tally(u: Row, events: seq<Event>, v: Row, wrong: nat) {
    || v.failures == u.failures + wrong
    || (wrong == MAX_FAILURES - u.failures && v.failures == 0 && v.lockedUntil.Some?
        && exists i :: 0 <= i < |events| && Attempts(events[i])
             && v.lockedUntil.value == events[i].now + LOCKOUT_SECONDS)
  }

  // One event that resets nothing: the count goes up by one exactly when it was
  // wrong, or the row locks; and while it is locked, nothing changes it.
  lemma CountsOrLocks(v: Row, e: Event, rules: Rules)
    requires v.failures < MAX_FAILURES && !Resets(e, Next(v, e, rules).1)
    ensures var (w, out) := Next(v, e, rules);
      && (!out.Wrong? ==> w.failures == v.failures && w.lockedUntil == v.lockedUntil)
      && (out.Wrong? ==> Attempts(e) && !IsLocked(v, e.now))
      && (out.Wrong? && v.failures + 1 < MAX_FAILURES ==> w.failures == v.failures + 1)
      && (out.Wrong? && v.failures + 1 == MAX_FAILURES ==>
            w.failures == 0 && w.lockedUntil == Some(e.now + LOCKOUT_SECONDS))
  {
    match e {
      case Password(now, right) =>
      case Code(now, valid, code) =>
      case _ =>
    }
  }

  lemma OneMoreEvent(u: Row, init: seq<Event>, e: Event, rules: Rules)
    ensures var (w, out) := Next(After(u, init, rules), e, rules);
      && After(u, init + [e], rules) == w
      && OutcomeAt(u, init + [e], |init|, rules) == out
      && WrongCount(u, init + [e], rules) == WrongCount(u, init, rules) + if out.Wrong? then 1 else 0
  {
    assert (init + [e])[..|init|] == init;
  }

  lemma TallyOn(u: Row, init: seq<Event>, e: Event, v: Row, w: Row, wrong: nat, more: bool)
    requires u.failures < MAX_FAILURES && v.failures < MAX_FAILURES && WithinOneLockout(init + [e])
    requires Tally(u, init, v, wrong)
    requires !more ==> w.failures == v.failures && w.lockedUntil == v.lockedUntil
    requires more ==> Attempts(e) && !IsLocked(v, e.now)
    requires more ==>
      if v.failures + 1 < MAX_FAILURES then w.failures == v.failures + 1
      else w.failures == 0 && w.lockedUntil == Some(e.now + LOCKOUT_SECONDS)
    ensures Tally(u, init + [e], w, wrong + if more then 1 else 0)
  {
    var all := init + [e];
    assert all[|init|] == e;
    if v.failures != u.failures + wrong {
      var i :| 0 <= i < |init| && Attempts(init[i]) && v.lockedUntil.value == init[i].now + LOCKOUT_SECONDS;
      assert all[i] == init[i];
    }
  }

  lemma NoResetBefore(u: Row, init: seq<Event>, e: Event, rules: Rules)
    requires NoReset(u, init + [e], rules)
    ensures NoReset(u, init, rules) && !Resets(e, Next(After(u, init, rules), e, rules).1)
  {
    var all := init + [e];
    forall i | 0 <= i < |init|
      ensures !Resets(init[i], OutcomeAt(u, init, i, rules))
    {
      assert init[..i] == all[..i] && init[i] == all[i];
      assert OutcomeAt(u, init, i, rules) == OutcomeAt(u, all, i, rules);
    }
    OneMoreEvent(u, init, e, rules);
    assert all[|init|] == e;
  }

  lemma SoonerStillWithin(init: seq<Event>, e: Event)
    requires WithinOneLockout(init + [e])
    ensures WithinOneLockout(init)
  {
    assert forall i :: 0 <= i < |init| ==> init[i] == (init + [e])[i];
  }

  lemma {:induction false} Tallied(u: Row, events: seq<Event>, rules: Rules)
    requires u.failures < MAX_FAILURES && NoReset(u, events, rules) && WithinOneLockout(events)
    ensures Tally(u, events, After(u, events, rules), WrongCount(u, events, rules))
  {
    if events != [] {
      var init, e := events[..|events| - 1], events[|events| - 1];
      assert events == init + [e];
      NoResetBefore(u, init, e, rules);
      SoonerStillWithin(init, e);
      Tallied(u, init, rules);
      StoredFailuresStayBelow(u, init, rules);
      OneMoreEvent(u, init, e, rules);
      var v := After(u, init, rules);
      CountsOrLocks(v, e, rules);
      TallyOn(u, init, e, v, Next(v, e, rules).0, WrongCount(u, init, rules), Next(v, e, rules).1.Wrong?);
    }
  }

  // Passwords and codes together: in any stretch of less than the lockout, with
  // nobody fully signed in, unlocked or given a new password, at most eight wrong
  // ones are looked at -- counting those already stored when it began.
  lemma AtMostEightWrongOnes(u: Row, events: seq<Event>, rules: Rules)
    requires u.failures < MAX_FAILURES && NoReset(u, events, rules) && WithinOneLockout(events)
    ensures u.failures + WrongCount(u, events, rules) <= MAX_FAILURES
  {
    Tallied(u, events, rules);
    StoredFailuresStayBelow(u, events, rules);
  }

  predicate IsRightPassword(e: Event) { e.Password? && e.right }

  function WithoutRightPasswords(events: seq<Event>): seq<Event> {
    if events == [] then []
    else
      var rest := WithoutRightPasswords(events[..|events| - 1]);
      if IsRightPassword(events[|events| - 1]) then rest else rest + [events[|events| - 1]]
  }

  ghost predicate TwoFactorThroughout(u: Row, events: seq<Event>, rules: Rules) {
    forall i :: 0 <= i <= |events| ==>
      IsEnabled(After(u, events[..i], rules)) && !After(u, events[..i], rules).disabled
  }

  // With two-factor on, right passwords change nothing at all: the row ends up the
  // same without them, so they never reset the count and cannot buy more codes.
  lemma {:induction false} RightPasswordsBuyNothing(u: Row, events: seq<Event>, rules: Rules)
    requires TwoFactorThroughout(u, events, rules)
    ensures After(u, events, rules) == After(u, WithoutRightPasswords(events), rules)
  {
    if events != [] {
      var init, e := events[..|events| - 1], events[|events| - 1];
      forall i | 0 <= i <= |init|
        ensures IsEnabled(After(u, init[..i], rules)) && !After(u, init[..i], rules).disabled
      {
        assert init[..i] == events[..i];
      }
      RightPasswordsBuyNothing(u, init, rules);
      assert init[..|init|] == init;
      var rest := WithoutRightPasswords(init);
      assert (rest + [e])[..|rest|] == rest;
    }
  }

  // While it is locked, nothing that is tried is looked at or changes the row.
  lemma LockedMeansUntouched(u: Row, e: Event, rules: Rules)
    requires Attempts(e) && IsLocked(u, e.now)
    ensures Next(u, e, rules).0 == u && Next(u, e, rules).1 in {TooMany, Refused}
  {}

  // --- codes work once ---------------------------------------------------------------------

  // The steps taken for the secret in force, the recovery codes last issued, and
  // those spent since.
  datatype Ledger = Ledger(steps: seq<int>, issued: seq<string>, spent: seq<string>)

  function Entered(l: Ledger, u: Row, code: string, now: real, rules: Rules): Ledger
    requires u.secret.Some? && Checked(u, code, now, rules).0
  {
    if rules.looksLikeRecovery(code) then l.(spent := l.spent + [rules.recoveryHash(code)])
    else l.(steps := l.steps + [Checked(u, code, now, rules).1.lastStep.value])
  }

  function LedgerNext(l: Ledger, u: Row, e: Event, rules: Rules): Ledger {
    var (v, out) := Next(u, e, rules);
    match e
    case Code(now, valid, code) => if out.In? then Entered(l, u, code, now, rules) else l
    case BeginSetup(right, secret) => if out.Done? then l.(steps := []) else l
    case Enable(now, code, codes) => if out.Done? then Ledger([v.lastStep.value], codes, []) else l
    case Regenerate(now, right, code, codes) =>
      if out.Done? then Entered(l, u, code, now, rules).(issued := codes, spent := []) else l
    case Disable(now, right, code) => if out.Done? && IsEnabled(u) then Ledger([], [], []) else l
    case AdminReset => Ledger([], [], [])
    case _ => l
  }

  const NewAccount := Row(0, None, false, None, false, None, [])

  function LedgerAfter(events: seq<Event>, rules: Rules): Ledger {
    if events == [] then Ledger([], [], [])
    else
      var init := events[..|events| - 1];
      LedgerNext(LedgerAfter(init, rules), After(NewAccount, init, rules), events[|events| - 1], rules)
  }

  ghost predicate Increasing(steps: seq<int>) {
    forall i, j :: 0 <= i < j < |steps| ==> steps[i] < steps[j]
  }

  ghost predicate Balances(l: Ledger, u: Row) {
    && Increasing(l.steps)
    && u.lastStep == (if l.steps == [] then None else Some(l.steps[|l.steps| - 1]))
    && (u.lastStep.Some? ==> IsEnabled(u))
    && multiset(u.codes) + multiset(l.spent) == multiset(l.issued)
  }

  lemma SpendsOne(codes: seq<string>, i: nat, spent: seq<string>)
    requires i < |codes|
    ensures multiset(codes[..i] + codes[i + 1..]) + multiset(spent + [codes[i]]) == multiset(codes) + multiset(spent)
  {
    assert codes == codes[..i] + [codes[i]] + codes[i + 1..];
  }

  lemma EnteredBalances(l: Ledger, u: Row, code: string, now: real, rules: Rules)
    requires Balances(l, u) && IsEnabled(u) && Checked(u, code, now, rules).0
    ensures Balances(Entered(l, u, code, now, rules), Checked(u, code, now, rules).1)
  {
    if rules.looksLikeRecovery(code) {
      SpendsOne(u.codes, IndexOf(u.codes, rules.recoveryHash(code)), l.spent);
    } else {
      CodeIsOfANewStepNearby(rules, u.secret.value, code, now, u.lastStep);
    }
  }

  lemma CodeBalances(l: Ledger, u: Row, now: real, valid: bool, code: string, rules: Rules)
    requires Balances(l, u)
    ensures Balances(LedgerNext(l, u, Code(now, valid, code), rules), Next(u, Code(now, valid, code), rules).0)
  {
    if Next(u, Code(now, valid, code), rules).1.In? { EnteredBalances(l, u, code, now, rules); }
  }

  lemma RegenerateBalances(l: Ledger, u: Row, e: Event, rules: Rules)
    requires Balances(l, u) && e.Regenerate?
    ensures Balances(LedgerNext(l, u, e, rules), Next(u, e, rules).0)
  {
    if Next(u, e, rules).1.Done? { EnteredBalances(l, u, e.code, e.now, rules); }
  }

  lemma NextBalances(l: Ledger, u: Row, e: Event, rules: Rules)
    requires Balances(l, u)
    ensures Balances(LedgerNext(l, u, e, rules), Next(u, e, rules).0)
  {
    match e {
      case Code(now, valid, code) => CodeBalances(l, u, now, valid, code, rules);
      case Regenerate(now, right, code, codes) => RegenerateBalances(l, u, e, rules);
      case _ => SetupBalances(l, u, e, rules);
    }
  }

  lemma EnableBalances(l: Ledger, u: Row, e: Event, rules: Rules)
    requires Balances(l, u) && e.Enable?
    ensures Balances(LedgerNext(l, u, e, rules), Next(u, e, rules).0)
  {}

  lemma SetupBalances(l: Ledger, u: Row, e: Event, rules: Rules)
    requires Balances(l, u) && !e.Code? && !e.Regenerate?
    ensures Balances(LedgerNext(l, u, e, rules), Next(u, e, rules).0)
  {
    if e.Enable? {
      EnableBalances(l, u, e, rules);
    } else if e.Disable? {
      DisableBalances(l, u, e, rules);
    }
  }

  lemma DisableBalances(l: Ledger, u: Row, e: Event, rules: Rules)
    requires Balances(l, u) && e.Disable?
    ensures Balances(LedgerNext(l, u, e, rules), Next(u, e, rules).0)
  {}

  // Over the whole life of an account: the time steps taken for a secret only ever
  // go up, so no one-time code is taken twice; and every recovery code issued is
  // either still there or was spent, each as often as it was issued.
  lemma {:induction false} CodesWorkOnce(events: seq<Event>, rules: Rules)
    ensures Balances(LedgerAfter(events, rules), After(NewAccount, events, rules))
  {
    if events != [] {
      var init := events[..|events| - 1];
      CodesWorkOnce(init, rules);
      NextBalances(LedgerAfter(init, rules), After(NewAccount, init, rules), events[|events| - 1], rules);
    }
  }

  // --- the row, updated in place ---------------------------------------------------------------

  class User {
    var row: Row

    constructor ()
      ensures row == NewAccount
    {
      row := NewAccount;
    }

    // match_code: every candidate is computed and compared, the last match stands.
    method MatchTyped(code: string, now: real, last: Option<int>, rules: Rules) returns (found: Option<int>)
      requires row.secret.Some?
      ensures found == MatchCode(rules, row.secret.value, code, now, last)
    {
      found := None;
      if !SixDigits(rules.unspaced(code)) { return; }
      var step := StepAt(now);
      for s := step - TOTP_SKEW to step + TOTP_SKEW + 1
        invariant found == MatchUpTo(rules, row.secret.value, code, step - TOTP_SKEW, s - 1, last)
      {
        if rules.hotp(row.secret.value, s) == rules.unspaced(code) && (last.None? || s > last.value) {
          found := Some(s);
        }
      }
    }

    method CheckSecond(code: string, now: real, rules: Rules) returns (ok: bool)
      requires row.secret.Some?
      modifies this
      ensures (ok, row) == Checked(old(row), code, now, rules)
    {
      if rules.looksLikeRecovery(code) {
        var h := rules.recoveryHash(code);
        var i := 0;
        while i < |row.codes|
          invariant i <= |row.codes| && row == old(row)
          invariant IndexOf(row.codes, h) == i + IndexOf(row.codes[i..], h)
        {
          if row.codes[i] == h {
            row := row.(codes := row.codes[..i] + row.codes[i + 1..]);
            return true;
          }
          assert row.codes[i..][1..] == row.codes[i + 1..];
          i := i + 1;
        }
        return false;
      }
      var step := MatchTyped(code, now, row.lastStep, rules);
      if step.None? { return false; }
      row := row.(lastStep := step);
      ok := true;
    }

    method Fail(now: real)
      modifies this
      ensures row == Failed(old(row), now)
    {
      row := row.(failures := row.failures + 1);
      if row.failures >= MAX_FAILURES {
        row := row.(lockedUntil := Some(now + LOCKOUT_SECONDS));
        row := row.(failures := 0);
      }
    }

    method Authenticate(now: real, right: bool, rules: Rules) returns (out: Outcome)
      modifies this
      ensures (row, out) == Next(old(row), Password(now, right), rules)
      ensures out in {In, HalfIn} <==>
        right && !old(row).disabled && (old(row).lockedUntil.None? || old(row).lockedUntil.value <= now)
      ensures out == HalfIn ==> old(row).secret.Some? && old(row).on
      ensures out == In ==> old(row).secret.None? || !old(row).on
    {
      if row.lockedUntil.Some? && row.lockedUntil.value > now { return TooMany; }
      var ok := !row.disabled && right;
      if !ok {
        Fail(now);
        return Wrong;
      }
      if row.secret.Some? && row.on { return HalfIn; }
      row := row.(failures := 0, lockedUntil := None);
      out := In;
    }

    method FinishLogin(now: real, valid: bool, code: string, rules: Rules) returns (out: Outcome)
      modifies this
      ensures (row, out) == Next(old(row), Code(now, valid, code), rules)
    {
      if !valid || row.disabled || !IsEnabled(row) { return Refused; }
      if row.lockedUntil.Some? && row.lockedUntil.value > now { return TooMany; }
      var ok := CheckSecond(code, now, rules);
      if !ok {
        Fail(now);
        return Wrong;
      }
      row := row.(failures := 0, lockedUntil := None);
      out := In;
    }

    method TurnOn(now: real, code: string, codes: seq<string>, rules: Rules) returns (out: Outcome)
      modifies this
      ensures (row, out) == Next(old(row), Enable(now, code, codes), rules)
    {
      if IsEnabled(row) || row.secret.None? { return Refused; }
      var step := MatchTyped(code, now, None, rules);
      if step.None? { return Refused; }
      row := row.(on := true, lastStep := step, codes := codes);
      out := Done;
    }

    method TurnOff(now: real, right: bool, code: string, rules: Rules) returns (out: Outcome)
      modifies this
      ensures (row, out) == Next(old(row), Disable(now, right, code), rules)
    {
      if !right { return Refused; }
      if !IsEnabled(row) {
        row := row.(secret := None);
        return Done;
      }
      var ok := CheckSecond(code, now, rules);
      if !ok { return Refused; }
      row := Clear(row);
      out := Done;
    }

    method RegenerateCodes(now: real, right: bool, code: string, codes: seq<string>, rules: Rules)
      returns (out: Outcome)
      modifies this
      ensures (row, out) == Next(old(row), Regenerate(now, right, code, codes), rules)
    {
      if !right || !IsEnabled(row) { return Refused; }
      var ok := CheckSecond(code, now, rules);
      if !ok { return Refused; }
      row := row.(codes := codes);
      out := Done;
    }
  }
}
