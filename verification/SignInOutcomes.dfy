// Who gets in, and who may change the two-factor settings: for every account and
// every run of events on it, what an event comes to and what it leaves, in terms of
// the row before it.

module SignInOutcomes {
  import opened Prelude
  import opened SignInThrottle

  // --- what an attempt is judged by -----------------------------------------------------

  predicate IsOpen(u: Row, now: real) { u.lockedUntil.None? || u.lockedUntil.value <= now }

  predicate NeedsCode(u: Row) { u.secret.Some? && u.on }

  predicate IsSixDigits(s: string) { |s| == 6 && forall c :: c in s ==> '0' <= c <= '9' }

  // The code of a time step within one of now, later than `last`.
  ghost predicate IsCodeOf(secret: string, typed: string, now: real, last: Option<int>, step: int, rules: Rules) {
    && -1 <= step - (now / 30.0).Floor <= 1
    && (last.Some? ==> last.value < step)
    && rules.hotp(secret, step) == typed
  }

  ghost predicate IsFreshCode(secret: string, code: string, now: real, last: Option<int>, rules: Rules) {
    && IsSixDigits(rules.unspaced(code))
    && exists step :: IsCodeOf(secret, rules.unspaced(code), now, last, step, rules)
  }

  // A recovery code still stored, or a one-time code not used yet.
  ghost predicate IsGoodCode(u: Row, code: string, now: real, rules: Rules) {
    if rules.looksLikeRecovery(code) then rules.recoveryHash(code) in u.codes
    else u.secret.Some? && IsFreshCode(u.secret.value, code, now, u.lastStep, rules)
  }

  lemma MatchIsFresh(secret: string, code: string, now: real, last: Option<int>, rules: Rules)
    ensures MatchCode(rules, secret, code, now, last).Some? <==> IsFreshCode(secret, code, now, last, rules)
    ensures var step := MatchCode(rules, secret, code, now, last);
      step.Some? ==> IsCodeOf(secret, rules.unspaced(code), now, last, step.value, rules)
  {
    var typed, r := rules.unspaced(code), MatchCode(rules, secret, code, now, last);
    assert SixDigits(typed) <==> IsSixDigits(typed);
    CodeIsOfANewStepNearby(rules, secret, code, now, last);
    if r.Some? {
      assert IsCodeOf(secret, typed, now, last, r.value, rules);
    } else if IsFreshCode(secret, code, now, last, rules) {
      var step :| IsCodeOf(secret, typed, now, last, step, rules);
      assert Matches(rules, secret, code, step, last);
      assert false;
    }
  }

  // What a good code leaves of the row: one recovery code gone, or the step
  // recorded, and nothing else changed.
  ghost predicate IsSpent(u: Row, v: Row, code: string, now: real, rules: Rules) {
    if rules.looksLikeRecovery(code) then
      && v == u.(codes := v.codes)
      && multiset(v.codes) == multiset(u.codes) - multiset{rules.recoveryHash(code)}
    else
      && v == u.(lastStep := v.lastStep) && v.lastStep.Some? && u.secret.Some?
      && IsCodeOf(u.secret.value, rules.unspaced(code), now, u.lastStep, v.lastStep.value, rules)
  }

  lemma RemovesOne(codes: seq<string>, i: nat)
    requires i < |codes|
    ensures multiset(codes[..i] + codes[i + 1..]) == multiset(codes) - multiset{codes[i]}
  {
    assert codes == codes[..i] + [codes[i]] + codes[i + 1..];
  }

  lemma RecoveryIsGood(u: Row, code: string, now: real, rules: Rules)
    requires u.secret.Some? && rules.looksLikeRecovery(code)
    ensures Checked(u, code, now, rules).0 <==> rules.recoveryHash(code) in u.codes
    ensures var (ok, v) := Checked(u, code, now, rules);
      if ok then IsSpent(u, v, code, now, rules) else v == u
  {
    var i := IndexOf(u.codes, rules.recoveryHash(code));
    if i < |u.codes| { RemovesOne(u.codes, i); }
  }

  lemma CheckedIsGood(u: Row, code: string, now: real, rules: Rules)
    requires u.secret.Some?
    ensures var (ok, v) := Checked(u, code, now, rules);
      (ok <==> IsGoodCode(u, code, now, rules)) && (if ok then IsSpent(u, v, code, now, rules) else v == u)
  {
    if rules.looksLikeRecovery(code) {
      RecoveryIsGood(u, code, now, rules);
    } else {
      MatchIsFresh(u.secret.value, code, now, u.lastStep, rules);
    }
  }

  // --- signing in -----------------------------------------------------------------------

  ghost predicate PasswordSignsIn(u: Row, e: Event) {
    e.Password? && e.right && !u.disabled && IsOpen(u, e.now) && !NeedsCode(u)
  }

  ghost predicate CodeIsLookedAt(u: Row, e: Event) {
    e.Code? && e.valid && !u.disabled && NeedsCode(u) && IsOpen(u, e.now)
  }

  ghost predicate GetsIn(u: Row, e: Event, rules: Rules) {
    PasswordSignsIn(u, e) || (CodeIsLookedAt(u, e) && IsGoodCode(u, e.code, e.now, rules))
  }

  ghost predicate GetsHalfIn(u: Row, e: Event) {
    e.Password? && e.right && !u.disabled && IsOpen(u, e.now) && NeedsCode(u)
  }

  ghost predicate IsWrong(u: Row, e: Event, rules: Rules) {
    || (e.Password? && IsOpen(u, e.now) && (u.disabled || !e.right))
    || (CodeIsLookedAt(u, e) && !IsGoodCode(u, e.code, e.now, rules))
  }

  ghost predicate IsShutOut(u: Row, e: Event) {
    && Attempts(e) && !IsOpen(u, e.now)
    && (e.Code? ==> e.valid && !u.disabled && NeedsCode(u))
  }

  // The row after an attempt: untouched, one more failure counted (the eighth locks
  // it), or in, with the count gone and the code spent.
  ghost predicate AttemptLeaves(u: Row, e: Event, out: Outcome, v: Row, rules: Rules)
    requires Attempts(e)
  {
    && (out == In ==>
          && v.failures == 0 && v.lockedUntil == None
          && var w := v.(failures := u.failures, lockedUntil := u.lockedUntil);
          if e.Password? then w == u else IsSpent(u, w, e.code, e.now, rules))
    && (out == Wrong ==>
          v == if u.failures < 7 then u.(failures := u.failures + 1)
               else u.(failures := 0, lockedUntil := Some(e.now + 900.0)))
    && (out != In && out != Wrong ==> v == u)
  }

  // Over every run: who gets in, who gets half way, who is wrong, locked out or
  // turned away, and what is left of the row.
  lemma WhoGetsIn(u: Row, events: seq<Event>, i: nat, rules: Rules)
    requires i < |events| && Attempts(events[i])
    ensures var v, e, out := After(u, events[..i], rules), events[i], OutcomeAt(u, events, i, rules);
      && (out == In <==> GetsIn(v, e, rules))
      && (out == HalfIn <==> GetsHalfIn(v, e))
      && (out == Wrong <==> IsWrong(v, e, rules))
      && (out == TooMany <==> IsShutOut(v, e))
      && out != Done
      && AttemptLeaves(v, e, out, After(u, events[..i + 1], rules), rules)
  {
    assert events[..i + 1] == events[..i] + [events[i]];
    OneMoreEvent(u, events[..i], events[i], rules);
    AnAttempt(After(u, events[..i], rules), events[i], rules);
  }

  lemma AnAttempt(u: Row, e: Event, rules: Rules)
    requires Attempts(e)
    ensures var (v, out) := Next(u, e, rules);
      && (out == In <==> GetsIn(u, e, rules))
      && (out == HalfIn <==> GetsHalfIn(u, e))
      && (out == Wrong <==> IsWrong(u, e, rules))
      && (out == TooMany <==> IsShutOut(u, e))
      && out != Done
      && AttemptLeaves(u, e, out, v, rules)
  {
    if e.Code? && u.secret.Some? { CheckedIsGood(u, e.code, e.now, rules); }
  }

  // --- two-factor, on and off -------------------------------------------------------------

  predicate Settles(e: Event) {
    e.BeginSetup? || e.Enable? || e.Disable? || e.Regenerate? || e.AdminReset?
  }

  // Turning it on needs a code of the secret set up; turning it off, or new recovery
  // codes, a right password and a good code; an admin needs nothing.
  ghost predicate MaySettle(u: Row, e: Event, rules: Rules)
    requires Settles(e)
  {
    match e
    case BeginSetup(right, secret) => right && !NeedsCode(u)
    case Enable(now, code, codes) =>
      !NeedsCode(u) && u.secret.Some? && IsFreshCode(u.secret.value, code, now, None, rules)
    case Disable(now, right, code) => right && (NeedsCode(u) ==> IsGoodCode(u, code, now, rules))
    case Regenerate(now, right, code, codes) => right && NeedsCode(u) && IsGoodCode(u, code, now, rules)
    case AdminReset => true
  }

  predicate IsCleared(u: Row) { u.secret == None && !u.on && u.lastStep == None && u.codes == [] }

  ghost predicate SettlesTo(u: Row, e: Event, v: Row, rules: Rules)
    requires Settles(e)
  {
    && v.failures == u.failures && v.lockedUntil == u.lockedUntil && v.disabled == u.disabled
    && match e
       case BeginSetup(right, secret) =>
         v.secret == Some(secret) && !NeedsCode(v) && v.lastStep == None && v.codes == u.codes
       case Enable(now, code, codes) =>
         && v.secret == u.secret && NeedsCode(v) && v.codes == codes && v.lastStep.Some?
         && IsCodeOf(v.secret.value, rules.unspaced(code), now, None, v.lastStep.value, rules)
       case Disable(now, right, code) =>
         if NeedsCode(u) then IsCleared(v) else v == u.(secret := None)
       case Regenerate(now, right, code, codes) =>
         && NeedsCode(v) && v.secret == u.secret && v.codes == codes
         && (if rules.looksLikeRecovery(code) then v.lastStep == u.lastStep
             else
               && v.lastStep.Some?
               && IsCodeOf(v.secret.value, rules.unspaced(code), now, u.lastStep, v.lastStep.value, rules))
       case AdminReset => IsCleared(v)
  }

  // Over every run: the settings change exactly then, to exactly that, and a refusal
  // changes nothing.
  lemma WhoSettles(u: Row, events: seq<Event>, i: nat, rules: Rules)
    requires i < |events| && Settles(events[i])
    ensures var v, e, out := After(u, events[..i], rules), events[i], OutcomeAt(u, events, i, rules);
      && out == (if MaySettle(v, e, rules) then Done else Refused)
      && if out == Done then SettlesTo(v, e, After(u, events[..i + 1], rules), rules)
         else After(u, events[..i + 1], rules) == v
  {
    assert events[..i + 1] == events[..i] + [events[i]];
    OneMoreEvent(u, events[..i], events[i], rules);
    ASetting(After(u, events[..i], rules), events[i], rules);
  }

  lemma ASetting(u: Row, e: Event, rules: Rules)
    requires Settles(e)
    ensures var (v, out) := Next(u, e, rules);
      && out == (if MaySettle(u, e, rules) then Done else Refused)
      && if out == Done then SettlesTo(u, e, v, rules) else v == u
  {
    match e {
      case Enable(now, code, codes) =>
        if u.secret.Some? { MatchIsFresh(u.secret.value, code, now, None, rules); }
      case Disable(now, right, code) => if u.secret.Some? { CheckedIsGood(u, code, now, rules); }
      case Regenerate(now, right, code, codes) => if u.secret.Some? { CheckedIsGood(u, code, now, rules); }
      case _ =>
    }
  }

  // The rest of what an admin or the owner does: an unlock or a new password forgets
  // the failures, and only a lock-out by an admin bars the account.
  lemma WhatElseHappens(u: Row, events: seq<Event>, i: nat, rules: Rules)
    requires i < |events| && !Attempts(events[i]) && !Settles(events[i])
    ensures var v, w, e := After(u, events[..i], rules), After(u, events[..i + 1], rules), events[i];
      && w.secret == v.secret && w.on == v.on && w.lastStep == v.lastStep && w.codes == v.codes
      && (if e.SetDisabled? then w == v.(disabled := e.disabled)
          else w.failures == 0 && w.lockedUntil == None && w.disabled == v.disabled)
  {
    assert events[..i + 1] == events[..i] + [events[i]];
    OneMoreEvent(u, events[..i], events[i], rules);
  }
}
