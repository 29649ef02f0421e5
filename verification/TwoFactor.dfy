/** Two-factor login of the administrator: passwords, pending tokens, TOTP codes and
    consumable recovery codes. Requests run one after another. */
module TwoFactor {
  import opened Credentials
  import opened Prelude

  const RECOVERY_CODES := 8
  const PENDING_SECONDS := 300
  const SESSION_SECONDS := 86400

  /** What the JWT secret signs; `purpose=2fa_pending` marks a pending token. */
  datatype Jwt = Jwt(subject: string, pending: bool, issued: int, expires: int)

  /** One fact of the login history, oldest first. */
  datatype Fact =
    | PasswordVerified(at: int)
    | CodeAccepted(at: int)
    | SessionOpened(at: int, protected: bool)

  /** The admin row, the tokens signed so far, and the history since the recovery codes
      were last generated. */
  datatype Account = Account(
    username: string,
    password: Hash,
    enabled: bool,
    secret: Option<string>,
    recovery: Option<seq<Hash>>,
    signed: set<Jwt>,
    history: seq<Fact>,
    generated: seq<string>,
    accepted: seq<string>)

  // ---- recovery codes ----

  function Secrets(hs: seq<Hash>): (r: seq<string>)
    ensures |r| == |hs| && forall i :: 0 <= i < |hs| ==> r[i] == hs[i].secret
  {
    if hs == [] then [] else [hs[0].secret] + Secrets(hs[1..])
  }

  /** `hash_recovery_codes`: one salted hash per code, in order. */
  method HashRecoveryCodes(codes: seq<string>, salts: seq<nat>) returns (hashed: seq<Hash>)
    requires |salts| == |codes|
    ensures Secrets(hashed) == codes
  {
    hashed := [];
    for i := 0 to |codes|
      invariant |hashed| == i && forall j :: 0 <= j < i ==> hashed[j].secret == codes[j]
    {
      hashed := hashed + [Hash(codes[i], salts[i])];
    }
  }

  /** The list without its first hash of `code`. */
  function Consumed(hs: seq<Hash>, code: string): seq<Hash> {
    if hs == [] then []
    else if Verifies(code, hs[0]) then hs[1..]
    else [hs[0]] + Consumed(hs[1..], code)
  }

  lemma {:induction false} ConsumedAt(hs: seq<Hash>, code: string, i: nat)
    requires i < |hs| && hs[i].secret == code
    requires forall j :: 0 <= j < i ==> hs[j].secret != code
    ensures Consumed(hs, code) == hs[..i] + hs[i + 1..]
  {
    if i > 0 {
      ConsumedAt(hs[1..], code, i - 1);
      assert hs[..i] + hs[i + 1..] == [hs[0]] + (hs[1..][..i - 1] + hs[1..][i..]);
    }
  }

  /** `verify_and_consume_recovery_code`, on the stripped and upper-cased code. */
  method VerifyAndConsume(code: string, hashed: seq<Hash>) returns (matched: bool, updated: Option<seq<Hash>>)
    ensures matched <==> code in Secrets(hashed)
    ensures updated == if matched then Some(Consumed(hashed, code)) else None
  {
    for i := 0 to |hashed|
      invariant forall j :: 0 <= j < i ==> hashed[j].secret != code
    {
      if Verifies(code, hashed[i]) {
        assert Secrets(hashed)[i] == code;
        ConsumedAt(hashed, code, i);
        return true, Some(hashed[..i] + hashed[i + 1..]);
      }
    }
    return false, None;
  }

  /** Consuming takes exactly one occurrence of the code away, and nothing else. */
  lemma {:induction false} ConsumedOnce(hs: seq<Hash>, code: string)
    requires code in Secrets(hs)
    ensures multiset(Secrets(hs)) == multiset(Secrets(Consumed(hs, code))) + multiset{code}
  {
    if !Verifies(code, hs[0]) {
      ConsumedOnce(hs[1..], code);
      var rest := Consumed(hs[1..], code);
      assert ([hs[0]] + rest)[1..] == rest;
    }
  }

  // ---- requests ----

  /** The pairs of a secret and a code that fit at the moment of a request. */
  type Totp = set<(string, string)>

  /** `verify_totp_code`, with the stored secret */
  predicate Right(secret: Option<string>, code: string, totp: Totp) {
    secret.Some? && (secret.value, code) in totp
  }

  datatype Event =
    | Login(password: string, now: int)
    | VerifyLogin(token: Jwt, recovery: bool, code: string, totp: Totp, now: int)
    | Setup(secret: string, codes: seq<string>, hashes: seq<Hash>)
    | VerifySetup(code: string, totp: Totp)
    | Disable(password: string, code: string, totp: Totp)
    | Regenerate(password: string, code: string, totp: Totp, codes: seq<string>, hashes: seq<Hash>)

  /** `jwt.decode`: only what was signed, and only until it expires. */
  predicate Genuine(a: Account, t: Jwt, now: int) {
    t in a.signed && now < t.expires
  }

  function DecodePending(a: Account, t: Jwt, now: int): Option<string> {
    if Genuine(a, t, now) && t.pending then Some(t.subject) else None
  }

  function DecodeAccess(a: Account, t: Jwt, now: int): Option<string> {
    if Genuine(a, t, now) && !t.pending then Some(t.subject) else None
  }

  function OpenSession(a: Account, now: int): Account {
    a.(signed := a.signed + {Jwt(a.username, false, now, now + SESSION_SECONDS)},
       history := a.history + [SessionOpened(now, a.enabled)])
  }

  function Accept(a: Account, now: int): Account {
    OpenSession(a.(history := a.history + [CodeAccepted(now)]), now)
  }

  function WithConsumed(a: Account, code: string): Account
    requires a.recovery.Some?
  {
    a.(recovery := Some(Consumed(a.recovery.value, code)), accepted := a.accepted + [code])
  }

  /** Codes come eight at a time, hashed one by one. */
  predicate Batch(codes: seq<string>, hashes: seq<Hash>) {
    |codes| == RECOVERY_CODES && Secrets(hashes) == codes
  }

  /** The account after a request; a refused request leaves it as it was. */
  function Step(a: Account, e: Event): Account {
    match e
    case Login(password, now) =>
      if !Verifies(password, a.password) then a
      else
        var b := a.(history := a.history + [PasswordVerified(now)]);
        if a.enabled then b.(signed := a.signed + {Jwt(a.username, true, now, now + PENDING_SECONDS)})
        else OpenSession(b, now)
    case VerifyLogin(token, recovery, code, totp, now) =>
      if DecodePending(a, token, now) != Some(a.username) || !a.enabled then a
      else if recovery then
        if a.recovery.Some? && code in Secrets(a.recovery.value) then
          Accept(WithConsumed(a, code), now)
        else a
      else if Right(a.secret, code, totp) then Accept(a, now) else a
    case Setup(secret, codes, hashes) =>
      if a.enabled || !Batch(codes, hashes) then a
      else a.(secret := Some(secret), recovery := Some(hashes), generated := codes, accepted := [])
    case VerifySetup(code, totp) =>
      if a.enabled || a.secret.None? || !Right(a.secret, code, totp) then a else a.(enabled := true)
    case Disable(password, code, totp) =>
      if !a.enabled || !Verifies(password, a.password) || !Right(a.secret, code, totp) then a
      else a.(enabled := false, secret := None, recovery := None)
    case Regenerate(password, code, totp, codes, hashes) =>
      if !a.enabled || !Verifies(password, a.password) || !Right(a.secret, code, totp) || !Batch(codes, hashes) then a
      else a.(recovery := Some(hashes), generated := codes, accepted := [])
  }

  function Run(a: Account, es: seq<Event>): Account
    decreases |es|
  {
    if es == [] then a else Run(Step(a, es[0]), es[1..])
  }

  function NewAccount(username: string, password: Hash): Account {
    Account(username, password, false, None, None, {}, [], [], [])
  }

  /** The second step of a login is for the account's own, unexpired pending token, while
      2FA is on, with a recovery code of the stored list or the code of the stored secret. */
  ghost predicate Admits(a: Account, token: Jwt, recovery: bool, code: string, totp: Totp, now: int) {
    && token in a.signed && token.pending && token.subject == a.username && now < token.expires
    && a.enabled
    && if recovery then a.recovery.Some? && exists h :: h in a.recovery.value && h.secret == code
       else a.secret.Some? && (a.secret.value, code) in totp
  }

  lemma {:induction false} SecretsHave(hs: seq<Hash>, code: string)
    ensures code in Secrets(hs) <==> exists h :: h in hs && h.secret == code
  {
    var r := Secrets(hs);
    assert forall i :: 0 <= i < |hs| ==> r[i] == hs[i].secret && hs[i] in hs;
  }

  /** The endpoints, assigning the admin row field by field. */
  class AdminService {
    const username: string
    const password: Hash
    var enabled: bool
    var secret: Option<string>
    var recovery: Option<seq<Hash>>
    var signed: set<Jwt>
    ghost var history: seq<Fact>
    ghost var generated: seq<string>
    ghost var accepted: seq<string>

    ghost function State(): Account
      reads this
    {
      Account(username, password, enabled, secret, recovery, signed, history, generated, accepted)
    }

    constructor (username: string, password: Hash)
      ensures State() == NewAccount(username, password)
    {
      this.username, this.password := username, password;
      enabled, secret, recovery, signed := false, None, None, {};
      history, generated, accepted := [], [], [];
    }

    /** `POST /login`: a session, or a pending token when 2FA is on. */
    method Login(password: string, now: int) returns (token: Option<Jwt>)
      modifies this
      ensures State() == Step(old(State()), Event.Login(password, now))
      ensures token.Some? <==> password == this.password.secret
      ensures token.Some? ==>
                && signed == old(signed) + {token.value}
                && token.value == Jwt(username, enabled, now, now + (if enabled then 300 else 86400))
    {
      if !Verifies(password, this.password) {
        return None;
      }
      history := history + [PasswordVerified(now)];
      if enabled {
        token := Some(Jwt(username, true, now, now + PENDING_SECONDS));
      } else {
        token := Some(Jwt(username, false, now, now + SESSION_SECONDS));
        history := history + [SessionOpened(now, enabled)];
      }
      signed := signed + {token.value};
    }

    /** `POST /login/verify-2fa` */
    method VerifyLogin(token: Jwt, isRecovery: bool, code: string, totp: Totp, now: int)
      returns (session: Option<Jwt>)
      modifies this
      ensures State() == Step(old(State()), Event.VerifyLogin(token, isRecovery, code, totp, now))
      ensures session.Some? <==> Admits(old(State()), token, isRecovery, code, totp, now)
      ensures session.Some? ==>
                signed == old(signed) + {session.value} && session.value == Jwt(username, false, now, now + 86400)
    {
      if !(token in signed && now < token.expires && token.pending) || token.subject != username || !enabled {
        return None;
      }
      if isRecovery {
        if recovery.None? {
          return None;
        }
        SecretsHave(recovery.value, code);
        var matched, updated := VerifyAndConsume(code, recovery.value);
        if !matched {
          return None;
        }
        recovery := updated;
        accepted := accepted + [code];
      } else {
        if !Right(secret, code, totp) {
          return None;
        }
      }
      var jwt := Jwt(username, false, now, now + SESSION_SECONDS);
      signed := signed + {jwt};
      history := history + [CodeAccepted(now)] + [SessionOpened(now, enabled)];
      session := Some(jwt);
    }

    /** `POST /2fa/setup` */
    method Setup(drawn: string, codes: seq<string>, salts: seq<nat>) returns (ok: bool, ghost hashes: seq<Hash>)
      requires |codes| == 8 && |salts| == 8
      modifies this`secret, this`recovery, this`generated, this`accepted
      ensures State() == Step(old(State()), Event.Setup(drawn, codes, hashes))
      ensures ok <==> !enabled
      ensures ok ==> secret == Some(drawn) && recovery.Some? && Secrets(recovery.value) == codes
      ensures !ok ==> State() == old(State())
    {
      var hashed := HashRecoveryCodes(codes, salts);
      hashes := hashed;
      if enabled {
        return false, hashes;
      }
      secret, recovery := Some(drawn), Some(hashed);
      generated, accepted := codes, [];
      ok := true;
    }

    /** `POST /2fa/verify-setup` */
    method VerifySetup(code: string, totp: Totp) returns (ok: bool)
      modifies this`enabled
      ensures State() == Step(old(State()), Event.VerifySetup(code, totp))
      ensures ok <==> !old(enabled) && secret.Some? && (secret.value, code) in totp
      ensures enabled == (ok || old(enabled))
    {
      if enabled || secret.None? || !Right(secret, code, totp) {
        return false;
      }
      enabled := true;
      ok := true;
    }

    /** `POST /2fa/disable` */
    method Disable(password: string, code: string, totp: Totp) returns (ok: bool)
      modifies this`enabled, this`secret, this`recovery
      ensures State() == Step(old(State()), Event.Disable(password, code, totp))
      ensures ok <==> && old(enabled) && password == this.password.secret
                      && old(secret).Some? && (old(secret).value, code) in totp
      ensures ok ==> !enabled && secret == None && recovery == None
      ensures !ok ==> State() == old(State())
    {
      if !enabled || !Verifies(password, this.password) || !Right(secret, code, totp) {
        return false;
      }
      enabled, secret, recovery := false, None, None;
      ok := true;
    }

    /** `POST /2fa/regenerate-recovery` */
    method Regenerate(password: string, code: string, totp: Totp, codes: seq<string>, salts: seq<nat>)
      returns (ok: bool, ghost hashes: seq<Hash>)
      requires |codes| == 8 && |salts| == 8
      modifies this`recovery, this`generated, this`accepted
      ensures State() == Step(old(State()), Event.Regenerate(password, code, totp, codes, hashes))
      ensures ok <==> enabled && password == this.password.secret && secret.Some? && (secret.value, code) in totp
      ensures ok ==> recovery.Some? && Secrets(recovery.value) == codes
      ensures !ok ==> State() == old(State())
    {
      var hashed := HashRecoveryCodes(codes, salts);
      hashes := hashed;
      if !enabled || !Verifies(password, this.password) || !Right(secret, code, totp) {
        return false, hashes;
      }
      recovery := Some(hashed);
      generated, accepted := codes, [];
      ok := true;
    }
  }

  // ---- what every run keeps ----

  /** A password was verified before position `n`, at most five minutes before `at`. */
  ghost predicate RecentPassword(history: seq<Fact>, n: int, at: int) {
    exists p :: 0 <= p < n && p < |history| && history[p].PasswordVerified?
                && at < history[p].at + 300
  }

  ghost predicate SessionGuarded(history: seq<Fact>, i: nat)
    requires i < |history|
  {
    var f := history[i];
    f.SessionOpened? ==>
      i >= 1 &&
      if f.protected then history[i - 1] == CodeAccepted(f.at) && RecentPassword(history, i - 1, f.at)
      else history[i - 1] == PasswordVerified(f.at)
  }

  /** Every session opened under 2FA follows a password and, right before it, a code. */
  ghost predicate Guarded(history: seq<Fact>) {
    forall i :: 0 <= i < |history| ==> SessionGuarded(history, i)
  }

  ghost predicate Accounted(t: Jwt, username: string, history: seq<Fact>) {
    && t.subject == username
    && if t.pending then t.expires == t.issued + 300 && PasswordVerified(t.issued) in history
       else && t.expires == t.issued + 86400
            && (SessionOpened(t.issued, true) in history || SessionOpened(t.issued, false) in history)
  }

  /** Every signed token has its fact in the history. */
  ghost predicate TokensAccounted(a: Account) {
    forall t :: t in a.signed ==> Accounted(t, a.username, a.history)
  }

  /** Accepted and remaining codes are together the generated ones, one for one. */
  ghost predicate CodesConserved(a: Account) {
    a.recovery.Some? ==>
      && |a.generated| == 8
      && multiset(a.generated) == multiset(a.accepted) + multiset(Secrets(a.recovery.value))
  }

  ghost predicate Inv(a: Account) {
    && (a.enabled ==> a.secret.Some?)
    && (a.secret.Some? <==> a.recovery.Some?)
    && Guarded(a.history)
    && TokensAccounted(a)
    && CodesConserved(a)
  }

  lemma {:induction false} GuardedAppend(history: seq<Fact>, f: Fact)
    requires Guarded(history) && SessionGuarded(history + [f], |history|)
    ensures Guarded(history + [f])
  {
    var h := history + [f];
    forall i | 0 <= i < |history| ensures SessionGuarded(h, i) {
      assert SessionGuarded(history, i);
      if history[i].SessionOpened? && history[i].protected {
        LongerHistory(history, h, i - 1, history[i].at);
      }
    }
  }

  lemma {:induction false} LongerHistory(history: seq<Fact>, longer: seq<Fact>, n: int, at: int)
    requires history <= longer && RecentPassword(history, n, at)
    ensures RecentPassword(longer, n, at)
  {
    var p :| 0 <= p < n && p < |history| && history[p].PasswordVerified? && at < history[p].at + 300;
    assert longer[p] == history[p];
  }

  lemma {:induction false} AcceptInv(a: Account, token: Jwt, now: int)
    requires Inv(a) && a.enabled && DecodePending(a, token, now).Some?
    ensures Inv(Accept(a, now))
  {
    var h := a.history + [CodeAccepted(now)];
    GuardedAppend(a.history, CodeAccepted(now));
    assert Accounted(token, a.username, a.history);
    var p :| 0 <= p < |a.history| && a.history[p] == PasswordVerified(token.issued);
    var b := Accept(a, now);
    assert b.history == h + [SessionOpened(now, true)];
    assert b.history[p] == a.history[p];
    assert RecentPassword(b.history, |h| - 1, now);
    GuardedAppend(h, SessionOpened(now, true));
    assert b.history[|h|] == SessionOpened(now, true);
    assert a.history <= b.history;
    HistoryGrows(a, b.history);
  }

  lemma {:induction false} HistoryGrows(a: Account, longer: seq<Fact>)
    requires TokensAccounted(a) && a.history <= longer
    ensures forall t :: t in a.signed ==> Accounted(t, a.username, longer)
  {
    assert forall f :: f in a.history ==> f in longer;
  }

  lemma {:induction false} LoginInv(a: Account, now: int)
    requires Inv(a)
    ensures Inv(Step(a, Login(a.password.secret, now)))
  {
    var b := Step(a, Login(a.password.secret, now));
    var h := a.history + [PasswordVerified(now)];
    GuardedAppend(a.history, PasswordVerified(now));
    assert h[|a.history|] == PasswordVerified(now);
    if a.enabled {
      HistoryGrows(a, b.history);
    } else {
      assert b.history == h + [SessionOpened(now, false)];
      assert b.history[|h|] == SessionOpened(now, false);
      GuardedAppend(h, SessionOpened(now, false));
      assert a.history <= b.history;
      HistoryGrows(a, b.history);
    }
  }

  lemma {:induction false} ConsumeInv(a: Account, code: string)
    requires Inv(a) && a.recovery.Some? && code in Secrets(a.recovery.value)
    ensures Inv(WithConsumed(a, code))
  {
    ConsumedOnce(a.recovery.value, code);
    assert multiset(a.accepted + [code]) == multiset(a.accepted) + multiset{code};
  }

  /** A fresh batch starts with nothing accepted. */
  lemma {:induction false} NewCodesInv(a: Account, codes: seq<string>, hashes: seq<Hash>)
    requires Batch(codes, hashes)
    ensures CodesConserved(a.(recovery := Some(hashes), generated := codes, accepted := []))
  {
    assert multiset(codes) == multiset([]) + multiset(Secrets(hashes));
  }

  lemma {:induction false} StepInv(a: Account, e: Event)
    requires Inv(a)
    ensures Inv(Step(a, e))
  {
    match e
    case Login(password, now) =>
      if Verifies(password, a.password) {
        LoginInv(a, now);
      }
    case VerifyLogin(token, recovery, code, totp, now) =>
      if DecodePending(a, token, now) == Some(a.username) && a.enabled {
        if recovery {
          if code in Secrets(a.recovery.value) {
            ConsumeInv(a, code);
            AcceptInv(WithConsumed(a, code), token, now);
          }
        } else if Right(a.secret, code, totp) {
          AcceptInv(a, token, now);
        }
      }
    case Setup(secret, codes, hashes) =>
      if Batch(codes, hashes) { NewCodesInv(a, codes, hashes); }
    case Regenerate(password, code, totp, codes, hashes) =>
      if Batch(codes, hashes) { NewCodesInv(a, codes, hashes); }
    case _ =>
  }

  lemma {:induction false} RunInv(a: Account, es: seq<Event>)
    requires Inv(a)
    ensures Inv(Run(a, es))
    decreases |es|
  {
    if es != [] {
      StepInv(a, es[0]);
      RunInv(Step(a, es[0]), es[1..]);
    }
  }

  /** In every reachable state 2FA can only be on with a secret and a recovery list, and
      every session opened while it is on follows a verified password, at most five minutes
      old, and then an accepted code; and every password and code was presented and right. */
  lemma {:induction false} TwoFactorIsEnforced(username: string, password: Hash, es: seq<Event>)
    ensures var a := Run(NewAccount(username, password), es);
            && (a.enabled ==> a.secret.Some? && a.recovery.Some?)
            && Guarded(a.history)
            && forall t, now :: DecodeAccess(a, t, now).Some? ==>
                 && now < t.issued + 86400 && t.subject == a.username
                 && (SessionOpened(t.issued, true) in a.history || SessionOpened(t.issued, false) in a.history)
    ensures var a := NewAccount(username, password);
            forall i :: 0 <= i < |Run(a, es).history| ==> Presented(a, es, Run(a, es).history[i])
  {
    var a := NewAccount(username, password);
    RunInv(a, es);
    forall i | 0 <= i < |Run(a, es).history| ensures Presented(a, es, Run(a, es).history[i]) {
      var k := EveryFactIsBacked(a, es, i);
    }
  }

  /** Some request of the run presented what the fact takes. */
  ghost predicate Presented(a: Account, es: seq<Event>, f: Fact) {
    exists k :: 0 <= k < |es| && Backs(Run(a, es[..k]), es[k], f)
  }

  // ---- every fact has its request ----

  /** What a request must have presented to leave the fact behind. */
  ghost predicate Backs(a: Account, e: Event, f: Fact) {
    match f
    case PasswordVerified(at) => e.Login? && e.now == at && e.password == a.password.secret
    case CodeAccepted(at) =>
      e.VerifyLogin? && e.now == at && Admits(a, e.token, e.recovery, e.code, e.totp, at)
    case SessionOpened(at, protected) =>
      && protected == a.enabled
      && if protected then
           e.VerifyLogin? && e.now == at && Admits(a, e.token, e.recovery, e.code, e.totp, at)
         else e.Login? && e.now == at && e.password == a.password.secret
  }

  /** A recovery code that lets somebody in is gone afterwards, once. */
  ghost predicate Consumes(a: Account, b: Account, e: Event) {
    e.VerifyLogin? && e.recovery && a.recovery.Some? ==>
      && b.recovery.Some?
      && multiset(Secrets(a.recovery.value)) == multiset(Secrets(b.recovery.value)) + multiset{e.code}
  }

  /** What is added to the history, and where that leaves the codes. */
  ghost predicate Backed(a: Account, b: Account, e: Event) {
    && a.history <= b.history && b.password == a.password
    && (forall i :: |a.history| <= i < |b.history| ==> Backs(a, e, b.history[i]))
    && (|a.history| < |b.history| ==> Consumes(a, b, e))
  }

  lemma {:induction false} VerifyBacked(a: Account, e: Event)
    requires e.VerifyLogin?
    ensures Step(a, e) == a <==> !Admits(a, e.token, e.recovery, e.code, e.totp, e.now)
    ensures Backed(a, Step(a, e), e)
  {
    var b := Step(a, e);
    if a.recovery.Some? { SecretsHave(a.recovery.value, e.code); }
    if Admits(a, e.token, e.recovery, e.code, e.totp, e.now) {
      if e.recovery { ConsumedOnce(a.recovery.value, e.code); }
      assert b.history == a.history + [CodeAccepted(e.now)] + [SessionOpened(e.now, true)];
    }
  }

  lemma {:induction false} StepBacked(a: Account, e: Event)
    ensures Backed(a, Step(a, e), e)
  {
    if e.VerifyLogin? { VerifyBacked(a, e); }
  }

  /** Every fact that a run adds to the history is backed by one of its requests: each
      accepted code by a login whose TOTP code fits the stored secret, or whose recovery
      code was in the stored list and has been taken out of it. */
  lemma {:induction false} EveryFactIsBacked(a: Account, es: seq<Event>, i: nat) returns (k: nat)
    requires |a.history| <= i < |Run(a, es).history|
    ensures k < |es|
    ensures Backs(Run(a, es[..k]), es[k], Run(a, es).history[i])
    ensures Consumes(Run(a, es[..k]), Run(a, es[..k + 1]), es[k])
    decreases |es|
  {
    var b := Step(a, es[0]);
    StepBacked(a, es[0]);
    RunBacked(b, es[1..]);
    if i < |b.history| {
      k := 0;
      assert es[..1][1..] == [] && Run(b, []) == b;
    } else {
      var later := EveryFactIsBacked(b, es[1..], i);
      k := later + 1;
      assert es[..k][1..] == es[1..][..later] && es[..k + 1][1..] == es[1..][..later + 1];
    }
  }

  lemma {:induction false} RunBacked(a: Account, es: seq<Event>)
    ensures a.history <= Run(a, es).history
    decreases |es|
  {
    if es != [] {
      StepBacked(a, es[0]);
      RunBacked(Step(a, es[0]), es[1..]);
    }
  }

  /** A login changes anything exactly with the right password, and the second step exactly
      with what it demands; both sign one token; no other request signs any. */
  lemma {:induction false} AdmittedExactly(a: Account, e: Event)
    ensures e.Login? ==>
              && (Step(a, e) != a <==> e.password == a.password.secret)
              && (Step(a, e) != a ==>
                    Step(a, e).signed == a.signed + {Jwt(a.username, a.enabled, e.now,
                                                         e.now + (if a.enabled then 300 else 86400))})
    ensures e.VerifyLogin? ==>
              && (Step(a, e) != a <==> Admits(a, e.token, e.recovery, e.code, e.totp, e.now))
              && (Step(a, e) != a ==>
                    && Step(a, e).signed == a.signed + {Jwt(a.username, false, e.now, e.now + 86400)}
                    && Consumes(a, Step(a, e), e)
                    && (!e.recovery ==> Step(a, e).recovery == a.recovery))
    ensures !e.Login? && !e.VerifyLogin? ==> Step(a, e).signed == a.signed && Step(a, e).history == a.history
  {
    StepBacked(a, e);
    if e.VerifyLogin? { VerifyBacked(a, e); }
    if Step(a, e) != a && (e.Login? || e.VerifyLogin?) { assert |Step(a, e).history| > |a.history|; }
    if e.Login? && Verifies(e.password, a.password) { assert |Step(a, e).history| > |a.history|; }
  }

  /** A pending token is never a session, nor a session a pending token. */
  lemma {:induction false} PendingIsNoSession(a: Account, t: Jwt, now: int)
    ensures DecodePending(a, t, now).Some? ==> DecodeAccess(a, t, now).None?
  {
  }

  lemma {:induction false} DistinctOnce(codes: seq<string>, c: string)
    requires Distinct(codes)
    ensures multiset(codes)[c] <= 1
  {
    if codes != [] {
      var rest := codes[1..];
      DistinctOnce(rest, c);
      assert codes == [codes[0]] + rest;
      assert codes[0] !in rest by {
        assert forall j :: 0 <= j < |rest| ==> rest[j] == codes[j + 1];
      }
    }
  }

  /** `count_remaining_recovery_codes` */
  function Remaining(a: Account): nat {
    if a.recovery.Some? then |a.recovery.value| else 0
  }

  /** Recovery logins since the last generation plus the codes left make eight, and no
      code is accepted more often than it was generated: once, when they are distinct. */
  lemma {:induction false} RecoveryCodesConserved(username: string, password: Hash, es: seq<Event>, code: string)
    ensures var a := Run(NewAccount(username, password), es);
            a.recovery.Some? ==>
              && |a.accepted| + Remaining(a) == 8
              && multiset(a.accepted)[code] + multiset(Secrets(a.recovery.value))[code] == multiset(a.generated)[code]
              && (Distinct(a.generated) ==> multiset(a.accepted)[code] <= 1)
  {
    RunInv(NewAccount(username, password), es);
    var a := Run(NewAccount(username, password), es);
    if a.recovery.Some? {
      assert |multiset(a.generated)| == |multiset(a.accepted)| + |multiset(Secrets(a.recovery.value))|;
      if Distinct(a.generated) {
        DistinctOnce(a.generated, code);
      }
    }
  }
}
