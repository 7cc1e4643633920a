/**
 * Runs of the account store, proved from the operations' contracts
 * alone: the sign-up and email-verification walk-through, code replacement, the
 * expiry boundary, and login with the right and a wrong password.
 */
module AccountScenarios {

  import opened Optional
  import opened Model
  import opened Http
  import opened Accounts
  import Decimal

  function Form(name: string, email: string, password: string): (b: Body) {
    Body(Some(name), Some(email), Some(password), None, None)
  }

  function Session(id: Id, otp: Option<string>): (b: Body) {
    Body(None, None, None, Some(id), otp)
  }

  /** Register "A" <a@x.com>, then try the same email again. */
  method DuplicateRegistration(hash: string -> Digest, matches: (string, Digest) -> bool)
    returns (registered: Reply, duplicate: Reply, count: nat)
    requires forall p :: matches(p, hash(p))
    ensures registered.status == 201 && registered.success && registered.token == Some(IssuedToken(0))
    ensures duplicate == Failure(400, "User already exists")
    ensures count == 1
  {
    var store := new AccountStore(hash, matches);
    var welcome;
    registered, welcome := store.Register(Form("A", "a@x.com", "secret1"));
    assert store.accounts[0].email == "a@x.com";
    duplicate, welcome := store.Register(Form("B", "a@x.com", "other"));
    count := |store.accounts|;
  }

  /**
   * On a registered account, request a code, request a second one, try the
   * first (replaced) code, confirm with the second at the last instant of its
   * window, and confirm once more.
   */
  method VerificationWalkthrough(hash: string -> Digest, matches: (string, Digest) -> bool,
                                 draw1: nat, draw2: nat, now: int)
    returns (replaced: Reply, confirmed: Reply, again: Reply)
    requires forall p :: matches(p, hash(p))
    requires 100000 <= draw1 <= 999999 && 100000 <= draw2 <= 999999 && draw1 != draw2
    ensures replaced == Failure(400, "Invalid OTP")
    ensures confirmed.status == 200 && confirmed.success
    ensures again == Failure(400, "Account already verified")
  {
    var store := new AccountStore(hash, matches);
    var r, mail;
    r, mail := store.Register(Form("A", "a@x.com", "secret1"));
    r, mail := store.SendVerifyOtp(Session(0, None), draw1, now);
    var first := Decimal.DecimalString(draw1);
    r, mail := store.SendVerifyOtp(Session(0, None), draw2, now);
    var second := Decimal.DecimalString(draw2);
    assert store.accounts[0].verifyOTP == second;
    if first == second {
      Decimal.DecimalStringInjective(draw1, draw2);
    }
    replaced := store.VerifyEmail(Session(0, Some(first)), now);
    confirmed := store.VerifyEmail(Session(0, Some(second)), now + ONE_HOUR_MS);
    again := store.VerifyEmail(Session(0, Some(second)), now + ONE_HOUR_MS);
  }

  /** A code presented one millisecond after its window is refused, and the record keeps it. */
  method ExpiredCode(hash: string -> Digest, matches: (string, Digest) -> bool, draw: nat, now: int)
    returns (expired: Reply, kept: bool)
    requires forall p :: matches(p, hash(p))
    requires 100000 <= draw <= 999999
    ensures expired == Failure(400, "OTP expired")
    ensures kept
  {
    var store := new AccountStore(hash, matches);
    var r, mail;
    r, mail := store.Register(Form("A", "a@x.com", "secret1"));
    r, mail := store.SendVerifyOtp(Session(0, None), draw, now);
    var code := Decimal.DecimalString(draw);
    expired := store.VerifyEmail(Session(0, Some(code)), now + ONE_HOUR_MS + 1);
    kept := store.accounts[0].verifyOTP == code && !store.accounts[0].isAccountVerified;
  }

  /** After registration the same password logs in; a password the digest does not match is refused. */
  method LoginAfterRegister(hash: string -> Digest, matches: (string, Digest) -> bool, wrong: string)
    returns (unknown: Reply, good: Reply, bad: Reply)
    requires forall p :: matches(p, hash(p))
    requires wrong != "" && !matches(wrong, hash("secret1"))
    ensures unknown == Failure(401, "Invalid email")
    ensures good == Reply(200, true, "Login successful", SessionCookie(0), None)
    ensures bad == Failure(401, "Invalid password")
  {
    var store := new AccountStore(hash, matches);
    var r, mail;
    r, mail := store.Register(Form("A", "a@x.com", "secret1"));
    unknown := store.Login(Body(None, Some("b@x.com"), Some("secret1"), None, None));
    good := store.Login(Body(None, Some("a@x.com"), Some("secret1"), None, None));
    bad := store.Login(Body(None, Some("a@x.com"), Some(wrong), None, None));
  }
}
