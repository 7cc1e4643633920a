/**
 * The auth controller: the account store and the per-account lifecycle
 * (registration, login, logout, OTP issue and OTP confirmation).
 *
 * Each operation is a short sequence of guards that answer early, followed by
 * in-place updates of one record. The password hasher is injected; the token
 * signer is modelled by the claims it signs; the OTP draw and the clock are
 * parameters; mail delivery is a sink whose outcome no operation reads.
 */
module Accounts {

  import opened Optional
  import opened Model
  import opened Http
  import Decimal

  /** What a response does to the "token" cookie. */
  datatype CookieOp = Untouched | SetToken(token: Token, maxAgeMs: int) | Cleared

  /** One JSON response of the controller: status, success flag, message, cookie and the optional token field. */
  datatype Reply = Reply(status: int, success: bool, message: string, cookie: CookieOp, token: Option<Token>)

  /** A notification handed to the mail sink. */
  datatype Mail = Mail(to: string, subject: string, text: string)

  function Failure(status: int, message: string): (r: Reply) {
    Reply(status, false, message, Untouched, None)
  }

  /** The cookie set after signing a session: the issued token with a one-hour max age. */
  function SessionCookie(id: Id): (cookie: CookieOp) {
    SetToken(IssuedToken(id), ONE_HOUR_MS)
  }

  function WelcomeMail(name: string, email: string): (m: Mail) {
    Mail(email, "Welcome to our website", "Hello " + name + ", Welcome to our website. We are glad to have you here.")
  }

  function OtpMail(email: string, otp: string): (m: Mail) {
    Mail(email, "OTP Verification", "Your OTP is: " + otp)
  }

  /** A freshly created document: unverified, with no pending code. */
  function NewAccount(name: string, email: string, password: Digest): (a: Account) {
    Account(name, email, password, false, "", 0)
  }

  ghost predicate HasEmail(accounts: map<Id, Account>, email: string) {
    exists id :: id in accounts && accounts[id].email == email
  }

  ghost predicate EmailsUnique(accounts: map<Id, Account>) {
    forall i, j :: i in accounts && j in accounts && accounts[i].email == accounts[j].email ==> i == j
  }

  /**
   * The shape every record keeps: a pending code is a six-digit code, and a
   * verified account has no pending code and a zero expiry.
   */
  ghost predicate WellFormed(a: Account) {
    && (a.verifyOTP == "" || Decimal.IsOtpCode(a.verifyOTP))
    && (a.isAccountVerified ==> a.verifyOTP == "" && a.verifyOTPExpireAt == 0)
  }

  /**
   * How the store may change between two moments: no record disappears, the
   * identity fields of a record never change, and verification never reverts.
   */
  ghost predicate Evolves(before: map<Id, Account>, after: map<Id, Account>) {
    forall id :: id in before ==>
      && id in after
      && after[id].name == before[id].name
      && after[id].email == before[id].email
      && after[id].password == before[id].password
      && (before[id].isAccountVerified ==> after[id].isAccountVerified)
  }

  lemma EvolvesTransitive(a: map<Id, Account>, b: map<Id, Account>, c: map<Id, Account>)
    requires Evolves(a, b) && Evolves(b, c)
    ensures Evolves(a, c)
  {
  }

  class AccountStore {
    /** bcrypt.hash and bcrypt.compare, injected. */
    const hash: string -> Digest
    const matches: (string, Digest) -> bool
    var accounts: map<Id, Account>
    var nextId: Id

    ghost predicate Valid()
      reads this
    {
      && (forall p :: matches(p, hash(p)))
      && (forall id :: id in accounts ==> id < nextId)
      && EmailsUnique(accounts)
      && (forall id :: id in accounts ==> WellFormed(accounts[id]))
    }

    constructor (hash: string -> Digest, matches: (string, Digest) -> bool)
      requires forall p :: matches(p, hash(p))
      ensures Valid()
      ensures this.hash == hash && this.matches == matches && accounts == map[] && nextId == 0
    {
      this.hash := hash;
      this.matches := matches;
      accounts := map[];
      nextId := 0;
    }

    /** POST /register: validate, reject a taken email, store the hashed password, sign a session. */
    method Register(body: Body) returns (r: Reply, welcome: Option<Mail>)
      requires Valid()
      modifies this
      ensures Valid() && Evolves(old(accounts), accounts)
      ensures Missing(body.name) || Missing(body.email) || Missing(body.password) ==>
        && r == Failure(400, "All fields are required")
        && welcome == None
        && unchanged(this)
      ensures !Missing(body.name) && !Missing(body.email) && !Missing(body.password) ==>
        if HasEmail(old(accounts), body.email.value) then
          && r == Failure(400, "User already exists")
          && welcome == None
          && unchanged(this)
        else
          && old(nextId) !in old(accounts)
          && accounts == old(accounts)[old(nextId) := NewAccount(body.name.value, body.email.value, hash(body.password.value))]
          && |accounts| == |old(accounts)| + 1
          && nextId == old(nextId) + 1
          && r == Reply(201, true, "User registered successfully", SessionCookie(old(nextId)), Some(IssuedToken(old(nextId))))
          && welcome == Some(WelcomeMail(body.name.value, body.email.value))
    {
      if Missing(body.name) || Missing(body.email) || Missing(body.password) {
        return Failure(400, "All fields are required"), None;
      }
      var name, email, password := body.name.value, body.email.value, body.password.value;
      if exists id :: id in accounts && accounts[id].email == email {
        return Failure(400, "User already exists"), None;
      }
      var hashedPassword := hash(password);
      var id := nextId;
      assert id !in accounts;
      accounts := accounts[id := NewAccount(name, email, hashedPassword)];
      nextId := nextId + 1;
      var token := IssuedToken(id);
      // The welcome mail goes to the sink; a delivery failure is swallowed and never reaches the reply.
      welcome := Some(WelcomeMail(name, email));
      r := Reply(201, true, "User registered successfully", SetToken(token, ONE_HOUR_MS), Some(token));
    }

    /** POST /login: validate, find the account by email, compare the password, sign a session. */
    method Login(body: Body) returns (r: Reply)
      requires Valid()
      ensures Missing(body.email) || Missing(body.password) ==>
        r == Failure(400, "Both Email and password are required")
      ensures !Missing(body.email) && !Missing(body.password) && !HasEmail(accounts, body.email.value) ==>
        r == Failure(401, "Invalid email")
      ensures !Missing(body.email) && !Missing(body.password) ==>
        forall id :: id in accounts && accounts[id].email == body.email.value ==>
          r == if matches(body.password.value, accounts[id].password)
               then Reply(200, true, "Login successful", SessionCookie(id), None)
               else Failure(401, "Invalid password")
    {
      if Missing(body.email) || Missing(body.password) {
        return Failure(400, "Both Email and password are required");
      }
      var email, password := body.email.value, body.password.value;
      if !exists id :: id in accounts && accounts[id].email == email {
        return Failure(401, "Invalid email");
      }
      var id :| id in accounts && accounts[id].email == email;
      var isMatch := matches(password, accounts[id].password);
      if !isMatch {
        return Failure(401, "Invalid password");
      }
      r := Reply(200, true, "Login successful", SessionCookie(id), None);
    }

    /** POST /logout: clear the cookie; the store is not consulted. */
    method Logout() returns (r: Reply)
      ensures r == Reply(200, true, "Logout successful", Cleared, None)
    {
      r := Reply(200, true, "Logout successful", Cleared, None);
    }

    /**
     * POST /send-verify-otp: find the account named in the body, refuse a verified one,
     * store String(draw) with a one-hour expiry. The draw stands for
     * Math.floor(100000 + Math.random() * 900000); the reply is the one sent before the mail.
     */
    method SendVerifyOtp(body: Body, draw: nat, now: int) returns (r: Reply, otpMail: Option<Mail>)
      requires Valid()
      requires 100000 <= draw <= 999999
      modifies this
      ensures Valid() && Evolves(old(accounts), accounts) && nextId == old(nextId)
      ensures body.userId.None? || body.userId.value !in old(accounts) ==>
        r == Failure(404, "User not found") && otpMail == None && accounts == old(accounts)
      ensures body.userId.Some? && body.userId.value in old(accounts) ==>
        var id := body.userId.value;
        var user := old(accounts)[id];
        if user.isAccountVerified then
          r == Failure(400, "Account already verified") && otpMail == None && accounts == old(accounts)
        else
          && r == Reply(200, true, "OTP sent successfully", Untouched, None)
          && Decimal.IsOtpCode(accounts[id].verifyOTP)
          && Decimal.ParseDecimal(accounts[id].verifyOTP) == draw
          && accounts == old(accounts)[id := user.(verifyOTP := Decimal.DecimalString(draw), verifyOTPExpireAt := now + ONE_HOUR_MS)]
          && otpMail == Some(OtpMail(user.email, accounts[id].verifyOTP))
    {
      if body.userId.None? || body.userId.value !in accounts {
        return Failure(404, "User not found"), None;
      }
      var id := body.userId.value;
      if accounts[id].isAccountVerified {
        return Failure(400, "Account already verified"), None;
      }
      var otp := Decimal.DecimalString(draw);
      Decimal.OtpCodeOfDraw(draw);
      accounts := accounts[id := accounts[id].(verifyOTP := otp, verifyOTPExpireAt := now + ONE_HOUR_MS)];
      r := Reply(200, true, "OTP sent successfully", Untouched, None);
      otpMail := Some(OtpMail(accounts[id].email, otp));
    }

    /**
     * POST /verify-email: find the account and the supplied code, refuse a verified
     * account, a wrong or empty stored code and a stored expiry before now; on
     * success clear the code and mark the account verified.
     */
    method VerifyEmail(body: Body, now: int) returns (r: Reply)
      requires Valid()
      modifies this
      ensures Valid() && Evolves(old(accounts), accounts) && nextId == old(nextId)
      ensures body.userId.None? || body.userId.value !in old(accounts) || Missing(body.otp) ==>
        r == Failure(404, "User not found") && accounts == old(accounts)
      ensures body.userId.Some? && body.userId.value in old(accounts) && !Missing(body.otp) ==>
        var id := body.userId.value;
        var user := old(accounts)[id];
        if user.isAccountVerified then
          r == Failure(400, "Account already verified") && accounts == old(accounts)
        else if user.verifyOTP != body.otp.value || user.verifyOTP == "" then
          r == Failure(400, "Invalid OTP") && accounts == old(accounts)
        else if user.verifyOTPExpireAt < now then
          r == Failure(400, "OTP expired") && accounts == old(accounts)
        else
          && r == Reply(200, true, "User verified successfully", Untouched, None)
          && accounts == old(accounts)[id := user.(verifyOTP := "", verifyOTPExpireAt := 0, isAccountVerified := true)]
    {
      if body.userId.None? || body.userId.value !in accounts || Missing(body.otp) {
        return Failure(404, "User not found");
      }
      var id, otp := body.userId.value, body.otp.value;
      var user := accounts[id];
      if user.isAccountVerified {
        return Failure(400, "Account already verified");
      }
      if user.verifyOTP != otp || user.verifyOTP == "" {
        return Failure(400, "Invalid OTP");
      }
      if user.verifyOTPExpireAt < now {
        return Failure(400, "OTP expired");
      }
      accounts := accounts[id := user.(verifyOTP := "", verifyOTPExpireAt := 0, isAccountVerified := true)];
      r := Reply(200, true, "User verified successfully", Untouched, None);
    }
  }
}
