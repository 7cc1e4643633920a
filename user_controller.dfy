/**
 * getUserData: look the account up and answer with a fixed three-field
 * projection, together with the route that puts userAuth in front of it.
 */
module UserController {

  import opened Optional
  import opened Model
  import opened Http
  import UserAuth

  /** The userData object of the reply: the only account fields that leave the server. */
  datatype UserData = UserData(name: string, email: string, isAccountVerified: bool)

  datatype UserDataReply = NotFound | Found(userData: UserData) {
    function Status(): (status: int) {
      if NotFound? then 404 else 200
    }

    function Success(): (success: bool) {
      Found?
    }
  }

  function GetUserData(accounts: map<Id, Account>, userId: Option<Id>): (r: UserDataReply)
    ensures r.NotFound? <==> userId.None? || userId.value !in accounts
    ensures r.Status() == 404 <==> !r.Success()
    ensures r.Found? ==>
      var a := accounts[userId.value];
      r.userData.name == a.name && r.userData.email == a.email && r.userData.isAccountVerified == a.isAccountVerified
  {
    if userId.None? || userId.value !in accounts then NotFound
    else
      var user := accounts[userId.value];
      Found(UserData(user.name, user.email, user.isAccountVerified))
  }

  /**
   * The reply does not depend on the password digest or the OTP fields:
   * two stores that differ only there answer alike.
   */
  lemma ReplyIgnoresSecrets(accounts: map<Id, Account>, id: Id, a: Account, b: Account, userId: Option<Id>)
    requires a.name == b.name && a.email == b.email && a.isAccountVerified == b.isAccountVerified
    ensures GetUserData(accounts[id := a], userId) == GetUserData(accounts[id := b], userId)
  {
  }

  /** The outcome of GET /get-user-data: the gate's rejection or the controller's reply. */
  datatype RouteReply = GateRejected(rejection: GateReply) | Handled(answer: UserDataReply)

  /** The route as written: userAuth sets req.userId, while the controller reads req.body.userId. */
  function UserDataRoute(cookieToken: Option<string>, verdict: Verification, body: Body, accounts: map<Id, Account>): (r: RouteReply)
    ensures r.GateRejected? <==> UserAuth.Check(cookieToken, verdict).Reject?
    ensures r.GateRejected? ==> r.rejection == UserAuth.Check(cookieToken, verdict).reply
    ensures r.Handled? ==> r.answer == GetUserData(accounts, body.userId)
  {
    match UserAuth.Check(cookieToken, verdict)
    case Reject(reply) => GateRejected(reply)
    case Next(_) => Handled(GetUserData(accounts, body.userId))
  }

  /** As written, a valid session for a stored account still gets 404 when the body names no user. */
  lemma SessionIgnored(cookieToken: Option<string>, id: Id, body: Body, accounts: map<Id, Account>)
    requires !Missing(cookieToken) && id in accounts && body.userId.None?
    ensures UserDataRoute(cookieToken, Verified(IssuedToken(id).claims), body, accounts) == Handled(NotFound)
  {
  }

  /** The route with the controller reading the id the gate attached. */
  function UserDataRouteFromSession(cookieToken: Option<string>, verdict: Verification, accounts: map<Id, Account>): (r: RouteReply)
    ensures r.GateRejected? <==> UserAuth.Check(cookieToken, verdict).Reject?
    ensures r.GateRejected? ==> r.rejection == UserAuth.Check(cookieToken, verdict).reply
    ensures r.Handled? ==> r.answer == GetUserData(accounts, verdict.payload.id)
  {
    match UserAuth.Check(cookieToken, verdict)
    case Reject(reply) => GateRejected(reply)
    case Next(userId) => Handled(GetUserData(accounts, userId))
  }

  /** With the session's id, a token issued for a stored account yields that account's projection. */
  lemma SessionServed(cookieToken: Option<string>, id: Id, accounts: map<Id, Account>)
    requires !Missing(cookieToken) && id in accounts
    ensures UserDataRouteFromSession(cookieToken, Verified(IssuedToken(id).claims), accounts)
         == Handled(Found(UserData(accounts[id].name, accounts[id].email, accounts[id].isAccountVerified)))
  {
  }
}
