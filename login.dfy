/** The login operations that hand their payload to the shared response
    decoder: application-guest login, token login, single sign-on and
    logout. None of them validates its arguments. */
module LoginApi {
  import opened Json
  import opened Requests

  /** The caller's context: a contact id and an IP address. */
  datatype UserContext = UserContext(contactId: string, ipAddress: string)

  /** A context is sent only when one of its fields is non-empty. */
  predicate Given(context: UserContext)
  {
    context.contactId != "" || context.ipAddress != ""
  }

  /** The `userContext` object: both keys, even when one of them is empty. */
  function UserContextJson(context: UserContext): (j: JSON)
    ensures j.JObj? && KeysOf(j) == {"contactId", "ipAddress"}
    ensures Member(j, "contactId") == Some(JStr(context.contactId))
    ensures Member(j, "ipAddress") == Some(JStr(context.ipAddress))
  {
    JObj(map["contactId" := JStr(context.contactId), "ipAddress" := JStr(context.ipAddress)])
  }

  /** The `userContext` entry of a payload table. */
  function ContextMember(context: UserContext): Option<JSON>
  {
    if Given(context) then Some(UserContextJson(context)) else None
  }

  /** `login-app-guest` always sends exactly the two tokens, empty or not. */
  function LoginAppGuest(applicationToken: string, userToken: string): (r: Request)
    ensures r.Send? && r.path == "login-app-guest"
    ensures KeysOf(r.payload) == {"applicationToken", "userToken"}
    ensures Member(r.payload, "applicationToken") == Some(JStr(applicationToken))
    ensures Member(r.payload, "userToken") == Some(JStr(userToken))
  {
    Send("login-app-guest", JObj(map["applicationToken" := JStr(applicationToken),
                                     "userToken" := JStr(userToken)]))
  }

  /** `login-token` always sends `username` and `token`, and the context
      only when it is given. */
  function LoginToken(username: string, token: string, context: UserContext): (r: Request)
    ensures r.Send? && r.path == "login-token"
    ensures Payload(r.payload, map["username" := Some(JStr(username)), "token" := Some(JStr(token)),
                                   "userContext" := ContextMember(context)])
  {
    Send("login-token", ObjectOf(map["username" := Some(JStr(username)), "token" := Some(JStr(token)),
                                     "userContext" := ContextMember(context)]))
  }

  /** `login-sso` sends the context when it is given; otherwise the payload
      was never written to and stays null. */
  function LoginSSO(context: UserContext): (r: Request)
    ensures r.Send? && r.path == "login-sso"
    ensures Payload(r.payload, map["userContext" := ContextMember(context)])
    ensures r.payload == JNull <==> !Given(context)
  {
    var fields := map["userContext" := ContextMember(context)];
    ObjectOfNull(fields);
    Send("login-sso", ObjectOf(fields))
  }

  /** `logout` sends no body. */
  function Logout(): (r: Request)
    ensures r.SendWithoutBody? && r.path == "logout"
  {
    SendWithoutBody("logout")
  }

  /** The context rule, stated on the token login: `userContext` is present
      exactly when a field of the context is non-empty, and then carries
      both fields. */
  lemma LoginTokenContext(username: string, token: string, context: UserContext)
    ensures Member(LoginToken(username, token, context).payload, "userContext").Some? <==> Given(context)
    ensures Given(context) ==>
      Member(LoginToken(username, token, context).payload, "userContext") == Some(UserContextJson(context))
    ensures KeysOf(LoginToken(username, token, context).payload) ==
      if Given(context) then {"username", "token", "userContext"} else {"username", "token"}
  {
    var fields := map["username" := Some(JStr(username)), "token" := Some(JStr(token)),
                      "userContext" := ContextMember(context)];
    var j := LoginToken(username, token, context).payload;
    assert Member(j, "userContext") == Lookup(fields, "userContext");
    CarriesKeys(j, fields);
  }
}
