/** The admin login endpoint of `app/api/auth/login/route.ts`. The clock reading
    in milliseconds is the parameter `stamp`, and the random base-36 text appended
    to the token is the parameter `randomPart`. */
module LoginRoute {
  import opened Common

  datatype LoginBody = LoginBody(email: Option<string>, password: Option<string>)

  datatype User = User(id: string, email: string, name: string, role: string)

  datatype LoginResponse =
    | LoggedIn(message: string, token: string, user: User)
    | Failed(status: int, message: string)

  /** `POST /api/auth/login`. */
  function Post(body: LoginBody, stamp: nat, randomPart: string): (r: LoginResponse)
    ensures r.LoggedIn? <==> StrTruthy(body.email) && StrTruthy(body.password)
    ensures r.Failed? ==> r.status == 400 && r.message == "Email and password are required"
    ensures r.LoggedIn? ==>
              r.user == User("admin_001", body.email.value, "Admin User", "admin") &&
              StartsWith(r.token, "token_") && r.message == "Login successful"
  {
    if !StrTruthy(body.email) || !StrTruthy(body.password) then
      Failed(400, "Email and password are required")
    else
      LoggedIn("Login successful",
               "token_" + Decimal(stamp) + "_" + randomPart,
               User("admin_001", body.email.value, "Admin User", "admin"))
  }

  /** The password is never checked: any two non-empty passwords give the same answer. */
  lemma PasswordNeverCompared(email: Option<string>, p1: string, p2: string, stamp: nat, randomPart: string)
    requires p1 != "" && p2 != ""
    ensures Post(LoginBody(email, Some(p1)), stamp, randomPart) == Post(LoginBody(email, Some(p2)), stamp, randomPart)
  {
  }
}
