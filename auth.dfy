/** The web app's credentials check: a single administrator account taken
    from the environment. */
module Auth {
  import opened Wrappers
  import opened Runtime

  /** The submitted form fields, each absent or a string. */
  datatype Credentials = Credentials(username: Option<string>, password: Option<string>)

  /** `credentialsSchema`: both fields present and non-empty. */
  predicate ValidCredentials(c: Credentials) {
    c.username.Some? && |c.username.value| >= 1 && c.password.Some? && |c.password.value| >= 1
  }

  datatype User = User(id: string, email: string, name: string)

  const ADMIN_ID := "admin-user"
  const ADMIN_NAME := "Admin"

  /** `authorize`: a user only for well-formed credentials equal to the
      administrator's email and password, both of which must be set and
      non-empty; the user is always the fixed administrator record. */
  function Authorize(creds: Credentials, env: Env): (r: Option<User>)
    ensures r.Some? <==> && ValidCredentials(creds)
                         && Truthy(Get(env, "AUTH_ADMIN_EMAIL")) && Truthy(Get(env, "AUTH_ADMIN_PASSWORD"))
                         && creds.username.value == env["AUTH_ADMIN_EMAIL"]
                         && creds.password.value == env["AUTH_ADMIN_PASSWORD"]
    ensures r.Some? ==> r.value == User(ADMIN_ID, env["AUTH_ADMIN_EMAIL"], ADMIN_NAME)
  {
    if !ValidCredentials(creds) then None
    else
      var adminEmail := Get(env, "AUTH_ADMIN_EMAIL").GetOr("");
      var adminPassword := Get(env, "AUTH_ADMIN_PASSWORD").GetOr("");
      if adminEmail == "" || adminPassword == "" then None
      else if creds.username.value != adminEmail || creds.password.value != adminPassword then None
      else Some(User(ADMIN_ID, adminEmail, ADMIN_NAME))
  }

  /** At most one pair of credentials is accepted for an environment, and
      always as the same user. */
  lemma OnlyOneAccountSignsIn(c1: Credentials, c2: Credentials, env: Env)
    requires Authorize(c1, env).Some? && Authorize(c2, env).Some?
    ensures c1 == c2 && Authorize(c1, env) == Authorize(c2, env)
  {
  }

  /** Without both administrator settings nobody signs in. */
  lemma UnsetAdminRejectsEveryone(creds: Credentials, env: Env)
    requires !Truthy(Get(env, "AUTH_ADMIN_EMAIL")) || !Truthy(Get(env, "AUTH_ADMIN_PASSWORD"))
    ensures Authorize(creds, env).None?
  {
  }
}
