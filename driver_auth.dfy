/** The driver app's authentication service
    (driver-app/src/app/services/auth.service.ts): the token and the e-mail of
    the last successful login, kept in the browser's storage. */
module DriverAuth {
  const TokenKey: string := "auth_token"
  const EmailKey: string := "user_email"

  /** The login request body: the e-mail is sent as the user name. */
  datatype Credentials = Credentials(username: string, password: string)

  class DriverAuthService {
    /** `localStorage`, as far as this service uses it. */
    var storage: map<string, string>

    constructor(stored: map<string, string>)
      ensures storage == stored
    {
      storage := stored;
    }

    /** `!!localStorage.getItem('auth_token')`. */
    predicate IsLoggedIn()
      reads this
    {
      TokenKey in storage && storage[TokenKey] != ""
    }

    function UserEmail(): (r: string)
      reads this
      ensures EmailKey in storage ==> r == storage[EmailKey]
      ensures EmailKey !in storage ==> r == ""
    {
      if EmailKey in storage then storage[EmailKey] else ""
    }

    /** `login`: the request it sends. */
    method LoginRequest(email: string, password: string) returns (c: Credentials)
      ensures c.username == email && c.password == password
    {
      c := Credentials(email, password);
    }

    /** The `tap` of `login`; `token` is the response's token, "" when it has none. */
    method OnLoginResponse(email: string, token: string)
      modifies this`storage
      ensures token != "" ==> storage == old(storage)[TokenKey := token][EmailKey := email]
      ensures token == "" ==> storage == old(storage)
      ensures token != "" ==> IsLoggedIn() && UserEmail() == email
    {
      if token != "" {
        storage := storage[TokenKey := token][EmailKey := email];
      }
    }

    /** `logout`: both keys go, so the driver is logged out. */
    method Logout()
      modifies this`storage
      ensures storage == old(storage) - {TokenKey, EmailKey}
      ensures !IsLoggedIn() && UserEmail() == ""
    {
      storage := storage - {TokenKey, EmailKey};
    }
  }
}
