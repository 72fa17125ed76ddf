/**
 `LoginRegister`: the login and registration forms. Their submit handlers
 only test that the required fields are non-empty (JavaScript truthiness of
 a string) and then call the parent's `onLogin`; nothing is sent anywhere.
 */
module Auth {

  /** A string is truthy in JavaScript exactly when it is non-empty. */
  predicate Truthy(s: string) {
    |s| > 0
  }

  /** `loginEmail && loginPassword`. */
  predicate LoginAccepted(email: string, password: string) {
    Truthy(email) && Truthy(password)
  }

  /** `registerName && registerEmail && registerPassword`. */
  predicate RegisterAccepted(name: string, email: string, password: string) {
    Truthy(name) && Truthy(email) && Truthy(password)
  }

  /**
   The password hint (at least eight characters, letters and digits) is only
   displayed: any non-empty password is accepted, and fields made of spaces
   count as filled (the guard does not trim).
   */
  lemma OnlyEmptinessChecked(name: string, email: string, password: string)
    ensures RegisterAccepted(name, email, password) <==> name != [] && email != [] && password != []
    ensures LoginAccepted(email, password) <==> email != [] && password != []
    ensures RegisterAccepted(" ", " ", "a") && LoginAccepted(" ", "a")
  {
  }

  class LoginRegister {
    var loginEmail: string
    var loginPassword: string
    var registerName: string
    var registerEmail: string
    var registerPassword: string

    /** All five fields start empty, so neither form can submit yet. */
    constructor ()
      ensures loginEmail == "" && loginPassword == ""
      ensures registerName == "" && registerEmail == "" && registerPassword == ""
      ensures !LoginAccepted(loginEmail, loginPassword)
      ensures !RegisterAccepted(registerName, registerEmail, registerPassword)
    {
      loginEmail, loginPassword := "", "";
      registerName, registerEmail, registerPassword := "", "", "";
    }

    method SetLoginEmail(value: string)
      modifies this
      ensures loginEmail == value && loginPassword == old(loginPassword)
      ensures registerName == old(registerName) && registerEmail == old(registerEmail)
      ensures registerPassword == old(registerPassword)
    {
      loginEmail := value;
    }

    method SetLoginPassword(value: string)
      modifies this
      ensures loginPassword == value && loginEmail == old(loginEmail)
      ensures registerName == old(registerName) && registerEmail == old(registerEmail)
      ensures registerPassword == old(registerPassword)
    {
      loginPassword := value;
    }

    method SetRegisterName(value: string)
      modifies this
      ensures registerName == value && registerEmail == old(registerEmail)
      ensures registerPassword == old(registerPassword)
      ensures loginEmail == old(loginEmail) && loginPassword == old(loginPassword)
    {
      registerName := value;
    }

    method SetRegisterEmail(value: string)
      modifies this
      ensures registerEmail == value && registerName == old(registerName)
      ensures registerPassword == old(registerPassword)
      ensures loginEmail == old(loginEmail) && loginPassword == old(loginPassword)
    {
      registerEmail := value;
    }

    method SetRegisterPassword(value: string)
      modifies this
      ensures registerPassword == value && registerName == old(registerName)
      ensures registerEmail == old(registerEmail)
      ensures loginEmail == old(loginEmail) && loginPassword == old(loginPassword)
    {
      registerPassword := value;
    }

    /** The login form's submit: `callsOnLogin` reports whether `onLogin` is called. */
    method HandleLogin() returns (callsOnLogin: bool)
      ensures callsOnLogin <==> loginEmail != [] && loginPassword != []
    {
      callsOnLogin := loginEmail != "" && loginPassword != "";
    }

    /** The registration form's submit; the login form's fields play no part. */
    method HandleRegister() returns (callsOnLogin: bool)
      ensures callsOnLogin <==> registerName != [] && registerEmail != [] && registerPassword != []
    {
      callsOnLogin := registerName != "" && registerEmail != "" && registerPassword != "";
    }
  }
}
