/** The login form (components/LoginScreen.tsx): required fields, the e-mail
    pattern, then a case-insensitive lookup of the user by e-mail. */
module Login {
  import opened Wrappers
  import opened Text
  import opened Types

  const RequiredError := "Email and password are required."
  const InvalidEmailError := "Please enter a valid email address."
  const InvalidCredentialsError := "Invalid credentials. Please try again."

  predicate EmailMatches(u: User, email: string)
  {
    SameIgnoringCase(u.email, email)
  }

  /** `users.find(u => u.email.toLowerCase() === email.toLowerCase())`. */
  function FindByEmail(users: seq<User>, email: string): (r: Option<User>)
    ensures r.None? <==> forall u :: u in users ==> !EmailMatches(u, email)
    ensures r.Some? ==> EmailMatches(r.value, email)
    ensures r.Some? ==> exists i :: 0 <= i < |users| && users[i] == r.value && forall j :: 0 <= j < i ==> !EmailMatches(users[j], email)
  {
    if users == [] then None
    else if EmailMatches(users[0], email) then
      Some(users[0])
    else
      var r := FindByEmail(users[1..], email);
      assert forall u :: u in users <==> u == users[0] || u in users[1..];
      if r.Some? then
        var i :| 0 <= i < |users[1..]| && users[1..][i] == r.value && forall j :: 0 <= j < i ==> !EmailMatches(users[1..][j], email);
        assert users[i + 1] == r.value;
        assert forall j :: 0 <= j < i + 1 ==> !EmailMatches(users[j], email) by {
          forall j | 0 <= j < i + 1 ensures !EmailMatches(users[j], email) {
            if j > 0 { assert users[j] == users[1..][j - 1]; }
          }
        }
        r
      else r
  }

  /** What a login attempt does: sign a user in, or show an error. */
  datatype Outcome = LoggedIn(user: User) | Rejected(error: string)

  /** `handleLoginAttempt`: the guards in their order, the first failing one decides.
      The `!email.trim()` test is written as `AllSpace(email)`, which
      `BlankIffAllSpace` shows to be the same condition. */
  function Attempt(users: seq<User>, email: string, password: string): (r: Outcome)
    ensures r.LoggedIn? ==> r.user in users && SameIgnoringCase(r.user.email, email)
    ensures r.LoggedIn? ==> !AllSpace(email) && !AllSpace(password) && EmailLike(email)
    ensures r.Rejected? ==> r.error == RequiredError || r.error == InvalidEmailError || r.error == InvalidCredentialsError
  {
    if AllSpace(email) || AllSpace(password) then Rejected(RequiredError)
    else if !EmailLike(email) then Rejected(InvalidEmailError)
    else match FindByEmail(users, email)
      case Some(u) =>
        assert u in users by {
          var i :| 0 <= i < |users| && users[i] == u && forall j :: 0 <= j < i ==> !EmailMatches(users[j], email);
        }
        LoggedIn(u)
      case None => Rejected(InvalidCredentialsError)
  }

  /** An e-mail or password made only of white space is refused before anything else. */
  lemma BlankFieldsRejected(users: seq<User>, email: string, password: string)
    requires AllSpace(email) || AllSpace(password)
    ensures Attempt(users, email, password) == Rejected(RequiredError)
  {
  }

  /** Filled fields with an e-mail that does not match the pattern get the format error. */
  lemma MalformedEmailRejected(users: seq<User>, email: string, password: string)
    requires !AllSpace(email) && !AllSpace(password) && !EmailLike(email)
    ensures Attempt(users, email, password) == Rejected(InvalidEmailError)
  {
  }

  /** A login succeeds iff both fields are filled, the e-mail matches the pattern and
      some user has that e-mail up to case; the user signed in is the first such user. */
  lemma AttemptSucceedsIff(users: seq<User>, email: string, password: string)
    ensures Attempt(users, email, password).LoggedIn? <==>
              !AllSpace(email) && !AllSpace(password) && EmailLike(email) &&
              exists u :: u in users && SameIgnoringCase(u.email, email)
    ensures Attempt(users, email, password).LoggedIn? ==>
              Some(Attempt(users, email, password).user) == FindByEmail(users, email)
    ensures Attempt(users, email, password).Rejected? && !AllSpace(email) && !AllSpace(password) && EmailLike(email) ==>
              Attempt(users, email, password) == Rejected(InvalidCredentialsError)
  {
    var r := FindByEmail(users, email);
    if r.Some? {
      assert r.value in users && EmailMatches(r.value, email) by {
        var i :| 0 <= i < |users| && users[i] == r.value && forall j :: 0 <= j < i ==> !EmailMatches(users[j], email);
      }
    }
  }

  /** The password is only tested for being filled: two filled passwords behave alike. */
  lemma PasswordNotCompared(users: seq<User>, email: string, p1: string, p2: string)
    requires !AllSpace(p1) && !AllSpace(p2)
    ensures Attempt(users, email, p1) == Attempt(users, email, p2)
  {
  }

  /** The login screen's state. */
  class LoginScreen {
    var email: string
    var password: string
    var error: string

    constructor ()
      ensures email == "" && password == "" && error == ""
    {
      email, password, error := "", "", "";
    }

    method SetEmail(value: string)
      modifies this
      ensures email == value && password == old(password) && error == old(error)
    {
      email := value;
    }

    method SetPassword(value: string)
      modifies this
      ensures password == value && email == old(email) && error == old(error)
    {
      password := value;
    }

    /** Submitting the form: `onLogin` receives `signedIn`, otherwise `error` is set;
        the error is cleared first, so a success leaves it empty. */
    method HandleLoginAttempt(users: seq<User>) returns (signedIn: Option<User>)
      modifies this
      ensures email == old(email) && password == old(password)
      ensures Attempt(users, email, password).LoggedIn? ==> signedIn == Some(Attempt(users, email, password).user) && error == ""
      ensures Attempt(users, email, password).Rejected? ==> signedIn == None && error == Attempt(users, email, password).error
      ensures signedIn.Some? ==> signedIn.value in users
    {
      error := "";
      match Attempt(users, email, password)
      case LoggedIn(u) =>
        AttemptSucceedsIff(users, email, password);
        signedIn := Some(u);
        assert FindByEmail(users, email) == Some(u);
      case Rejected(msg) =>
        error := msg;
        signedIn := None;
    }
  }
}
