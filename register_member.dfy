/** The "Register Member" dialog (components/RegisterMemberModal.tsx): required
    fields, the e-mail pattern, then a case-insensitive duplicate check. */
module RegisterMember {
  import opened Wrappers
  import opened Text
  import opened Types

  const RequiredError := "Please fill out all required fields."
  const InvalidEmailError := "Please enter a valid email address."
  const DuplicateError := "A user with this email address already exists."

  /** What `onSubmit` receives. */
  datatype MemberInput = MemberInput(name: string, email: string, role: UserRole)

  /** `users.some(user => user.email.toLowerCase() === email.toLowerCase())`. */
  predicate EmailTaken(users: seq<User>, email: string)
  {
    exists u :: u in users && SameIgnoringCase(u.email, email)
  }

  /** The first failing guard of `handleSubmit`, or `None` when all pass. */
  function Validate(users: seq<User>, name: string, email: string): (r: Option<string>)
    ensures r.None? <==> !AllSpace(name) && !AllSpace(email) && EmailLike(email) && !EmailTaken(users, email)
    ensures r.Some? ==> r.value in {RequiredError, InvalidEmailError, DuplicateError}
  {
    BlankIffAllSpace(name);
    BlankIffAllSpace(email);
    if Trim(name) == [] || Trim(email) == [] then Some(RequiredError)
    else if !EmailLike(email) then Some(InvalidEmailError)
    else if EmailTaken(users, email) then Some(DuplicateError)
    else None
  }

  /** The guards run required, then format, then duplicate; each error names the
      first guard that fails. */
  lemma ValidatePrecedence(users: seq<User>, name: string, email: string)
    ensures AllSpace(name) || AllSpace(email) ==> Validate(users, name, email) == Some(RequiredError)
    ensures !AllSpace(name) && !AllSpace(email) && !EmailLike(email) ==> Validate(users, name, email) == Some(InvalidEmailError)
    ensures !AllSpace(name) && !AllSpace(email) && EmailLike(email) && EmailTaken(users, email) ==>
              Validate(users, name, email) == Some(DuplicateError)
  {
    BlankIffAllSpace(name);
    BlankIffAllSpace(email);
  }

  /** An address that differs from an existing one only in letter case is a duplicate. */
  lemma CaseVariantIsDuplicate(users: seq<User>, u: User, email: string)
    requires u in users && Lower(u.email) == Lower(email)
    requires !AllSpace(email) && EmailLike(email)
    ensures forall name :: !AllSpace(name) ==> Validate(users, name, email) == Some(DuplicateError)
  {
    forall name | !AllSpace(name) ensures Validate(users, name, email) == Some(DuplicateError) {
      ValidatePrecedence(users, name, email);
    }
  }

  /** The dialog's form state. */
  class RegisterForm {
    var name: string
    var email: string
    var role: UserRole
    var error: string

    constructor ()
      ensures name == "" && email == "" && role == Member && error == ""
    {
      name, email, role, error := "", "", Member, "";
    }

    /** `resetForm`. */
    method Reset()
      modifies this
      ensures name == "" && email == "" && role == Member && error == ""
    {
      name, email, role, error := "", "", Member, "";
    }

    /** `handleSubmit`: on success the fields go out as typed, untrimmed, and the form
        is reset; otherwise the fields stay and the first failing check's error shows. */
    method HandleSubmit(users: seq<User>) returns (submitted: Option<MemberInput>)
      modifies this
      ensures var v := Validate(users, old(name), old(email));
              (v.None? ==> submitted == Some(MemberInput(old(name), old(email), old(role))) &&
                           name == "" && email == "" && role == Member && error == "") &&
              (v.Some? ==> submitted == None && error == v.value &&
                           name == old(name) && email == old(email) && role == old(role))
    {
      error := "";
      var v := Validate(users, name, email);
      if v.Some? {
        error := v.value;
        submitted := None;
      } else {
        submitted := Some(MemberInput(name, email, role));
        Reset();
      }
    }
  }
}
