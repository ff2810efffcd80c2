/** The browser-side logic of the social app: the field checks that
    `registerUser`, `loginUser` and `createPost` run, in a fixed order,
    before any request is sent; and the session flag kept under
    `sessionStorage.username`. */
module SocialLogic {
  import opened Common
  import SocialData

  // ---------------------------------------------------------------------
  // The character classes of the four regular expressions
  // ---------------------------------------------------------------------

  predicate IsLetter(c: char) {
    ('a' <= c <= 'z') || ('A' <= c <= 'Z')
  }

  predicate IsDigit(c: char) {
    '0' <= c <= '9'
  }

  /** The brackets and `=` that names and passwords may contain. */
  predicate IsBracketOrEquals(c: char) {
    c in {'=', '[', ']', '{', '}', '<', '>', '(', ')'}
  }

  /** NAME_REGEX: one or more letters, brackets or `=`. */
  predicate IsName(s: string) {
    |s| >= 1 && forall i :: 0 <= i < |s| ==> IsLetter(s[i]) || IsBracketOrEquals(s[i])
  }

  predicate IsUsernameChar(c: char) {
    IsLetter(c) || IsDigit(c) || c == '-' || c == '_'
  }

  /** USERNAME_REGEX: one or more of `[a-zA-Z0-9-_]`. */
  predicate IsUsername(s: string) {
    |s| >= 1 && forall i :: 0 <= i < |s| ==> IsUsernameChar(s[i])
  }

  predicate IsPasswordChar(c: char) {
    IsUsernameChar(c) || c == '$' || c == '%' || c == '&' || IsBracketOrEquals(c)
  }

  /** PASSWORD_REGEX: eight or more characters of the allowed set. */
  predicate IsPassword(s: string) {
    |s| >= 8 && forall i :: 0 <= i < |s| ==> IsPasswordChar(s[i])
  }

  // ---------------------------------------------------------------------
  // A chain of checks, and its first failure
  // ---------------------------------------------------------------------

  datatype Check = Check(ok: bool, error: Error)

  /** The error of the first check that does not hold, in order. */
  function FirstFailure(checks: seq<Check>): (r: Outcome<Error>)
    ensures r.Pass? <==> forall i :: 0 <= i < |checks| ==> checks[i].ok
    ensures r.Fail? ==> exists i :: 0 <= i < |checks| && !checks[i].ok && r.error == checks[i].error
                                    && forall j :: 0 <= j < i ==> checks[j].ok
  {
    if checks == [] then Pass
    else if !checks[0].ok then Fail(checks[0].error)
    else
      var rest := FirstFailure(checks[1..]);
      if rest.Fail? then
        ghost var i :| 0 <= i < |checks[1..]| && !checks[1..][i].ok && rest.error == checks[1..][i].error
                       && forall j :: 0 <= j < i ==> checks[1..][j].ok;
        assert !checks[i + 1].ok && forall j :: 0 <= j < i + 1 ==> checks[j].ok;
        rest
      else rest
  }

  // ---------------------------------------------------------------------
  // registerUser
  // ---------------------------------------------------------------------

  const FieldsRequired := "All fields are required"
  const ShortPassword := "Password should be at least 8 characters long"

  /** The checks `registerUser` runs before sending its request. Empty strings
      stand for every falsy argument; `isEmail` is EMAIL_REGEX; `users` is the
      local user store that `findUser` consults. */
  function RegisterUser(name: string, surname: string, email: string, username: string, password: string,
                        repeatedPassword: string, isEmail: string -> bool,
                        users: map<string, SocialData.UserData>): Outcome<Error>
  {
    if name == "" || surname == "" || email == "" || username == "" || password == "" || repeatedPassword == "" then
      Fail(ContentError(FieldsRequired))
    else if !IsName(name) then Fail(ContentError("Name is not valid"))
    else if !IsName(surname) then Fail(ContentError("Surname is not valid"))
    else if !isEmail(email) then Fail(ContentError("Email is not valid"))
    else if !IsUsername(username) then Fail(ContentError("Username is not valid"))
    else if !IsPassword(password) then Fail(ContentError("Password is not valid"))
    else if |password| < 8 then Fail(ContentError(ShortPassword))
    else if password != repeatedPassword then Fail(MatchError("Passwords do not match"))
    else if SocialData.Lookup(users, username).Some? then Fail(DuplicityError("Username already exists"))
    else Pass
  }

  /** The fixed order of the registration checks, as a list. */
  function RegisterChecks(name: string, surname: string, email: string, username: string, password: string,
                          repeatedPassword: string, isEmail: string -> bool,
                          users: map<string, SocialData.UserData>): seq<Check>
  {
    [ Check(name != "" && surname != "" && email != "" && username != "" && password != "" && repeatedPassword != "",
            ContentError(FieldsRequired)),
      Check(IsName(name), ContentError("Name is not valid")),
      Check(IsName(surname), ContentError("Surname is not valid")),
      Check(isEmail(email), ContentError("Email is not valid")),
      Check(IsUsername(username), ContentError("Username is not valid")),
      Check(IsPassword(password), ContentError("Password is not valid")),
      Check(password == repeatedPassword, MatchError("Passwords do not match")),
      Check(SocialData.Lookup(users, username).None?, DuplicityError("Username already exists")) ]
  }

  /** `registerUser` reports the first failing check of the fixed order; its
      separate length check never fires, since the password pattern already
      demands eight characters. */
  lemma RegisterReportsFirstFailure(name: string, surname: string, email: string, username: string, password: string,
                                    repeatedPassword: string, isEmail: string -> bool,
                                    users: map<string, SocialData.UserData>)
    ensures RegisterUser(name, surname, email, username, password, repeatedPassword, isEmail, users)
            == FirstFailure(RegisterChecks(name, surname, email, username, password, repeatedPassword, isEmail, users))
    ensures RegisterUser(name, surname, email, username, password, repeatedPassword, isEmail, users)
            != Fail(ContentError(ShortPassword))
  {
    var checks := RegisterChecks(name, surname, email, username, password, repeatedPassword, isEmail, users);
    var r := RegisterUser(name, surname, email, username, password, repeatedPassword, isEmail, users);
    var f := FirstFailure(checks);
    if r.Pass? {
      assert forall i :: 0 <= i < |checks| ==> checks[i].ok;
    } else {
      var k := if !checks[0].ok then 0 else if !checks[1].ok then 1 else if !checks[2].ok then 2
               else if !checks[3].ok then 3 else if !checks[4].ok then 4 else if !checks[5].ok then 5
               else if !checks[6].ok then 6 else 7;
      assert !checks[k].ok && r.error == checks[k].error && forall j :: 0 <= j < k ==> checks[j].ok;
      assert f.Fail?;
      var i :| 0 <= i < |checks| && !checks[i].ok && f.error == checks[i].error && forall j :: 0 <= j < i ==> checks[j].ok;
      assert i == k;
    }
  }

  /** An empty field is reported before any format check, whatever the others hold. */
  lemma RegisterEmptyFieldFirst(name: string, surname: string, email: string, username: string, password: string,
                                repeatedPassword: string, isEmail: string -> bool,
                                users: map<string, SocialData.UserData>)
    requires name == "" || surname == "" || email == "" || username == "" || password == "" || repeatedPassword == ""
    ensures RegisterUser(name, surname, email, username, password, repeatedPassword, isEmail, users)
            == Fail(ContentError(FieldsRequired))
  {
  }

  /** A user registered under any casing of the name is reported as a duplicate
      once every format check passes. */
  lemma RegisterRefusesTakenName(name: string, surname: string, email: string, username: string, password: string,
                                 isEmail: string -> bool, users: map<string, SocialData.UserData>,
                                 existing: SocialData.UserData)
    requires IsName(name) && IsName(surname) && email != "" && isEmail(email) && IsUsername(username) && IsPassword(password)
    requires SocialData.Lower(existing.username) == SocialData.Lower(username)
    ensures RegisterUser(name, surname, email, username, password, password, isEmail,
                         SocialData.StoreUser(users, existing))
            == Fail(DuplicityError("Username already exists"))
  {
    SocialData.FoundUnderAnyCasing(users, existing, username);
  }

  // ---------------------------------------------------------------------
  // createPost
  // ---------------------------------------------------------------------

  /** The checks `createPost` runs on its three fields before sending its request. */
  function CreatePostChecks(title: string, image: string, description: string): (r: Outcome<Error>)
    ensures r.Pass? <==> 1 <= |title| <= 50 && "http" <= image && 1 <= |description| <= 200
  {
    if |title| == 0 || |title| > 50 then Fail(ContentError("Title is not valid."))
    else if !("http" <= image) then Fail(ContentError("Image is not valid."))
    else if |description| == 0 || |description| > 200 then Fail(ContentError("Description is not valid."))
    else Pass
  }

  /** A bad title is reported before the image and the description are looked at. */
  lemma CreatePostTitleFirst(title: string, image: string, description: string)
    requires |title| == 0 || |title| > 50
    ensures CreatePostChecks(title, image, description) == Fail(ContentError("Title is not valid."))
  {
  }

  // ---------------------------------------------------------------------
  // loginUser and the session
  // ---------------------------------------------------------------------

  /** The server's answer to a login request. */
  datatype Reply = Accepted | Refused(error: Error)

  /** The checks `loginUser` runs before sending its request. */
  function LoginChecks(username: string, password: string): (r: Outcome<Error>)
    ensures r.Pass? <==> IsUsername(username) && IsPassword(password)
    ensures r.Fail? ==> r.error == ContentError("")
  {
    if !IsUsername(username) then Fail(ContentError(""))
    else if !IsPassword(password) then Fail(ContentError(""))
    else Pass
  }

  class Session {
    /** `sessionStorage.username`, absent as `None`. */
    var username: Option<string>

    constructor ()
      ensures username == None
    {
      username := None;
    }

    /** The session flag: a non-empty username is stored. */
    predicate LoggedIn()
      reads this
    {
      username.Some? && username.value != ""
    }

    method IsUserLoggedIn() returns (b: bool)
      ensures b <==> LoggedIn()
    {
      b := username.Some? && username.value != "";
    }

    method LogoutUser()
      modifies this
      ensures username == None && !LoggedIn()
    {
      username := None;
    }

    method GetUsername() returns (r: Option<string>)
      ensures r == username
    {
      r := username;
    }

    /** Checks the fields (a failure throws), then the server answers: on
        acceptance the username is stored in the session; a refusal reaches the
        callback and leaves the session as it was. */
    method LoginUser(name: string, password: string, reply: Reply) returns (r: Settled<()>)
      modifies this
      ensures LoginChecks(name, password).Fail? ==> r == Threw(ContentError("")) && username == old(username)
      ensures LoginChecks(name, password).Pass? && reply.Accepted? ==>
                r == Resolved(()) && username == Some(name) && LoggedIn()
      ensures LoginChecks(name, password).Pass? && reply.Refused? ==>
                r == Rejected(reply.error) && username == old(username)
    {
      var check := LoginChecks(name, password);
      if check.Fail? {
        return Threw(check.error);
      }
      if reply.Accepted? {
        username := Some(name);
        r := Resolved(());
      } else {
        r := Rejected(reply.error);
      }
    }
  }
}
