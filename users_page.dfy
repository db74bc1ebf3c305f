/** The user-account administration page: the checks the account form makes,
    where the password is required on creation and optional on edit, and the
    search over the loaded accounts. */
module UsersPage {
  import opened Wrappers
  import opened Strings
  import Seqs

  datatype UserForm = UserForm(username: string, password: string, role: string)

  datatype UserErrors = UserErrors(username: Option<string>, password: Option<string>, role: Option<string>)

  const UsernameRequired: string := "Username is required"
  const UsernameShort: string := "Username must be at least 3 characters"
  const UsernameCharset: string := "Username can only contain letters, numbers, and underscores"
  const PasswordRequired: string := "Password is required"
  const PasswordShort: string := "Password must be at least 6 characters"
  const RoleRequired: string := "Role is required"

  predicate IsWordChar(c: char) {
    IsAsciiLetter(c) || IsDigit(c) || c == '_'
  }

  /** `/^[a-zA-Z0-9_]+$/.test(s)`. */
  predicate IsWord(s: string) {
    s != "" && forall i :: 0 <= i < |s| ==> IsWordChar(s[i])
  }

  lemma WordNotBlank(s: string)
    ensures IsWord(s) ==> !IsBlank(s)
  {
    if IsWord(s) {
      assert IsWordChar(s[0]);
    }
  }

  /** The first username rule that fails: required, at least three long, then
      only letters, digits and underscores; no upper bound. */
  function UsernameError(username: string): (r: Option<string>)
    ensures r == Some(UsernameRequired) <==> IsBlank(username)
    ensures r == Some(UsernameShort) <==> !IsBlank(username) && |username| < 3
    ensures r == Some(UsernameCharset) <==> !IsBlank(username) && |username| >= 3 && !IsWord(username)
    ensures r == None <==> IsWord(username) && |username| >= 3
  {
    TrimEmptyIffBlank(username);
    WordNotBlank(username);
    if Trim(username) == "" then Some(UsernameRequired)
    else if |username| < 3 then Some(UsernameShort)
    else if !IsWord(username) then Some(UsernameCharset)
    else None
  }

  /** The password is checked when creating, or when editing with a password typed in. */
  function PasswordError(password: string, editing: bool): (r: Option<string>)
    ensures r == Some(PasswordRequired) <==> !editing && password == ""
    ensures r == Some(PasswordShort) <==> password != "" && |password| < 6
    ensures r == None <==> (editing && password == "") || |password| >= 6
  {
    if !editing || password != "" then
      if password == "" then Some(PasswordRequired)
      else if |password| < 6 then Some(PasswordShort)
      else None
    else None
  }

  function RoleError(role: string): (r: Option<string>)
    ensures r == None <==> role != ""
    ensures r.Some? ==> r.value == RoleRequired
  {
    if role == "" then Some(RoleRequired) else None
  }

  /** `validateForm`'s `errors` record; `editing` is whether a user is selected. */
  function Validate(f: UserForm, editing: bool): UserErrors {
    UserErrors(UsernameError(f.username), PasswordError(f.password, editing), RoleError(f.role))
  }

  predicate NoErrors(e: UserErrors) {
    e.username.None? && e.password.None? && e.role.None?
  }

  /** The form the rules describe. */
  predicate ValidUser(f: UserForm, editing: bool) {
    && IsWord(f.username) && |f.username| >= 3
    && ((editing && f.password == "") || |f.password| >= 6)
    && f.role != ""
  }

  /** `validateForm`'s result: no field recorded an error. */
  function ValidateForm(f: UserForm, editing: bool): (ok: bool)
    ensures ok <==> ValidUser(f, editing)
  {
    NoErrors(Validate(f, editing))
  }

  // ---------------------------------------------------------------------------
  // edit form and search

  datatype User = User(idUser: int, username: string, role: string)

  /** `openEditModal`: the password starts empty. */
  function EditForm(u: User): (f: UserForm)
    ensures f.username == u.username && f.role == u.role && f.password == ""
  {
    UserForm(u.username, "", u.role)
  }

  /** An edit that leaves the password empty passes the password check, so
      the account is valid exactly when its username and role are; the same
      form submitted as a new account is refused for the missing password. */
  lemma UnchangedEditKeepsPassword(u: User)
    ensures PasswordError(EditForm(u).password, true) == None
    ensures ValidateForm(EditForm(u), true) <==> UsernameError(u.username) == None && u.role != ""
    ensures Validate(EditForm(u), false).password == Some(PasswordRequired)
  {
  }

  predicate Keep(u: User, term: string) {
    Includes(ToLower(u.username), ToLower(term))
  }

  /** `filteredUsers`. */
  function FilterUsers(rows: seq<User>, term: string): seq<User> {
    Seqs.Filter(rows, u => Keep(u, term))
  }

  /** An account is shown exactly when its username contains the search term, ignoring case. */
  lemma FilterUsersMembers(rows: seq<User>, term: string, u: User)
    ensures u in FilterUsers(rows, term) <==> u in rows && ContainsIgnoringCase(u.username, term)
  {
    Seqs.FilterMembers(rows, u => Keep(u, term), u);
    SearchIgnoresCase(u.username, term);
  }

  /** The shown accounts keep the loaded order. */
  lemma FilterUsersAppend(a: seq<User>, b: seq<User>, term: string)
    ensures FilterUsers(a + b, term) == FilterUsers(a, term) + FilterUsers(b, term)
  {
    Seqs.FilterAppend(a, b, u => Keep(u, term));
  }
}
