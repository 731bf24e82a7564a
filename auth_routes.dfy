/** The account handlers: signup, login, reading and updating one's own
    profile, over an in-memory table of user records kept in store order. */
module AuthRoutes {
  import opened Common

  /** A stored account. The password is kept as the handler hands it to the
      store; hashing belongs to the user model and is not modelled. */
  datatype User = User(id: UserId, name: string, email: string, password: string, role: string)

  /** The lifetime `"1d"` given to every login token, in seconds. */
  const OneDay: nat := 24 * 60 * 60

  /** The claims a login token carries and its lifetime; the signature and
      the secret are not modelled. */
  datatype Token = Token(userId: UserId, role: string, expiresIn: nat)

  /** A status code with the message sent in the body. */
  datatype Reply = Reply(code: int, message: string)

  datatype LoginReply =
    | LoginFailed(code: int, message: string)
    | LoggedIn(code: int, token: Token, role: string, name: string, email: string)

  datatype Profile = Profile(name: string, email: string, role: string)

  /** The reply to `GET /me`: a status code and the profile in the body. */
  datatype ProfileView = ProfileView(code: int, profile: Profile)

  datatype ProfileReply = ProfileReply(code: int, message: string, profile: Profile)

  const MissingFields: Reply := Reply(HttpBadRequest, "All fields are required")
  const AlreadyExists: Reply := Reply(HttpBadRequest, "User already exists")
  const Registered: Reply := Reply(HttpCreated, "User registered successfully")
  const MissingCredentials: LoginReply := LoginFailed(HttpBadRequest, "Email and password are required")
  const InvalidCredentials: LoginReply := LoginFailed(HttpBadRequest, "Invalid credentials")

  /** `User.findOne({ email })`: the position of the first account with
      that email. */
  function IndexOfEmail(users: seq<User>, email: string): (r: Option<nat>)
    ensures r.Some? ==> r.value < |users| && users[r.value].email == email
    ensures r.Some? ==> forall k :: 0 <= k < r.value ==> users[k].email != email
    ensures r.None? <==> forall k :: 0 <= k < |users| ==> users[k].email != email
  {
    FirstIndex(users, (u: User) => u.email == email)
  }

  /** The lookup by id through which the middleware finds the caller's record. */
  function IndexOfUser(users: seq<User>, id: UserId): Option<nat> {
    FirstIndex(users, (u: User) => u.id == id)
  }

  /** The field assignments of `PUT /me`: a field is overwritten only when it
      is supplied non-empty; the id and the role are never touched, and no
      check is made that a new email is unused. */
  function Edit(u: User, name: Option<string>, email: Option<string>, password: Option<string>): (r: User)
    ensures r.id == u.id && r.role == u.role
    ensures Supplied(name) ==> r.name == name.value
    ensures !Supplied(name) ==> r.name == u.name
    ensures Supplied(email) ==> r.email == email.value
    ensures !Supplied(email) ==> r.email == u.email
    ensures Supplied(password) ==> r.password == password.value
    ensures !Supplied(password) ==> r.password == u.password
  {
    var u1 := if Supplied(name) then u.(name := name.value) else u;
    var u2 := if Supplied(email) then u1.(email := email.value) else u1;
    if Supplied(password) then u2.(password := password.value) else u2
  }

  /** Sending the same profile update twice has the effect of sending it once. */
  lemma EditIdempotent(u: User, name: Option<string>, email: Option<string>, password: Option<string>)
    ensures Edit(Edit(u, name, email, password), name, email, password) == Edit(u, name, email, password)
  {
  }

  /** An update with no field supplied leaves the record as it was. */
  lemma EditNothing(u: User)
    ensures Edit(u, None, None, None) == u && Edit(u, Some(""), Some(""), Some("")) == u
  {
  }

  class UserTable {
    var users: seq<User>
    var nextId: UserId

    /** Ids are distinct and below the next one handed out. Emails need not
        be distinct: only signup checks them. */
    ghost predicate Valid()
      reads this
    {
      && (forall i, j :: 0 <= i < j < |users| ==> users[i].id != users[j].id)
      && (forall i :: 0 <= i < |users| ==> users[i].id < nextId)
    }

    constructor ()
      ensures Valid() && users == []
    {
      users := [];
      nextId := 0;
    }

    /** `POST /signup`: every field must be supplied (400), the email must
        not be taken (400, not 409); then exactly one account is added. */
    method Signup(name: Option<string>, email: Option<string>, password: Option<string>, role: Option<string>)
      returns (r: Reply)
      requires Valid()
      modifies this
      ensures Valid()
      ensures r == MissingFields <==>
                !Supplied(name) || !Supplied(email) || !Supplied(password) || !Supplied(role)
      ensures r == AlreadyExists <==>
                && Supplied(name) && Supplied(email) && Supplied(password) && Supplied(role)
                && IndexOfEmail(old(users), email.value).Some?
      ensures r == Registered <==>
                && Supplied(name) && Supplied(email) && Supplied(password) && Supplied(role)
                && IndexOfEmail(old(users), email.value).None?
      ensures r != Registered ==> users == old(users)
      ensures r == Registered ==>
                && |users| == |old(users)| + 1
                && users[..|old(users)|] == old(users)
                && var u := users[|old(users)|];
                && u.name == name.value && u.email == email.value
                && u.password == password.value && u.role == role.value
                && (forall k :: 0 <= k < |old(users)| ==> old(users)[k].id != u.id)
                && (forall k :: 0 <= k < |old(users)| ==> old(users)[k].email != u.email)
    {
      if !Supplied(name) || !Supplied(email) || !Supplied(password) || !Supplied(role) {
        return MissingFields;
      }
      var existing := IndexOfEmail(users, email.value);
      if existing.Some? {
        return AlreadyExists;
      }
      users := users + [User(nextId, name.value, email.value, password.value, role.value)];
      nextId := nextId + 1;
      r := Registered;
    }

    /** `POST /login`. `matchPassword` stands for the user model's password
        check. An unknown email and a wrong password get the same reply; on
        success the token carries the account's id and role for one day. */
    function Login(email: Option<string>, password: Option<string>,
                   matchPassword: (string, string) -> bool): (r: LoginReply)
      reads this
      ensures r == MissingCredentials <==> !Supplied(email) || !Supplied(password)
      ensures Supplied(email) && Supplied(password) && !r.LoggedIn? ==> r == InvalidCredentials
      ensures r.LoggedIn? <==>
                && Supplied(email) && Supplied(password)
                && IndexOfEmail(users, email.value).Some?
                && matchPassword(users[IndexOfEmail(users, email.value).value].password, password.value)
      ensures r.LoggedIn? ==>
                var u := users[IndexOfEmail(users, email.value).value];
                && r.code == HttpOk && r.token == Token(u.id, u.role, OneDay)
                && r.role == u.role && r.name == u.name && r.email == u.email
    {
      if !Supplied(email) || !Supplied(password) then MissingCredentials
      else
        match IndexOfEmail(users, email.value)
        case None => InvalidCredentials
        case Some(k) =>
          var u := users[k];
          if !matchPassword(u.password, password.value) then InvalidCredentials
          else LoggedIn(HttpOk, Token(u.id, u.role, OneDay), u.role, u.name, u.email)
    }

    /** `GET /me`: the caller's own name, email and role, read from the
        record the middleware resolved; never the password. */
    function GetMe(caller: Caller): (r: ProfileView)
      reads this
      requires IndexOfUser(users, caller.id).Some?
      ensures r.code == HttpOk
      ensures exists k :: 0 <= k < |users| && users[k].id == caller.id
                          && r.profile == Profile(users[k].name, users[k].email, users[k].role)
    {
      var u := users[IndexOfUser(users, caller.id).value];
      ProfileView(HttpOk, Profile(u.name, u.email, u.role))
    }

    /** `PUT /me`: edits the caller's own record only, and answers with the
        profile that `GET /me` reads afterwards. */
    method UpdateMe(caller: Caller, name: Option<string>, email: Option<string>, password: Option<string>)
      returns (r: ProfileReply)
      requires Valid() && IndexOfUser(users, caller.id).Some?
      modifies this
      ensures Valid() && nextId == old(nextId)
      ensures var k := IndexOfUser(old(users), caller.id).value;
              users == old(users)[k := Edit(old(users)[k], name, email, password)]
      ensures IndexOfUser(users, caller.id).Some?
      ensures r.code == HttpOk && r.message == "Profile updated successfully"
      ensures r.profile == GetMe(caller).profile
    {
      var k := IndexOfUser(users, caller.id).value;
      var edited := Edit(users[k], name, email, password);
      ghost var before := users;
      users := users[k := edited];
      FirstIndexAgrees(before, (u: User) => u.id == caller.id, users, (u: User) => u.id == caller.id);
      r := ProfileReply(HttpOk, "Profile updated successfully", Profile(edited.name, edited.email, edited.role));
    }
  }

  /** An unknown email and a known email with a wrong password are answered
      identically, so a client cannot tell which accounts exist. */
  lemma CredentialFailuresIndistinguishable(table: UserTable, unknown: string, known: string,
                                            password1: string, password2: string,
                                            matchPassword: (string, string) -> bool)
    requires unknown != "" && known != "" && password1 != "" && password2 != ""
    requires forall k :: 0 <= k < |table.users| ==> table.users[k].email != unknown
    requires IndexOfEmail(table.users, known).Some?
    requires !matchPassword(table.users[IndexOfEmail(table.users, known).value].password, password2)
    ensures table.Login(Some(unknown), Some(password1), matchPassword)
            == table.Login(Some(known), Some(password2), matchPassword)
            == InvalidCredentials
  {
  }

  /** A student registers, cannot register the same email twice, logs in,
      and edits their name without changing their role. */
  method AccountWalkthrough() {
    var table := new UserTable();
    var same := (stored: string, given: string) => stored == given;

    var r := table.Signup(Some("Asha"), Some("asha@campus.edu"), Some("secret"), Some(StudentRole));
    assert r == Registered && |table.users| == 1;
    var asha := table.users[0];
    r := table.Signup(Some("Other"), Some("asha@campus.edu"), Some("x"), Some(AdminRole));
    assert r == AlreadyExists && table.users == [asha];

    var login := table.Login(Some("asha@campus.edu"), Some("secret"), same);
    assert login == LoggedIn(HttpOk, Token(asha.id, StudentRole, OneDay), StudentRole, "Asha", "asha@campus.edu");
    assert table.Login(Some("asha@campus.edu"), Some("wrong"), same) == InvalidCredentials;
    assert table.Login(Some("nobody@campus.edu"), Some("secret"), same) == InvalidCredentials;

    var me := table.UpdateMe(Caller(asha.id, StudentRole), Some("Asha K"), None, Some(""));
    assert me.profile == Profile("Asha K", "asha@campus.edu", StudentRole);
  }
}
