/** What the two registration handlers share: the JSON body they read, the
    input validation they run in the same order, the response messages, and
    the user table (a map from email to user record, unique by email). */
module Users {
  import opened Wrappers
  import JsText

  datatype UserType = Individual | Caterer

  /** The database spelling of a user type. */
  function UserTypeName(t: UserType): string
  {
    match t
    case Individual => "INDIVIDUAL"
    case Caterer => "CATERER"
  }

  /** The user type a request names, if it names one of the two allowed. */
  function UserTypeOf(value: Option<string>): (t: Option<UserType>)
    ensures t.Some? <==> value == Some("INDIVIDUAL") || value == Some("CATERER")
    ensures t.Some? ==> value == Some(UserTypeName(t.value))
  {
    if value == Some("INDIVIDUAL") then Some(Individual)
    else if value == Some("CATERER") then Some(Caterer)
    else None
  }

  /** The fields of the JSON request body; `None` is an absent (or null)
      property. */
  datatype Body = Body(email: Option<string>, password: Option<string>, userType: Option<string>)

  /** JavaScript truthiness of a string property: present and not empty. */
  predicate Truthy(value: Option<string>)
  {
    value.Some? && value.value != ""
  }

  /** The first check: an email holding `@`, and a password of at least 8
      UTF-16 code units once trimmed. */
  function CredentialsValid(body: Body): (b: bool)
    ensures b <==>
      && body.email.Some? && '@' in body.email.value
      && body.password.Some? && JsText.Utf16Length(JsText.Trim(body.password.value)) >= 8
    ensures b ==> 4 <= |JsText.Trim(body.password.value)| <= |body.password.value|
  {
    assert body.email.Some? ==> (JsText.Includes(body.email.value, "@") <==> '@' in body.email.value) by {
      if body.email.Some? {
        JsText.IncludesChar(body.email.value, '@');
      }
    }
    && Truthy(body.email) && JsText.Includes(body.email.value, "@")
    && Truthy(body.password) && JsText.Utf16Length(JsText.Trim(body.password.value)) >= 8
  }

  const PasswordRule := "Password must be at least 8 characters"
  const InvalidInputMessage := "Invalid input. " + PasswordRule + "."
  const InvalidUserTypeMessage := "Invalid user type."
  const DuplicateEmailMessage := "User with this email already exists."
  const CreatedMessage := "User created successfully"
  const InternalErrorMessage := "Internal Server Error"
  const MethodNotAllowedMessage := "Method Not Allowed"

  /** An HTTP reply: status, the `message` of the JSON body and, on success,
      the `userId` of the new user. */
  datatype Response = Response(status: int, message: string, userId: Option<nat>)

  /** A request that passed validation. */
  datatype Registration = Registration(email: string, password: string, userType: UserType)

  /** The two validation steps, in order: credentials first, then the user
      type; a failure is the 400 reply the handler returns. */
  function Validate(body: Body): (r: Result<Registration, Response>)
    ensures r.Failure? ==> r.error.status == 400 && r.error.userId.None?
    ensures !CredentialsValid(body) ==> r == Failure(Response(400, InvalidInputMessage, None))
    ensures CredentialsValid(body) && UserTypeOf(body.userType).None? ==>
      r == Failure(Response(400, InvalidUserTypeMessage, None))
    ensures r.Success? <==> CredentialsValid(body) && UserTypeOf(body.userType).Some?
    ensures r.Success? ==>
      && Some(r.value.email) == body.email && '@' in r.value.email
      && Some(r.value.password) == body.password
      && JsText.Utf16Length(JsText.Trim(r.value.password)) >= 8
      && Some(UserTypeName(r.value.userType)) == body.userType
  {
    if !CredentialsValid(body) then Failure(Response(400, InvalidInputMessage, None))
    else
      match UserTypeOf(body.userType)
      case None => Failure(Response(400, InvalidUserTypeMessage, None))
      case Some(t) =>
        JsText.IncludesChar(body.email.value, '@');
        Success(Registration(body.email.value, body.password.value, t))
  }

  /** Only ASCII letters and digits. */
  predicate Alphanumeric(s: string)
  {
    forall i :: 0 <= i < |s| ==> 'a' <= s[i] <= 'z' || 'A' <= s[i] <= 'Z' || '0' <= s[i] <= '9'
  }

  /** Trimming leaves a password of letters and digits as it is, and each of
      its characters is one UTF-16 code unit. */
  lemma AlphanumericLength(password: string)
    requires Alphanumeric(password)
    ensures JsText.Utf16Length(JsText.Trim(password)) == |password|
  {
    assert JsText.TrimStart(password) == password by {
      if password != [] {
        assert !JsText.IsWhiteSpace(password[0]);
      }
    }
    assert JsText.TrimEnd(password) == password by {
      if password != [] {
        assert !JsText.IsWhiteSpace(password[|password| - 1]);
      }
    }
  }

  /** A body with an `@` in its email, a letters-and-digits password of at
      least 8 characters and a known user type passes validation. */
  lemma AcceptsWellFormed(body: Body, at: nat, userType: UserType)
    requires body.email.Some? && at < |body.email.value| && body.email.value[at] == '@'
    requires body.password.Some? && Alphanumeric(body.password.value) && |body.password.value| >= 8
    requires body.userType == Some(UserTypeName(userType))
    ensures Validate(body) == Success(Registration(body.email.value, body.password.value, userType))
  {
    JsText.IncludesChar(body.email.value, '@');
    AlphanumericLength(body.password.value);
    assert CredentialsValid(body);
  }

  /** A letters-and-digits password shorter than 8 characters is refused
      with the credentials message, whatever the rest of the body. */
  lemma RejectsShortPassword(body: Body)
    requires body.password.Some? && Alphanumeric(body.password.value) && |body.password.value| < 8
    ensures Validate(body) == Failure(Response(400, InvalidInputMessage, None))
  {
    AlphanumericLength(body.password.value);
  }

  /** An email without `@` is refused with the credentials message. */
  lemma RejectsEmailWithoutAt(body: Body)
    requires body.email.Some? && '@' !in body.email.value
    ensures Validate(body) == Failure(Response(400, InvalidInputMessage, None))
  {
    JsText.IncludesChar(body.email.value, '@');
  }

  /** A row of the user table. */
  datatype User = User(id: nat, email: string, passwordHash: string, userType: UserType)

  /** Which awaited store or hashing steps throw. */
  datatype Faults = Faults(lookupFails: bool, hashFails: bool, createFails: bool)

  const NoFaults := Faults(false, false, false)

  /** The user table as a value: users filed by email, and the next id to
      hand out. */
  datatype Table = Table(users: map<string, User>, nextId: nat)

  /** Each user is filed under its own email (so emails are unique), and ids
      are below `nextId` and never shared. */
  predicate TableValid(table: Table)
  {
    && (forall e :: e in table.users ==> table.users[e].email == e && table.users[e].id < table.nextId)
    && (forall e, f :: e in table.users && f in table.users && table.users[e].id == table.users[f].id ==> e == f)
  }

  /** The table after `create` files a new user under the next id. */
  function Inserted(table: Table, email: string, passwordHash: string, userType: UserType): (t: Table)
    ensures email in t.users && t.users[email] == User(table.nextId, email, passwordHash, userType)
    ensures forall e :: e != email ==> (e in t.users <==> e in table.users)
    ensures forall e :: e != email && e in table.users ==> t.users[e] == table.users[e]
    ensures t.nextId == table.nextId + 1
  {
    Table(table.users[email := User(table.nextId, email, passwordHash, userType)], table.nextId + 1)
  }

  /** Inserting an email not yet in a valid table keeps it valid and adds
      exactly one user: the new id is larger than every id already there. */
  lemma InsertKeepsValid(table: Table, email: string, passwordHash: string, userType: UserType)
    requires TableValid(table) && email !in table.users
    ensures TableValid(Inserted(table, email, passwordHash, userType))
    ensures |Inserted(table, email, passwordHash, userType).users| == |table.users| + 1
  {
    var t := Inserted(table, email, passwordHash, userType);
    forall e | e in t.users
      ensures t.users[e].email == e && t.users[e].id < t.nextId
    {
      if e != email {
        assert t.users[e] == table.users[e];
      }
    }
    forall e, f | e in t.users && f in t.users && t.users[e].id == t.users[f].id
      ensures e == f
    {
      if e != email && f != email {
        assert t.users[e] == table.users[e] && t.users[f] == table.users[f];
      } else if e != f {
        assert false;
      }
    }
    assert t.users.Keys == table.users.Keys + {email};
  }

  /** The user table the handlers read and insert into. */
  class UserStore {
    var users: map<string, User>
    var nextId: nat

    function Contents(): Table
      reads this
    {
      Table(users, nextId)
    }

    predicate Valid()
      reads this
    {
      TableValid(Contents())
    }

    constructor ()
      ensures Valid() && Contents() == Table(map[], 0)
    {
      users := map[];
      nextId := 0;
    }

    /** `findUnique({ where: { email } })` */
    method FindUnique(email: string) returns (found: Option<User>)
      ensures found.Some? <==> email in users
      ensures found.Some? ==> found.value == users[email]
    {
      if email in users {
        found := Some(users[email]);
      } else {
        found := None;
      }
    }

    /** `create({ data: { email, password, userType } })`: files a new user
        under the next id. */
    method Create(email: string, passwordHash: string, userType: UserType) returns (user: User)
      requires Valid() && email !in users
      modifies this
      ensures Valid()
      ensures user == User(old(nextId), email, passwordHash, userType)
      ensures Contents() == Inserted(old(Contents()), email, passwordHash, userType)
    {
      InsertKeepsValid(Contents(), email, passwordHash, userType);
      user := User(nextId, email, passwordHash, userType);
      users := users[email := user];
      nextId := nextId + 1;
    }
  }
}
