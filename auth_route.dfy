/** `POST /api/auth` (the App Router handler): validate the body, refuse a
    registered email, hash the password, insert the user. Every step runs
    inside one try block, so any exception becomes a 500 reply. */
module AuthRoute {
  import opened Wrappers
  import JsText
  import opened Users

  /** A reply together with the user table it leaves behind. */
  datatype Outcome = Outcome(response: Response, table: Table)

  const InternalError := Response(500, InternalErrorMessage, None)

  /** What the handler answers and stores. `request` is `None` when the body
      is not JSON (`req.json()` throws); `hash` is bcrypt's `hash(_, 12)`. */
  function Post(table: Table, request: Option<Body>, hash: string -> string, faults: Faults): (o: Outcome)
    ensures o.response.status in {201, 400, 409, 500}
    ensures o.response.status != 201 ==> o.table == table && o.response.userId.None?
    ensures o.response.status == 500 ==> o.response.message == InternalErrorMessage
    ensures request.None? ==> o.response.status == 500
    ensures o.response.status == 400 <==> request.Some? && Validate(request.value).Failure?
    ensures o.response.status == 400 ==> o.response == Validate(request.value).error
    ensures o.response.status == 409 ==> o.response == Response(409, DuplicateEmailMessage, None)
    ensures o.response.status == 409 <==>
      && request.Some? && Validate(request.value).Success? && !faults.lookupFails
      && Validate(request.value).value.email in table.users
    ensures o.response.status == 201 <==>
      && request.Some? && Validate(request.value).Success? && faults == NoFaults
      && Validate(request.value).value.email !in table.users
    ensures o.response.status == 201 ==>
      var registration := Validate(request.value).value;
      && o.response == Response(201, CreatedMessage, Some(table.nextId))
      && o.table == Inserted(table, registration.email, hash(registration.password), registration.userType)
    ensures TableValid(table) ==> TableValid(o.table)
  {
    match request
    case None => Outcome(InternalError, table)
    case Some(body) =>
      match Validate(body)
      case Failure(rejection) => Outcome(rejection, table)
      case Success(registration) =>
        if faults.lookupFails then Outcome(InternalError, table)
        else if registration.email in table.users then
          Outcome(Response(409, DuplicateEmailMessage, None), table)
        else if faults.hashFails || faults.createFails then Outcome(InternalError, table)
        else
          var hashed := hash(registration.password);
          assert TableValid(table) ==> TableValid(Inserted(table, registration.email, hashed, registration.userType)) by {
            if TableValid(table) {
              InsertKeepsValid(table, registration.email, hashed, registration.userType);
            }
          }
          Outcome(Response(201, CreatedMessage, Some(table.nextId)),
                  Inserted(table, registration.email, hashed, registration.userType))
  }

  /** The handler itself, step by step against the store. */
  method HandlePost(store: UserStore, request: Option<Body>, hash: string -> string, faults: Faults)
    returns (response: Response)
    requires store.Valid()
    modifies store
    ensures store.Valid()
    ensures Outcome(response, store.Contents()) == Post(old(store.Contents()), request, hash, faults)
  {
    if request.None? {
      return InternalError;
    }
    var body := request.value;
    if !CredentialsValid(body) {
      return Response(400, InvalidInputMessage, None);
    }
    var userType := UserTypeOf(body.userType);
    if userType.None? {
      return Response(400, InvalidUserTypeMessage, None);
    }
    var email, password := body.email.value, body.password.value;
    if faults.lookupFails {
      return InternalError;
    }
    var existing := store.FindUnique(email);
    if existing.Some? {
      return Response(409, DuplicateEmailMessage, None);
    }
    if faults.hashFails {
      return InternalError;
    }
    var hashed := hash(password);
    if faults.createFails {
      return InternalError;
    }
    var user := store.Create(email, hashed, userType.value);
    response := Response(201, CreatedMessage, Some(user.id));
  }

  /** Registering the same valid body twice: the first succeeds, the second is
      refused as a duplicate and leaves the table as the first left it. */
  lemma RegisterTwice(table: Table, body: Body, hash: string -> string)
    requires Validate(body).Success? && Validate(body).value.email !in table.users
    ensures Post(table, Some(body), hash, NoFaults).response.status == 201
    ensures var first := Post(table, Some(body), hash, NoFaults).table;
      Post(first, Some(body), hash, NoFaults) == Outcome(Response(409, DuplicateEmailMessage, None), first)
  {
  }

  /** A successful registration adds exactly one user, filed under the email
      sent, holding the hash of the password sent rather than the password. */
  lemma StoresOnlyTheHash(table: Table, body: Body, hash: string -> string)
    requires Validate(body).Success? && Validate(body).value.email !in table.users
    ensures var o := Post(table, Some(body), hash, NoFaults);
      var email := body.email.value;
      && email in o.table.users
      && o.table.users[email].passwordHash == hash(body.password.value)
      && o.table.users[email].id == table.nextId
      && |o.table.users| == |table.users| + 1
  {
    var registration := Validate(body).value;
    assert Post(table, Some(body), hash, NoFaults).table.users.Keys == table.users.Keys + {registration.email};
  }

  /** The backend test's successful registration: 201 with its message. */
  lemma NewUserIsCreated(table: Table, hash: string -> string)
    requires "test@example.com" !in table.users
    ensures var o := Post(table, Some(Body(Some("test@example.com"), Some("password123"), Some("INDIVIDUAL"))), hash, NoFaults);
      o.response.status == 201 && o.response.message == "User created successfully"
  {
    var body := Body(Some("test@example.com"), Some("password123"), Some("INDIVIDUAL"));
    TestPassword();
    AcceptsWellFormed(body, 4, Individual);
  }

  /** The backend test's three-character password: 400, and the message
      mentions the length rule. */
  lemma ShortPasswordIsRejected(table: Table, hash: string -> string)
    ensures var o := Post(table, Some(Body(Some("test@example.com"), Some("123"), Some("INDIVIDUAL"))), hash, NoFaults);
      && o.response.status == 400 && o.table == table
      && JsText.Includes(o.response.message, "Password must be at least 8 characters")
  {
    var body := Body(Some("test@example.com"), Some("123"), Some("INDIVIDUAL"));
    assert Alphanumeric("123");
    RejectsShortPassword(body);
    MessageStatesRule();
  }

  /** The 400 message for bad credentials states the password length rule. */
  lemma MessageStatesRule()
    ensures JsText.Includes(InvalidInputMessage, "Password must be at least 8 characters")
  {
    var prefix := "Invalid input. ";
    assert InvalidInputMessage == prefix + PasswordRule + ".";
    assert forall k :: 0 <= k < |PasswordRule| ==> InvalidInputMessage[|prefix| + k] == PasswordRule[k];
    assert InvalidInputMessage[|prefix|..|prefix| + |PasswordRule|] == PasswordRule;
    assert JsText.OccursAt(InvalidInputMessage, PasswordRule, |prefix|);
  }

  /** The password the backend tests send. */
  lemma TestPassword()
    ensures Alphanumeric("password123") && |"password123"| == 11
  {
  }

  /** The backend test's email without `@`: 400. */
  lemma EmailWithoutAtIsRejected(table: Table, hash: string -> string)
    ensures Post(table, Some(Body(Some("invalid-email"), Some("password123"), Some("INDIVIDUAL"))), hash, NoFaults).response.status == 400
  {
    assert '@' !in "invalid-email";
    RejectsEmailWithoutAt(Body(Some("invalid-email"), Some("password123"), Some("INDIVIDUAL")));
  }

  /** The backend test's body with no email: 400. */
  lemma MissingEmailIsRejected(table: Table, hash: string -> string)
    ensures Post(table, Some(Body(None, Some("password123"), Some("INDIVIDUAL"))), hash, NoFaults).response.status == 400
  {
  }

  /** The backend test's already registered email: 409 with its message. */
  lemma ExistingUserIsRefused(table: Table, hash: string -> string)
    requires "exists@example.com" in table.users
    ensures var o := Post(table, Some(Body(Some("exists@example.com"), Some("password123"), Some("INDIVIDUAL"))), hash, NoFaults);
      o.response.status == 409 && o.response.message == "User with this email already exists." && o.table == table
  {
    var body := Body(Some("exists@example.com"), Some("password123"), Some("INDIVIDUAL"));
    TestPassword();
    AcceptsWellFormed(body, 6, Individual);
  }
}
