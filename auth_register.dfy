/** The Pages Router registration `handler`: a method gate, the same
    validation as the App Router route, the duplicate check, and an insert.
    Only the insert sits inside try/catch; a throwing lookup or hash rejects
    the handler's promise without any reply written by the handler. */
module AuthRegister {
  import opened Wrappers
  import opened Users
  import AuthRoute

  /** What the handler does with the HTTP response. */
  datatype Reply = Responded(response: Response) | Rejected

  /** A reply together with the user table it leaves behind. */
  datatype Outcome = Outcome(reply: Reply, table: Table)

  /** What the handler replies and stores for a request with HTTP method
      `httpMethod` and body `body`. `body` is `None` when `req.body` cannot be
      destructured (`null` or absent): that throws before any try block, so
      the promise is rejected. */
  function Handle(table: Table, httpMethod: string, body: Option<Body>, hash: string -> string, faults: Faults): (o: Outcome)
    ensures o.reply.Responded? ==> o.reply.response.status in {201, 400, 405, 409, 500}
    ensures !(o.reply.Responded? && o.reply.response.status == 201) ==> o.table == table
    ensures httpMethod != "POST" <==> o.reply == Responded(Response(405, MethodNotAllowedMessage, None))
    ensures o.reply.Responded? && o.reply.response.status == 400 <==>
      httpMethod == "POST" && body.Some? && Validate(body.value).Failure?
    ensures o.reply.Responded? && o.reply.response.status == 400 ==> o.reply.response == Validate(body.value).error
    ensures o.reply == Responded(Response(409, DuplicateEmailMessage, None)) <==>
      && httpMethod == "POST" && body.Some? && Validate(body.value).Success? && !faults.lookupFails
      && Validate(body.value).value.email in table.users
    ensures o.reply.Responded? && o.reply.response.status == 409 ==>
      o.reply.response == Response(409, DuplicateEmailMessage, None)
    ensures o.reply.Rejected? <==>
      && httpMethod == "POST"
      && (|| body.None?
          || (&& Validate(body.value).Success?
              && (faults.lookupFails || (Validate(body.value).value.email !in table.users && faults.hashFails))))
    ensures o.reply.Responded? && o.reply.response.status == 500 <==>
      && httpMethod == "POST" && body.Some? && Validate(body.value).Success? && !faults.lookupFails
      && Validate(body.value).value.email !in table.users && !faults.hashFails && faults.createFails
    ensures o.reply.Responded? && o.reply.response.status == 201 <==>
      && httpMethod == "POST" && body.Some? && Validate(body.value).Success? && faults == NoFaults
      && Validate(body.value).value.email !in table.users
    ensures o.reply.Responded? && o.reply.response.status == 201 ==>
      var registration := Validate(body.value).value;
      && o.reply.response == Response(201, CreatedMessage, Some(table.nextId))
      && o.table == Inserted(table, registration.email, hash(registration.password), registration.userType)
    ensures TableValid(table) ==> TableValid(o.table)
  {
    if httpMethod != "POST" then Outcome(Responded(Response(405, MethodNotAllowedMessage, None)), table)
    else if body.None? then Outcome(Rejected, table)
    else
      match Validate(body.value)
      case Failure(rejection) => Outcome(Responded(rejection), table)
      case Success(registration) =>
        if faults.lookupFails then Outcome(Rejected, table)
        else if registration.email in table.users then
          Outcome(Responded(Response(409, DuplicateEmailMessage, None)), table)
        else if faults.hashFails then Outcome(Rejected, table)
        else if faults.createFails then Outcome(Responded(Response(500, InternalErrorMessage, None)), table)
        else
          var hashed := hash(registration.password);
          assert TableValid(table) ==> TableValid(Inserted(table, registration.email, hashed, registration.userType)) by {
            if TableValid(table) {
              InsertKeepsValid(table, registration.email, hashed, registration.userType);
            }
          }
          Outcome(Responded(Response(201, CreatedMessage, Some(table.nextId))),
                  Inserted(table, registration.email, hashed, registration.userType))
  }

  /** The handler itself, step by step against the store. */
  method Handler(store: UserStore, httpMethod: string, body: Option<Body>, hash: string -> string, faults: Faults)
    returns (reply: Reply)
    requires store.Valid()
    modifies store
    ensures store.Valid()
    ensures Outcome(reply, store.Contents()) == Handle(old(store.Contents()), httpMethod, body, hash, faults)
  {
    if httpMethod != "POST" {
      return Responded(Response(405, MethodNotAllowedMessage, None));
    }
    if body.None? {
      return Rejected;
    }
    var fields := body.value;
    if !CredentialsValid(fields) {
      return Responded(Response(400, InvalidInputMessage, None));
    }
    var userType := UserTypeOf(fields.userType);
    if userType.None? {
      return Responded(Response(400, InvalidUserTypeMessage, None));
    }
    var email, password := fields.email.value, fields.password.value;
    if faults.lookupFails {
      return Rejected;
    }
    var existing := store.FindUnique(email);
    if existing.Some? {
      return Responded(Response(409, DuplicateEmailMessage, None));
    }
    if faults.hashFails {
      return Rejected;
    }
    var hashed := hash(password);
    if faults.createFails {
      return Responded(Response(500, InternalErrorMessage, None));
    }
    var user := store.Create(email, hashed, userType.value);
    reply := Responded(Response(201, CreatedMessage, Some(user.id)));
  }

  /** For a POST whose lookup and hash do not throw, the two handlers reply
      alike and leave the same table. */
  lemma AgreesWithRoute(table: Table, body: Body, hash: string -> string, faults: Faults)
    requires !faults.lookupFails && !faults.hashFails
    ensures var route := AuthRoute.Post(table, Some(body), hash, faults);
      Handle(table, "POST", Some(body), hash, faults) == Outcome(Responded(route.response), route.table)
  {
  }

  /** Where they differ: a lookup that throws is a 500 from the route but a
      rejected promise here. */
  lemma LookupFailureDiffers(table: Table, body: Body, hash: string -> string, faults: Faults)
    requires Validate(body).Success? && faults.lookupFails
    ensures AuthRoute.Post(table, Some(body), hash, faults).response.status == 500
    ensures Handle(table, "POST", Some(body), hash, faults).reply == Rejected
  {
  }
}
