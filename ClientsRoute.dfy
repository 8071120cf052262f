/** The `/api/clients` collection route: listing every client, and creating one after an
    ordered chain of checks in which the first failing check decides the response. */
module ClientsRoute {
  import opened Wrappers
  import opened Text
  import opened Patterns
  import opened Ordering
  import opened Store

  /** The JSON body's fields; `None` is a field that is absent (or null). */
  datatype ClientRequest = ClientRequest(name: Option<string>, dni: Option<string>, phone: Option<string>)

  datatype ClientError =
    | NameRequired
    | DniRequired
    | DniFormat
    | PhoneFormat
    | DuplicateDni(existingId: Id, existingName: string)
  {
    function Status(): int {
      if DuplicateDni? then 409 else 400
    }

    function Message(): string {
      match this
      case NameRequired => "El nombre es requerido"
      case DniRequired => "El DNI es requerido"
      case DniFormat => "El DNI debe tener exactamente 8 d\U{ED}gitos"
      case PhoneFormat => "El tel\U{E9}fono debe comenzar con 9 y tener 9 d\U{ED}gitos"
      case DuplicateDni(_, _) => "Ya existe un cliente con este DNI"
    }
  }

  datatype ClientResponse = Created(client: Client) | Rejected(error: ClientError)
  {
    function Status(): int {
      if Created? then 201 else error.Status()
    }
  }

  /** `!v || !v.trim()`. */
  predicate Blank(v: Option<string>) {
    Falsy(v) || Trim(v.value) == ""
  }

  /** The phone check passes: `phone && !/^9\d{8}$/.test(phone)` is false. */
  predicate PhoneAcceptable(phone: Option<string>) {
    Falsy(phone) || Matches(PhonePattern(), phone.value)
  }

  /** The handler's checks in their order; the first that fails is the outcome. */
  function Check(req: ClientRequest, clients: seq<Client>): Option<ClientError> {
    if Blank(req.name) then Some(NameRequired)
    else if Blank(req.dni) then Some(DniRequired)
    else if !Matches(DniPattern(), req.dni.value) then Some(DniFormat)
    else if !PhoneAcceptable(req.phone) then Some(PhoneFormat)
    else match ClientByDni(clients, req.dni.value)
      case Some(existing) => Some(DuplicateDni(existing.id, existing.name))
      case None => None
  }

  /** Every check evaluated on its own, in the handler's order: the aggregated report
      that the handler does not produce, used to state which failure it reports. */
  function Failures(req: ClientRequest, clients: seq<Client>): seq<ClientError> {
    var duplicate := if req.dni.Some? then ClientByDni(clients, req.dni.value) else None;
    (if Blank(req.name) then [NameRequired] else [])
    + (if Blank(req.dni) then [DniRequired] else [])
    + (if req.dni.None? || !Matches(DniPattern(), req.dni.value) then [DniFormat] else [])
    + (if !PhoneAcceptable(req.phone) then [PhoneFormat] else [])
    + (if duplicate.Some? then [DuplicateDni(duplicate.value.id, duplicate.value.name)] else [])
  }

  /** The record the handler inserts: every field trimmed, an absent phone left absent. */
  function NewClient(id: Id, req: ClientRequest): Client
    requires req.name.Some? && req.dni.Some?
  {
    Client(id, Trim(req.name.value), Trim(req.dni.value),
           if req.phone.Some? then Some(Trim(req.phone.value)) else None)
  }

  /** The handler reports the first failing check and only that one; it accepts exactly
      when no check fails. */
  lemma CheckReportsFirstFailure(req: ClientRequest, clients: seq<Client>)
    ensures Check(req, clients) == if Failures(req, clients) == [] then None else Some(Failures(req, clients)[0])
  {
  }

  /** A field is blank, in the sense of `!v || !v.trim()`, exactly when it is absent or
      made only of whitespace. */
  lemma BlankIffAllSpace(v: Option<string>)
    ensures Blank(v) <==> v.None? || AllSpace(v.value)
  {
    if v.Some? {
      TrimEmptyIffAllSpace(v.value);
    }
  }

  /** The name check fails, and decides the response, exactly when the name is absent or
      made only of whitespace. */
  lemma NameRule(req: ClientRequest, clients: seq<Client>)
    ensures Check(req, clients) == Some(NameRequired) <==> req.name.None? || AllSpace(req.name.value)
  {
    BlankIffAllSpace(req.name);
  }

  /** Once the name check passes, the two DNI checks decide next. */
  lemma CheckAfterName(req: ClientRequest, clients: seq<Client>)
    requires !Blank(req.name)
    ensures Check(req, clients) == Some(DniRequired) <==> Blank(req.dni)
    ensures !Blank(req.dni) ==> (Check(req, clients) == Some(DniFormat) <==> !Matches(DniPattern(), req.dni.value))
  {
    if Blank(req.dni) {
      assert Check(req, clients) == Some(DniRequired);
    } else if !Matches(DniPattern(), req.dni.value) {
      assert Check(req, clients) == Some(DniFormat);
    }
  }

  /** With a name present, the DNI is rejected as missing when absent or whitespace-only,
      and otherwise as malformed unless it is exactly eight ASCII digits. */
  lemma DniRule(req: ClientRequest, clients: seq<Client>)
    requires req.name.Some? && !AllSpace(req.name.value)
    ensures Check(req, clients) == Some(DniRequired) <==> req.dni.None? || AllSpace(req.dni.value)
    ensures req.dni.Some? && !AllSpace(req.dni.value) ==>
              (Check(req, clients) == Some(DniFormat) <==> !(|req.dni.value| == 8 && AllDigits(req.dni.value)))
  {
    BlankIffAllSpace(req.name);
    BlankIffAllSpace(req.dni);
    CheckAfterName(req, clients);
    if req.dni.Some? {
      DniPatternIff(req.dni.value);
    }
  }

  /** An absent or empty phone skips the phone check; any other phone passes exactly when
      it is nine digits starting with 9. */
  lemma PhoneRule(phone: Option<string>)
    ensures PhoneAcceptable(phone) <==>
              phone.None? || phone.value == "" || (|phone.value| == 9 && phone.value[0] == '9' && AllDigits(phone.value))
  {
    if phone.Some? {
      PhonePatternIff(phone.value);
    }
  }

  /** Once the format checks pass, the request is refused with 409 exactly when a client
      with that DNI is stored, and the refusal names that client's id and name. */
  lemma DuplicateRule(req: ClientRequest, clients: seq<Client>)
    requires !Blank(req.name) && !Blank(req.dni)
    requires Matches(DniPattern(), req.dni.value) && PhoneAcceptable(req.phone)
    ensures Check(req, clients).Some? <==> exists c :: c in clients && c.dni == req.dni.value
    ensures Check(req, clients).Some? ==>
              Check(req, clients).value.Status() == 409 &&
              exists c :: c in clients && c.dni == req.dni.value &&
                Check(req, clients).value == DuplicateDni(c.id, c.name)
  {
    var found := ClientByDni(clients, req.dni.value);
    if found.Some? {
      assert found.value in clients && found.value.dni == req.dni.value;
    }
  }

  /** Once the DNI and phone checks pass, only the name check and the uniqueness check
      can still refuse the request. */
  lemma PastFormatChecks(req: ClientRequest, clients: seq<Client>)
    requires !Blank(req.dni) && Matches(DniPattern(), req.dni.value) && PhoneAcceptable(req.phone)
    ensures Check(req, clients) == Some(NameRequired) <==> Blank(req.name)
    ensures Check(req, clients).Some? && !Blank(req.name) ==> Check(req, clients).value.DuplicateDni?
  {
  }

  /** An accepted request yields a well-formed client that keeps the requested DNI and the
      trimmed name, and whose DNI no stored client has. */
  lemma AcceptedClient(req: ClientRequest, clients: seq<Client>, id: Id)
    requires Check(req, clients).None?
    ensures req.name.Some? && req.dni.Some?
    ensures NewClient(id, req).dni == req.dni.value
    ensures NewClient(id, req).name == Trim(req.name.value)
    ensures WellFormedClient(NewClient(id, req))
    ensures forall c | c in clients :: c.dni != req.dni.value
  {
    var c := NewClient(id, req);
    var name, dni := req.name.value, req.dni.value;
    assert !Blank(req.name) && Matches(DniPattern(), dni) && PhoneAcceptable(req.phone);
    assert Trim(dni) == dni && Matches(DniPattern(), c.dni) by {
      DniPatternIff(dni);
      DigitsHaveNoSpace(dni);
      TrimNoSpace(dni);
    }
    assert c.name != "" && Trim(c.name) == c.name by {
      TrimIdempotent(name);
    }
    assert c.phone.None? || c.phone.value == "" || Matches(PhonePattern(), c.phone.value) by {
      if req.phone.Some? && req.phone.value != "" {
        PhonePatternIff(req.phone.value);
        DigitsHaveNoSpace(req.phone.value);
        TrimNoSpace(req.phone.value);
      }
    }
  }

  /** Inserting the record of an accepted request with a new id keeps the store invariant. */
  lemma AcceptedKeepsValid(req: ClientRequest, clients: seq<Client>, appointments: seq<Appointment>, id: Id)
    requires Check(req, clients).None?
    requires forall c | c in clients :: c.id != id
    ensures req.name.Some? && req.dni.Some?
    ensures ClientsValid(clients) && AppointmentsValid(clients, appointments) ==>
              ClientsValid(clients + [NewClient(id, req)]) && AppointmentsValid(clients + [NewClient(id, req)], appointments)
  {
    AcceptedClient(req, clients, id);
    if ClientsValid(clients) && AppointmentsValid(clients, appointments) {
      AddClientKeepsValid(clients, appointments, NewClient(id, req));
    }
  }

  predicate NameLe(a: Client, b: Client) {
    StrLe(a.name, b.name)
  }

  lemma NameOrderIsTotal()
    ensures TotalPreorder(NameLe)
  {
    forall a: Client, b: Client ensures NameLe(a, b) || NameLe(b, a) {
      StrLeTotal(a.name, b.name);
    }
    forall a: Client, b: Client, c: Client | NameLe(a, b) && NameLe(b, c) ensures NameLe(a, c) {
      StrLeTransitive(a.name, b.name, c.name);
    }
  }

  /** `GET /api/clients`: every stored client, ordered by name. The handler takes no
      request, so a `dni` query parameter has no effect. */
  method Get(db: Database) returns (r: seq<Client>)
    ensures Sorted(r, NameLe)
    ensures multiset(r) == multiset(db.clients)
  {
    NameOrderIsTotal();
    SortSorted(db.clients, NameLe);
    r := Sort(db.clients, NameLe);
  }

  /** The handler's chain of early returns, stopping at the first failing check. */
  method Validate(req: ClientRequest, clients: seq<Client>) returns (error: Option<ClientError>)
    ensures error == Check(req, clients)
  {
    if Blank(req.name) {
      return Some(NameRequired);
    }
    if Blank(req.dni) {
      return Some(DniRequired);
    }
    var dni := req.dni.value;
    if !Matches(DniPattern(), dni) {
      return Some(DniFormat);
    }
    if !PhoneAcceptable(req.phone) {
      return Some(PhoneFormat);
    }
    var existing := ClientByDni(clients, dni);
    if existing.Some? {
      return Some(DuplicateDni(existing.value.id, existing.value.name));
    }
    return None;
  }

  /** `POST /api/clients`: runs the checks in order, returns the first failure without
      touching the store, and otherwise inserts the trimmed record and answers 201. */
  method Post(db: Database, req: ClientRequest, newId: Id) returns (resp: ClientResponse)
    requires forall c | c in db.clients :: c.id != newId
    modifies db
    ensures old(db.Valid()) ==> db.Valid()
    ensures db.appointments == old(db.appointments)
    ensures resp.Rejected? <==> Check(req, old(db.clients)).Some?
    ensures resp.Rejected? ==> Some(resp.error) == Check(req, old(db.clients)) && db.clients == old(db.clients)
    ensures resp.Created? ==>
              && resp.Status() == 201
              && req.name.Some? && req.dni.Some?
              && resp.client == NewClient(newId, req)
              && resp.client.dni == req.dni.value
              && resp.client.name == Trim(req.name.value)
              && db.clients == old(db.clients) + [resp.client]
  {
    var error := Validate(req, db.clients);
    if error.Some? {
      return Rejected(error.value);
    }
    var client := NewClient(newId, req);
    AcceptedClient(req, db.clients, newId);
    AcceptedKeepsValid(req, db.clients, db.appointments, newId);
    db.clients := db.clients + [client];
    resp := Created(client);
  }
}
