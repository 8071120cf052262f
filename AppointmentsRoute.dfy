/** The `/api/appointments` collection route: listing appointments, optionally filtered
    by DNI, and creating one after an ordered chain of checks that ends with the referenced
    client's existence and its DNI. */
module AppointmentsRoute {
  import opened Wrappers
  import opened Text
  import opened Patterns
  import opened Ordering
  import opened Collections
  import opened Store

  /** `isValidObjectId`: the string has the shape of a MongoDB ObjectId. */
  predicate IsValidObjectId(id: string)
    ensures IsValidObjectId(id) <==> |id| == 24 && forall i :: 0 <= i < |id| ==> IsHexDigit(id[i])
  {
    ObjectIdPatternIff(id);
    Matches(ObjectIdPattern(), id)
  }

  /** The JSON body's fields; `kind` is the `type` field, `date` the string given to
      `new Date(...)`. */
  datatype AppointmentRequest = AppointmentRequest(
    title: Option<string>,
    kind: Option<string>,
    description: Option<string>,
    date: Option<string>,
    time: Option<string>,
    address: Option<string>,
    zone: Option<string>,
    clientId: Option<string>,
    dni: Option<string>)

  datatype AppointmentError =
    | MissingFields
    | InvalidClientId
    | DniLength
    | ClientNotFound
    | DniMismatch
  {
    function Status(): int {
      if ClientNotFound? then 404 else 400
    }

    function Message(): string {
      match this
      case MissingFields => "Faltan campos requeridos"
      case InvalidClientId => "ID de cliente inv\U{E1}lido"
      case DniLength => "El DNI debe tener 8 d\U{ED}gitos"
      case ClientNotFound => "El cliente especificado no existe"
      case DniMismatch => "El DNI no coincide con el cliente registrado"
    }
  }

  datatype AppointmentResponse = Created(appointment: Appointment) | Rejected(error: AppointmentError)
  {
    function Status(): int {
      if Created? then 201 else error.Status()
    }
  }

  /** The outcome of a listing: the appointments found, or the refusal of a malformed DNI. */
  datatype ListResponse = Listed(appointments: seq<Appointment>) | BadDniFilter
  {
    function Status(): int {
      if Listed? then 200 else 400
    }

    function Message(): string {
      if Listed? then "" else "El DNI debe tener 8 d\U{ED}gitos."
    }
  }

  /** One of the seven required fields is falsy; `description` and `time` are optional. */
  predicate MissingRequired(req: AppointmentRequest) {
    || Falsy(req.title) || Falsy(req.kind) || Falsy(req.date) || Falsy(req.address)
    || Falsy(req.zone) || Falsy(req.clientId) || Falsy(req.dni)
  }

  /** The handler's checks in their order; the first that fails is the outcome. */
  function Check(req: AppointmentRequest, clients: seq<Client>): Option<AppointmentError> {
    if MissingRequired(req) then Some(MissingFields)
    else if !IsValidObjectId(req.clientId.value) then Some(InvalidClientId)
    else if |req.dni.value| != 8 then Some(DniLength)
    else match ClientById(clients, req.clientId.value)
      case None => Some(ClientNotFound)
      case Some(owner) => if owner.dni != req.dni.value then Some(DniMismatch) else None
  }

  /** The record the handler creates; the store gives it its id and the default status. */
  function NewAppointment(id: Id, req: AppointmentRequest, toDate: string -> Date): Appointment
    requires !MissingRequired(req)
  {
    Appointment(id, req.title.value, req.kind.value, req.description, toDate(req.date.value),
                req.time, req.address.value, req.zone.value, req.dni.value, req.clientId.value,
                Scheduled)
  }

  /** The checks in order, each deciding the outcome exactly when every earlier one passed
      and it fails. */
  lemma CheckOrder(req: AppointmentRequest, clients: seq<Client>)
    ensures Check(req, clients) == Some(MissingFields) <==> MissingRequired(req)
    ensures !MissingRequired(req) ==>
              (Check(req, clients) == Some(InvalidClientId) <==>
                 !(|req.clientId.value| == 24 && forall i :: 0 <= i < 24 ==> IsHexDigit(req.clientId.value[i])))
    ensures !MissingRequired(req) && IsValidObjectId(req.clientId.value) ==>
              (Check(req, clients) == Some(DniLength) <==> |req.dni.value| != 8)
    ensures !MissingRequired(req) && IsValidObjectId(req.clientId.value) && |req.dni.value| == 8 ==>
              (Check(req, clients) == Some(ClientNotFound) <==> forall c | c in clients :: c.id != req.clientId.value)
  {
  }

  /** Once the shape checks pass, the request is refused for a DNI mismatch exactly when
      the stored client with that id has another DNI. Only the uniqueness of client ids,
      which the store assigns, is needed; the clients' DNIs may be anything. */
  lemma MismatchRule(req: AppointmentRequest, clients: seq<Client>)
    requires forall i, j :: 0 <= i < j < |clients| ==> clients[i].id != clients[j].id
    requires !MissingRequired(req) && IsValidObjectId(req.clientId.value) && |req.dni.value| == 8
    ensures Check(req, clients) == Some(DniMismatch) <==>
              exists c :: c in clients && c.id == req.clientId.value && c.dni != req.dni.value
  {
    var owner := ClientById(clients, req.clientId.value);
    if c :| c in clients && c.id == req.clientId.value && c.dni != req.dni.value {
      var i :| 0 <= i < |clients| && clients[i] == c;
      var j :| 0 <= j < |clients| && clients[j] == owner.value;
      assert i == j;
    }
  }

  /** The optional fields play no part in the decision. */
  lemma OptionalFieldsIgnored(req: AppointmentRequest, clients: seq<Client>, description: Option<string>, time: Option<string>)
    ensures Check(req.(description := description, time := time), clients) == Check(req, clients)
  {
  }

  /** An accepted request refers to a stored client, and the new appointment carries that
      client's DNI. */
  lemma AcceptedAppointment(req: AppointmentRequest, clients: seq<Client>, id: Id, toDate: string -> Date)
    requires Check(req, clients).None?
    ensures !MissingRequired(req)
    ensures BelongsTo(NewAppointment(id, req, toDate), clients)
  {
  }

  /** The handler itself only checks the DNI's length, but when every stored client is
      well formed the accepted DNI is a stored client's, and so eight digits. */
  lemma AcceptedDniDigits(req: AppointmentRequest, clients: seq<Client>)
    requires forall c | c in clients :: WellFormedClient(c)
    requires Check(req, clients).None?
    ensures AllDigits(req.dni.value)
  {
    var owner := ClientById(clients, req.clientId.value);
    assert owner.Some? && owner.value in clients;
    DniPatternIff(owner.value.dni);
  }

  predicate DateLe(a: Appointment, b: Appointment) {
    a.date <= b.date
  }

  /** The appointments with the given DNI, in store order. */
  function WithDni(appointments: seq<Appointment>, dni: string): (r: seq<Appointment>)
    ensures forall i :: 0 <= i < |r| ==> r[i].dni == dni
    ensures forall a | a in appointments && a.dni == dni :: a in r
  {
    var r := Keep(appointments, (a: Appointment) => a.dni == dni);
    assert forall a | a in appointments && a.dni == dni :: multiset(r)[a] == multiset(appointments)[a];
    r
  }

  /** `GET /api/appointments`: a falsy `dni` parameter lists every appointment; a DNI
      whose length is not 8 is refused; any other lists the appointments with exactly that
      DNI. Both listings are ordered by date. */
  method Get(db: Database, dni: Option<string>) returns (resp: ListResponse)
    ensures Falsy(dni) ==>
              resp.Listed? && multiset(resp.appointments) == multiset(db.appointments)
    ensures !Falsy(dni) && |dni.value| != 8 ==> resp == BadDniFilter
    ensures !Falsy(dni) && |dni.value| == 8 ==>
              && resp.Listed?
              && forall a :: multiset(resp.appointments)[a] ==
                               if a.dni == dni.value then multiset(db.appointments)[a] else 0
    ensures resp.Listed? ==> Sorted(resp.appointments, DateLe)
  {
    assert TotalPreorder(DateLe);
    if !Falsy(dni) {
      if |dni.value| != 8 {
        return BadDniFilter;
      }
      var found := WithDni(db.appointments, dni.value);
      SortSorted(found, DateLe);
      return Listed(Sort(found, DateLe));
    }
    SortSorted(db.appointments, DateLe);
    resp := Listed(Sort(db.appointments, DateLe));
  }

  /** The handler's chain of early returns, stopping at the first failing check. */
  method Validate(req: AppointmentRequest, clients: seq<Client>) returns (error: Option<AppointmentError>)
    ensures error == Check(req, clients)
  {
    if MissingRequired(req) {
      return Some(MissingFields);
    }
    var clientId, dni := req.clientId.value, req.dni.value;
    if !IsValidObjectId(clientId) {
      return Some(InvalidClientId);
    }
    if |dni| != 8 {
      return Some(DniLength);
    }
    var owner := ClientById(clients, clientId);
    if owner.None? {
      return Some(ClientNotFound);
    }
    if owner.value.dni != dni {
      return Some(DniMismatch);
    }
    return None;
  }

  /** `POST /api/appointments`: runs the checks in order, returns the first failure without
      touching the store, and otherwise inserts the new appointment and answers 201. */
  method Post(db: Database, req: AppointmentRequest, newId: Id, toDate: string -> Date) returns (resp: AppointmentResponse)
    requires forall a | a in db.appointments :: a.id != newId
    modifies db
    ensures old(db.Valid()) ==> db.Valid()
    ensures db.clients == old(db.clients)
    ensures resp.Rejected? <==> Check(req, old(db.clients)).Some?
    ensures resp.Rejected? ==> Some(resp.error) == Check(req, db.clients) && db.appointments == old(db.appointments)
    ensures resp.Created? ==>
              && resp.Status() == 201
              && !MissingRequired(req)
              && resp.appointment == NewAppointment(newId, req, toDate)
              && BelongsTo(resp.appointment, db.clients)
              && db.appointments == old(db.appointments) + [resp.appointment]
    ensures resp.Created? && old(db.Valid()) ==> AllDigits(resp.appointment.dni)
  {
    var error := Validate(req, db.clients);
    if error.Some? {
      return Rejected(error.value);
    }
    var appointment := NewAppointment(newId, req, toDate);
    AcceptedAppointment(req, db.clients, newId, toDate);
    if db.Valid() {
      AcceptedDniDigits(req, db.clients);
    }
    db.appointments := db.appointments + [appointment];
    resp := Created(appointment);
  }
}
