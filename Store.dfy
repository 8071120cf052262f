/** The two collections of the document database, Client and Appointment, as the route
    handlers see them, and the invariant the handlers keep over them. Identifiers are
    opaque strings assigned by the store; dates are abstract totally ordered values. */
module Store {
  import opened Wrappers
  import opened Text
  import opened Patterns
  import opened Collections

  type Id = string

  /** `new Date(...)` as a number of milliseconds, ordered as the store orders dates. */
  type Date = int

  datatype Client = Client(id: Id, name: string, dni: string, phone: Option<string>)

  datatype AppointmentStatus = Scheduled | Completed | Cancelled

  /** `kind` is the record's `type` field. */
  datatype Appointment = Appointment(
    id: Id,
    title: string,
    kind: string,
    description: Option<string>,
    date: Date,
    time: Option<string>,
    address: string,
    zone: string,
    dni: string,
    clientId: Id,
    status: AppointmentStatus)

  function ClientById(clients: seq<Client>, id: Id): Option<Client> {
    Find(clients, (c: Client) => c.id == id)
  }

  function ClientByDni(clients: seq<Client>, dni: string): Option<Client> {
    Find(clients, (c: Client) => c.dni == dni)
  }

  /** What the create handler guarantees of every stored client: an eight-digit DNI, a
      trimmed non-empty name, and a phone that is absent, empty, or of the phone format. */
  predicate WellFormedClient(c: Client) {
    && Matches(DniPattern(), c.dni)
    && c.name != "" && Trim(c.name) == c.name
    && (c.phone.None? || c.phone.value == "" || Matches(PhonePattern(), c.phone.value))
  }

  ghost predicate ClientsValid(clients: seq<Client>) {
    && (forall i, j :: 0 <= i < j < |clients| ==> clients[i].id != clients[j].id)
    && (forall i, j :: 0 <= i < j < |clients| ==> clients[i].dni != clients[j].dni)
    && (forall c | c in clients :: WellFormedClient(c))
  }

  /** The appointment refers to a stored client whose DNI it carries. */
  predicate BelongsTo(a: Appointment, clients: seq<Client>) {
    var owner := ClientById(clients, a.clientId);
    owner.Some? && owner.value.dni == a.dni
  }

  ghost predicate AppointmentsValid(clients: seq<Client>, appointments: seq<Appointment>) {
    && (forall i, j :: 0 <= i < j < |appointments| ==> appointments[i].id != appointments[j].id)
    && (forall a | a in appointments :: BelongsTo(a, clients))
  }

  /** Adding a client with a fresh id keeps every appointment attached to its owner. */
  lemma AddClientKeepsOwners(clients: seq<Client>, c: Client, appointments: seq<Appointment>)
    requires AppointmentsValid(clients, appointments)
    ensures AppointmentsValid(clients + [c], appointments)
  {
    forall a | a in appointments ensures BelongsTo(a, clients + [c]) {
      FindAppend(clients, c, (x: Client) => x.id == a.clientId);
    }
  }

  /** Inserting a well-formed client whose id and DNI are both new keeps the invariant of
      the whole store. */
  lemma AddClientKeepsValid(clients: seq<Client>, appointments: seq<Appointment>, c: Client)
    requires ClientsValid(clients) && AppointmentsValid(clients, appointments)
    requires WellFormedClient(c)
    requires forall x | x in clients :: x.id != c.id && x.dni != c.dni
    ensures ClientsValid(clients + [c]) && AppointmentsValid(clients + [c], appointments)
  {
    var cs := clients + [c];
    forall i, j | 0 <= i < j < |cs| ensures cs[i].id != cs[j].id && cs[i].dni != cs[j].dni {
      if j == |clients| {
        assert cs[i] in clients;
      }
    }
    AddClientKeepsOwners(clients, c, appointments);
  }

  /** The database handle that both route modules use. */
  class Database {
    var clients: seq<Client>
    var appointments: seq<Appointment>

    ghost predicate Valid()
      reads this
    {
      ClientsValid(clients) && AppointmentsValid(clients, appointments)
    }

    constructor ()
      ensures Valid() && clients == [] && appointments == []
    {
      clients := [];
      appointments := [];
    }
  }
}
