# Client and appointment validation — a Dafny model

This project models the validation-and-consistency core of a small appointment manager
built with Next.js and Prisma over MongoDB:

- the `/api/clients` collection route (`src/app/api/clients/route.js`): `GET` lists every
  client ordered by name; `POST` runs an ordered chain of checks (name present, DNI
  present, DNI of eight digits, phone of nine digits starting with 9 when given, DNI not
  already taken) and inserts the trimmed record only when all pass;
- the `/api/appointments` collection route (`src/app/api/appointments/route.js`):
  `isValidObjectId`; `GET` with an optional, length-checked DNI filter, ordered by date;
  `POST` with its own ordered chain (required fields, ObjectId shape, DNI length, client
  exists, DNI equals the client's) before inserting;
- the create-client page (`src/app/clients/create/page.js`): the sanitisers and live
  per-field errors of `handleChange`, and the validity gate of `handleSubmit`.

The database is one `Database` object (module `Store`) holding the two collections as
sequences; each handler is a method that takes it, returns the response it would send
(status and error message), and changes the store only on success. The store's
invariant says: client ids and DNIs are unique, every client has an eight-digit DNI, a
trimmed non-empty name and an acceptable phone, and every appointment refers to a stored
client whose DNI it carries. Both `POST` handlers accept any store and keep the invariant
when it held before the call. They are not the only writers, and three other handlers can
break the invariant in the running system:

- the per-client `PUT` of `src/app/api/clients/[id]/route.js:40-43` stores its request body
  unvalidated;
- the per-client `DELETE` of `src/app/api/clients/[id]/route.js:62-64` leaves that client's
  appointments referring to no client;
- the per-appointment `PUT` of `src/app/api/appointments/[id]/route.js:53-57` re-links
  `clientId` without comparing DNIs.

Modules: `Wrappers` (Option), `Collections` (first match and filtering of a
sequence), `Text` (JavaScript whitespace, digits, `trim`, truthiness), `Patterns` (the
anchored regular expressions as sequences of atoms), `Ordering` (lexicographic order and
the sort standing for `orderBy`), `Store`, `ClientsRoute`, `AppointmentsRoute`,
`CreateClientPage`.

Behaviours worth knowing, all as the code has them:

- The client `GET` takes no request, so the `dni` query parameter that the client list
  page sends is ignored: `ClientsRoute.Get` has no parameter.
- The phone is optional on the server (an absent or empty phone skips its check) but
  required by the form, which shows "Ingrese un teléfono" for an empty one.
- The appointment handler checks only the DNI's length, while the client handler requires
  digits. When every stored client was created by the client handler, an accepted
  appointment's DNI is nevertheless all digits, because it must equal a stored client's
  DNI (`AppointmentsRoute.AcceptedDniDigits`); a client edited through the unvalidated
  `PUT` can lift that guarantee.
- The form's gate counts characters without trimming, so a name of two spaces passes it
  and the server then refuses it as missing (`CreateClientPage.BlankNamePassesGate`).
- The form's live phone check says nothing about a value that is too short: a phone of
  just `9` shows no error while typing and is refused on submit
  (`CreateClientPage.ShortPhoneSilentUntilSubmit`).
- The server stops at the first failing check and reports only that one, even when
  several fail; `ClientsRoute.CheckReportsFirstFailure` relates the reported error to the
  list of every failing check.

## Model

| member | source | states |
|---|---|---|
| `Text.TrimStart` | src/app/api/clients/route.js:96 | the result is the suffix of the input left after dropping leading whitespace, and it does not start with whitespace |
| `Text.TrimEnd` | src/app/api/clients/route.js:96 | the result is the prefix of the input left after dropping trailing whitespace, and it does not end with whitespace |
| `Text.Trim` | src/app/api/clients/route.js:96-98 | `trim()` leaves no whitespace at either end |
| `Text.TrimEmptyIffAllSpace` | src/app/api/clients/route.js:46 | `trim()` gives the empty string exactly for strings made only of whitespace |
| `Text.TrimNoSpace` | src/app/api/clients/route.js:97 | trimming a string without whitespace (such as an all-digit DNI) changes nothing |
| `Text.TrimIdempotent` | src/app/api/clients/route.js:96 | trimming twice is trimming once, so a stored name is already trimmed |
| `Text.DigitsHaveNoSpace` | src/app/api/clients/route.js:97 | an all-digit string contains no whitespace |
| `Collections.Find` | src/app/api/clients/route.js:77-79 | a `findUnique` lookup returns a stored element that matches, and returns nothing exactly when no stored element matches |
| `Collections.FindAppend` | src/app/api/clients/route.js:94-107 | inserting a record does not change what a lookup already finds |
| `Collections.Keep` | src/app/clients/create/page.js:29-32 | `replace(/[^C]/g, '')` keeps only characters of the class, never lengthens, and keeps each such character's occurrence count (order: `Collections.KeepAppend`) |
| `Collections.KeepAppend` | src/app/clients/create/page.js:29-32 | filtering a concatenation is the concatenation of the filtered parts, so kept characters stay in their original order |
| `Collections.KeepAll` | src/app/clients/create/page.js:29-32 | a value already inside the class is left unchanged |
| `Collections.KeepIdempotent` | src/app/clients/create/page.js:29-32 | sanitising twice is sanitising once |
| `Patterns.Matches` | src/app/api/clients/route.js:61-69 | an anchored regex test; its meaning is stated by `Patterns.MatchesPositionwise` |
| `Patterns.MatchesPositionwise` | src/app/api/clients/route.js:61-69 | an anchored fixed-length regex matches exactly the strings of its length whose every character is accepted by the atom at that position |
| `Patterns.DniPatternIff` | src/app/api/clients/route.js:61 | `^\d{8}$` accepts exactly the strings of eight ASCII digits |
| `Patterns.PhonePatternIff` | src/app/api/clients/route.js:69 | `^9\d{8}$` accepts exactly the nine-digit strings whose first digit is 9 |
| `Patterns.ObjectIdPatternIff` | src/app/api/appointments/route.js:9 | `^[0-9a-fA-F]{24}$` accepts exactly the 24-character hexadecimal strings |
| `Ordering.StrLeTotal` | src/app/api/clients/route.js:11-13 | any two names are comparable in the name order |
| `Ordering.StrLeTransitive` | src/app/api/clients/route.js:11-13 | the name order is transitive |
| `Ordering.Insert` | src/app/api/clients/route.js:10-22 | inserting into a listing adds exactly that element |
| `Ordering.Sort` | src/app/api/clients/route.js:10-22 | ordering a listing neither adds nor drops records (a permutation) |
| `Ordering.InsertSorted` | src/app/api/appointments/route.js:33-35 | inserting into a sorted listing keeps it sorted |
| `Ordering.SortSorted` | src/app/api/appointments/route.js:43-45 | the ordered listing is sorted and a permutation of its input |
| `Store.ClientById` | src/app/api/appointments/route.js:91-93 | `findUnique({ where: { id: clientId } })`: the first stored client with that id, or none exactly when no client has it (by `Collections.Find`) |
| `Store.ClientByDni` | src/app/api/clients/route.js:77-79 | `findUnique({ where: { dni } })`: the first stored client with that DNI, or none exactly when no client has it (by `Collections.Find`) |
| `Store.AddClientKeepsOwners` | src/app/api/clients/route.js:94-107 | inserting a client leaves every appointment attached to the client it belonged to |
| `Store.AddClientKeepsValid` | src/app/api/clients/route.js:77-107 | inserting a well-formed client with a new id and a DNI no client has keeps the store invariant (unique DNIs included) |
| `Store.Database.constructor` | src/app/api/clients/route.js:5 | an empty store satisfies the invariant |
| `ClientsRoute.ClientError.Status` | src/app/api/clients/route.js:47-91 | 409 for a duplicate DNI, 400 for every other refusal |
| `ClientsRoute.ClientError.Message` | src/app/api/clients/route.js:47-91 | the `error` text of each refusal, as the handler writes it |
| `ClientsRoute.ClientResponse.Status` | src/app/api/clients/route.js:47-109 | 201 for a created client, otherwise the refusal's status |
| `ClientsRoute.Blank` | src/app/api/clients/route.js:46-58 | `!v \|\| !v.trim()`; characterised by `ClientsRoute.BlankIffAllSpace` |
| `ClientsRoute.PhoneAcceptable` | src/app/api/clients/route.js:69 | `!phone \|\| /^9\d{8}$/.test(phone)`; characterised by `ClientsRoute.PhoneRule` |
| `ClientsRoute.Check` | src/app/api/clients/route.js:46-92 | the handler's ordered checks; their order and outcomes are stated by `ClientsRoute.CheckReportsFirstFailure`, `ClientsRoute.NameRule`, `ClientsRoute.DniRule`, `ClientsRoute.PhoneRule` and `ClientsRoute.DuplicateRule` |
| `ClientsRoute.NewClient` | src/app/api/clients/route.js:94-99 | the inserted record; what it holds after an accepted request is stated by `ClientsRoute.AcceptedClient` |
| `ClientsRoute.CheckReportsFirstFailure` | src/app/api/clients/route.js:46-92 | the response is the first failing check in the order name, DNI present, DNI format, phone, uniqueness; none fails exactly when the request is accepted |
| `ClientsRoute.BlankIffAllSpace` | src/app/api/clients/route.js:46-58 | `!v \|\| !v.trim()` holds exactly for an absent field or one made only of whitespace |
| `ClientsRoute.NameRule` | src/app/api/clients/route.js:46-51 | 400 "El nombre es requerido" exactly when the name is absent or whitespace-only |
| `ClientsRoute.CheckAfterName` | src/app/api/clients/route.js:46-66 | once the name check passes, the DNI is refused as missing exactly when blank, and otherwise as malformed exactly when the DNI regex fails |
| `ClientsRoute.DniRule` | src/app/api/clients/route.js:53-66 | with a name given: 400 "El DNI es requerido" exactly when the DNI is absent or whitespace-only, otherwise 400 format error exactly when it is not eight ASCII digits |
| `ClientsRoute.PhoneRule` | src/app/api/clients/route.js:69-74 | an absent or empty phone skips the check; any other passes exactly when it is nine digits starting with 9 |
| `ClientsRoute.PastFormatChecks` | src/app/api/clients/route.js:46-92 | once the DNI and phone checks pass, the request can still be refused only as nameless (exactly when the name is blank) or as a duplicate DNI |
| `ClientsRoute.DuplicateRule` | src/app/api/clients/route.js:76-92 | after the format checks, 409 exactly when a stored client has that DNI, carrying that client's id and name |
| `ClientsRoute.AcceptedClient` | src/app/api/clients/route.js:94-107 | an accepted request inserts a well-formed client with the requested DNI, the trimmed name, and a DNI no stored client has |
| `ClientsRoute.AcceptedKeepsValid` | src/app/api/clients/route.js:94-107 | inserting the record of an accepted request with a new id keeps the store invariant whenever it held |
| `ClientsRoute.NameOrderIsTotal` | src/app/api/clients/route.js:11-13 | ordering clients by name is a total preorder |
| `ClientsRoute.Get` | src/app/api/clients/route.js:8-24 | returns every stored client, each once, sorted by name; it has no query input |
| `ClientsRoute.Validate` | src/app/api/clients/route.js:46-92 | the chain of early returns yields exactly the outcome `ClientsRoute.Check` specifies |
| `ClientsRoute.Post` | src/app/api/clients/route.js:40-109 | a rejection returns the first failing check and leaves the store unchanged; success appends exactly the trimmed record with status 201; a store that satisfied the invariant (unique DNIs included) still does |
| `AppointmentsRoute.IsValidObjectId` | src/app/api/appointments/route.js:8-10 | holds exactly for strings of length 24 whose every character is in `[0-9a-fA-F]` |
| `AppointmentsRoute.AppointmentError.Status` | src/app/api/appointments/route.js:68-107 | 404 when the client does not exist, 400 for every other refusal |
| `AppointmentsRoute.AppointmentError.Message` | src/app/api/appointments/route.js:68-107 | the `error` text of each refusal, as the handler writes it |
| `AppointmentsRoute.AppointmentResponse.Status` | src/app/api/appointments/route.js:68-127 | 201 for a created appointment, otherwise the refusal's status |
| `AppointmentsRoute.ListResponse.Status` | src/app/api/appointments/route.js:21-25 | 400 for a DNI filter of the wrong length, 200 for a listing |
| `AppointmentsRoute.ListResponse.Message` | src/app/api/appointments/route.js:22-25 | the `error` text of the refused filter, with its final full stop |
| `AppointmentsRoute.MissingRequired` | src/app/api/appointments/route.js:67 | one of the seven required fields is falsy; its place in the chain is stated by `AppointmentsRoute.CheckOrder`, its scope by `AppointmentsRoute.OptionalFieldsIgnored` |
| `AppointmentsRoute.Check` | src/app/api/appointments/route.js:67-108 | the handler's ordered checks; stated by `AppointmentsRoute.CheckOrder` and `AppointmentsRoute.MismatchRule` |
| `AppointmentsRoute.NewAppointment` | src/app/api/appointments/route.js:111-125 | the inserted record; that it belongs to its client is stated by `AppointmentsRoute.AcceptedAppointment` |
| `AppointmentsRoute.WithDni` | src/app/api/appointments/route.js:28-29 | `where: { dni }`: every listed appointment has that DNI and every stored one with that DNI is listed |
| `AppointmentsRoute.CheckOrder` | src/app/api/appointments/route.js:64-100 | 400 when a required field is falsy, then 400 for a malformed client id, then 400 for a DNI length other than 8, then 404 when no client has that id, each only when the earlier checks passed |
| `AppointmentsRoute.MismatchRule` | src/app/api/appointments/route.js:102-108 | after those checks, 400 exactly when the client with that id has a different DNI |
| `AppointmentsRoute.OptionalFieldsIgnored` | src/app/api/appointments/route.js:64-72 | `description` and `time` play no part in the decision |
| `AppointmentsRoute.AcceptedAppointment` | src/app/api/appointments/route.js:91-125 | an accepted request has every required field and refers to a stored client whose DNI the new appointment carries |
| `AppointmentsRoute.AcceptedDniDigits` | src/app/api/appointments/route.js:83-108 | although the handler checks only the DNI's length, an accepted DNI is all digits when every stored client is well formed |
| `AppointmentsRoute.Get` | src/app/api/appointments/route.js:13-49 | a falsy filter lists all appointments; a filter whose length is not 8 gives 400; otherwise exactly the appointments with that DNI; listings are sorted by date |
| `AppointmentsRoute.Validate` | src/app/api/appointments/route.js:67-108 | the chain of early returns yields exactly the outcome `AppointmentsRoute.Check` specifies |
| `AppointmentsRoute.Post` | src/app/api/appointments/route.js:61-127 | a rejection returns the first failing check and leaves the store unchanged; success appends exactly one appointment owned by the stored client with its DNI, status 201; a store that satisfied the invariant still does, and then the DNI is all digits |
| `CreateClientPage.Fields.With` | src/app/clients/create/page.js:35-38 | setting one field changes that field and no other |
| `CreateClientPage.KeepDigits` | src/app/clients/create/page.js:30 | the DNI and phone sanitiser leaves only digits and never lengthens |
| `CreateClientPage.KeepNameChars` | src/app/clients/create/page.js:32 | the name sanitiser leaves only ASCII letters, the listed accented letters and whitespace, and never lengthens |
| `CreateClientPage.Sanitise` | src/app/clients/create/page.js:29-33 | the name field keeps only name characters, the DNI and phone fields only digits, and no value grows |
| `CreateClientPage.KeepDigitsProperties` | src/app/clients/create/page.js:29-30 | the DNI and phone sanitiser leaves only digits, never lengthens, and is idempotent |
| `CreateClientPage.KeepNameCharsProperties` | src/app/clients/create/page.js:31-32 | the name sanitiser leaves only ASCII letters, the listed accented letters and whitespace, never lengthens, and is idempotent |
| `CreateClientPage.LiveErrorRules` | src/app/clients/create/page.js:40-70 | live DNI error exactly when 0 < length and length is not 8; live name error exactly when 0 < length < 2; phone: "must start with 9" for a non-empty value not starting with 9, else "max 9 digits" above nine, else none |
| `CreateClientPage.LiveError` | src/app/clients/create/page.js:40-70 | the error `handleChange` shows for one field; stated by `CreateClientPage.LiveErrorRules` |
| `CreateClientPage.LiveErrorImpliesSubmitError` | src/app/clients/create/page.js:40-93 | a field that shows a live error also gets an error on submit |
| `CreateClientPage.ShortPhoneSilentUntilSubmit` | src/app/clients/create/page.js:49-88 | the converse fails: the phone `9` shows no live error, yet the submit check refuses it |
| `CreateClientPage.SubmitErrors` | src/app/clients/create/page.js:76-93 | the three errors `handleSubmit` sets; stated by `CreateClientPage.SubmitGate` |
| `CreateClientPage.SubmitOk` | src/app/clients/create/page.js:75-97 | the `formIsValid` flag; equals "no error set" by `CreateClientPage.SubmitGate` |
| `CreateClientPage.SubmitGate` | src/app/clients/create/page.js:75-95 | the form is valid exactly when all three errors are empty; each error depends only on its own field; an empty phone gets "Ingrese un teléfono" |
| `CreateClientPage.GateAgreesWithServer` | src/app/clients/create/page.js:97-104 | a sanitised form that passes the gate passes the server's DNI and phone checks; the server can refuse it only for a whitespace-only name or a taken DNI |
| `CreateClientPage.BlankNamePassesGate` | src/app/clients/create/page.js:90-93 | a two-space name passes the gate and is refused by the server as missing |
| `CreateClientPage.CreateClientForm.constructor` | src/app/clients/create/page.js:8-18 | the form starts with empty data and no errors |
| `CreateClientPage.CreateClientForm.HandleChange` | src/app/clients/create/page.js:25-71 | stores the sanitised value in the changed field and recomputes only that field's error; every other field and error is unchanged; sanitised content is kept |
| `CreateClientPage.CreateClientForm.HandleSubmit` | src/app/clients/create/page.js:73-104 | sets the errors to the three independently computed messages; sends the form as the request body exactly when it is valid, and an invalid form sends nothing |

## Left out

- Store failures: every `catch` that answers 500, the `P2023` error mapping of the appointment handler and `prisma.$disconnect` are not modelled; the handlers here never fail in the store.
- Concurrency: the store's check-then-insert is not atomic, so two concurrent requests can both pass a check; the model runs each handler atomically.
- Ids and timestamps: the store assigns ids, so each `Post` receives the new id as a parameter with the store's promise that it is unused; `createdAt` and `updatedAt` are not modelled, and neither are the `select` projections.
- `new Date(date)` is the `toDate` parameter of `AppointmentsRoute.Post`; an invalid date, which the store would refuse, is not modelled. Dates are numbers ordered as the store orders them.
- The appointment listings embed each appointment's client (`include: { client: true }`); the model returns the appointment records only.
- The default status `SCHEDULED` comes from the database schema, which is not part of this model; `NewAppointment` sets it.
- Request bodies are modelled as optional strings; a JSON value of another type (a number, say), on which `trim()` would throw, is not modelled.
- Ordering: names are compared by character code, standing for the database's collation; records with equal keys come out in the order the model's sort gives, where the database promises no particular order.
- String lengths count Unicode code points; JavaScript's `.length` counts UTF-16 code units, which differs only for characters outside the Basic Multilingual Plane.
- The `maxLength` attributes of the form's inputs (src/app/clients/create/page.js:152, 183) are browser behaviour and are not modelled, so `HandleChange` accepts values of any length.
- React state updates are modelled as immediate assignments; their asynchrony is not modelled.
- After a valid submit, the page's handling of the response (toasts, `sessionStorage`, redirect) is not modelled; `HandleSubmit` returns the request body it sends.
- The per-id routes (`[id]/route.js`), the list pages and the landing page are not part of this model.
- Store.Database.Valid: the invariant holds only while the two `POST` handlers are the only writers; the unvalidated client `PUT` (`src/app/api/clients/[id]/route.js:40-43`), the client `DELETE` that leaves appointments without an owner (`src/app/api/clients/[id]/route.js:62-64`) and the appointment `PUT` that re-links `clientId` without a DNI check (`src/app/api/appointments/[id]/route.js:53-57`) can each break it, so the handlers promise it only for a store that already satisfied it.
- Store.ClientById: compares ids as exact strings, while the store parses a client id into an ObjectId, for which upper- and lower-case hexadecimal digits name the same id; a lookup with a differently cased id is not modelled.
- AppointmentsRoute.MismatchRule: requires client ids to be unique, which the store guarantees for the ids it assigns; it asks nothing of the clients' DNIs.
