/**
 * The database side of a person record: the snake-case row of the `persons`
 * table, the converters between it and `PersonInfo`, and the condition under
 * which a client for the remote store exists.
 */
module Supabase {
  import opened Wrappers
  import opened JsString
  import opened Types

  /** The two connection settings read from the environment. */
  datatype Client = Client(url: string, anonKey: string)

  /** A client is created exactly when both the URL and the anonymous key are set and non-empty. */
  function CreateClient(url: Option<string>, anonKey: Option<string>): (client: Option<Client>)
    ensures client.Some? <==> IsSet(url) && IsSet(anonKey)
    ensures client.Some? ==> client.value == Client(url.value, anonKey.value)
  {
    if IsSet(url) && IsSet(anonKey) then Some(Client(url.value, anonKey.value)) else None
  }

  /** A row of the `persons` table; the field names are the column names. */
  datatype DatabasePersonInfo = DatabasePersonInfo(
    id: string,
    name: string,
    last_name: string,
    address: string,
    personal_code: string,
    phone_number: string,
    additional_info: string,
    disease_or_problem: string,
    status: string,
    emergency_note: string,
    created_at: string)

  /** `Omit<DatabasePersonInfo, 'created_at'>`: what the client writes; the server assigns `created_at`. */
  datatype DatabaseInsert = DatabaseInsert(
    id: string,
    name: string,
    last_name: string,
    address: string,
    personal_code: string,
    phone_number: string,
    additional_info: string,
    disease_or_problem: string,
    status: string,
    emergency_note: string)

  /** `toDatabase`: every property but `createdAt` lands unchanged in its column; there is no `created_at` column. */
  function ToDatabase(person: PersonInfo): (r: DatabaseInsert)
    ensures forall a :: InsertColumn(r, a) == if a == CreatedAt then None else Some(Property(person, a))
  {
    DatabaseInsert(
      person.id, person.name, person.lastName, person.address, person.personalCode,
      person.phoneNumber, person.additionalInfo, person.diseaseOrProblem, person.status,
      person.emergencyNote)
  }

  /** `fromDatabase`: every property, `createdAt` included, is its column's value. */
  function FromDatabase(row: DatabasePersonInfo): (p: PersonInfo)
    ensures forall a :: Property(p, a) == Column(row, a)
  {
    PersonInfo(
      row.id, row.name, row.last_name, row.address, row.personal_code, row.phone_number,
      row.additional_info, row.disease_or_problem, row.status, row.emergency_note,
      row.created_at)
  }

  /** The row the table holds once the server has stamped an insert with its creation time. */
  function Stamped(insert: DatabaseInsert, createdAt: string): DatabasePersonInfo
  {
    DatabasePersonInfo(
      insert.id, insert.name, insert.last_name, insert.address, insert.personal_code,
      insert.phone_number, insert.additional_info, insert.disease_or_problem, insert.status,
      insert.emergency_note, createdAt)
  }

  /** A row without its `created_at` column. */
  function Unstamped(row: DatabasePersonInfo): DatabaseInsert
  {
    DatabaseInsert(
      row.id, row.name, row.last_name, row.address, row.personal_code, row.phone_number,
      row.additional_info, row.disease_or_problem, row.status, row.emergency_note)
  }

  /** The attributes a record has, named once for both shapes. */
  datatype Attribute =
    | Id | Name | LastName | Address | PersonalCode | PhoneNumber
    | AdditionalInfo | DiseaseOrProblem | Status | EmergencyNote | CreatedAt

  /** The value of a property of a record. */
  function Property(p: PersonInfo, a: Attribute): string
  {
    match a
    case Id => p.id
    case Name => p.name
    case LastName => p.lastName
    case Address => p.address
    case PersonalCode => p.personalCode
    case PhoneNumber => p.phoneNumber
    case AdditionalInfo => p.additionalInfo
    case DiseaseOrProblem => p.diseaseOrProblem
    case Status => p.status
    case EmergencyNote => p.emergencyNote
    case CreatedAt => p.createdAt
  }

  /** The value of a column of a row. */
  function Column(r: DatabasePersonInfo, a: Attribute): string
  {
    match a
    case Id => r.id
    case Name => r.name
    case LastName => r.last_name
    case Address => r.address
    case PersonalCode => r.personal_code
    case PhoneNumber => r.phone_number
    case AdditionalInfo => r.additional_info
    case DiseaseOrProblem => r.disease_or_problem
    case Status => r.status
    case EmergencyNote => r.emergency_note
    case CreatedAt => r.created_at
  }

  /** The value of a column of an insert; an insert has no `created_at` column. */
  function InsertColumn(r: DatabaseInsert, a: Attribute): Option<string>
  {
    match a
    case Id => Some(r.id)
    case Name => Some(r.name)
    case LastName => Some(r.last_name)
    case Address => Some(r.address)
    case PersonalCode => Some(r.personal_code)
    case PhoneNumber => Some(r.phone_number)
    case AdditionalInfo => Some(r.additional_info)
    case DiseaseOrProblem => Some(r.disease_or_problem)
    case Status => Some(r.status)
    case EmergencyNote => Some(r.emergency_note)
    case CreatedAt => None
  }

  /** Writing a record and reading it back with the stamp it was given returns the record. */
  lemma StampedRoundTrip(p: PersonInfo)
    ensures FromDatabase(Stamped(ToDatabase(p), p.createdAt)) == p
  {
  }

  /** Reading a row and writing it again gives the row without its `created_at`. */
  lemma RowRoundTrip(r: DatabasePersonInfo)
    ensures ToDatabase(FromDatabase(r)) == Unstamped(r)
    ensures Stamped(ToDatabase(FromDatabase(r)), r.created_at) == r
  {
  }

  /** `createdAt` is the only property `toDatabase` does not look at. */
  lemma ToDatabaseIgnoresCreatedAt(p: PersonInfo, q: PersonInfo)
    ensures ToDatabase(p) == ToDatabase(q) <==> p.(createdAt := q.createdAt) == q
  {
  }

  /** The read direction keeps the server's stamp. */
  lemma FromDatabaseKeepsStamp(insert: DatabaseInsert, createdAt: string)
    ensures FromDatabase(Stamped(insert, createdAt)).createdAt == createdAt
    ensures ToDatabase(FromDatabase(Stamped(insert, createdAt))) == insert
  {
  }
}
