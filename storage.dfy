/**
 * The storage functions of the application. Each issues one query to the
 * remote `persons` table and turns the `{ data, error }` it resolves to into
 * a return value or a rethrown error. The remote store itself is outside the
 * model: the reply is a parameter. There is no second, local store: the
 * module refuses to load without a client.
 */
module Storage {
  import opened Wrappers
  import opened JsString
  import opened Types
  import opened Supabase

  /** The error object the remote layer reports. */
  datatype PostgrestError = PostgrestError(message: string, details: string, hint: string, code: string)

  /** What a remote call resolves to: `{ data, error }`, either of which may be null. */
  datatype Reply<T> = Reply(data: Option<T>, error: Option<PostgrestError>)

  /** The query each storage function sends. */
  datatype Query =
    | Insert(rows: seq<DatabaseInsert>)
    | SelectAllNewestFirst
    | SelectSingleById(id: string)
    | DeleteById(id: string)

  /** One storage call: the query sent, and what the function returns or throws. */
  datatype Call<T> = Call(query: Query, result: Result<T, PostgrestError>)

  datatype LoadError = ClientNotInitialized(message: string)

  const ClientNotInitializedMessage :=
    "Supabase client not initialized. Check environment variables VITE_SUPABASE_URL and VITE_SUPABASE_ANON_KEY."

  /** Loading the module fails when there is no client; nothing else is tried. */
  function LoadStorage(client: Option<Client>): (r: Result<Client, LoadError>)
    ensures r.Failure? <==> client.None?
    ensures r.Success? ==> r.value == client.value
    ensures r.Failure? ==> r.error == ClientNotInitialized(ClientNotInitializedMessage)
  {
    match client
    case None => Failure(ClientNotInitialized(ClientNotInitializedMessage))
    case Some(c) => Success(c)
  }

  /** Without both connection settings the storage module cannot load at all. */
  lemma NoStorageWithoutCredentials(url: Option<string>, anonKey: Option<string>)
    ensures LoadStorage(CreateClient(url, anonKey)).Success? <==> IsSet(url) && IsSet(anonKey)
  {
  }

  /** `savePersonInfo`: inserts the converted record; an error is rethrown, the returned data is ignored. */
  function SavePersonInfo(person: PersonInfo, reply: Reply<seq<DatabasePersonInfo>>): (c: Call<()>)
    ensures c.query == Insert([ToDatabase(person)])
    ensures c.result.Failure? <==> reply.error.Some?
    ensures c.result.Failure? ==> c.result.error == reply.error.value
  {
    var query := Insert([ToDatabase(person)]);
    if reply.error.Some? then Call(query, Failure(reply.error.value)) else Call(query, Success(()))
  }

  /** `data.map(fromDatabase)` */
  function FromDatabaseAll(rows: seq<DatabasePersonInfo>): (persons: seq<PersonInfo>)
    ensures |persons| == |rows|
    ensures forall i :: 0 <= i < |rows| ==> persons[i] == FromDatabase(rows[i])
  {
    if rows == [] then [] else [FromDatabase(rows[0])] + FromDatabaseAll(rows[1..])
  }

  /** `getPersonsData`: an error is rethrown; no data reads as the empty list; rows are converted in order. */
  function GetPersonsData(reply: Reply<seq<DatabasePersonInfo>>): (c: Call<seq<PersonInfo>>)
    ensures c.query == SelectAllNewestFirst
    ensures c.result.Failure? <==> reply.error.Some?
    ensures c.result.Failure? ==> c.result.error == reply.error.value
    ensures c.result.Success? && reply.data.None? ==> c.result.value == []
    ensures c.result.Success? && reply.data.Some? ==>
      |c.result.value| == |reply.data.value| &&
      forall i :: 0 <= i < |reply.data.value| ==> c.result.value[i] == FromDatabase(reply.data.value[i])
  {
    if reply.error.Some? then Call(SelectAllNewestFirst, Failure(reply.error.value))
    else match reply.data
      case None => Call(SelectAllNewestFirst, Success([]))
      case Some(rows) => Call(SelectAllNewestFirst, Success(FromDatabaseAll(rows)))
  }

  /** `getPersonById`: an error is rethrown; no data reads as null; a row is converted. */
  function GetPersonById(id: string, reply: Reply<DatabasePersonInfo>): (c: Call<Option<PersonInfo>>)
    ensures c.query == SelectSingleById(id)
    ensures c.result.Failure? <==> reply.error.Some?
    ensures c.result.Failure? ==> c.result.error == reply.error.value
    ensures c.result.Success? ==> (c.result.value.None? <==> reply.data.None?)
    ensures c.result.Success? && reply.data.Some? ==> c.result.value.value == FromDatabase(reply.data.value)
  {
    var query := SelectSingleById(id);
    if reply.error.Some? then Call(query, Failure(reply.error.value))
    else match reply.data
      case None => Call(query, Success(None))
      case Some(row) => Call(query, Success(Some(FromDatabase(row))))
  }

  /** `deletePersonById`: an error is rethrown; otherwise the call returns nothing. */
  function DeletePersonById(id: string, reply: Reply<()>): (c: Call<()>)
    ensures c.query == DeleteById(id)
    ensures c.result.Failure? <==> reply.error.Some?
    ensures c.result.Failure? ==> c.result.error == reply.error.value
  {
    if reply.error.Some? then Call(DeleteById(id), Failure(reply.error.value)) else Call(DeleteById(id), Success(()))
  }

  /**
   * A saved record, stamped by the server and fetched back by id, is the
   * record the application built, with the server's creation time.
   */
  lemma SavedRecordReadsBack(person: PersonInfo, createdAt: string)
    ensures var q := SavePersonInfo(person, Reply(None, None)).query;
      q.Insert? && |q.rows| == 1 &&
      GetPersonById(person.id, Reply(Some(Stamped(q.rows[0], createdAt)), None)).result
        == Success(Some(person.(createdAt := createdAt)))
  {
  }

  /** A listed row that came from a saved record reads back as that record with its stamp. */
  lemma {:induction false} ListedRecordsReadBack(persons: seq<PersonInfo>)
    ensures var rows := seq(|persons|, i requires 0 <= i < |persons| => Stamped(ToDatabase(persons[i]), persons[i].createdAt));
      GetPersonsData(Reply(Some(rows), None)).result == Success(persons)
  {
    var rows := seq(|persons|, i requires 0 <= i < |persons| => Stamped(ToDatabase(persons[i]), persons[i].createdAt));
    var r := GetPersonsData(Reply(Some(rows), None)).result;
    forall i | 0 <= i < |persons| ensures r.value[i] == persons[i] {
      StampedRoundTrip(persons[i]);
    }
    assert r.value == persons;
  }

  /** `Date.now().toString().slice(-6)`: the last six digits of the timestamp, or all of a shorter numeral. */
  function TimestampTail(timestamp: nat): (tail: string)
    ensures var t := DecimalString(timestamp);
      |tail| == (if |t| < 6 then |t| else 6) && tail == t[|t| - |tail|..]
    ensures forall i :: 0 <= i < |tail| ==> IsDigit(tail[i])
  {
    var t := DecimalString(timestamp);
    var tail := SliceFrom(t, -6);
    assert forall i :: 0 <= i < |tail| ==> tail[i] == t[|t| - |tail| + i];
    tail
  }

  /** `random.substring(2, 8).toUpperCase()`: at most six characters, none a lower-case letter. */
  function RandomSuffix(randomBase36: string): (suffix: string)
    ensures |suffix| == Clamp(8, |randomBase36|) - Clamp(2, |randomBase36|) <= 6
    ensures |suffix| == 6 <==> |randomBase36| >= 8
    ensures forall i :: 0 <= i < |suffix| ==> !IsLowerAscii(suffix[i])
    ensures forall i :: 0 <= i < |suffix| ==> 2 + i < |randomBase36| && suffix[i] == UpperChar(randomBase36[2 + i])
  {
    ToUpperCase(Substring(randomBase36, 2, 8))
  }

  /**
   * `generatePersonalCode`: the last six digits of the millisecond timestamp,
   * then characters 2 to 7 of the base-36 rendering of a random number,
   * upper-cased. The timestamp and that rendering are parameters.
   */
  function GeneratePersonalCode(timestamp: nat, randomBase36: string): (code: string)
    ensures var tail := TimestampTail(timestamp);
      |code| <= 12 &&
      |tail| <= |code| && code[..|tail|] == tail && code[|tail|..] == RandomSuffix(randomBase36)
  {
    var tail, suffix := TimestampTail(timestamp), RandomSuffix(randomBase36);
    assert (tail + suffix)[..|tail|] == tail;
    assert (tail + suffix)[|tail|..] == suffix;
    tail + suffix
  }

  /** The code is exactly 12 characters when the timestamp has at least six digits and the random rendering at least eight characters. */
  lemma PersonalCodeLayout(timestamp: nat, randomBase36: string)
    ensures |GeneratePersonalCode(timestamp, randomBase36)| == 12 <==>
      |DecimalString(timestamp)| >= 6 && |randomBase36| >= 8
  {
  }

  lemma DigitsThenNoLower(digits: string, rest: string)
    requires forall i :: 0 <= i < |digits| ==> IsDigit(digits[i])
    requires forall i :: 0 <= i < |rest| ==> !IsLowerAscii(rest[i])
    ensures forall i :: 0 <= i < |digits| ==> IsDigit((digits + rest)[i])
    ensures forall i :: |digits| <= i < |digits + rest| ==> !IsLowerAscii((digits + rest)[i])
  {
  }

  /** The code's prefix is digits of the timestamp; after it, no character is a lower-case letter. */
  lemma PersonalCodeParts(timestamp: nat, randomBase36: string)
    ensures var code, tail := GeneratePersonalCode(timestamp, randomBase36), TimestampTail(timestamp);
      |tail| <= |code| &&
      (forall i :: 0 <= i < |tail| ==> IsDigit(code[i])) &&
      (forall i :: |tail| <= i < |code| ==> !IsLowerAscii(code[i]))
  {
    DigitsThenNoLower(TimestampTail(timestamp), RandomSuffix(randomBase36));
  }

  /** What `Math.random().toString(36)` renders: `0.` followed by base-36 digits. */
  predicate IsBase36Fraction(s: string)
  {
    |s| >= 2 && s[0] == '0' && s[1] == '.' && forall i :: 2 <= i < |s| ==> IsBase36Digit(s[i])
  }

  /**
   * With a timestamp of at least six digits and at least six random digits,
   * the personal code is six decimal digits followed by six upper-case
   * base-36 digits.
   */
  lemma PersonalCodeShape(timestamp: nat, randomBase36: string)
    requires timestamp >= 100000
    requires IsBase36Fraction(randomBase36) && |randomBase36| >= 8
    ensures var code := GeneratePersonalCode(timestamp, randomBase36);
      |code| == 12 &&
      (forall i :: 0 <= i < 6 ==> IsDigit(code[i])) &&
      (forall i :: 6 <= i < 12 ==> IsDigit(code[i]) || IsUpperAscii(code[i]))
  {
    SixDigitNumeral(timestamp);
    PersonalCodeLayout(timestamp, randomBase36);
    var code := GeneratePersonalCode(timestamp, randomBase36);
    var tail := TimestampTail(timestamp);
    forall i | 0 <= i < 6 ensures IsDigit(code[i]) {
      assert code[i] == code[..|tail|][i];
    }
    forall i | 6 <= i < 12 ensures IsDigit(code[i]) || IsUpperAscii(code[i]) {
      assert code[i] == code[|tail|..][i - 6] == UpperChar(randomBase36[2 + (i - 6)]);
    }
  }
}
