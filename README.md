# Emergency information cards — a Dafny model of the core

The application keeps one record per person: name, last name, address, a
generated personal code, phone number, additional information, a disease
or problem, a status, an emergency note, an id and a creation time. Each
record can be viewed at `/view/<id>`, usually by scanning a printed QR
code whose payload is that address. Records are stored in a Supabase
table with snake_case columns. The `/list` page is shown only to the
administrator, whose flag is kept in the browser's local storage. The home
page lists every record to any visitor, and the view page lets any visitor
delete the record it shows; those two pages are not part of this model.

This project models the part of the application that decides what is
stored and what is shown:

- **`Supabase`**: the client exists only when both connection settings are
  set (`createClient`), and the record codec `toDatabase` / `fromDatabase`
  converts between the app's camelCase record and the table row.
- **`Storage`**: loading the storage module fails without a client. Each
  remote operation (`savePersonInfo`, `getPersonsData`, `getPersonById`,
  `deletePersonById`) is modelled as the query it sends plus how the
  remote `{ data, error }` reply becomes a result, and
  `generatePersonalCode` is modelled as well.
- **`AddPerson`**: the add-person form covers its initial state,
  `updateField`, `validateForm` and `handleSubmit`. That includes the
  record `newPerson` it builds and its generated id.
- **`Admin`**: `AdminProvider` is modelled as a class with a flag and the
  local storage map: the initial read, `login` and `logout`.
- **`PersonList`**: the list page covers the admin gate, loading,
  `handleDelete`'s filter and the QR payload.
- **`Routes`**: the `/view/:id` route, so that the round trip from a new
  record's id to its page can be stated.
- **`JsString`**: the JavaScript string operations the core relies on,
  written out explicitly. These are `Number#toString()` in base 10,
  `slice` with a negative start, `substring` (with clamping and argument
  swap), `toUpperCase` and `trim`.
- **`Types`** and **`Wrappers`**: the record type, and the `Option` and
  `Result` types.

Time (`Date.now()`, `new Date().toISOString()`), randomness (the base-36
rendering of `Math.random()`), environment variables, the user's
confirmation and the remote server's reply are all parameters. The remote
reply is the Supabase `{ data, error }` pair (`Storage.Reply`), and every
operation that talks to the server also returns the `Storage.Query` it
sends.

The missing-credentials warning at `src/lib/supabase.ts:8` announces a
local-storage fallback. The code has none: `src/utils/storage.ts:4-6` throws when the
module loads without a client, and that warning text is the only trace of
a fallback. The model follows the code (`Storage.LoadStorage`,
`Storage.NoStorageWithoutCredentials`).

The `createdAt` that `handleSubmit` puts on a new record never reaches the
table: `toDatabase` drops it (`src/lib/supabase.ts:31-42`), and a record
read back carries the table's own `created_at` instead
(`Storage.SavedRecordReadsBack`).

## Model

| member | source | states |
|---|---|---|
| Supabase.CreateClient | src/lib/supabase.ts:4-13 | a client exists exactly when both the URL and the anon key are set to non-empty strings, and it is built from those two settings |
| Supabase.ToDatabase | src/lib/supabase.ts:31-42 | every column of the insert row holds the value of its camelCase property, and the insert row has no `created_at` |
| Supabase.FromDatabase | src/lib/supabase.ts:44-56 | every property of the decoded record holds the value of its snake_case column, `createdAt` included |
| Supabase.StampedRoundTrip | src/lib/supabase.ts:31-56 | encoding a record, letting the table add its `created_at`, and decoding gives back the same record |
| Supabase.RowRoundTrip | src/lib/supabase.ts:31-56 | decoding a table row and encoding it again gives the row without its `created_at` |
| Supabase.ToDatabaseIgnoresCreatedAt | src/lib/supabase.ts:31-42 | two records encode to the same insert row exactly when they differ at most in `createdAt` |
| Supabase.FromDatabaseKeepsStamp | src/lib/supabase.ts:55 | the decoded record's `createdAt` is the stamp the table put on the row, and re-encoding it gives back the inserted row |
| Storage.LoadStorage | src/utils/storage.ts:4-6 | loading fails, with the fixed "client not initialized" message, exactly when there is no client |
| Storage.NoStorageWithoutCredentials | src/utils/storage.ts:4-6 | storage loads exactly when both connection settings are set |
| Storage.SavePersonInfo | src/utils/storage.ts:8-31 | inserts exactly the encoded record; fails exactly when the reply carries an error, with that error |
| Storage.FromDatabaseAll | src/utils/storage.ts:51 | decodes every row, in order, one record per row |
| Storage.GetPersonsData | src/utils/storage.ts:33-56 | asks for all rows newest first; fails exactly on an error; otherwise gives the decoded rows, or the empty list when there is no data |
| Storage.GetPersonById | src/utils/storage.ts:58-82 | asks for the single row with that id; fails exactly on an error; otherwise gives the decoded row, or none when there is no data |
| Storage.DeletePersonById | src/utils/storage.ts:84-106 | deletes by exactly that id; fails exactly when the reply carries an error, with that error |
| Storage.SavedRecordReadsBack | src/utils/storage.ts:8-82 | a saved record that the table returns with a creation stamp is read back by id as the same record, with the table's stamp as its `createdAt` |
| Storage.ListedRecordsReadBack | src/utils/storage.ts:33-56 | listing the stored rows of saved records gives back those records, in order |
| Storage.TimestampTail | src/utils/storage.ts:110-112 | the last six characters of the timestamp's numeral (all of it when shorter), all digits |
| Storage.RandomSuffix | src/utils/storage.ts:111 | characters 2 to 7 of the random rendering, upper-cased: exactly as many as `substring(2, 8)` keeps after clamping both bounds to the rendering's length, so six exactly when the rendering has eight or more characters; none lower-case |
| Storage.GeneratePersonalCode | src/utils/storage.ts:109-113 | the code is the timestamp tail followed by the random suffix, and at most twelve characters |
| Storage.PersonalCodeLayout | src/utils/storage.ts:109-113 | the code is exactly twelve characters when the numeral has six or more digits and the rendering eight or more characters, and only then |
| Storage.PersonalCodeParts | src/utils/storage.ts:109-113 | the code has no lower-case letter, and its leading part is digits only |
| Storage.PersonalCodeShape | src/utils/storage.ts:109-113 | for a timestamp of at least six digits and a base-36 fraction of at least eight characters, the code is six digits followed by six digits or capital letters |
| JsString.DecimalString | src/utils/storage.ts:110 | the numeral is non-empty, all digits, and has no leading zero unless it is `0` |
| JsString.DecimalStringRoundTrip | src/utils/storage.ts:110 | reading the numeral back as digits gives the number again |
| JsString.LeadingDigits | src/pages/AddPersonPage.tsx:55 | the digit run a string starts with: a prefix of digits followed by a non-digit or by the end of the string |
| JsString.LeadingDigitsOf | src/pages/AddPersonPage.tsx:55 | a digit string followed by a non-digit is read off exactly as that digit string |
| JsString.DecimalStringLength | src/utils/storage.ts:112 | for k of at least 1, the numeral is longer than k digits exactly when the number is at least 10^k |
| JsString.SixDigitNumeral | src/utils/storage.ts:112 | the numeral has six or more digits exactly when the number is at least 100000 |
| JsString.SliceFrom | src/utils/storage.ts:112 | a negative start keeps the last characters, `-start` of them or all when the string is shorter; the result is always a suffix |
| JsString.Substring | src/utils/storage.ts:111 | for bounds with `0 <= start <= end`, the result is the characters between the two bounds clamped to the string's length |
| JsString.ToUpperCase | src/utils/storage.ts:111 | same length; each letter `a`-`z` becomes its capital, every other character is kept |
| JsString.TrimStartFacts | src/pages/AddPersonPage.tsx:38-40 | the part dropped from the front is all white space, and the rest is a suffix that does not start with white space |
| JsString.TrimEndFacts | src/pages/AddPersonPage.tsx:38-40 | the part dropped from the end is all white space, and the rest is a prefix that does not end with white space |
| JsString.Trim | src/pages/AddPersonPage.tsx:38-40 | the trimmed string is never longer, and when non-empty neither starts nor ends with white space |
| JsString.TrimIsMiddleSlice | src/pages/AddPersonPage.tsx:38-40 | the trimmed string is a contiguous slice of the input, and everything before and after that slice is white space |
| JsString.TrimEmptyIff | src/pages/AddPersonPage.tsx:38-40 | a string trims to empty exactly when it is all white space |
| AddPerson.Set | src/pages/AddPersonPage.tsx:29 | the named field gets the new value and every other field is unchanged |
| AddPerson.InitialForm | src/pages/AddPersonPage.tsx:13-23 | every field is empty except the personal code, which is the generated one |
| AddPerson.ClearError | src/pages/AddPersonPage.tsx:30-32 | the edited field's error, when shown, becomes empty; no entry is added; every other field's entry is unchanged |
| AddPerson.RequiredErrors | src/pages/AddPersonPage.tsx:36-40 | the error map has keys only among the three required fields, each mapped to the required message |
| AddPerson.ValidationErrorsKeys | src/pages/AddPersonPage.tsx:35-44 | a field has an error exactly when it is one of name, last name and phone number and it is blank or white space; the error is the required message |
| AddPerson.ValidationSucceeds | src/pages/AddPersonPage.tsx:43 | the error map is empty exactly when those three fields are not blank |
| AddPerson.RequiredErrorsInOrder | src/pages/AddPersonPage.tsx:36-40 | the three checks in the source's order build exactly that error map |
| AddPerson.OptionalFieldsNeverFail | src/pages/AddPersonPage.tsx:35-44 | changing any optional field leaves both the error map and the verdict unchanged |
| AddPerson.PersonId | src/pages/AddPersonPage.tsx:55 | the id is `person_`, the timestamp's numeral, `_`, then exactly `substring(2, 9)` of the random rendering (at most seven characters); it has no `/` unless the rendering has one |
| AddPerson.PersonIdTimestamp | src/pages/AddPersonPage.tsx:55 | from the id alone, the digit run after `person_` denotes the timestamp |
| AddPerson.NewPerson | src/pages/AddPersonPage.tsx:54-58 | the new record carries the form's fields unchanged, the generated id and the creation time |
| AddPerson.NewPersonRoutesBack | src/pages/AddPersonPage.tsx:55-61 | the page navigated to after saving reads the new record's id back from its route |
| AddPerson.NewPersonKeepsPersonalCode | src/pages/AddPersonPage.tsx:17-58 | a record built from the initial form has the generated personal code |
| AddPerson.EditedKeepsPersonalCode | src/pages/AddPersonPage.tsx:28-33 | edits that never target the personal code keep it |
| AddPerson.AddPersonPage.constructor | src/pages/AddPersonPage.tsx:13-25 | the form starts as the initial form with a freshly generated personal code, and there are no errors |
| AddPerson.AddPersonPage.UpdateField | src/pages/AddPersonPage.tsx:28-33 | the form is updated at the field and that field's error is cleared |
| AddPerson.AddPersonPage.ValidateForm | src/pages/AddPersonPage.tsx:35-44 | the form is unchanged, the errors become the required-field errors, and the result is true exactly when the form is complete |
| AddPerson.AddPersonPage.HandleSubmit | src/pages/AddPersonPage.tsx:46-68 | an incomplete form saves nothing; otherwise it inserts the new record, navigating to its view exactly when the save succeeds and reporting the error when it fails |
| Admin.AdminPassword | src/contexts/AdminContext.tsx:12 | the configured password when it is set and non-empty, otherwise `admin123`; never empty |
| Admin.AdminProvider.constructor | src/contexts/AdminContext.tsx:15-17 | the flag starts true exactly when local storage holds `"true"` under `admin_authenticated` |
| Admin.AdminProvider.Login | src/contexts/AdminContext.tsx:19-26 | succeeds exactly for the password; success sets the flag and stores `"true"` under the key; failure changes nothing; no other key is touched and the flag stays in step with storage |
| Admin.AdminProvider.Logout | src/contexts/AdminContext.tsx:28-31 | clears the flag and removes exactly the key, leaving the flag in step with storage |
| Admin.LogoutIsIdempotent | src/contexts/AdminContext.tsx:28-31 | logging out twice leaves the same state as logging out once |
| Admin.SessionStaysConsistent | src/contexts/AdminContext.tsx:15-31 | after any sequence of logins and logouts the flag agrees with local storage |
| PersonList.WithoutId | src/pages/PersonListPage.tsx:49 | no record with the deleted id remains, and the list does not grow |
| PersonList.WithoutIdCount | src/pages/PersonListPage.tsx:49 | every record with another id remains as often as it occurred |
| PersonList.WithoutIdMembers | src/pages/PersonListPage.tsx:49 | a record with another id is kept exactly when it was there |
| PersonList.WithoutIdConcat | src/pages/PersonListPage.tsx:49 | the filter keeps relative order: it distributes over concatenation |
| PersonList.WithoutIdAbsent | src/pages/PersonListPage.tsx:49 | a list without that id is left unchanged |
| PersonList.WithoutIdIdempotent | src/pages/PersonListPage.tsx:49 | deleting the same id twice removes nothing more |
| PersonList.QrData | src/pages/PersonListPage.tsx:59 | the payload is the origin followed by the record's view path |
| PersonList.QrDataRoundTrip | src/pages/PersonListPage.tsx:59 | the payload is the origin followed by the view path, and the view route reads the id back exactly when the id is a non-empty segment without `/` |
| PersonList.PersonListPage.constructor | src/pages/PersonListPage.tsx:13-14 | the page starts loading with no records |
| PersonList.PersonListPage.LoadData | src/pages/PersonListPage.tsx:36-44 | only an administrator's page loads: a successful fetch shows the decoded rows and ends loading, and a failed one changes nothing |
| PersonList.PersonListPage.Render | src/pages/PersonListPage.tsx:17-34 | access is denied exactly to a non-administrator; otherwise the page is loading, shows no data, or lists exactly the loaded records |
| PersonList.PersonListPage.HandleDelete | src/pages/PersonListPage.tsx:46-55 | nothing is sent without confirmation; a confirmed delete sends that id, drops that id from the list exactly on success, and keeps the list on failure |
| Routes.ViewPath | src/App.tsx:18 | the path is `/view/` followed by the id |
| Routes.MatchView | src/App.tsx:18 | a match is a non-empty segment without `/` whose view path is the matched path; no match means the path lacks the prefix or its segment is empty or has a `/` |
| Routes.ViewRouteRoundTrip | src/App.tsx:18 | the route gives back the id from its own path exactly when the id is non-empty and has no `/` |

## Left out

- The remote database itself is not modelled. A server reply is a parameter, and the order, latency and concurrency of requests are not modelled.
- `Storage.GetPersonById`: the model returns "none" when the reply has no data and no error. With `.single()` the real client library reports an error when no row matches; that behaviour lives in the library, not in this code.
- Console logging (`console.warn`, `console.error`) and the missing-credentials warning are left out, because they only produce output.
- Time, randomness and environment variables (`Date.now()`, `new Date().toISOString()`, `Math.random().toString(36)`, the `VITE_*` settings) are parameters.
- The base-36 rendering of a random float is a string parameter. `Storage.PersonalCodeShape` assumes it has the shape `0.` followed by base-36 digits, which is the form JavaScript gives every value `Math.random()` returns except 0, which renders as `0`.
- The i18n text `t.form.required` is a parameter. The English and Persian translations and right-to-left layout are not modelled.
- Rendering, `window.confirm`, `alert`, `navigate` and the printed QR image are not modelled. Confirmation is a boolean parameter. Navigation is the path in the outcome. The QR payload is modelled, but image generation is not.
- `handleDelete`'s `name` argument only appears in the confirmation text, so it is dropped.
- `AddPerson.AddPersonPage.HandleSubmit` does not model the `isSubmitting` flag or the asynchronous `try`/`finally` sequencing, because they only disable the button while a save is in flight.
- `JsString.ToUpperCase` upper-cases only the letters `a`-`z`. That is enough for the base-36 characters it is applied to, but it is not the full Unicode case mapping.
- `JsString.DecimalString`: the numeral of an unbounded natural number. JavaScript prints integers of 10^21 and above in exponent notation and is inexact above 2^53; every `Date.now()` value is far below both.
- `Routes.MatchView` matches only the exact `/view/<segment>` form. Percent-decoding, other routes and the view page's own loading are not modelled.
- `useAdmin` throwing outside an `AdminProvider` is not modelled, because it only guards against a programming error in the component tree.
- `PersonList.PersonListPage.LoadData`: the source registers its effect only past the admin gate, so for a non-administrator the effect does nothing. A failed fetch leaves the page loading, because the rejection is not caught.
- The other pages (viewing, editing, the login form, the language switch) are not part of this model.
