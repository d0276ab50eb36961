# Profile service and editor, modelled in Dafny

This project models a small personal-profile application in two parts.

- **The REST service** is `server.js`. It is an Express application that keeps one profile record in a JSON data file (`profileData.json`):
  - it seeds that file on start-up when it is missing;
  - it serves the record on `GET /api/profile`;
  - on `POST` and `PUT` it validates a new record with `validateProfile` and stores it;
  - on `DELETE` it resets the file to a fixed "empty" record;
  - it answers unknown routes with 404 and failures with 500.
- **The browser-side editor** is `script.js`:
  - `validateForm` checks the six form inputs after `trim()`;
  - the submit handler copies the trimmed inputs into the in-memory `profileData`. It splits the skills input on commas and stores an empty photo as a placeholder image;
  - `saveProfileData` and `loadProfileData` write and read the profile as JSON in local storage.

The modules follow the program's structure:

- `JsValues` (js_values.dfy) holds JSON values as JavaScript code sees them. It covers truthiness, `length` under `<` and `>` (with NaN comparing false) and `String(v)`, the conversion `new URL(v)` applies to its argument.
- `JsStrings` (js_strings.dfy) holds `String.prototype.trim` over the ECMAScript WhiteSpace and LineTerminator code points. It also holds `split` on one character and the skills pipeline `split(',').map(trim).filter(nonEmpty)`.
- `Profiles` (profiles.dfy) holds the six fields, their property names and the shape of a profile record.
- `Server` (server.dfy) holds:
  - `validateProfile`;
  - the two fixed records;
  - routing and middleware order;
  - the data file as the state of a `ProfileServer` class, whose methods are the helpers and route handlers.
- `Client` (client.dfy) holds:
  - the form rules;
  - the six error elements;
  - the `ProfileEditor` class. Its fields are `profileData`, the error texts and the local-storage entry; its methods are `clearErrors`, `validateForm`, the submit handler, `saveProfileData` and `loadProfileData`.
- `Agreement` (agreement.dfy) relates the two validators. The record the submit handler builds from a form is compared, field by field, with what the server's `validateProfile` says about it.

Parts of the environment are unknown, so they are parameters:

- Whether the WHATWG URL parser accepts a string (`new URL(s)` does not throw) is a parameter `isValidURL: string -> bool`.
- `JSON.parse` and `JSON.stringify` are parameters of the editor.
- Whether a file read or write succeeds is a boolean argument of each operation that performs one.

## Model

| member | source | states |
|---|---|---|
| JsValues.StringItems | server.js:45 | a list of strings as a JSON array: same length, element i is the i-th string |
| JsValues.SingletonArrayUrl | server.js:107-114 | `new URL(["s"])` converts the one-element array to "s", so it passes the URL check exactly when "s" does |
| JsStrings.TrimStartSpec | script.js:133 | trimming the start drops a white-space prefix and nothing more: what remains is a suffix of the input, and it does not start with white space |
| JsStrings.TrimEndSpec | script.js:133 | trimming the end drops a white-space suffix: what remains is a prefix of the input, and it does not end with white space |
| JsStrings.TrimSpec | script.js:133 | `trim()` leaves no white space at either end, and it yields "" exactly when the input is all white space |
| JsStrings.TrimParts | script.js:133 | every string is white space, then its trimmed form, then white space |
| JsStrings.TrimUnique | script.js:133 | a string with no white space at either end, padded by white space, trims back to itself |
| JsStrings.TrimIdempotent | script.js:133 | trimming twice is trimming once |
| JsStrings.TrimStartSkipsWhiteSpace | script.js:133 | a white-space prefix does not change the start-trimmed result |
| JsStrings.TrimEndSkipsWhiteSpace | script.js:133 | a white-space suffix does not change the end-trimmed result |
| JsStrings.TrimIgnoresPadding | script.js:133 | white space added at both ends does not change the trimmed result |
| JsStrings.Split | script.js:186 | `split(',')` yields at least one piece; no piece contains the separator; the pieces joined with the separator give back the input |
| JsStrings.SplitNoSeparator | script.js:186 | a string without the separator splits into itself alone |
| JsStrings.SplitAfterPiece | script.js:186 | splitting `p + sep + t` yields `p` followed by the pieces of `t` |
| JsStrings.SplitJoin | script.js:186 | joining separator-free pieces and splitting again gives the same pieces (the inverse of `Split`) |
| JsStrings.SplitPiecesBlank | script.js:186 | every piece is white space exactly when the input is only commas and white space |
| JsStrings.DropEmpty | script.js:186 | `filter(s => s.length > 0)` keeps every non-empty element, keeps only non-empty elements of the input, and yields [] exactly when all elements are empty |
| JsStrings.DropEmptyAppend | script.js:186 | filtering a concatenation is concatenating the filtered parts, so `filter` keeps order and repetitions |
| JsStrings.DropEmptyOne | script.js:186 | a single string is kept exactly when it is non-empty |
| JsStrings.TrimEach | script.js:186 | `map(s => s.trim())` has the input's length, and element k is the trimmed k-th piece |
| JsStrings.ParseSkills | script.js:186 | every parsed skill is non-empty, trimmed and comma-free; each skill is the trimmed text of some comma-separated piece, and each non-blank piece appears trimmed; the list is empty exactly when the input is only commas and white space |
| JsStrings.ParseSkillsOnePiece | script.js:186 | a comma-free input gives its trimmed text as the one skill, or no skill when that is empty |
| JsStrings.ParseSkillsAfterPiece | script.js:186 | the skills of `p,t` are those of `p` followed by those of `t`, so skills keep the input's order and repetitions |
| JsStrings.ParseSkillsOfJoin | script.js:186 | the skills of comma-free pieces joined with commas are the trimmed pieces without the blank ones |
| JsStrings.NoSkillsIffBlankInput | script.js:186 | the skills pipeline yields [] if and only if the input has nothing but commas and white space |
| JsStrings.NoCleanedPiecesIffBlank | script.js:186 | trimming then dropping empties yields [] if and only if every piece is all white space |
| JsStrings.CleanedPiecesAreTrimmed | script.js:186 | the surviving pieces are already trimmed and, given separator-free pieces, comma-free |
| JsStrings.TrimSliceHasNoComma | script.js:186 | trimming a comma-free piece leaves it comma-free |
| JsStrings.BlankInputHasNoSkills | script.js:186 | an input that trims to "", which the skills check at script.js:154-158 flags, yields no skills |
| JsStrings.LoneCommaHasNoSkills | script.js:186 | "," does not trim to "" yet yields no skills |
| Profiles.RecordFields | server.js:41-48 | a profile object has exactly the six property keys, holding the given strings and the skills as an array of strings |
| Profiles.OverwriteFields | script.js:183-188 | assigning the six properties on an object replaces them and keeps every other property |
| Server.ValidateProfile | server.js:76-104 | a field is present in the errors exactly when its own rule fails on that field's value, and each present field carries that field's message; so all failing fields are reported, not just the first |
| Server.StringFieldRules | server.js:79-101 | for a body of strings: name length is in [3, 50] and bio length in [10, 300], both untrimmed; photo is absent, empty or a URL; skills is non-empty; github and resume are non-empty URLs. Each, in both directions, decides that field's error |
| Server.StringProfileAccepted | server.js:76-104 | a body of strings passes validation exactly when all six rules hold |
| Server.RulesAreIndependent | server.js:76-104 | whether a field is reported, and its message, depend on that field's value alone |
| Server.AcceptedBodyIsObject | server.js:79-81 | only an object can pass validation, since any other value has no `name`; such a body is truthy |
| Server.MissingRequiredFieldsReported | server.js:79-101 | a body lacking name, bio, github or resume, or with skills absent or [], is reported on that field |
| Server.EmptyPhotoAccepted | server.js:83-85 | an absent, null or empty photo is never reported |
| Server.NameCheckIsUntrimmed | server.js:79-81 | a name of three spaces passes, and so does any non-zero number, whose `length` is undefined |
| Server.ShortProfileErrors | server.js:76-104 | a body with a short name and bio, no skills and bad URLs is reported on every field except the absent photo |
| Server.SeedProfileIsValid | server.js:41-48 | the seed record passes validation when its three URLs parse |
| Server.ResetProfileIsInvalid | server.js:166-173 | the reset record is reported on bio, skills, github and resume, and on photo exactly when the placeholder URL does not parse |
| Server.RouteOf | server.js:24-188 | only requests on the profile path reach a route; a request gets the 404 fallback exactly when it is not OPTIONS, its body parsed, and it misses the path or uses a method no route handles |
| Server.UnknownPathIsNotFound | server.js:184-186 | `/api/unknown` falls through to the 404 handler |
| Server.Initialized | server.js:39-51 | an existing data file is kept; a missing one gets the seed record exactly when the write succeeds |
| Server.InitializeIdempotent | server.js:39-51 | initialising twice is initialising once, with either attempt's write |
| Server.ProfileServer.constructor | server.js:19 | a server starts with no data file |
| Server.ProfileServer.WithDataFile | server.js:19 | a server starts next to an existing data file |
| Server.ProfileServer.InitializeDataFile | server.js:39-51 | the file becomes `Initialized(old file, write result)`; failure only when a missing file cannot be written; the storage invariant is kept |
| Server.ProfileServer.ReadProfileData | server.js:54-62 | returns the stored record exactly when the read succeeds and a file exists, otherwise null |
| Server.ProfileServer.WriteProfileData | server.js:65-73 | on success the file holds exactly the data; on failure it is unchanged; the result reports which |
| Server.ProfileServer.GetProfile | server.js:126-132 | 200 with the stored record when the read succeeds and the record is truthy, 500 with the read-failure message otherwise |
| Server.ProfileServer.Store | server.js:137-161 | the body shared by POST and PUT: validation errors give 400 with the errors and no write; a valid body is written and echoed; a failed write gives 500 and leaves the file. The storage invariant is kept |
| Server.ProfileServer.PostProfile | server.js:135-147 | as Store with 201 "Профиль создан" / 500 "Не удалось сохранить профиль" |
| Server.ProfileServer.PutProfile | server.js:150-162 | as Store with 200 "Профиль обновлен" / 500 "Не удалось обновить профиль" |
| Server.ProfileServer.DeleteProfile | server.js:165-179 | a successful write stores the reset record and returns it with 200; a failed one answers 500 and changes nothing |
| Server.ProfileServer.Handle | server.js:24-191 | the response and the new file for each endpoint. OPTIONS gives 204, a malformed body 500 and the fallback 404, and these and GET leave the file alone. GET answers as GetProfile. POST answers 400, 201 "Профиль создан" or 500, and PUT 400, 200 "Профиль обновлен" or 500; either stores the body exactly when it passes validation and the write succeeds. DELETE stores and returns the reset record when the write succeeds and otherwise answers 500 and leaves the file. The storage invariant is kept |
| Server.PutThenGet | server.js:126-162 | a valid PUT followed by a GET returns 200 with exactly the payload that was put |
| Server.DeleteThenGet | server.js:165-179 | a GET (server.js:126-132) after a successful DELETE returns the reset record |
| Server.FirstStart | server.js:39-51 | on a fresh start the seed record is written, a second initialisation changes nothing, and GET returns the seed |
| Client.ErrorText.Content | script.js:108-170 | an error element is empty exactly when no message is shown, and otherwise holds its field's message |
| Client.Verdict | script.js:132-172 | the text a field's check leaves: its message when the field is flagged, "" otherwise |
| Client.ShowsVerdictByField | script.js:132-172 | six per-field verdicts together give the verdict for every field |
| Client.FormFieldRules | script.js:132-172 | the form rules on the trimmed inputs: name length in [3, 50]; photo a URL unless empty; bio length in [10, 300]; skills not all white space; github and resume non-empty URLs. Each is stated in both directions |
| Client.PaddingDoesNotChangeVerdict | script.js:133-168 | white space around an input never changes whether its check fails |
| Client.BlankNameFlagged | script.js:133-137 | the form flags the names "   " and "  ab " |
| Client.LoneCommaPassesForm | script.js:154-158 | "," passes the skills check but parses to no skills |
| Client.PhotoOrPlaceholder | script.js:184 | the stored photo is the trimmed input when that is non-empty and the placeholder 'https://via.placeholder.com/150' when it is empty |
| Client.EditedRecordShape | script.js:183-188 | after a submit the six properties hold the trimmed inputs and the parsed skills; an empty photo input is stored as the placeholder; every other property is kept |
| Client.ProfileEditor.constructor | script.js:27-42 | the page starts with the initial profile and empty error elements |
| Client.ProfileEditor.ClearErrors | script.js:108-115 | all six error elements become empty; the profile and storage are untouched |
| Client.ProfileEditor.CheckField | script.js:132-172 | one field's check: it passes exactly when the field is not flagged, and it shows that field's verdict |
| Client.ProfileEditor.ValidateForm | script.js:128-175 | every error element shows the message of a flagged field and is empty otherwise; the result is true exactly when no field is flagged; profile and storage are untouched |
| Client.ProfileEditor.SaveProfileData | script.js:216-220 | local storage holds `JSON.stringify(data)`; nothing else changes |
| Client.ProfileEditor.Submit | script.js:178-198 | a rejected form changes only the error texts. An accepted one updates an object profile with the edited fields, keeping its other properties, and saves it. A null profile throws before saving. Any other value is saved unchanged |
| Client.ProfileEditor.LoadProfileData | script.js:223-231 | a non-empty entry that parses replaces the profile; otherwise (no entry, "", or a parse error) nothing changes |
| Client.SubmitThenReload | script.js:178-237 | a submitted profile (script.js:178-198) comes back on the next page load (script.js:223-237) when `JSON.parse` reads back what `JSON.stringify` wrote |
| Agreement.EditedRecordVerdict | script.js:128-198 | on the record built from a form, the server's `validateProfile` (server.js:76-104) reports name, bio, github and resume exactly where the form flagged them. It reports a non-empty photo exactly where the form flagged it, and an empty photo exactly when the placeholder URL does not parse. It reports skills exactly when the input is only commas and white space, so always when the form flags skills |
| Agreement.AcceptedFormPassesServer | script.js:178-198 | a form that passes `validateForm` yields a record the server's `validateProfile` (server.js:76-104) accepts, provided some skill is named and, for an empty photo input, the placeholder URL parses |
| Agreement.LoneCommaRejectedByServer | script.js:186 | skills "," pass the form (script.js:154-158), but the server (server.js:91-93) rejects the record built from them |
| Agreement.UntrimmedNameGap | server.js:79-81 | a name of 3 to 50 characters that trims to fewer than 3 is flagged by the form (script.js:133-137) and accepted by the server |

## Left out

- Strings are sequences of Unicode scalar values. JavaScript's `length` counts UTF-16 code units, so lengths differ for characters outside the Basic Multilingual Plane, and the bounds checks differ with them.
- JSON numbers are integers. Fractions, exponents, NaN and infinities are not modelled, and the `String()` of such numbers is not either.
- JsValues.ToNumber: a `length` property holding a string, array or object is treated as NaN. JavaScript would convert numeric strings and one-element arrays to numbers.
- JSON text itself is not modelled: `JSON.parse`, `JSON.stringify` and the file's textual format (indentation) are abstract or absent. The data file holds a parsed value, and a file that fails to parse counts as a failed read.
- The WHATWG URL parser is not modelled. The model uses the `isValidURL` parameter, so no property depends on which strings are URLs.
- Server.ProfileServer.InitializeDataFile: when the start-up write fails, `writeFileSync` throws uncaught (server.js:49, 119) and the process exits. The model returns `ok` false and keeps a server with no data file, which goes on answering requests.
- File-system and local-storage effects are modelled as success flags. A partial write, a file changed by another process, and local-storage quota errors are not modelled.
- Requests are handled one at a time, with no concurrency.
- Logging (`console.log` and `console.error`), `app.listen` and the port are left out, because they do not affect responses or state.
- The `urlencoded` body parser is left out. Its bodies reach the routes as objects, as JSON bodies do, and the model takes every parsed body as a JSON value.
- HEAD requests run the GET route; omitting the body of a HEAD response is not modelled. CORS headers are not modelled beyond the 204 answer to OPTIONS.
- The rendering code in script.js (`renderProfile`, `showEditForm`, `hideEditForm`, the button handlers), the DOM and `api.js` are not part of this model.
- Client.ProfileEditor.Submit: named properties assigned to an array profile are not modelled; such a profile is saved unchanged. This is also what `JSON.stringify` would write, since it ignores named properties on arrays.
- Client.ProfileEditor.constructor: the six error elements are assumed to start empty.
- The key order of the server's `errors` object is not modelled; errors are a map from field to message.
- The page's error elements are modelled by what they can show: nothing, or the message of their own field.
- Client.ProfileEditor.ValidateForm: the six checks are written as calls of one per-field method, and `isValid` is the conjunction of their results. The source writes six inline blocks that each clear `isValid`; the final value is the same.
- The service's storage invariant admits the reset record written by DELETE. That record does not pass `validateProfile`, so the data file can hold an invalid record.
