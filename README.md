# CoProduct feature-request core in Dafny

CoProduct collects feature requests, in the Jobs-To-Be-Done form "when /
want / how / so that / feature requests". Such a request can be typed into a
form or extracted from an interview transcript by a language model. This
project models three pieces of the web client and proves properties of them:

- The "add from document" dialog (`AddDocModal`). It reads a transcript and
  sends `prompt + "\n\n" + text` to the model. From the reply it takes the
  text from the first `[` to the last `]`, parses it with `JSON.parse` and
  normalises element 0 into a `CreateDto` (`transformData` and
  `safeToString`). It then saves the record through the store. A three-step
  status tracker (`updateStep`) shows the progress.
- The store (`FeatureRequestStore`). It keeps one in-memory list of records
  and offers list, get, create, update and delete.
- The create/edit form (`CreateFeatureRequestForm`). It covers field
  validation, the change, blur and save handlers, and loading a record for
  editing.

Files:

- `js_values.dfy` (module `JsValues`): the JavaScript values the code handles
  (parsed JSON plus `undefined`) and the built-ins it uses. This covers
  truthiness, `String(v)`, decimal number text, `join`, `trim` and the
  UTF-16 `length`.
- `api_types.dfy` (module `ApiTypes`): the DTOs, the API result type and the
  id test `fr.id.toString() === id`.
- `normalize.dfy` (module `Normalize`): `safeToString`, `transformData`, the
  bracket extraction and the parsing of the reply.
- `store.dfy` (module `Store`): the class `FeatureRequestStore`. Its list is a
  `seq` field that the methods reassign. The file also holds the `findIndex`
  loop and the functions that specify the methods.
- `add_doc_modal.dfy` (module `DocIngestion`): the class `AddDocModal`, with
  the dialog's state as fields, and `updateStep`, `handleFileUpload` and
  `handleClose` as methods. The outcome of a run is given by the function
  `Outcome`. The step statuses after the reset and after each `updateStep`
  call of a run are given by the function `Snapshots`. Rendering may batch
  several of these states into one.
- `form.dfy` (module `Form`): `validateField`, the `validateForm` loop, and
  the class `FeatureRequestForm` with `formData`, `errors` and `touched` as
  fields.

External calls become parameters:

- `JSON.parse` and `JSON.stringify(v, null, 2)` are passed together as a
  `JsonCodec`.
- The language model is a function from the request text to a reply or a
  thrown value.
- The file read is a `FileInput`.
- Each server call is an `ApiResult` argument holding the server's answer.

In these places the code does something a reader may not expect; the model
follows the code:

- Only step 3 is ever marked `error`. A failed file read leaves step 1
  `processing`. A failed model call leaves step 2 `processing`, with step 3
  `pending`.
- `createFeatureRequest` and `getFeatureRequests` swallow their own
  failures. So step 3 is `completed`, and the success message is shown,
  even when saving failed.
- No bracketed text, a non-array and an empty array all give the same
  message. A `JSON.parse` failure and a throw in `transformData` give the
  other one. `transformData` throws on a `null` first element. It also
  throws where `String` or `join` meets a parsed object with its own
  `toString` key, since that key's value cannot be called.

Two behaviours of the form follow the code and may not be what its authors
meant:

- In edit mode `onSuccess` is called twice after an update.
- In create mode the form is reset even when the create call failed, since
  the store swallows that failure.

## Model

| member | source | states |
|---|---|---|
| JsValues.Member | src/components/AddDocModal.tsx:121 | a property read throws exactly on null and undefined; on an object it gives the entry under the key (undefined when absent); on any other value it gives undefined |
| JsValues.OptionalMember | src/components/AddDocModal.tsx:121 | `?.`: null and undefined give undefined, an object gives the entry under the key |
| JsValues.ToString | src/components/AddDocModal.tsx:120-137 | `String(v)` returns exactly on `Stringable` values, throwing on an object with its own `toString` key or an array holding one; otherwise "undefined", "null", "true"/"false", the decimal text of a number, a string itself, "[object Object]" for an object, an array's element texts joined with "," |
| JsValues.ElementStrings | src/components/AddDocModal.tsx:127 | what `join` writes per element: "" for null and undefined, `String(e)` for every other element, one entry per element; it throws exactly when some element's `String` throws |
| JsValues.NumberText | src/modules/CreateFeatureRequestForm.tsx:219 | `id.toString()`: a definition with no contract of its own; `NumberTextShape` and `NumberTextInjective` state its properties |
| JsValues.NaturalTextDigits | src/stores/featureRequestStore.tsx:62 | the decimal text of a natural number is non-empty, all digits, and has no leading zero |
| JsValues.NumberTextShape | src/stores/featureRequestStore.tsx:62 | `id.toString()` starts with '-' exactly for negative ids, followed by digits only |
| JsValues.NaturalTextRoundTrip | src/stores/featureRequestStore.tsx:62 | reading the decimal text of n back as a number gives n |
| JsValues.NaturalTextInjective | src/stores/featureRequestStore.tsx:62 | two naturals with the same decimal text are equal |
| JsValues.NumberTextInjective | src/stores/featureRequestStore.tsx:61-63 | two ids with the same `toString()` text are equal |
| JsValues.IndexOf | src/components/AddDocModal.tsx:217 | the first position of a character, or none exactly when it does not occur |
| JsValues.LastIndexOf | src/components/AddDocModal.tsx:217 | the last position of a character, or none exactly when it does not occur |
| JsValues.JoinStrings | src/components/AddDocModal.tsx:127 | `join`: a definition with no contract of its own; `SplitJoin` states that `split` inverts it |
| JsValues.SplitJoin | src/components/AddDocModal.tsx:127 | joining line-free strings with "\n" and splitting again gives them back |
| JsValues.TrimStart | src/modules/CreateFeatureRequestForm.tsx:127 | removes exactly the leading white space: a suffix, all white space before it, starting with a non-space |
| JsValues.TrimEnd | src/modules/CreateFeatureRequestForm.tsx:127 | removes exactly the trailing white space |
| JsValues.Trim | src/modules/CreateFeatureRequestForm.tsx:127 | `trim()`: a definition with no contract of its own; `TrimStart`, `TrimEnd` and `TrimEmptyIffBlank` state what it removes |
| JsValues.TrimEmptyIffBlank | src/modules/CreateFeatureRequestForm.tsx:127 | `value.trim()` is empty if and only if every character is white space |
| JsValues.Utf16Length | src/modules/CreateFeatureRequestForm.tsx:130 | `value.length` counts UTF-16 code units: between the number of characters and twice that |
| JsValues.Utf16LengthOfChar | src/modules/CreateFeatureRequestForm.tsx:130 | a character above U+FFFF counts two code units, any other one |
| JsValues.Utf16LengthConcat | src/modules/CreateFeatureRequestForm.tsx:130 | `length` adds up over concatenation, so it is the sum of the per-character counts |
| JsValues.Utf16LengthOfBmp | src/modules/CreateFeatureRequestForm.tsx:130 | for Basic Multilingual Plane text `length` is the number of characters |
| ApiTypes.HasIdDeterminesId | src/stores/featureRequestStore.tsx:61-63 | two records matching the same id string have the same id |
| Normalize.FirstTruthyKey | src/components/AddDocModal.tsx:132-134 | the first of the probed keys whose value is truthy, all earlier ones falsy; none exactly when all are falsy |
| Normalize.CustomerText | src/components/AddDocModal.tsx:120-122 | a falsy name gives "", a truthy one `String(name)`, which may throw |
| Normalize.SafeToString | src/components/AddDocModal.tsx:125-138 | a string is kept, an array is joined with "\n" and throws exactly when `join` does, an object gives `String` of its first truthy `text`/`content`/`value` (throwing when that does) or else its JSON text, a falsy value gives "", another value `String(v)`; only arrays and objects can throw |
| Normalize.ArrayFieldLines | src/components/AddDocModal.tsx:127 | an array of line-free strings converts without throwing, to lines that split back into exactly those strings |
| Normalize.ObjectProbeSkipsFalsy | src/components/AddDocModal.tsx:132-133 | an object with an empty `text` and a truthy `content` gives `String(content)` |
| Normalize.TransformData | src/components/AddDocModal.tsx:115-147 | throws exactly when the element is null or undefined or one of its six conversions throws; customer is `String(Пользователь?.Имя \|\| "")`; each other field is `safeToString` of its labelled key; a non-object gives all "" |
| Normalize.MissingKeyYieldsEmpty | src/components/AddDocModal.tsx:140-144 | each of the five labelled keys that is missing converts to "" without throwing, and so does a missing user entry for the customer; in a record that comes out, those fields are "" |
| Normalize.TransformRoundTrip | src/components/AddDocModal.tsx:115-147 | a record written in the labelled shape, every field a string, normalises back to itself |
| Normalize.ExtractArrayText | src/components/AddDocModal.tsx:217 | a match exists exactly when some "]" follows some "["; the match is the leftmost "[" to the last "]" after it |
| Normalize.ExtractIgnoresProse | src/components/AddDocModal.tsx:217 | prose with no "[" before and no "]" after the array is dropped: exactly the bracketed text is extracted |
| Normalize.ParseReply | src/components/AddDocModal.tsx:215-236 | no match, a non-array or an empty array gives no record; a parse failure, or element 0 on which `transformData` throws, is malformed; otherwise the record is `transformData` of element 0, and a record comes from nowhere else |
| Normalize.OnlyFirstElementMatters | src/components/AddDocModal.tsx:220-221 | two parses agreeing on element 0 give the same outcome, whatever else the arrays hold |
| Normalize.NoArrayNoRecord | src/components/AddDocModal.tsx:218-235 | a non-array or an empty array gives no record |
| Normalize.OwnToStringNameIsMalformed | src/components/AddDocModal.tsx:120-122 | a customer name that is an object with its own `toString` key makes `String` throw, so the reply is malformed |
| Normalize.OwnToStringElementThrows | src/components/AddDocModal.tsx:127 | an array field holding an object with its own `toString` key makes `join` throw, so `transformData` throws |
| Normalize.NullFirstElementIsMalformed | src/components/AddDocModal.tsx:221-230 | an array led by null fails as malformed, since `transformData` throws in the inner `try` |
| DocIngestion.MessageOf | src/components/AddDocModal.tsx:253-257 | the error shown is the message of an `Error`, else the generic text |
| DocIngestion.RequestContent | src/components/AddDocModal.tsx:105 | the request is the prompt, a blank line, then the transcript |
| DocIngestion.RequestContentDeterminesText | src/components/AddDocModal.tsx:105 | with the prompt fixed, the request determines the transcript |
| DocIngestion.WithStatus | src/components/AddDocModal.tsx:92-98 | only the status of step `stepIndex` changes; labels, descriptions and the other steps stay; an out-of-range index changes nothing |
| DocIngestion.AllPending | src/components/AddDocModal.tsx:159-161 | every status becomes pending, labels kept |
| DocIngestion.WellOrderedMeaning | src/components/AddDocModal.tsx:155-244 | in a well-ordered snapshot the completed steps form a prefix, at most one step is processing, and every step after a failed one is pending |
| DocIngestion.FinalizeOutcome | src/components/AddDocModal.tsx:213-249 | steps 1 and 2 completed; step 3 is completed exactly when the reply parsed, and then the success message is set, no error, and the parsed record is delivered; a parse failure marks step 3 as error, sets no success message and gives the malformed or the no-record message to match |
| DocIngestion.AnalyzeOutcome | src/components/AddDocModal.tsx:178-249 | a failed model call leaves [completed, processing, pending] at current step 1 with its message, no success and no record; a reply ends at `FinalizeOutcome` of the parsed reply |
| DocIngestion.Outcome | src/components/AddDocModal.tsx:149-261 | a run ends well ordered; success exactly when step 3 is completed and a record is delivered; steps 1 and 2 never fail; an unreadable file stops at step 1 with the generic message; a readable one ends at `AnalyzeOutcome` of the model's answer to the prompt and transcript; the delivered record is the parsed reply of the model |
| DocIngestion.OrderlyExtend | src/components/AddDocModal.tsx:92-98 | a trace stays orderly when a well-ordered snapshot one step away is added |
| DocIngestion.Snapshots | src/components/AddDocModal.tsx:155-245 | the states `updateStep` leaves in one run: a definition with no contract of its own; `SnapshotsEndAtOutcome` and `SnapshotsOrderly` state its properties |
| DocIngestion.SnapshotsEndAtOutcome | src/components/AddDocModal.tsx:155-245 | the states `updateStep` leaves start all pending and end at the outcome's statuses |
| DocIngestion.ParsedRunOrderly | src/components/AddDocModal.tsx:165-245 | in a run reaching step 3, every state `updateStep` leaves is well ordered and one step from the previous |
| DocIngestion.AnalyzedRunOrderly | src/components/AddDocModal.tsx:165-245 | once the transcript is read, every state `updateStep` leaves is well ordered and one step from the previous, whatever the model answers |
| DocIngestion.SnapshotsOrderly | src/components/AddDocModal.tsx:155-245 | in every run, every state `updateStep` leaves is well ordered and one step from the previous |
| DocIngestion.AddDocModal.constructor | src/components/AddDocModal.tsx:39-59 | the dialog starts idle with the three initial steps |
| DocIngestion.AddDocModal.Open | src/components/AddDocModal.tsx:63-88 | opening resets flags, messages, current step and steps |
| DocIngestion.AddDocModal.UpdateStep | src/components/AddDocModal.tsx:92-98 | the steps become `WithStatus` of the old steps; in range, exactly that status is replaced |
| DocIngestion.AddDocModal.HandleFileUpload | src/components/AddDocModal.tsx:149-261 | no file changes nothing; otherwise the end state is `Outcome`, `isProcessing` is false, the states `updateStep` leaves are `Snapshots`, and the store holds the created and refreshed list exactly when a record was delivered |
| DocIngestion.AddDocModal.Attempt | src/components/AddDocModal.tsx:163-250 | the `try` block from the reset state ends at `Outcome`, throwing exactly when the outcome has an error |
| DocIngestion.AddDocModal.Analyze | src/components/AddDocModal.tsx:177-250 | steps 2 and 3 end at `AnalyzeOutcome` |
| DocIngestion.AddDocModal.Process | src/components/AddDocModal.tsx:209-250 | from a reply, the state ends at `FinalizeOutcome` of the parsed reply |
| DocIngestion.AddDocModal.EndAnalysis | src/components/AddDocModal.tsx:209-213 | step 2 completed, current step 2, step 3 processing |
| DocIngestion.AddDocModal.Finalize | src/components/AddDocModal.tsx:228-250 | a parse failure marks step 3 failed and throws; a record is created, the list refreshed and step 3 completed |
| DocIngestion.AddDocModal.HandleClose | src/components/AddDocModal.tsx:263-272 | ignored while processing; otherwise closes and clears messages and current step, steps kept |
| Store.FindFirst | src/stores/featureRequestStore.tsx:61-63 | the first position whose id text is `id`; none exactly when no record matches |
| Store.ReplaceFirst | src/stores/featureRequestStore.tsx:60-67 | same length; only the first match is replaced; no match leaves the list |
| Store.RemoveFirst | src/stores/featureRequestStore.tsx:78-85 | the first match is cut out, the others keep their order; no match leaves the list |
| Store.RemoveFirstTakesOneRecord | src/stores/featureRequestStore.tsx:83 | a delete takes out exactly one copy of the matched record |
| Store.RemoveAfterAppend | src/stores/featureRequestStore.tsx:41-90 | creating a record with a new id and deleting it by that id gives back the list |
| Store.ReplaceKeepsPosition | src/stores/featureRequestStore.tsx:58-67 | after an update that keeps the id, the record is still the first match at the same position |
| Store.UniqueIdsFindTheRecord | src/stores/featureRequestStore.tsx:61-63 | with unique ids the lookup finds the matching record wherever it is |
| Store.Created | src/stores/featureRequestStore.tsx:41-51 | a created record is appended after the unchanged list; a failure leaves the list |
| Store.Refreshed | src/stores/featureRequestStore.tsx:17-27 | the fetched list, or the old list when the call failed: a definition with no contract of its own, used by the store's contracts |
| Store.Updated | src/stores/featureRequestStore.tsx:53-72 | the length is kept; a failed update or an id with no match leaves the list |
| Store.FindIndex | src/stores/featureRequestStore.tsx:61-63 | `findIndex`: -1 exactly when nothing matches, otherwise the first match |
| Store.FeatureRequestStore.constructor | src/stores/featureRequestStore.tsx:11-15 | the list starts empty |
| Store.FeatureRequestStore.GetFeatureRequests | src/stores/featureRequestStore.tsx:17-27 | the list becomes the fetched list; on failure it is unchanged and nothing is thrown (`Refreshed`) |
| Store.FeatureRequestStore.GetFeatureRequestById | src/stores/featureRequestStore.tsx:29-39 | the server's record, or null on failure; the list is not touched |
| Store.FeatureRequestStore.CreateFeatureRequest | src/stores/featureRequestStore.tsx:41-51 | the created record is appended; on failure the list is unchanged and nothing is thrown (`Created`) |
| Store.FeatureRequestStore.UpdateFeatureRequest | src/stores/featureRequestStore.tsx:53-72 | the first match is replaced by the server's record; on failure the error is rethrown and the list is unchanged (`Updated`) |
| Store.FeatureRequestStore.DeleteFeatureRequest | src/stores/featureRequestStore.tsx:74-90 | the first match is removed; on failure the error is rethrown and the list is unchanged |
| Form.Position | src/modules/CreateFeatureRequestForm.tsx:103-109 | every field is listed among the form's keys |
| Form.With | src/modules/CreateFeatureRequestForm.tsx:171-174 | the named field gets the new text and the others keep theirs |
| Form.ValidateField | src/modules/CreateFeatureRequestForm.tsx:126-134 | "" exactly when the value is not blank and at most 5000 long; a blank value gets the required message before any length check; a long one gets the too-long message |
| Form.LengthLimitIsInclusive | src/modules/CreateFeatureRequestForm.tsx:130-133 | a non-blank value of exactly 5000 UTF-16 code units is accepted, and one character more is refused |
| Form.FieldError | src/modules/CreateFeatureRequestForm.tsx:141-163 | create mode records exactly the `validateField` errors; edit mode records only the too-long error, and only for non-blank values |
| Form.EditModeIsMoreLenient | src/modules/CreateFeatureRequestForm.tsx:141-163 | edit mode accepts all that create mode accepts, and every blank value, which create mode refuses |
| Form.CollectErrors | src/modules/CreateFeatureRequestForm.tsx:137-164 | valid exactly when no field has an error; the map holds an entry for exactly the failing fields, with their messages |
| Form.TextOrEmpty | src/modules/CreateFeatureRequestForm.tsx:117-121 | a missing text becomes "", a present one is kept |
| Form.FromRecord | src/modules/CreateFeatureRequestForm.tsx:116-122 | each of the five texts is the record's text, or "" when the record has none |
| Form.CreateDtoOf | src/modules/CreateFeatureRequestForm.tsx:231-237 | the new record has customer "" and the form's five texts |
| Form.UpdateDtoOf | src/modules/CreateFeatureRequestForm.tsx:208-215 | the changes carry the form's five texts |
| Form.LoadThenSaveKeepsTexts | src/modules/CreateFeatureRequestForm.tsx:114-124 | a record loaded and saved unedited sends its texts back, with "" for each missing one |
| Form.FeatureRequestForm.constructor | src/modules/CreateFeatureRequestForm.tsx:103-124 | an empty form, or the record's texts when editing; no errors, nothing touched |
| Form.FeatureRequestForm.LoadInitialData | src/modules/CreateFeatureRequestForm.tsx:114-124 | when the prop changes, a present record is loaded into the form with errors and touched kept; an absent one leaves the form as it is |
| Form.FeatureRequestForm.ValidateForm | src/modules/CreateFeatureRequestForm.tsx:136-168 | `errors` becomes exactly the failing fields' messages for the mode; the result is whether there were none |
| Form.FeatureRequestForm.HandleFormChange | src/modules/CreateFeatureRequestForm.tsx:170-183 | only the named field changes; its error is cleared to "" only if it was non-empty; other errors stay |
| Form.FeatureRequestForm.HandleFieldBlur | src/modules/CreateFeatureRequestForm.tsx:185-199 | the field is marked touched and its error becomes `validateField` of its text, even when editing |
| Form.FeatureRequestForm.HandleSave | src/modules/CreateFeatureRequestForm.tsx:201-264 | an invalid form sends nothing and changes only `errors`, which holds exactly the failing fields with their messages; a create sends customer "" with the five texts, refreshes, resets the form and calls `onSuccess` once; an update sends the texts under `id.toString()`, keeps the form, and calls `onSuccess` twice, or not at all when the update throws |

## Left out

- `JSON.parse` and `JSON.stringify(v, null, 2)` are parameters. Their
  formats, including object key order, are not modelled.
- Numbers are integers. Floating-point values are not modelled. Neither is
  `String(n)` for |n| of 10^21 or more, where JavaScript switches to
  exponent notation.
- The network calls (`analyzeText`, the generated `API.featureRequests`
  client) are results passed in. So are the browser `FileReader` and its
  events. Logging to the console is left out.
- The long prompt literal is a parameter. Only how it is joined with the
  transcript is stated.
- MobX observability and React state batching are plain sequential field
  updates. Handlers read the state as it was when they were called.
- Async interleaving of overlapping runs or saves is out of scope. Each run
  is one sequential chain.
- The rendering is left out: the stepper, `getStepIcon`, the dialogs, and
  `FullFeaturedTextarea` with its auto-resize. So are the dashboard, table,
  detail and routing modules, which only wire the store into the UI.
- The `onSuccess` callbacks are not called. The dialog returns the record it
  would pass. The form returns how many times it would call `onSuccess`.
- The `onClose` callback of `handleClose` is the returned flag.
- Form.ValidateField: the required test `!value.trim()` is written as
  `IsBlank(value)`. `TrimEmptyIffBlank` proves the two conditions equal.
- Unicode white space is the set `trim` removes in ECMAScript. Line
  terminators and the byte-order mark are included. No normalisation or
  case folding is modelled.
