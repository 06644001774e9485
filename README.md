# U.S. states REST API: fun-fact bookkeeping, in Dafny

This project models the core of a small Express/MongoDB service that serves
reference data about U.S. states. The data comes from two places. A static
table holds each state's code, name, capital, nickname, population and
admission date. A document collection holds a user-editable list of "fun facts"
per state code.

The model covers:

- the state lookup `getState`, which ignores letter case, and the router guard
  that answers 400 for an unknown code (`StatesData`, `Routes.RouterGuard`);
- the `verifyStates` middleware, which upper-cases the code and checks it
  against the dataset's codes (`VerifyStates`);
- the two merge rules. `GET /` attaches any list it finds, even an empty one,
  and when two documents share an upper-cased key the later one wins.
  `GET /:state` attaches only a non-empty list (`Merge`);
- the fun-fact documents, `findOne`, `save`, and the list edits: `push`,
  index assignment and `splice` (`FactStore`);
- the handlers as methods of a `StatesRouter` class. The class holds the
  static table and the collection. Each handler runs its checks in the
  source's order and maps them to 400 and 404 responses (`Routes`);
- the population display: decimal digits, grouped in threes by commas
  (`PopulationFormat`).

The collection is modelled as a sequence of `{stateCode, funfacts}` documents
in their natural order. That order is what `State.find()` returns, and it
decides which document wins in `GET /`. The router keeps two invariants:
keys are unique, as the schema declares, and keys are upper-case, because
handlers only ever store the upper-cased parameter.

Where the prose description of the service and the code disagree, the model
follows the code:

- fact indices are 0-based;
- the body fields are `funfacts` (POST) and `funfact` (PATCH);
- `GET /` has no `contig` filter;
- POST accepts an empty array, because `[]` is truthy in JavaScript, so a
  document with an empty list can be created;
- `verifyStates` answers 400 with an `error` field. It is defined but
  server.js never mounts it.

## Model

| member | source | states |
|---|---|---|
| StatesData.Upper | routes/states.js:9 | Upper-casing keeps the length and maps every character by the ASCII letter rule. |
| StatesData.UpperIdempotent | middleware/verifyStates.js:4 | Upper-casing an already upper-cased code changes nothing. |
| StatesData.GetState | routes/states.js:8-10 | Returns nothing exactly when no entry's code equals the argument ignoring case. Otherwise it returns an entry of the table whose code matches. |
| StatesData.GetStateFindsFirst | routes/states.js:8-10 | `getState` returns the first matching entry of the table (the semantics of `Array.find`). |
| StatesData.GetStateDependsOnUpper | routes/states.js:9 | Two arguments with the same upper-case form get the same answer. |
| StatesData.GetStateIgnoresCase | routes/states.js:48-49 | Handlers look up the upper-cased parameter and the guard looks up the raw one (line 16); both find the same entry. |
| StatesData.Codes | middleware/verifyStates.js:5 | The list of valid codes has the same length as the dataset and holds each entry's code, unchanged, in order. |
| VerifyStates.Verify | middleware/verifyStates.js:3-11 | Accepts exactly when the parameter is present and its upper-case form is one of the dataset's codes. On acceptance the code it hands on is that upper-case form, which is a valid code. On rejection the error is 'Invalid state abbreviation'. A missing parameter is rejected. |
| VerifyStates.VerifyIgnoresCase | middleware/verifyStates.js:4 | Parameters that differ only in letter case get the same verdict and the same normalised code. |
| VerifyStates.VerifyNormalises | middleware/verifyStates.js:9 | Verifying the code the middleware stores in `req.stateCode` accepts it again, unchanged. |
| VerifyStates.AcceptedByGetState | middleware/verifyStates.js:4-6 | Every code the middleware accepts is also found by `getState`. |
| VerifyStates.VerifyAgreesWithGetState | middleware/verifyStates.js:4-8 | If every dataset code is upper-case, the middleware and `getState` accept exactly the same parameters. |
| VerifyStates.LowerCaseCodeRefused | middleware/verifyStates.js:5-6 | A dataset entry stored in lower case is found by `getState` but refused by the middleware, which does not upper-case the dataset's codes. |
| PopulationFormat.Digits | routes/states.js:78-79 | The plain numeral is non-empty, all digits, and has at most three digits below 1000. |
| PopulationFormat.FormatPopulation | routes/states.js:78-79 | The displayed population has commas exactly at the positions a multiple of four characters from the end, and digits everywhere else. So each group after the first has 3 digits and the first group has 1 to 3. |
| PopulationFormat.GroupedExtend | routes/states.js:79 | Adding a comma and a zero-padded three-digit group to a well-grouped numeral keeps it well grouped. |
| PopulationFormat.DigitsSplit | routes/states.js:79 | For n of at least 1000, the numeral of n is the numeral of n / 1000 followed by the three digits of n mod 1000. |
| PopulationFormat.FormatStripsToDigits | routes/states.js:78-79 | Removing the commas from the displayed population leaves exactly its decimal numeral. |
| PopulationFormat.DigitsRoundTrip | routes/states.js:78 | Reading the numeral back gives the number it was made from. |
| PopulationFormat.FormatRoundTrip | routes/states.js:78-80 | Reading the displayed population with its commas ignored gives back the stored population. |
| FactStore.Find | routes/states.js:52 | `findOne` gives nothing exactly when no document has the key. Otherwise it gives the position of the first document with exactly that key. |
| FactStore.Save | routes/states.js:118-120 | Saving rewrites an existing document in place, keeping the collection's length. Otherwise it adds exactly one document. |
| FactStore.SaveThenRead | routes/states.js:120 | After a save, reading the key back gives the saved list. |
| FactStore.SaveKeepsOthers | routes/states.js:120 | A save leaves every other key's facts as they were. |
| FactStore.SaveKeepsInvariant | models/States.js:4-8 | Saving an upper-case key keeps the keys unique and upper-case. |
| FactStore.ReplaceAt | routes/states.js:142 | `list[index] = value` keeps the length, puts the value at the index, and leaves every other element unchanged. |
| FactStore.RemoveAt | routes/states.js:163 | `splice(index, 1)` drops the length by one and keeps the elements before the index. Later elements shift left by one, and the result plus the removed element is a permutation of the input. |
| FactStore.LookupKeys | routes/states.js:27-30 | A key is in `funfactsLookup` exactly when some document's upper-cased key equals it. |
| FactStore.LookupLastWins | routes/states.js:28-30 | When several documents upper-case to the same key, the lookup holds the facts of the last one. |
| FactStore.LookupMatchesFind | routes/states.js:29 | With unique upper-case keys, the lookup of an upper-case code holds exactly what `findOne` reads for it. |
| Merge.MergeOne | routes/states.js:53-56 | The view keeps all static fields. `funfacts` is attached exactly when a record exists with a non-empty list, and it is that list. |
| Merge.MergeListed | routes/states.js:32-38 | The view keeps all static fields. `funfacts` is attached exactly when the lookup has the entry's upper-cased code, even for an empty list, and it is the lookup's list. |
| Merge.BuildLookup | routes/states.js:27-30 | The `forEach` loop builds exactly the lookup `Lookup` describes. |
| Merge.MergeRulesAgree | routes/states.js:35 | On a valid store, the two merge rules give the same view of a state exactly when the state does not have a document with an empty list. |
| Routes.RouterGuard | routes/states.js:14-20 | Answers 400 'Invalid state abbreviation parameter', and stops the request, exactly when no entry's code matches the parameter ignoring case. |
| Routes.FieldRoute | routes/states.js:60-87 | An unknown code gets the guard's 400. Otherwise the reply names the state and carries the field asked for. The population is well grouped, strips to its numeral, and reads back as the stored number. |
| Routes.StatesRouter.ListAll | routes/states.js:23-44 | The reply has one view per table entry, in table order, each with all static fields. `funfacts` is attached exactly when some document's key upper-cases to the entry's code, and it holds the facts of the last such document. |
| Routes.StatesRouter.GetOne | routes/states.js:47-58 | An unknown code gets the guard's 400. Otherwise the view is the state's entry, with `funfacts` exactly when its document has a non-empty list. |
| Routes.StatesRouter.RandomFact | routes/states.js:90-100 | An unknown code gets the guard's 400. No document or an empty list gives 404 'No Fun Facts found for' plus the name. Otherwise the reply is one of the state's facts. |
| Routes.StatesRouter.AddFacts | routes/states.js:103-122 | Checks run in order: guard 400, missing or falsy body 400 'required', non-array 400 'must be an array'. Failed checks change nothing. Otherwise the state's list becomes the old list followed by the given one, or exactly the given one when there was no document. Other states are untouched, and the reply names the state and the new list. |
| Routes.StatesRouter.UpdateFact | routes/states.js:125-145 | Checks run in order: guard 400, no facts 404, missing index 400, missing or non-string or empty value 400, index outside [0, length) 404. Failed checks change nothing. Otherwise only the fact at the index is replaced; other states are untouched. |
| Routes.StatesRouter.DeleteFact | routes/states.js:148-166 | Checks run in the same order without the value check. Otherwise the fact at the index is removed, later ones shift left, the document stays even if its list becomes empty, and other states are untouched. |
| Routes.StatesRouter.StoreWrite | routes/states.js:120 | `record.save()` writes the document for the key. Reading the key back gives the new list, other keys are unchanged, and the store's invariant holds. |

## Left out

- Express wiring, CORS, JSON body parsing, the static HTML pages, the 404 catch-all, environment loading and the MongoDB connection of server.js are not modelled; they are framework and I/O.
- Persistence I/O (`State.find`, `findOne`, `save`) is modelled as reads and one atomic write on the in-memory collection. Concurrent requests on the same state are not modelled.
- The `try/catch` of `GET /` that answers 500 on a database error is not modelled, because the model has no store failures. Neither is an unhandled rejection from a failed save in the other handlers.
- `Math.random` (routes/states.js:98) is modelled as a nondeterministic choice of an index in [0, length); the floating-point arithmetic is left out.
- `toUpperCase` is modelled on the ASCII letters only. Other characters are left unchanged, so Unicode case mapping (which can change a string's length) is not modelled.
- `Number(...)` and `toLocaleString` (routes/states.js:78-79) are modelled only for non-negative integer populations. Fractions, NaN and non-numeric values are not modelled.
- The `index` of PATCH and DELETE is an integer when present. JavaScript coercion of strings, fractions (which would set a property that is not an element) and other types is not modelled.
- Request body values are a small JSON type: null, booleans, integers, strings, arrays of strings, and objects. Arrays with non-string elements, which Mongoose would cast or reject when saving, are not modelled. Neither is NaN.
- The `!record.funfacts` test (routes/states.js:54, 94, 129, 152) is not modelled separately: the schema defaults `funfacts` to an array, which is always truthy.
- HTTP status codes and JSON serialisation are reduced to an Ok / BadRequest / NotFound response with its body or message. `verifyStates` answers with a verdict that carries `error` instead of `message`.
