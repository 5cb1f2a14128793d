# Puppy catalogue: data model, in-memory store, API handlers and admin form

This project models the core of a small dog-breeder catalogue written in
TypeScript: the `puppies` record shape, the in-memory `MemStorage` that
holds the listings, the Express handlers that serve them, and the pure state
transitions of the admin page's puppy form. Everything is a value: the store
is a `map<string, Puppy>` plus the insertion order a JavaScript `Map`
iterates in, and every operation is a function.

Modules, one per source file plus two helpers:

- `Wrappers` (`wrappers.dfy`): `Option` (null or missing property versus a value) and
  `CallResult` (an awaited call returned or threw).
- `Schema` (`schema.dfy`): `InsertPuppy`, `Puppy`, the id-less insert shape and the column defaults.
- `Storage` (`storage.dfy`): `MemStorage`'s puppy operations and its three seed records.
- `Routes` (`routes.dfy`): the three registered handlers and a dispatcher over the store.
- `JsNumber` (`js_number.dfy`): `Number.prototype.toString` on integers and `parseInt`
  without a radix (section 19.2.5 of ECMA-262), which the form uses for the price.
- `Admin` (`admin.dfy`): `resetForm`, the field `onChange` handlers, `openEditModal`,
  `handleSubmit`, `handleImageAdd` and `handleImageRemove`.

Modelling decisions:

- `randomUUID` is an oracle: the operations that draw an id take it as a parameter.
  `CreatePuppy` accepts any id and behaves like `Map.prototype.set`. The lemmas that
  need a new id say so in their `requires`.
- `MemStorage` spreads the insert object into the stored record and fills no default.
  A record created without `isAvailable`, `healthStatus`, `isVaccinated`, `isInsured`
  or `freeDelivery` therefore lacks that property, although the select type declares
  it non-null. Those five fields are `Option` in `Puppy` as well as in `InsertPuppy`.
  `Schema.Complete` is the declared non-null shape, and `Schema.ApplyDefaults` is what
  the database defaults would do. `createPuppy` neither validates its input nor fills
  a default (server/storage.ts:129-138).
- `description: Option<string>`: `None` stands for both an absent and a null description.
  The `|| null` in the store and in `handleSubmit` treats them alike.
- `Storage.Valid` is the store's representation invariant: the order has no repeats and
  lists exactly the keys, each record's `id` is its key, and no stored description is
  the empty string. `Initialize` establishes it and `CreatePuppy` preserves it, so every
  reachable store satisfies it. `GetAllPuppies` and `Routes.Serve` assume it.
- `MemStorage`'s reads never throw. The handlers are modelled on the outcome of the
  store call, so their 500 branches are modelled too. Whether the inquiry handler's
  `console.log` throws is a parameter.
- The form's submit payload has its own datatype, `Admin.Payload`. Its price is
  `parseInt`'s result, which is NaN for an empty or non-numeric input. `Puppy.price`
  and `InsertPuppy.price` are plain integers, as the `integer` column declares.

- The admin page sends POST to `/api/puppies` and PATCH and DELETE to
  `/api/puppies/:id` (client/src/pages/admin.tsx:49-51, 70-72, 91-93). The server registers only the two
  GET routes and `POST /api/inquiries` (server/routes.ts:7, 17, 30), so no update or
  delete exists on the server side.
- The form's `required` inputs block the submit event while any of them is empty.
  The gender `<select>` counts as empty unless the gender is one of its three options,
  because any other value leaves its empty "Select Gender" placeholder selected.
  `Admin.Submit` models that check in front of `handleSubmit`.

## Model

| member | source | states |
|---|---|---|
| Schema.Omit | shared/schema.ts:24-28 | the insert shape carries every column of the row except `id` |
| Schema.WithId | server/storage.ts:131-133 | the spread `{ ...insertPuppy, id }` carries the given id, and removing the id again gives back exactly the insert |
| Schema.OmitWithIdRoundTrip | shared/schema.ts:24-29 | removing the id and adding it back are inverse, and the id of a built record is exactly the one supplied |
| Schema.ApplyDefaults | shared/schema.ts:7-21 | after the database defaults the row is complete; each omitted flag becomes true and an omitted health status "100% Healthy"; supplied values win and other columns are untouched |
| Schema.ApplyDefaultsKeepsSuppliedValues | shared/schema.ts:17-21 | defaults change nothing exactly when the insert already supplies every defaulted column |
| Storage.NormalizeDescription | server/storage.ts:134 | the description is null exactly when the input is absent, null or empty; otherwise it is the input |
| Storage.Build | server/storage.ts:131-135 | the created record is the insert with the drawn id added and only the description normalised; no default is filled |
| Storage.Set | server/storage.ts:136 | `Map.set` makes the key read back the record and leaves every other key as it was; a new key joins the end of the iteration order and an existing key keeps its place |
| Storage.GetPuppy | server/storage.ts:125-127 | returns the stored record exactly when the id is a key, undefined otherwise |
| Storage.Values | server/storage.ts:122 | listing the values of keys that are all present gives one value per key, in key order |
| Storage.GetAllPuppies | server/storage.ts:121-123 | the listing has one entry per stored id, in insertion order; it contains exactly the stored values; no two entries share an id |
| Storage.DistinctLength | server/storage.ts:121-123 | an insertion order without repeats is as long as the key set is large |
| Storage.CreatePuppy | server/storage.ts:129-138 | the returned record is stored under the drawn id; every other id reads as before; the invariant is preserved |
| Storage.CreateAppendsToListing | server/storage.ts:121-138 | under a new id, the listing after creation is the listing before it followed by the created record, and the store grows by one |
| Storage.ValuesAppend | server/storage.ts:121-136 | setting a new key appends its value to the listing |
| Storage.CreateUnderTakenIdReplaces | server/storage.ts:130-136 | if the drawn id is already taken, the record under it is replaced in place and the store keeps its size |
| Storage.CreatedIsRetrievable | server/storage.ts:125-138 | reading back the created id gives the created record, whose description is normalised and whose other fields equal the input |
| Storage.Load | server/storage.ts:93-101 | each insert is built and set under the next drawn id; loading keeps the invariant and adds exactly the drawn ids as keys |
| Storage.LoadOrder | server/storage.ts:93-101 | under distinct ids that are new to the store, the iteration order gains exactly those ids, in the order they were drawn |
| Storage.LoadContents | server/storage.ts:93-101 | under distinct ids, each drawn id holds the record built from its insert, and every other key reads as before |
| Storage.LoadListing | server/storage.ts:93-101 | loading an empty store under distinct ids lists one built record per insert, in the order of the inserts |
| Storage.LoadKeepsDefaults | server/storage.ts:93-101 | loading inserts that spell out the default flags leaves every stored record at the defaults |
| Storage.SeedsSupplyDefaults | server/storage.ts:25-91 | there are three seed records and each sets the four flags to true and the health status to "100% Healthy" |
| Storage.Initialize | server/storage.ts:17-21 | the constructed store satisfies the invariant and its keys are exactly the drawn ids |
| Storage.InitializeAtDefaults | server/storage.ts:23-101 | every constructed record is complete and carries the default flags and health status; with three distinct ids the store holds exactly three records |
| Storage.InitializeListsSeeds | server/storage.ts:23-101 | with distinct ids the constructed store lists the seed records Thunder, Blaze and Scout, in that order, each built under its drawn id |
| Routes.ListPuppies | server/routes.ts:7-14 | 200 with exactly the listing when the store call returns; 500 "Failed to fetch puppies" when it throws |
| Routes.ShowPuppy | server/routes.ts:17-27 | 404 "Puppy not found" exactly when the store returns undefined; 200 with the record unchanged when it returns one; 500 "Failed to fetch puppy" when it throws |
| Routes.SubmitInquiry | server/routes.ts:30-39 | 200 "Inquiry submitted successfully" exactly when logging returns, 500 "Failed to submit inquiry" otherwise |
| Routes.Serve | server/routes.ts:5-39 | no handler changes the store; an unknown id gets 404 "Puppy not found" and only an unknown id gets 404; the list and the record are served as stored; an inquiry gets the inquiry handler's answer; only a throwing inquiry log gives 500 |
| Routes.ServeAll | server/routes.ts:5-39 | after any sequence of requests, each with its own logging outcome, the store is the one before them, and each response is the one the request gets alone |
| Routes.CreatedPuppyIsServed | server/routes.ts:7-23 | after a create under a new id, GET by that id answers 200 with the created record and GET of the list ends with it |
| JsNumber.ParseMagnitude | client/src/pages/admin.tsx:150 | the unsigned part of `parseInt` is never negative and is NaN when the text does not start with a digit |
| JsNumber.ParseSigned | client/src/pages/admin.tsx:150 | after white space, empty text is NaN and text without a sign is read as an unsigned magnitude |
| JsNumber.ParseInt | client/src/pages/admin.tsx:150 | text that is blank after leading white space is NaN, and a negative result needs a leading minus sign |
| JsNumber.ParseIntNaN | client/src/pages/admin.tsx:150 | blank text, and text starting with anything but white space, a sign or a digit, parse to NaN |
| JsNumber.TrimBlank | client/src/pages/admin.tsx:150 | text made only of white space trims to nothing |
| JsNumber.TrimStartSuffix | client/src/pages/admin.tsx:150 | trimming removes exactly a run of leading white space and keeps the rest of the text unchanged |
| JsNumber.IntToString | client/src/pages/admin.tsx:133 | the rendering is never empty, starts with a minus sign exactly for negatives, and is otherwise the decimal digits of the magnitude |
| JsNumber.NatToDigits | client/src/pages/admin.tsx:133 | the decimal rendering has at least one digit, only digits, no leading zero, and denotes the number |
| JsNumber.DigitPrefixOfDigits | client/src/pages/admin.tsx:150 | the digit run read from digits followed by a non-digit is exactly those digits |
| JsNumber.ParseIntAfterToString | client/src/pages/admin.tsx:133-150 | parsing a rendered integer followed by text that cannot continue the number (anything but a digit, or an `x` after a lone zero) gives the integer back |
| JsNumber.ParseIntInvertsToString | client/src/pages/admin.tsx:133-150 | parsing undoes rendering for every integer |
| JsNumber.ParseIntStopsAtNonDigit | client/src/pages/admin.tsx:150 | `parseInt` gives NaN for ".5", 12 for "12.5" and 3 for "3e3" |
| Admin.ResetForm | client/src/pages/admin.tsx:105-118 | every input is empty except the breed "American Pit Bull Terrier", there are no images and no record is being edited |
| Admin.EditField | client/src/pages/admin.tsx:262-343 | an input's `onChange` sets that input and leaves every other input and the images alone |
| Admin.OpenEditModal | client/src/pages/admin.tsx:125-139 | the record becomes the edited one; its text fields and images are copied; the price text is the price's decimal rendering and parses back to the price; the description is empty exactly when it is null or empty |
| Admin.HandleSubmit | client/src/pages/admin.tsx:141-166 | an update of the edited id exactly when editing, otherwise a create; inputs sent as typed; price parsed; empty description sent as null; the four flags true and the health status "100% Healthy" always |
| Admin.HandleImageAdd | client/src/pages/admin.tsx:168-176 | a non-empty answer is appended at the end; a cancelled or empty answer changes nothing |
| Admin.FilterIndex | client/src/pages/admin.tsx:181 | filtering out position `index` removes exactly that element when it is in range and nothing otherwise |
| Admin.HandleImageRemove | client/src/pages/admin.tsx:178-183 | exactly the image at the index is dropped and the others keep their order; an out-of-range index changes nothing |
| Admin.AddThenRemoveLast | client/src/pages/admin.tsx:168-183 | whatever the prompt answers, removing the last position afterwards restores the form |
| Admin.EditSubmitRoundTrip | client/src/pages/admin.tsx:125-159 | edit then save with no change updates the same id, and reproduces name, breed, age, weight, gender, price, color, description and images exactly when the description is not the empty string |
| Admin.StoredPuppyRoundTrip | client/src/pages/admin.tsx:125-159 | every record the store holds is reproduced by edit then save |
| Admin.EditSubmitResetsFlags | client/src/pages/admin.tsx:154-158 | edit then save keeps the four flags and the health status exactly when they already held the defaults |
| Admin.Submit | client/src/pages/admin.tsx:258-332 | `handleSubmit` runs exactly when name, age, weight, price and color are non-empty and the gender is one of the options "Male", "Female" and "Male & Female"; when it runs, the result is exactly `handleSubmit`'s request, an update exactly when editing |
| Admin.SubmitFreshForm | client/src/pages/admin.tsx:105-118 | a reset form cannot be submitted, because its required inputs are empty |
| Admin.EditFormSubmittable | client/src/pages/admin.tsx:125-139 | the form opened on a record is submittable exactly when the record's name, age, weight and color are non-empty and its gender is one of the select's options |
| Admin.SubmitNonIntegerPrice | client/src/pages/admin.tsx:313-321 | a submittable price of ".5" is sent as NaN, "12.5" as 12 and "3e3" as 3 |
| Admin.EditFieldThenSubmit | client/src/pages/admin.tsx:141-153 | changing one input changes no other part of the submitted payload |

## Left out

- Update and delete: the server registers no PATCH or DELETE route for the admin page's
  requests, so `Admin.HandleSubmit` stops at the request it would send.
- Validation: nothing in the server validates an insert. The zod insert schema is
  declared but never applied.
- The placeholder `users` map and `getUser`, `getUserByUsername` and `createUser`:
  they are untyped and unused.
- `randomUUID` and the database's `gen_random_uuid()`: both are parameters, not the UUID
  algorithm.
- `async`/`Promise`, Express, the HTTP server, `console.log`, React rendering, the
  modal's open flag, toasts and react-query: these are plumbing and I/O. Every store
  call is treated as synchronous.
- Requests to unregistered routes and Express's default answer for them: that answer
  is Express's own behaviour, not code of this repository.
- Admin.Submit: the number input's value sanitisation is not modelled. A browser
  reports the text of an invalid number as empty, so a submitted price is always a
  valid floating-point text; the model accepts any non-empty price text. The Save
  button is also disabled while a create or update request is pending
  (client/src/pages/admin.tsx:382-386), which blocks the submit; request state is not
  modelled, so `Submit` describes the form while no request is pending.
- JsNumber.IntToString: renders every integer in plain decimal. JavaScript switches to
  exponent notation from 1e21, which is far beyond a 32-bit `integer` column.
- JsNumber.ParseInt: returns exact integers. It does not model `-0`, the rounding of
  values above 2^53, or the Infinity that very long digit runs would reach.
- Admin.Payload: JSON serialisation (NaN becoming `null`) is not modelled.
- Storage.GetAllPuppies: requires the store invariant `Storage.Valid`, which every
  store built by `Initialize` and `CreatePuppy` satisfies.
- Routes.Serve: requires the store invariant `Storage.Valid` for the same reason.
- Routes.ServeAll: requires the store invariant `Storage.Valid` for the same reason.
