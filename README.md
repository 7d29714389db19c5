# Client records: service, pipe and list page, in Dafny

This project models the client-record layer of an Angular application that
keeps customer records (`ClienteModel`) in Cloud Firestore:

- `ClienteService` is the only gateway to the store. It holds one cached
  stream of all records, with a five-minute time to live. It also has a loading
  flag, an error slot and the document it last addressed. It validates records,
  retries failed subscriptions with exponential backoff, translates failures
  into user-facing messages, and derives the balance total and a search from
  the cached stream.
- `SaldoTotalPipe` is the template pipe that totals the balances of a list.
- `ClientesComponent` is the list page. It provides row keys, the search box
  and its filter, the validation message of the add form, and the submit and
  delete handlers.

The files:

- `js_builtins.dfy`: the JavaScript built-ins the code relies on, with the
  semantics they have there. These are `trim` and the `\s` class (the
  ECMAScript WhiteSpace and LineTerminator characters), `toLowerCase`,
  `includes`, `Number.prototype.toString` for integers, `join` and `filter`.
- `cliente_model.dfy`: the record and its request shapes, the status enum, and
  the value a `throw` carries.
- `service_rules.dfy`: the pure decisions of the service. These are validation,
  the e-mail pattern, the error table, the retry schedule and the retry run,
  the snapshot mapping, the balance fold and the search filter.
- `service.dfy`: the service's state as a value, with one step function per
  operation and the lemmas about them. The class `ClienteService` holds the same
  fields; each method is proved to perform exactly its step and to keep the
  cache invariant `Valid()`: a cached Observable is one the service built, with
  the fixed TTL.
- `saldo_total_pipe.dfy`: the pipe.
- `clientes_component.dfy`: the page's pure helpers and the class
  `ClientesComponent`. Its handlers drive a `ClienteService`.

What stands in for the environment:

- The store is an oracle. A write receives the reply the store gives
  (`Resolved` or `Rejected(error)`) and returns the call it made, if any.
- A read subscription receives the sequence of attempts the store produces,
  each a snapshot or a failure.
- The clock is a `now` parameter, in milliseconds.
- The answer to the browser's `confirm()` is a parameter.
- An Observable built by `getClients` is a `Handle` numbered by generation.
  The state counts the calls of `snapshotChanges` the service makes on the
  collection; the resubscriptions `retryWhen` makes are not counted.
  "The same stream is returned" is equality of handles, and "no new
  subscription" is an unchanged count.
- Balances are integers, and dates are integer timestamps.

## Model

| member | source | states |
|---|---|---|
| ClienteModel.FromCreateRequest | src/app/model/cliente.model.ts:11-16 | a create request has given and family name and no id or timestamps; nombre, apellido, email and saldo are carried over from the request |
| ClienteModel.FromUpdateRequest | src/app/model/cliente.model.ts:18-24 | an update request always carries its id; nombre, apellido, email and saldo are carried over and no timestamp is set |
| ClienteModel.FormDataRoundTrip | src/app/model/cliente.model.ts:27 | form data survives the trip through a record unchanged |
| ClienteModel.FormDataOmitsIdAndTimestamps | src/app/model/cliente.model.ts:27 | going through form data loses exactly id, fechaCreacion and fechaModificacion |
| ClienteModel.StatusRoundTrip | src/app/model/cliente.model.ts:30-34 | each status reads back from its string, so the three strings are distinct |
| ClienteModel.StatusParseRoundTrip | src/app/model/cliente.model.ts:30-34 | a string that names a status is that status's string |
| JsBuiltins.IsWhitespace | src/app/servicios/cliente.service.ts:97 | the characters `trim()` removes: ECMAScript WhiteSpace and LineTerminator; what it decides is stated by JsBuiltins.TrimStrips and JsBuiltins.TrimEmptyIffAllWhitespace |
| JsBuiltins.TrimStart | src/app/servicios/cliente.service.ts:97 | the result is the suffix after the leading whitespace, and does not start with whitespace |
| JsBuiltins.TrimEnd | src/app/servicios/cliente.service.ts:97 | the result is the prefix before the trailing whitespace, and does not end with whitespace |
| JsBuiltins.Trim | src/app/servicios/cliente.service.ts:97 | the result is the input with an all-whitespace prefix and an all-whitespace suffix removed, and its ends are not whitespace |
| JsBuiltins.TrimStrips | src/app/servicios/cliente.service.ts:97 | trimming the start then the end removes exactly a whitespace prefix and a whitespace suffix |
| JsBuiltins.TrimEmptyIffAllWhitespace | src/app/servicios/cliente.service.ts:254 | `!s.trim()` holds exactly when every character of s is whitespace |
| JsBuiltins.TrimKeepsTrimmed | src/app/componentes/clientes/clientes.component.ts:97 | a string whose ends are not whitespace is its own trim |
| JsBuiltins.ToLower | src/app/servicios/cliente.service.ts:236 | same length, each character lower-cased on its own |
| JsBuiltins.LowerChar | src/app/servicios/cliente.service.ts:236 | the per-character mapping of toLowerCase on Basic Latin and Latin-1 capitals; JsBuiltins.ToLower applies it at every index and JsBuiltins.ToLowerExample shows it on names |
| JsBuiltins.ToLowerExample | src/app/servicios/cliente.service.ts:236 | 'JUAN' and 'Juan' both lower-case to 'juan', 'PÉREZ' to 'pérez' |
| JsBuiltins.Includes | src/app/servicios/cliente.service.ts:236-238 | true exactly when the term occurs at some position of the string |
| JsBuiltins.IncludesSelf | src/app/servicios/cliente.service.ts:236 | every string includes itself |
| JsBuiltins.NatToString | src/app/componentes/clientes/clientes.component.ts:90 | non-empty, all decimal digits, no leading zero except for 0 itself |
| JsBuiltins.DecimalRoundTrip | src/app/componentes/clientes/clientes.component.ts:90 | reading the decimal string back gives the number |
| JsBuiltins.IntToString | src/app/componentes/clientes/clientes.component.ts:224 | a leading '-' exactly for negatives, followed by the digits of the magnitude |
| JsBuiltins.Join | src/app/componentes/clientes/clientes.component.ts:261 | no parts join to '', one part to itself |
| JsBuiltins.JoinSnoc | src/app/componentes/clientes/clientes.component.ts:261 | joining one more part appends the separator and that part |
| JsBuiltins.Filter | src/app/servicios/cliente.service.ts:235 | every kept element passes, and the result is a sub-multiset of the input |
| JsBuiltins.FilterMembers | src/app/servicios/cliente.service.ts:235-239 | an element is kept exactly when it is in the input and passes |
| JsBuiltins.FilterAppend | src/app/servicios/cliente.service.ts:235-239 | filtering distributes over concatenation, so the input order is kept |
| JsBuiltins.FilterKeepsAll | src/app/servicios/cliente.service.ts:235-239 | a filter every element passes keeps the whole input |
| ServiceRules.ValidateClientData | src/app/servicios/cliente.service.ts:253-266 | each message iff its check fails and all earlier ones pass, in the order nombre, apellido, email, saldo; None iff all four pass |
| ServiceRules.ValidatedSaldoNonNegative | src/app/servicios/cliente.service.ts:263-265 | a record that passes has a balance `saldo \|\| 0` of at least 0 |
| ServiceRules.ValidationIgnoresIdAndTimestamps | src/app/servicios/cliente.service.ts:253-266 | the id and the timestamps never affect validation |
| ServiceRules.IsValidEmail | src/app/servicios/cliente.service.ts:268-271 | the split at the first '@'; that it decides the regex is ServiceRules.IsValidEmailMatchesRegex |
| ServiceRules.IsValidEmailMatchesRegex | src/app/servicios/cliente.service.ts:268-271 | the check accepts exactly the language of `^[^\s@]+@[^\s@]+\.[^\s@]+$` |
| ServiceRules.AcceptedInLanguage | src/app/servicios/cliente.service.ts:268-271 | every address the check accepts matches the regular expression |
| ServiceRules.LanguageAccepted | src/app/servicios/cliente.service.ts:268-271 | every string the regular expression matches is accepted |
| ServiceRules.EmailSplit | src/app/servicios/cliente.service.ts:268-271 | L@D is accepted iff L is non-empty, L and D hold no whitespace or '@', and D has an inner '.' |
| ServiceRules.EmailAcceptedExample | src/app/servicios/cliente.service.ts:268-271 | 'nuevo@test.com' is accepted |
| ServiceRules.EmailRejectedExample | src/app/servicios/cliente.service.ts:268-271 | 'invalid-email' is rejected |
| ServiceRules.IndexOf | src/app/servicios/cliente.service.ts:269 | the index of the first occurrence of a character, or None when it does not occur |
| ServiceRules.GetErrorMessage | src/app/servicios/cliente.service.ts:299-313 | never empty; without a code, a non-empty `message` is shown as it is; with neither (or a thrown string, or null) the text is 'Error desconocido' |
| ServiceRules.KnownErrorCodes | src/app/servicios/cliente.service.ts:301-307 | 'permission-denied', 'unavailable' and 'not-found' select their fixed texts, which differ pairwise and from both generic texts |
| ServiceRules.ErrorCodeDecides | src/app/servicios/cliente.service.ts:300-311 | a present code decides the message whatever `message` says; the generic text iff the code is not one of the three known ones |
| ServiceRules.ErrorMessagePassesThrough | src/app/servicios/cliente.service.ts:312 | an error without a code shows its own non-empty message |
| ServiceRules.Pow2 | src/app/servicios/cliente.service.ts:281 | powers of two are positive, and each is twice the one before |
| ServiceRules.RetryDecisionAt | src/app/servicios/cliente.service.ts:273-285 | the decision for failure number `index`; its schedule is stated by ServiceRules.RetrySchedule |
| ServiceRules.RunWithRetry | src/app/servicios/cliente.service.ts:74 | `retryWhen` over a sequence of attempts; its outcomes are stated by the three Retry lemmas below |
| ServiceRules.RetrySchedule | src/app/servicios/cliente.service.ts:273-285 | delays 1000, 2000, 4000 ms, each twice the previous; from index 3 on the failure propagates |
| ServiceRules.RetryDeliversAfterFailures | src/app/servicios/cliente.service.ts:273-285 | a value after k failures, within the limit, is delivered after exactly the backoff delays |
| ServiceRules.RetryExhaustsAfterFailures | src/app/servicios/cliente.service.ts:273-285 | four failures in a row let the fourth through after 1, 2 and 4 s |
| ServiceRules.RetryConsultsAtMostFourAttempts | src/app/servicios/cliente.service.ts:27 | nothing after the fourth attempt affects the outcome (at most 3 retries) |
| ServiceRules.BackoffFromZero | src/app/servicios/cliente.service.ts:280-281 | from a fresh counter the delays are [1000, 2000, 4000] |
| ServiceRules.MapSnapshot | src/app/servicios/cliente.service.ts:67-73 | one record per document, in order, each with id set to the document id |
| ServiceRules.MapDocument | src/app/servicios/cliente.service.ts:107-114 | null exactly for a missing document; otherwise the document's fields with id set to the document id |
| ServiceRules.ReduceSaldo | src/app/servicios/cliente.service.ts:217 | the `reduce` of `total + (client.saldo \|\| 0)`; ServiceRules.ReduceIsSum states it is the start value plus the sum of the balances |
| ServiceRules.ReduceIsSum | src/app/servicios/cliente.service.ts:217 | the left fold adds the sum of the balances to its start value |
| ServiceRules.SumSaldoAppend | src/app/servicios/cliente.service.ts:217 | the total of a concatenation is the sum of the totals |
| ServiceRules.ValidatedTotalNonNegative | src/app/servicios/cliente.service.ts:217 | records that all passed validation have a non-negative total |
| ServiceRules.SaldoTotal | src/app/servicios/cliente.service.ts:214-221 | the fold equals the sum of balances, absent ones as 0; 0 for no records |
| ServiceRules.SaldoTotalExample | src/app/servicios/cliente.service.ts:214-221 | 1000, 2000 and -500 total 2500 |
| ServiceRules.SearchFilter | src/app/servicios/cliente.service.ts:233-241 | the filter of searchClients; its meaning is stated by the two lemmas below |
| ServiceRules.SearchFilterMembers | src/app/servicios/cliente.service.ts:233-241 | a record is kept iff its lowered nombre, apellido or email contains the lowered term |
| ServiceRules.SearchFilterKeepsOrder | src/app/servicios/cliente.service.ts:233-241 | the filter keeps the original order |
| ServiceRules.SearchIgnoresTermCase | src/app/servicios/cliente.service.ts:236-238 | terms that lower-case alike select the same records |
| ServiceRules.SearchFindsNameInAnyCase | src/app/servicios/cliente.service.ts:236 | a record whose name equals the term up to case is found |
| Service.IsCacheValid | src/app/servicios/cliente.service.ts:245-247 | the strict TTL comparison; its boundary is Service.CacheExpiresAtTtl |
| Service.GetClientsStep | src/app/servicios/cliente.service.ts:56-89 | getClients as a transition; its meaning is Service.GetClientsHitOrMiss |
| Service.GetClientsHitOrMiss | src/app/servicios/cliente.service.ts:56-89 | the cached stream, with nothing changed, iff an entry exists and now - timestamp < TTL; otherwise error cleared, loading set, one new subscription, entry replaced with timestamp now |
| Service.CacheExpiresAtTtl | src/app/servicios/cliente.service.ts:245-247 | an entry made at t serves a call at t + TTL - 1 and not one at t + TTL |
| Service.CallsWithinTtlShare | src/app/servicios/cliente.service.ts:58-60 | calls within the TTL of an entry all get its stream and change nothing |
| Service.RepeatedCallsSubscribeOnce | src/app/servicios/cliente.service.ts:56-89 | repeated calls within the TTL of the first open exactly one subscription and share one stream |
| Service.DocPath | src/app/servicios/cliente.service.ts:104 | the path `clientes/${id}` that getClient, modify (line 165) and delete (line 197) address; used by Service.GetClientRefusesBlankId, Service.ModifyOutcome and Service.DeleteOutcome |
| Service.GetClientRefusesBlankId | src/app/servicios/cliente.service.ts:96-104 | refused with 'ID de cliente requerido', the state untouched, iff the id is all whitespace; else the document clientes/{id} is watched with loading set, error cleared, clienteDoc set to its path and nothing else changed |
| Service.GetClientStep | src/app/servicios/cliente.service.ts:96-104 | getClient as a transition; its meaning is Service.GetClientRefusesBlankId |
| Service.SettleStep | src/app/servicios/cliente.service.ts:74-78 | the `catchError`/`tap`/`finalize` tail once retrying settled; exercised by Service.ReadRetryOutcomes |
| Service.ReadStepsKeepInv | src/app/servicios/cliente.service.ts:56-120 | getClients, getClient, the settling of a read and searchClients keep the cache invariant |
| Service.ReadRetryOutcomes | src/app/servicios/cliente.service.ts:74-78 | two failures then data: the records after 1 s and 2 s with no error; four failures: the last one's message in the slot and nothing emitted |
| Service.ListEmission | src/app/servicios/cliente.service.ts:66-74 | the first list getClients delivers: the mapped snapshot once retrying delivers, nothing otherwise; stated by Service.ReadRetryOutcomes |
| Service.Failing | src/app/servicios/cliente.service.ts:142-147 | a write that threw before the store: the message of the very error in the slot, loading down, the error re-thrown, no call; stated through Service.AddClientOutcome, Service.ModifyOutcome and Service.DeleteOutcome |
| Service.Calling | src/app/servicios/cliente.service.ts:130-147 | a write that reached the store: success clears the error and the cache, a rejection puts its message in the slot and re-throws that same error; stated through the three Outcome lemmas |
| Service.AddPayload | src/app/servicios/cliente.service.ts:133-137 | the record with `saldo \|\| 0` and fechaCreacion = now; Service.AddClientOutcome states it differs from the input in exactly those fields |
| Service.UpdatePayload | src/app/servicios/cliente.service.ts:167-171 | every field but the id, with fechaModificacion = now; Service.ModifyOutcome states it differs from the input in exactly those fields |
| Service.AddClientStep | src/app/servicios/cliente.service.ts:127-148 | addClient as a transition; its meaning is Service.AddClientOutcome |
| Service.ModifyStep | src/app/servicios/cliente.service.ts:155-181 | modify as a transition; its meaning is Service.ModifyOutcome |
| Service.DeleteStep | src/app/servicios/cliente.service.ts:188-208 | delete as a transition; its meaning is Service.DeleteOutcome |
| Service.AddClientOutcome | src/app/servicios/cliente.service.ts:127-148 | loading down on every exit; a validation error calls nothing, is re-thrown and lands in the slot; otherwise the store gets the record with `saldo \|\| 0` and fechaCreacion = now; success empties the cache, failure keeps it; a store rejection re-throws that same error with its getErrorMessage text in the slot |
| Service.ModifyOutcome | src/app/servicios/cliente.service.ts:155-181 | no id: 'ID de cliente requerido para modificar' and no call; a validation error calls nothing, is re-thrown and lands in the slot as its own message; after validation clientes/{id} is updated with every field but id, plus fechaModificacion = now; a store rejection re-throws that same error with its getErrorMessage text in the slot |
| Service.DeleteOutcome | src/app/servicios/cliente.service.ts:188-208 | no id: 'ID de cliente requerido para eliminar' and no call; otherwise clientes/{id} is deleted, without validation; a store rejection re-throws that same error with its getErrorMessage text in the slot |
| Service.WritesKeepInv | src/app/servicios/cliente.service.ts:127-208 | writes keep the cache invariant |
| Service.WriteThenReadResubscribes | src/app/servicios/cliente.service.ts:140-141 | after any successful write the next getClients subscribes again, however soon |
| Service.ValidationRejectsRepeatedly | src/app/servicios/cliente.service.ts:127-148 | a record refused by validation is refused alike on every call and never reaches the store |
| Service.TotalEmission | src/app/servicios/cliente.service.ts:216-218 | a total stream emits the sum of the balances of each list its source emits, absent ones as 0, whichever source the stream is over; non-negative when every record passed validation |
| Service.SearchClientsStep | src/app/servicios/cliente.service.ts:228-242 | searchClients as a transition; its meaning is Service.SearchClientsOutcome |
| Service.ListingEmission | src/app/servicios/cliente.service.ts:228-240 | what a searchClients listing shows of each list: the list itself for the shared stream, the service filter otherwise; stated by Service.SearchClientsOutcome |
| Service.SearchClientsOutcome | src/app/servicios/cliente.service.ts:228-242 | a blank term returns getClients' own stream; any other filters it, the term untrimmed |
| Service.ClienteService.constructor | src/app/servicios/cliente.service.ts:33-45 | no cache entry, loading false, no error, no subscription; the cache invariant holds |
| Service.ClienteService.GetClients | src/app/servicios/cliente.service.ts:56-89 | the new state and the handle are those of the getClients step, so the hit-or-miss behaviour of Service.GetClientsHitOrMiss holds of the method |
| Service.ClienteService.SettleList | src/app/servicios/cliente.service.ts:74-78 | first emission of the records, or the error message in the slot; loading down once settled |
| Service.ClienteService.GetClient | src/app/servicios/cliente.service.ts:96-104 | the state and the watch are those of the getClient step (Service.GetClientRefusesBlankId) |
| Service.ClienteService.SettleClient | src/app/servicios/cliente.service.ts:106-119 | first emission (null for a missing document) or the error message; loading down once settled |
| Service.ClienteService.AddClient | src/app/servicios/cliente.service.ts:127-148 | the state, the result and the store call are those of the addClient step (Service.AddClientOutcome) |
| Service.ClienteService.Modify | src/app/servicios/cliente.service.ts:155-181 | the state, the result and the store call are those of the modify step (Service.ModifyOutcome) |
| Service.ClienteService.Delete | src/app/servicios/cliente.service.ts:188-208 | the state, the result and the store call are those of the delete step (Service.DeleteOutcome) |
| Service.ClienteService.GetSaldoTotal | src/app/servicios/cliente.service.ts:214-221 | the state change of getClients, a total stream over the stream it returns, and what that stream emits: the sum of the balances of each list (Service.TotalEmission) |
| Service.ClienteService.SearchClients | src/app/servicios/cliente.service.ts:228-242 | the state and the listing are those of the searchClients step (Service.SearchClientsOutcome) |
| Service.ClienteService.Await | src/app/servicios/cliente.service.ts:133-140 | the store's reply becomes the result; only success invalidates the cache |
| Service.ClienteService.Begin | src/app/servicios/cliente.service.ts:130-131 | loading raised and the error cleared, nothing else changes |
| Service.ClienteService.Finish | src/app/servicios/cliente.service.ts:142-147 | a thrown error lands in the slot via handleError; loading is lowered on every exit |
| Service.ClienteService.Fail | src/app/servicios/cliente.service.ts:142-147 | a write that throws before the store: the message in the slot, loading down, no store call, the error re-thrown |
| Service.ClienteService.CallStore | src/app/servicios/cliente.service.ts:130-147 | loading raised and the error cleared before the await; success empties the cache and clears the error, failure puts its message in the slot; loading down either way |
| Service.ClienteService.InvalidateCache | src/app/servicios/cliente.service.ts:249-251 | the cache entry is removed and nothing else changes |
| Service.ClienteService.HandleError | src/app/servicios/cliente.service.ts:287-297 | the error slot receives getErrorMessage(error) and nothing else changes |
| SaldoTotalPipe.Transform | src/app/shared/pipes/saldo-total.pipe.ts:10-18 | 0 for null, undefined or a non-array; for an array the fold equals the sum of balances, absent ones as 0 |
| SaldoTotalPipe.TransformAgreesWithService | src/app/shared/pipes/saldo-total.pipe.ts:15-17 | the pipe and getSaldoTotal compute the same total for every list |
| SaldoTotalPipe.TransformAppend | src/app/shared/pipes/saldo-total.pipe.ts:15-17 | the total of two lists together is the sum of their totals |
| SaldoTotalPipe.TransformIgnoresZeroBalances | src/app/shared/pipes/saldo-total.pipe.ts:16 | a record with no balance, or 0, leaves the total as it is |
| SaldoTotalPipe.TransformExamples | src/app/shared/pipes/saldo-total.pipe.ts:15-17 | 1000, -500, 300 total 800; absent, 1000, absent total 1000 |
| Component.TrackByClientId | src/app/componentes/clientes/clientes.component.ts:89-91 | the id when non-empty, else the index's decimal string: non-empty, all digits, no leading zero, and reading back as the index |
| Component.TrackByKeysDistinct | src/app/componentes/clientes/clientes.component.ts:89-91 | rows without id at different positions get different keys |
| Component.TrackByExamples | src/app/componentes/clientes/clientes.component.ts:89-91 | id '123' gives '123'; no id at position 5 gives '5' |
| Component.FilterClients | src/app/componentes/clientes/clientes.component.ts:217-226 | the page's own filter; its meaning is Component.FilterClientsMembers |
| Component.FilteredClients | src/app/componentes/clientes/clientes.component.ts:206-212 | an empty term shows the list unchanged; any other term shows Component.FilterClients of it |
| Component.FilterClientsMembers | src/app/componentes/clientes/clientes.component.ts:217-226 | shown iff lowered nombre, apellido or email, or the decimal balance, contains the lowered term |
| Component.FilterClientsKeepsOrder | src/app/componentes/clientes/clientes.component.ts:217-226 | the filter keeps the original order |
| Component.FilterClientsWidensServiceSearch | src/app/componentes/clientes/clientes.component.ts:220-225 | whatever searchClients finds the page's filter shows too |
| Component.LowerIntString | src/app/componentes/clientes/clientes.component.ts:224 | a decimal integer string is unchanged by lower-casing |
| Component.FilterClientsFindsBalance | src/app/componentes/clientes/clientes.component.ts:224 | typing a record's balance finds it |
| Component.NoDigitFieldMissesNumber | src/app/componentes/clientes/clientes.component.ts:221-223 | a digit-free field never contains a term that has a digit at any position |
| Component.BalanceOnlyPageMatch | src/app/componentes/clientes/clientes.component.ts:220-225 | a record with digit-free text searched by its balance (negative balances included) is missed by searchClients and shown by the page |
| Component.BlankSearchShowsAll | src/app/componentes/clientes/clientes.component.ts:96-98 | a blank typed term, once trimmed, shows every record |
| Component.SuccessFlash | src/app/componentes/clientes/clientes.component.ts:267-272 | a success message: alert-success for 3000 ms |
| Component.ErrorFlash | src/app/componentes/clientes/clientes.component.ts:274-279 | an error message: alert-danger for 5000 ms |
| Component.UserErrorMessage | src/app/componentes/clientes/clientes.component.ts:281-287 | a thrown string as it is; else a non-empty message; else 'Ha ocurrido un error inesperado' |
| Component.OwnErrorsShownAsInSlot | src/app/componentes/clientes/clientes.component.ts:281-287 | an error the service raised with a message is shown as the service's error slot shows it |
| Component.StoreFailureShownByMessage | src/app/componentes/clientes/clientes.component.ts:286 | a coded store failure is shown by its raw message while the slot holds the code's fixed text |
| Component.InvalidControlMessages | src/app/componentes/clientes/clientes.component.ts:245-258 | never more messages than controls consulted |
| Component.InvalidControlMessagesMembers | src/app/componentes/clientes/clientes.component.ts:245-258 | a message is listed iff an invalid control carries it |
| Component.ControlMessagesInOrder | src/app/componentes/clientes/clientes.component.ts:247-258 | the controls are read in the order nombre, apellido, email, saldo |
| Component.ValidationMessage | src/app/componentes/clientes/clientes.component.ts:244-265 | the text showValidationErrors shows; its meaning is Component.ValidationMessageLists |
| Component.ValidationMessageLists | src/app/componentes/clientes/clientes.component.ts:244-265 | each control's message listed iff that control is invalid; the generic text iff none is |
| Component.ValidationMessageNameOnly | src/app/componentes/clientes/clientes.component.ts:260-262 | only nombre invalid: the prefix and 'El nombre es requerido' |
| Component.ValidationMessageAllInvalid | src/app/componentes/clientes/clientes.component.ts:260-262 | all invalid: the prefix and the four messages in order, separated by ', ' |
| Component.EmptyFormRefusedForName | src/app/componentes/clientes/clientes.component.ts:61-66 | the empty form is refused by the service for its name, not its e-mail or balance |
| Component.ClientesComponent.constructor | src/app/componentes/clientes/clientes.component.ts:188-193 | the list and the total come from one getClients step at construction |
| Component.ClientesComponent.OnSearchChange | src/app/componentes/clientes/clientes.component.ts:96-98 | the search subject receives the trimmed term |
| Component.ClientesComponent.ResetForm | src/app/componentes/clientes/clientes.component.ts:162-168 | the form data becomes exactly {'', '', '', 0} |
| Component.ClientesComponent.ShowValidationErrors | src/app/componentes/clientes/clientes.component.ts:244-265 | shows the validation message in an alert-danger flash for 5000 ms |
| Component.ClientesComponent.StartSubmit | src/app/componentes/clientes/clientes.component.ts:103-111 | an invalid form shows the validation message and stops; a valid one raises isSubmitting before addClient runs |
| Component.ClientesComponent.FinishSubmit | src/app/componentes/clientes/clientes.component.ts:113-125 | isSubmitting down; success flashes 'Cliente agregado exitosamente' and empties the form; failure flashes the error message |
| Component.ClientesComponent.OnSubmitClient | src/app/componentes/clientes/clientes.component.ts:103-125 | an invalid form never reaches addClient; a valid one runs the addClient step on the form data and reports it |
| Component.ConfirmPrompt | src/app/componentes/clientes/clientes.component.ts:133 | the confirm text with the given and family name; Component.ClientesComponent.OnDeleteClient states it is asked exactly for a record with an id |
| Component.Interpolated | src/app/componentes/clientes/clientes.component.ts:133 | a field inside the template literal, an absent one printed as 'undefined'; part of Component.ConfirmPrompt |
| Component.ClientesComponent.OnDeleteClient | src/app/componentes/clientes/clientes.component.ts:130-142 | delete is called iff the record has an id and the user confirmed; the outcome is flashed |

## Left out

- The Firestore adapter is an oracle that answers writes and supplies the attempts of a read subscription. Its query ordering (`orderBy('nombre')`) is not modelled.
- RxJS mechanics are not modelled. This covers `shareReplay` multicasting, `timer` scheduling, `debounceTime(300)` and `distinctUntilChanged` on the search subject, `combineLatest`, and the exact instant `tap`/`finalize` lower the loading flag. A read is modelled by its first settled outcome, with the retry delays listed.
- Service.ClienteService.GetSaldoTotal: `shareReplay(1)` on the total is not captured. Only the reuse of the cached list stream is.
- Service.ClienteService.SettleList: only the first emission of a live stream is modelled, not later updates of the collection.
- Service.ClienteService.SettleClient: only the first settled outcome of the live document stream is modelled, not later changes to the document.
- Service.ClienteService.AddClient: each write is modelled as atomic. Other calls that run during the `await` of the store call are not modelled. For example, a getClients miss during a pending write creates an entry that the write's invalidateCache then drops. A read failure whose message lands in the error slot during the await also stays there after a successful write, while the model says a success leaves the slot clear.
- Service.ClienteService.Modify: the same holds for the `await` of the update; interleaving there is not modelled.
- Service.ClienteService.Delete: the same holds for the `await` of the delete; interleaving there is not modelled.
- The `console.error` logging in `handleError` and in `loadClients` is not modelled.
- `ngOnDestroy` of the service and of the page is not modelled: completing subjects has no state worth proving.
- `getAverageBalance` is left out: it uses floating-point division.
- Decimal balances and mixed-type balances (a string or boolean `saldo`) are left out. Balances are integers here.
- JsBuiltins.IntToString: large numbers are not formatted as JavaScript does. `Number.prototype.toString` switches to exponent notation from 10^21; IntToString always writes plain decimal digits.
- JsBuiltins.ToLower: only Basic Latin and Latin-1 capitals are mapped. Full Unicode case mapping, including special casing, is not modelled.
- Strings are sequences of characters, not of UTF-16 code units.
- `closeModal`, `loadClients` and change detection (`markForCheck`) are not modelled.
- The flash-message service is not modelled; messages are returned as `Flash` values.
- The form reference's own `resetForm()` is not modelled.
- `src/app/shared/utils/performance-monitor.service.ts` and `src/app/shared/utils/performance-benchmark.util.ts` are not part of this model. Nor are the other components, the guard, the modules and the scripts.

## Notes on the code

- **A caller-supplied id on create.** `addClient` spreads the record as it
  is, so the store receives any id the caller gave
  (`Service.AddClientOutcome`: the payload differs from the input only in
  saldo and fechaCreacion).
- **Validation and missing-id errors reach the error slot.** They are thrown
  inside the `try`, so they pass through `handleError`. An `Error` without a
  code shows its message, so those messages land in the slot
  (`Service.AddClientOutcome`, `Service.ModifyOutcome`,
  `Service.DeleteOutcome`).
- **Delete validates nothing.** `addClient` and `modify` validate the record;
  `delete` needs only an id (`Service.DeleteOutcome`).
