# commercetools notification module: transaction-state ordering and request envelopes

This project models the pure core of the notification module's commercetools helper
(`notification/src/utils/ctp.js`) in Dafny and proves properties of it.

- **Transaction-state ordering** (`compareTransactionStates`). A payment transaction on the
  commercetools platform is `Initial`, `Pending`, `Success` or `Failure`. The helper ranks
  them 0, 1, 2, 2. It throws an error when either argument is not one of those four literals.
  Otherwise it returns the new state's rank minus the current state's rank. Module
  `TransactionStates` models the literals as a `State` datatype, the guard as `Parse` into a
  `Result`, and the comparison as a function returning `Result<int, string>`. The error
  carries the message the helper throws.
- **Request envelopes** (`buildRequestOptions` and the client's custom methods). An envelope
  is a URI, an HTTP method (default `GET`), an optional body passed through unchanged, and
  headers. The headers start from `Accept` and `Content-Type` set to `application/json`, and
  the caller's headers are overlaid on them, so a caller's key wins. Module `CtpRequests`
  models headers as `map<string, string>`. It also models the envelopes that `delete`,
  `create`, `update` and `fetch*` build. A body is a JSON value: the resource draft of a
  create, or the `{version, actions}` record of an update.

The model follows the code where its documentation says otherwise. The doc comment of
`compareTransactionStates` promises only 1, -1 or 0. The code returns the rank difference,
so `Initial` to `Success` gives 2 (`CompareSpansTwoRanks`). The code ranks `Success` and
`Failure` equally, so a flip between the two terminal states compares as 0 in both directions
and is not rejected (`TerminalStatesCompareEqual`). Both
facts are proved as stated behaviour and are not changed in the model.

Files: `wrappers.dfy` (Option, Result), `transaction_state.dfy`, `ctp_requests.dfy`.

## Model

| member | source | states |
|---|---|---|
| TransactionStates.Parse | notification/src/utils/ctp.js:189-202 | a literal is accepted exactly when it is an own key of the rank table; an accepted literal is the name of the state it yields; any other string is an error |
| TransactionStates.CompareStates | notification/src/utils/ctp.js:189-204 | for valid states the result lies in -2..2; it is positive exactly when the new state can follow the current one, negative exactly when the current can follow the new, and 0 exactly for equal states or the Success/Failure pair |
| TransactionStates.CompareTransactionStates | notification/src/utils/ctp.js:188-205 | the call fails exactly when either literal is unknown, with the "Wrong transaction state passed" message naming both; otherwise it yields a number in -2..2 whose sign gives the ordering of the two states |
| TransactionStates.CompareReflexive | notification/src/utils/ctp.js:204 | every valid state compared with itself gives 0 |
| TransactionStates.CompareAntisymmetric | notification/src/utils/ctp.js:195-204 | swapping the arguments keeps success or failure of the call and negates the number |
| TransactionStates.CompareAdditive | notification/src/utils/ctp.js:204 | for valid a, b, c the comparisons (a, b) and (b, c) add up to (a, c) |
| TransactionStates.TerminalStatesCompareEqual | notification/src/utils/ctp.js:189-204 | Success against Failure and Failure against Success both give 0: a terminal flip is not rejected |
| TransactionStates.CompareSpansTwoRanks | notification/src/utils/ctp.js:183-204 | Initial to Success gives 2 and Failure to Initial gives -2, outside the 1/-1/0 the doc comment lists |
| TransactionStates.StepSumTelescopes | notification/src/utils/ctp.js:204 | along any path of states the step-by-step comparisons sum to the comparison of the endpoints |
| TransactionStates.AdvancingGainsRank | notification/src/utils/ctp.js:189-204 | a path whose every step compares positive gains at least one per step |
| TransactionStates.AdvancingChainIsShort | notification/src/utils/ctp.js:189-204 | a chain of transitions each compared as forward has at most three states |
| CtpRequests.BuildRequestOptions | notification/src/utils/ctp.js:154-170 | URI and body are passed through unchanged; an omitted method becomes GET and a given one is kept; the headers are the defaults plus the caller's keys, every caller header appears with the caller's value, and Accept and Content-Type are application/json unless the caller supplies them |
| CtpRequests.DefaultEnvelope | notification/src/utils/ctp.js:154-168 | with only a URI and body, the envelope is a GET with exactly the two JSON headers |
| CtpRequests.RebuildIsIdentity | notification/src/utils/ctp.js:160-168 | feeding an envelope back through the builder returns it unchanged |
| CtpRequests.HeaderKeysAreCaseSensitive | notification/src/utils/ctp.js:164-168 | a caller's lower-case `accept` does not replace the default `Accept`; both keys stay in the envelope's headers |
| CtpRequests.DeleteRequest | notification/src/utils/ctp.js:83-91 | a DELETE envelope of the given URI with no body, whose headers are exactly the JSON headers and the bearer token |
| CtpRequests.CreateRequest | notification/src/utils/ctp.js:93-102 | a POST envelope of the given URI carrying the draft unchanged, whose headers are exactly the JSON headers and the bearer token |
| CtpRequests.UpdateRequest | notification/src/utils/ctp.js:104-117 | a POST envelope of the given URI whose body is a JSON object with exactly the keys version and actions, holding the version and the actions in order, and whose headers are exactly the JSON headers and the bearer token |
| CtpRequests.UpdateIsCreateOfVersionedActions | notification/src/utils/ctp.js:93-117 | an update builds the same envelope as a create whose draft is the `{version, actions}` object |
| CtpRequests.FetchRequest | notification/src/utils/ctp.js:119-141 | a GET (by default) envelope of the given URI with no body, whose headers are exactly the JSON headers and the bearer token |

## Left out

- `createCtpClient`: builds the SDK client and its auth, user-agent, HTTP and queue middleware. This is library configuration and network I/O.
- `getAccessToken`: an HTTP token exchange driven by environment variables. The model takes the access token as a parameter.
- `setUpClient` execution, including the headers the user-agent middleware adds to every request on the way out: sending envelopes through `ctpClient.execute`, `fetchBatches`' paging through the SDK's `process`, and the `merge` of the custom methods into the client. All of these are calls into libraries that are not modelled. `fetchBatches` builds the same envelope as `FetchRequest`.
- The SDK's URI builder (`byId`, `byKey`, `withVersion`, `build`). The model takes the finished URI string as a parameter, so the version `delete` puts into its URI is not modelled.
- `getRequestBuilder`: a thin wrapper over the SDK's request builder.
- `notification/src/lambda.js`: the HTTP entry point, JSON parsing, logging and the once-per-process provisioning flag. The notification handler it calls is not part of this model.
- JavaScript values other than strings and `undefined`. The arguments `method`, `body` and `headers` of `buildRequestOptions` left `undefined` are `None`. Its `uri` is always a string, since every caller passes a built URI, and an undefined `uri` is not modelled. The two arguments of `compareTransactionStates` are plain strings. `hasOwnProperty` turns a non-string argument into a string key first, so an `undefined` state behaves like the string `"undefined"`: the call fails with a message naming `undefined`. A `null` method or headers argument, which JavaScript does not replace with the default, is not modelled.
- JSON numbers in a body are integers in the model. Floating-point values are not modelled, because the envelope only passes the body through.
- Key order of headers and of JSON object bodies (a create draft, the `{version, actions}` record): a JavaScript object keeps its keys in insertion order. A `map` has no order, and neither request headers nor JSON objects carry meaning in their order.
