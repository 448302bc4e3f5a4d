# set-maintenance-mode, modelled in Dafny

`set-maintenance-mode` is a command-line tool. It switches the `maintenanceMode` flag of named
Openmix platforms on the Cedexis portal on or off. It runs in four steps:

1. It gets an OAuth2 access token with the client-credentials grant.
2. It lists every platform.
3. It keeps the platforms whose `name` was given on the command line.
4. It puts each kept platform back, with `sonarConfig.maintenanceMode` set to the requested state.

The model covers the decision logic of both source files:

- `Cedexis` (cedexis.js) covers the platform and reply records and the requests the client builds:
  the URLs, the form body and the bearer header. It also has the rules that accept or reject each
  reply, `setErrorMessage`, and the class `Client`. `Client` stands for the JavaScript class
  `Cedexis`: its constructor fixes the credentials and the host, and its `token` field is written
  by the token request and read by the later requests.
- `App` (app.js) covers the usage check, the start banner, the `filterPlatforms` allow-list, the
  patch and `updatePlatform`, and `Run`. `Run` is one complete run: usage check, then token, then
  listing, then one update per selected platform. It returns the requests in the order they are
  issued, and the outcome.
- `Arrays` holds the JavaScript array operations the code uses (`join`, `filter`, `indexOf`) as
  functions on sequences. It also has `Split`, the inverse of `Join`.
- `Wrappers` holds `Option` and `Result`.

Each transport reply is an input value `Reply(status, data)`. `data` is `None` when the body is
missing or falsy. Otherwise it is a JSON object (`Object`: `access_token`, `developerMessage` and
fields carried along unread) or a JSON array of platforms (`Array`). JavaScript truthiness is
modelled: a token, a `developerMessage` or a host option counts only when it is present and
non-empty. An unset token prints as `Bearer undefined`. A filtered listing whose 200 reply is an
object rather than an array throws a `TypeError` (`data.filter is not a function`).

Three behaviours of the code are worth stating on their own:

- An update failure takes its message from the reply's top-level `developerMessage`
  (cedexis.js:76), as the token and listing failures do.
- Giving neither `--enable` nor `--disable` passes the usage check (app.js:30-34). The first
  selected platform's update then fails with "No update specified" without sending any request
  (app.js:114-116). That error reaches the final callback of `async.each`, which prints it and
  exits with status 1 (app.js:47-49).
- In the code as written, a rejected token or listing request never reaches the final callback:
  the unqualified `setErrorMessage` call throws first (see Findings). Once that call is
  corrected, the final callback receives the rejection but does not report it (second Findings
  row). `Run` uses the corrected behaviour of both.

## Model

| member | source | states |
|---|---|---|
| `Cedexis.ErrorMessage` | cedexis.js:81-87 | the reply's `developerMessage` when the body is an object carrying a non-empty one, else the given default; a non-empty default gives a non-empty message |
| `Cedexis.TokenRequestBody` | cedexis.js:22-25 | the form body is exactly `client_id=<id>&client_secret=<secret>&grant_type=client_credentials`, unescaped |
| `Cedexis.TokenFormFields` | cedexis.js:23 | split at '&', the form gives back its three fields when neither credential contains '&' |
| `Cedexis.TokenAcceptance` | cedexis.js:30-37 | the token reply is accepted iff it has an object body, a non-empty `access_token` and status 200; the token is that field; otherwise the error is a RadarException whose message is the diagnostic or "Error getting access token" |
| `Cedexis.ListAcceptance` | cedexis.js:50-58 | the listing is accepted on a body and status 200; with a filter over an array the result is an order-preserving subsequence holding every copy of each kept platform and nothing else; without a filter it is the body; otherwise the message comes from `setErrorMessage` with "Error getting platforms" |
| `Cedexis.UpdateAcceptance` | cedexis.js:71-77 | an update succeeds iff there is a body and status 200, and yields that body; otherwise the message is the diagnostic or "Error updating platform" |
| `Cedexis.UpdateUrlInjective` | cedexis.js:68 | every update URL lies under the listing URL plus "/", and two ids give the same URL only when they are equal |
| `Cedexis.Client.constructor` | cedexis.js:9-15 | the host is the `host` option when it is truthy, else `https://portal.cedexis.com/`; verbose only when the option is true; no token yet |
| `Cedexis.Client.GenerateAccessToken` | cedexis.js:21-39 | posts the form to `<host>api/oauth/token`; the result is the token reply's outcome; the token is stored on success and left unchanged on failure |
| `Cedexis.Client.GetPlatforms` | cedexis.js:41-60 | GETs `<host>api/v2/config/platforms.json` with the stored token as bearer; the result is the listing outcome |
| `Cedexis.Client.UpdatePlatform` | cedexis.js:62-79 | PUTs the platform itself, as JSON, to `<host>api/v2/config/platforms.json/<id>` with the stored token; the result is the update outcome |
| `Cedexis.Bearer` | cedexis.js:43 | the Authorization header is "Bearer " followed by the stored token; an unset token prints as "undefined" |
| `Cedexis.ClientHost` | cedexis.js:13 | the client's host is never empty: it is the `host` option when that is truthy, else the default portal URL |
| `Cedexis.TokenOutcome` | cedexis.js:30-37 | an accepted token reply has status 200 and yields a non-empty token; a rejected one yields a RadarException with a non-empty message |
| `Cedexis.ListOutcome` | cedexis.js:50-58 | an accepted listing has status 200 and a body; with a filter the result is an array no longer than the listed one; every failure carries a non-empty message |
| `Cedexis.UpdateOutcome` | cedexis.js:71-77 | an accepted update has status 200 and yields the reply body itself; a failure is a RadarException with a non-empty message |
| `Cedexis.TokenFormAmpersand` | cedexis.js:23 | the form is not escaped: a secret holding one '&' reads back as four fields instead of three |
| `Cedexis.TokenOutcomeAsWritten` | cedexis.js:30-37 | the token callback as written: rejections throw the ReferenceError of the unqualified `setErrorMessage` call, so no RadarException ever reaches the caller |
| `Cedexis.ListOutcomeAsWritten` | cedexis.js:50-58 | the listing callback as written: the same, for a missing body or a status other than 200 |
| `Cedexis.UpdateOutcomeAsWritten` | cedexis.js:71-77 | the update callback as written: the same, for a missing body or a status other than 200 |
| `Cedexis.UnqualifiedCallPaths` | cedexis.js:30-77 | for every reply, the three callbacks as written accept the same replies with the same values as intended; where the intended code fails with the message chosen by `setErrorMessage`, the code as written throws the ReferenceError |
| `Cedexis.UnqualifiedErrorMessageCall` | cedexis.js:30-37 | for a 401 token reply with a diagnostic, the code as written ends in a ReferenceError; the intended outcome is a RadarException carrying the diagnostic |
| `Arrays.Join` | app.js:67 | `join`: the empty list gives "", otherwise the result starts with the first part and is at least one character per gap between parts long; `SplitJoin` states where the separators are, by splitting the result back into the parts |
| `Arrays.Filter` | cedexis.js:51 | `filter` keeps exactly the elements on which the predicate holds, and never lengthens the list |
| `Arrays.FilterIsSubsequence` | cedexis.js:51 | the filtered list is a subsequence of the listed one (relative order kept) |
| `Arrays.FilterAppend` | cedexis.js:51 | filtering a concatenation is concatenating the filtered parts, so no element moves ahead of an earlier one |
| `Arrays.FilterCount` | cedexis.js:51 | the filtered list holds every copy of each kept value and no copy of a dropped one |
| `Arrays.FilterKeepsMatching` | cedexis.js:51 | when every element matches, the filter returns the list unchanged |
| `Arrays.IndexOf` | app.js:102 | `indexOf` under strict equality: -1 iff the value is absent, otherwise its first position |
| `Arrays.SplitJoin` | app.js:67 | the names joined with ',' split back into the same names when none contains ',' |
| `App.ReportsFailure` | app.js:46-53 | the run exits with an error when it was refused or stopped at a stage, never when every update succeeded, and always when any update failed |
| `App.UsageRejected` | app.js:30-31 | a run is refused when both flags are set or no platform is named; with at most one flag it is refused exactly when no platform is named |
| `App.StartMessage` | app.js:57-68 | the banner starts with "Enabling platforms: " when enabling, else "Disabling platforms: " when disabling, else "No action specified on platforms: " |
| `App.StartMessageParts` | app.js:57-68 | after that prefix, the banner holds the names joined by ',', which split back into the names when none contains ',' |
| `App.NeitherFlagPasses` | app.js:30-34 | a run with platforms and neither flag is not refused by the usage check |
| `App.FilterPlatforms` | app.js:101-103 | a listed platform is kept iff its `name` is one of the names on the command line |
| `App.Patch` | app.js:119-125 | with a `sonarConfig`, `maintenanceMode` becomes the requested state and the config's other fields stay; without one, the platform is unchanged and no config is added; `id`, `name`, `displayName` and the other fields never change |
| `App.PatchIdempotent` | app.js:123-125 | patching twice with the same state is patching once; with two states the second wins |
| `App.UpdatePlatform` | app.js:113-128 | with neither flag, fails with "No update specified" and sends no request; otherwise PUTs the patched platform (state = enable) and returns the update outcome |
| `App.PutsShape` | app.js:113-128 | with a state, one PUT per selected platform, in list order, each carrying the patched record to its own id's endpoint with the token; with no state, none |
| `App.FanOut` | app.js:46-53 | the selected platforms are updated one by one in list order: the requests are exactly the PUTs of `PutsShape`, and the k-th result is the k-th platform's update result (or "No update specified") |
| `App.Run` | app.js:27-55 | refused runs issue no request; the token request comes first; a rejected token stops the run before any listing; listing uses the stored token and the name filter; a failed listing stops the run; otherwise the PUTs follow the token and listing requests, with one result per selected platform in list order; past the usage check the outcome is that of the intended final callback applied to the waterfall's result; once both stages succeed it reports a failure iff some update fails |
| `App.UpdateFailuresReported` | app.js:46-53 | once both stages succeed, the run exits with an error iff some selected platform's update fails: with a flag, iff some update reply is rejected; with neither flag, whenever a platform was selected |
| `App.Waterfall` | app.js:39-42 | the listing is asked for only after the token was accepted; a successful waterfall yields a subsequence of the listed platforms, each named on the command line |
| `App.FinalCallback` | app.js:43-54 | as intended: a failed stage ends the run with that stage's error, which is reported; otherwise there is one update result per selected platform |
| `App.FinalCallbackAsWritten` | app.js:43-54 | as written: the callback always goes on to the fan-out, and a failed stage handed to it is not reported; in the code as written no stage error reaches it, since the unqualified `setErrorMessage` call throws first |
| `App.StageErrorIgnored` | app.js:43-54 | for every run that passes the usage check and whose token or listing request is rejected (a RadarException, once `setErrorMessage` is corrected), the as-written callback updates nothing and reports no failure, while the intended one (the outcome of `Run`) is that stage's error and is reported; every other stage failure is the `TypeError` of an accepted listing that is an object; when both stages succeed the two agree |

## Findings

| source | as written | input that shows it | evidently intended | confidence | as-written member | corrected member |
|---|---|---|---|---|---|---|
| cedexis.js:36 | `setErrorMessage(...)` is called as a free function at cedexis.js:36, 57 and 76, but it is a method of the class, so the engine throws a ReferenceError inside the reply callback | a token reply with status 401 and body `{"developerMessage": "Invalid client"}` | `this.setErrorMessage(...)`: the error carries "Invalid client" | high; not executed | `Cedexis.TokenOutcomeAsWritten` | `Cedexis.TokenOutcome` |
| app.js:43-54 | the final waterfall callback never reads `err`; it passes the undefined `result` to the fan-out, which updates nothing, and "Finished updating platforms" is printed with exit status 0 | with the first finding corrected, a token reply with status 401 and body `{}` | stop the run, report the stage's error and exit non-zero | medium; not executed; it rests on the `async` library finishing an `each` over an undefined collection without error | `App.FinalCallbackAsWritten` | `App.FinalCallback` |

## Left out

- The HTTP transport (`node-rest-client`) and the callbacks. Each reply is a `Reply` input, and each request is returned as a `Request` value.
- The concurrency of `async.each` (app.js:46-53). The model issues the updates one after the other in list order. The source also issues them in that order, since each PUT starts synchronously. Replies may arrive in any order. Which failure message `async.each` prints first is not modelled: `ReportsFailure` only says whether a failure is reported.
- `minimist` parsing and its defaults (app.js:70-99). The parsed options are the `Options` input, and platform names are strings. minimist's conversion of numeric arguments to numbers, which would make such names never match under `indexOf`, is not modelled.
- Console output, verbose logging and `JSON.stringify` (app.js:130-142, cedexis.js:89-102). The banner of line 121 and `process.exit` are also left out. The banner text is `StartMessage`; the exit status is `ReportsFailure`.
- JSON serialisation of the PUT body. The body is the `Platform` value.
- App.Run: `Updated(results)`, the list of one result per selected platform, is collected by the model itself. The source never builds it. Its `async.each` stops at the first failure it sees: it prints that error and exits with status 1. With neither flag this happens at the first platform. With a state, all the PUTs are sent before any reply arrives, and the run ends at the first failed reply. `ReportsFailure` gives the exit status the source would give.
- App.FanOut: the same holds here. The source records no result after the first failure.
- Waterfall: the `TypeError` of a filtered listing that is an object (cedexis.js:51) is thrown inside the transport callback, before either `callback(...)` call, so the final callback never runs and the process ends on the uncaught exception. The model turns it into a failed stage: `Run` ends in `StageFailed(TypeError(...))`, which is reported, as the uncaught exception also ends the run with a non-zero status. `StageErrorIgnored` does not apply its as-written half to it.
- Reply bodies are either a JSON object or a JSON array of platforms. A truthy body of another kind is not modelled: a string, a number, or a Buffer that failed to parse as JSON.
- Platform ids are strings. The source also formats numeric ids into the update URL (cedexis.js:68).
- App.Patch: the source changes the listed record in place. The model returns the patched record as a new value. Each listed record reaches `updatePlatform` exactly once, so no other reference can observe the change.
- Fields of a platform, of its `sonarConfig` and of reply objects other than the ones the code reads are kept as opaque string pairs.
- The `host` getter (cedexis.js:17-19) is the `host` field of `Client`.
