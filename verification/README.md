# UI5 deployer core — a Dafny model

This project models the decision core of `ui5-nwabap-deployer-core`, the
function `deployUI5toNWABAP` that uploads UI5 build artifacts into a BSP
container of an SAP NetWeaver ABAP system. Before anything is uploaded it
applies defaults to the options, validates them, marks each file as binary
or text, and obtains a transport request. A transport is taken as given, found
by user match, or newly created. The file store is then synchronised once
with that transport number.

The transport manager (`determineExistingTransport`, `createTransport`) and
the file store (`syncFiles`) are oracles. Their outcomes are inputs
(`LookupResult`, `CreateResult`, `SyncResult`). A deployment is a pure
function `Deployer.Deploy` that returns the errors logged, the trace of
collaborator calls in order, and the outcome.

Modules, one per concern:

- `JsValues` (`js_values.dfy`): JavaScript values and the truthiness test (`!x`, `!!x`). It also holds `toUpperCase` and `lastIndexOf`.
- `DeployOptions` (`options.dfy`): the caller's options, the defaults (language `"EN"`, `useStrictSSL` when the key is absent), and the normalised file-store options.
- `Validation` (`validation.dfy`): `checkOptions` with its five checks, and the namespace stripping of the BSP container name.
- `Files` (`files.dfy`): binary classification. The content sniffer is a parameter.
- `Deployer` (`deployer.dfy`): `syncFiles`, `uploadWithTransportUserMatch`, the transport branch and the entry point.
- `DeployProperties` (`deploy_properties.dfy`): properties of whole deployments.

Options are untyped JavaScript objects, so every field that the code tests by
truthiness, by `=== true`, by `=== undefined` or by `typeof` is a `JsValue`.
That keeps apart the cases the code treats differently. One example is a
transport number that is `""` or `null`. The validator treats it as missing
(`!transportno`). The transport branch treats it as given (`=== undefined`
is false). So the deployment syncs directly with that value.

Three behaviours of the code are worth knowing:

- After a failed user match, the fallback creation reads the transport text from the file-store options (line 91). Those options never get a transport text (lines 163-173), so the transport is created with an `undefined` description. The create-only path passes the caller's text (line 188).
- The code accepts a configuration with at least one transport source (lines 26-27): a number, `create_transport`, or user match. Several at once are allowed, and the transport branch then prefers a given number, then user match, then creation.
- Past validation, only a file-store error is logged (line 58). Lookup errors, creation errors and "no transport found" are passed to the caller without a log entry (lines 77-79, 92-94, 106-108).

The length check on the BSP container counts only the part after the last
`/`, and it rejects only more than 15 characters (line 38).
`/NS/TOOLONGNAME1234` has a 15-character suffix and passes
(`Validation.BspContainerOfFifteenPasses`); `/NS/TOOLONGNAME12345` fails
(`Validation.BspContainerOfSixteenFails`).

## Model

| member | source | states |
|---|---|---|
| `JsValues.ToUpperCase` | packages/ui5-nwabap-deployer-core/lib/ui5-nwabap-deployer-core.js:164 | upper-casing keeps the length and maps each character to its upper-case form |
| `JsValues.ToUpperCaseNormalises` | packages/ui5-nwabap-deployer-core/lib/ui5-nwabap-deployer-core.js:164 | an upper-cased language has no lower-case letter; upper-casing is idempotent; it leaves exactly the upper-case strings unchanged |
| `JsValues.LastIndexOf` | packages/ui5-nwabap-deployer-core/lib/ui5-nwabap-deployer-core.js:37 | the result is -1 or a position holding the character, and no later position holds it |
| `DeployOptions.Adapt` | packages/ui5-nwabap-deployer-core/lib/ui5-nwabap-deployer-core.js:122-132 | a falsy language becomes "EN" and a truthy one is kept; `useStrictSSL` becomes true only when the key is absent; nothing else changes |
| `DeployOptions.AdaptIdempotent` | packages/ui5-nwabap-deployer-core/lib/ui5-nwabap-deployer-core.js:122-132 | applying the defaults twice is the same as once |
| `DeployOptions.Normalize` | packages/ui5-nwabap-deployer-core/lib/ui5-nwabap-deployer-core.js:152-174 | language is the upper-cased input or "EN"; `useStrictSSL` is true when absent, otherwise unchanged; the four flags are the truthiness of the inputs; transport number, package and BSP container fields and the connection and credentials are copied unchanged |
| `DeployOptions.FileStoreOptions.WithTransport` | packages/ui5-nwabap-deployer-core/lib/ui5-nwabap-deployer-core.js:81 | setting the transport number of the file-store options changes that field to the given value and nothing else |
| `DeployOptions.NormalizeIdempotent` | packages/ui5-nwabap-deployer-core/lib/ui5-nwabap-deployer-core.js:152-174 | options that normalisation produced are unchanged when normalised again |
| `Validation.StripNamespace` | packages/ui5-nwabap-deployer-core/lib/ui5-nwabap-deployer-core.js:37 | the result is the suffix of the name after the last `/` (the whole name when there is none): it has no `/` and is preceded by a `/` or by nothing |
| `Validation.StripNamespaceAt` | packages/ui5-nwabap-deployer-core/lib/ui5-nwabap-deployer-core.js:37 | a name whose last `/` is at position k loses exactly its first k+1 characters; a name without `/` is kept whole |
| `Validation.BspContainerLengthIgnoresNamespace` | packages/ui5-nwabap-deployer-core/lib/ui5-nwabap-deployer-core.js:37-41 | a name qualified by a namespace fails the length check exactly when the part after the last `/` has more than 15 characters; an unqualified name fails exactly when it has more than 15 |
| `Validation.BspContainerOfFifteenPasses` | packages/ui5-nwabap-deployer-core/lib/ui5-nwabap-deployer-core.js:37-41 | `/NS/TOOLONGNAME1234`, with 15 characters after the namespace, passes the length check |
| `Validation.BspContainerOfSixteenFails` | packages/ui5-nwabap-deployer-core/lib/ui5-nwabap-deployer-core.js:37-41 | `/NS/TOOLONGNAME12345`, with 16 characters after the namespace, fails the length check |
| `Validation.UnqualifiedBspContainerOfSixteenFails` | packages/ui5-nwabap-deployer-core/lib/ui5-nwabap-deployer-core.js:37-41 | `TOOLONGNAME12345`, 16 characters without a namespace, fails the length check |
| `Validation.RunChecks` | packages/ui5-nwabap-deployer-core/lib/ui5-nwabap-deployer-core.js:14-43 | running checks without stopping logs exactly the checks that fail, in the order they run |
| `Validation.CheckOptions` | packages/ui5-nwabap-deployer-core/lib/ui5-nwabap-deployer-core.js:13-44 | the options pass iff none of the five checks fails iff nothing is logged; a check is logged iff it fails; the log follows check order |
| `Validation.LoggedErrorsCountFailedChecks` | packages/ui5-nwabap-deployer-core/lib/ui5-nwabap-deployer-core.js:13-44 | the number of logged errors equals the number of failing checks |
| `Validation.TransportSourceRequired` | packages/ui5-nwabap-deployer-core/lib/ui5-nwabap-deployer-core.js:26-35 | for a package other than "$TMP", a falsy transport number with neither create nor user match strictly true is rejected; `create_transport === true` with a non-string text is rejected |
| `Files.Classify` | packages/ui5-nwabap-deployer-core/lib/ui5-nwabap-deployer-core.js:144-147 | every file keeps its position, path and content, and is marked binary iff the sniffer says so of its content |
| `Files.ClassifyDependsOnlyOnContent` | packages/ui5-nwabap-deployer-core/lib/ui5-nwabap-deployer-core.js:144-147 | file lists that differ only in their marks classify alike, so classifying twice changes nothing |
| `Deployer.SyncFiles` | packages/ui5-nwabap-deployer-core/lib/ui5-nwabap-deployer-core.js:52-65 | one call to the file store with the given options and files; success iff the store reports none; a store error is logged once and passed on unchanged; nothing is logged on success |
| `Deployer.SyncAfter` | packages/ui5-nwabap-deployer-core/lib/ui5-nwabap-deployer-core.js:81-83 | after calls that succeeded, one call to the file store with the given transport number set; success iff the store reports none; only a store error is logged |
| `Deployer.UploadWithTransportUserMatch` | packages/ui5-nwabap-deployer-core/lib/ui5-nwabap-deployer-core.js:74-112 | one lookup first; lookup error gives `[Lookup]` and that error; a non-empty number found gives `[Lookup, Sync(number)]`; nothing found without create gives `[Lookup]` and "no transport found"; with create gives `[Lookup, Create(package, undefined)]` then a sync with the new number, or the creation error; only a store error is ever logged |
| `Deployer.CreateAfterNoMatch` | packages/ui5-nwabap-deployer-core/lib/ui5-nwabap-deployer-core.js:90-109 | a creation happens iff the coerced create flag is set, with an `undefined` description; otherwise the run fails with "no transport found"; only a store error is ever logged |
| `Deployer.CreateAndSync` | packages/ui5-nwabap-deployer-core/lib/ui5-nwabap-deployer-core.js:187-204 | one create with the package and the caller's text; a creation error ends the run after it, unlogged; a new number is synced with, and the run succeeds iff the store does |
| `Deployer.AcquireTransportAndSync` | packages/ui5-nwabap-deployer-core/lib/ui5-nwabap-deployer-core.js:176-219 | "$TMP" or a set transport number key gives exactly one sync; otherwise a truthy user-match flag gives the user-match run; otherwise `create_transport === true` gives a create with the caller's text then a sync; otherwise failure with no call; a lookup happens iff user match is taken; every path keeps the call order and stops at the first failure; the only log entry is a store error, so lookup and creation errors and "no transport found" are not logged |
| `Deployer.AcquireUsesResolvedTransport` | packages/ui5-nwabap-deployer-core/lib/ui5-nwabap-deployer-core.js:176-219 | when the file-store options carry the caller's transport number, every sync of the transport branch uses the given number, else the non-empty number user match found, else the number of the created transport (the assignments at lines 81, 96 and 194) |
| `Deployer.TransportAndSync` | packages/ui5-nwabap-deployer-core/lib/ui5-nwabap-deployer-core.js:143-219 | the part of a deployment after validation: never a configuration error, only a store error logged, and every sync made with the normalised options, the resolved transport number and the classified files |
| `Deployer.LogChecks` | packages/ui5-nwabap-deployer-core/lib/ui5-nwabap-deployer-core.js:17-39 | one logged error per failing check, in the order the checks ran |
| `Deployer.Deploy` | packages/ui5-nwabap-deployer-core/lib/ui5-nwabap-deployer-core.js:120-221 | failed validation gives exactly the configuration error, one logged error per failed check and no call; every run has at most one lookup, create and sync in that order, nothing after a failure, and an outcome explained by its last call; after validation passes only a store error is logged, and every sync carries the classified files and the normalised options with the resolved transport number: the given one, else the one user match found, else the created one |
| `DeployProperties.DeployValidated` | packages/ui5-nwabap-deployer-core/lib/ui5-nwabap-deployer-core.js:135-179 | once validation passes, the language is usable and credentials are present, and the deployment is the transport branch run with the defaulted options, the normalised file-store options and the classified files |
| `DeployProperties.RankIncreasing` | packages/ui5-nwabap-deployer-core/lib/ui5-nwabap-deployer-core.js:176-219 | in a trace in call order every later call outranks every earlier one, not only its neighbour |
| `DeployProperties.OrderedCallsSyncLast` | packages/ui5-nwabap-deployer-core/lib/ui5-nwabap-deployer-core.js:176-219 | a trace in call order has at most three calls and at most one sync, which is the last call |
| `DeployProperties.ExactlyOneSyncOnSuccess` | packages/ui5-nwabap-deployer-core/lib/ui5-nwabap-deployer-core.js:176-219 | a successful deployment made exactly one sync, as the last call, which succeeded; a failure other than a sync error made no sync |
| `DeployProperties.WellBehavedSyncs` | packages/ui5-nwabap-deployer-core/lib/ui5-nwabap-deployer-core.js:52-112 | any trace in call order that stops at the first failure and whose outcome its last call explains has at most one sync; on success exactly one, as the last call; on a failure other than a sync error none |
| `DeployProperties.DirectSyncWhenTransportGiven` | packages/ui5-nwabap-deployer-core/lib/ui5-nwabap-deployer-core.js:176-218 | for "$TMP" or a set transport number key, a valid configuration gives exactly one sync carrying the given transport number, and success iff that sync succeeds |
| `DeployProperties.ExplicitTransportRoundTrip` | packages/ui5-nwabap-deployer-core/lib/ui5-nwabap-deployer-core.js:143-218 | with an explicit transport number the single call is a sync carrying exactly that number and the caller's files with paths and contents unchanged |
| `DeployProperties.EmptyTransportNumberSkipsCreation` | packages/ui5-nwabap-deployer-core/lib/ui5-nwabap-deployer-core.js:26-176 | an empty transport number with `create_transport` passes validation (line 26 tests falsiness) and then syncs directly with "" without creating a transport (line 176 tests `=== undefined`) |
| `DeployProperties.DefaultsDoNotAffectChecks` | packages/ui5-nwabap-deployer-core/lib/ui5-nwabap-deployer-core.js:126-135 | the defaults applied before validation (language, `useStrictSSL`) change neither which checks fail nor what is logged |
| `DeployProperties.LocalPackageNeverContactsTransportManager` | packages/ui5-nwabap-deployer-core/lib/ui5-nwabap-deployer-core.js:176 | for package "$TMP" no lookup and no create is ever made |
| `DeployProperties.UserMatchOutcomes` | packages/ui5-nwabap-deployer-core/lib/ui5-nwabap-deployer-core.js:74-111 | in a full deployment with user match: a lookup error gives `[Lookup]` and that error; a found number gives `[Lookup, Sync(number)]`; nothing found without create gives `[Lookup]` and "no transport found" |
| `DeployProperties.UserMatchFallbackCreatesWithoutText` | packages/ui5-nwabap-deployer-core/lib/ui5-nwabap-deployer-core.js:90-105 | user match with nothing found and create set gives lookup, create with an `undefined` description, and sync, in that order; a creation error stops after the create |
| `DeployProperties.UserMatchReachesFallback` | packages/ui5-nwabap-deployer-core/lib/ui5-nwabap-deployer-core.js:74-94 | with user match and a lookup that finds no usable number, the deployment is exactly the creation fallback of user match |
| `DeployProperties.ValidatedCreateHasText` | packages/ui5-nwabap-deployer-core/lib/ui5-nwabap-deployer-core.js:31-34 | options that pass validation with `create_transport === true` carry a string transport text |
| `DeployProperties.CreateOnlyPassesTransportText` | packages/ui5-nwabap-deployer-core/lib/ui5-nwabap-deployer-core.js:187-204 | create without user match passes the caller's transport text, which validation guarantees is a string; it never looks up; a new number is synced with, a creation error stops the run |
| `DeployProperties.NoTransportConfiguredUnreachable` | packages/ui5-nwabap-deployer-core/lib/ui5-nwabap-deployer-core.js:205-208 | after validation passes, the "no transport configured" failure never happens |

## Left out

- The transport manager and the file store (HTTP, CSRF tokens, the remote search for a user's transport): they are not part of this model. Their outcomes are oracle inputs, and each is asked at most once. The options passed to the `TransportManager` constructor (line 177) are not modelled.
- The content sniffer `isBinaryFile` (lines 5 and 145) is a function parameter `isBinaryFile`. Its heuristic is not re-derived.
- Promises, callbacks and `await` are modelled as one sequential function. An error value that is itself falsy (`if (oError)`) is not modelled: an oracle error is always an error.
- The verbose logging (lines 141 and 150) and the texts of the error messages are left out. Logged validation errors are identified by their check.
- Aliasing is left out. `Object.assign` (line 124) makes a shallow copy, so the defaults also mutate the caller's `conn` and `ui5` objects. Classification (line 145) mutates the caller's file objects. The model returns new values instead.
- `ui5` and `conn` are records the caller must supply, and `bspcontainer` is a string. The code dereferences them without a guard (lines 26, 37, 130), so these are preconditions by type. As a consequence the `!oOptions.ui5` test of line 21 can never fire in the model.
- `DeployOptions.Normalize` requires credentials to be present and a truthy language to be a string (lines 160 and 164 would throw otherwise). `Deployer.Deploy` asks for the language condition only when validation passes, which is when the code reaches line 164.
- JavaScript numbers are integers in `JsValues.JsValue`: `NaN` and fractions are not modelled. Transport numbers returned by the collaborators are strings.
- JsValues.ToUpperCase: maps only ASCII `a`-`z`. JavaScript's full Unicode case mapping, which can change the length (`ß` to `SS`), is not modelled.
- Validation.StripNamespace: counts length in Unicode characters. JavaScript counts UTF-16 code units, which differs for characters outside the Basic Multilingual Plane.
- The UI5 tooling task in `packages/ui5-task-nwabap-deployer` is left out. It is build-tool glue that reads the environment, the workspace and the file system.
