# wolkenkit-depot-file: getApp in Dafny

This project models `getApp` from `lib/getApp.js`. `getApp` is the only logic the blob depot owns.
It does two things:

1. It checks the options in a fixed order: the options object, `directory`, `identityProvider`,
   `identityProvider.name`, `identityProvider.certificate`. It throws a distinct error for the
   first check that fails.
2. Once all checks pass, it builds an Express application. The application's middleware stack
   is CORS, then limes' token verification (configured with the provider name and certificate),
   then datendepot's blob storage (configured with storage kind `'File'` and the directory).

Modules:

- `Wrappers` (`wrappers.dfy`): `Option` and `Result`. A thrown `Error` becomes `Failure`.
- `Options` (`options.dfy`): JavaScript values and truthiness (`!x`), the options record, and
  the five errors with their exact messages. `Validate` is the guard chain. `Present` is an
  independent statement of each condition, and the lemmas relate the two.
- `Express` (`express.dfy`): the middleware stack as a class `App`, whose field `stack` is a
  `seq` that `Use` appends to, plus request dispatch. `Handle` is a loop. `RunFrom` specifies it
  forwards. `Reaches` gives an independent backward account of which request each middleware is
  called with. What each middleware does is a function value in `Behaviour`, so the model
  leaves it uninterpreted.
- `Depot` (`depot.dfy`): `GetApp`, the pipeline it installs, and the properties of that
  pipeline. For example, a request the verifier rejects never reaches storage.

Some values are parameters rather than part of the model: the option values and the behaviour of
each middleware. In the source, `app.js` takes the option values from environment variables, and
the unit tests pass a certificate read into a Buffer with `readFileSync`.

## Model

| member | source | states |
|---|---|---|
| `Options.Validate` | lib/getApp.js:8-23 | Succeeds exactly when all five options are present and truthy. Otherwise fails with the first failing guard in the order options, directory, identityProvider, name, certificate. On success, the config holds the given directory, name and certificate unchanged. |
| `Options.FirstFailingGuard` | lib/getApp.js:9-23 | `Validate` fails with error `e` if and only if `e`'s option is missing and every option checked before it is present. |
| `Options.MessagesDistinct` | lib/getApp.js:10-22 | The five error messages are pairwise distinct, so each message identifies its guard. |
| `Options.NoOptions` | lib/getApp.js:9-11 | Without options, the result is "Options are missing." and nothing else is checked. |
| `Options.DirectoryCheckedBeforeProvider` | lib/getApp.js:12-14 | A falsy directory gives "Directory is missing." whatever the identity provider is. |
| `Options.ProviderMissing` | lib/getApp.js:15-17 | A directory but no identity provider gives "Identity provider is missing.". |
| `Options.NameCheckedBeforeCertificate` | lib/getApp.js:18-20 | A falsy provider name gives the name error whatever the certificate is. |
| `Options.CertificateMissing` | lib/getApp.js:21-23 | Everything present except a truthy certificate gives the certificate error. |
| `Express.App.constructor` | lib/getApp.js:30 | `express()` starts with an empty middleware stack. |
| `Express.App.Use` | lib/getApp.js:32-39 | `app.use(m)` appends `m` after everything installed so far. |
| `Express.App.Handle` | lib/getApp.js:32-39 | Dispatching a request through the installed stack gives `Run(stack, …)`: the first middleware that answers, or none. |
| `Express.RunFrom` | lib/getApp.js:32-39 | Any answering middleware lies in the part of the stack still to be run. |
| `Express.EarlierStagesPassed` | lib/getApp.js:32-39 | If a middleware is called, every earlier one was called and called `next`. |
| `Express.RunFromReached` | lib/getApp.js:32-39 | Dispatch resumed at a middleware that is called gives the outcome of the whole dispatch. |
| `Express.HaltingStageAnswers` | lib/getApp.js:32-39 | If a called middleware answers, its answer is sent and no later middleware is called. |
| `Express.ResponseFromReachedStage` | lib/getApp.js:32-39 | Every answer comes from a middleware that was called and chose to answer. |
| `Depot.GetApp` | lib/getApp.js:8-42 | Throws the first guard's message exactly when `Validate` fails. Otherwise returns a new app whose stack is exactly CORS, verifier, storage, configured from the options. |
| `Depot.ConfigurationPassedThrough` | lib/getApp.js:25-39 | On valid options, the verifier gets exactly the given name and certificate, storage gets `'File'` and exactly the given directory, and the stages come in the order CORS, verifier, storage. |
| `Depot.CorsSeesEveryRequest` | lib/getApp.js:32 | CORS is called first, with the request as it arrived. If CORS answers (a preflight, for example), its answer is the dispatch outcome and neither the verifier nor storage is called. |
| `Depot.RejectedRequestNeverStored` | lib/getApp.js:33-39 | A request the verifier answers never reaches storage, and the verifier's answer is the response. |
| `Depot.StorageSeesOnlyVerifiedRequests` | lib/getApp.js:33-39 | Storage is called only with the exact request that the verifier (configured with the given provider) passed to `next`. |
| `Depot.StorageAnswersOnlyVerifiedRequests` | lib/getApp.js:33-39 | Any answer that storage sends is for a request the verifier let through. |

## Left out

- `app.js`: it reads environment variables and key files, starts the HTTPS/SPDY server and the status server. All of that is process start-up and I/O.
- The internals of limes' token verification (signature, issuer and expiry checks) are not modelled. Limes is a foreign package not part of this model, so its verifier is an uninterpreted function in `Behaviour`.
- The internals of datendepot are not modelled. This covers uuid ids, id-shape validation (400 vs 404), file persistence, MIME sniffing (`image/png` vs `application/octet-stream`) and the status mapping that the app tests exercise. Datendepot is a foreign package not part of this model, so its storage is an uninterpreted function.
- The `cors` middleware internals are left uninterpreted for the same reason.
- Express gives every middleware one shared, mutable response object, and the model does not capture it. Headers that an earlier middleware sets before calling `next` (such as the Access-Control-* headers that `cors()` adds) are not part of `Outcome.response`. So `HaltingStageAnswers` and `RejectedRequestNeverStored` say which middleware decides the response, not the full header set sent. The model also cannot state that the CORS policy reaches every response.
- `Depot.GetApp` treats the factories `express()`, `cors()`, `new Limes(...)` and `datendepot(...)` as never throwing. That assumption is why it fails exactly when `Validate` fails.
- What Express does with a request that no middleware answers (its default 404 handler) is not modelled; the model reports it as `Unhandled`.
- Express' internal middleware, its routing and any middleware that throws or calls `next(err)` are not modelled.
- JavaScript numbers (and NaN or -0 as falsy values) are not among the modelled option values. Nor are non-object truthy values given as `options` or `identityProvider`, such as a non-empty string: reading `.name` from one yields `undefined`. Such a provider is modelled only through the `None`/present split.
- Asynchronous request handling and concurrency between requests are not modelled. Dispatch is sequential per request.
