# jx-secret: template helpers and the `edit` command, in Dafny

This project models two sequential pieces of jx-secret, the tool that fills in
missing values of Kubernetes `ExternalSecret` resources.

- **Template evaluation** (`pkg/cmd/populate/templater.go`):
  - `ResolveResourceNames` splits a possibly namespace-qualified name
    `namespace.name`.
  - The fail-soft template functions `secret`, `htpasswdSecret` and `auth` read
    a secret with retry-on-NotFound. They turn every problem into `""`.
  - `EvaluateTemplate` loads the requirements lazily and caches them. It gives
    the requirements map a `storage` placeholder.
- **The `edit` command** (`pkg/cmd/edit/edit.go`): `Run` takes the missing
  properties reported by verification and asks the operator for each value.
  The schema decides how to ask. It builds one editor per backend type and
  writes each key's properties in a single `Write`. The first error ends the run.

Modules:

| file | module | contents |
|---|---|---|
| wrappers.dfy | `Wrappers` | `Option`, `Result`, `Outcome` |
| names.dfy | `Names` | `IndexOf`, `ResolveResourceNames` and its round trip |
| secret_reader.dfy | `SecretReader` | the answer of one `Get`; the retry loop; name resolution + fetch |
| template_funcs.dfy | `TemplateFuncs` | `secret`, `htpasswdSecret`, `auth` |
| evaluate.dfy | `Evaluate` | requirements cache, `storage` injection, `EvaluateTemplate` |
| edit.dfy | `Edit` | `askForSecretValue`, the `Run` loop and its call trace |

Collaborators become parameters:

- The cluster is a function from (namespace, name) to the answers of successive
  `Get` attempts.
- bcrypt is a function from password to `Some(hash)`, or `None` for an error.
- The template engine and the requirements conversion are an `Engine` of three
  functions.
- The requirements loader is the result it would return.
- The `edit` command's collaborators (the schema load outcome, the schema lookup,
  the masked prompt, the editor factory and `Write`) are one `Collaborators`
  value.
- `Run` returns the calls it made to these collaborators, in order, as a
  `trace`. Each call records what its collaborator returned (`AllObserved`).
  The expected calls of a run (`RunTrail`) are the schema load, then for each
  secret in order its factory call when its backend type has no editor yet,
  then the questions and the write of each of its entries. The trace is this
  sequence cut just after its first failed call, or all of it when nothing
  fails. With the schema load and the factory calls set aside, the trace is
  exactly the questions and writes of the entries handled (`Steps` against
  `EntryTrails`).

The model follows the code on these points:

- The `edit` command stops the whole run at the first error, with no per-key
  isolation. A key whose question failed is never written, and no later key is
  handled.
- A `"confirm"` schema kind is not a gap that fails. `askForSecretValue`
  returns `""` with no error and no prompt.
- `auth` does not degrade to `""` when the user or password key is missing. As
  soon as the secret has data it returns `user + ":" + password`, so `":"` when
  both keys are missing.
- The template is parsed before the requirements are loaded. A template that
  does not parse never triggers a load.
- With a schema spec, a prompt error is returned unwrapped (edit.go:172). With
  no spec, it is wrapped with property, key and secret (edit.go:146-149). The
  model keeps both: `PromptFailed` and `EnterFailed`.

## Model

| member | source | states |
|---|---|---|
| `Names.IndexOf` | pkg/cmd/populate/templater.go:163 | the index of the first occurrence of the separator, or -1 exactly when it does not occur |
| `Names.ResolveResourceNames` | pkg/cmd/populate/templater.go:162-168 | a dot-free name resolves to itself in the current namespace; otherwise the namespace has no `.` and `namespace + "." + local` rebuilds the name |
| `Names.QualifiedRoundTrip` | pkg/cmd/populate/templater.go:163-167 | resolving `ns + "." + local` with a dot-free `ns` gives back `(local, ns)`, even when `local` contains dots |
| `Names.ResolutionIsUnique` | pkg/cmd/populate/templater.go:163-167 | any dot-free namespace and local name that rebuild the name are exactly the resolver's answer |
| `SecretReader.FetchWithRetry` | pkg/cmd/populate/templater.go:38-40 | retries only while the answer is NotFound; stops at the first success or other error; ends NotFound exactly when every allowed attempt was NotFound |
| `SecretReader.FetchServed` | pkg/cmd/populate/templater.go:38-40 | the retries settle on the first answer that is not NotFound, when one exists among the allowed attempts; a result other than NotFound is always such an answer |
| `SecretReader.Lookup` | pkg/cmd/populate/templater.go:30-40 | an unqualified name is fetched from the current namespace |
| `SecretReader.LookupQualified` | pkg/cmd/populate/templater.go:57-67 | `ns.local` is fetched as `local` in namespace `ns`, whatever the current namespace |
| `TemplateFuncs.Get` | pkg/cmd/populate/templater.go:47 | the value under a present data key; "" for a missing key |
| `TemplateFuncs.Secret` | pkg/cmd/populate/templater.go:28-50 | the `secret` helper resolves the name, and its value is read off the first answer that is not NotFound; a non-empty value comes from a secret that has data |
| `TemplateFuncs.HtpasswdSecret` | pkg/cmd/populate/templater.go:55-99 | the `htpasswdSecret` helper resolves the name, and its value is the htpasswd line of the first answer that is not NotFound; a non-empty value comes from a secret whose credentials are usable |
| `TemplateFuncs.Auth` | pkg/cmd/populate/templater.go:104-127 | the `auth` helper resolves the name, and its value is the `user:password` of the first answer that is not NotFound; a non-empty value comes from a secret that has data |
| `TemplateFuncs.SecretValue` | pkg/cmd/populate/templater.go:41-49 | the value under the key when the secret has data; "" on other errors, NotFound, nil data or a missing key; a non-empty result always comes from the key |
| `TemplateFuncs.SecretReadsQualifiedName` | pkg/cmd/populate/templater.go:28-50 | `secret "ns.name" key` reads `key` of secret `name` in namespace `ns` |
| `TemplateFuncs.AbsentSecretDegradesToEmpty` | pkg/cmd/populate/templater.go:38-49 | a secret NotFound through every retry makes `secret`, `htpasswdSecret` and `auth` yield "" rather than fail |
| `TemplateFuncs.HtpasswdValue` | pkg/cmd/populate/templater.go:69-98 | "" on other errors, absent or nil data, empty username, username with `:`, empty password or hash error; otherwise exactly `username:hash(password)`; non-empty exactly when the credentials are usable |
| `TemplateFuncs.HtpasswdLineSplits` | pkg/cmd/populate/templater.go:82-98 | the htpasswd line splits at its first `:` into the username and the hash |
| `TemplateFuncs.AuthValue` | pkg/cmd/populate/templater.go:118-126 | with non-nil data exactly `data[user] + ":" + data[password]` (":" when both are missing); "" exactly when no data was read |
| `TemplateFuncs.AuthSplits` | pkg/cmd/populate/templater.go:124 | when the user name has no `:`, the `auth` value splits back into user name and password |
| `Evaluate.EnsureRequirements` | pkg/cmd/populate/templater.go:134-141 | loads only when nothing is cached; a failed load returns the load error and leaves the cache unset; a successful one sets the cache to what was loaded; a cached value is never replaced |
| `Evaluate.WithStorage` | pkg/cmd/populate/templater.go:146-148 | the map gets a non-null `storage` entry (an empty map when it was missing or null); an existing non-null `storage` and every other key are unchanged |
| `Evaluate.WithStorageIdempotent` | pkg/cmd/populate/templater.go:146-148 | injecting the placeholder twice equals injecting it once |
| `Evaluate.TemplateData` | pkg/cmd/populate/templater.go:146-151 | the template sees one key, `Requirements`, holding the requirements map: every key of the converted requirements plus `storage`, every other key with its value unchanged, `storage` non-null and kept when it already was |
| `Evaluate.EvaluateTemplate` | pkg/cmd/populate/templater.go:129-158 | a parse error fails before any load and leaves the state unchanged; the loader runs exactly when the template parses and nothing is cached, and a successful load stays cached even when conversion or execution then fails; an evaluation that leaves the cache unset failed; with the requirements available, a conversion error gives `ToMapFailed` carrying those requirements and the cause, an execution error gives `ExecFailed`, and otherwise the result is exactly the engine's output over the converted requirements with `storage` injected |
| `Evaluate.CachedNeverReloads` | pkg/cmd/populate/templater.go:134-141 | once requirements are cached, no later evaluation loads them and the cache keeps its value |
| `Evaluate.LoadedAtMostOnce` | pkg/cmd/populate/templater.go:134-141 | over any run of evaluations the requirements are loaded successfully at most once |
| `Edit.AskForSecretValue` | pkg/cmd/edit/edit.go:135-175 | the schema lookup is the first call; at most one prompt follows, and only after a lookup that succeeded; the question fails exactly when its last call failed; a success is the prompt's answer, or "" when nothing was prompted |
| `Edit.AskForSecretValueCases` | pkg/cmd/edit/edit.go:140-174 | a lookup error fails with no prompt; no spec prompts once with `key.property` and empty help, and a prompt error is wrapped with property, key and secret; kind "confirm" answers "" with no prompt; any other kind prompts once with the spec's question and help, and a prompt error is passed through unwrapped |
| `Edit.PropertyMessageSplits` | pkg/cmd/edit/edit.go:131-133 | the generic prompt has empty help, and its message is the key, a `.` and the property, so it splits at its first `.` back into both when the key has no `.` |
| `Edit.Batch` | pkg/cmd/edit/edit.go:105-119 | the batch has the entry's key and one value per property, each paired with its property in the entry's order; when every question was answered, each value is the answer to that property's question |
| `Edit.FirstFailed` | pkg/cmd/edit/edit.go:108-113 | the questions before the returned index were all answered and the one at it failed; it equals the number of properties exactly when every question was answered |
| `Edit.AskProperties` | pkg/cmd/edit/edit.go:108-119 | asks the properties in order: the calls are each property's lookup and prompt, up to and including the first failing question; succeeds exactly when every question was answered, and then yields the batch's values; on error the last call is the only failure and the error names the property whose question failed, with key, secret and cause |
| `Edit.HandleEntry` | pkg/cmd/edit/edit.go:104-125 | the trace grows by exactly the entry's questions in order and then, when all were answered, one `Write` of the full batch through the cached editor of its type, recording what that write returned; a failed question writes nothing, ends the trace and its error names the property; a failed write is reported with the batch and secret |
| `Edit.EntryTrailsKept` | pkg/cmd/edit/edit.go:91-98 | caching the editor of a new backend type does not change the expected calls of entries whose types were already cached |
| `Edit.TrackedMemoized` | pkg/cmd/edit/edit.go:91-121 | a trace whose factory calls are recorded per type gives one factory call per type, a cache holding what the factory built, writes through the cached editor, and each type's factory call before its writes |
| `Edit.StoppedMemoized` | pkg/cmd/edit/edit.go:91-121 | the same for a trace whose last call failed: a failed factory call was for an uncached type and a failed write used the cached editor, so the cache and ordering facts still hold and the trace has a failure |
| `Edit.ErrorAfter` | pkg/cmd/edit/edit.go:95-124 | the run's error matches its last call: a failed factory call gives `EditorFailed` with the secret's name; a failed write gives `WriteFailed` with the batch and secret of the last entry written; a failed schema lookup or prompt gives `AskFailed` |
| `Edit.HandleNext` | pkg/cmd/edit/edit.go:104-126 | the trace grows by exactly the entry's expected calls: its questions in order, then its `Write` through the cached editor when all were answered; the handled entries grow by it, or the run stops at that entry with its position among all entries and the error its last call calls for |
| `Edit.EditorFor` | pkg/cmd/edit/edit.go:89-99 | a cached editor of the secret's backend type is reused with no factory call; otherwise the factory is called once, for the secret, and its editor cached; a factory error stops the run with the secret's name and the factory's error, and nothing cached |
| `Edit.SecretEditor` | pkg/cmd/edit/edit.go:89-99 | the trace grows by exactly one factory call, for this secret, when its backend type has no editor, and by nothing otherwise; the cache gains the factory's editor for a new type when the factory succeeds and is otherwise unchanged; the entries handled so far stay handled; an error happens only for an uncached type whose factory failed, and it is `EditorFailed` with the secret's name and the factory's error |
| `Edit.HandleSecret` | pkg/cmd/edit/edit.go:89-127 | starting from the cache the earlier secrets built, it leaves the cache this secret builds; on success the trace grows by exactly the secret's expected calls (its factory call when its type has no editor yet, then each entry's questions and write) and all its entries are handled; on error the trace grows by a prefix of those calls, the run stops at the entry that failed, and the error is the one its last call calls for |
| `Edit.HandleEntries` | pkg/cmd/edit/edit.go:104-126 | through the cached editor of the secret's type, on success the trace grows by exactly each entry's questions and write in order and every entry of the secret is handled; on error by a prefix of those calls, stopping at the entry that failed with the error its last call calls for |
| `Edit.HandleAll` | pkg/cmd/edit/edit.go:88-128 | starting from an empty cache, on success the trace grows by exactly every secret's expected calls in order, the cache is the one the factory calls built, and every entry of every secret was answered; on error the trace grows by a prefix of those calls, the last call is the only failure, and the error is the one that call calls for |
| `Edit.Run` | pkg/cmd/edit/edit.go:65-129 | a verify failure returns an error with no calls; no results succeeds with no calls; otherwise the trace is a prefix of the expected run: the schema load, then for each secret in order its factory call when its type has no editor yet, then each entry's questions and write; a failed load returns `SchemaLoadFailed` with that call alone; success means the whole expected run was made, every key was written and the cache holds the factory's editor of each type; an error means the last call failed and was the only failure, and the error is `EditorFailed`, `WriteFailed` with the last written entry's batch and secret, or `AskFailed` naming the property of the first unwritten key whose question failed; every call records what its collaborator returned, and the factory runs at most once per backend type, before every write of that type |
| `Edit.FirstFailureUnique` | pkg/cmd/edit/edit.go:88-128 | two traces that follow the expected run and each stop at their only failure are the same trace, so the prefix `Run` makes is determined |
| `Edit.FirstFactoryFailureEndsRun` | pkg/cmd/edit/edit.go:84-97 | when the schema loads and the factory fails for the first secret, a run that stops at its first failure made exactly the schema load and that factory call |

## Left out

- Go's `text/template` parsing and execution, the `missingkey=error` option and
  the sprig function map (templater.go:23, 129-132, 153-158) are a foreign
  engine. `Engine.parse` and `Engine.execute` stand for them. Registering the
  helper functions with the engine is therefore not modelled; `Secret`,
  `HtpasswdSecret` and `Auth` are what the engine would call.
- `EvaluateTemplate` has no namespace parameter. In the source the namespace
  is used only by the helper functions, which take it themselves here.
- bcrypt (templater.go:93) is the `hash` parameter. Its random salt and cost
  are folded into that function, so one password always hashes to one value.
- The Kubernetes client, the backoff timing and `context` (templater.go:34,
  38) are not modelled. The number of attempts allowed is the length of the
  answers sequence, at least one. client-go's default backoff policy is not
  part of this model.
- Loading the requirements file and `ToMap` (templater.go:136, 142),
  `schema.LoadSchema` (edit.go:84), `schema.FindObjectProperty` (edit.go:140)
  and `Verify` (edit.go:67) are value-or-error parameters.
- `factory.NewEditor` and the editors' `Write` are functions of their
  arguments. Their implementations are not part of this model. A factory that
  returns a nil editor with no error is not modelled.
- Edit.Run: the collaborators are deterministic functions of their arguments.
  For example, asking the same question twice gets the same answer. Because of
  this, the contract can name each written value as the answer
  `AskForSecretValue` gives. A real operator could answer a repeated question
  differently.
- Edit.Run: the assignments to `o.Results`, `o.Schema` and `o.Input`
  (edit.go:71, 78-80, 84) are not modelled, and neither are the Cobra command
  and its flags (edit.go:46-62).
- Logging, colour output and the warning for the `"confirm"` kind are not
  modelled. Error messages are modelled as error constructors that carry the
  context the source wraps them with (the requirements for `ToMapFailed`, the
  batch and secret for `WriteFailed`, and so on), not as text.
- Names.ResolveResourceNames: strings are sequences of characters, whereas
  Go indexes bytes. The separators `.` and `:` are single ASCII bytes, so the
  split falls at the same place.
- Numbers and booleans of the converted requirements are folded into the
  `Text` case of `Value`. The evaluator only tests whether `storage` is nil, and
  the engine that reads the values is not part of this model.
- Secret data values are `[]byte` in Go and strings here. Only their string
  conversion is used in the source.
