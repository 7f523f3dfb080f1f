# A verified model of arrange

`arrange` glues Go services together with `go.uber.org/fx`: it builds HTTP servers from options and
middleware, TLS configurations from files, and dependency tags from names, and it ties the life of every
server to the life of the application. This project models that logic in Dafny 4.11 and proves what it is
for. `dafny verify dfyconfig.toml` checks everything.

Code that updates state is modelled as classes, arrays and loops, each method proved against a function on
values; the theorems are then about those functions, over all inputs, all call sequences or all runs.

| file | what it models |
|---|---|
| `GoSlices.dfy` | Go slices: windows into shared arrays, `append` in place when the capacity allows |
| `StructTags.dfy` | the reader of struct tags, `reflect.StructTag.Lookup` |
| `TagBuilders.dfy` | `tagBuilder.go` |
| `Errors.dfy` | error trees, multierr aggregation, `exitCoder.go` |
| `Reflect.dfy`, `Middlewares.dfy`, `Options.dfy`, `ServerOptions.dfy` | defaults for nil values, middleware, options and the options of an `http.Server` |
| `Servers.dfy` | building servers and listeners, external arguments, dependency tags |
| `Lifecycle.dfy` | `ShutdownWhenDone`, and N servers starting, serving and stopping in any interleaving |
| `GoTls.dfy`, `PeerVerifiers.dfy`, `PeerVerifierClients.dfy`, `PeerVerification.dfy`, `PeerVerifyConfigs.dfy`, `TlsConfigs.dfy` | `arrangetls/tls.go` |
| `CpuProfiles.dfy` | the CPU profiler and its file handles |

## Environment

What lies outside the repository is given a stated meaning:

- `multierr.Append`: nil is the identity, aggregates are flattened, a single error stays as it is. `errors.As`
  and `errors.Is` search depth first, an error before what it wraps.
- `http.Server.Serve` always returns an error, and it is `ErrServerClosed` once `Shutdown` was called, even
  before `Serve`. fx runs a stop hook only for a server whose start hook succeeded, and fx only reads the tag
  slices that annotations hand to it.
- Parsing certificates, loading key pairs, reading files, opening listeners and creating servers are arbitrary
  functions that return a value or an error. Peer verifiers may keep state: an answer may depend on all
  verifier calls made before it.
- A Go string is a sequence of Unicode scalar values, that is, valid UTF-8. The escape decoder inside
  `strconv.Unquote` is any function that takes at least two characters, none of them a colon.
- Growing a slice picks any sufficient capacity.

## Where the code and its documentation disagree

The model follows the code.

- A tag reads back as what the builder was asked for exactly when the name has no quote, backslash or newline
  (`TagBuilders.RoundTrip`); the builder accepts every string, a single quote for one
  (`TagBuilders.QuoteExample`).
- The comments on `PeerVerifyConfig` speak of at least one peer certificate (`arrangetls/tls.go:114`,
  `arrangetls/tls.go:122`); the loop requires every raw certificate to pass
  (`TlsConfigs.NewThenVerify`), so one matching and one other certificate are rejected
  (`TlsConfigs.OneMatchIsNotEnough`).
- `ProvideServer` promises to take a `ListenerMiddleware` (`arrangehttp/server.go:169-171`); only a value of the
  bare function type is taken, one of that named type is rejected
  (`Servers.ProviderUsableIff`, `Servers.NamedListenerIsRejected`).
- `AsOption` is declared for all closure types, named ones included (`arrangehttp/option.go:34-38`); an option
  made from a named type panics when it is applied (`Options.AsOptionWorksIff`).
- Staged decoration equals one chain of middleware, whatever stage may come at any point, exactly when no stage
  leaves a nil handler, because the next stage replaces nil by the default mux
  (`ServerOptions.StagesAreOneChainIff`, `ServerOptions.NilMiddlewareBreaksChain`). A nil that one middleware
  hands to the next within a stage does no harm (`ServerOptions.NilInsideAStage`).
- A profiler whose profile cannot be started keeps its file open, and under fx nothing closes it
  (`CpuProfiles.HookLeaksIff`).

## Model

| member | source | states |
|---|---|---|
| TagBuilders.RoundTrip | tagBuilder.go:46-121 | for every sequence of builder calls, the tag of call k reads back as exactly the pairs that call asks for, every other key absent, if and only if the wanted name is free of quotes, backslashes and newlines |
| TagBuilders.StackIsScopes | tagBuilder.go:46-72 | the prefix stack implements scopes: the prefix in force is that of the nearest Push that no Pop has closed, with surplus Pops ignored |
| TagBuilders.TagsGrow | tagBuilder.go:77-121 | tags are only added at the end, one for each call that produces one |
| TagBuilders.QuoteExample | tagBuilder.go:90-98 | the tag for a name that is one quote, backslash or newline does not read back as that name; colons, spaces, dots and a blank name do |
| TagBuilders.QuoteSplitsName | tagBuilder.go:90-98 | a name with a quote in it can print the very tag of an optional name |
| TagBuilders.TagBuilder.Pop | tagBuilder.go:53-60 | clears and drops the top prefix in place, does nothing without one, and leaves all tags and all slices handed out as they were |
| TagBuilders.TagBuilder.WritePrefixedValue | tagBuilder.go:62-72 | writes the value behind its top prefix and a dot, or bare when that prefix is blank or missing |
| TagBuilders.TagBuilder.Name | tagBuilder.go:90-98 | adds the name tag of the prefixed value and keeps every slice handed out |
| TagBuilders.TagBuilder.OptionalName | tagBuilder.go:101-109 | adds the optional name tag of the prefixed value and keeps every slice handed out |
| TagBuilders.TagBuilder.Group | tagBuilder.go:113-121 | adds the group tag of the prefixed value and keeps every slice handed out |
| TagBuilders.TagBuilder.StructTags | tagBuilder.go:127-134 | a new slice that shows the tags |
| TagBuilders.TagBuilder.ParamTags | tagBuilder.go:140-142 | hands out the builder's own slice |
| TagBuilders.StableViews | tagBuilder.go:53-152 | over every run of calls and annotation requests, the slices the builder handed out, one for each request, still show at the end the tags of the calls before the request, although later appends may write into the same array |
| GoSlices.Append | arrangetls/tls.go:60-63 | the built-in append: concatenation; in place exactly when the capacity allows, and then only the spare cells behind the slice change |
| Errors.SearchIsPreOrder | exitCoder.go:62-66 | searching an error tree finds the first code, and any ErrServerClosed, of its depth-first pre-order |
| Errors.ExitCodeOfTree | exitCoder.go:55-77 | the exit code of any error tree is the first code in pre-order, else what the coder says, else 1 |
| Errors.NoErrorCode | exitCoder.go:62-77 | the nil error goes to the coder too, and is 0 without one; exit codes are given to errors only |
| Errors.OutermostWins | exitCoder.go:39-48 | under any layers of UseExitCode and other wrappers, with or without codes of their own, the outermost code wins, and wrapping hides neither a code nor ErrServerClosed |
| Errors.AggregateCode | exitCoder.go:62-77 | the code of an aggregate is that of the first error in it that has one |
| Errors.SinglesInOrder | exitCoder.go:62-66 | error by error: the first one in an aggregate that has a code decides |
| Errors.PartsInOrder | exitCoder.go:62-66 | so does the first part of any other error that wraps a list |
| Errors.AnyPartClosed | arrangehttp/server.go:130 | such an error counts as ErrServerClosed if and only if one of its parts does |
| Errors.ServerExitCode | arrangehttp/server.go:127-136 | with the server's coder the code is 0 if and only if the first code in the tree is 0 or there is none and ErrServerClosed occurs; else, without codes or without an error, 255 |
| Options.Apply | arrangehttp/option.go:24-32 | applying an option in place gives the target, the error and the panic that its nested meaning gives |
| Options.ApplyOptions | arrangehttp/option.go:53-59 | returns the same target, with all options applied and their errors aggregated |
| Options.NestedIsFlat | arrangehttp/option.go:22-32 | any nesting of options does what its leaves do, each once, left to right, errors flattened in order, none skipped because of an earlier failure; only a panic cuts it short |
| Options.LeavesRunInOrder | arrangehttp/option.go:24-28 | what such a pass is, step by step: every leaf runs once, on the target the one before left, whatever errors there were; a panic ends it at once |
| Options.GroupingIrrelevant | arrangehttp/option.go:20-32 | trees with the same leaves give the same target and the same aggregate error |
| Options.OptionsExitCode | arrangehttp/option.go:26-32 | the exit code of applying options is that of the first leaf, in order, whose error carries one |
| Options.AsOptionWorksIff | arrangehttp/option.go:40-51 | an option made from a closure panics when applied if and only if the closure's type is a named one |
| Reflect.Safe | internal/arrangereflect/safe.go:24-39 | the default for no value at all and for a typed nil, and otherwise the candidate, including values without a nil where IsNil panics |
| Middlewares.ApplyMiddleware | arrangehttp/middleware.go:13-19 | the reverse loop is the chain with the first middleware outermost |
| Middlewares.ChainStages | arrangehttp/middleware.go:13-19 | decorating in stages is one chain, later stages outside |
| Middlewares.ExecutesInOrder | arrangehttp/middleware.go:11-12 | middleware runs in the order declared |
| ServerOptions.FoldHandsOn | arrangehttp/serverOption.go:29-63 | the contexts of a fold are handed on from the first function to the last, one by one |
| ServerOptions.BuildConn | arrangehttp/serverOption.go:57-63 | the loop folds the functions left to right, and each context on the way is what the next function makes of the one before |
| ServerOptions.BuildBase | arrangehttp/serverOption.go:29-36 | the same from the background context |
| ServerOptions.ApplyConnContext | arrangehttp/serverOption.go:69-84 | the option's effect on the server: nothing without functions, else the old function first and then the new ones |
| ServerOptions.ApplyBaseContext | arrangehttp/serverOption.go:41-47 | the option's effect on the server: nothing without functions, else the new ones alone |
| ServerOptions.ApplyServerMiddleware | arrangehttp/serverOption.go:96-103 | the option's effect on the server: the defaulted handler, decorated |
| ServerOptions.ApplyingOptions | arrangehttp/option.go:53-59 | options of the package never panic, all take effect, and exactly the errors of invalid ones are reported, in order |
| ServerOptions.ConnContextAddsUp | arrangehttp/serverOption.go:55-85 | for any options on any server, the connection context function is the one it had followed by all functions of all ConnContext options; nil only when there was none and none came |
| ServerOptions.BaseContextReplaces | arrangehttp/serverOption.go:27-48 | for any options on any server, the last non-empty BaseContext option alone decides: its functions hand the background context on from the first to the last |
| ServerOptions.LastSetterWins | arrangehttp/serverOption.go:18-91 | for any options on any server, the last ConnState and the last ErrorLog option decide, the address stays, and a field stays when no option of its kind is there |
| ServerOptions.StagesAreOneChain | arrangehttp/serverOption.go:94-103 | any number of decoration stages, with the nil check each makes, is one flat chain when no stage before the last leaves nil |
| ServerOptions.StageBoundary | arrangehttp/serverOption.go:96-103 | where stages are one chain so far, every possible next stage agrees with the flat chain if and only if no nil handler was left |
| ServerOptions.StagesAreOneChainIff | arrangehttp/serverOption.go:94-103 | for any options on any server: at every point every possible next stage agrees with the flat chain, if and only if no stage leaves a nil handler |
| ServerOptions.NoStageLeavesNil | arrangehttp/serverOption.go:96-103 | without middleware that returns nil no stage leaves nil |
| ServerOptions.NilMiddlewareBreaksChain | arrangehttp/serverOption.go:96-103 | a concrete pair of stages that differs from its flat chain |
| ServerOptions.NilInsideAStage | arrangehttp/serverOption.go:96-103 | a nil between two middlewares of one stage breaks no chain |
| Servers.NewServerCustom | arrangehttp/server.go:57-70 | a failed factory applies nothing; the handler is defaulted; all options; the factory's own option last and only without errors |
| Servers.NewServer | arrangehttp/server.go:105-112 | the external options follow, only without errors |
| Servers.ApplyHeader | arrangehttp/serverFactory.go:99-108 | the configured headers decorate the defaulted handler, or nothing happens |
| Servers.StagedServer | arrangehttp/server.go:57-112 | with any factory, building a server is injected options, the factory's own option, external options, entering each stage only when the one before had no error and no panic, and reporting all errors of the stage that has some |
| Servers.StagedConfigServer | arrangehttp/server.go:57-112 | for the factory of a server configuration the stage in the middle is the header, and without errors the server is one pass over all three |
| Servers.HandlerIsOneChain | arrangehttp/server.go:57-112 | for the factory of a server configuration, when no stage before the last leaves a nil handler, the handler is one chain around the given handler or the default mux: external middleware, then the header, then injected middleware, later options outside |
| Servers.ChainWithoutNil | arrangehttp/server.go:57-112 | the same when no middleware turns a usable handler into nil |
| Servers.ServerChainGoesOnIff | arrangehttp/server.go:57-112 | a whole server whose handler is that chain stays one with every further external middleware option if and only if the handler is usable |
| Servers.NewListener | arrangehttp/listener.go:75-83 | the factory or the default one, its error or its listener decorated |
| Servers.NewProviderListener | arrangehttp/server.go:115-122 | the listener is one chain, external middleware around injected middleware |
| Servers.NewServerProvider | arrangehttp/server.go:85-102 | splits external values by dynamic type and collects the errors in order |
| Servers.SplitIsPartition | arrangehttp/server.go:91-99 | the split loses nothing, invents nothing and keeps the order within each part: merging the parts gives the original list |
| Servers.ProviderUsableIff | arrangehttp/server.go:85-102 | one error without a name and then one for each rejected value, in order and naming its type; usable if and only if the name is there and nothing was rejected |
| Servers.NamedListenerIsRejected | arrangehttp/server.go:91-99 | a ListenerMiddleware is rejected and adds nothing, the same function as a bare value is taken |
| Servers.ServerTags | arrangehttp/server.go:184-206 | the three tag lists that the builder chains produce |
| Servers.NewServerWiring | arrangehttp/server.go:188-192 | each parameter of newServer reads as its documented dependency if and only if the server name needs no quoting |
| Servers.BindServerWiring | arrangehttp/server.go:199-205 | the same for bindServer, across the suspended prefix; its untagged parameters stay untagged |
| Servers.SameComponents | arrangehttp/server.go:188-205 | bindServer asks for the configuration newServer gets and the component newServer provides, whatever the name |
| Servers.KeysAreWired | arrangehttp/server.go:159-205 | the keys counted below are exactly the names and groups that the parameters of newServer and bindServer read as |
| Servers.DependenciesDisjoint | arrangehttp/server.go:159-167 | servers of different names share no dependency |
| Servers.NamesCollideIff | arrangehttp/server.go:159-167 | with the servers' own names counted, keys are shared if and only if the names are equal or one is the other's configuration or handler name |
| Lifecycle.ShutdownWhenDone | shutdownWhenDone.go:21-37 | exactly one shutdown on every way out, a panic included, with the exit code of the returned error, or without one what the coder says of nil, or 0; which tasks return, fail and panic |
| Lifecycle.StartHook | arrangehttp/server.go:146-154 | a goroutine is spawned if and only if the listener could be opened |
| Lifecycle.ServeGoroutine | arrangehttp/server.go:126-141 | the goroutine sends the exit code of what Serve returned |
| Lifecycle.EveryRunTellsTheStory | arrangehttp/server.go:126-157 | in every interleaving of N servers each has at most one signal, after its Serve returned and with the code of that return; a failed start has no goroutine and no signal |
| Lifecycle.WhatCanHappen | arrangehttp/server.go:126-157 | exactly what can happen next, told by what has happened: start hooks once, Serve entered once, any return at any time until the server is stopped and then ErrServerClosed alone, one signal, and a stop of a started server at any time |
| Lifecycle.StopMeansZero | arrangehttp/server.go:126-157 | when the stop hook ran before Serve returned, even before the goroutine was scheduled, the code is 0 |
| Lifecycle.FailureMeansItsCode | arrangehttp/server.go:126-136 | a server whose Serve failed signals the code its error carries, 0 for ErrServerClosed and otherwise 255 |
| Lifecycle.OrderlyShutdownIsClean | arrangehttp/server.go:124-141 | when no Serve returns before its server is stopped, every signal says 0 |
| Lifecycle.QuietMeansSignalledOnce | arrangehttp/server.go:124-141 | once no goroutine has steps left, every started server has signalled exactly once and no other has |
| Lifecycle.RunsDrain | arrangehttp/server.go:124-157 | after the stop hooks that point can be reached from every reachable state |
| Lifecycle.AnyScheduleDrains | arrangehttp/server.go:124-157 | under any schedule in which no further server starts, stop hooks and failed starts in between included, each goroutine step uses up one of a fixed number of steps |
| Lifecycle.StuckMeansSignalledOnce | arrangehttp/server.go:124-157 | after the stop hooks, a run in which no goroutine can take a step has exactly one signal from every started server and none from the others |
| Lifecycle.StoppedCanProceed | arrangehttp/server.go:126-157 | a stopped server that has not signalled always has a step to take |
| PeerVerifiers.NewPeerVerifiers | arrangetls/tls.go:46-50 | a sequence of the arguments in an array of its own |
| PeerVerifiers.Append | arrangetls/tls.go:57-68 | the concatenation, in an array of its own unless nothing is added; nothing existing is written |
| PeerVerifiers.Extend | arrangetls/tls.go:71-73 | the concatenation of two sequences |
| PeerVerifiers.SetTo | arrangetls/tls.go:105-109 | installs this sequence if and only if there is a configuration and a verifier |
| PeerVerifierClients.ContinueClient | arrangetls/tls.go:39-109 | from any point on, whatever the program does, the sequences made before are still the same and show the same, and the heap shows what the program means on values |
| PeerVerifierClients.StepClient | arrangetls/tls.go:39-109 | one step adds at most one sequence behind those there are, and installs none but one of them |
| PeerVerifierClients.RunClient | arrangetls/tls.go:39-109 | for every program that makes, appends, extends and installs sequences and overwrites its own variadic arrays, the heap always shows immutable sequences |
| PeerVerifierClients.SequencesPersist | arrangetls/tls.go:39-43 | what a program has made never changes, whatever runs afterwards; nor does an installed function |
| PeerVerification.VerifyPeerCertificate | arrangetls/tls.go:78-97 | the nested loops do a flat plan of parses and verifier calls, action by action; call number t shows certificate t / m to verifier t % m, of m verifiers |
| PeerVerification.CheckInContext | arrangetls/tls.go:83-94 | with stateful verifiers: verifier j answers about certificate i after exactly the i * m + j calls before it, in that order; each answer but the last is nil, and the last is the result |
| PeerVerification.ParseInContext | arrangetls/tls.go:83-87 | a certificate parses, or its error is the result |
| PeerVerification.ScheduleIsLexicographic | arrangetls/tls.go:83-94 | the plan has every parse and every pair of certificate and verifier once, in certificate-major order |
| PeerVerification.VerificationStops | arrangetls/tls.go:75-97 | with stateful verifiers too: the plan up to the first failure and no further, whose error is returned, and nil only for the whole plan |
| PeerVerification.StopsDetermines | arrangetls/tls.go:75-97 | that description fixes the error and the calls |
| PeerVerification.AcceptsIff | arrangetls/tls.go:78-97 | stateless verifiers accept if and only if there are none, or every certificate parses and passes all of them |
| PeerVerification.ExtendIsConjunction | arrangetls/tls.go:70-97 | the joined sequence accepts if and only if both parts do, empty parts included |
| PeerVerification.VerdictIsFirstError | arrangetls/tls.go:83-94 | stateless verifiers return the error of the first certificate that has one, of its parse or of the first verifier that complains |
| PeerVerification.ExtendError | arrangetls/tls.go:70-97 | the joined sequence returns the error of the part that fails at the earlier certificate, the first part's at the same one |
| PeerVerifyConfigs.PeerVerifyConfig.Verifier | arrangetls/tls.go:132-151 | nothing without entries; else a closure over fresh copies, suffixes in lower case |
| PeerVerifyConfigs.Verify | arrangetls/tls.go:155-179 | accepts if and only if the closure's copy matches |
| PeerVerifyConfigs.LowerChangesCase | arrangetls/tls.go:139 | lowering changes nothing but case and leaves no capital letter |
| PeerVerifyConfigs.LowerEqualIff | arrangetls/tls.go:158 | lowered strings are equal if and only if the strings differ in ASCII case alone |
| PeerVerifyConfigs.CopyMeansSame | arrangetls/tls.go:132-179 | the copy decides as promised, told character by character: a suffix of a DNS name or of the common name up to case, or an exact common name |
| PeerVerifyConfigs.Apply | arrangetls/tls.go:113-128 | a write into a list of a configuration, a list cut down or stretched over its spare capacity, or new lists do what they mean on values, also when both lists share an array |
| PeerVerifyConfigs.VerifierIsFrozen | arrangetls/tls.go:132-179 | a verifier is made and then the configuration is changed, in its arrays or its fields: the configuration shows every change, the closure shows what was configured before and decides by that |
| PeerVerifyConfigs.CaseAndOrderIrrelevant | arrangetls/tls.go:116-127 | order, repetition and case of suffixes and DNS names make no difference |
| PeerVerifyConfigs.OnlyCaseIsOverlooked | arrangetls/tls.go:156-169 | of names as long as a suffix, exactly those are accepted that differ from it in case alone |
| PeerVerifyConfigs.MoreEntriesAcceptMore | arrangetls/tls.go:111-112 | more entries never make a certificate fail |
| PeerVerifyConfigs.BlankEntries | arrangetls/tls.go:156-177 | a blank suffix accepts every certificate, and a certificate without names is accepted if and only if there is a blank entry |
| TlsConfigs.AppendCertificates | arrangetls/tls.go:202-237 | appends one key pair for each entry before the first that fails, made from that entry's certificate file and key file, and returns that entry's error |
| TlsConfigs.CertificatesErrorIs | arrangetls/tls.go:202-237 | the entries before the first bad one each make a key pair of their certificate file and their key file; the error is that a name is missing, or that of the same call |
| TlsConfigs.AppendToPool | arrangetls/tls.go:256-272 | exactly the certificates of the files before the first that fails, their number, and its error |
| TlsConfigs.PoolMembers | arrangetls/tls.go:256-272 | which are the certificates found in one of those files |
| TlsConfigs.PoolErrorIs | arrangetls/tls.go:256-272 | the files before the first bad one each have certificates; the error is that of reading it, or that it has none |
| TlsConfigs.AppendConfigured | arrangetls/tls.go:184-192 | adds one verifier if and only if the configuration is there and has an entry |
| TlsConfigs.EnforceVersions | arrangetls/tls.go:322-336 | an unset minimum becomes TLS 1.3, a set maximum below the minimum is raised to it |
| TlsConfigs.VersionsUsable | arrangetls/tls.go:322-336 | without a minimum it is TLS 1.3, a minimum that is set stays; the maximum is unset or at least the minimum, and changes only when it was set and below |
| TlsConfigs.LoadCertificates | arrangetls/tls.go:347-377 | the first error of certificates, root pool and client pool, or everything loaded |
| TlsConfigs.FirstErrorIs | arrangetls/tls.go:347-377 | entry by entry and file by file, which error that is, and when there is none |
| TlsConfigs.PoolOfMeans | arrangetls/tls.go:354-371 | a pool is there if and only if files are named, and holds exactly the certificates in them |
| TlsConfigs.InstallVerifiers | arrangetls/tls.go:339-344 | the configured verifier before the extra ones, and no function without any |
| TlsConfigs.New | arrangetls/tls.go:384-407 | nil for nil; nil and the first error; else every field of a new configuration, with all certificates in order, pools and client authentication as configured, and the verifiers installed |
| TlsConfigs.AcceptsTrustedChains | arrangetls/tls.go:78-192 | the verifiers of a configuration followed by extra ones accept a chain if and only if every raw certificate parses, matches the configured names, and passes every extra verifier |
| TlsConfigs.NewThenVerify | arrangetls/tls.go:78-407 | end to end: what New builds has a verification function if and only if there is a name or an extra verifier to check, and running it accepts a chain if and only if every raw certificate parses, matches the configured names, if any, and passes every extra verifier |
| TlsConfigs.OneMatchIsNotEnough | arrangetls/tls.go:78-97 | a chain of one matching and one other certificate is rejected |
| CpuProfiles.CPU.Start | arrangepprof/profilers.go:47-63 | which error comes back, and that a handle is held if and only if the file was opened |
| CpuProfiles.CPU.Stop | arrangepprof/profilers.go:65-73 | closes the handle it holds, if any, and ends without one |
| CpuProfiles.CPU.Use | arrangepprof/profilers.go:47-73 | any sequence of calls leaves the handles as the ledger of those calls says |
| CpuProfiles.HandlesConserved | arrangepprof/profilers.go:47-73 | whatever fails, handles opened minus closes is 1 exactly while one is held; every other handle was closed once, in order; after Stop none is held |
| CpuProfiles.HookLeaksIff | arrangepprof/profilers.go:77-98 | under fx a handle stays open for good if and only if the file opens and starting the profile fails |

## Left out

- Dependency resolution by fx, sockets, TLS handshakes, PEM and X.509 parsing, and how fx reads options inside a
  group tag.
- The client side (`arrangehttp/client.go`), `Conditional`, `arrangetest`, and the pprof HTTP routes.
- `BuildNameToCertificate` and the field-by-field copies in `ServerConfig.NewServer`.
- `DefaultListenerFactory.Listen`: which network is used and whether TLS wraps the listener.
- `ShutdownWhenDoneCtx` differs from `ShutdownWhenDone` only in passing a context on.
- Builder methods return nothing here instead of the builder itself.
- Errors with an `As` or `Is` method of their own, and panics inside an error coder, a middleware or a verifier.
- Options.Apply: an option is a function of the target alone; effects elsewhere are not captured.
- TlsConfigs.AppendCertificates: the certificate slice is a value; `New` passes nil, so nothing is shared.
- TlsConfigs.New: option lists inside the configuration are values, and the verifier of a configuration is
  represented by what its private arrays hold, which `PeerVerifyConfigs.VerifierIsFrozen` justifies.
- PeerVerifyConfigs.Apply: replacement lists are new ones, not lists that other code holds as well.
- PeerVerifyConfigs.Verify: lower-casing is ASCII, not full Unicode.
- ServerOptions.ApplyConnContext: the variadic slice of an option is a value; a caller that overwrites it before
  the option is applied is not captured.
- Lifecycle.RunsDrain: a real scheduler must be fair; the model shows that every goroutine step brings the end
  nearer and that one is always possible after the stop hooks.
- CpuProfiles.CPU.Start: two profilers share one process-wide CPU profile; each is modelled by itself.
