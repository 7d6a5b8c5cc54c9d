# Skylink chart resolver and session bootstrap, in Dafny

This project models the session-open code of the stardust app runtime
(`app-runtime/functions/open-session.go`). It has two parts:

- **The skylink URI resolver (`openSkylink`).** It dispatches on the scheme of a chart URI.
  - `skylink+http` and `skylink+https` import the URI with its `skylink+` prefix dropped and `/~~export` appended.
  - `skylink+ws` and `skylink+wss` do the same with `/~~export/ws`.
  - `skylink` accepts only hosts of the form `<name>.chart.local`. It reaches the cluster-local skychart service by resolving the fixed URI `skylink+ws://skychart`, opens the chart `name` through that service, and returns the chart's browse result.
  - Every other scheme, and every URI that fails to parse, gives nil.
- **The session bootstrap (`OpenSessionImpl`).** A session starts with an empty `apps` folder. The bootstrap mounts the resolved root as the session's context under `tmp:/`. Then, for each child name of `/apps`, it stores a new App under that name and requests that app's `launch` routine.

Modules:

- `Strings` (strings.dfy): `TrimPrefix` and `Split`, plus `Join`. `Split` and `Join` are proved to undo each other.
- `Resolver` (resolver.dfy): `Resolve` is a pure function from a `Link` to a `Plan`. A `Link` is the raw URI plus the scheme and host the URI parser produced, or `None` when parsing failed. A `Plan` is one of:
  - `Import(url)`;
  - `ViaSkychart(chartName, skychartPlan)`;
  - `Fail(reason)`.

  The recursion on the fixed skychart link is proved to stop after one level.
- `Mount` (mount.dfy): `Run` carries out a plan against a `World`. The `World` holds the network and namespace collaborators as arbitrary functions: remote import, function lookup, folder fetch, invocation, and the listing of `/apps`. The unchecked Go type assertions on the skychart path become the outcome `Panicked`.
- `Sessions` (session.dfy): the classes `Session` (fields `apps`, `ctx`) and `App` (fields `appName`, `session`, `processes`), the registration loop `RegisterApps`, `Bootstrap` and `OpenSession`.
  - A log `events` records the order of the stores into `apps` and the routine requests.
  - `LaunchLog` is the specification of that log.

Two consequences of the code as written:

- For a `skylink+*` URI, path and query are kept, because `TrimPrefix` works on the raw string. The export suffix goes after them. `TransportImport` states this.
- `OpenSessionImpl` has no session cache, no sessions registry, no per-app namespace composer, no app `Status`, and no skipping of `/apps` children that are not folders. It registers every child name of `/apps` and sets only `AppName`, `Session` and `Processes`. The model does the same.

## Model

| member | source | states |
|---|---|---|
| Strings.TrimPrefix | app-runtime/functions/open-session.go:72-76 | when `s` starts with the prefix, putting the prefix back on the result gives `s`; otherwise the result is `s` itself |
| Strings.Split | app-runtime/functions/open-session.go:80 | there is always one more piece than there are `.` separators in the host, and no piece contains a separator |
| Strings.JoinSplit | app-runtime/functions/open-session.go:80 | joining the labels of a host with `.` gives back the host |
| Strings.SplitJoin | app-runtime/functions/open-session.go:80 | splitting a `.`-join of dot-free labels gives back exactly those labels |
| Resolver.ChartName | app-runtime/functions/open-session.go:80-81 | an accepted host yields a chart name without dots |
| Resolver.ChartNameOf | app-runtime/functions/open-session.go:80-81 | every dot-free `name` is accepted as `name.chart.local`, and `name` is the chart name passed on |
| Resolver.ChartNameShape | app-runtime/functions/open-session.go:80-81 | conversely, an accepted host is exactly its chart name followed by `.chart.local` (together with ChartNameOf: three labels, `chart`, `local`, if and only if) |
| Resolver.PortSuffixRejected | app-runtime/functions/open-session.go:80-81 | a host carrying a `:port` suffix on its last label is never accepted |
| Resolver.Resolve | app-runtime/functions/open-session.go:61-123 | the nesting of resolutions is at most one level deep; the plan is `Fail` exactly when the URI did not parse, the scheme is none of the five, or a `skylink` host is not `<name>.chart.local` |
| Resolver.TransportImport | app-runtime/functions/open-session.go:71-77 | for `skylink+http(s)` the imported URL with `skylink+` put back is the raw URI followed by `/~~export`, for `skylink+ws(s)` followed by `/~~export/ws`; path and query are kept; a raw URI without the lower-case prefix is imported unchanged plus the suffix |
| Resolver.SkylinkChartHost | app-runtime/functions/open-session.go:79-95 | a `skylink://<name>.chart.local` URI goes through the skychart service and asks it for exactly `name`; the service is reached by importing `ws://skychart/~~export/ws` |
| Resolver.SkylinkHostRequired | app-runtime/functions/open-session.go:79-117 | a `skylink` URI either goes through the skychart service with host `chartName + ".chart.local"` or fails with the unknown-host reason |
| Resolver.RefusalReason | app-runtime/functions/open-session.go:62-121 | an unparsable URI fails with the parse reason; any scheme outside the five fails with the unknown-scheme reason |
| Resolver.SkychartLinkImports | app-runtime/functions/open-session.go:75-84 | the fixed skychart URI `skylink+ws://skychart` resolves by the ws rule to an import of `ws://skychart/~~export/ws`, so it never re-enters the `skylink` branch |
| Mount.OpenChart | app-runtime/functions/open-session.go:85-112 | a missing `/pub/open/invoke` or a nil open result gives nil; once the chain open → folder → `browse` folder → `invoke` function reaches the browse function, the outcome is exactly its result, so a nil browse result gives nil; a mounted root is always the result of that browse function; a panic happens exactly when the open result is non-nil but the chain breaks (not a folder, `browse` missing or not a folder, `invoke` missing or not a function) |
| Mount.Run | app-runtime/functions/open-session.go:71-112 | only the skychart route can panic; outside it a mounted root is the import of the plan's own URL; a skychart route over an import opens the chart through the imported root, mounted under `skylink://skychart.local` |
| Mount.Open | app-runtime/functions/open-session.go:61-123 | `openSkylink` end to end (resolve, then carry out): only accepted links ever mount a root, and only the skychart route can panic |
| Mount.SkychartNamespace | app-runtime/functions/open-session.go:84-86 | the skychart namespace is the root that opening the fixed link `skylink+ws://skychart` gives (which cannot panic), mounted under `skylink://skychart.local` |
| Mount.OpenViaSkychart | app-runtime/functions/open-session.go:79-112 | opening `<name>.chart.local` is the skychart chain run on the namespace `skylink://skychart.local` over the single import of `ws://skychart/~~export/ws`, asking for `name` |
| Mount.OpenTransport | app-runtime/functions/open-session.go:71-77 | the transport schemes give exactly what importing the rewritten URL gives, and never panic |
| Mount.OpenRefused | app-runtime/functions/open-session.go:62-121 | a refused URI (unparsable, unknown scheme, unknown host) opens to nil in every world |
| Mount.PanicOnlyViaSkychart | app-runtime/functions/open-session.go:100-104 | a panic can only come from the unchecked type assertions on the skychart path of a `<name>.chart.local` URI |
| Sessions.LaunchLog | app-runtime/functions/open-session.go:22-33 | the registration log has two events per child name |
| Sessions.LaunchLogAt | app-runtime/functions/open-session.go:22-33 | the j-th child is stored at position 2j and its `launch` requested at 2j+1: each app is put before its launch is requested, in listing order |
| Sessions.App.constructor | app-runtime/functions/open-session.go:24-28 | a new App carries the given name and session and a fresh, empty `processes` folder |
| Sessions.App.StartRoutine | app-runtime/functions/open-session.go:32 | requesting a routine appends exactly that request to the session's log and changes neither `apps` nor the context; the app's own state is left to the runner |
| Sessions.Session.constructor | app-runtime/functions/open-session.go:9-12 | a session starts with an empty `apps` folder, no context and an empty log |
| Sessions.Session.Put | app-runtime/functions/open-session.go:29 | `apps.Put` stores the app under its name, replacing any previous entry, and logs the store |
| Sessions.Session.RegisterApps | app-runtime/functions/open-session.go:22-33 | afterwards the keys of `apps` are the old keys plus the child names, other entries are untouched, each name maps to a fresh App with that name and this session (its `processes` empty when it was stored), and the log grew by exactly the store-then-launch events in order |
| Sessions.Session.Bootstrap | app-runtime/functions/open-session.go:15-35 | the resolved root, nil included, becomes the context under `tmp:/`; without an `/apps` folder nothing is added; with one, its children are registered; a panic stops the bootstrap before anything changes |
| Sessions.OpenSession | app-runtime/functions/open-session.go:8-39 | the new session holds exactly one fresh App per child name of `/apps`, each under its own name and belonging to this session, and its log is the store-then-launch log of those names |
| Sessions.RefusedLinkGivesEmptySession | app-runtime/functions/open-session.go:17-21 | a refused chart URI leaves the session without apps, provided a namespace over a nil root has no `/apps` |

## Left out

- The goroutine and the eager return of `OpenSessionImpl` are not modelled. The bootstrap runs in sequence after the session shell is created, so a caller's view of a half-populated `apps` folder is not captured.
- URI parsing (`url.Parse`) is an input. A `Link` carries the scheme and host the parser produced, and the fixed skychart link's parsed form is written out. The parser lower-cases the scheme while `TrimPrefix` works on the raw string. For a raw URI such as `SKYLINK+HTTP://h` the model keeps the prefix, as the code does.
- The remote import, `base.NewNamespace`/`NewRootContext`, `GetFunction`, `GetFolder`/`Children`, `Fetch` and `Invoke` are left uninterpreted, as the fields of `World`. The chart listing is one function of the mounted namespace. Whether a namespace over a nil root has an `/apps` folder is therefore a hypothesis (in `RefusedLinkGivesEmptySession`), not a fact.
- Mount.Run: a failing type assertion panics in Go and ends the whole process. The model records it only as the outcome `Panicked`, and `Bootstrap` then stops without changing the session.
- Sessions.App.StartRoutine: the routine runner is external. Only the request for the named routine is recorded, and the app's `processes` may change in any way.
- Sessions.Session.RegisterApps, Sessions.OpenSession: promise nothing about an app's `processes` after its launch, because the runner may start processes there. Emptiness is promised when the App is built (`App.constructor`) and holds when it is stored.
- All `log.Println` diagnostics are left out. The failure reasons of `Plan.Fail` stand for the ones the resolver logs.
- `openWire` is commented out in the source and is not modelled.
- The session cache, the sessions registry and the per-app namespace composer are not part of this model. They are not in `open-session.go`.
