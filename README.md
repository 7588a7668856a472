# PassiveScanData, modelled in Dafny

ZAP's passive scanner builds one `PassiveScanData` for each HTTP message it inspects and hands it to the passive scan rules. The object resolves the message to a context once, at construction: it takes the first context that the session's registry lists for the request URI, or no context at all. From that context it gives the scan rules four things:

- the technology set: the context's own set, or the `AllTech` sentinel when there is no context;
- the users of the context's authentication manager, computed on first request and cached;
- four custom-page checks (`isPage200`, `isPage500`, `isPage404`, `isPageOther`), each computed on first request and cached per kind.

The model has three files:

- `entities.dfy` (module `ScanEntities`) holds the message, context, technology set, user and custom-page kind. Each is reduced to a few identifying fields. The class itself reads only the request URI, the context's id and the context's technology set; the other fields are there so that distinct values can be told apart. The collaborators are plain values passed in by the caller: the registry query `contextsForUrl`, the context's custom-page matcher, and the optional user-management extension.
- `passive_scan_data.dfy` (module `PassiveScan`) holds the class `PassiveScanData`. Its final fields are `const`s. The two lazy caches are mutable fields: `userList` and `customPageMap`, where `None` stands for Java's `null`. Ghost counters record how often user management and the matcher were consulted. Each mutating method is proved against a pure step function (`GetUsersStep`, `IsCustomPageStep`) over the cache state `Caches`. Each keeps the invariant `Wf`:
  - without a context the user list is empty and the custom-page map is never created;
  - user management is queried at most once;
  - the matcher ran exactly once for each cached kind.
- `scan_traces.dfy` (module `ScanTraces`) takes any sequence of scan-rule queries on one instance and proves the caching guarantees over the whole sequence. Every answer is the first computed one. User management is consulted at most once, and the matcher at most once per kind. Without a context, nothing is consulted or changed.

Three facts about the code that a reader might not expect:

- The user list is copied as it is, not deduplicated (lines 98-103).
- If user management is absent at the first `getUsers` call that finds nothing cached, the empty list is cached (lines 94-96). Later calls keep returning it, even if the extension appears afterwards (lines 91-92).
- A context's own technology set may be any value, the `AllTech` sentinel included. So `AllTech` does not by itself mean "no context" (lines 61-66).

The custom-page cache is keyed by kind alone, as in the code. A second message asked about the same kind gets the first message's cached answer. This is most likely a misuse hazard rather than intended reuse. `ScanTraces.StaleAnswerForSecondMessage` and `PassiveScan.RepeatedPage404` state the behaviour outright, so that callers holding one instance per message can see the assumption.

## Model

| member | source | states |
|---|---|---|
| `PassiveScan.ContextFor` | zap/src/main/java/org/zaproxy/zap/extension/pscan/PassiveScanData.java:69-82 | the resolved context is none exactly when the registry lists no context for the request URI, and otherwise the first one listed |
| `PassiveScan.InitialCaches` | zap/src/main/java/org/zaproxy/zap/extension/pscan/PassiveScanData.java:54-63 | after construction the invariant holds, the user list is set exactly when there is no context, no custom page is cached and user management was not queried |
| `PassiveScan.GetUsersStep` | zap/src/main/java/org/zaproxy/zap/extension/pscan/PassiveScanData.java:90-105 | the answer is cached afterwards; a cached list is returned with nothing changed; without a context the answer is empty; without user management the empty list is cached with no query; otherwise the auth manager's users for the context id, with exactly one query; the custom-page cache is untouched; the invariant is kept |
| `PassiveScan.IsCustomPageStep` | zap/src/main/java/org/zaproxy/zap/extension/pscan/PassiveScanData.java:151-160 | without a context the answer is false and nothing changes; a cached kind returns its cached answer with nothing changed; otherwise the matcher's verdict on this message, cached, with one more matcher run for that kind; other kinds' entries and the user cache are unchanged; the invariant is kept |
| `PassiveScan.PassiveScanData.constructor` | zap/src/main/java/org/zaproxy/zap/extension/pscan/PassiveScanData.java:57-67 | the context is the resolution of the message against the registry, the technology set follows it, and the caches are the initial ones |
| `PassiveScan.PassiveScanData.HasContext` | zap/src/main/java/org/zaproxy/zap/extension/pscan/PassiveScanData.java:119-121 | true exactly when the registry listed some context for the message |
| `PassiveScan.PassiveScanData.GetContext` | zap/src/main/java/org/zaproxy/zap/extension/pscan/PassiveScanData.java:129-131 | none exactly when the registry listed nothing, otherwise its first listed context |
| `PassiveScan.PassiveScanData.GetTechSet` | zap/src/main/java/org/zaproxy/zap/extension/pscan/PassiveScanData.java:140-142 | AllTech when the registry listed nothing, otherwise the first listed context's technology set |
| `PassiveScan.PassiveScanData.GetUsers` | zap/src/main/java/org/zaproxy/zap/extension/pscan/PassiveScanData.java:90-105 | the answer and the new cache state are those of GetUsersStep on the old state; the invariant is kept |
| `PassiveScan.PassiveScanData.IsCustomPage` | zap/src/main/java/org/zaproxy/zap/extension/pscan/PassiveScanData.java:151-160 | the answer and the new cache state are those of IsCustomPageStep on the old state; the invariant is kept |
| `PassiveScan.PassiveScanData.IsPage200` | zap/src/main/java/org/zaproxy/zap/extension/pscan/PassiveScanData.java:169-171 | the custom-page check for kind OK_200 |
| `PassiveScan.PassiveScanData.IsPage500` | zap/src/main/java/org/zaproxy/zap/extension/pscan/PassiveScanData.java:180-182 | the custom-page check for kind ERROR_500 |
| `PassiveScan.PassiveScanData.IsPage404` | zap/src/main/java/org/zaproxy/zap/extension/pscan/PassiveScanData.java:191-193 | the custom-page check for kind NOTFOUND_404 |
| `PassiveScan.PassiveScanData.IsPageOther` | zap/src/main/java/org/zaproxy/zap/extension/pscan/PassiveScanData.java:202-204 | the custom-page check for kind OTHER |
| `PassiveScan.RepeatedPage404` | zap/src/main/java/org/zaproxy/zap/extension/pscan/PassiveScanData.java:155-159 | on one fresh instance, isPage404 about a second message returns the first message's answer, which is the matcher's verdict on the first message for the first matching context, or false without one |
| `PassiveScan.ClassifyMessage` | zap/src/main/java/org/zaproxy/zap/extension/pscan/PassiveScanData.java:169-204 | the four checks on one message all answer false without a context, and otherwise each answers the matcher's verdict for its own kind |
| `PassiveScan.RepeatedGetUsers` | zap/src/main/java/org/zaproxy/zap/extension/pscan/PassiveScanData.java:90-104 | two getUsers calls on one fresh instance return the same list: empty without a context or without user management, otherwise the first matching context's users |
| `ScanTraces.Run` | zap/src/main/java/org/zaproxy/zap/extension/pscan/PassiveScanData.java:54-55 | answering any sequence of queries keeps the cache invariant and gives one answer per query |
| `ScanTraces.NoContextTrace` | zap/src/main/java/org/zaproxy/zap/extension/pscan/PassiveScanData.java:151-154 | without a context, no query changes any cache or consults anything; every getUsers answers the empty list and every custom-page check answers false |
| `ScanTraces.PageAnswerIsFirstEvaluation` | zap/src/main/java/org/zaproxy/zap/extension/pscan/PassiveScanData.java:155-159 | every custom-page answer for a kind is the answer already cached, else the matcher's verdict on the message of the first query of that kind |
| `ScanTraces.SameKindSameAnswer` | zap/src/main/java/org/zaproxy/zap/extension/pscan/PassiveScanData.java:158-159 | two custom-page queries of the same kind in one pass get the same answer whatever messages they name |
| `ScanTraces.StaleAnswerForSecondMessage` | zap/src/main/java/org/zaproxy/zap/extension/pscan/PassiveScanData.java:158-159 | when the matcher would judge two messages differently for a kind, the second query on a fresh instance does not get the second message's verdict |
| `ScanTraces.UsersAnswerIsFirstLookup` | zap/src/main/java/org/zaproxy/zap/extension/pscan/PassiveScanData.java:90-104 | every getUsers answer is the cached list, else what the first getUsers computed: empty if user management was absent then, otherwise the context's users |
| `ScanTraces.UsersAnswersAgree` | zap/src/main/java/org/zaproxy/zap/extension/pscan/PassiveScanData.java:90-93 | all getUsers answers in one pass are the same list |
| `ScanTraces.MatcherCallsPerKind` | zap/src/main/java/org/zaproxy/zap/extension/pscan/PassiveScanData.java:151-159 | over a pass the matcher runs for a kind exactly once if a context exists, the kind was not cached and some query asks about it, and otherwise never |
| `ScanTraces.UserQueriesPerPass` | zap/src/main/java/org/zaproxy/zap/extension/pscan/PassiveScanData.java:90-104 | over a pass user management is queried exactly once if the list was not cached and the extension was installed at the first getUsers, and otherwise never |
| `ScanTraces.NoMatchObservations` | zap/src/main/java/org/zaproxy/zap/extension/pscan/PassiveScanData.java:57-66 | for a message the registry matches to no context, the technology set is AllTech and every query in the pass answers the empty list or false |

## Left out

- The debug log line for a message with no context (lines 75-78) is observability only and is not modelled.
- The process-wide lookups `Model.getSingleton().getSession()` and `Control.getSingleton().getExtensionLoader()` are replaced by injected values. The registry query is a constructor argument. The user-management extension is an argument of each `GetUsers` call. The code looks it up only on a call that finds no cached list, and on such a call it looks it up twice (lines 94 and 101); the model assumes both lookups give the same answer and uses one value for both.
- The URL matching inside `getContextsForUrl` and the custom-page algorithm `isCustomPageWithFallback` are not part of this model. They are uninterpreted functions supplied by the caller.
- The resolved context and its custom-page matcher are treated as fixed for the lifetime of an instance. The matcher is a constant given to the constructor. The code calls the context's own `isCustomPageWithFallback` at each query that finds no cached answer (line 159), so a context whose custom-page definitions change during the pass is not modelled.
- The internals of `HttpMessage`, `Context`, `TechSet` and `User` are not modelled; each is reduced to a few identifying fields. A context's authentication manager is reduced to the function from context id to user list.
- The unmodifiable copy of the user list is not modelled as an object. A Dafny `seq` is a value, so a caller cannot mutate the cached list at all. Reference identity of the returned list is not modelled either.
- Thread-safety of the lazy caches is not modelled, because an instance belongs to one scan pass on one thread.
- Exceptions raised by the collaborators are not modelled, because the class neither catches nor translates them.
