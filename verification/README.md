# django-gcp-log-groups: request correlation, in Dafny

This project models the request-correlation logic of `django_gcp_log_groups/gcp_logging.py`.
That file holds a Django middleware that groups application log lines under one
"parent" request entry in Google Cloud Logging. The model covers:

- **Configuration read at import time** (module `Settings`). This is the project
  name and the request `META` key holding the client address. That key is
  `HTTP_` plus the configured header name, upper-cased with `-` turned into `_`,
  or `REMOTE_ADDR` when no header is configured. The module also covers whether
  the inbound `X-Cloud-Trace-Context` header is used, and the parent and child
  log names derived from an optional prefix.
- **Trace and span derivation** (module `TraceContext`). A non-empty trusted
  header `"<trace>/<span>;o=<flag>"` is split on `/` and then on `;`. Otherwise
  a 32-character identifier over `[a-z0-9]` is synthesized. The trace is always
  placed under `projects/<project>/traces/`.
- **`GCPHandler.emit`** (module `Middleware`). A record whose level is below the
  root logger's INFO is dropped. Otherwise its level name is appended to the
  module-level tracked list, and the record is sent to the child stream with
  the request's trace and span.
- **`make_parent_log`** (modules `Severity` and `Middleware`). It computes the
  parent severity, clears the tracked list, and sends the parent entry unless
  the Django setting `GCP_LOG_USE_X_HTTP_CLOUD_CONTEXT` is on.
- **`GCPLoggingMiddleware.__call__`** (module `Middleware`). It registers the
  request's handler, runs the application, builds the parent entry and removes
  the handler.

The state is an immutable record. It holds the tracked level names, the
registered handlers, and one outbox per stream. An outbox is the sequence of
entries handed to that stream's `send`.

Inputs from the outside world are parameters:
- environment variables are a `map`;
- the Django setting is an `Option<bool>`;
- `request.META` is a `map`;
- the 32 `random.choice` results are a sequence of indices into the alphabet;
- what the application does inside `get_response` is an `AppRun`. That is the
  records it logs, then its response, or none when it raises.

Python's string ordering is defined explicitly in `LexOrder`, because Dafny's
`<` on sequences means "proper prefix". The same goes for `str.split`,
`str.upper` and `str.replace` in `Text`.

### Behaviour of the code worth knowing

- **Parent severity.** The comment at lines 133-134 says "apply the max level".
  The code takes `min(MLOGLEVELS)` over the level *names*, which is a
  lexicographic minimum. Over the names a request can track,
  CRITICAL < ERROR < INFO < WARNING. So the result is the most severe level
  except in one case: INFO and WARNING were logged and nothing more severe was.
  Then the parent entry is INFO. `Severity.MinAgreesWithMaxIff` proves exactly
  this, in both directions. The model follows the code.
- **Handler cleanup.** Nothing between lines 104 and 111 guards the removal of
  the handler. When an exception leaves `get_response`, the handler stays
  registered and the tracked list is not cleared. The next request then starts
  with the stale names, and every record it logs is also handled by the stale
  handler: it is tracked once per registered handler and sent once per
  registered handler, first under the earlier request's trace
  (`Middleware.RequestLogs`, `Middleware.StaleSeverityExample`). Under Django
  the `get_response` a middleware receives normally turns a view's exception
  into a 500 response (logged at ERROR), so lines 108 and 111 still run; the
  leak needs an exception that escapes that conversion.
- **Header parsing.** Any non-empty header is parsed; nothing checks its shape.
  A header with no `/` gives the whole header as the trace and no span. `"/x"`
  gives an empty trace.

## Model

| member | source | states |
|---|---|---|
| Text.Split | django_gcp_log_groups/gcp_logging.py:91 | `str.split` with one separator gives at least one piece, and no piece contains the separator |
| Text.JoinSplit | django_gcp_log_groups/gcp_logging.py:91 | joining the pieces of a split with the separator restores the text |
| Text.SplitJoin | django_gcp_log_groups/gcp_logging.py:91 | splitting a join of separator-free pieces restores the pieces |
| Text.SplitMany | django_gcp_log_groups/gcp_logging.py:93 | there is more than one piece iff the separator occurs in the text |
| Text.SplitHead | django_gcp_log_groups/gcp_logging.py:92 | the first piece is the longest prefix without the separator |
| Text.SplitSecond | django_gcp_log_groups/gcp_logging.py:94 | when the separator occurs, the second piece runs from just after the first separator up to the next one |
| LexOrder.MinIsLeast | django_gcp_log_groups/gcp_logging.py:142 | Python's `min` over strings gives an element of the list that is lexicographically at most every element, and it is the only such element |
| LexOrder.Min | django_gcp_log_groups/gcp_logging.py:142 | Python's `min` over a non-empty list of strings returns one of the list's elements |
| LexOrder.LexLeTransitive | django_gcp_log_groups/gcp_logging.py:142 | Python's string order is transitive, which the `min` loop relies on |
| LexOrder.LexLeAntisymmetric | django_gcp_log_groups/gcp_logging.py:142 | two strings each at most the other are equal, so the minimum is unique |
| Levels.NameNumberRoundTrip | django_gcp_log_groups/gcp_logging.py:62-65 | looking a level's name up in `logging` gives its number (DEBUG 10 … CRITICAL 50), and level names are distinct |
| Levels.LevelNumber | django_gcp_log_groups/gcp_logging.py:65 | `getattr(logging, name)` yields a number exactly for the name of a standard level or the aliases `WARN` and `FATAL`: each standard name gives its own level's number, `WARN` gives 30 (WARNING) and `FATAL` gives 50 (CRITICAL) |
| Severity.StatusSeverity | django_gcp_log_groups/gcp_logging.py:135-140 | with nothing tracked: ERROR iff status ≥ 500, WARNING iff 400 ≤ status < 500, INFO iff status < 400 |
| Severity.StatusSeverityMonotonic | django_gcp_log_groups/gcp_logging.py:135-140 | a larger status never gives a milder status-derived severity, and it is never below INFO |
| Severity.ParentSeverity | django_gcp_log_groups/gcp_logging.py:135-142 | with tracked names, the severity is one of them and lexicographically at most all of them; with none, it is the status-derived one |
| Severity.MinAgreesWithMaxIff | django_gcp_log_groups/gcp_logging.py:133-142 | over trackable names, the parent severity has the highest level in the list iff the list does not hold both INFO and WARNING without ERROR or CRITICAL |
| Severity.Examples | django_gcp_log_groups/gcp_logging.py:133-142 | [INFO, ERROR, WARNING] gives ERROR; [INFO, WARNING] gives INFO; nothing tracked gives INFO for 200, WARNING for 404 and ERROR for 503 |
| Severity.TrackableNames | django_gcp_log_groups/gcp_logging.py:62-67 | the names `logging` gives records at or above INFO are exactly INFO, WARNING, ERROR and CRITICAL |
| Settings.Project | django_gcp_log_groups/gcp_logging.py:14 | the project is the first variable whenever it is set (even to ""), else the second, else "" |
| Settings.RemoteIpKey | django_gcp_log_groups/gcp_logging.py:18-22 | with a non-empty configured name, the key is `HeaderKey` of that name (`HTTP_` plus the name with `-` made `_`, upper-cased): it starts with `HTTP_`, is 5 longer than the name, and has no `-` and no lower-case ASCII letter; otherwise it is `REMOTE_ADDR` |
| Settings.HeaderKey | django_gcp_log_groups/gcp_logging.py:20 | each character of the name appears in the key, after `HTTP_`, with `-` made `_` and then upper-cased |
| Settings.HeaderKeyIff | django_gcp_log_groups/gcp_logging.py:20 | two configured names select the same key iff they differ only in ASCII letter case and in `-` against `_` |
| Settings.UseCloudContext | django_gcp_log_groups/gcp_logging.py:26-29 | the inbound trace header is trusted exactly when the setting exists and is true; unset or false means off |
| Settings.ParentLogName | django_gcp_log_groups/gcp_logging.py:31-32 | a parent log name exists iff `GCP_LOG_USE_X_HTTP_CLOUD_CONTEXT` is off |
| Settings.LogNamesDistinct | django_gcp_log_groups/gcp_logging.py:32-35 | the parent and child log names never coincide, and two prefixes give the same child name iff both are unset or empty or both are the same text |
| Settings.Load | django_gcp_log_groups/gcp_logging.py:14-36 | the configuration holds the project and remote-address key read from the environment, trusts the trace header exactly when the setting is true, and derives both log names from the `GROUPED_LOGGING_LOG_PREFIX` variable; it has a parent stream iff `GCP_LOG_USE_X_HTTP_CLOUD_CONTEXT` is off, and then the stream's name differs from the child's |
| TraceContext.Synthesize | django_gcp_log_groups/gcp_logging.py:96-97 | the synthesized identifier has length 32 and every character is in `abcdefghijklmnopqrstuvwxyz1234567890` |
| TraceContext.SynthesizeCovers | django_gcp_log_groups/gcp_logging.py:96-97 | every 32-character identifier over that alphabet is produced by some choice of the random draws |
| TraceContext.ParseHeader | django_gcp_log_groups/gcp_logging.py:91-94 | the parsed trace has no `/`; the span is absent iff the header has no `/`; a span has neither `/` nor `;` |
| TraceContext.ParseMatchesReference | django_gcp_log_groups/gcp_logging.py:91-94 | the split-based parse equals the direct definition: trace up to the first `/`, span from there up to the next `/` or `;`, later pieces ignored |
| TraceContext.ParseFormat | django_gcp_log_groups/gcp_logging.py:89-94 | parsing `"<trace>/<span>;o=<flag>"`, or a bare `"<trace>"`, gives back that trace and span for any flag |
| TraceContext.HeaderUsed | django_gcp_log_groups/gcp_logging.py:86-88 | the header decides the trace exactly when the setting is on and `META` holds a non-empty `HTTP_X_CLOUD_TRACE_CONTEXT` |
| TraceContext.DeriveContext | django_gcp_log_groups/gcp_logging.py:84-98 | the trace is `projects/<project>/traces/` plus an id. When the header is used (setting on and header present and non-empty), id and span are the direct parse of the header and the id has no `/`. Otherwise the id has 32 characters from the alphabet and there is no span |
| Middleware.OrAbsent | django_gcp_log_groups/gcp_logging.py:120-123 | `value or 0` keeps a value exactly when it is present and non-empty |
| Middleware.BuildHttpRequest | django_gcp_log_groups/gcp_logging.py:117-131 | the remote IP is the `META` value under the configured key, else `unknown`; user agent, referer and the sizes are present iff their source value is non-empty; method, path and status are copied |
| Middleware.Emit | django_gcp_log_groups/gcp_logging.py:60-76 | an unknown level name raises and changes nothing. A level below INFO changes nothing. Otherwise exactly one name is appended to the tracked list and exactly one child entry is sent (the record's message and level, the handler's trace and span). The parent outbox and the handlers are untouched |
| Middleware.Dispatch | django_gcp_log_groups/gcp_logging.py:60-76 | a record handed to the registered handlers raises iff at least one is registered and its level name is unknown, and then nothing changes. Below INFO nothing changes. Otherwise the level name is tracked once per handler and one child entry is sent per handler, in registry order, each with that handler's trace and span. Registry and parent outbox are untouched |
| Middleware.RunApp | django_gcp_log_groups/gcp_logging.py:60-76 | logging the application's records raises iff a handler is registered and some level name is unknown. On success each kept record is tracked once per handler and sent once per handler, record by record in order. On a raise the failure names the first unknown level name, and exactly the kept records before it were tracked and sent. Registry and parent outbox are untouched |
| Middleware.RaiseAfterLineExample | django_gcp_log_groups/gcp_logging.py:60-76 | with one handler, an INFO line followed by a record named `Level 25` raises for `Level 25` with the INFO line already tracked and sent |
| Middleware.AddHandler | django_gcp_log_groups/gcp_logging.py:104 | registration keeps the registered handlers in order and adds the new one at the end unless it is already registered; afterwards exactly the old handlers and the new one are registered |
| Middleware.RemoveHandler | django_gcp_log_groups/gcp_logging.py:111 | removal deletes the first registration of the handler and keeps the others in order; an unregistered handler leaves the registry unchanged |
| Middleware.RemoveHandlerCount | django_gcp_log_groups/gcp_logging.py:111 | removal takes out exactly one registration of the handler, if it has any |
| Middleware.AddRemoveRestores | django_gcp_log_groups/gcp_logging.py:102-111 | adding a new handler and then removing it restores the registry |
| Middleware.MakeParentLog | django_gcp_log_groups/gcp_logging.py:133-156 | the tracked list ends empty on both branches. With `GCP_LOG_USE_X_HTTP_CLOUD_CONTEXT` off, exactly one parent entry is appended: no message, the parent severity of the tracked names, the request's trace and span, and the request record. With it on, nothing is sent. Child outbox and handlers are untouched |
| Middleware.Finish | django_gcp_log_groups/gcp_logging.py:108-111 | after the application responds, the tracked list is empty, the request's handler is removed, the child outbox is untouched, and with `GCP_LOG_USE_X_HTTP_CLOUD_CONTEXT` off exactly one parent entry is appended (no message, the parent severity, the request's trace and span, the request record); with it on nothing is sent |
| Middleware.HandleRequest | django_gcp_log_groups/gcp_logging.py:83-112 | every request creates exactly one new handler object |
| Middleware.RequestCompletes | django_gcp_log_groups/gcp_logging.py:83-112 | a request that returns leaves the handler registry as it found it, the tracked list empty, and exactly one more parent entry iff `GCP_LOG_USE_X_HTTP_CLOUD_CONTEXT` is off |
| Middleware.RequestRaisedLeaks | django_gcp_log_groups/gcp_logging.py:104-111 | a request that raises leaves its handler registered, the earlier registrations and tracked names in place, and sends no parent entry; the state stays well formed. It raises for an unknown level name iff one was logged; with a response, that is the only cause |
| Middleware.RequestLogs | django_gcp_log_groups/gcp_logging.py:60-112 | for any well-formed state (every state reached from the empty one): a request returns iff all level names are known and the application responds. Every record reaches the handlers already registered and then the request's own. The child outbox gains each kept record once per handler. When the parent stream exists, a returning request appends exactly one parent entry: no message, the severity computed from the names tracked before the request followed by those tracked now, the request's trace and span (the ones its own handler stamps on its child entries), and the request record built from the request and the response; with the trace header trusted, the parent outbox is unchanged. With an unknown level name the request raises at the first one, with the kept records before it tracked and sent. When the application raises, its handler stays registered and the names stay tracked |
| Middleware.StaleSeverityExample | django_gcp_log_groups/gcp_logging.py:104-144 | from a fresh start: a request that logs ERROR and raises leaves ERROR tracked and its handler registered; the next request, logging one INFO line and answering 200 (INFO on its own), gets an ERROR parent entry, and its INFO line is sent twice, first under the earlier trace |
| Middleware.FirstRequestRaises | django_gcp_log_groups/gcp_logging.py:60-106 | from a fresh start, an ERROR line followed by an exception leaves exactly that name tracked, that child entry sent, the request's handler registered and no parent entry |
| Middleware.NextRequestInherits | django_gcp_log_groups/gcp_logging.py:60-144 | with one stale handler and a stale ERROR, a request logging one INFO line and answering 200 returns with an ERROR parent entry and sends its line twice, once per handler |

## Left out

- The background transport: `background_thread.py` is not part of this model. Its queueing, batching, retries, flushing and shutdown are left out. A stream's `send` is modelled as an append to that stream's outbox.
- `gcplogging.Client` and `gcplogging.Resource`: the resource, the labels and the client are opaque metadata, and they do not appear in entries.
- Timestamps and latency: `datetime.utcnow()`, `time.time()` and the `"%.5fs"` latency format are clock reads and float formatting.
- Concurrency: requests served concurrently share the tracked list and the handler registry. The model runs one request at a time. Leftover state from an earlier request is modelled through the state it leaves behind.
- Python `logging` dispatch before `emit` is left out. That covers the logger's own level check, the handler level set at line 103, propagation from child loggers, handlers of other kinds, and `self.format`. A record reaches every registered handler of this kind in registry order with its formatted text. The threshold is the INFO set at line 13, and a later change of the root level is not modelled.
- Django's exception-to-response conversion: Django wraps the `get_response` a middleware receives so that an exception raised by a view, including the `AttributeError` from an unknown level name at line 65, normally comes back as a 500 response that Django logs at ERROR, after which lines 108 and 111 run. That wrapper is outside `gcp_logging.py` and is not modelled. A raising `AppRun` and an unknown level name stand for an exception that escapes it; the converted case is an `AppRun` whose records end with an ERROR record and whose response has status 500.
- Settings.HeaderKey: upper-cases only ASCII `a`–`z` (through `Text.Upper`), because Python's `str.upper` also maps other Unicode letters and can change the length of the text (`ß` becomes `SS`). Header names are tokens in the sense of section 3.2.6 of RFC 7230, so they are ASCII and the two agree on them.
- Middleware.HttpRequest: a size the source replaces by the integer 0 is modelled as absent rather than as the number 0.
- Middleware.HandleRequest: its own contract states only that one handler object is created. Its behaviour is stated by `RequestCompletes`, `RequestRaisedLeaks` and `RequestLogs`.
- Levels.LevelNumber: `getattr(logging, name)` also succeeds for module attributes that are not levels, and the model treats all of them as unknown names that raise. In the code, `raiseExceptions` or `logThreads` (both `True`, which compares below 20) makes `emit` drop the record silently at line 66, and `_startTime` (a timestamp, far above 20) makes it track and send the record. A record carries such a name only when code sets `levelname` by hand.
- Settings.UseCloudContext: the Django setting is modelled by its truthiness, as a boolean; `x or False` keeps a non-boolean value, which the code then only tests for truthiness.
- Severity.MinAgreesWithMaxIff: stated over the names `logging` gives its records. A record whose level name was set by hand to `WARN` or `FATAL` is tracked too, but not covered by this lemma.
