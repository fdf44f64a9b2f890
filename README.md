# feedbin-util: the broken-subscription prune rule

A model of `main.go` of feedbin-util, a command-line utility for the Feedbin
feed-reading service. It lists a user's subscriptions, sends an
unauthenticated GET to every subscription's feed URL, and deletes the
subscriptions whose feed is unreachable or answers 404, 406, 403 or 401.

Every network interaction is replaced by the reply it produced:

- `Api.ListReply` is the list call's reply. It is one of: the target was
  rejected before sending, a transport error, a body that could not be read
  (with its status), or a response with status, body and decoding result.
- `Prune.ProbeReply` is a feed probe's reply: an error, a nil response
  without error, or a status.
- `Api.DeleteReply` is the delete call's reply, shaped like `ListReply`
  without the decoding.

Each operation returns what the Go function returns. It also returns the
calls it made into the HTTP client, as `Api.Request` values (verb, target,
basic-auth credentials). `RemoveBrokenSubscriptions` also returns its log,
as `Prune.Event` values: one per log line, plus a `RemoveAttempt(id)` for
every call of `RemoveSubscription`. The probe and delete replies reach the
loop as functions of the subscription's position in the list.

Modules:

- `Util`: `Option` and `Collect`, which picks one kind of entry out of a log.
- `Decimal`: Go's `%d` rendering of the id in the delete path, with its inverse.
- `Api`: credentials, subscriptions, the two API targets, `GetSubscriptions`
  and `RemoveSubscription`.
- `Prune`: the classifier, the per-subscription step, the loop as a spec
  function `Run` and as the method `RemoveBrokenSubscriptions`, and the
  properties of the loop.

The spec function `Prune.Handle` defines one subscription's handling from
its disposition (`Classify`). The method `Prune.HandleSubscription` branches
the way the Go code does and is proved equal to it. The loop's invariant
ties the method's log and calls to `Run` on the prefix processed so far.
The lemmas about `Run` compare it with reference sequences built from
`Classify` alone (`Doomed`, `Doubtful`, `FeedUrls`).

The default base URL `https://api.feedbin.com/v2/` already ends in `/`. The
targets are built by plain concatenation, so the default list target holds
a doubled slash (`.../v2//subscriptions.json`). `DefaultListUrlHasDoubledSlash`
records this. The model keeps the concatenation as written.

## Model

| member | source | states |
|---|---|---|
| `Api.ListUrl` | main.go:103 | the list target is the base URL followed by exactly `/subscriptions.json` |
| `Api.DeleteUrl` | main.go:143 | the delete target starts with the base URL and `/subscriptions/`, ends with `.json`, and has the decimal id in between |
| `Api.DeleteUrlRoundTrip` | main.go:143 | the id can be read back from the delete target built for it |
| `Api.DeleteUrlInjective` | main.go:143 | different ids give different delete targets |
| `Api.ListUrlIsNotDeleteUrl` | main.go:103 | the list target never equals a delete target under the same base URL |
| `Api.DefaultListUrlHasDoubledSlash` | main.go:26 | with the default base URL the list target contains `v2//subscriptions.json` |
| `Decimal.FormatInt` | main.go:143 | `%d` output is non-empty, starts with `-` exactly for negative ids, and is canonical digits otherwise |
| `Decimal.FormatParseRoundTrip` | main.go:143 | parsing the rendered id gives the id back |
| `Decimal.ParseFormatRoundTrip` | main.go:143 | every string the parser accepts is the rendering of what it parses to, so the rendering is canonical |
| `Decimal.FormatIntInjective` | main.go:143 | distinct ids render as distinct strings |
| `Api.GetSubscriptions` | main.go:102-136 | succeeds exactly on status 200 with a body that decodes, and then returns the decoded list. A rejected target makes no call. Transport and read errors come before the status check, so a read error wins over any status. A non-200 status returns its status and body. A decode failure returns the partial list with the error. A non-empty list is only returned after a 200 |
| `Api.RemoveSubscription` | main.go:138-169 | a dry run succeeds without any call. Otherwise it succeeds exactly on status 204. It makes at most one call, the authenticated DELETE of the subscription's target, and none when the target is rejected. Each failure kind gives its own error |
| `Prune.Classify` | main.go:75-97 | a probe error or status 404/406/403/401 means Remove; 200/202/206 means Keep; a nil response or any other status means Warn |
| `Prune.HandleSubscription` | main.go:74-97 | the loop body, branching as the source does, has exactly the log and calls that the disposition prescribes (`Handle`) |
| `Prune.RemoveBrokenSubscriptions` | main.go:67-100 | a failed fetch is returned at once, with no log and no call beyond the list call. Otherwise the result is success, and the log and calls are those of `Run` over the fetched list |
| `Prune.RunAppend` | main.go:73-98 | the loop over `a + b` is the loop over `a` followed by the loop over `b` with the replies shifted past `a`: nothing carries from one subscription to the next |
| `Prune.HandleByDisposition` | main.go:74-97 | per subscription: exactly one removal attempt if Remove and none otherwise; exactly one warning if Warn and none otherwise; exactly one probe; no log line for Keep |
| `Prune.HandleDeletes` | main.go:77-92 | per subscription: no DELETE and no failure line unless Remove and not a dry run; any DELETE targets that subscription's own id. Conversely, a Remove outside a dry run sends exactly that DELETE unless the request is rejected, and a failed removal is logged once with the error `RemoveSubscription` returned |
| `Prune.RunAttemptsDoomed` | main.go:73-98 | the removal attempts of a run are exactly the ids whose probe says Remove, once each, in list order |
| `Prune.RunWarnsDoubtful` | main.go:83-96 | the warnings of a run are exactly the feeds whose probe says Warn, once each, in list order |
| `Prune.RunProbesEveryFeed` | main.go:73-98 | every feed is probed exactly once, in list order, whatever earlier removals did: a failed removal never stops the loop |
| `Prune.RunDeletesOnlyDoomed` | main.go:73-98 | every DELETE target of a run decodes to the id of a subscription whose probe said Remove |
| `Prune.RunDeletesDoomed` | main.go:73-98 | outside a dry run, the DELETE targets of a run are exactly those of the subscriptions whose probe says Remove and whose request is not rejected, once each, in list order |
| `Prune.DryRunDeletesNothing` | main.go:139-141 | in a dry run the loop sends no DELETE and logs no failed removal |
| `Prune.RunCalls` | main.go:68-71 | a fetch makes no probe and no DELETE, so a failed fetch ends the run before any probe. After a successful fetch every fetched feed is probed in order |
| `Prune.ExampleDeadThenLive` | main.go:73-98 | an unreachable feed followed by a live one: the first gets a removal notice, an attempt and a DELETE; the second is probed and nothing is logged for it |

## Left out

- HTTP itself: `http.Get`, `client.Do`, basic auth headers, reading and closing bodies. Each exchange is a reply value. The probe's response body is never closed in the source; resources are not modelled.
- `url.Parse` and `http.NewRequest`: their failure is one opaque "request rejected" reply (`ListRequestRejected`, `DeleteRequestRejected`). Which targets they reject is not modelled.
- JSON decoding of the list body and the `time.Time` parsing of `created_at` (main.go:56-63, 130). Decoding is an opaque `Decoded`/`DecodeFailed` outcome. `createdAt` is kept as text. The JSON round trip of a subscription record is therefore not stated.
- Flag parsing, the package-level variables, `DefaultCredentials`, `main` and the exit code (main.go:16-38, 47-54). `Credentials` is passed in; the default base URL is kept as a constant.
- The wording of log lines and of error messages (`Error: <status>\n<body>`). Events and errors keep the feed URL, status, body and error kind instead.
- `url.Parse(...).String()` (main.go:103-107, 143-147): the client gets the parsed and re-serialised URL, which lower-cases the scheme, re-escapes the path and moves a `?` or `#` part of the base URL out of the path. `Api.Request.url` is the string before parsing; `DeleteUrlRoundTrip`, `RunDeletesOnlyDoomed`, `RunDeletesDoomed` and `ExampleDeadThenLive` are about that string, not the re-serialised one.
- Exchanges that never return: `http.Get` (main.go:74) and `http.Client{}` (main.go:113, 153) have no overall timeout, so one feed or API call that never answers stalls the run forever. Every reply value is a completed exchange, so `RunProbesEveryFeed` and the other loop lemmas describe runs in which every exchange returns.
- The width of Go's `int`: ids and status codes are unbounded integers, which is exact for every value a 64-bit `int` holds.
