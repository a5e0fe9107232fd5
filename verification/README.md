# Spark Plug, verified

A Dafny 4.11 model of the Spark Plug server and of its driver plugin, with proofs.
`dafny verify dfyconfig.toml` checks everything.

Spark Plug launches Spark applications, keeps one table row per application, and proxies Spark
Connect requests to the drivers by bearer token. Many parties write the row: the handlers that
create and delete applications, a watcher per launch, the callbacks of the driver, the proxy when
it cannot connect, the `check` and `prune` commands, and other servers. Beside the table the
server caches one dispatcher task per token. The proofs say what survives every interleaving.

## How it is built

| file | what it models |
|---|---|
| `Application.dfy` | the row, every statement that writes the table, the launch watcher |
| `PruneCommand.dfy` | the `prune` command and the arithmetic of its cutoff |
| `Lifecycle.dfy`, `LateCallback.dfy` | applications with their handlers, watcher and driver, as a transition system over the table |
| `DriverPaths.dfy` | the ways handlers, watcher and driver can go, and where each leads |
| `Dispatcher.dfy` | one channel and the steps of its task `upstream_connection` |
| `UpstreamCache.dfy`, `DispatchRequest.dfy` | the cache, as functions and as the class that implements them; one request from its header to its answer |
| `Proxy.dfy`, `ProxyInvariants.dfy` | table, cache, channels, requests and ending handlers as one transition system; what each step keeps |
| `ProxyTheorems.dfy`, `StaleRouting.dfy` | the results on whole runs of that system |
| `Joint.dfy`, `RoutingReturns.dfy` | the applications of `Lifecycle` and the proxy of `Proxy` over one table: from the driver to the routing |
| `Paths.dfy`, `DispatcherLoop.dfy` | the loops of the dispatcher as written, shown to be runs of `Dispatcher` |
| `Database.dfy`, `Routes.dfy`, `HealthSweep.dfy` | the handlers, shown to be runs of `Lifecycle` and `Proxy`, and the `check` command, over a mutable table |
| `LaunchTiming.dfy` | the launch watcher, the table and the polling loop of a dispatcher, in real time |
| `Plugin.dfy` | shared activity state, interceptor, listener and idle-timeout thread of the driver; its events are steps of `Lifecycle` |
| `Shutdown.dfy` | the graceful shutdown of `run` and `serve_connection` |
| `Text.dfy`, `Launcher.dfy`, `SubmitCommand.dfy` | the launch configuration, its validation, the `spark-submit` arguments and what is read back from them |
| `Bearer.dfy`, `PercentEncoding.dfy` | the bearer token of a request and the `grpc-message` header of an error |

A step of a transition system is what the code does between two awaits, or under one lock; a run
is a list of states linked by steps, of any length and order. Sockets, HTTP, processes and the
database answer nondeterministically: a connect, a handshake, `ready()`, a probe, a lookup or an
update may succeed or fail at any time. A request future may be dropped at any await and a
dispatcher task may crash. `Lifecycle` lets the proxy mark any row failed at any time, and `Proxy`
lets any statement be executed at any time, so each is sound for the system it leaves out. `Joint`
couples the two: the statements each sees are those the other executes.

Assumed of the world:

- Ids and tokens of new rows are fresh (an auto-increment key and a version 4 UUID). SQL statements are atomic.
- A token has one driver, which starts its Connect service once; its callbacks come from it alone, so
  none comes before a `launch` that returns an error.
- A callback request is processed or dropped before `client.send` returns. Stop messages come only from `delete_app`.
- In `LaunchTiming` timers fire on time and the watcher's update ends within a given latency. In `Plugin` the clock does not go back.
- `prune` runs at a time `DateTimeUtc` can represent, as creation times are. `spark-submit` cuts a `--conf` value at its first `=`, and the last value of a key wins.

Where documents and code disagree the code is followed. The comment "Probe running apps and mark
unreachable ones as finished" (server/src/lib.rs:65) describes `check`, which marks them FAILED.
FINISHED and FAILED are not final states in the code; `LateCallback.ComesBackExactly` says exactly
when an application comes back, and `RoutingReturns.RoutingReturnsExactly` that requests follow it.
`prune` reads thresholds of 2^63 seconds and more as negative numbers. For almost all of them the
cutoff is no valid time and the command fails without deleting anything; for the last few below 2^64
it deletes what has just ended. `PruneCommand.PruneRespectsAge` has the exact bound. The internal
configuration keys cannot be overridden in the map, but `spark-submit` may read another value for one
of them; `SubmitCommand.InternalKeyReadBack` says exactly when it cannot. One failed TLS handshake
ends the server (`Shutdown.FailedHandshakeEnds`).

## Model

| member | source | states |
|---|---|---|
| Application.UpdateKeepsConsistent | server/src/routes.rs:138-161 | Every statement keeps "address present exactly when RUNNING, RUNNING has an application id, LAUNCHING has none", except, exactly, recording a launch failure on a RUNNING row. |
| Application.ApplyEvolves | server/src/lib.rs:194-201 | One statement on the table: identity is kept, LAUNCHING is not re-entered, the application id is not lost; a row disappears if and only if a prune selects it, ended and old enough. |
| Application.WatcherConfluence | server/src/routes.rs:134-146 | Inserting the watcher's conditional update at any position among the other statements on a row gives the same final row, if and only if another statement writes the state or the row was not launching. |
| PruneCommand.PruneRespectsAge | server/src/lib.rs:185-201 | The prune removes exactly the ended rows at least as old as asked, if and only if the threshold is below 2^64 minus the seconds from now to the last representable time; an invalid cutoff removes nothing. |
| PruneCommand.LargestAgePrunesAll | server/src/lib.rs:186-201 | The failing input: the threshold 2^64 - 1 removes every ended row, whatever its age. |
| PruneCommand.Prune | server/src/lib.rs:182-209 | Any error leaves the table as it was; success leaves exactly the rows not old enough, below that bound, and counts the removed. |
| PruneCommand.TimestampRange | server/src/lib.rs:185-192 | The two limits of the cutoff are the first second of the year -262143 and the last of 262142 in the Gregorian calendar. |
| Lifecycle.RunningMeansNotDelivered | plugin/src/main/scala/org/apache/spark/sql/sparkplug/SparkPlugListener.scala:47-111 | In every reachable state a RUNNING row has a driver that has posted, whose DELETE is not delivered and that was not stopped from outside; if that driver is over it did issue its DELETE. |
| Lifecycle.EndIsFinal | plugin/src/main/scala/org/apache/spark/sql/sparkplug/SparkPlugInterceptor.scala:24-28 | Once the DELETE is delivered or a stop message received, the row is never RUNNING again in the run. |
| Lifecycle.OneCallback | plugin/src/main/scala/org/apache/spark/sql/sparkplug/SparkPlugListener.scala:51-84 | After the callback of an application has been served, no later step serves another. |
| Lifecycle.RowsAlwaysConsistent | server/src/routes.rs:341-351 | In every reachable state of handlers, watcher, driver and other writers, the address is present exactly when the row is RUNNING, and the other clauses of consistency hold. |
| Lifecycle.RowsEvolve | server/src/routes.rs:105-161 | Between any two states of a run a row keeps id, token, user, name and creation time, does not return to LAUNCHING and keeps having an application id; it vanishes only by a prune that found it FAILED or FINISHED. |
| DriverPaths.StartUp | plugin/src/main/scala/org/apache/spark/sql/sparkplug/SparkPlugListener.scala:50-84 | From any state a new application can be launched, post and become RUNNING with exactly the address and application id posted, watched and waiting. |
| DriverPaths.LaunchRefused | server/src/routes.rs:152-169 | A launch that fails leaves the row FAILED and nothing else of it, with neither watcher nor driver. |
| DriverPaths.WatcherDecides | server/src/routes.rs:129-150 | The watcher makes a row FAILED if it is LAUNCHING, and changes no other. |
| DriverPaths.FailedPostEnds | plugin/src/main/scala/org/apache/spark/sql/sparkplug/SparkPlugListener.scala:72-111 | A driver whose POST fails is stopped and reports its end; the row becomes FINISHED. |
| DriverPaths.IdleEnds | plugin/src/main/scala/org/apache/spark/sql/sparkplug/SparkPlugListener.scala:85-127 | An idle driver stops and its DELETE makes the row FINISHED without address. |
| DriverPaths.DeleteReachesDriver | server/src/routes.rs:276-313 | Deleting a RUNNING application makes the row FINISHED, and the handler, which still has the address of the row, can tell the driver to stop. |
| DriverPaths.StoppedEnds | plugin/src/main/scala/org/apache/spark/sql/sparkplug/SparkPlugInterceptor.scala:24-28 | A driver told to stop ends without issuing a DELETE. |
| DriverPaths.StopGoesToAddressRead | server/src/routes.rs:276-313 | In every run the address a deleting handler holds is the one the row had when it was read. |
| LateCallback.ComesBackExactly | server/src/routes.rs:341-363 | An application that is not RUNNING can become RUNNING in some continuation if and only if its driver can still make its first callback. |
| LateCallback.EndedForGood | server/src/routes.rs:336-364 | What a reader of the row can tell: not RUNNING but with an application id, it is never RUNNING again. |
| LateCallback.DeletedWhileLaunching | server/src/routes.rs:287-306 | Deleting a launching application reaches a FINISHED state from which it can become RUNNING. |
| Dispatcher.NextKeepsChannelInv | server/src/proxy.rs:396-473 | Every step of a dispatcher keeps order of requests, balance of outcomes against replies, and account of connections. |
| Dispatcher.RequestsConserved | server/src/proxy.rs:396-473 | Requests sent are exactly those queued, in hand, awaited upstream, replied to, or lost in a crash. |
| Dispatcher.DrainEnds | server/src/proxy.rs:396-475 | Once no sender is left, the loop takes at most a computed number of steps, whatever the database and network answer. |
| Dispatcher.DrainAnswersAll | server/src/proxy.rs:396-475 | When it can take no more it has exited, with an outcome for every request ever sent, in the order sent, each replied to or awaited upstream. |
| UpstreamCache.UpstreamConnectionCache.Lookup | server/src/proxy.rs:122-129 | The first section of `sender_for` hands out the cached sender unless it is closed. |
| UpstreamCache.UpstreamConnectionCache.LookupOrCreate | server/src/proxy.rs:143-154 | The second section hands out what is then in the cache, and creates a dispatcher only if there is no live one. |
| UpstreamCache.UpstreamConnectionCache.SenderFor | server/src/proxy.rs:118-155 | A live cached sender is handed out and nothing changes; else the database decides, and the second section works on the cache and the closed channels it then finds, whatever other tasks did meanwhile. |
| UpstreamCache.UpstreamConnectionCache.RemoveClosed | server/src/proxy.rs:157-165 | Removes the token exactly when its cached sender is closed. |
| UpstreamCache.UpstreamConnectionCache.Invalidate | server/src/proxy.rs:167-174 | Removes the token and nothing else. |
| DispatchRequest.DispatchRequest | server/src/proxy.rs:176-195 | Which answer a request gets: the error of its header, of the lookup, of a closed channel, or what comes out of its reply channel; it is sent to the cached sender of its own token; a refused send leaves no closed sender of the token cached. |
| ProxyInvariants.NextKeepsInv | server/src/proxy.rs:118-195 | Every step of the proxy keeps rows, cache, requests, channels, addresses, counts and exits consistent with one another. |
| ProxyTheorems.DispatchersConserved | server/src/proxy.rs:122-174 | For every token, dispatchers created = removed by `invalidate` + removed by `remove_closed` + replaced when closed + 1 if cached; only tokens of rows are cached. |
| ProxyTheorems.CachedUnlessLost | server/src/proxy.rs:143-174 | A step keeps the cached dispatcher of a token or counts one loss for it, and a live one is lost only to `invalidate`, never overwritten. |
| ProxyTheorems.SameSenderBetweenLosses | server/src/proxy.rs:118-155 | Any two `sender_for` calls that end with no loss of the token between them hand out the same channel. |
| ProxyTheorems.HandedOutIsAlive | server/src/proxy.rs:118-155 | In every run the sender a `sender_for` hands out belongs to the token and to a dispatcher running at that moment. |
| ProxyTheorems.FailedSendCleansUp | server/src/proxy.rs:185-190 | A send to a dispatcher that is gone ends the request and leaves no closed sender of its token in the cache, and a live one untouched. |
| ProxyTheorems.NoCrashNoClosedSender | server/src/proxy.rs:185-190 | In runs without task crashes every cached dispatcher is alive, no send fails, and `invalidate` is the only way to lose a dispatcher. |
| ProxyTheorems.ExactlyOneReply | server/src/proxy.rs:185-194 | In every reachable state each request of a channel is in exactly one place, replied to at most once, taken in order, and with no second channel. |
| ProxyTheorems.TokensAlwaysMatch | server/src/proxy.rs:398-414 | In every run the token check of the dispatcher loop succeeds on what it receives. |
| ProxyTheorems.ConnectionsAccounted | server/src/proxy.rs:394-457 | Connections made = requests answered with the error of a broken connection + 1 if one is held; after such an answer none is held, after a forwarded request the one it went to; past the resolution there is always one, so the `unwrap` is safe. |
| ProxyTheorems.MarkedFailedWrites | server/src/proxy.rs:344-356 | When a dispatcher marks its application failed, exactly the rows of its token become FAILED without address. |
| ProxyTheorems.MarkedFailedReplies | server/src/proxy.rs:385-387 | And the request in hand is refused with the error of the last attempt; no connection is held. |
| ProxyTheorems.RejectedIsAnswered | server/src/proxy.rs:191-194 | A request the loop has rejected can return to its client. |
| ProxyTheorems.ForwardedIsAnswered | server/src/proxy.rs:459-471 | So can a forwarded one, once its response task has ended. |
| ProxyTheorems.ForwardedToRegistered | server/src/proxy.rs:416-445 | Whatever any dispatcher forwards carries its token and goes to an address that an earlier callback of the run stored in a row of that token. |
| ProxyTheorems.NotFoundMeansNoRow | server/src/proxy.rs:134-141 | A request is refused as not found only when no row has its token at that moment. |
| ProxyTheorems.LookupDecides | server/src/proxy.rs:134-141 | A lookup that finds a row sends the request on to the second section; one that finds none or fails ends it, and changes nothing else. |
| ProxyTheorems.ResolvesTheRow | server/src/proxy.rs:305-309 | In every run what a dispatcher resolves is the one row of its token, if there is one. |
| StaleRouting.FinishBringsDown | server/src/routes.rs:290-306 | The statement of an ending handler leaves no RUNNING row with its token, even if the row it read has changed since. |
| StaleRouting.NoStaleRouting | server/src/routes.rs:290-319 | After FINISHED and the invalidation, until a later callback, every request for the token that had no sender at the invalidation is only ever rejected, even if it was between the two sections of `sender_for`; the cached dispatcher has no address. |
| StaleRouting.NoRoutingEverAfter | server/src/routes.rs:287-319 | If the driver calls back at most once and the application was ended after that, no such request is forwarded at any later time; `Joint.DriversCallBackOnce` proves the condition. |
| StaleRouting.CachedDispatcherIsClean | server/src/routes.rs:371-392 | Under the same conditions the cached dispatcher is one created after the invalidation that never had an address or connection. |
| Joint.RunProjects | server/src/routes.rs:269-394 | Both halves of a joint run are runs of their systems, so every theorem on either holds of it. |
| Joint.EveryLifeIsJoint | server/src/routes.rs:97-394 | Every run of the applications is half of a joint run, so the coupling excludes none. |
| Joint.DriversCallBackOnce | plugin/src/main/scala/org/apache/spark/sql/sparkplug/SparkPlugListener.scala:51-84 | In every joint run the proxy sees at most one callback per token. |
| Joint.EndedIsNeverRouted | server/src/routes.rs:287-319 | End to end: FINISHED written and the token invalidated when the driver can make no callback any more, no request without a sender at the invalidation is ever forwarded. |
| Joint.RegisteredThenEnded | server/src/routes.rs:287-319 | The same when the row that FINISHED is written to has an application id. |
| RoutingReturns.RoutingReturnsExactly | server/src/routes.rs:313-363 | For a row not RUNNING at the invalidation, a request without a sender then can be forwarded in some continuation if and only if the driver can still make its first callback. |
| DispatcherLoop.ResolveUpstreamAddress | server/src/proxy.rs:295-319 | The polling loop returns the verdict of the first turn that finds the senders gone or the row not LAUNCHING, goes on exactly while there is none, and is a run of the dispatcher. |
| DispatcherLoop.ConnectWithRetries | server/src/proxy.rs:358-387 | The first of four attempts to succeed wins; otherwise exactly the rows of the token become FAILED without address and the last error is returned, so the `expect` never fails. |
| DispatcherLoop.MarkApplicationFailed | server/src/proxy.rs:344-356 | The failure mark on the table: the rows of the token FAILED without address, all others as they were, and nothing if the update fails. |
| DispatcherLoop.ResolveUpstreamConnection | server/src/proxy.rs:358-387 | The address resolved if one of the attempts succeeds, else an error; the rows of the token are marked FAILED exactly when it says that the driver cannot be reached. |
| DispatcherLoop.HandleMessage | server/src/proxy.rs:396-472 | One iteration gives exactly the outcome, the connection and the use of the reply channel that the answers call for, on every `continue` path, or none while the row is LAUNCHING; a connection that is not ready is dropped, one forwarded to is kept. |
| DispatcherLoop.TreatedMeans | server/src/proxy.rs:396-457 | The outcome and the connection left behind, case by case of token, connection held, URI and readiness. |
| DispatcherLoop.UpstreamConnection | server/src/proxy.rs:389-476 | For messages arriving in any portions: one outcome for each, in order, with the connection threaded through; each reply channel goes once to a reply or a response task; the rows of the token are marked FAILED exactly if a client was told that the driver cannot be reached; the loop is a run of the dispatcher and exits unless a message is still polled for. |
| DispatcherLoop.HeldTells | server/src/proxy.rs:394-457 | Between two messages no connection is held after a broken one was reported, and after a forwarded request the one it went to. |
| Routes.CreateApp | server/src/routes.rs:97-187 | Inserts exactly one row, LAUNCHING with the given columns and creation time; a failed launch answers 500 and marks it FAILED; other rows are untouched; it is a run of `Lifecycle`. |
| Routes.WatchLaunch | server/src/routes.rs:129-150 | The task left behind makes the row FAILED exactly if it is still LAUNCHING; it is a run of `Lifecycle`. |
| Routes.DeleteApp | server/src/routes.rs:269-323 | Exactly which row changes, which token is invalidated, where the stop goes, and which status is answered, on every failure path; a failed stop still invalidates; it is a run of `Proxy`. |
| Routes.AppCallback | server/src/routes.rs:336-364 | Registers the address in exactly the rows of the token; 404 exactly when there are none; it is a run of `Proxy`. |
| Routes.AppCallbackDelete | server/src/routes.rs:366-394 | Finishes exactly the rows of the token and invalidates it exactly when there are some; it is a run of `Proxy`. |
| HealthSweep.CheckApplicationHealth | server/src/lib.rs:319-341 | Healthy if and only if one of four probes succeeds; stops at the first success, else gives the last error. |
| HealthSweep.Check | server/src/lib.rs:211-247 | Marks FAILED without address exactly the RUNNING rows without address or with four failed probes, leaves the rest, and counts them; a failed update ends it with some of them marked and no other row changed. |
| HealthSweep.FailingExactly | server/src/lib.rs:214-228 | The rows to fail are the RUNNING ones without address or with four failed probes. |
| HealthSweep.SweepIsIdempotent | server/src/lib.rs:211-247 | With the same answers a second sweep finds nothing and changes nothing. |
| HealthSweep.SweepResumes | server/src/lib.rs:230-242 | After a sweep cut short by a failed update, the next one marks exactly the rows that were left. |
| HealthSweep.SweepKeepsTheHealthy | server/src/lib.rs:221-242 | After the sweep the RUNNING rows are exactly those that were RUNNING with an address and answered. |
| LaunchTiming.LaunchingIsBounded | server/src/launcher.rs:416-431 | In every timed run of watcher, process, table and dispatcher a row is LAUNCHING for at most the timeout and the latency of one update after `launch` returned, whatever else is written, unless that update fails. |
| LaunchTiming.EarlyOnlyOnFailure | server/src/launcher.rs:425-430 | The watcher writes before the timeout only if the process has failed; a successful exit leaves it to the timer. |
| LaunchTiming.FailureEndsTheWait | server/src/launcher.rs:425-430 | A failed process lets the watcher mark the row FAILED at that moment, without the timer. |
| LaunchTiming.SuccessWaitsForTimer | server/src/launcher.rs:425-430 | After a successful exit the watcher never writes before the timeout. |
| LaunchTiming.PollsAreBounded | server/src/proxy.rs:300-318 | A polling loop of the dispatcher reads the table at most timeout + latency + 2 times after that point. |
| Plugin.InterceptCall | plugin/src/main/scala/org/apache/spark/sql/sparkplug/SparkPlugInterceptor.scala:15-36 | Only calls without the header are activity; only "stop" stops the service, and it sets the external flag; a stop is a sequence of driver steps. |
| Plugin.OnOtherEvent | plugin/src/main/scala/org/apache/spark/sql/sparkplug/SparkPlugListener.scala:47-111 | Which callback an event sends, with the address host:port, and that exactly a refused or failed POST stops the service; an event of the service is a sequence of driver steps. |
| Plugin.TimeoutThread | plugin/src/main/scala/org/apache/spark/sql/sparkplug/SparkPlugListener.scala:114-129 | The thread stops the service at the first check that finds nothing active and all activity strictly older than the timeout, and at no other. |
| Plugin.IdleBounds | plugin/src/main/scala/org/apache/spark/sql/sparkplug/SparkPlugListener.scala:117-127 | At the stop more than the timeout has passed since the last activity, and, after the first check, at most one interval between checks more. |
| Shutdown.ReceiversAreConnections | server/src/lib.rs:142-179 | In every reachable state the receivers are the live connection tasks plus the server's own while it accepts. |
| Shutdown.ReturnsAfterLastConnection | server/src/lib.rs:171-179 | A draining server can return exactly when every accepted connection has finished, and `run` has returned Ok only then. |
| Shutdown.ToldAtMostOnce | server/src/lib.rs:273-288 | A consequence of `.fuse()` on the signal future: each connection starts graceful shutdown at most once, and only after the signal. |
| Shutdown.NothingAcceptedAfterLoop | server/src/lib.rs:150-172 | Once the accept loop is left no connection is added. |
| Shutdown.FailedHandshakeEnds | server/src/lib.rs:159-165 | A failed TLS handshake ends the server for good, without draining. |
| Shutdown.ShutdownCompletes | server/src/lib.rs:142-179 | From any serving state the signal can lead to a return of Ok in which every open connection was told and has ended. |
| Text.SplitPartitions | server/src/launcher.rs:299-299 | The parts of a split join back to the string and contain no separator. |
| Text.SplitConcat | server/src/launcher.rs:199-202 | Splitting `a,b` is splitting `a` followed by splitting `b`. |
| Text.TrimExactly | server/src/launcher.rs:300-300 | Trimming cuts all blanks at both ends and nothing else, and only one text is left. |
| Launcher.BuildConf | server/src/launcher.rs:186-216 | For every order of the merge map, each key ends with override, else user or default with the merge appended, else the merge; no other key is there. |
| Launcher.OrderIndependent | server/src/launcher.rs:197-208 | Any two results of the layering are the same map. |
| Launcher.ValidateFileConfigs | server/src/launcher.rs:294-328 | Accepts exactly when every nonblank entry of the three lists, trimmed, contains `://` and does not begin with `file://`; otherwise the error names the first entry refused and why. |
| Launcher.AcceptedExactly | server/src/launcher.rs:300-322 | An entry is accepted exactly if, between its blanks, it is empty or has a protocol other than `file://`; else LocalFile or MissingProtocol names it. |
| Launcher.FileKeys | server/src/launcher.rs:295-295 | The three keys that are checked. |
| SubmitCommand.FinalConfigs | server/src/launcher.rs:344-399 | The final map key by key: the six internal keys have the internal values whatever the layers say, and the environment and application name rules. |
| SubmitCommand.FinalValues | server/src/launcher.rs:346-364 | The values of the six internal keys and of the application name, by the names of the keys. |
| SubmitCommand.PythonOfEnvironment | server/src/launcher.rs:380-398 | Python is run from the directory under whose alias the environment archive is appended. |
| SubmitCommand.BuildSubmitCommand | server/src/launcher.rs:331-414 | Fails exactly when validation does; otherwise `--master`, `--deploy-mode`, `--class` and `--proxy-user` are read back with exactly the values they should have or not at all, `--conf` with the final map, each key once, and the last argument is the plugin. |
| SubmitCommand.SubmitArgsShape | server/src/launcher.rs:370-411 | All arguments but the last are pairs of a known flag and a value, and the last is the plugin path. |
| SubmitCommand.FlagsReadBack | server/src/launcher.rs:370-411 | Reading the pairs of any walk: each flag has exactly the values of its source. |
| SubmitCommand.SubmitArgsDecodeBack | server/src/launcher.rs:401-403 | In any order, splitting each `--conf` value at its first `=` gives back exactly the final map, if and only if no key contains `=`. |
| SubmitCommand.ReadBackExactly | server/src/launcher.rs:401-403 | A key without `=` is read back with its value, in every order of the walk, if and only if all arguments that are cut as one of that key are the same text. |
| SubmitCommand.InternalKeyReadBack | server/src/launcher.rs:355-364 | The internal value of each of the six keys, if it has no `=`, is what `spark-submit` reads in every order, if and only if no layer sets a key that begins with that key and `=`. |
| SubmitCommand.TokenClash | server/src/launcher.rs:355-403 | The failing input: a user key made of the token key and `=x` makes `spark-submit` read another token in some order. |
| SubmitCommand.TimeoutReadBack | server/src/launcher.rs:358-358 | Without such a key the idle timeout is read back, as a number, in every order. |
| SubmitCommand.FileListClosedForm | server/src/launcher.rs:380-391 | For a file list no override touches: the user's or default's entries, then the merge's, then the environment archive; what the user gave is accepted; the archive step adds an empty entry if and only if its path begins with a comma or has two in a row. |
| Bearer.TokenExactly | server/src/proxy.rs:271-289 | A token is extracted exactly from "Bearer", one space, and a nonempty token. |
| Bearer.ErrorsExactly | server/src/proxy.rs:271-289 | Which of the three errors is answered, exactly, for every other header. |
| PercentEncoding.PercentEncodeGrpcMessage | server/src/proxy.rs:258-269 | The byte loop computes the encoding that the lemmas below are about. |
| PercentEncoding.GrpcMessageHeader | server/src/proxy.rs:243-253 | The header is the encoded message, always accepted; the fallback is never used. |
| PercentEncoding.RoundTrip | server/src/proxy.rs:258-269 | The decoder of the "Responses" section of the gRPC PROTOCOL-HTTP2 specification, with `%XX` as in section 2.1 of RFC 3986, recovers every byte string. |
| PercentEncoding.EncodeConcat | server/src/proxy.rs:261-266 | Encoding distributes over concatenation. |
| PercentEncoding.HeaderSafe | server/src/proxy.rs:263-264 | Only bytes 0x20 to 0x7E are produced. |
| PercentEncoding.EncodedLength | server/src/proxy.rs:261-266 | The length is that of the message plus two for each escaped byte. |
| PercentEncoding.ImageIsCanonical | server/src/proxy.rs:258-269 | A string is an encoding if and only if it is canonical: plain bytes, and upper-case escapes of bytes that need one. |

## Left out

- Sockets, HTTP/2, TLS, process spawning and Kerberos renewal: external; their outcomes are nondeterministic.
- User authentication (JWT, JWKS, remote user): library calls.
- `get_app`, `list_apps`, `list_versions`, URL templates and configuration loading: filters and wrappers.
- The virtual environment, the plugin jar and the search for Spark: subprocesses and files. The path of `spark-submit` itself is not modelled.
- Migrations and the SQL engine: a table is a map of rows, a statement a function on it.
- The caches of several servers: the code does not coordinate them. The results are for one server's cache, with other servers writing the table.
- The mapping of proxy errors to gRPC status numbers: a constant table.
- Liveness under fairness: that a running dispatcher is scheduled, or that a driver starts, is not stated; `Dispatcher.DrainEnds` bounds the steps of a drain instead.
- Lifecycle: a driver that posts its address more than once, or a second attempt of the same application, is not modelled.
- DispatcherLoop: messages arrive before a call of `recv`, and response tasks have not ended; `Proxy` interleaves both freely.
- Handlers as classes over one shared heap with real concurrency: concurrent parts are transition systems over values, so aliasing between tasks is not captured.
- Plugin: `timeout * 1000` is computed without the wrap-around of 64-bit numbers, and reads and writes of the shared fields are atomic.
