# The unicaster module, modelled and proved in Dafny

Unicaster is a Redis module. One refresher thread keeps asking the Kubernetes API for the pods of a
namespace and stores the last good answer; one sender thread per network interface announces the
broker over UDP to every pod of the stored list; the Redis main thread loads, starts, stops and
unloads all of this. The stored list is a reference-counted snapshot shared by all threads, and
shutting down is a flag with a condition variable behind it.

The model covers that core and the sequential code that feeds it:

| module of the model | source | what it is |
|---|---|---|
| `SnapshotHeap`, `HeapProofs` | `pod_cache.c` | snapshots, their lists, `current`, and what each thread holds; every locked section, `malloc` and `free` is one operation, and a use after free or a double free raises a fault |
| `Broker` and the `Broker...` modules | `unicaster.c`, `pod_cache.c`, `closing.c` | the whole module as a transition system: the main thread's handlers, the refresher and any number of senders, interleaved one atomic section at a time, with an integer clock |
| `Closing` | `closing.c` | the flag, its mutex and its condition variable with spurious wake-ups, and the proof that the one-step sleep used by `Broker` is refined by it |
| `PodCache` | `pod_cache.c` | the same operations as methods of an object whose fields they change, one whole call at a time |
| `SenderLoop`, `RefreshLoop`, `ExpiryReports`, `Staleness`, `Backoff` | `unicaster.c`, `pod_cache.c` | the loops of the two kinds of threads as methods over their local variables, and the timed behaviour of the second one |
| `PodList`, `ResponseBody`, `Namespace`, `Ipv4` | `pod_list.c` | collecting the response, building the pod list in place, reading the namespace |
| `Patterns`, `Announcement` | `unicaster.c` | the interface patterns cut out of their setting in place, and the two messages |
| `Settings` | `settings.c` | numbers and defaults from the environment |
| `Text`, `Ascending`, `Prelude` | | strings as C sees them, ascending lists, `Option` and `Result` |

A run is any sequence of steps from `Broker.INITIAL`: which thread moves, whether an allocation, a
thread start or a send succeeds, what a request meets and how far the clock advances are all free.
`Reachable` is "some run leads there", and the main results are about every reachable state or every
run. Fetches and sends are assumed to return at some time, and a timed wait to fail only by timing
out; nothing is assumed about fairness.

A step has two guards. `Ready` is where the thread's program counter stands; `Fits` is what the thread
must have in its hands for the step to be defined. `AlwaysFits` shows that in every reachable state
the first implies the second, so the second never holds a thread back.

Characters stand for bytes, and `'\0'` ends a C string where the source treats it so.

## What the model found

- A second load of the running module is refused by `RedisModule_Init`, and the refusal runs
  `cleanup_threads` on the live instance. Redis keeps the first module, but its threads are gone, and
  because `announced` and the closing flag stay set no cron tick brings them back: the broker is silent
  until a load succeeds (`RefusedLoadStopsTheLiveModule`, `SilentUntilLoad`). Nothing but a refused load,
  a shutdown or an unload does this (`ClosingMeansStopped`), and while none came since the last load every
  thread it started is at work (`NothingElseStops`, both together `StoppedOrAtWork`).
- A refused load has already written a new guid when it is refused. A sender copies the guid into its
  `down` message and then into its `up` message, so the messages of one load may carry two guids, even
  those of one sender (`TwoGuidsInOneLoad` is such a run). Two messages of a load carry the same one
  exactly when no load is refused between the two copies (`MessagesShareTheGuid`); there are never more
  than two (`MessagesOfALoad`).
- The expiry of a list can be reported twice within a minute, although the repository's README promises
  one warning a minute. `is_expired` and `log_failure` read the clock separately. Of two consecutive
  warnings less than a minute apart both report the expiry exactly when the list crosses its maximum age
  between those two looks of the first one's turn (`ReportedTwiceIffItCrosses`,
  `NextFailureRepeatsIffItCrosses`, for every run of the module `ReportedTwiceInAnyRun`). A run of the
  module that does so exists exactly under the settings with a refresh interval of at most the maximum age
  and at most 58 seconds (`DeployedReportsTwiceIff`); with the default refresh interval that is every
  maximum age from 5 seconds on (`DefaultsMayReportTwice`).
- `REDIS_BROADCAST_PODS_MAX_AGE` stops announcing when the list is *older* than that many seconds, not
  "once the list is that many seconds old": at exactly that age it is still in use (`UsableUpToMaxAge`),
  and a pass at that instant announces to all of it (`PassWithoutAList`).
- A `DEPLOYMENT_ENV` of more than 63 characters is cut before it is validated, so another namespace
  than the one set may be asked (`OverlongEnvironmentNameIsCut` says exactly when).
- A namespace or token file that fills its buffer counts as unreadable even if only trailing whitespace
  made it that long (`FileNameIsUsed`).
- A name of more than 176 characters may lose the end of its messages, and a name with a tab makes them
  unreadable; `UpReadsBack` and `DownReadsBack` give the exact condition.
- `init_ip_patterns` does not check its `strdup` calls. Without the copy of the setting `strtok` gets NULL
  (`InitIpPatterns`), and a NULL pattern is dereferenced exactly when it comes before every pattern that
  matches the address (`IpMatchesPattern`).
- A pattern is a prefix of the text of an address, not of its octets; `PrefixIsTextual` says exactly which
  addresses it lets through beyond those that share its octets.
- `write_body` returns 0 for a refused `realloc` and for an empty chunk alike (`RefusalChangesNothing`).

## Model

| member | source | states |
|---|---|---|
| `Settings.ParseIntExact` | settings.c:23-40 | a result other than 0 is returned exactly for texts that denote it (white space, sign, digits, nothing behind) and only within the range of an `int` |
| `Settings.ParseIntRange` | settings.c:29-39 | whatever the text, the result is an `int` |
| `Settings.ParseIntOfNumeral` | settings.c:23-40 | what `%d` prints for an `int` is read back as that `int` |
| `Settings.GetEnvSecondsExact` | settings.c:46-58 | the result is between the minimum and the largest `int`; another value than the fallback comes exactly from a variable that denotes it and is not below the minimum |
| `Settings.EveryEnvironmentIsValid` | settings.c:70-98 | every environment gives positive intervals, a maximum age that is not negative and a port between 1 and 65535 |
| `Settings.SettingsAreRead` | settings.c:70-98 | each getter gives what its own variable denotes, if that is within its bounds, and its documented default otherwise |
| `Backoff.NextDelay` | pod_cache.c:133-142 | the doubling loop computes min(max(refresh, 30), refresh * 2^(max(failures, 1) - 1)) and never overflows an `int`, for any refresh of at least 1 |
| `Backoff.DelayMonotone` | pod_cache.c:133-142 | more failures never shorten the delay |
| `Backoff.DelayDoubles` | pod_cache.c:132-141 | the first delay is the refresh interval, each later one twice the one before up to the cap |
| `Backoff.DelaySettles` | pod_cache.c:134-141 | an interval of 30 s or more is never stretched, any other reaches the cap by the sixth failure |
| `Backoff.DelayBounds` | pod_cache.c:133-142 | for every environment the delay lies between 1 and max(refresh, 30) |
| `ResponseBody.Grow` | pod_list.c:60-64 | the doubling loop reaches the least doubling with room, without wrapping around |
| `ResponseBody.Buffer.Reserve` | pod_list.c:59-74 | afterwards there is room or nothing changed; the bytes already there survive a move |
| `ResponseBody.Buffer.WriteBody` | pod_list.c:50-81 | contents, capacity and result after one call, a NUL behind the contents |
| `ResponseBody.RunIsTidy` | pod_list.c:50-81 | after any calls the buffer is the accepted chunks joined, its capacity the least 16384 * 2^k with room for them and the NUL, and all moving together stayed below that capacity |
| `ResponseBody.RefusalChangesNothing` | pod_list.c:66-70 | a refused `realloc` leaves the buffer as it was, and the result tells so except for an empty chunk |
| `Ipv4.ParsePrint` | pod_list.c:239-244 | `inet_pton` reads what `inet_ntop` prints back as the same address |
| `Ipv4.PrintInjective` | pod_list.c:250-262 | texts are equal exactly when the addresses are, so comparing texts compares addresses |
| `Ipv4.StrictTextIsCanonical` | pod_list.c:239-244 | a library that refuses leading zeros accepts canonical texts only |
| `Ipv4.PrintFits` | pod_list.c:218-244 | every printed address fits its slot with its NUL |
| `PodList.StoreTexts` | pod_list.c:229-246 | the first loop stores the canonical text of each item that is not skipped, in item order |
| `PodList.Block.Append` | pod_list.c:244-245 | the next slot takes the text, and the count includes it |
| `PodList.SiftDown` | pod_list.c:252 | one step of sorting in place: sorted one further, same texts, the rest untouched |
| `PodList.Sort` | pod_list.c:252 | the block is sorted by `strcmp`, and holds the same texts as before |
| `PodList.Compact` | pod_list.c:254-262 | in place, no unread entry is overwritten: the result is strictly ascending and has exactly the members there were |
| `PodList.ParsePodList` | pod_list.c:193-265 | which bodies are refused and why, and that the block of any other holds the specified list |
| `PodList.PodIpsAreTheAddresses` | pod_list.c:212-264 | the list is strictly ascending, has at most `MAX_PODS` entries, each canonical, and a text is in it exactly when some item among the first `MAX_PODS` is an object with an object `status`, whose string `podIP` reads as an address with that text and which has no `phase` "Succeeded" or "Failed" |
| `PodList.FinishedPodsAreNotListed` | pod_list.c:181-244 | for one: a pod in phase "Succeeded" or "Failed" is not listed, one in any other phase is |
| `PodList.PodIpsAddressDistinct` | pod_list.c:250-262 | no two entries are the same address |
| `PodList.CutBeforeFilter` | pod_list.c:212-216 | the list is that of the first `MAX_PODS` items: those behind never matter, even when none of the first contributes |
| `PodList.PodListFetch` | pod_list.c:318-402 | the outcome of a request: the first thing that went wrong, or the list of its body |
| `PodList.FetchSucceedsOnlyOnAPodList` | pod_list.c:379-392 | a list comes out exactly of a complete HTTP 200 answer whose body has an `items` array, and is the list of that body |
| `PodList.FetchFailsForTheFirstReason` | pod_list.c:327-392 | each kind of failure is reported exactly when its cause is the first one in the order of the source |
| `Namespace.ReadTrimmed` | pod_list.c:104-131 | in place, for any buffer: when it succeeds, and that the buffer then holds the trimmed text |
| `Namespace.TrimmedStrips` | pod_list.c:120-130 | of a file without NUL bytes exactly the surrounding whitespace goes |
| `Namespace.ValidIsLabel` | pod_list.c:133-144 | exactly the lower-case labels of section 2.1 of RFC 1123 are accepted |
| `Namespace.ResolveNamespace` | pod_list.c:151-174 | the function computes the specified choice, through the buffer of 64 bytes |
| `Namespace.EnvironmentNameIsUsed` | pod_list.c:152-173 | a name set in the environment is used as it is exactly when it is a label |
| `Namespace.OverlongEnvironmentNameIsCut` | pod_list.c:154-155 | another name than the one set is used exactly when that is over 63 characters and its first 63 are a label |
| `Namespace.FileNameIsUsed` | pod_list.c:156-173 | without an environment name the pod's own namespace is used exactly when its file is under 64 bytes and holds a label between whitespace |
| `Patterns.CutSpaces` | unicaster.c:86-92 | the NUL lands behind the last character that is not a space, inside the token or on its terminator |
| `Patterns.TrimToken` | unicaster.c:80-92 | the token trimmed at both ends; nothing outside the token and its terminator is written |
| `Patterns.NextToken` | unicaster.c:78-106 | one call of `strtok`: the next run without commas, terminated in place, the rest of the setting untouched |
| `Patterns.RunIsField` | unicaster.c:78-106 | taking runs of non-commas one after the other yields the same patterns as splitting at every comma and dropping blank fields |
| `Patterns.InitIpPatterns` | unicaster.c:57-110 | after the pass over its copy of the setting the slots are those before it, then copies of the trimmed fields that are not blank, in order, until 16 are filled, NULL where a `strdup` failed; `strtok` gets NULL exactly when the setting could not be copied |
| `Patterns.OfferedArePatterns` | unicaster.c:80-104 | no pattern is empty, has a comma, or has a space at either end |
| `Patterns.StoredArePatterns` | unicaster.c:57-110 | from none, exactly the first 16 patterns of the setting are stored |
| `Patterns.IpMatchesPattern` | unicaster.c:120-142 | NULL is dereferenced exactly when a NULL slot comes before every pattern that matches; with no NULL slot the address is used exactly when there is no pattern or one is a text prefix of it |
| `Patterns.PrefixIsTextual` | unicaster.c:127 | a pattern takes every address whose first octets it is, and beyond those exactly the ones that continue its text with something else than a dot |
| `Patterns.TenIsTextual` | unicaster.c:127 | so `10` lets 101.1.1.1 through |
| `Announcement.NameLimit` | unicaster.c:406-433 | no message of a service is cut, whatever its address, port and interval, exactly when its name has at most 176 characters |
| `Announcement.DownFields` | unicaster.c:409-417 | behind a name without tabs, splitting a `down` message on tabs gives its four fields |
| `Announcement.UpFields` | unicaster.c:423-433 | and an `up` message its six |
| `Announcement.DownReadsBack` | unicaster.c:409-417 | the message as sent reads back as name, guid, address and port exactly when the name has no tab and nothing was cut |
| `Announcement.UpReadsBack` | unicaster.c:418-433 | the same for `up`, with interval and transport |
| `Announcement.MessagesTellTasksApart` | unicaster.c:402-433 | two senders' messages are equal exactly when all they announce is equal, and no `up` is a `down` |
| `Staleness.AgreementIsNonEmptiness` | pod_cache.c:110-196 | at one instant `is_expired`, the branches of `log_failure` and `pod_cache_acquire` agree exactly when the stored list, if any, is not empty |
| `Staleness.ExpiryIsFinal` | pod_cache.c:126-130 | an expired list stays expired until it is replaced |
| `Staleness.UsableUpToMaxAge` | pod_cache.c:72-74 | a list is handed out exactly up to its maximum age, that instant included, and always without one |
| `RefreshLoop.RefreshPods` | pod_cache.c:199-287 | the loop over its local variables logs and sleeps as the timed machine does |
| `RefreshLoop.StreakCounters` | pod_cache.c:254-281 | during a streak `failures` is its length so far and `failing_since` its first failure |
| `RefreshLoop.PauseInStreak` | pod_cache.c:280-283 | the n-th failure in a row is followed by the n-th backoff |
| `RefreshLoop.SinceWarning` | pod_cache.c:267-280 | between warnings the reminder clock stands at the last one and the remembered expiry is the last answer of `is_expired` |
| `RefreshLoop.WarningsAreSpaced` | pod_cache.c:264-283 | two consecutive warnings of a streak are at least 60 s apart, or the second marks the change to expired |
| `RefreshLoop.ExpiryChangesOnce` | pod_cache.c:264-280 | which happens at most once in a streak |
| `RefreshLoop.CloseWarningsReportExpiry` | pod_cache.c:264-283 | so of two close ones the second is the first turn of the streak that found the list expired |
| `RefreshLoop.ExpiryIsReported` | pod_cache.c:271-277 | that turn always warns |
| `RefreshLoop.StreakOpensWithWarning` | pod_cache.c:267-270 | so does the first turn of every streak |
| `RefreshLoop.QuietIsBounded` | pod_cache.c:264-283 | if requests and sleeps keep their limits, the next turn that may warn is less than 60 + timeout + max(refresh, 30) s after the last warning |
| `RefreshLoop.WarningSaysStanding` | pod_cache.c:148-197 | the one message a warning turn adds to the log says what `log_failure` makes of the list at that instant |
| `RefreshLoop.WarningSaysHowLong` | pod_cache.c:267-277 | and for how long: since the first failure of the streak |
| `RefreshLoop.FirstListIsSaid` | pod_cache.c:249-250 | the first turn says so if it is good |
| `RefreshLoop.ChangeIsSaid` | pod_cache.c:249-253 | a good turn after a good one says something exactly when the number of pods changed |
| `RefreshLoop.RecoveryIsSaid` | pod_cache.c:240-248 | a good turn after a streak says how long ago its first failure was |
| `RefreshLoop.LogAgreesUnlessItCrosses` | pod_cache.c:148-187 | warning and `is_expired` of one turn agree exactly unless the maximum age of the list ends between the two looks at the clock |
| `RefreshLoop.ReportedTwiceIffItCrosses` | pod_cache.c:264-280 | of two consecutive warnings of a streak less than 60 s apart the second reports the expiry, and the first does too exactly when the maximum age of the list ends between the two looks of its turn |
| `RefreshLoop.NextFailureRepeatsIffItCrosses` | pod_cache.c:264-280 | a warning reports the expiry and the next failure within the minute warns again exactly when it ends there |
| `ExpiryReports.ListIsARefreshOld` | pod_cache.c:259-266 | when a request fails the stored list is at least one refresh interval old |
| `ExpiryReports.ExpiryCanBeReportedTwice` | pod_cache.c:264-283 | some loop that keeps its pauses reports an expiry twice within a minute exactly when the refresh interval is at most the maximum age and at most 58 s |
| `HeapProofs.AcquireKeeps` | pod_cache.c:67-83 | acquiring keeps all counts exact, nothing reachable freed, nothing freed twice, nothing freed touched |
| `HeapProofs.DecrementKeeps` | pod_cache.c:51-61 | and so does the locked decrement |
| `HeapProofs.FreePodsKeeps` | pod_cache.c:46-47 | and freeing the list of a snapshot whose count reached zero |
| `HeapProofs.FreeSnapshotKeeps` | pod_cache.c:48-49 | and freeing the snapshot itself |
| `HeapProofs.NewSnapshotKeeps` | pod_cache.c:87-97 | and filling in a new snapshot |
| `HeapProofs.SwapKeeps` | pod_cache.c:99-102 | and the locked exchange of `publish` and `pod_cache_stop` |
| `HeapProofs.DropListKeeps` | pod_cache.c:213-229 | and dropping a list that was never published |
| `HeapProofs.HeldIsUnfreed` | pod_cache.c:51-107 | a snapshot some thread holds is unfreed, and so is its list until that thread frees it |
| `HeapProofs.NoLeak` | pod_cache.c:313-328 | with no current snapshot and empty hands everything was freed, once |
| `PodCache.Cache.FreeSnapshot` | pod_cache.c:46-49 | snapshot and list are freed once, nothing else changes |
| `PodCache.Cache.Release` | pod_cache.c:51-65 | the last reference takes snapshot and list along, any other only lowers the count; NULL does nothing |
| `PodCache.Cache.Acquire` | pod_cache.c:67-83 | the current snapshot with one more reference, or NULL when there is none or it is too old |
| `PodCache.Cache.Publish` | pod_cache.c:86-107 | the list becomes current and the previous snapshot loses one reference; without memory the list is freed and all else is unchanged |
| `PodCache.Cache.Stop` | pod_cache.c:319-327 | nothing is current any more, and the previous snapshot loses one reference |
| `PodCache.Cache.DescribeCurrent` | pod_cache.c:110-123 | count and age of the stored list, 0 pods when there is none |
| `PodCache.Cache.IsExpired` | pod_cache.c:126-130 | tells that `pod_cache_acquire` refuses the list, provided it is not empty |
| `SenderLoop.SendAll` | unicaster.c:448-467 | one send to each address, and the number of failures |
| `SenderLoop.UnicastThread` | unicaster.c:440-505 | the loop makes exactly one pass per turn up to the first turn that finds the flag up, and says what the passes call for |
| `Closing.StepKeeps` | closing.c:47-80 | every step keeps mutual exclusion, the reason for every return, and that nobody waits unnotified once the broadcast is out |
| `Closing.NoLostWakeUp` | closing.c:47-76 | in every run, with the flag up and the mutex free, every thread in the wait set has been notified |
| `Closing.ReturnsForAReason` | closing.c:62-80 | `closing_sleep` returns only with the flag up or its deadline passed, whatever spurious wake-ups there were |
| `Closing.EveryStepCounts` | closing.c:62-80 | with the flag up every step of a sleeping thread brings it nearer to its return |
| `Closing.SleeperNeverStuck` | closing.c:47-80 | and there is always such a step, or one of the mutex's owner, without the clock moving and without a wake-up that nobody sent |
| `Closing.EveryLateStepCounts` | closing.c:62-80 | past its deadline every step of a sleeping thread but a wake-up without cause brings it nearer to its return, flag or no flag |
| `Closing.LateSleeperNeverStuck` | closing.c:62-80 | and there is always such a step, or one of the mutex's owner |
| `Closing.DeadlineEndsTheSleep` | closing.c:71-79 | with the mutex free a waiting thread whose deadline has passed times out and returns in four steps of its own |
| `Closing.DeadlineIsSecondsAway` | closing.c:62-67 | in every run the deadline of a sleep is the clock at its call plus its seconds, for as long as it lasts |
| `Closing.CloserRaisesTheFlag` | closing.c:47-56 | called with the mutex free, `closing_begin` can run through, and leaves the flag up, the mutex free and everyone in the wait set notified |
| `Closing.CloserNeverStuck` | closing.c:47-56 | once called it always has a step that brings it nearer to its return, or waits for a thread that has the mutex and can go on |
| `Closing.FlagIsTheLastCall` | closing.c:42-60 | in every run the flag is up exactly when `closing_begin` stored it and no `closing_reset` came since |
| `Closing.RefinesSimpleSleep` | closing.c:42-80 | every step of the mutex and condition variable is one of a sleep that returns in one step on flag or deadline, or none |
| `Closing.SimpleWakeCanHappen` | closing.c:62-80 | and a thread that this simple sleep would wake can run to its return on its own once the mutex is free |
| `BrokerSenders.AcquireReadsRegister` | pod_cache.c:67-83 | what an acquire hands out is the last good answer of the load, or nothing when that is too old |
| `BrokerSenders.SenderStepKeeps` | unicaster.c:440-505 | every sender step keeps the invariant of the whole module |
| `BrokerRefresher.ExchangePublishes` | pod_cache.c:99-102 | the exchange makes the newest answer the current list |
| `BrokerRefresher.RefresherStepKeeps` | pod_cache.c:199-287 | every refresher step keeps the invariant |
| `BrokerMain.LoadKeeps` | unicaster.c:731-734 | the flag is cleared only with no thread alive |
| `BrokerMain.NextInterfaceKeeps` | unicaster.c:551-597 | starting a sender keeps the invariant, in particular `thread_ids` has room for it |
| `BrokerMain.DropCurrentKeeps` | pod_cache.c:322-325 | the list is dropped only when every sender and the refresher have ended |
| `BrokerMain.MainStepKeeps` | unicaster.c:512-816 | every step of the main thread keeps the invariant |
| `BrokerHistory.NeverRevivedInAnyRun` | pod_cache.c:51-83 | a count that reached zero never rises again in any continuation of any run |
| `BrokerHistory.OnlyExchangePublishes` | pod_cache.c:199-287 | every other step leaves the published lists as they are, and all but the final drop leave `current` |
| `BrokerRuns.AlwaysFits` | unicaster.c:402-816 | a thread whose turn it is always has the right thing in its hands |
| `BrokerRuns.ReachableInv` | unicaster.c:402-816 | the invariant holds wherever any interleaving of loads, cron ticks, shutdowns, unloads and thread steps can lead |
| `BrokerRuns.ReferenceCountsAreExact` | pod_cache.c:51-107 | in every reachable state `refs` of an unfreed snapshot is 1 if it is current plus the threads holding it; held snapshots and their lists are unfreed; nothing is freed twice or touched after |
| `BrokerRuns.UnfreedSnapshotIsHeld` | pod_cache.c:46-107 | in every reachable state an unfreed snapshot is current, or some thread holds it or is freeing it |
| `BrokerRuns.UnfreedListIsHeld` | pod_cache.c:46-107 | and an unfreed list belongs to an unfreed snapshot, or some thread has just fetched it |
| `BrokerRuns.CleanUpFreesEverything` | unicaster.c:616-629 | when `cleanup_threads` is done every snapshot and list ever allocated was freed exactly once, and no thread, client or thread array is left |
| `BrokerMemory.AllocationsAreCounted` | pod_cache.c:211-262 | in every run the lists ever allocated are the answers of its requests, in order, and the snapshots those of its successful allocations with their instants; so nothing is missing from "ever allocated" |
| `BrokerMemory.NothingFreedIsTouched` | pod_cache.c:46-107 | in every reachable state, whatever step comes next, each snapshot and each list that is dereferenced or freed in it exists and was not freed before |
| `BrokerRuns.CurrentIsLastGood` | pod_cache.c:199-262 | the current list is always the answer to the latest published request, and not empty; there is none exactly when none was published since the last clean-up |
| `BrokerRuns.CurrentCameFromAPodList` | pod_list.c:379-392 | deployed with the modelled fetch, that request met a complete HTTP 200 with a pod list, and the current list is the addresses of its unfinished items |
| `BrokerRegister.PublishedAreTheGoodAnswers` | pod_cache.c:211-236 | in every run the published lists are exactly the non-empty answers whose second look at the flag found it down and whose snapshot was allocated, in order, up to the one still to be exchanged; none is lost |
| `BrokerRuns.ReadersAlwaysAgree` | pod_cache.c:110-196 | in every reachable state the three judges of the list's age agree |
| `BrokerRuns.PassesAreUpsThenOneDown` | unicaster.c:440-505 | the passes of a finished sender are `up` passes and then exactly one `down`; each got the last good list of its instant and attempted all of it, never an older one than before |
| `BrokerRuns.DownPassHasTheList` | unicaster.c:616-627 | if a list was published in this load and the latest is not too old, the `down` pass gets it and announces to all of it |
| `BrokerRuns.PassWithoutAList` | pod_cache.c:67-83 | a pass has no list exactly when none was published in this load or the latest is strictly older than the maximum age; at that age it is announced to |
| `BrokerRuns.EachAddressOnce` | unicaster.c:443-467 | every completed pass attempted each address of its list as acquired exactly once, whatever was published meanwhile |
| `BrokerRuns.ReceivedNeverGoesBack` | pod_cache.c:86-107 | of two passes with a list the later one's was received no earlier |
| `BrokerNotices.FailuresAreRefusedSends` | unicaster.c:444-467 | in every run the outcomes of a sender's passes, joined, are what its sends returned, one for each address, and `failed` is the number of refused ones in its pass |
| `BrokerNotices.NoticesSayWhatHappened` | unicaster.c:469-496 | a pass adds a warning exactly when a send of it was refused and none was in the latest pass with a list before it, an all-clear exactly the other way round, and otherwise nothing |
| `BrokerNotices.MissesNone` | unicaster.c:451-454 | no failure is counted exactly when every send succeeded |
| `BrokerNotices.MissesAppend` | unicaster.c:451-454 | failures add up over consecutive sends |
| `BrokerRuns.NoticesAlternate` | unicaster.c:469-496 | in every run a sender's warnings and all-clears alternate starting with a warning, and a pass without a list says and changes nothing |
| `BrokerRuns.RefresherFollowsTheTimedLoop` | pod_cache.c:199-287 | in every interleaving log and variables of the refresher are those of the timed loop on its turns |
| `BrokerTurns.EveryRequestIsATurn` | pod_cache.c:211-283 | in every run each request whose second look at the flag found it down comes to exactly one turn of that loop, in order: a good one with the count and stamp of its list if the answer was not empty and its snapshot allocated, a bad one for a failed or empty answer or a refused allocation, at the instants the clock was read; only the turn in progress may be missing |
| `BrokerTurns.NoListIsAFailure` | pod_cache.c:226-264 | the step behind it: with the flag down a request without a list goes on to the failure |
| `BrokerTurns.RequestsAreApart` | pod_cache.c:211-283 | in every run the refresher ended a pause between two requests, or was started anew |
| `BrokerRuns.WarningsAreSpacedInEveryRun` | pod_cache.c:264-283 | so the spacing of warnings holds in every run of the module |
| `BrokerExpiry.ReportedTwiceInAnyRun` | pod_cache.c:264-280 | in every run, of two consecutive warnings less than a minute apart both report the expiry exactly when the list crosses its maximum age in the first one's turn |
| `BrokerExpiry.SomeRunReportsTwiceIff` | pod_cache.c:199-287 | where some request succeeds, a run of the module reports an expiry twice within a minute exactly with a refresh interval of at most the maximum age and at most 58 s |
| `BrokerExpiry.DeployedReportsTwiceIff` | pod_cache.c:199-287 | and so it is with the modelled fetch |
| `BrokerExpiry.DefaultsMayReportTwice` | pod_cache.c:199-287 | with the default refresh interval, exactly from a maximum age of 5 s on |
| `BrokerRuns.LifeCycleIsSafe` | unicaster.c:512-816 | broadcasting starts at most once per load; the flag is cleared only without threads; `thread_ids` is never overrun or lost, no client is lost, no warning dereferences a missing snapshot |
| `BrokerRuns.StepsFindWhatTheyNeed` | unicaster.c:469-609 | the same at the steps themselves: broadcasting starts with no client, refresher or thread array, every interface still to come has room in it, a request has its client, and a sender that warns a snapshot |
| `BrokerRuns.CronStartsOnce` | unicaster.c:679-696 | a cron tick starts broadcasting exactly when none did since the load and the module is not closing, and then no thread is alive |
| `BrokerLifeCycle.TickStartsExactlyOnce` | unicaster.c:679-696 | in every run a cron tick starts broadcasting exactly when it is the first since the last load and no refused load, shutdown or unload came since |
| `BrokerLifeCycle.ReloadAnnouncesAgain` | unicaster.c:728-733 | whatever came before, after a load that found a listener and registered its hook the next cron tick comes and starts broadcasting |
| `BrokerLifeCycle.HandlersRunWhenTheyShould` | unicaster.c:720-816 | with the main thread in Redis the module can be loaded exactly when it is not in Redis, shut down and unloaded exactly when it is, and hears cron ticks exactly when its last load found a listener and registered its hook |
| `BrokerInterfaces.SendersAreTheAcceptedInterfaces` | unicaster.c:512-609 | in every run the senders in `thread_ids` are those of the interfaces of the list with an accepted IPv4 address for which memory and a thread were granted, in order |
| `BrokerShutdown.EveryStepWorks` | unicaster.c:616-629 | once the flag is up every step of every thread strictly lowers one measure |
| `BrokerShutdown.CleanUpIsBounded` | unicaster.c:616-629 | so the steps taken are bounded by what the measure was |
| `BrokerShutdown.CleanUpNeverStuck` | unicaster.c:616-629 | until `cleanup_threads` returns some thread can move without the clock moving: every join completes |
| `BrokerShutdown.LittleHappensAfterTheFlag` | pod_cache.c:211-236 | after the flag at most one more list is published, and a sender completes at most the pass under way and one more |
| `BrokerShutdown.EveryCleanUpIsShort` | unicaster.c:616-629 | both together for every reachable state, with the bound in numbers: two passes over the longest list and a constant for each running sender |
| `BrokerPace.NothingIsHurried` | pod_cache.c:259-283 | in every run no request is judged before the sleep its failures so far ask for is over, and a sender's `up` passes are at least the interval apart; only the closing flag cuts a sleep short |
| `BrokerPace.SleepsAreAsLongAsTheyShould` | pod_cache.c:259-283 | in every reachable state the refresher sleeps until the end of the pause its turns ask for, and a sender for at most one interval more |
| `BrokerPace.ThreadsMoveOn` | unicaster.c:440-505 | in every reachable state a thread that has not ended can take a step, unless it sleeps with time left and the flag down |
| `BrokerReload.SilentUntilLoad` | unicaster.c:679-696 | after a clean-up nothing starts, nothing is published and further clean-ups change nothing until a load succeeds |
| `BrokerReload.RefusedLoadStopsTheLiveModule` | unicaster.c:723-727 | a refused second load leaves the first module loaded, closing, and without threads or list |
| `BrokerAtWork.ClosingMeansStopped` | unicaster.c:698-734 | in every run that ends with the main thread back in Redis the flag is up exactly when a refused load, a shutdown or an unload came since the last load |
| `BrokerAtWork.NothingElseStops` | unicaster.c:440-505 | in every reachable state with the flag down no sender in `thread_ids` has ended, nor has the refresher once started |
| `BrokerAtWork.StoppedOrAtWork` | unicaster.c:679-816 | so a module is stopped with nothing left, or every thread started for its load is at work, and which one the last of these events decides |
| `BrokerGuid.MessagesOfALoad` | unicaster.c:409-433 | in every reachable state a message carries the guid of its load or the next one, an `up` message never an older one than the `down` message of its sender, and the next one under a living sender only while the module is stopping |
| `BrokerGuid.GuidChangesOnce` | unicaster.c:720-727 | under a living sender no load succeeds, and the guid is written at most once, by a refused load |
| `BrokerGuid.CopiedGuid` | unicaster.c:409-433 | in every run a copy into a message is the guid of its load plus the loads refused since, at most one, and stays so |
| `BrokerGuid.MessagesShareTheGuid` | unicaster.c:409-433 | in every run two messages of one load, of one sender or of two, carry the same guid exactly when no load is refused between the two copies |
| `BrokerGuid.TwoGuidsInOneLoad` | unicaster.c:720-727 | a run in which one sender's two messages differ, and the second sender carries the later guid only |

## Left out

- libcurl, json-c, sockets, `getifaddrs` and uuid: a request, a send, the interfaces and the text of a guid are inputs. A body is a JSON value; text that is not JSON is the value `Null`.
- `resolve_announced_port`, `get_tls_preference` and `load_redis_bind_ips`: decision tables whose result is an input, or globals nothing reads.
- InitIpPatterns: what `strtok` does with NULL is undefined, and the model only says when it happens; in `Broker` these `strdup` calls succeed.
- The guid is a number that counts its writes, and a copy of it is one step: that a sender may read it while it is being written is not modelled.
- Ports above 65535: Redis refuses them for `port` and `tls-port`.
- `describe_http_error`, the request URL and header, and all log texts: only the fact, kind and instant of a message are kept.
- `free` of a sender's own task and of the copied setting: each is used by one thread only.
- `curl_global_init` and `curl_global_cleanup`: only that a failing first call ends the load.
- Aliasing of C memory: a pointer is the index of an allocation that is never reused, and a freed block keeps its last contents for the model to notice that it was touched.
- Lists in `Broker` are values of allocations; that the list is built in place is in `PodList`, and the two are joined by `Deploy`.
- Threads in `Broker` share one clock of whole seconds, as `now_seconds` reads it; a deadline of `closing_sleep` is kept to the second.
- RefreshPods: `failures` is an `int` that a streak of 2^31 failures would overflow; a run is assumed to be shorter.
- WriteBody: assumes that buffer and chunk together fit half the address space, since no larger object exists; only then is `capacity *= 2` free of wrap-around.
- Sort: stands for the library's `qsort` and promises what the C standard does, a sorted permutation; its own algorithm is an insertion sort.
- StepKeeps: the wait of the condition variable is assumed to fail only by timing out.
- Scheduler fairness and upper bounds in seconds: a clean-up is shown to be never stuck and bounded in steps; that a fetch or a sleep keeps its limit is a premise of `QuietIsBounded`.
