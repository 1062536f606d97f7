# A verified model of the pound load balancer

This project models the parts of the pound reverse proxy whose correctness is hardest to see from the code, and
proves what they are for. Imperative code is modelled by classes and loops that are proved against specification
functions; the laws are lemmas about those functions, for every input, every run or every reachable state.

| file | models | main results |
|---|---|---|
| `BoyerMoore.dfy` | substring patterns of `genpat.c` | the search as documented finds a pattern exactly when it occurs; the code as written does so for a pattern if and only if the pattern is `LiteralSafe` |
| `Lifecycle.dfy`, `LifecycleSteps.dfy` | reference counts of dynamic backends | over all interleavings a count is exactly its holders, zero is final, and nothing leads to a freed backend; what each step does and how steps undo each other; exactly when a kill aborts and when a session can outlive its backend |
| `DnsFrame.dfy`, `DnsUpdate.dfy` | the update of a matrix from a DNS answer | the table becomes the answer; kept backends are untouched, dropped ones are reachable only for removal, and everything else is as it was; exactly when the balancer is used after it is freed and when it is left empty |
| `JsonObject.dfy`, `JsonText.dfy`, `JsonParse.dfy`, `JsonDescent.dfy` | printing and parsing of JSON | parse after print is the identity, at any indent; the parser with its own stack is recursive descent, on every input; objects behave as finite maps |
| `Balancer.dfy`, `Iwrr.dfy`, `Tiers.dfy` | balancers | exact aggregates; interleaved weighted round robin is fair and ends if and only if it can; the lowest tier with an active backend is used, and the service deals out draws and turns by priority |
| `Jobs.dfy`, `Sessions.dfy`, `SessionTable.dfy`, `Expiry.dfy` | timer jobs and sessions | earliest job first, each job run or cancelled once; the session table refines a map; a session table that is not empty has an expiry job in time, and every session can expire |
| `QueryStrings.dfy`, `HttpRequest.dfy` | a request and its derived forms | lazy splitting and parsing agrees with an eager reference over every run; what is set reads back; round trips of query, URL and request line with exact conditions; exactly which lines are requests |
| `Chunks.dfy`, `Relay.dfy` | relaying a chunked body | what is read, no more and no less, is a chunked message, and it is what is written; what is encoded is read back if and only if its lines fit |
| `Headers.dfy` | combining headers | the one-pass reader equals the group-by definition and changes the value of no field |
| `WorkerPool.dfy` | the worker threads | bounds, order, conservation and no lost wakeup in every run; a waiting request always has a worker if and only if the least number of workers is not 0 |
| `Options.dfy` | a value that may be missing | |

Conventions: a mutex region of the program is one step; strings are sequences of characters without NUL; integers
are unbounded except where a width is written out (`CLEN_MAX`, `INT_MAX`, `LONG_MAX`, `Wrapped`); clocks, random
draws, DNS answers, short reads and I/O faults are parameters or arbitrary choices. `hide` statements only keep
definitions out of a proof that does not need them.

## Where the code does not do what is expected of it

Each of these is stated with the code as it is, by a lemma with an input or a run that shows it (the first
name) and one with the condition under which the expected property does hold (the second).

- `is_prefix` in `genpat.c` returns the negation of what its comment says. A match that is reported is always
  genuine, but a pattern such as "abab" can be missed (`AbabMissed`, `LiteralCorrectIff`). Both readings are
  modelled, by the parameter `test`.
- `iwrr_select` does not return when no active backend has a priority of at least 1, and `service_has_backends` does
  not exclude that (`HasBackendsDoesNotSuffice`, `TerminatesIffEligible`).
- `touch_be` ignores that `balancer_pri_update` refuses a priority, and counts the backend all the same
  (`ReviveMiscounts`, `ResurrectSoundIff`).
- `select_backend` does not release its reference when `open_backend` fails, so that the backend is never freed
  (`LostWhenOpenFails`, `SweptFreedIff`).
- `kill_be` fails its assertion, and the process ends, when the backend has been swept while the request that kills
  it held it (`SweptWhileHeld`, `KillAbortsIff`).
- A session added for a backend that has been swept can outlive it (`SweptWhileHeld`, `SessionDanglesIff`).
- An update of a matrix makes its balancer before it looks whether there is anything to put into it, so that a disabled
  matrix or a target without addresses can leave an empty balancer in the service, which `balancer_select_backend`
  does not expect (`BalancerFails`, `BalancerIff`).
- An update that takes the last backend out of a balancer frees the balancer and then recomputes its priorities
  (`BalancerFails`, `BalancerIff`). Neither happens to a matrix that is itself in the balancer that it fills
  (`ListedMatrixSafe`).
- The first pass of `j_get_text` takes four hexadecimal digits after a backslash for a code point, so that a
  backspace or a form feed before three such digits is not read back (`BackspaceMisread`, `TextRoundTripIff`).
- `http_request_split` splits at the last `?`, not at the first as section 3.4 of RFC 3986 has it (`SecondMark`,
  `SplitIsRfcIff`).
- A parameter or path set to a text with separators in it is held as given, but the URL made of it reads
  differently (`ReadDifferently`, `SetParamReadAlikeIff` and `SetPathReadAlikeIff`).
- A line of exactly 4094 characters is accepted when it ends in LF, but not with the CR LF with which it is passed on
  (`Line4094`, `ReadEncodedIff`).
- The running total of chunk sizes wraps before it is compared with the limit (`LimitExceeded`,
  `ChunkLimitIff`); a body relayed to its end does keep to the limit (`LimitKept`).
- Two requests in a row may start a single worker (`BurstWaits`, `TakeIsPromptIff` and `ExitIsPromptIff`).
- With a least number of workers of 0, a worker that times out leaves without a look at the queue, and a request can
  be left with no worker at all (`Stranded`, `AlwaysAttendedIff`).

## Model

| member | source | states |
|---|---|---|
| `BoyerMoore.PrefixShift` | src/genpat.c:434-446 | the shift of the prefix rule is the nearest border after i, or 1 if there is none |
| `BoyerMoore.StrstrPattern.FillBadCharDelta` | src/genpat.c:374-383 | entry c is the distance from the last occurrence of c to the end of the pattern |
| `BoyerMoore.StrstrPattern.IsPrefix` | src/genpat.c:392-395 | the test of a border, as documented or as written |
| `BoyerMoore.StrstrPattern.LongestSuffixLength` | src/genpat.c:402-411 | the longest common suffix of the pattern and of its prefix up to pos |
| `BoyerMoore.SuffixLengthDetermines` | src/genpat.c:402-454 | that length alone decides where the matched suffix occurs again with another character before it |
| `BoyerMoore.StrstrPattern.FillPrefixShifts` | src/genpat.c:438-446 | the first loop leaves the shifts of the prefix rule |
| `BoyerMoore.StrstrPattern.FillSuffixShifts` | src/genpat.c:447-454 | the second loop leaves, at each index, the nearest recurrence of the suffix, else the prefix rule |
| `BoyerMoore.StrstrPattern.FillGoodPfxDelta` | src/genpat.c:434-454 | both loops: the table of good shifts |
| `BoyerMoore.StrstrPattern.Compile` | src/genpat.c:476-491 | the folded pattern with both its tables |
| `BoyerMoore.GoodShiftSafe` | src/genpat.c:496-520 | a good shift skips no occurrence, when the border test is faithful |
| `BoyerMoore.BadShiftSafe` | src/genpat.c:496-520 | a bad-character shift skips no occurrence |
| `BoyerMoore.StrstrPattern.MatchBackwards` | src/genpat.c:505-510 | the inner loop stops at the last mismatch of the alignment |
| `BoyerMoore.Scan` | src/genpat.c:500-519 | the outer loop ends, and a match that it reports is an occurrence |
| `BoyerMoore.StrstrPattern.ExecLoop` | src/genpat.c:500-519 | the loops compute that scan |
| `BoyerMoore.StrstrPattern.Exec` | src/genpat.c:496-520 | a match is always genuine; with a faithful border test the result is a match exactly when the pattern is in the subject, in any case of its letters if case is ignored, and character by character if not |
| `BoyerMoore.FoldedAlike` | src/genpat.c:364 | folding makes equal exactly the equal characters and, if case is ignored, the two cases of one ASCII letter |
| `BoyerMoore.FoldedContained` | src/genpat.c:485-510 | the folded pattern occurs in the folded subject exactly if the pattern is in the subject, with or without regard to case |
| `BoyerMoore.ScanFinds` | src/genpat.c:496-520 | no occurrence at or after the current alignment is missed |
| `BoyerMoore.ScanIffOccurs` | src/genpat.c:374-520 | the scan finds the pattern exactly when it occurs, for every pattern and text |
| `BoyerMoore.OvershootMisses` | src/genpat.c:392-454 | a pattern that the inverted test shifts too far is missed in a text made for it |
| `BoyerMoore.LiteralCorrectIff` | src/genpat.c:392-520 | the code as written is right on all texts if and only if the pattern is safe |
| `BoyerMoore.AbabIsUnsafe` | src/genpat.c:392-395 | "abab" is not safe |
| `BoyerMoore.AbabMissed` | src/genpat.c:392-520 | "abab" is not found in "xcabab" |
| `BoyerMoore.AlphabetExact` | src/genpat.c:357-383 | the first lookup for a subject of one byte is at that byte, and in the table unless it is 255 |
| `Balancers.ActiveMax` | src/svc.c:713-730 | the greatest priority of an active backend |
| `Balancers.Recomputed` | src/svc.c:1102-1122 | the list after a recompute: aggregates in bounds, each backend as commanded or also disabled |
| `Balancers.Balancer.PriUpdate` | src/svc.c:638-730 | a priority that overflows is refused; otherwise sum or maximum follow |
| `Balancers.Balancer.RecomputeOne` | src/svc.c:1113-1119 | one backend is counted, refused and disabled, or left alone |
| `Balancers.Balancer.Recompute` | src/svc.c:1102-1122 | the loop computes the tally of the list, which leaves exact aggregates whatever they were, and carries out its command |
| `Balancers.CommandCarriedOut` | src/svc.c:1189-1227 | the backend named is disabled, enabled unless its priority is refused, or killed if regular; every other is left as it is or disabled because it is refused |
| `Balancers.TallySound` | src/svc.c:1113-1119 | one turn keeps the aggregates those of the backends seen |
| `Balancers.RecomputeSound` | src/svc.c:1102-1122 | a recompute makes the aggregates those of the list that it leaves |
| `Balancers.OtherKept` | src/svc.c:638-730 | and does not touch the aggregate of the other algorithm |
| `Balancers.Balancer.Revive` | src/svc.c:1662-1676 | resurrection makes the backend alive, leaves all others, and adds it to the aggregates |
| `Balancers.RunKeepsAggregates` | src/svc.c:1188-1244 | over every run of recompute, disable, enable, kill and fitting resurrect, the aggregates are those of the list if they were at the start, and from the first recompute on in any case |
| `Balancers.ReviveMiscounts` | src/svc.c:1662-1676 | a dead backend of priority INT_MAX is counted but its priority refused |
| `Balancers.ResurrectSoundIff` | src/svc.c:1662-1676 | resurrection keeps the aggregates exact if and only if the priority fits |
| `Balancers.ResurrectAgreesWithRecompute` | src/svc.c:1653-1683 | a full recompute changes nothing after a resurrection that fits |
| `InterleavedRoundRobin.TurnsBound` | src/svc.c:685-711 | a selection takes at most (max_pri + 3) passes, wherever the round stands |
| `InterleavedRoundRobin.NeverHits` | src/svc.c:685-711 | without an eligible backend no turn selects |
| `InterleavedRoundRobin.TerminatesIffEligible` | src/svc.c:685-711 | the loop ends if and only if an active backend has priority at least 1 |
| `InterleavedRoundRobin.PicksActive` | src/svc.c:685-711 | no run of selections picks an inactive backend |
| `InterleavedRoundRobin.PicksAreHits` | src/svc.c:685-711 | consecutive calls pick what consecutive turns hit |
| `InterleavedRoundRobin.CycleReturns` | src/svc.c:685-711 | after one cycle the cursor is back |
| `InterleavedRoundRobin.CycleRotates` | src/svc.c:685-711 | where a cycle starts does not change how often a backend is hit in it |
| `InterleavedRoundRobin.CycleScore` | src/svc.c:685-711 | in one cycle a backend is hit as often as its priority says |
| `InterleavedRoundRobin.Fairness` | src/svc.c:685-711 | any S selections in a row, S being the sum of the active priorities, pick each active backend exactly its priority number of times and no other |
| `InterleavedRoundRobin.RoundHits` | src/svc.c:694-709 | in each round the active backends of greater priority are selected once each, in list order |
| `InterleavedRoundRobin.SelectTurn` | src/svc.c:694-708 | one turn: the backend under the cursor if it is eligible, then the cursor advances |
| `InterleavedRoundRobin.Select` | src/svc.c:685-711 | `iwrr_select` returns the first eligible backend from the cursor on, and leaves the cursor after it |
| `WeightedRandom.Drawn` | src/svc.c:651-666 | the backend on which a draw lands; none if the draw is not below the sum |
| `WeightedRandom.LandsUnique` | src/svc.c:651-666 | a draw lands on one backend |
| `WeightedRandom.DrawsPerBackend` | src/svc.c:651-666 | exactly its priority of the possible draws land on each active backend, none on others |
| `WeightedRandom.Select` | src/svc.c:651-666 | the loop finds that backend |
| `Tiers.EligibleIffSum` | src/svc.c:757-769 | a balancer has an eligible backend exactly when its sum is positive |
| `Tiers.ChooseExactly` | src/svc.c:801-811 | the first balancer that yields is used, for its only backend, the one that the draw falls on or the next in turn; the search hangs exactly at a balancer that blocks |
| `Tiers.LowestActiveTier` | src/svc.c:801-811 | with random balancers an active backend of the lowest weight that has one is chosen, nothing only if none is active |
| `Tiers.HasBackendsDoesNotSuffice` | src/svc.c:974-983 | a service that has active backends may still hang |
| `Tiers.SelectFrom` | src/svc.c:757-769 | the choice within one balancer, and its cursor after it |
| `Tiers.LbSelect` | src/svc.c:801-811 | the loop over the balancers makes that choice and moves the cursor of the chosen one only |
| `Tiers.ReachedServes` | src/svc.c:757-811 | the first balancer that yields is the one that serves |
| `Tiers.DrawsPerService` | src/svc.c:651-811 | of the draws for the random balancer that is reached, the service selects each active backend for exactly as many as its priority |
| `Tiers.CallsInTurn` | src/svc.c:685-811 | consecutive calls of the service pick from the round robin balancer that is reached what consecutive turns of its list pick |
| `Tiers.FairService` | src/svc.c:685-811 | of as many calls in a row as the active priorities add up to, each backend of that balancer gets exactly its priority |
| `Tiers.ListGet` | src/svc.c:3135-3158 | the list stays strictly sorted by weight; a balancer is made only if there is none, and put in its place |
| `Json.CompareAntisymmetric` | src/json.c:607-702 | the order of keys is antisymmetric |
| `Json.BelowTransitive` | src/json.c:607-702 | the order of keys is transitive |
| `Json.BelowIsLexical` | src/json.c:607-702 | the order of keys is that of dictionaries |
| `Json.PutReplaces` | src/json.c:705-724 | a key that is present gets the value in its place |
| `Json.PutInserts` | src/json.c:607-702 | a new key is inserted in its gap |
| `Json.SameLookups` | src/json.c:705-744 | lists that look up alike are the same map |
| `Json.JsonObject.Bisect` | src/json.c:630-658 | the bisection ends, finds a key exactly when it is present, and otherwise its predecessor |
| `Json.JsonObject.Install` | src/json.c:669-701 | a new pair goes into its gap |
| `Json.JsonObject.LookupOrInstall` | src/json.c:607-702 | the list stays strictly sorted and counted; a key is found if present, and inserted in its place if wanted |
| `Json.JsonObject.Set` | src/json.c:705-724 | setting is map update |
| `Json.JsonObject.Get` | src/json.c:727-744 | getting is map lookup and changes nothing |
| `JsonText.Translate` | src/json.c:331-346 | the loop over the escape table computes the escapes |
| `JsonText.RfcEscapes` | src/json.c:331-364 | the escapes written are those of section 7 of RFC 8259, one by one, and no others |
| `JsonText.RfcUnescapes` | src/json.c:331-346 | the same escapes are translated when read, and no others |
| `JsonText.CopyPassInverts` | src/json.c:982-1013 | the second pass inverts the escaping of every string without NUL |
| `JsonText.SizePassCounts` | src/json.c:947-972 | the first pass counts the characters of a string without hex runs |
| `JsonText.SizePassAtMost` | src/json.c:947-972 | the first pass never counts too many, and too few after a hex run |
| `JsonText.TextRoundTrip` | src/json.c:938-1017 | a string without hex runs is read back, and the rest of the input is left |
| `JsonText.TextRoundTripIff` | src/json.c:938-1017 | at the end of the input a string is read back if and only if it has no hex run |
| `JsonText.BackspaceMisread` | src/json.c:949-963 | a backspace before "abc" is not read back |
| `JsonText.SizeLoop` | src/json.c:945-972 | the sizing loop computes the first pass |
| `JsonText.CopyLoop` | src/json.c:982-1013 | the copying loop computes the second pass |
| `JsonText.ReadText` | src/json.c:938-1017 | `j_get_text`: both passes |
| `JsonNumerals.NumberRoundTrip` | src/json.c:262-271 | an integer that fits the print buffer is read back from its decimal text |
| `JsonParse.PrintedRuns` | src/json.c:1020-1219 | parsing the text of a value, at any indent and level and in any context, is delivering the value |
| `JsonParse.ArrayRuns` | src/json.c:527-549 | likewise for arrays |
| `JsonParse.ObjectRuns` | src/json.c:747-774 | likewise for objects |
| `JsonParse.PrintedFlat` | src/json.c:527-774 | how a document looks on one line |
| `JsonParse.PrintedIndented` | src/json.c:527-774 | how it looks when indented |
| `JsonParse.RoundTrip` | src/json.c:1020-1219 | parsing the text of a value gives the value and stops at its end |
| `JsonParse.StringDocumentIff` | src/json.c:1020-1219 | a document that is a string is read back if and only if it has no hex run |
| `JsonParse.Parse` | src/json.c:1020-1219 | the parser ends on every input |
| `JsonParse.SkipBlanks` | src/json.c:821 | the loop skips white space |
| `JsonParse.PopContext` | src/json.c:1039-1068 | a closing bracket completes the innermost array or object, or is an error |
| `JsonParse.TextToken` | src/json.c:1070-1095 | a text is a key with its colon, or a string |
| `JsonParse.PlainToken` | src/json.c:1097-1154 | a number, a word, or an error |
| `JsonParse.Store` | src/json.c:1156-1211 | a value is the result or stored in the innermost array or object, and a delimiter must follow |
| `JsonParse.Turn` | src/json.c:1027-1211 | one turn of the loop, made of these, is one step of the parser |
| `JsonParse.ParseString` | src/json.c:1020-1219 | the loop with its context stack computes the parser |
| `JsonDescent.DescendValue` | src/json.c:1020-1219 | where a value is to come, the loop finds the value or error that recursive descent finds, and goes on with it in any context |
| `JsonDescent.DescendItems` | src/json.c:1156-1211 | likewise for the rest of an array |
| `JsonDescent.DescendMembers` | src/json.c:1070-1095 | likewise for the rest of an object, from a key on |
| `JsonDescent.DescendMember` | src/json.c:1156-1211 | likewise from the value of a key on |
| `JsonDescent.ParserDescends` | src/json.c:1020-1219 | on every input the loop with its context stack gives the value, or the error, and the place that a recursive descent parser gives |
| `Jobs.Place` | src/svc.c:84-106 | a job goes behind those of the same time |
| `Jobs.NextKeepsInv` | src/svc.c:84-267 | arming, cancelling, draining and dispatching keep the queue ordered and every job accounted for once |
| `Jobs.RunKeepsInv` | src/svc.c:84-267 | so does every run |
| `Jobs.DispatchIsEarliest` | src/svc.c:212-267 | in every run, if any job is due, one that is due and before all others pending is dispatched; if none is, nothing happens |
| `Jobs.DispatchExactly` | src/svc.c:236-262 | the first job leaves the queue and is run if and only if it is due |
| `Jobs.ArmExactly` | src/svc.c:84-123 | arming adds one job with the next id, behind all due no later and before all due later, and changes nothing else |
| `Jobs.CancelExactly` | src/svc.c:145-206 | a cancel removes its job and nothing else; an absent id changes nothing |
| `Jobs.DrainAllExactly` | src/svc.c:228-234 | serving the cancel requests leaves exactly the pending jobs that none of them names |
| `Jobs.CancelTakesOut` | src/svc.c:182-234 | a cancel request takes out its job, whatever requests come before it, and no other job |
| `Jobs.PendingOnce` | src/svc.c:84-106 | a job is pending once |
| `Jobs.JobQueue.Enqueue` | src/svc.c:84-123 | `job_arm_unlocked` puts the job in its place |
| `Jobs.JobQueue.Cancel` | src/svc.c:182-191 | a cancel is queued |
| `Jobs.JobQueue.Remove` | src/svc.c:145-160 | the job of that id is taken out |
| `Jobs.JobQueue.DrainCancels` | src/svc.c:228-234 | the timer cancels all that is queued for it |
| `Jobs.JobQueue.DispatchDue` | src/svc.c:236-262 | the timer takes the first job if it is due |
| `Sessions.AddRefines` | src/svc.c:359-384 | adding a session, new or not, is map update |
| `Sessions.PromoteRefines` | src/svc.c:342-405 | finding a session renews its expiry and nothing else |
| `Sessions.RemoveKeyRefines` | src/svc.c:414-426 | removing by key is map removal |
| `Sessions.FilterRefines` | src/svc.c:434-448 | removing by backend removes exactly the sessions of it |
| `Sessions.DropDueIsFilter` | src/svc.c:310-333 | stopping at the first session not due drops exactly those due |
| `Sessions.ExpireRefines` | src/svc.c:310-333 | expiry removes exactly the entries due |
| `Sessions.ApplyKeepsSound` | src/svc.c:310-448 | every operation keeps keys unique and expiries ascending, under a clock that does not go back |
| `Sessions.StepRefinesMap` | src/svc.c:310-448 | one operation refines one on the map |
| `Sessions.RunRefinesMap` | src/svc.c:310-448 | every timely run refines the map |
| `SessionTables.SessionTable.Delete` | src/svc.c:288-298 | one session leaves hash and list |
| `SessionTables.SessionTable.Add` | src/svc.c:359-384 | hash and list stay one to one; the list is as specified, and the first session is told |
| `SessionTables.SessionTable.Find` | src/svc.c:393-405 | the backend of the key; its session is moved to the end with a new expiry |
| `SessionTables.SessionTable.RemoveByKey` | src/svc.c:414-426 | hash and list stay one to one without the key |
| `SessionTables.SessionTable.RemoveByBackend` | src/svc.c:434-448 | hash and list stay one to one without the backend |
| `SessionTables.SessionTable.Expire` | src/svc.c:310-333 | hash and list stay one to one without what is due |
| `Expiry.AlwaysCovered` | src/svc.c:310-384 | in every run in which no cancel hits it, a table that is not empty has a pending or running expiry job no later than its first session |
| `Expiry.PermittedAllowed` | src/dynbe.c:363-363 | cancels of jobs that were armed for other tasks, as matrices make them, never hit it |
| `Expiry.AlwaysCoveredInProgram` | src/svc.c:310-384 | so that in every run of the program the table has its job |
| `Expiry.FirstSession` | src/svc.c:359-384 | the first session of any empty table arms a job for its own expiry |
| `Expiry.JobRuns` | src/svc.c:310-333 | the expiry job removes exactly the sessions due at its time and arms the next one for the first session left |
| `Expiry.EventRuns` | src/svc.c:212-267 | a job that is dispatched is started, and nothing else is |
| `Expiry.OperationRuns` | src/svc.c:359-384 | the first session of a table, and no later one, arms a job |
| `Expiry.CatchUp` | src/svc.c:212-333 | from every state of a run, and for every time, some steps of the timer and its jobs alone leave exactly the sessions not due at that time |
| `Expiry.SessionsExpire` | src/svc.c:212-333 | so every session of every run of the program can expire in time |
| `Expiry.NoneOverdue` | src/svc.c:310-384 | in every run, once no expiry job is due or running, no session is overdue |
| `Expiry.CancelUncovers` | src/svc.c:182-206 | a cancel of the expiry job, which nothing in the program makes, would leave the table without one |
| `Lifecycle.StepKeepsInv` | src/dynbe.c:320-390 | every step of the protocol keeps the invariant |
| `Lifecycle.SweepKeepsInv` | src/dynbe.c:329-390 | sweeping a backend, and its balancer with the last one, keeps it |
| `Lifecycle.CreateKeepsInv` | src/dynbe.c:438-468 | creating a regular backend, in the balancer that its matrix fills, or a matrix that fills one of its own keeps it |
| `Lifecycle.ProvideKeepsInv` | src/svc.c:3135-3158 | making a balancer keeps it |
| `Lifecycle.RemovedUnreferred` | src/dynbe.c:755-784 | what the remover may free is held, owned and listed by nobody |
| `Lifecycle.RemoveKeepsInv` | src/dynbe.c:755-784 | freeing it keeps the invariant |
| `Lifecycle.TouchKeepsInv` | src/svc.c:1653-1683 | a resurrection probe keeps it; one that succeeds on a dead backend that others hold makes it alive and ends the job with its reference, one that fails changes nothing |
| `Lifecycle.KillKeepsInv` | src/svc.c:1206-1244 | killing a listed backend keeps it; the backend is dead, no session names it, a job holds one more reference, and all else is as it was |
| `Lifecycle.ListedIffKept` | src/dynbe.c:329-390 | a regular backend is in a balancer exactly when it is not on the removal list |
| `Lifecycle.KillAbortsIff` | src/svc.c:1234-1244 | in every state of every run a kill by a holder aborts if and only if the backend is on the removal list |
| `Lifecycle.ResolveKeepsInv` | src/dynbe.c:192-198 | a resolver job, run or re-armed, keeps it |
| `Lifecycle.RunKeepsInv` | src/dynbe.c:320-816 | it holds in every state of every run |
| `Lifecycle.Safety` | src/http.c:4394-4508 | in every run a count is at least its table, request and job references, and a freed backend is in no balancer, session, cursor, request or job |
| `Lifecycle.FreedUnreachable` | src/dynbe.c:755-784 | nothing leads to a freed backend |
| `Lifecycle.SpentStays` | src/dynbe.c:79-84 | no step raises a count from zero |
| `Lifecycle.ZeroForever` | src/dynbe.c:79-84 | a count of zero is final |
| `Lifecycle.RemovableWhenReleased` | src/dynbe.c:755-784 | a swept backend without holders can be freed |
| `Lifecycle.SweptFreedIff` | src/dynbe.c:755-784 | a swept regular backend is freed by some run if and only if none of its references is lost |
| `Lifecycle.LeakNeverFreed` | src/http.c:4394-4508 | a reference lost when `open_backend` fails keeps its backend for ever |
| `Lifecycle.LostWhenOpenFails` | src/http.c:4394-4508 | a run that loses one |
| `Lifecycle.StepKeepsCore` | src/dynbe.c:320-390 | the invariant but for sessions is kept whatever the sessions are |
| `Lifecycle.SessionDanglesIff` | src/svc.c:1083-1087 | some run frees the backend of an added session while the session names it, if and only if the backend is on the removal list and none of its references is lost |
| `Lifecycle.SweptWhileHeld` | src/svc.c:1083-1087 | a run that sweeps a backend while a request holds it: a kill aborts, and a session can outlive it |
| `LifecycleSteps.AcquireRelease` | src/dynbe.c:794-816 | a reference that is taken is counted once, and giving it back restores the state |
| `LifecycleSteps.SessionLeads` | src/svc.c:838-857 | acquiring by a session that was added is acquiring its backend |
| `LifecycleSteps.SessionDropped` | src/svc.c:838-857 | a session is there until it is dropped, and concerns no other session |
| `LifecycleSteps.OpenFailsLoses` | src/http.c:4394-4508 | a failed connection leaves its reference counted and held by nobody |
| `LifecycleSteps.JobEnds` | src/dynbe.c:192-198 | a job that ends gives its reference back |
| `LifecycleSteps.KillThenTouch` | src/svc.c:1206-1683 | a kill followed by a probe that succeeds restores all but the sessions; one that fails changes nothing |
| `LifecycleSteps.RemoveFrees` | src/dynbe.c:755-784 | the remover frees one backend and touches no other |
| `LifecycleSteps.CreateMakes` | src/dynbe.c:438-468 | a new backend is enabled and alive; a regular one is last in its balancer, a matrix has a job |
| `LifecycleSteps.SweepTakesOut` | src/dynbe.c:329-390 | a swept backend loses table entry, reference, sessions and place, and waits for removal; nothing else is changed |
| `LifecycleSteps.FlagSet` | src/svc.c:1189-1227 | a flag is set as asked, and no other |
| `LifecycleSteps.CursorSet` | src/svc.c:685-711 | a cursor is moved, and no other |
| `LifecycleSteps.DeadUntilProbed` | src/svc.c:1206-1683 | in every run a backend that has been killed stays dead until a probe of it succeeds |
| `DnsUpdate.RemovalMeansDropped` | src/dynbe.c:329-390 | a backend on the removal list is disabled, in no table or balancer, without sessions, and no cursor |
| `DnsUpdate.KeepAnswer` | src/dynbe.c:431-437 | an address that is known loses its mark |
| `DnsUpdate.NewAnswer` | src/dynbe.c:438-468 | an address that is new gets a backend |
| `DnsUpdate.VisitEntry` | src/dynbe.c:329-390 | the sweep takes out an entry exactly if it is marked |
| `DnsUpdate.UpdateReconciles` | src/dynbe.c:393-489 | marking, answer and sweep together reconcile the table with the answer |
| `DnsFrames.EntryAtHome` | src/dynbe.c:459-466 | a regular backend of a matrix is in the balancer that the matrix fills, and is the cursor of no other |
| `DnsFrames.FrameCreate` | src/dynbe.c:451-467 | a new backend is added at the end of the home list, and nothing else changes |
| `DnsFrames.FrameSweep` | src/dynbe.c:329-390 | a swept backend goes from its list and its sessions to the removal list, a cursor on it starts over, the balancer goes with its last backend, and nothing else changes |
| `DnsUpdate.BalancerIff` | src/dynbe.c:405-476 | the balancer recomputed has been freed if and only if nothing is wanted, the matrix has backends and no other is listed; it is left empty if and only if it was missing or empty and nothing is put into it |
| `DnsUpdate.ListedMatrixSafe` | src/dynbe.c:405-476 | neither happens to a matrix that is in the balancer that it fills |
| `DnsUpdate.BalancerFails` | src/dynbe.c:405-476 | a run from the start to a matrix of which each update comes to one of both |
| `DnsUpdate.DynamicService.GetBalancer` | src/svc.c:3135-3158 | the balancer is made if there is none |
| `DnsUpdate.DynamicService.RemoveFromBalancer` | src/dynbe.c:344-375 | the backend leaves its list, an empty balancer goes, and cursors on the backend start over |
| `DnsUpdate.DynamicService.MarkBackend` | src/dynbe.c:321-326 | the mark is set |
| `DnsUpdate.DynamicService.AddBackend` | src/dynbe.c:451-467 | a backend is created, listed and entered in the table |
| `DnsUpdate.DynamicService.SweepBackend` | src/dynbe.c:329-390 | a marked backend is disabled and taken out of table, balancer and sessions, and put on the removal list; another is left alone |
| `DnsUpdate.DynamicService.MarkTable` | src/dynbe.c:410-411 | all entries of the matrix are marked |
| `DnsUpdate.DynamicService.TakeAddress` | src/dynbe.c:431-468 | one address: the mark cleared or a backend made, within the frame |
| `DnsUpdate.DynamicService.TakeAnswer` | src/dynbe.c:413-469 | after the loop over the answer exactly its addresses are unmarked |
| `DnsUpdate.DynamicService.SweepTable` | src/dynbe.c:471-472 | the sweep takes out exactly what is marked |
| `DnsUpdate.DynamicService.AddrUpdate` | src/dynbe.c:393-489 | after an update the table holds exactly the answer (or its first address), kept entries have the same backend with the same count and flags, and dropped ones wait for removal; it is a run of the lifecycle's own steps for this matrix, and other backends, sessions, lists, cursors and holders are as they were; for a disabled matrix only the balancer is made; and when the balancer is freed or left empty |
| `QueryStrings.PrintParsed` | src/http.c:2273-2462 | printing a parsed query gives it back, less a last `&` |
| `QueryStrings.ReadBackIff` | src/http.c:2273-2462 | a parameter list is read back from its text if and only if it is clean |
| `QueryStrings.AssignThenValue` | src/http.c:2517-2573 | what is set is what the next get returns |
| `QueryStrings.AssignChanges` | src/http.c:2517-2573 | setting or removing changes the first value of that name, and no value of another |
| `QueryStrings.ParseQuery` | src/http.c:2404-2462 | the loop computes the parameter list |
| `QueryStrings.PrintQuery` | src/http.c:2281-2294 | the loop computes the text |
| `QueryStrings.FindParam` | src/http.c:2476-2485 | the first parameter of that name |
| `QueryStrings.JoinSplit` | src/http.c:2169-2270 | path and query make up the URL again, less a last `?` |
| `QueryStrings.SplitJoinIff` | src/http.c:2169-2270 | path and query are read back from the URL if and only if the `?` between them is the last one |
| `QueryStrings.SplitIsRfcIff` | src/http.c:2178-2187 | the split is that of RFC 3986 if and only if there is no second `?` and none in front |
| `QueryStrings.SecondMark` | src/http.c:2178-2187 | "/a?b?c" has the path "/a?b" |
| `QueryStrings.Split` | src/http.c:2169-2217 | the backward scan computes the split |
| `RequestLines.TableIsUpper` | src/http.c:1675-1709 | the method names are in upper case |
| `RequestLines.ParsedUrlIsWord` | src/http.c:2935-2987 | a parsed URL is not empty and has no space |
| `RequestLines.LowerAlike` | src/http.c:1712-1722 | method names are compared without regard to the case of ASCII letters, and with regard to everything else |
| `RequestLines.ParseLineIff` | src/http.c:2935-2987 | exactly which lines are requests, and which are requests that are not allowed |
| `RequestLines.SampleMethods` | src/http.c:1675-1722 | methods in any case, allowed for one listener and not for another |
| `RequestLines.LineRoundTripIff` | src/http.c:2220-2246 | a rebuilt line parses to its method, URL and version if and only if the URL is not empty and has no space |
| `HttpRequests.DoAgrees` | src/http.c:2220-2573 | every setter keeps URL, path, query, parameters and line in agreement |
| `HttpRequests.AlwaysAgrees` | src/http.c:2169-2573 | in every run of getters and setters they agree, and the line received is kept |
| `HttpRequests.SetParamReadAlikeIff` | src/http.c:2517-2573 | for a URL that reads as what is held, setting or removing a parameter keeps that so if and only if the item set has no separator in it, the path is not empty and the last item is not nameless |
| `HttpRequests.SetPathReadAlikeIff` | src/http.c:2354-2373 | likewise after a path is set, if and only if the `?` before the query is the last one and the parameters are those of the query |
| `HttpRequests.ReadDifferently` | src/http.c:2354-2573 | a value with `&` and a path with `?` that are held as given and read differently |
| `HttpRequests.SetParamThenGet` | src/http.c:2465-2573 | set then get; other parameters and the path are unchanged |
| `HttpRequests.RemoveParamThenGet` | src/http.c:2517-2573 | removing a parameter takes its first value, and nothing of the others |
| `HttpRequests.SetParamUrl` | src/http.c:2273-2303 | after a parameter is set, query and URL are made of the parameters |
| `HttpRequests.SetUrlThenGet` | src/http.c:2329-2342 | a URL that is set reads back; path and query are its parts before and after its last `?` |
| `HttpRequests.SetPathThenGet` | src/http.c:2354-2373 | a path that is set reads back; query and parameters stay, and the URL is made of path and query |
| `HttpRequests.SetQueryThenGet` | src/http.c:2499-2514 | a query that is set reads back with its parameters; the path stays, and the URL is made of path and query |
| `HttpRequests.LineAfter` | src/http.c:2220-2246 | asking changes nothing; after a change the line is made of method, URL and version, and the line received stays known |
| `HttpRequests.HttpRequest.SplitUrl` | src/http.c:2169-2217 | splitting when needed changes nothing that can be asked for |
| `HttpRequests.HttpRequest.RebuildLine` | src/http.c:2220-2246 | the line is made of method, URL and version; the first one is kept |
| `HttpRequests.HttpRequest.RebuildUrl` | src/http.c:2249-2270 | the URL is made of path and query |
| `HttpRequests.HttpRequest.RebuildQuery` | src/http.c:2273-2303 | the query is made of the parameters |
| `HttpRequests.HttpRequest.SetUrlTo` | src/http.c:2329-2342 | as in the eager reference |
| `HttpRequests.HttpRequest.SetPathTo` | src/http.c:2354-2373 | as in the eager reference |
| `HttpRequests.HttpRequest.SetQueryTo` | src/http.c:2499-2514 | as in the eager reference |
| `HttpRequests.HttpRequest.SetParamTo` | src/http.c:2517-2573 | as in the eager reference |
| `HttpRequests.HttpRequest.Perform` | src/http.c:2169-2573 | every operation on the lazily kept request changes it and answers as the eager reference does |
| `Lines.LineReadIff` | src/http.c:1166-1237 | a line and a rest are read if and only if the input is the line, plain and within the buffer, one of its four ends, and the rest |
| `Lines.NoLineIff` | src/http.c:1166-1237 | exactly when there is nothing to read and when a line is too long |
| `Lines.LongestLine` | src/http.c:1166-1237 | a line that just fits is accepted with LF and not with CR LF |
| `Lines.Line4094` | src/http.c:1166-1237 | in the program's buffer, a line of 4094 characters |
| `Lines.WrittenLine` | src/http.c:1166-1237 | a line written with CR LF is read back, whatever follows, if and only if it leaves room for the CR LF |
| `Lengths.CutoffExact` | src/http.c:1270-1318 | the test against the cutoff is the test for overflow |
| `Lengths.NumberGrows` | src/http.c:1270-1318 | more digits make no smaller number |
| `Lengths.StrToClen` | src/http.c:1270-1318 | the leading digits are read as their exact value, or refused if there are none or the value is too big |
| `Lengths.GetContentLength` | src/http.c:1327-1345 | a length header or a chunk header is its exact value or refused |
| `Lengths.NumeralsInOrder` | src/http.c:1270-1318 | the value of each digit, in either case |
| `Lengths.OnlyNumerals` | src/http.c:1270-1318 | nothing else is a digit |
| `Lengths.NumeralRead` | src/http.c:1270-1318 | a number written in decimal or hexadecimal digits denotes that number |
| `Lengths.NumeralSize` | src/http.c:1327-1345 | a size or length as it is written is read back if and only if it is within bounds |
| `Lengths.ChunkSizeIff` | src/http.c:1327-1345 | exactly which chunk headers have a size, and which: digits, blanks, and nothing or an extension |
| `Lengths.HeaderLengthIff` | src/http.c:1327-1345 | exactly which length headers have a value, and which: digits between blanks |
| `Chunks.CopyEncodes` | src/http.c:1351-1485 | on success the input used is a message of the chunked coding, however its lines end, and that message is written, counted and followed by the rest |
| `Chunks.ReadsCopied` | src/http.c:1351-1485 | conversely every message within the limit is relayed whole, and nothing after it touched |
| `Chunks.ReadEncodedIff` | src/http.c:1351-1485 | an encoded message is read back whole, and nothing after it touched, if and only if its lines leave room for CR LF |
| `Chunks.CopySuffix` | src/http.c:1351-1485 | whatever the outcome, input is consumed from its start and the rest left as it was |
| `Chunks.LimitKept` | src/http.c:1387-1393 | a body relayed to its end keeps to the size limit |
| `Chunks.TooLargeIff` | src/http.c:1387-1393 | a body is refused for its size if and only if a chunk header takes the total, as it is computed, beyond the limit; the chunks before it are relayed and nothing of it |
| `Chunks.ChunkLimitIff` | src/http.c:1387-1393 | what is relayed of one chunk keeps to the limit, for all data, if and only if its declared size adds up without overflow |
| `Chunks.LimitExceeded` | src/http.c:1387-1393 | a chunk of one character and one that declares the greatest size, relayed beyond a limit of 1 |
| `Relays.Relay.Drain` | src/http.c:1144-1157 | the rest of the line is skipped |
| `Relays.Relay.ReadLine` | src/http.c:1166-1237 | the loop over single characters computes the line, its errors and the input left |
| `Relays.Relay.CopyBin` | src/http.c:941-975 | whatever the sizes of the reads, exactly the bytes wanted are passed on and counted, or all there were |
| `Relays.Relay.CopyChunk` | src/http.c:1359-1450 | one turn of the loop over chunks |
| `Relays.Relay.CopyTrailerLines` | src/http.c:1454-1476 | the loop over trailers |
| `Relays.Relay.CopyChunks` | src/http.c:1351-1485 | `copy_chunks` writes, counts and leaves what the relay of its input comes to; after a fault it has written a part of that |
| `Headers.ParseHeaderIff` | src/http.c:1882-1926 | a line is a header if and only if it is a name, a colon, blanks and a value |
| `Headers.TokenIsNoDelimiter` | src/pound.c:1129 | names are made of the visible ASCII characters that are not delimiters |
| `Headers.MadeHeader` | src/http.c:1942-1985 | a header made of a name and a value is a header with them |
| `Headers.JoinSnoc` | src/http.c:2650-2811 | values are joined in their order with a comma and a space |
| `Headers.FirstKept` | src/http.c:2748-2794 | a combined name keeps one header |
| `Headers.OthersKept` | src/http.c:2748-2794 | other names keep all of theirs, in order |
| `Headers.CombineKeepsFields` | src/http.c:2671-2811 | combining changes the value of no field, as section 3.2.2 of RFC 7230 has it |
| `Headers.CombinedOnce` | src/http.c:2671-2811 | a combined name is there at most once |
| `Headers.HeaderList.Add` | src/http.c:2739-2795 | one line: dropped, appended, or added to the header of its name |
| `Headers.HeaderList.Finish` | src/http.c:2650-2811 | the composed texts replace their headers, in any order |
| `Headers.HeaderList.ReadAll` | src/http.c:2722-2811 | the one-pass reader equals the group-by definition |
| `WorkerPools.StepKeepsInv` | src/pound.c:250-441 | every step keeps counters, order and wakeups |
| `WorkerPools.AlwaysSound` | src/pound.c:250-441 | in every run min <= workers <= max, active <= workers, requests taken and queued are those put in, in order, and while one waits no worker sleeps or some worker is about to look; with min at least 1 there is a worker that is not asleep |
| `WorkerPools.EnqueueDoes` | src/pound.c:264-304 | a request goes to the end of the queue and wakes one sleeper if there is one; a worker is started exactly if all are busy and there may be more |
| `WorkerPools.LookDoes` | src/pound.c:324-375 | a worker takes the oldest request and wakes one sleeper if more wait, or sleeps, for a limited time exactly if there are more workers than the least number |
| `WorkerPools.AlwaysAttendedIff` | src/pound.c:264-375 | in every run a waiting request has a worker that is not asleep, if and only if min is at least 1 |
| `WorkerPools.Stranded` | src/pound.c:297-348 | with min 0, a run that leaves a request and no worker |
| `WorkerPools.WaitingServed` | src/pound.c:310-441 | with min at least 1 the workers, left to themselves, can always take the request that has waited longest |
| `WorkerPools.EnqueueIsPrompt` | src/pound.c:295-301 | right after an enqueue some worker is not busy or the pool is full |
| `WorkerPools.TakeIsPromptIff` | src/pound.c:310-375 | when that still holds after a request is taken |
| `WorkerPools.ExitIsPromptIff` | src/pound.c:336-350 | when that still holds after a worker has left |
| `WorkerPools.BurstWaits` | src/pound.c:295-301 | a run in which a request waits for a busy worker in a pool that could grow |
| `WorkerPools.WorkerPool.Put` | src/pound.c:264-304 | a request is queued and, if all workers are busy and the pool is not full, a worker started |
| `WorkerPools.WorkerPool.Get` | src/pound.c:324-375 | the head of the queue is taken, or the worker sleeps |
| `WorkerPools.WorkerPool.GetLate` | src/pound.c:329-353 | after a timeout the worker leaves, or at the minimum takes the head of the queue or sleeps again |
| `WorkerPools.WorkerPool.Done` | src/pound.c:434-441 | one worker fewer is active |

## Left out

- Sockets, polling, TLS, certificates, signals, processes and WebSocket relaying are not modelled; a stream is a sequence of characters.
- Regular expressions, DNS lookups and password checks are library calls; their results are inputs here.
- The template engine, configuration parsing, logging, metrics and `poundctl` are not modelled: they would only add easy members.
- Backend timing averages use floating point and are not modelled.
- Allocation failures, and reads or writes that ask to be tried again, are not modelled; a write that succeeds is taken to write everything.
- Lines.GetLine: characters above 127 are taken as printable, and upper and lower case are those of ASCII; the locale is not modelled.
- The uniformity of `random_in_range` is not modelled: a draw is any value.
- The order in which a hash table is walked is arbitrary here; its layout is not modelled, and a walk visits each entry once.
- Backends are numbers and never reused, so that a freed backend can be told from a new one; pointers and their reuse are not modelled.
- SRV updates, which make matrices of matrices, are covered by the steps of `Lifecycle` but have no loop of their own in `DnsUpdate`.
- DnsUpdate.DynamicService.SweepBackend: is for regular backends; the sweep of a matrix is the sweep of its backends followed by its own step in `Lifecycle`.
- BoyerMoore.StrstrPattern.FillBadCharDelta: and the search with it is for bytes 0 to 254, since the table has UCHAR_MAX entries and byte 255 would be looked up behind its end (`AlphabetExact`).
- BoyerMoore.StrstrPattern.Compile: likewise for patterns without byte 255.
- BoyerMoore.StrstrPattern.Exec: likewise for subjects without byte 255.
- InterleavedRoundRobin.Select: is for lists on which the loop ends; `TerminatesIffEligible` says which these are.
- Tiers.SelectFrom: likewise, and for lists that are not empty, since `balancer_select_backend` reads the first element without a test.
- Tiers.LbSelect: likewise; `ChooseExactly` says where the search hangs otherwise.
- WeightedRandom.Select: is for sums that fit the `int` that is drawn.
- DnsUpdate.DynamicService.AddrUpdate: stops before the recomputation of priorities and the rescheduling, which `Balancer.dfy` and `Jobs.dfy` model.
- JsonParse.RoundTrip: is stated for strings without hex runs, which excludes some strings that are read back by accident of what follows them; the exact condition is proved where the text ends the document. Numbers are integers of at most 127 characters; hexadecimal escapes and fractions are outside the model.
- JsonDescent.ParserDescends: is as lenient as the code, which takes a comma before a closing bracket and drops a key without a value at the end of an object; acceptance by RFC 8259 alone is not characterised.
- Balancers.RunKeepsAggregates: resurrections are those that fit; `ResurrectSoundIff` says what happens otherwise.
- Relays.Relay.CopyChunks: the position of the input after a fault is not specified.
- JsonObject: `json_object_filter`, which does not maintain the pair count, is not modelled.
