# Budget enforcement, verified

A Dafny model of the gateway's budget enforcement and of the pieces it leans on, with proofs.

A gateway serves calls to model providers and holds them to budgets: so many calls and so many
dollars a run, so many dollars a day and in all an API key. A call is reserved for when it is
admitted and settled when it ends, and both may happen in one process or, through Lua scripts,
in a store shared by any number of replicas. When the store cannot be reached each replica
decides by itself, owes the store what it should have sent, and pays it back in order.

## How it is laid out

| files | what they hold |
|---|---|
| `Money.dfy` | micro-dollars: rounding, what calls in flight are reserved at |
| `Control.dfy`, `Controllers.dfy` | the in-memory controller: its rules on values, and the class that carries them out in place |
| `Ceilings.dfy`, `Accounts.dfy` | what every admission is answered and every settlement stops, without averages; what records say, told from calls and answers alone |
| `Histories.dfy` | what one run or key has been through, kept beside the tallies that resumes, evictions and midnights wipe |
| `RunBounds.dfy`, `KeyBounds.dfy`, `DayBounds.dfy` | bounds on a run's calls and dollars, and on a key's dollars in all and in a day, over every trace |
| `Pauses.dfy`, `Shadow.dfy` | who lifts a pause, and shadow mode, over every trace |
| `Gateway.dfy` | the life of a request, which gives those traces; the copy kept of a response |
| `Store.dfy`, `RedisStore.dfy` | the store's scripts, on values and in place |
| `StoreLedger.dfy`, `StoreKeys.dfy`, `StorePauses.dfy` | what the store's tallies mean to the token, the caps it keeps for runs and keys, and who lifts its pauses |
| `Refinement.dfy` | the scripts and the controller side by side |
| `Replica.dfy`, `SharedCounters.dfy` | one replica: its queue, kill switch, fallbacks, flush and recovery as interleaved steps; its critical sections in place |
| `Delivery.dfy`, `Recoveries.dfy`, `KillSwitch.dfy`, `WriteBacks.dfy` | order and accounting of what is owed, and that it gets there; the kill switch's generations; stops made in a gap, once written back |
| `Clusters.dfy`, `Exactness.dfy`, `ClusterAnswers.dfy` | replicas and store as one transition system; settlement exactly once, and what is answered from it |
| `ClusterBounds.dfy`, `ClusterSpend.dfy`, `ClusterKeys.dfy` | what a whole cluster can serve: of a run in calls and in dollars, of a key in dollars |
| `Nets.dfy`, `Costs.dfy` | shared by those: bounds that do not ask who settles a call, and what settlements cost wherever they wait |
| `ClusterPauses.dfy`, `OverwrittenPause.dfy` | the store's pauses in a cluster: how long they stand, and a run in which one does not |
| `Resp.dfy`, `RespGrammar.dfy`, `RespStreams.dfy`, `Pool.dfy` | the store's client: its protocol, exactly what it accepts, its writer and reader, its connection pool |
| `Loops.dfy`, `LoopDetectors.dfy` | the loop detector against each run's whole history |
| `Streams.dfy` | usage read out of an event stream, however it is cut |
| `Reports.dfy`, `Consoles.dfy` | the report, the dashboard, and how they reconcile |
| `Sets.dfy`, `Sums.dfy`, `ByteStrings.dfy` | shared: sizes of sets, sums of dollars, bytes and lines |

`dafny verify dfyconfig.toml` checks everything.

Tallies are real numbers of micro-dollars in memory and whole ones in the store. A day is a
number; a reason is a value, not a sentence. Each operation of the controller, with the stop
events it hands out, is one step, and so is each script; what became of a script sent to the
store (taken, refused, or unanswered and carried out or not) is a choice of the step that sends
it. Which of two entries seen at the same instant is evicted first is left open, as the code
leaves it. The bounds count what a history holds and not what tallies show, because tallies are
wiped while calls are out.

Two things are taken as given of the store. Whether a script ran is settled at the step that sends
it: a settlement or a pause that reaches the store after it was put back, sent again or dropped is
not modelled; only admissions have late copies. And a refused script is taken not to have run,
though a reply of the wrong length is read as a refusal of a script that did.

Where the code does not meet what it is for, the model keeps the code and says when it does:

- The controller rounds to the nearest micro-dollar and the scripts do not, so from equal tallies
  they can decide differently, exactly in a gap of half a micro-dollar below a cap, though a comment
  (`internal/gateway/control.go:116-118`) has both compare at that precision
  (`Refinement.RunLimitsPartOnlyInTheGap`, `Refinement.KeyLimitsPartOnlyInTheGap`).
- The write-back of a daily key pause can turn the store's total-cap pause into one that midnight
  lifts; `StorePauses.TotalPauseStandsUnlessOverwritten` says exactly when, and
  `StorePauses.OverwrittenPauseLetsThrough` what it costs: with the next day a call is let through
  exactly when the pause did not rest on settled spend. `OverwrittenPause.TotalPauseDoesNotWait` is
  a run of two replicas in which one is.
- Two overlapping kill calls, or a delivery's kill write that the store refuses, can leave the switch
  reading clean with the other value in the store (`KillSwitch.OverlappingCallsDisagree`,
  `KillSwitch.RefusedKillDisagrees`); `KillSwitch.SettledBreaksExactly` and
  `KillSwitch.RefusedDeliveryBreaksExactly` say at which steps. An operator's own write refused does
  no harm: the switch stays dirty.
- A replica's switch is to follow the store's (`internal/gateway/counter_redis.go:1292-1293`),
  but takes up an answer from before a kill was written after the kill has been marked, and in a gap
  that follows serves calls (`KillSwitch.StaleAnswerLetsThrough`). `KillSwitch.InStepPartsExactly` says
  at which steps the two part, and `KillSwitch.CleanMeansEverywhere` that with fresh readings they do not.
- An event stream is read the same however it is cut exactly while no line is longer than the limit
  (`Streams.IndependentOfChunking`).
- The dashboard's bars stand above the total by what estimates have beyond the bills that cover them
  (`Consoles.BarsReconcile`, `Consoles.BarsCanStandAboveTotal`), though a comment in the console
  (`internal/console/console.go:576-580`) has them add up to it.

## Model

| member | source | states |
|---|---|---|
| `Controllers.Controller.AdmitKeyed` | internal/gateway/control.go:336-439 | One admission at one instant leaves exactly the tallies, pauses, stop events and answer that the rules give, evicting only what eviction may; kill, bypass, shadow, pauses, then the key's ceiling, then the run's |
| `Controllers.Controller.DecideLocked` | internal/gateway/control.go:346-439 | The decision on a touched run and key: a pause is looked at before a ceiling, a run's before its key's; a refused call reserves nothing and a served one is counted in flight on both |
| `Controllers.Controller.KeyLocked` | internal/gateway/control.go:237-251 | A key is made on first touch and taken to a later UTC day, never an earlier one; a daily pause goes with the day it was for |
| `Controllers.Controller.KeyCapLocked` | internal/gateway/control.go:271-289 | The total cap comes before the daily one, both against settled spend and what the calls in flight are reserved at |
| `Controllers.Controller.SpendCapLocked` | internal/gateway/control.go:135-141 | The strictest of the server's and the caller's cap, zero meaning none |
| `Controllers.Controller.RunCapLocked` | internal/gateway/control.go:404-432 | The call cap before the spend cap; each counts the calls in flight |
| `Controllers.Controller.PauseLocked` | internal/gateway/control.go:294-302 | A run paused with its reason, and one stop event queued that tells of it |
| `Controllers.Controller.PauseKeyLocked` | internal/gateway/control.go:254-266 | A key paused with its reason and kind, and one stop event with the tallies of the cap that stopped it |
| `Controllers.Controller.Dispatch` | internal/gateway/control.go:307-320 | Every queued stop event is handed out, in order, once |
| `Controllers.Controller.RecordKeyed` | internal/gateway/control.go:449-501 | A served call settled on its key and its run: reservation returned, cost added, paused on settled spend alone; the bounded maps evict only what they may |
| `Controllers.Controller.ReleaseKeyed` | internal/gateway/control.go:511-522 | A call never served gives back its reservation and changes nothing else; an unknown run or key is no error |
| `Controllers.Controller.ResumeRun` | internal/gateway/control.go:587-599 | A paused run is let on, its tallies back at nought; whether there was one |
| `Controllers.Controller.ResumeKey` | internal/gateway/control.go:528-541 | A paused key is let on, its tallies of the day back at nought, and those in all as well unless the pause was for the day |
| `Controllers.Controller.SetRunCap` | internal/gateway/control.go:556-570 | A positive cap is kept for a named run, which is then the most recently seen |
| `Controllers.Controller.SetKilled` | internal/gateway/control.go:601-605 | The kill switch and nothing else |
| `Controllers.Controller.NoteRun` | internal/gateway/control.go:189-209 | A run is tracked from the first note about it, its tallies untouched |
| `Controllers.Controller.NoteKey` | internal/gateway/control.go:213-230 | A note about a key rolls its day over like any other touch |
| `Controllers.Overdue` | internal/gateway/control.go:710-729 | What eviction drops: no paused entry, just as many as it takes to come down to the limit, and none seen later than one it keeps |
| `Controllers.Controller.EvictKeys` | internal/gateway/control.go:683-702 | The same for keys |
| `Ceilings.AdmissionAnswered` | internal/gateway/control.go:336-439 | Every admission, in any state and whatever calls have cost: refused by the kill switch; else passed by a bypass; else objected to by the run's pause, the key's, the key's total cap, its daily one, the run's call cap and either of its spend caps, in that order, which refuses it, or in shadow mode goes with it; a cap is met once dollars and the calls out, each at the floor or the average so far, come up to it at whole micro-dollars; a cap met then and there hands out one stop, with the tallies it looked at |
| `Ceilings.RefusedInProducts` | internal/gateway/control.go:421-433 | A run's spend cap without averages: dollars × (calls settled + calls out) come up to cap × calls settled, or dollars + floor × calls out come up to the cap; the floor alone while none is settled |
| `Ceilings.SettlementStops` | internal/gateway/control.go:449-501 | A settlement stops its key, then its run, each unless paused already, exactly when its settled tallies come up to a cap or a loop is suspected and loops pause |
| `Ceilings.StoreAnswered` | internal/gateway/counter_redis.go:702-818 | The script's answer to a new token in each of its modes, in whole numbers and without averages or rounding: dollars × (calls settled + calls out) against cap × calls settled, or dollars + floor × calls out against the cap |
| `Accounts.RunsAreAsTold` | internal/gateway/control.go:336-605 | On every trace a run's record is what its calls, their answers, the stops handed out and the evictions tell: calls settled, calls out, dollars, its own cap, its pause and reason, when it was last seen |
| `Accounts.KeysAreAsTold` | internal/gateway/control.go:213-605 | The same for a key: its UTC day, the tallies of that day and in all, calls out, its pause and whether it is for the day, when it was last seen |
| `Accounts.AnsweredFromAccounts` | internal/gateway/control.go:336-439 | On every trace, with nothing assumed of costs, the next admission's answer and stop follow from those accounts |
| `Accounts.StoppedFromAccounts` | internal/gateway/control.go:449-501 | And so do the stops of the next settlement |
| `Accounts.SeenWhenTouched` | internal/gateway/control.go:336-570 | A run was last seen at the last admission of it that the kill switch did not refuse, settlement, or cap its caller set; a key at the last such admission, settlement or note |
| `Accounts.RunsLeastRecentGo` | internal/gateway/control.go:707-729 | On every trace no run dropped was paused, or was touched later than an unpaused one that is kept |
| `Accounts.KeysLeastRecentGo` | internal/gateway/control.go:683-702 | No key either |
| `Accounts.OnlyTheseDropRuns` | internal/gateway/control.go:707-729 | Runs are dropped after settlements and callers' caps alone, to the limit and no further; they stay above it only while every one left is paused |
| `Accounts.OnlyTheseDropKeys` | internal/gateway/control.go:683-702 | Keys likewise, after settlements, notes and admissions that served |
| `RunBounds.CallCapBound` | internal/gateway/control.go:336-439 | Over every run of the controller, a run's calls admitted less those given back are at most (effective resumes + evictions + 1) × the call cap, besides the calls a bypass forced through; late records and releases included |
| `RunBounds.CallsStep` | internal/gateway/control.go:336-522 | The inequality that every operation and eviction keeps: admissions outstanding or settled, against one cap a clearance and what the live tallies show |
| `RunBounds.SpendOvershootBound` | internal/gateway/control.go:401-522 | While no call costs more than the floor: all spend ever recorded for a run plus a floor for each call still out is below (clearances + 1) × (cap + floor), and a floor for each forced call, though a resume wipes the reservations of calls still running; inline caps may be set along the way |
| `KeyBounds.KeyTotalBound` | internal/gateway/control.go:237-289 | While no call costs more than the floor: a key's recorded spend plus a floor for each call out is below (clearances + 1) × (total cap + floor) and a floor for each forced call and each reservation midnight (or the resume of a daily pause) wiped, whatever runs it starts and however the clock lags |
| `DayBounds.KeyDayBound` | internal/gateway/control.go:237-289 | While no call costs more than the floor: what a key records within one of its days plus a floor for each call out is below (times its tally was wiped that day + 1) × (daily cap + floor) and a floor for each call that was out when the day began, was forced through since, or lost its reservation to such a wipe since; a key tracked is on the day counted |
| `Gateway.EveryCallSettledOnce` | internal/gateway/gateway.go:156-314 | However requests interleave, since each is admitted once and an admitted one is recorded or released once, on the run and key it was admitted on, every run's and key's trace settles each of its calls at most once |
| `Gateway.GatewaySpendBound` | internal/gateway/gateway.go:156-314 | The spend bound for a gateway from its start, with nothing assumed of its traces but the life of a request |
| `Gateway.GatewayKeyBound` | internal/gateway/gateway.go:156-314 | The key bound, likewise |
| `Gateway.CapWriter.Write` | internal/gateway/gateway.go:524-533 | What is kept of a response is its front, at most the limit, however it is cut into writes |
| `Pauses.StopsAndClearsAlternate` | internal/gateway/control.go:254-320 | Over every run of the controller, the stop events sent for a run or a key, less the pauses an operator lifted and those midnight lifted, are 1 while it is paused and 0 while it is not; midnight lifts no run's |
| `Pauses.HeldUntilResumed` | internal/gateway/control.go:528-599 | Only an operator lifts a run's pause or a key's total-cap pause: it stands, with its reason, through midnights, evictions, bypasses and all other traffic |
| `Pauses.DayMovesForward` | internal/gateway/control.go:237-251 | A key's day never moves back while it is tracked, however the clock lags |
| `Shadow.FaithfulRehearsal` | internal/gateway/control.go:336-501 | From like states without a kill, a shadow and an enforcing controller pass through the same tallies, pauses and stop events (but for the shadow mark) and answer alike, until the enforcing one first turns a call away; there shadow serves the call with the same reason, and has marked nothing earlier |
| `RedisStore.Redis.Admit` | internal/gateway/counter_redis.go:702-818 | The admission script: a token seen before is answered as it was, then the kill switch, then pauses and ceilings; refused, served and shadowed calls leave what they should |
| `RedisStore.Redis.RollOver` | internal/gateway/counter_redis.go:731-738 | A key's daily tally, its reservations and its daily pause go when the day has changed |
| `RedisStore.Redis.CodeForKey` | internal/gateway/counter_redis.go:773-779 | A key's ceilings in whole micro-dollars, compared without rounding, total before daily |
| `RedisStore.Redis.CodeForRun` | internal/gateway/counter_redis.go:793-805 | A run's ceilings, calls before spend, the stricter of the two spend caps |
| `RedisStore.Redis.Record` | internal/gateway/counter_redis.go:822-886 | A settlement counts once per token, on the run and on the key rolled over to today, and may pause either on settled spend |
| `RedisStore.Redis.Release` | internal/gateway/counter_redis.go:889-903 | A reservation given back once per token |
| `RedisStore.Redis.FirstSettlement` | internal/gateway/counter_redis.go:826-827 | Whether the token is new to the store, which then has it |
| `RedisStore.Redis.SetCap` | internal/gateway/counter_redis.go:906-909 | The caller's cap, replacing an earlier one |
| `RedisStore.Redis.ResumeRun` | internal/gateway/counter_redis.go:912-916 | A paused run is let on, its tallies back at nought; an unpaused one stays as it is |
| `RedisStore.Redis.ResumeKey` | internal/gateway/counter_redis.go:920-928 | A paused key is let on, its tallies of the day back at nought, and those in all as well unless the pause was for the day |
| `RedisStore.Redis.WriteRunPause` | internal/gateway/counter_redis.go:931-936 | A fallback's pause, written over whatever the run's was |
| `RedisStore.Redis.WriteKeyPause` | internal/gateway/counter_redis.go:942-952 | A fallback's key pause; a daily one from before the store's day is not written, one from a later day starts that day |
| `StoreLedger.AdmitConserves` | internal/gateway/counter_redis.go:702-818 | Every admission keeps a run, and each day's bucket of a key's calls without one, accounted for to the token, however often it is sent and whatever it decides |
| `StoreLedger.ExecConserves` | internal/gateway/counter_redis.go:822-952 | So does every other script |
| `StoreLedger.MarksSurvive` | internal/gateway/counter_redis.go:702-952 | No script at all, and no run of scripts, forgets that a token was admitted or settled |
| `StoreLedger.SettledOnce` | internal/gateway/counter_redis.go:826-827 | Once a settlement is carried out, no other with its token changes anything, whatever scripts have run in between and however late it is |
| `StoreLedger.ServedOnce` | internal/gateway/counter_redis.go:707-712 | An admission served once is served again by the same reservation, changing nothing, whatever scripts have run since and whatever the day and the mode: pauses, settlements, resumes and a kill among them |
| `StoreLedger.RefusedOnce` | internal/gateway/counter_redis.go:707-710 | An admission refused at a ceiling is refused again with the same code, changing nothing, whatever scripts have run since, a resume among them |
| `StoreLedger.AdmitKeepsCalls` | internal/gateway/counter_redis.go:702-818 | The store lets no run past its call cap, for all replicas at once: the inequality an admission keeps |
| `StoreLedger.ExecKeepsCalls` | internal/gateway/counter_redis.go:822-952 | The same inequality, kept by every other script, resumes included |
| `StoreKeys.StoreKeyBound` | internal/gateway/counter_redis.go:702-952 | Through any scripts of any replicas that record no more than the floor a call: the dollars recorded for a key plus a floor for each of its calls out are below (total-cap resumes + 1) × (total cap + floor) and a floor for each call forced through and each reservation wiped on its own |
| `StoreKeys.TotalIsRecorded` | internal/gateway/counter_redis.go:822-886 | Through any scripts at all, until it is first cleared a key's total is what was recorded for it, each settlement once |
| `StorePauses.OnlyResumeLiftsRun` | internal/gateway/counter_redis.go:912-936 | In the store a run's pause is lifted by its resume and no other command |
| `StorePauses.AdmissionHolds` | internal/gateway/counter_redis.go:702-818 | No admission lifts a run's pause or a key's total-cap pause, or changes its reason |
| `StorePauses.PausedRunRefuses` | internal/gateway/counter_redis.go:758-763 | A paused run's next call is refused with its reason, and leaves nothing behind but its key's day |
| `StorePauses.PausedKeyRefuses` | internal/gateway/counter_redis.go:764-769 | A paused key's likewise, while its day lasts if the pause is for the day |
| `StorePauses.WrittenRunPauseRefuses` | internal/gateway/counter_redis.go:931-936 | Once a fallback's pause of a run is written back, the store refuses the run's next call with the fallback's reason, and reserves nothing |
| `StorePauses.WrittenKeyPauseRefuses` | internal/gateway/counter_redis.go:942-952 | Once one of a key is written back, on a day that is not past there, the store refuses the key's calls with that reason, for good or exactly until the day is over |
| `StorePauses.PastPauseIsNotWritten` | internal/gateway/counter_redis.go:942-946 | A daily pause of a day past in the store changes nothing |
| `StorePauses.TotalPauseStandsUnlessOverwritten` | internal/gateway/counter_redis.go:938-952 | A key's total-cap pause in the store should be an operator's to lift; it stands exactly unless the command is its resume or the write-back of a daily pause made on the store's day or later |
| `StorePauses.OverwrittenPauseEndsAtMidnight` | internal/gateway/counter_redis.go:938-952 | What such a write-back leaves is a daily pause, gone with the next day; what the key has spent in all is as it was |
| `StorePauses.FirstCallOfTheNextDay` | internal/gateway/counter_redis.go:731-779 | With the day of a daily pause over, and no other pause, kill or ceiling of the run's in the way, a call is let through if and only if the key's settled spend is below its total cap or it has none; turned away, the key is paused on that cap |
| `StorePauses.OverwrittenPauseLetsThrough` | internal/gateway/counter_redis.go:938-952 | So a total-cap pause written over lets a call through the next day if and only if it did not rest on settled spend; otherwise that call makes it again |
| `StorePauses.RunPauseStands` | internal/gateway/counter_redis.go:702-952 | A run's pause in the store stands through any scripts of any replicas but its own resume |
| `StorePauses.TotalPauseStands` | internal/gateway/counter_redis.go:702-952 | A key's total-cap pause stands through any scripts but its resume and the write-back of a daily pause of the store's day or a later one |
| `ClusterPauses.StoreIsScripts` | internal/gateway/counter_redis.go:446-575 | However replicas interleave, with lost answers, repeats and late copies, the store is what the scripts that reached it, in the order they did, make of it: some run of `Store.RanAll` |
| `ClusterPauses.RunPauseStandsInCluster` | internal/gateway/counter_redis.go:912-936 | In every cluster, once the store has a run paused it stays so until a resume of that run is carried out there |
| `ClusterPauses.TotalPauseStandsInCluster` | internal/gateway/counter_redis.go:938-952 | Likewise a key's total-cap pause, until a resume of the key or an overwriting write-back is |
| `OverwrittenPause.TotalPauseDoesNotWait` | internal/gateway/counter_redis.go:938-952 | From every start of two replicas there is a run, with no operator in it, that pauses a key on its total cap, has a fallback's daily pause land on it, and serves the key's first call of the next day |
| `Refinement.StoreRefinesController` | internal/gateway/counter_redis.go:702-928 | From agreeing counters, on every trace with fresh tokens, one clock, whole costs within the floor and no eviction, scripts and controller answer alike and their tallies, pauses and reasons agree throughout, deciding, bypassing and in shadow |
| `Refinement.EmptyCountersAgree` | internal/gateway/counter_redis.go:719-747 | What the scripts read of a run or a key with no record, nought and unpaused, agrees with a new controller, so the refinement holds from the start |
| `Refinement.RunLimitsPartOnlyInTheGap` | internal/gateway/control.go:401-432 | Without the floor assumption: at a run's ceilings controller and script part if and only if the call cap is not met and the projected spend lies within half a micro-dollar below the spend cap |
| `Refinement.KeyLimitsPartOnlyInTheGap` | internal/gateway/control.go:271-289 | The same for a key's two caps |
| `Refinement.AdmissionsPartOnlyInTheGap` | internal/gateway/counter_redis.go:702-818 | From agreeing counters an admission ends differently only when its run's or its key's projection lies in that gap |
| `Refinement.TheGapIsReal` | internal/gateway/control.go:112-119 | A run the controller stops and the script does not |
| `Delivery.OwedDelivery` | internal/gateway/counter_redis.go:446-575 | After any run of a replica: every item ever owed is taken, refused, dropped, in the batch or queued, once; what was taken has run; items first ran in the order they were owed; nothing pending was owed before one that has run |
| `Delivery.GapEnds` | internal/gateway/counter_redis.go:598-657 | A recovery ends having found nothing pending after decisions went back to the store, or with the replica in its gap still and every untaken item pending in order; only the hand-over ends a gap |
| `Recoveries.FlushDelivers` | internal/gateway/counter_redis.go:579-591 | A healthy replica at rest can flush exactly if something is owed or its switch is dirty; with every command answered the flush gets all of it taken and leaves the replica at rest |
| `Recoveries.GapCanEnd` | internal/gateway/counter_redis.go:598-657 | From a gap, with every command answered, a recovery gets everything taken, reads the store's switch and hands back, with nothing pending, to a fallback that holds it |
| `Recoveries.UnansweredCanRetry` | internal/gateway/counter_redis.go:484-530 | A command that goes unanswered leaves everything pending and the lock free, and the replica able to flush again, recover again, or go back to its gap |
| `Recoveries.ThreePassesAtMost` | internal/gateway/counter_redis.go:607-625 | Over any run, a recovery asks for the store's switch after a pass that leaves nothing owed and the switch clean, or the third, and makes another pass otherwise |
| `Delivery.SendingKeeps` | internal/gateway/counter_redis.go:505-530 | Taking, refusing or losing the head of a batch keeps all of that; a lost one puts everything back |
| `Delivery.OldestGoesFirst` | internal/gateway/counter_redis.go:446-454 | A full queue lets go of the item owed longest ago, counts it, and never of the new one |
| `Delivery.PausesAreOwed` | internal/gateway/counter_redis.go:213-219 | While a replica is in a gap, every pause its fallback makes is queued for the store, in order; out of one, none is |
| `WriteBacks.RunStopReachesStore` | internal/gateway/counter_redis.go:213-219 | In every cluster: a run in a stop event of a gap's fallback is owed as a pause with its reason; and once the store has taken that, the run is paused there until its resume is carried out there |
| `WriteBacks.DayStopReachesStore` | internal/gateway/counter_redis.go:213-219 | A key stopped for the day is owed as a pause of the stop's UTC day; taken where that day is not past, it holds until the key's resume or a later day |
| `WriteBacks.TotalStopReachesStore` | internal/gateway/counter_redis.go:213-219 | A key stopped on its total is owed as such, and once taken stays so until its resume or an overwriting write-back |
| `KillSwitch.LastSetWins` | internal/gateway/counter_redis.go:1422-1457 | Under any calls, deliveries, gaps, recoveries, lost answers and mirroring: while the switch is dirty the replica holds the operator's last value, and the fallback always holds what the replica holds. With calls one after another, on one replica, and no delivery's kill write refused (an operator's own may be), once the switch is clean the store holds the operator's last value |
| `KillSwitch.AlwaysHeldHere` | internal/gateway/counter_redis.go:1422-1432 | The first half of that from any state it holds in, with nothing assumed of the calls or the store's answers |
| `KillSwitch.DirtyKillHolds` | internal/gateway/counter_redis.go:1153-1168 | While the store has not taken an operator's kill, this replica serves nobody, in a gap or out of it, a bypass included; whatever operators' calls overlap and whatever the store refuses |
| `KillSwitch.InStepPartsExactly` | internal/gateway/counter_redis.go:1292-1301 | Assuming nothing: from a switch that reads clean and is the same here and in the store, a step parts the two if and only if it writes another value under it, marks the latest generation while they differ, or takes up a reading that is no longer true, from an answer or at the end of a gap |
| `KillSwitch.CleanMeansEverywhere` | internal/gateway/counter_redis.go:1292-1301 | With calls in order and no outdated reading taken up, a switch that reads clean is the operator's last value here, in the fallback and in the store |
| `KillSwitch.StaleAnswerLetsThrough` | internal/gateway/counter_redis.go:1225-1301 | One call in order, nothing lost or refused: an old answer taken up after it turns the replica's switch off, and a gap then serves a call that the kill in the store forbids |
| `KillSwitch.OneWriteEach` | internal/gateway/counter_redis.go:1422-1457 | Over any run each of an operator's calls outside a gap writes to the store once or is still to |
| `KillSwitch.OverlappingCallsDisagree` | internal/gateway/counter_redis.go:1422-1457 | Two overlapping calls can leave the switch clean and the store with the other value |
| `KillSwitch.SettledBreaksExactly` | internal/gateway/counter_redis.go:1422-1457 | Assuming nothing: from a switch that is dirty or rightly clean, a step leaves it wrongly clean if and only if it carries out a write of another value under a clean switch, or marks the latest value written while the store holds another |
| `KillSwitch.RefusedKillDisagrees` | internal/gateway/counter_redis.go:489-503 | So can a kill write the store refuses |
| `KillSwitch.RefusedDeliveryBreaksExactly` | internal/gateway/counter_redis.go:472-504 | A delivery's kill write that is answered, then marked, leaves the switch wrongly clean if and only if it was refused, no newer value was set since it was taken up, and the store held another value |
| `SharedCounters.SharedCounter.Owe` | internal/gateway/counter_redis.go:446-454 | A command queued last; of a full queue the oldest item is dropped and counted |
| `SharedCounters.SharedCounter.Degrade` | internal/gateway/counter_redis.go:389-410 | A fresh fallback, with the switch and the pauses noted, that owes its pauses, once; a counter in a gap is left as it is |
| `SharedCounters.SharedCounter.HandBack` | internal/gateway/counter_redis.go:633-648 | Decisions go back to the store over a fresh fallback with the pauses noted; the store's kill switch is taken over unless the operator's is dirty |
| `SharedCounters.SharedCounter.SetKilled` | internal/gateway/counter_redis.go:1422-1432 | The value set here and on the fallback at once, dirty, with a new generation |
| `SharedCounters.SharedCounter.MirrorKill` | internal/gateway/counter_redis.go:1294-1301 | The store's switch is followed here and on the fallback, unless the operator's is dirty |
| `SharedCounters.FreshFallback` | internal/gateway/counter_redis.go:196-212 | A fresh fallback holds the kill switch's value and every pause the replica has seen, but for daily ones of days past, and no tallies |
| `SharedCounters.NotedAreRefused` | internal/gateway/counter_redis.go:196-212 | Through what it answers: a fresh fallback refuses a run noted, and a key noted if the note is not for a day, or is for its own day or later and that day is not over, with the reason noted; every other call it answers as one that knows of nothing |
| `SharedCounters.SharedCounter.Take` | internal/gateway/counter_redis.go:534-575 | One command, carried out by its script |
| `SharedCounters.SharedCounter.DeliverKill` | internal/gateway/counter_redis.go:472-504 | A dirty kill switch is written with the value it has here, and reads clean unless the write goes unanswered; a clean one sends nothing |
| `SharedCounters.SharedCounter.DeliverOwed` | internal/gateway/counter_redis.go:505-530 | Left alone, a delivery comes to sending the items one by one in order, until one goes unanswered, whatever the batches; that one and all after it are still owed |
| `SharedCounters.SharedCounter.Deliver` | internal/gateway/counter_redis.go:467-531 | The kill switch goes before anything queued: if its write goes unanswered it stays dirty, the queue is as it was and nothing else has run; otherwise the queue is delivered in order |
| `SharedCounters.BatchesMakeNoDifference` | internal/gateway/counter_redis.go:505-530 | Sending the head of a batch is sending the head of the queue with the batch put back |
| `SharedCounters.AllAnsweredLeavesNothing` | internal/gateway/counter_redis.go:505-530 | A delivery that loses no answer leaves nothing owed, and every item taken or refused |
| `SharedCounters.DeliveryRuns` | internal/gateway/counter_redis.go:505-530 | What a delivery makes of the store is what its items' scripts do, in order, up to one that goes unanswered |
| `Exactness.ExactlyOnce` | internal/gateway/counter_redis.go:446-575 | In every state replicas and store can reach: the tokens of a run, and of a key's calls that have no run, are each admitted once and settled at most once; every open token is held by an admission unanswered or given up, a call under way or ended, or a settlement queued, in a batch, dropped or refused; until a run's first resume, the store's calls in flight, calls and dollars are those of its open tokens, its recorded tokens and their costs |
| `Exactness.ArrivalServes` | internal/gateway/counter_redis.go:702-818 | To the tokens of a run, or of a bucket of calls without one, the admission script does one thing: it serves the one it was sent, or nothing |
| `Exactness.ExecutionSettles` | internal/gateway/counter_redis.go:822-952 | Every other script settles the token it names, or nothing |
| `ClusterBounds.ClusterWideBound` | internal/gateway/counter_redis.go:1153-1329 | Over every interleaving of replicas, gaps, recoveries, lost answers, repeats and late copies: the calls of a run any replica served, less those given back, are at most what the store and each fallback ever built allow on their own |
| `ClusterBounds.OneCapEach` | internal/gateway/counter_redis.go:389-410 | With no resume, bypass or eviction that is the call cap × (1 + the fallbacks ever built) |
| `ClusterSpend.ClusterSpendBound` | internal/gateway/counter_redis.go:1153-1329 | While no call costs more than the floor, over every interleaving: the dollars of a run recorded in the store and by every fallback ever built, plus a floor for each call out, are below (cap + floor) × the store, the fallbacks and their resumes and evictions together, and a floor for each forced call; which of them settles a call need not be the one that admitted it |
| `ClusterKeys.ClusterKeyBound` | internal/gateway/counter_redis.go:1153-1329 | The same for a key and its total cap, whatever runs its calls have or none: recorded in the store and by every fallback ever built, against one cap and one floor each, and a floor for each call forced through and each reservation wiped by midnights, write-backs and resumes of daily pauses |
| `ClusterKeys.KeyTotalIsRecorded` | internal/gateway/counter_redis.go:446-575 | In every state replicas and store can reach, until it is first cleared a key's total in the store is what was recorded there, however often settlements are sent |
| `ClusterAnswers.AnsweredFromTokens` | internal/gateway/counter_redis.go:702-818 | In every state replicas and store can reach, with nothing assumed of costs: until a run's first resume, its next call is answered from its tokens alone, those recorded with their costs and those open, by products against the call cap and either spend cap |
| `ClusterAnswers.GivenUpIsNotServed` | internal/gateway/counter_redis.go:1153-1329 | Over every interleaving an admission is on its way, given up or heard, one of the three; a call given up, and decided elsewhere, is never served by the store's leave as well |
| `Resp.RoundTrip` | internal/gateway/resp.go:280-337 | For every nested reply tree a server may send, reading its encoding gives back the reply, the two nulls as one, and consumes just its bytes |
| `RespGrammar.ReadsExactly` | internal/gateway/resp.go:280-337 | The client reads a reply exactly if the stream begins with one of a grammar stated apart from the reading, and then consumes just that: lines to their CRLF, whole numbers of 64 bits with a sign or not, bulks of the length said and two bytes after, arrays of the number said, negative lengths as null |
| `RespGrammar.CutShort` | internal/gateway/resp.go:280-337 | A reply of the grammar cut short anywhere is the end of the stream, never a reply |
| `RespGrammar.LineReadsExactly` | internal/gateway/resp.go:269-278 | A line is read exactly if the stream's first line feed ends it with a carriage return before it; with no line feed the stream is at its end |
| `RespGrammar.DecimalParsesExactly` | internal/gateway/resp.go:291-296 | A number in decimal is read exactly if it fits 64 bits with a sign |
| `Resp.OneLineExactly` | internal/gateway/resp.go:269-278 | A one-line reply comes back whole if and only if it holds no line feed |
| `Resp.CommandReadsBack` | internal/gateway/resp.go:257-267 | A command of any arguments, CR and LF included, reads back as those arguments and nothing after it is consumed |
| `Resp.CommandsReadBack` | internal/gateway/resp.go:257-267 | Commands written one after another read back one by one, each whole |
| `RespStreams.WriteCommand` | internal/gateway/resp.go:257-267 | What is written, whatever follows it, reads back as just the arguments |
| `RespStreams.Reader.NextLine` | internal/gateway/resp.go:269-278 | A line up to its CRLF, or why there is none; the rest stays unread |
| `RespStreams.Reader.NextReply` | internal/gateway/resp.go:280-337 | One reply of the stream, by the protocol's own reading, or the fault it has; the rest stays unread |
| `RespStreams.Reader.NextReplies` | internal/gateway/resp.go:313-334 | An array's elements in turn, error replies among them |
| `Pool.PoolBound` | internal/gateway/resp.go:113-187 | Under any interleaving of goroutines: connections idle, checked out or being dialled never outnumber the 64 slots though idle ones hold none, at most 8 are being dialled, and none is in two hands |
| `Pool.StepShares` | internal/gateway/resp.go:119-134 | Finding none idle, the one step that could pass the bound, does not |
| `Pool.CanFinish` | internal/gateway/resp.go:134-187 | Whatever the others do, a goroutine can always finish by steps of its own, and gives back the slot and the turn to dial it holds; no receive blocks |
| `Loops.AgreesWithHistory` | internal/gateway/loop.go:69-142 | While no more runs than the cap are ever active at once, each decision is the one the run's whole history in the window calls for; with the cap dropping runs, counts never exceed the true ones, so no loop is falsely suspected; at most the cap of runs are tracked after each request |
| `Loops.FlaggedExactly` | internal/gateway/loop.go:69-116 | From the history alone: a decision counts the run's requests of the window, this one among them, flags the rate exactly when they reach the limit on them, and a repeat exactly when those that are alike reach theirs; with the cap dropping runs, neither unless it should |
| `Loops.TrackedExactly` | internal/gateway/loop.go:121-142 | After each request a run tracked has one in the window, and short of the cap every run that has is tracked |
| `Loops.RepeatIsLargest` | internal/gateway/loop.go:90-98 | The repeat count is the largest number of identical requests |
| `Loops.Configured` | internal/gateway/loop.go:54-65 | The defaults leave a window and a cap that are positive |
| `LoopDetectors.Compact` | internal/gateway/loop.go:79-85 | Filtering in place leaves the requests in the window, in order, at the front of the same buffer |
| `LoopDetectors.LargestRepeat` | internal/gateway/loop.go:90-98 | Counting each request as it is seen finds the largest number of identical ones |
| `LoopDetectors.Detector.Note` | internal/gateway/loop.go:73-87 | The run's old requests dropped and the new one added, last |
| `LoopDetectors.Detector.Observe` | internal/gateway/loop.go:69-116 | The decision on the run's own window, and runs then dropped as eviction may |
| `LoopDetectors.Detector.Evict` | internal/gateway/loop.go:121-142 | Runs whose last request left the window, then the least recently seen beyond the cap |
| `Streams.IndependentOfChunking` | internal/gateway/stream.go:41-59 | Any two ways of cutting a stream into writes read the same usage, model and got flag, those of its terminated lines in order, if and only if no terminated line is longer than the limit |
| `Streams.Written` | internal/gateway/stream.go:41-59 | After each write, for any stream at all, the buffer kept is at most the limit |
| `Streams.UsageIsTheLastSent` | internal/gateway/stream.go:117-153 | Usage was got exactly when some frame carried it; for OpenAI and Gemini it is the last one sent |
| `Streams.AnthropicMergesTwo` | internal/gateway/stream.go:127-143 | For Anthropic, input, cache reads and both kinds of cache writes are those of the last message opened, writes of no stated kind being short ones; output is the last one sent |
| `Streams.ModelIsTheLastNamed` | internal/gateway/stream.go:96-116 | The model is the one the last frame that names any names, by the first of its three places |
| `Streams.SseUsage.Write` | internal/gateway/stream.go:41-59 | Each line the chunk completes is consumed, in order, and a remainder past the limit dropped |
| `Streams.SseUsage.Consume` | internal/gateway/stream.go:96-154 | What a frame of each provider adds |
| `Reports.CountsExactly` | internal/report/report.go:132-140 | An event counts, as often as it is in the ledger, exactly when it is a cost row or no cost row of its provider covers its day |
| `Reports.RowCoverage` | internal/report/report.go:120-127 | A cost row covers its start day and each later day that begins before it ends, at most 400 |
| `Reports.CostCoverage` | internal/report/report.go:114-130 | The provider-days covered are those some cost row covers |
| `Reports.Included` | internal/report/report.go:204-213 | The events that count, in order |
| `Reports.Build` | internal/report/report.go:217-311 | The total, the unknown dollars and the lines by provider, owner and model are those of the events that count |
| `Reports.LinesSumToTotal` | internal/report/report.go:281-310 | Each breakdown's lines sum to the total, the total is the sum over Included, and the unknown dollars are the unknown owner's line |
| `Reports.LinesAreOf` | internal/report/report.go:217-280 | Each line by provider, owner or model is the sum over the events that count that are its |
| `Reports.OwnerNames` | internal/report/report.go:142-156 | An owner is the team, project, agent and customer tagged, in that order, with slashes; with no tag at all it is unknown |
| `Reports.CostRowExactly` | internal/report/report.go:77-83 | A cost row has no tokens and no request, and a figure at least the provider's own |
| `Reports.CoversItsDays` | internal/report/report.go:120-127 | A cost row covers the day it starts on and each other day with an instant of it, of the first 400 |
| `Reports.OrderMakesNoDifference` | internal/report/report.go:217-311 | Permuting the ledger changes nothing in the report |
| `Consoles.BarsReconcile` | internal/console/console.go:349-387 | The bars by team and by agent each add up to the total and, over every metered provider-month, what its covered estimate has beyond its bill; those by day and by model add up to as much without the unmetered line |
| `Consoles.BarsNeverBelowTotal` | internal/console/console.go:576-591 | While no metered month without a bill of its own has a covered estimate below nought, the bars never fall below the total, and equal it exactly when no bill is under the estimate it covers |
| `Consoles.NoNegativeCosts` | internal/console/console.go:357-373 | That is so whenever no metered call has a negative cost |
| `Consoles.BarsCanStandAboveTotal` | internal/console/console.go:576-591 | A ledger of one bill and one dearer metered call that it covers, whose team bars stand above its total |
| `Consoles.MonthReconciles` | internal/console/console.go:349-387 | The same, provider-month by provider-month |
| `Consoles.BarsAreOf` | internal/console/console.go:349-373 | A bar by team, agent or day is the sum over the rows attributed with its tag, those without one under one name, or on its day |
| `Consoles.Sort` | internal/console/console.go:357-373 | Each row goes to its month's bill, its covered estimate and the rows attributed, as it should; of bill rows only those of a provider-month with no metered row are attributed |
| `Consoles.Unmetered` | internal/console/console.go:582-591 | What metered months' bills have beyond what they cover, in whatever order months are taken |
| `Consoles.SummaryOf` | internal/console/console.go:337-671 | The dashboard's sums are those of one coverage, one sorting of the rows and the report's total |
| `Sums.LinesAddUp` | internal/report/report.go:188-197 | Adding row by row to a line per key, the lines sum to the rows |
| `Sums.LinesPermute` | internal/report/report.go:188-197 | The lines do not depend on the order of the rows |

## Left out

- Refinement.StoreRefinesController: excludes `noteKey`, which rolls a key's day over in memory and sends nothing to the store, and assumes whole costs no dearer than the floor; without the floor the exact place where the two part is stated instead.
- Exactness.ExactlyOnce: after a run's first resume only its tokens are accounted for, since a resume zeroes tallies under calls still out.
- KillSwitch.LastSetWins: what it says of the store assumes one replica is the only writer of the switch, its operator's calls do not overlap and no delivery's write of it is refused; without the last two, `KillSwitch.SettledBreaksExactly` says which steps break it.
- ClusterSpend.ClusterSpendBound: the cap rounds to a micro-dollar or more (to nought, the store reads it as no cap), the floor is whole micro-dollars and no call dearer than it, and shadow mode is off.
- ClusterKeys.ClusterKeyBound: the same assumptions, with the total cap.
- DayBounds.KeyDayBound: about one controller; the same in the store and across a cluster is not stated.
- Controllers.Controller.PauseLocked: the stop event's agent, team and model are left out, and a hook is taken to be set.
- Controllers.Controller.PauseKeyLocked: the stop event's agent, team and model are left out, and a hook is taken to be set.
- Controllers.Controller.NoteRun: the agent, team and model noted are not kept.
- Controllers.Controller.NoteKey: the agent, team and model noted are not kept.
- Streams.SseUsage.Consume: what a line says is an unknown function from lines to frames; trimming, the `data:` prefix and JSON are part of it.
- Delivery.OwedDelivery: dropped and refused items are never sent again, so order is that of first runs.
- SharedCounters.NotedAreRefused: which pauses a replica has noted is given; that answers of the store note and forget them is not modelled.
- SharedCounters.SharedCounter.Deliver: as for `SharedCounters.SharedCounter.DeliverOwed`.
- SharedCounters.SharedCounter.DeliverOwed: states a delivery nothing else interleaves with; the interleavings are those of `Delivery.OwedDelivery`.
- SharedCounters.SharedCounter.SetKilled: ends where the lock is let go; the write that follows is a separate step of `KillSwitch`.
- Streams.SseUsage.Write: lines are read as `Streams.SseUsage.Consume` reads them.
- Reports.Build: dollars only. A line's confidence and count, the cache, spike and reconciliation sections, sorting and notes are not modelled.
- Consoles.SummaryOf: the sums that reconcile. Runs, keys, shadow lines, refusals and labels are not modelled, nor is the choice of window.
- Loops.AgreesWithHistory: time does not go back between observations.
- Controllers.Controller.AdmitKeyed: one reading of the clock an operation; the code reads it once or twice.
- Pool.PoolBound: states the pool as steps over values, since what matters in it is how goroutines interleave; deadlines are the choice not to take a step.
- The decision to fall back (failure streaks, busy pools, kinds of error) is a free choice of steps: any failure may or may not degrade.
- Replicas and clusters are transition systems on values; the class in `SharedCounters.dfy` covers the replica's critical sections, and run and key records are values in a map rather than objects reached by reference.
- In a cluster, what fallbacks evict is unconstrained: the bound counts each eviction as a clearance.
- A direct resume can overtake a pause still queued once a gap has ended: commands sent straight to the store and queued ones are not ordered against each other.
- Calls with neither run nor key are never capped; of them only the kill switch matters.
- Expiry of keys in the store, attribution notes (agent, team, model), status listings and the calls and dollars scripts return for alerts.
- Rounding of floating-point sums, formatting of money, and the sentences of reasons.
- Keys joined with `|` in the report and the console are pairs here; two providers whose names contain `|` could collide in the code.
- Tokens and ids are unique; fingerprints, hashes and random bases are not modelled.
- Proxying, headers, TLS, dialling, deadlines, CSV and JSON decoding, importers, templates, charts, flags, webhooks, price tables and owner mapping: input and output, or one branch to read.
