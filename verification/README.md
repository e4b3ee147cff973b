# A model of the Nfuse metering engine

Nfuse meters TCP and UDP ports with nftables and cuts an account off when its byte quota is spent or
its expiry has passed. One truth lives in three places: the SQLite tables (accounts, ports, counters,
tokens), the controller's memory (desired snapshot, live sample, generation, expired set, "unsynced"
flag, master token) and the kernel table (quota objects, counters, rule chains). This project models the
engine that keeps them together and proves what its comments and documentation promise.

How it is put together:

- `Model` holds the domain types and `Validate`; `Tables` the relations with their keys, foreign keys,
  cascades and UPDATE-only persistence; `Store.Database` the SQLite store as an object over them.
- `Ruleset` is the kernel: rules as data, a packet walk, and the rendering of a tree of accounts and
  ports. `Compiler` is `buildScript` as the source writes it, loops appending commands, together with
  the transaction semantics of those commands and the `Manager` around it. `Names` reads a listing back
  by parsing object names.
- `Engine` is a step machine over the three copies. Everything between taking and releasing the
  controller's lock is split where other actors can act, so packets, the clock, the sampler's kernel
  read and in-flight persist writes interleave freely with a reconcile, and a crash, a reboot or a failed
  apply may come anywhere. `Structure` and `Invariant` hold what every step keeps, `Metering` and
  `MeteringProof` an account of every byte kept beside the machine, which `Stretches` lets begin in any
  reachable state outside a reconcile. `Guarantees`, `Straddling`, `Retrying`, `Lowering`, `Enforcement`,
  `Truthfulness`, `Pause`, `Tokens` and `Resets` hold what follows for all runs, and `Direct` restates the
  metering theorems without the meter. `Views` says how a view is made, `Mutations` what each mutation
  does to the rows. Lemmas named `..Spelled` tie the definitions to literal figures.
- `Control.Controller` is the controller as an object. Each of its lock sections is proved to be a step
  of the machine, and a whole reconcile or start-up to be a run of it (`Runs` has the steps spelled out).
- `Calendar`, `Billing`, `Text`, `ExpiryText` and `ExpiryForms` are the civil calendar (month lengths and leap years
  as in section 5.7 and Appendix C of RFC 3339), the billing boundary and the expiry texts, in a zone
  with a fixed offset.

Assumptions about the kernel, all from the source's package comment (internal/nft/nft.go:42-55) and
README.md:588-598: a `quota over L` statement charges the packet and fires when the charged total
exceeds L, `drop` ends the walk, a listed `used` is capped at L, and a script is one transaction.

## Where the code promises more than it keeps

Except for the window traffic, `Limits` holds a concrete run or input for each of these; the exact
conditions are named below.

- The comment on `persistNow` (internal/engine/engine.go:268-274) says a late write is healed by the
  next sample. A batch copied before a reconcile can be written between its fold and its reload, and the
  rebuild then seeds the kernel with the old figure, undoing a reset. What is said about seeds holds for
  every reconcile that no such write straddles, whatever straddled earlier ones (`Unstraddled`), and what
  is said about metered bytes for every stretch of a run without one. `Straddling.StraddleExact` and
  `Straddling.StraddleConserves` say exactly which straddling writes, however many, do harm, and
  `Straddling.NoBatchNoStraddle` that there can be none if no batch is in flight when the reconcile
  begins. What is said about structure needs no such hypothesis.
- When the apply of a reset or a set-usage fails, the retry samples the old kernel quota and folds it
  over the saved figure (internal/engine/engine.go:352-373, 386-392), and so does a restart
  (internal/engine/engine.go:165-188). `Retrying.FailedUsageChange` and `Retrying.FailedUsageRestart`
  give the exact condition, and `Retrying.IdleFailedChange` what it comes to when the account is idle
  until the retry: the change survives only if it asked for what the kernel listed already. A monthly
  reset undone in this way is not made again before the next boundary (`Resets.OneAutomaticReset`).
  Structure and expiry do converge (`Guarantees.PublishRestores`).
- Packets accepted between a reconcile's sample and its apply are replaced away. The conservation and
  breaker theorems carry them as an explicit term.
- A table reseeded from its own listing treats an empty packet differently from the original when the
  quota was charged past its limit; `Ruleset.ReseedVerdictExact` is the exact condition.
- `FormatExpiry` prints years after 9999 that `ParseExpiry` refuses; `ExpiryForms.ExpiryRoundTrip` holds
  exactly up to there.

## Model

| member | source | states |
|---|---|---|
| Guarantees.NothingIsLost | internal/engine/engine.go:336-400 | Metering conservation: over every stretch of a run without a straddling persist, from boot or from any reachable state outside a reconcile, each port's accepted bytes equal its kernel counter plus what passed inside rebuild windows; what the counters show at the start, and what a cold start after a reboot seeds from SQLite, counts as accepted before |
| Guarantees.BreakerHolds | internal/nft/nft.go:45-51 | Circuit breaker over every such stretch: since an account's limit or usage was last set, or the stretch began, all its ports and both directions together are let through at most the limit minus the starting usage plus rebuild-window traffic, however ports are edited or moved |
| MeteringProof.MeterRun | internal/engine/engine.go:348-400 | The byte ledger behind both is kept by every step of every such run |
| Direct.CounterGrowsByTraffic | internal/engine/engine.go:336-400 | Conservation summed over the packets of the run itself: while the kernel keeps a port's counter, over any stretch without a straddling write, it grows by the bytes let through on that port in that direction, less at most what passed between a rebuild's sample and its apply, and never by more |
| Direct.BreakerHoldsDirectly | internal/nft/nft.go:45-51 | The circuit breaker likewise: while an account keeps quota and limit and no rebuild sets its usage, the bytes let through over all its ports are at most limit minus listing at the start, plus what passed between a rebuild's sample and its apply |
| Stretches.LedgerStep | internal/engine/engine.go:265-306 | Whatever is written when, a port the kernel does not know yet has a zero row and no figure in flight mentions it |
| Stretches.StretchMetered | internal/engine/engine.go:336-400 | A meter opened in any reachable state outside a reconcile is right at the end of every stretch without a straddling write |
| Guarantees.SeedIsFresh | internal/engine/engine.go:348-386 | A rebuild that no write straddles seeds every sampled quota with exactly the sampled value, a set-usage or reset target with exactly the requested value or 0, and every counter with its sampled value, whatever late writes left in SQLite and whatever straddled earlier reconciles |
| Straddling.QuietSeedIsFresh | internal/engine/engine.go:348-386 | The same for every reconcile that begins with no persist batch in flight, whatever interleaves with it |
| Straddling.NoBatchNoStraddle | internal/engine/engine.go:275-306 | A reconcile that begins with no batch in flight cannot be straddled |
| Straddling.StraddleExact | internal/engine/engine.go:268-306 | Let any reconcile go from begin to apply with any number of persist writes and any interleaving: the rebuild seeds every sampled quota and every counter right if and only if the writes between fold and reload together leave the right figure for each sampled account that still has a quota and for each surviving port; the last write to mention a row decides it, and one for a usage target counts only after the mutation |
| Straddling.StraddleConserves | internal/engine/engine.go:268-306 | Conservation survives such writes if and only if together they leave the sampled bytes for every surviving port they mention |
| Retrying.FailedUsageChange | internal/engine/engine.go:352-392 | After a failed apply of a reset or set-usage and any run without a rebuild, the next reconcile to get through seeds the requested figure, reloads it and, with no batch in flight, leaves it in the database row, if and only if it equals what the kernel listed at the failure plus what the account was charged since, cut off at the old limit |
| Retrying.IdleFailedChange | internal/engine/engine.go:352-392 | If no packet reached the account's ports in between, if and only if the kernel listed the requested figure when the apply failed |
| Retrying.FailedUsageRestart | internal/engine/engine.go:113-188 | If a restart over the live table comes before any retry, it seeds and stores the requested figure on exactly the same condition |
| Retrying.IdleFailedRestart | internal/engine/engine.go:113-188 | And for an idle account, if and only if the kernel listed the requested figure when the apply failed |
| Retrying.UnrebuiltRun | internal/engine/engine.go:386-392 | Until a rebuild gets through, the account's quota grows by what it is charged and by nothing else |
| Limits.LateWriteUndoesReset | internal/engine/engine.go:265-306 | A run from boot, with no failure in it, in which a late persist write undoes a reset |
| Limits.RetryUndoesReset | internal/engine/engine.go:386-392 | A run from boot, with no late write in it, in which the retry of a failed apply undoes a reset |
| Lowering.ResetStaysReset | internal/engine/engine.go:773-805 | A completed reset or set-usage stays: over every straddle-free run after it, through reconciles, failed applies, crashes and restarts over the live table, the account is charged at most the requested figure plus what its own packets have been charged since, as long as it keeps its quota and no rebuild sets its usage anew |
| Guarantees.CommitsAreCurrent | internal/engine/engine.go:218-235 | Generation guard: in every interleaving a committed sample reads no value above the kernel's present one; a reading begun before a rebuild is dropped |
| Guarantees.PersistStores | internal/engine/engine.go:275-306 | Copied and written, every figure of the live sample is in the database and the snapshot, and every other row is as it was |
| Guarantees.LockExcludes | internal/engine/engine.go:332-346 | Packets, clock, crashes, the sampler's read and persist writes may come inside a reconcile; whatever needs the lock may not |
| Guarantees.FlagIsHonest | internal/engine/engine.go:61-66 | With the lock free and `unsynced` false, quotas, limits, counters and rules are exactly those of the database with `expired` blocked, and every packet is treated by the direct policy of the database |
| Guarantees.PublishRestores | internal/engine/engine.go:386-399 | However many applies failed, the first reconcile that gets through puts the kernel back in step |
| Guarantees.CheapCheckRefines | internal/engine/engine.go:618-638 | When the in-memory expiry check finds nothing to do, the kernel has the structure a rebuild now would give it |
| Guarantees.ResyncSettles | internal/engine/engine.go:639-645 | After a successful resync a second check at the same instant does nothing |
| Enforcement.CheckSpelled | internal/engine/engine.go:621-638 | The check finds work exactly if an apply is outstanding, or some account's expiry second has come and it is not shut off, or the reverse |
| Guarantees.ExpiryEnforced | internal/engine/engine.go:579-583 | In a state where a check finds nothing to do, an expired account is let no packet through |
| Enforcement.ExpiryStaysEnforced | internal/engine/engine.go:579-646 | From such a check on, in every later state of every run, inside reconciles, after failed applies, persists, crashes and restarts over the live table, the kernel drops untouched every packet its rules give to the expired account, as long as the clock does not go back, the machine does not reboot and nobody changes the account's expiry or tier or deletes it |
| Enforcement.BlockedStaysShut | internal/nft/nft.go:196-200 | The same from any state in which the kernel shuts off an account whose row has expired |
| Enforcement.QuietCheckEnforces | internal/model/model.go:113-121 | When a check finds nothing to do, packets of an account with a quota tier and an expiry whose second has come are dropped untouched; an account without expiry or quota, or before that second, is not shut off, and is let through within its limit |
| Model.ExpiredSpelled | internal/model/model.go:113-121 | An account is expired from the very second its row names, if it has a quota tier and names one |
| Guarantees.RebuildTransparent | internal/engine/engine.go:340-386 | A rebuild without window traffic or straddling write, and whose mutation changed neither structure nor usage, cannot be told from no rebuild by any later stream of non-empty packets |
| Guarantees.CrashRecovery | internal/engine/engine.go:113-136 | A crash at any micro-step and a restart over the live table keep every surviving counter and quota as sampled, make the database agree, and leave the kernel rendering the database's accounts and ports |
| Guarantees.ColdStart | internal/engine/engine.go:113-126 | After a reboot the kernel is seeded exactly from SQLite |
| Guarantees.FreshSampleIsSeed | internal/nft/nft.go:311-324 | Sampling a freshly applied table returns exactly the seeded values, usage cut off at the limit |
| Invariant.StepKeeps | internal/engine/engine.go:332-400 | Every step keeps: schema, foreign keys and two counter rows per port, Validate, distinct tokens, memory following the database whenever the lock is free, an honest flag, and no acceptable stale reading |
| Invariant.RunKeeps | internal/engine/engine.go:332-400 | Hence every reachable state has them, including when a persist write lands after a delete or a move |
| Structure.MutateKeepsDb | internal/engine/engine.go:375-385 | No mutation that passed its checks can fail the validation after it |
| Structure.AddPortAccepted | internal/engine/engine.go:658-678 | A range is accepted exactly when the account exists and no port number of it is taken, which is when the result passes the full Validate |
| Structure.EditPortAccepted | internal/engine/engine.go:689-713 | An edit exactly when the port exists and no other port has a number of the new range |
| Structure.MutateAccepted | internal/engine/engine.go:402-805 | Every other mutation is refused for its one reason only (a taken name, an account that still owns ports, an expiry without a quota, a move to no account) or not at all |
| Structure.OverlappingAddsExclude | internal/engine/engine.go:652-657 | Two adds of overlapping ranges never both succeed, in either order |
| Structure.ShapeSameDesign | internal/nft/nft.go:151-210 | The rendered structure does not depend on recorded usage |
| Pause.PauseKeepsUsage | internal/engine/engine.go:573-576 | An account switched to the unlimited tier comes back to a quota tier with exactly the usage it left with, over any run of traffic, reconciles, failed applies, crashes and reboots that does not touch it |
| Pause.SwitchHolds | internal/engine/engine.go:573-576 | The switch itself enters that pause with the sampled usage, if no persist batch with another figure is in flight |
| Pause.PauseRestoresUsage | internal/engine/engine.go:573-576 | End to end: the rebuild that gives the quota back seeds exactly the figure sampled by the rebuild that took it away |
| Pause.ExpiryKeepsUsage | internal/engine/engine.go:579-583 | Expiring and renewing keeps the quota's usage to the byte through any rebuilds, crashes and restarts in between |
| Pause.BlockedUntouched | internal/nft/nft.go:196-200 | A packet leaves an expired account's quota and its ports' counters exactly as they were |
| Ruleset.WalkIsPolicy | internal/nft/nft.go:184-210 | Compiler correctness: walking the rendered chain gives the verdict and the updates of the direct policy of the one entry that contains the packet |
| Ruleset.PacketFate | internal/nft/nft.go:42-59 | A packet that reaches a port (TCP or UDP, destination in the range inbound, source outbound) is dropped untouched if the account is shut off, is charged first and dropped exactly if that exceeds the limit, and is otherwise passed and counted on the port's counter for its direction, touching nothing else |
| Ruleset.StrangerPasses | internal/nft/nft.go:184-210 | Every other packet passes and touches nothing |
| Ruleset.SortedIsOrdered | internal/nft/nft.go:166-167 | Sorting a valid snapshot's ports by first port has exactly one result |
| Ruleset.ReseedTransparent | internal/nft/nft.go:160-179 | A table reseeded from its own capped listing gives the same verdicts and listings over every stream of non-empty packets, so a tripped breaker stays tripped |
| Ruleset.ReseedVerdictExact | internal/nft/nft.go:160-165 | It decides one packet like the original if and only if the packet is non-empty or the quota was not overcharged |
| Limits.EmptyPacketTellsApart | internal/nft/nft.go:160-165 | A packet and an overcharged quota on which the reseeded table decides differently |
| Compiler.BuildScript | internal/nft/nft.go:151-210 | For every valid snapshot the emitted script replaces any kernel state by exactly the rendered table: quotas, seeded counters, both chains in order, expired accounts blocked |
| Compiler.SortByStart | internal/nft/nft.go:166-167 | The sorted slice lists the same ports, ascending |
| Compiler.DeclareQuotas | internal/nft/nft.go:158-165 | One seeded quota per quota account, after the table was replaced by an empty one |
| Compiler.DeclareCounters | internal/nft/nft.go:169-179 | Two counters per port, seeded from the snapshot or zero |
| Compiler.AddRules | internal/nft/nft.go:187-208 | Per port and direction a bare drop when expired, else breaker before counter |
| Compiler.Manager.Apply | internal/nft/nft.go:212-218 | Succeeds exactly for a valid snapshot nft accepts, and otherwise leaves the kernel alone |
| Compiler.Manager.Sample | internal/nft/nft.go:292-324 | Reading the listing by name recovers exactly the table's values |
| Names.CounterNameRoundTrip | internal/nft/nft.go:129-130 | Every counter name parses back to its id and direction, and to no quota |
| Names.QuotaNameRoundTrip | internal/nft/nft.go:132-132 | Every quota name parses back to its id, and to no counter |
| Names.NamesSpelled | internal/nft/nft.go:129-132 | The names are the id in decimal after p or acct, a counter's with _in or _out |
| Names.ForeignNameSkipped | internal/nft/nft.go:327-348 | A name without a direction is no counter's |
| Names.ReadListing | internal/nft/nft.go:311-324 | Whatever the order of a listing and whatever else it holds, the maps read are the table's |
| Model.Validate | internal/model/model.go:228-254 | Accepts exactly the well-formed snapshots, and a refusal names a real fault |
| Model.WellFormedIsValid | internal/model/model.go:228-254 | Validity of the slices is validity of the relations they list |
| Model.ValidSpelled | internal/model/model.go:228-254 | Valid means known tiers, a positive limit where there is a quota, ports of existing accounts with 1 ≤ start ≤ end, and no port number in two of them |
| Model.OverlapsExact | internal/model/model.go:153-155 | Two ranges overlap exactly when they share a port number |
| Model.LimitSpelled | internal/model/model.go:124-129 | A limit is the largest whole number of bytes within its GiB times 2^30, and 0 without a quota |
| Model.AddPortCheckExact | internal/engine/engine.go:666-677 | AddPort's incremental checks accept exactly when the all-pairs Validate of the result holds |
| Model.EditPortCheckExact | internal/engine/engine.go:697-712 | The same for EditPort, which skips the edited row |
| Mutations.DeleteTakesSubtree | internal/engine/engine.go:545-560 | Delete takes the account, its ports and their counters and nothing else; without cascade it is refused exactly when a port is owned |
| Mutations.InsertsAreNew | internal/store/store.go:328-410 | New rows take ids no row had, start unused with zero counters, and change no other row |
| Mutations.DropPortTakesPort | internal/engine/engine.go:715-718 | Deleting a port is never refused and takes the port and its counters and nothing else |
| Mutations.TierAndExpiryKeepUsage | internal/engine/engine.go:573-597 | Tier and expiry changes set what they name on one account and keep its usage, last reset and token |
| Mutations.PortChangesKeepMetering | internal/engine/engine.go:680-741 | An edit or a move sets one port's range or owner and changes no counter |
| Mutations.UsageIsReplaced | internal/engine/engine.go:749-805 | A usage mutation sets row and live view to the figure asked for, and a reset stamps the second |
| Tables.PersistKeeps | internal/store/store.go:442-465 | A persisted batch changes no design and creates no row, whatever stale or deleted rows it mentions |
| Tables.DeleteAccountSound | internal/store/store.go:368-371 | The cascade leaves no orphaned port or counter |
| Tables.InsertPortSound | internal/store/store.go:388-410 | A new port owns exactly its two counter rows |
| Store.Database.Load | internal/store/store.go:268-322 | The snapshot lists every row once, accounts by id and ports by first port |
| Store.Database.PersistUsage | internal/store/store.go:445-465 | The loop of UPDATEs changes exactly the figures of rows that exist |
| Store.Database.CreateAccount | internal/store/store.go:328-337 | Refused for a taken name, else a fresh row |
| Store.Database.CreatePort | internal/store/store.go:388-410 | All or nothing: the port with both zero counters, refused for an unknown account |
| Store.Database.DeleteAccount | internal/store/store.go:368-371 | Cascades to ports and counters |
| Store.Database.MovePort | internal/store/store.go:418-423 | Re-points the port, refused for an unknown account |
| Store.Database.MigratePortRange | internal/store/store.go:223-242 | Legacy single ports become one-port ranges |
| Store.BackfillIdempotent | internal/store/store.go:223-242 | Migrating again changes nothing, legacy rows become valid, valid ranges are left alone |
| Store.BackfillSpelled | internal/store/store.go:223-242 | A legacy row's end becomes its start; every other row is left alone |
| Store.Database.EnsureTokens | internal/store/store.go:119-206 | Backfills a master token and every missing account token, all distinct, rewrites no existing one, and does nothing on a migrated database |
| Tokens.GenerateToken | internal/model/model.go:284-301 | Sixteen letters, those of the unrejected bytes in order, no byte read in excess |
| Tokens.LettersSpelled | internal/model/model.go:270-301 | 208 of the 256 byte values stand for a letter, four for each of A to Z and a to z, and the rest are skipped |
| Tokens.TokenSpelled | internal/model/model.go:270-301 | A token is sixteen such letters |
| Tokens.UniqueToken | internal/store/store.go:208-221 | A well-formed token that is not in use; fails only with the random source |
| Tokens.TokensResolve | internal/engine/engine.go:512-537 | In every reachable state each account token resolves to exactly its account, the master token to all, anything else to nothing |
| Tokens.ReplacedTokenDies | internal/engine/engine.go:459-484 | A replaced account token grants nothing in any later state of a running process, through reconciles, crashes and restarts, unless the generator draws it again |
| Tokens.ReplacedMasterDies | internal/engine/engine.go:495-510 | The same for the master token |
| Tokens.ReplacementWorks | internal/engine/engine.go:459-510 | The new token works at once, for exactly its account or for all |
| Control.Controller.New | internal/engine/engine.go:81-188 | Start-up over a live or an absent table is this run of the machine, or an error that leaves the kernel alone |
| Control.Controller.Reconcile | internal/engine/engine.go:336-400 | A reconcile is this run of the machine: sample, fold, mutate, reload, apply, publish, stopping where the code stops |
| Control.Controller.Finish | internal/engine/engine.go:379-399 | After the mutation it ends unsynced exactly when nft refuses |
| Control.Controller.RunMutation | internal/engine/engine.go:402-805 | Each mutation's loops and store calls do what the relational mutation says, or fail and change nothing |
| Control.Controller.MutateAddPort | internal/engine/engine.go:666-677 | The checks over the snapshot slices decide like the relational ones |
| Control.Controller.MutateEditPort | internal/engine/engine.go:697-712 | The same, skipping the edited port |
| Control.Controller.Request | internal/engine/engine.go:658-805 | Argument checks, port shorthand and the separate pre-checks reject exactly what they should before a reconcile begins |
| Runs.RequestsSpelled | internal/engine/engine.go:404-805 | Which requests get as far as a reconcile, argument by argument, and that an end of 0 stands for the start |
| Control.Controller.SyncNeeded | internal/engine/engine.go:621-638 | The loop finds work exactly when a failed apply is pending or some account's expiry state differs |
| Control.Controller.SyncKernel | internal/engine/engine.go:621-646 | Resyncs exactly when needed, cannot be rejected, and afterwards needs no second resync |
| Control.Controller.DueAccounts | internal/engine/engine.go:809-822 | Exactly the monthly accounts for which a boundary of their anchor day has come since their last reset, each once |
| Control.Controller.NoteGeneration | internal/engine/engine.go:220-222 | The sampler's note of the generation is the machine's step |
| Control.Controller.WriteCopied | internal/engine/engine.go:297-308 | The copied batch is written as the machine's step says, at whatever later moment |
| Control.Controller.CommitSample | internal/engine/engine.go:228-235 | Commits exactly when no rebuild intervened |
| Control.Controller.CopyLive | internal/engine/engine.go:275-295 | The copied batch is the live sample, and the snapshot is folded in place |
| Control.Controller.RegenerateToken | internal/engine/engine.go:463-484 | The renewal step of the machine, failing only for an unknown account or with the random source |
| Control.Controller.RegenerateMasterToken | internal/engine/engine.go:497-510 | The same for the master token |
| Control.Controller.QueryByToken | internal/engine/engine.go:512-537 | Returns exactly the views the token resolves to |
| Control.Controller.ViewLocked | internal/engine/engine.go:878-901 | One faithful view per account, in order |
| Truthfulness.ViewIsCurrent | internal/engine/engine.go:868-901 | After an accepted sample and until the next rebuild, in every state with the lock free and memory in sync, no view shows more usage than the kernel's quota lists or more bytes than its counters, and the ports of an account shown as expired pass nothing |
| Truthfulness.ViewStaysTruthful | internal/engine/engine.go:868-901 | Through rebuilds, failed applies, crashes, restarts and reboots too, over every stretch without a straddling write that begins before a process starts or with an accepted sample: usage shown is at most what the kernel has charged, bytes at most what it has counted |
| Truthfulness.ViewIsExact | internal/engine/engine.go:878-901 | Until memory's sample is replaced, every view has one line for each port of the account, with exactly the accepted reading's bytes for both directions, a quota account shows its quota's figure, an unlimited one the sum of its lines, and an account shows as expired exactly if the kernel shuts it off |
| Truthfulness.ReadingIsKernel | internal/engine/engine.go:223-233 | A reading is the kernel's counters and capped charges as they are, until a packet or a rebuild comes |
| Calendar.CivilInverse | internal/engine/engine.go:838-839 | The calendar's day count and its dates are inverse, leap years included |
| Calendar.EpochIsDayZero | internal/engine/engine.go:817-839 | 1970-01-01 is day 0, and its midnight east of UTC comes before second 0 |
| Calendar.DayAfter | internal/engine/engine.go:838-841 | Each real date, month lengths and leap years written out, is followed by the next number's date |
| Billing.NextReset | internal/engine/engine.go:834-844 | Computes the next boundary, month roll-over included |
| Billing.NextBoundaryLeast | internal/engine/engine.go:832-844 | The next boundary is the least anchor-day midnight strictly after the last reset |
| Billing.DueExact | internal/engine/engine.go:813-820 | An account is due exactly when a boundary has come since the second of its last reset, neither before nor later |
| Billing.BoundarySpelled | internal/engine/engine.go:834-844 | A boundary is local midnight at the start of the anchor day of a month, the first for an anchor outside 1 to 28 |
| Billing.TruncationHarmless | internal/store/store.go:467-471 | Recording the reset in whole seconds does not move the next boundary |
| Billing.NotDueAfterReset | internal/engine/engine.go:813-820 | An account is never due right after a reset |
| Billing.OneResetPerBoundary | internal/engine/engine.go:807-830 | Over any ordered sequence of checks a billing boundary lies between any two automatic resets |
| Resets.OneAutomaticReset | internal/engine/engine.go:775-830 | Over every run of the machine whose clock does not go back, an account once reset is due again only after a boundary of its anchor day, even if the reset's apply failed |
| ExpiryText.ParseExpiry | internal/model/model.go:316-331 | White space around the text is trimmed and the layouts are tried in order; a date not after the epoch ends the search with an error |
| ExpiryForms.ParsedSpelled | internal/model/model.go:303-331 | Every text YYYY-MM-DD, alone or with HH:MM or HH:MM:SS after a blank or a T, is read as the second it names if date and time are real and after the epoch, and refused otherwise |
| ExpiryForms.PaddedParses | internal/model/model.go:317-318 | White space around a text makes no difference |
| ExpiryForms.ClearingSpelled | internal/model/model.go:318-321 | never, none, 0 and the empty text clear an expiry, whatever the case of their letters |
| ExpiryForms.FormatSpelled | internal/model/model.go:333-347 | A second is printed as its local date, with the minute unless it is midnight, and with the second unless the minute is whole |
| ExpiryForms.NoneSpelled | internal/model/model.go:333-338 | No expiry is printed as never |
| ExpiryForms.ExpiryRoundTrip | internal/model/model.go:316-347 | Parsing the printed expiry returns the same second if and only if the year is at most 9999 |
| Limits.FiveDigitYearIsLost | internal/model/model.go:335-347 | The first second of the year 10000 is printed but not read back |
| ExpiryText.NeverRoundTrip | internal/model/model.go:318-338 | No expiry prints as a word that is read back as no expiry |

## Left out

- Running `nft`, its timeouts, locale and error texts, and decoding its JSON: the kernel is a value with Apply, Sample and TableExists, a failed apply leaves the table alone, and one listing is one instant.
- SQL text, drivers, WAL and I/O failures of the database: a statement or transaction succeeds or rolls back; a mutation that rolls back is the step `Abandon`; Load never fails.
- internal/rpc, internal/httpapi, internal/tui, internal/cli, internal/system and the installers: they forward to the engine.
- Name normalisation, FormatBytes, Describe, logging, health timestamps, Teardown: display or bookkeeping only.
- Quality of randomness and constant-time comparison: a token is what the bytes read make of it, and the draw ends with the random source, modelled as a finite sequence of bytes.
- Floating point: a limit is a real number of GiB and its bytes the floor of the product with 2^30.
- Integer widths of byte counts and SQLite's signed 64-bit columns: counts are natural numbers; port numbers and the ids parsed from names have their width.
- Daylight-saving zones: one fixed offset.
- Tickers and goroutine start-up: the machine takes any step that is enabled.
- An operator deleting the table behind a running daemon.
- sort.Slice: an insertion sort; with disjoint ranges every sort gives the same slice (`Ruleset.SortedIsOrdered`).
- Control.Controller.Request: the pre-checks of MovePort, SetUsage and ResetAccount hold their own lock section, so the machine does not assume them at mutation time; its theorems cover more runs than the code has.
- Control.Controller.DueAccounts: the loop that then resets each due account is one Request per account.
- Control.Controller.Reconcile: the method is the run without interference; interleaved packets, sampler reads and persist writes are steps of the machine, covered by the theorems on runs.
- Guarantees.NothingIsLost: over stretches without a straddling persist write, see above.
- Guarantees.BreakerHolds: over stretches without a straddling persist write, see above.
- Guarantees.SeedIsFresh: for reconciles that no persist write straddles, see above.
- Tokens.UniqueToken: that a draw eventually succeeds is a matter of probability and not stated.
