# A verified model of the platform's hardest logic

Dafny models of seven parts of the backend, and theorems about them over every input, every run
or every reachable state. `dafny verify dfyconfig.toml` checks the whole project.

1. **Refresh-token rotation and session lifetime** (`RefreshRows`, `RefreshStore`,
   `SessionPolicy`, `RotationProtocol` and the modules that prove things about it). Any number of
   refreshes run at once, each in a transaction that may abort, against sign-ins, revocations,
   purges, liveness probes and a clock. It is the rotation of section 4.14.2 of RFC 9700.
2. **Admission bucket and provider-health counters** (`Gcra`, `GcraRuns`, `HealthWindow`). The
   bucket is the Generic Cell Rate Algorithm of ITU-T I.371, Annex A.
3. **Property comparisons** (`Texts`, `IsoDates`, `SearchNumbers`, `SearchSemantics`,
   `SearchSoundness`, `SearchLaws`, `SearchRanges`, `SearchTexts`, `SearchDates`, `SearchKeys`,
   `SearchOrders`, `SearchRefusals`, `Calendar`). The evaluator is modelled as the
   untyped program it is, with faults, and proved never to fault on what the resolver accepts.
4. **Partial updates** (`StoredType`, `PropertyPatch`): applying and composing patches.
5. **The timeout middleware** (`TimeoutWire`): an ASGI response that a deadline may cut anywhere.
6. **Streams** (`StreamIds`, `DlqRedrive`, `DlqContents`, `DlqLimit`, `DlqPaging`, `StreamTrim`): dead letters,
   redrives, trimming and paging.
7. **First SSO sign-ins at once** (`SsoSignIn`, `SsoDecision`, `SsoRaces`, `SsoRuns`).

Code that changes state is a class or a method proved against a function of the old state
(`Store`, `CheckAndRecordRotation`, `Bucket`, `AcquireToken`, `Controller`, `Middleware`, `Redis`,
`Streams`, `Directory`, `MergeProps`, `NormalizeUpdate`). Concurrency is a transition system whose
steps are those functions; an action whose turn it is not changes nothing, so every list of
actions is a run and the theorems quantify over lists of actions.

## Where the code does less than it says

Each of these is a theorem, with the exact condition under which the promise holds.

- The boot check accepts an absolute ceiling up to one refresh lifetime, since a longer one is
  measured from a start that keeps moving. So can a shorter one be: the ceiling holds in every run
  exactly when it and the longest gap between rotations fit together in one lifetime (`CeilingHoldsExactlyWhenItFits`; the failing run
  is `CeilingMoves`).
- A revoked family can still be answered once more: a refresh that read a consumed row before the
  revocation falls back on what it read when a purge has deleted the row since.
  `RevocationFinalExactlyWhen` gives the exact condition at the moment of the revocation,
  `ReplayAfterRevocation` a run. The successor handed out is itself revoked.
- The three-pass sweep that revokes a family is dodged by a session that rotates once during each
  pass, and so is a sweep of any number of passes, wherever a token can be presented at all
  (`SweepCanBeOutrun`). In every run a finished sweep leaves its family dead if and only if every row
  that rotations minted since its last pass began has been purged or revoked by somebody else
  (`SweepFinalExactlyWhen`); where nobody else purges or revokes the family, if and only if some
  pass saw no rotation commit (`SweepFinalUnlessAlwaysBusy`).
- The liveness anchor is stamped with a clock reading taken after the upstream's answer, so the
  outage allowance is measured from that reading. An outage cannot extend a family's sessions in
  any run exactly when every stamp is taken in the second of its confirmation
  (`NeverExtendedExactlyWhenPrompt`; the failing run is `LateStampExtends`).
- A bucket of capacity below 1 never grants, whatever its retry hint says
  (`HintIsRightExactlyWhenATokenFits`).
- Composing two patches can keep another spelling of a value than applying them in turn
  (`SpellingCanDiffer`); `ComposeIsExactWhenSettled` says exactly when it cannot.
- An integer that a client rounded to a double and printed back as an integer is saved as sent, though
  to the client it is the stored value. `KeptExactlyWhenSentBack` says exactly when the stored value is
  kept: an integer, when it comes back as its double or as its digits (`RoundedIntegerIsSaved`).
- The middleware raises its flag before it sends, so a terminal body lost in flight is never sent
  again (`DeadlineClosesExactlyWhen`), and a lost response start is followed by a closing chunk
  instead of a 504. A legal application's client gets one complete response if and only if the start,
  when one was sent, and the send that carries the end get through (`DeadlineCompletesExactlyWhen`).
- The worker's failure path rebuilds a message's fields and leaves `redrive_count` behind, so the
  redrive limit does not bound redrives (`LimitHoldsExactlyWhen`, `RedriveForever`).
- A stored date before the year 1000 is not read as a date, because its digits start with a zero
  (`StoredStampReads`).
- Under read-committed lookups a first sign-in that loses a race can be refused instead of signed
  in, under the strict policy in particular (`SplitReadsSafeExactlyWhen`).

## Model

| member | source | states |
|---|---|---|
| RefreshStore.Store.RecordMint | backend/app/db/repositories/refresh_token_repo.py:235-277 | inserts the row; a duplicate jti changes nothing and is reported |
| RefreshStore.Store.GetRecord | backend/app/db/repositories/refresh_token_repo.py:279-300 | the row with that jti, if there is one |
| RefreshStore.Store.Consume | backend/app/db/repositories/refresh_token_repo.py:318-341 | compare-and-set: wins exactly when the row is there, unconsumed and unrevoked, and then only its stamp and successor change |
| RefreshStore.Store.RevokeFamily | backend/app/db/repositories/refresh_token_repo.py:343-368 | undisturbed, every row of the family ends revoked, earlier stamps kept; reports whether anything was marked |
| RefreshStore.Store.TouchIdpCheck | backend/app/db/repositories/refresh_token_repo.py:302-316 | stamps the one row, if it exists |
| RefreshStore.Store.FamilyStartedMs | backend/app/db/repositories/refresh_token_repo.py:389-407 | returns the earliest mint among the family's surviving rows, none exactly when it has no rows |
| RefreshStore.Store.PurgeExpired | backend/app/db/repositories/refresh_token_repo.py:53-81 | deletes a full batch of expired rows, or all of them if fewer, and no other row |
| RefreshStore.CheckAndRecordRotation | backend/auth_service/refresh.py:193-302 | the statement-by-statement rotation is the function `Rotate`: every verdict, adoption included, and the table it leaves |
| RotationExact.RotatesExactlyWhen | backend/auth_service/refresh.py:261-302 | of the rows alone: a revoked token is refused, an unused one claimed with exactly two rows written, one used within the grace window answered with its successor row, any other taken for stolen |
| RotationExact.AdoptsExactlyWhen | backend/auth_service/refresh.py:232-259 | a token without a row is adopted, with its own data and no provider, exactly if adoption is on and no row of its family is revoked |
| RotationInvariant.Reachable | backend/auth_service/refresh.py:258-302 | an invariant of every reachable state: table and history agree, links stay inside a session, tokens match rows, flights stay apart, times fit |
| RotationSafety.ChainsReachable | backend/auth_service/refresh.py:258-286 | every reachable state has a chain for every family |
| RotationSafety.FamiliesAreChains | backend/auth_service/refresh.py:258-286 | in every reachable state each family is one finite acyclic chain from its sign-in, one unconsumed row, no shared successor, session fields equal throughout |
| RotationSafety.UnpurgedTableIsHistory | backend/auth_service/refresh.py:4-31 | without purges the table is that history, so the chain is the table's |
| RotationOutcomes.OneWinner | backend/auth_service/refresh.py:258-286 | of any number of refreshes presenting one token, at most one commits a claim |
| RotationOutcomes.ReplayCarriesWinner | backend/auth_service/refresh.py:168-190 | every replay carries the jti, expiry and mint instant of the one committed winner, within 0..grace of its consumption |
| RotationOutcomes.RevocationSticks | backend/auth_service/service.py:881-896 | after a committed revocation nothing of the family is claimed, and only a stale reader of a purged row is replayed |
| RotationOutcomes.RevocationIsFinal | backend/auth_service/service.py:2506-2530 | with no refresh between its read and its verdict, nothing at all is claimed or replayed |
| RevocationExact.RevocationFinalExactlyWhen | backend/auth_service/refresh.py:288-302 | a revocation silences its family in every continuation if and only if no read of a consumed row could still outlive that row inside the grace window |
| RevocationGap.ReplayAfterRevocation | backend/auth_service/refresh.py:288-302 | a concrete run in which a revoked family is answered |
| RevocationSweep.SweepReachable | backend/app/db/repositories/refresh_token_repo.py:343-368 | an invariant of a sweep in passes among any other steps: marked rows are nobody's, a pass misses a live row only if a rotation committed during it |
| RevocationSweep.SweepSettles | backend/app/db/repositories/refresh_token_repo.py:343-368 | when a sweep of any number of passes commits, its family is dead for good, unless a rotation of it committed during every pass |
| SweepExact.ExactReachable | backend/app/db/repositories/refresh_token_repo.py:343-368 | an invariant of every run: rows minted since the current pass began are outside its snapshot and its marks, every live row is in the snapshot or one of those, and there are some exactly when the pass was busy |
| SweepExact.SweepFinalExactlyWhen | backend/app/db/repositories/refresh_token_repo.py:343-368 | in every run a finished sweep leaves its family dead if and only if no row minted since its last pass began is still there unrevoked |
| SweepExact.SweepFinalUnlessAlwaysBusy | backend/app/db/repositories/refresh_token_repo.py:343-368 | in every run where nobody else purges or revokes the family, it is dead if and only if some pass saw no rotation of it commit |
| SweepExact.SweepSilencesExactlyWhen | backend/auth_service/refresh.py:288-302 | a family a sweep left dead is silent in every continuation if and only if no read of a consumed row could still outlive that row inside the grace window |
| SweepOutrun.SweepCanBeOutrun | backend/app/db/repositories/refresh_token_repo.py:43-50 | for every number of passes, three included, and all settings under which a token can be presented, a run with one rotation during each pass that leaves a live row |
| SessionCeilings.RenewalsRespectSignIn | backend/auth_service/service.py:1086-1308 | over any run a renewal is at most one SSO ceiling past sign-in, two while the slug of the session's own provider is in the confirmed outage, and never past the upstream expiry or fallback deadline fixed there |
| SessionCeilings.CeilingSurvivesPurging | backend/auth_service/service.py:1133-1178 | when ceiling plus longest gap fit in a lifetime, no renewal is later than the true start plus the ceiling, though the start is read from the oldest surviving row |
| RulingExact.RenewedExactlyWhen | backend/auth_service/service.py:942-1308 | the verdict of any refresh in any reachable state: unused tokens are claimed and just used ones get the winner's tokens if and only if account, cutoff, fallback door, ages, sign-in and upstream expiry admit it; what else happens to tables, tokens, events and the family |
| RulingExact.EveryRenewalWasAllowed | backend/auth_service/service.py:1052-1297 | over any run every renewal was made by a verdict that found the account active, its cutoff not past the token, the door of a fallback session open, the idle bound met, and every ceiling |
| WholeRefresh.WholeRefreshIsRotate | backend/auth_service/refresh.py:193-302 | begin, read, verdict and commit with nothing in between come to one `Rotate`, for every verdict and every ruling of the ceilings: the table, the tokens, the report and what is left to do |
| CeilingFailure.CeilingMoves | backend/app/main.py:246-263 | for every accepted configuration that does not fit, a run that renews a session past its ceiling |
| CeilingFailure.CeilingHoldsExactlyWhenItFits | backend/app/main.py:246-263 | the ceiling holds in every run if and only if it fits |
| SessionLiveness.OutageCannotExtend | backend/auth_service/service.py:2274-2378 | tokens returned after a check were confirmed then, or lie within the allowance of the last real confirmation plus the longest delay of this family's own stamps, over all rotations, replays and lost stamps |
| SessionLiveness.AnchorsAreReal | backend/auth_service/service.py:2429-2456 | no row's anchor passes its family's last real confirmation by more than that delay |
| LivenessExact.ReturnedExactlyWhen | backend/auth_service/service.py:2274-2378 | a probe returns the tokens if and only if nobody can be asked, the answer is yes, or there is none and the last check on record is within the allowance; otherwise the family is to be revoked |
| LivenessExact.EveryReturnHadItsReason | backend/auth_service/service.py:2294-2378 | over any run tokens are returned unchecked only where the provider does not resolve, and never after a no or without the upstream's token |
| LivenessAllowance.AnchorsReachable | backend/auth_service/service.py:2429-2456 | every row of a session with a provider has a check on record no older than the sign-in |
| LivenessAllowance.OutageSparesNewSessions | backend/auth_service/service.py:2429-2441 | while less than the allowance has passed since sign-in, no answer from the upstream does not end a session, over all rotations, replays and lost stamps |
| LivenessGap.LateStampExtends | backend/auth_service/service.py:2446-2456 | for every allowance and positive delay, a run that returns tokens that much past the allowance of the last real confirmation |
| LivenessGap.NeverExtendedExactlyWhenPrompt | backend/auth_service/service.py:2446-2456 | no run of a family passes the allowance if and only if its stamps are taken in the second of their confirmations |
| Gcra.Bucket.Eval | backend/insights_service/admission.py:104-139 | the verdict, the stored key and a wait hint never late and short by less than 1 ms |
| Gcra.AcquireToken | backend/insights_service/admission.py:146-191 | while others take tokens between its attempts: tries until granted, failing open on a script fault, or refused exactly when the wait it is told passes the deadline; charges the bucket exactly when the script granted |
| Gcra.RetryAfterDenial | backend/insights_service/admission.py:127-133 | after a denial a retry is denied before the exact deficit elapses and granted from then on |
| Gcra.EmptyBucketNeverGrants | backend/insights_service/admission.py:127-133 | a bucket of capacity below 1 grants nothing, ever |
| Gcra.HintIsRightExactlyWhenATokenFits | backend/insights_service/admission.py:127-133 | that holds for every stored time if and only if the capacity is at least 1 |
| GcraRuns.RateBound | backend/insights_service/admission.py:104-139 | for the stored number: any k grants whose first and last are W apart satisfy k <= C + W/e |
| GcraRuns.RefinesTokenBucket | backend/insights_service/admission.py:104-139 | over every run the stored number is an explicit fractional token bucket: same level, same answer |
| GcraRuns.TtlNeverChangesAnAnswer | backend/insights_service/admission.py:135-138 | with clocks within half a second and any changes of rate, the key's expiry never changes an answer |
| GcraRuns.StoredKeyRateBound | backend/insights_service/admission.py:104-139 | the rate bound of the script's own answers, from the key with its time to live |
| GcraRuns.StoredKeyIsTokenBucket | backend/insights_service/admission.py:104-139 | the script's answers, from the key with its time to live, are one by one the explicit token bucket's |
| GcraRuns.ScriptIsConfiguredBucket | backend/insights_service/admission.py:104-139 | the script grants a request exactly when a bucket of the configured capacity, refilled at `refillPerSec` tokens a second, holds a token |
| GcraRuns.ConfiguredRateBound | backend/insights_service/admission.py:104-139 | the rate bound in tokens per second: at most a full bucket and what that rate adds between the first grant and the last |
| HealthWindow.Controller.ReportSuccess | backend/insights_service/admission.py:326-331 | counts one success and ends the failure streak |
| HealthWindow.Controller.ReportFailure | backend/insights_service/admission.py:333-359 | a timeout changes nothing; another failure counts once and extends the streak |
| HealthWindow.Controller.PersistOutcome | backend/insights_service/admission.py:361-386 | bumps one delta of one provider and takes over the latest streak and duration |
| HealthWindow.Controller.RecordLatency | backend/insights_service/admission.py:281-292 | keeps the latest duration; a negative one is ignored |
| HealthWindow.Controller.BeginDrain | backend/insights_service/admission.py:419-428 | swaps the buffer out, unless it is empty |
| HealthWindow.Controller.CommitDrain | backend/insights_service/admission.py:429-491 | the snapshot leaves flight, and each row is added to within its window or starts one past it |
| HealthWindow.Controller.FailDrain | backend/insights_service/admission.py:492-504 | the snapshot leaves flight, and its counts are added back bucket by bucket |
| HealthWindow.UpsertAll | backend/insights_service/admission.py:436-491 | one upsert for every provider with something to add; a stale window restarts, a live one accumulates |
| HealthWindow.FoldBack | backend/insights_service/admission.py:492-504 | a failed snapshot returns to the buffer, summed with what arrived since |
| HealthWindow.StepConserves | backend/insights_service/admission.py:361-504 | every step moves counts: only a report adds one, only a committed upsert takes some away |
| HealthWindow.CountersConserved | backend/insights_service/admission.py:361-504 | for every interleaving of reports and drains that commit or fail: reported = flushed + pending + in flight, per provider and per kind |
| HealthWindow.RowsCountTheirWindow | backend/insights_service/admission.py:443-480 | in every reachable state a row's counts are exactly the flushes since the one that opened its window |
| HealthWindow.WindowStaysBounded | backend/insights_service/admission.py:436-443 | every counted flush came within one window of the opening one |
| HealthWindow.StreakIsFailuresSinceSuccess | backend/insights_service/admission.py:326-359 | in every run, whatever drains do, the streak is the failures since the last success |
| SearchNumbers.Int64TextExactly | backend/common/search_semantics.py:601-608 | a text is canonical if and only if it is the printed form of a 64-bit integer |
| SearchNumbers.PrintedReadsBack | backend/common/search_semantics.py:610-619 | reading that text gives the integer back |
| SearchNumbers.DecimalTextMeans | backend/common/search_semantics.py:622-645 | an optional sign, digits, a point and digits read as the signed sum of whole part and fraction over its scale |
| SearchNumbers.OverIsQuotient | backend/common/search_semantics.py:640-645 | scaling by places is division by that power of ten |
| IsoDates.IsoOrderIsTimeOrder | backend/common/search_semantics.py:384-399 | fixed-width ISO keys sort as time does and are distinct for distinct moments |
| IsoDates.BoundsAreOrdered | backend/common/search_semantics.py:384-399 | the bounds of a pair come out in order for every mix of grains |
| IsoDates.PairMeansRange | backend/common/search_semantics.py:384-399 | those bounds hold exactly the moments from the earlier date to the later, whole days where a day was named |
| IsoDates.DayRoundTrip | backend/common/search_semantics.py:360-381 | a text reads as a day if and only if it is that valid day's ISO text |
| SearchSoundness.ResolvedIsTyped | backend/common/search_semantics.py:177-218 | whatever resolves has one allowed kind, values of that kind, and as many as its operator needs |
| SearchSoundness.ResolvedNeverFaults | backend/common/search_semantics.py:451-565 | evaluating it on any stored value is true or false, never a fault, and is the declarative meaning |
| SearchLaws.NegativeIsComplement | backend/common/search_semantics.py:451-466 | a negative operator resolves when its positive does, is its complement on present values and include_missing on missing ones |
| SearchLaws.InIsSomeEq | backend/common/search_semantics.py:521-548 | `in` is equality with some listed item, repeats and blanks dropped |
| SearchLaws.ContainsAllIsEveryEq | backend/common/search_semantics.py:521-527 | `containsAll` is equality with every listed item |
| SearchLaws.NotInIsEveryNeq | backend/common/search_semantics.py:451-466 | `notIn` on a present value is difference from every listed item |
| SearchRanges.BetweenIgnoresOrder | backend/common/search_semantics.py:210-217 | swapping the bounds changes neither whether it resolves nor any answer, for every type and grain |
| SearchRanges.BetweenIsBothEnds | backend/common/search_semantics.py:549-558 | on a single value `between` is `gte` and `lte`; on a list it implies them |
| SearchRanges.ListEndsAreNotBetween | backend/common/search_semantics.py:549-558 | on a list the converse fails |
| SearchRanges.OrderIsTotal | backend/common/search_semantics.py:543-584 | on one readable value exactly one of `lt`, `eq`, `gt` holds |
| SearchRanges.WeakOrders | backend/common/search_semantics.py:549-556 | on one readable value `gte` is not `lt` and `lte` is not `gt` |
| SearchTexts.TextIsFound | backend/common/search_semantics.py:559-564 | the evaluator answers yes to `startsWith`, `endsWith` and `contains` wherever the text stands so, folded or not |
| SearchTexts.FoundIsText | backend/common/search_semantics.py:559-564 | whenever it answers yes, a stretch of the stored text in that place reads as the text looked for |
| SearchTexts.TextResolves | backend/common/search_semantics.py:204-209 | a non-empty text resolves to exactly that comparison under any declared type |
| SearchOrders.UndeclaredKind | backend/common/search_semantics.py:287-291 | with no declared type, truth values have no order, numbers alone are numbers and mixed values text |
| SearchOrders.UndeclaredTexts | backend/common/search_semantics.py:283-298 | with no declared type texts are text, save under an order: all numbers, else all dates, else text |
| SearchOrders.DeclaredKindExactly | backend/common/search_semantics.py:273-282 | a declared type is taken if and only if the operator offers it; text and duration operators have no choice |
| SearchOrders.NumbersCompareAsNumbers | backend/common/search_semantics.py:543-558 | typed with no type and evaluated: an order against a number or an integer's text is the order of the numbers, stored as number or as text |
| SearchOrders.BetweenNumbersMeansBetween | backend/common/search_semantics.py:210-217 | `between` two such values is between them, in either order |
| SearchOrders.InfinitiesAreBeyond | backend/common/search_semantics.py:622-628 | a stored infinity lies beyond every number that can be typed |
| SearchOrders.TypedDigits | backend/common/search_semantics.py:316-341 | a sign and digits, with blanks around, are that integer if and only if 64 bits hold it |
| SearchOrders.TextsCompareAsTexts | backend/common/search_semantics.py:292-298 | text that is neither number nor date is ordered as text, folded or not |
| SearchOrders.PropertiesCompareAsNumbers | backend/common/search_semantics.py:221-238 | two properties under an order with no declared type compare as numbers |
| SearchOrders.PropertiesEqualAsTexts | backend/common/search_semantics.py:221-238 | and under equality as texts |
| SearchDates.StoredStampReads | backend/common/search_semantics.py:656-668 | a stored ISO date-time is read, at either grain, if and only if its year is 1000 or later, and its key is its ISO text at that grain |
| SearchDates.BetweenDatesMeansTime | backend/common/search_semantics.py:384-399 | typed, resolved and evaluated: a stored date-time is between two user dates of any grain and order exactly when it is in time |
| SearchOrders.TypedDateExactly | backend/common/search_semantics.py:360-381 | typed text is a day exactly if it is a valid day's ISO text, else the moment the host reads from more than ten characters |
| SearchOrders.StoredDayReads | backend/common/search_semantics.py:659-668 | a stored day is, to the second, its first second |
| SearchOrders.DatesCompareAsTime | backend/common/search_semantics.py:543-558 | with no declared type a stored date-time is ordered against typed dates as in time, by the day where a day was typed |
| SearchOrders.WithinLastMeansTime | backend/common/search_semantics.py:409-430 | a stored date-time is within a look-back exactly if it is between its ends in time, by whole days or to the second |
| Calendar.CalendarIsGregorian | backend/common/search_semantics.py:360-370 | month by month, the days before a year are 365 a year and the Gregorian leap days |
| Calendar.MonthLengths | backend/common/search_semantics.py:360-370 | the length of every month but February from the closed form of the calendar |
| SearchKeys.KeyComparisonNeverFaults | backend/common/search_semantics.py:469-482 | comparing two properties never faults, whatever they hold |
| SearchKeys.KeyComparisonIsLiteral | backend/common/search_semantics.py:469-482 | comparing with a property that holds one readable value is comparing with that literal at the same type and grain |
| SearchKeys.KeyComparisonIsTyped | backend/common/search_semantics.py:221-238 | end to end: the same answer as typing the value, for text, 64-bit integers, finite floats, booleans and ISO date-times |
| SearchKeys.EqFindsItself | backend/common/search_semantics.py:273-298 | `eq` with a typed value matches wherever that value is stored, alone or in a list, with no type declared |
| SearchKeys.IntegerComparesAsItsText | backend/common/search_semantics.py:587-634 | a stored integer and its text satisfy the same number and text comparisons |
| SearchKeys.ListComparesAsItsTexts | backend/common/search_semantics.py:521-527 | also element by element inside a list |
| SearchOrders.PresenceMeans | backend/common/search_semantics.py:451-458 | the presence tests resolve with any value; empty is no value, an empty list or spaces alone |
| SearchRefusals.ListIsRefusedExactlyWhen | backend/common/search_semantics.py:241-250 | a list is refused if and only if it names nothing, or names something that is no single value |
| SearchRefusals.PairIsRefusedExactlyWhen | backend/common/search_semantics.py:251-257 | a range is refused if and only if there are not two bounds, or one is no single value |
| SearchRefusals.ValueIsRefusedExactlyWhen | backend/common/search_semantics.py:258-270 | a single value is refused if and only if there is none, or it is no single value |
| SearchRefusals.OneInAList | backend/common/search_semantics.py:258-260 | a list of one value is that value |
| SearchRefusals.NoNumberIsRefused | backend/common/search_semantics.py:316-341 | truth values, integers beyond 64 bits and infinities are no numbers |
| SearchRefusals.EmptyTextIsRefused | backend/common/search_semantics.py:208-209 | a text operator needs a text |
| SearchRefusals.TruthsCompareAsTruths | backend/common/search_semantics.py:344-349 | compared as true or false, values and words are equal exactly if both say the same |
| StoredType.PreserveKeepsForm | backend/app/services/versioning/typed_merge.py:28-91 | keeping the stored spelling never changes the value that was sent, at any depth |
| StoredType.PreserveKeepsMarker | backend/app/services/versioning/typed_merge.py:69-91 | the result is a removal marker if and only if the incoming value is |
| StoredType.KeptExactlyWhenSentBack | backend/app/services/versioning/typed_merge.py:28-91 | the stored value is kept whole if and only if every part of it was sent back, as itself or as the same value in one of the retyped forms |
| StoredType.PartByPart | backend/app/services/versioning/typed_merge.py:86-90 | lists of one length and objects are treated part by part, new parts as sent |
| StoredType.RoundedIntegerIsSaved | backend/app/services/versioning/typed_merge.py:32-40 | an integer rounded by a double and sent back as an integer is saved, though it is the same double; as a double it is kept |
| StoredType.OverridesExactly | backend/app/services/versioning/typed_merge.py:69-91 | nothing of the stored value survives if and only if a condition on the two values holds |
| StoredType.SettledExactly | backend/app/services/versioning/typed_merge.py:69-91 | two edits in turn and the merged edit keep the same spelling if and only if a condition on the three values holds |
| PropertyPatch.MergeProps | backend/common/property_patch.py:115-121 | the key-by-key loop is the pointwise merge |
| PropertyPatch.NormalizeUpdate | backend/common/property_patch.py:56-82 | each error exactly when its cause holds and no earlier one, with the first bad name or all conflicting ones; else the payload plus one removal per name |
| PropertyPatch.PatchWins | backend/common/property_patch.py:85-98 | a field the patch sends is the patch's and any other the base's; a sent property has the sent value, a removal removes, an unsent one stays |
| PropertyPatch.SecondWins | backend/common/property_patch.py:101-111 | of two patches the second's fields and properties win and removals are kept |
| PropertyPatch.UnsetRemovesExactly | backend/common/property_patch.py:56-98 | applying a normalised update is applying its payload and dropping the named properties |
| PropertyPatch.ComposeMeansInTurn | backend/common/property_patch.py:85-111 | apply(apply(b, p), q) and apply(b, compose(p, q)) have the same fields, the same keys and the same values up to spelling |
| PropertyPatch.ComposeIsExactWhenSettled | backend/common/property_patch.py:85-111 | they are equal outright if and only if every property all three mention is settled |
| PropertyPatch.ComposeAssociates | backend/common/property_patch.py:101-111 | composition is associative up to spelling |
| PropertyPatch.ComposeAssociatesExactlyWhenSettled | backend/common/property_patch.py:101-111 | and outright if and only if every property all three mention is settled |
| PropertyPatch.AppliedHasNoMarker | backend/common/property_patch.py:85-98 | which properties an applied result has, exactly, and that none is a marker |
| PropertyPatch.StripIsApplyToNothing | backend/common/property_patch.py:124-136 | stripping a create is applying it to nothing, hence idempotent |
| PropertyPatch.SpellingCanDiffer | backend/common/property_patch.py:101-111 | 5, then 7, then "5": the two groupings keep different spellings |
| TimeoutWire.Middleware.TrackedSend | backend/app/main.py:3009-3021 | passes a message on and raises the flags, or suppresses it once terminal |
| TimeoutWire.Middleware.OnDeadline | backend/app/main.py:3027-3088 | the three deadline cases, failing sends included, and when an error still escapes |
| TimeoutWire.Middleware.Call | backend/app/main.py:3023-3088 | a whole request: any list of sends, any ending, and exactly when an error escapes |
| TimeoutWire.NothingAfterTheEnd | backend/app/main.py:3009-3022 | for any application, any lost sends and any late sends, nothing follows a terminal body |
| TimeoutWire.OneStart | backend/app/main.py:3042-3073 | never two response starts when the application sends at most one |
| TimeoutWire.DeadlineClosesExactlyWhen | backend/app/main.py:3028-3088 | the deadline branch leaves exactly one terminal body, last, if and only if the send that carries it gets through |
| TimeoutWire.LateSendsAreSuppressed | backend/app/main.py:3009-3014 | after the branch an ill-behaved application adds nothing |
| TimeoutWire.DeadlineGivesOneCompleteResponse | backend/app/main.py:3028-3088 | a legal application cut anywhere: the client gets one complete response, all it was sent plus a 504 or one closing chunk |
| TimeoutWire.DeadlineCompletesExactlyWhen | backend/app/main.py:3009-3088 | with any sends lost, that application's client gets one complete response if and only if its start, when sent, and the send that carries the end get through |
| DlqRedrive.Redis.SendToDlq | backend/insights_service/redis_streams.py:253-279 | the dead-letter entry keeps the job's envelope and counter and records its id and stream, the kind and the reason, field by field |
| DlqRedrive.Redis.RedriveEntry | backend/insights_service/redis_streams.py:408-460 | each refusal in order; otherwise one job with the same envelope and kind and the counter one up, and the dead letter gone unless the XDEL failed |
| DlqRedrive.Reachable | backend/insights_service/redis_streams.py:408-460 | the invariant behind it, over every run: what an added-back redrive put on the stream is there |
| DlqRedrive.NoRedriveLosesAMessage | backend/insights_service/redis_streams.py:408-460 | with overlapping redrives and a crash between any two steps, every dead letter is still there, or a redrive made from that very entry is on its stream with its envelope and kind and the counter one up, unless it was deleted or evicted |
| DlqRedrive.RedrivesInventNothing | backend/insights_service/redis_streams.py:408-460 | every job a redrive put on a stream repeats an entry dead-lettered from that stream |
| DlqContents.MessagesKeepTheirContents | backend/insights_service/redis_streams.py:253-279 | over any run every job on a stream is a message enqueued on that stream, envelope unchanged, and every dead letter names the job it was made from and carries its envelope |
| DlqLimit.RedrivesAreCounted | backend/insights_service/redis_streams.py:253-279 | when workers hand back the fields they received, every entry counts its own redrives and none exceeds the limit |
| DlqLimit.RedriveForever | backend/insights_service/worker.py:437-453 | through the failure path, a run with any number of redrives of one message |
| DlqLimit.LimitHoldsExactlyWhen | backend/insights_service/worker.py:437-453 | the limit bounds redrives in every run if and only if fields are handed back or the limit allows none |
| DlqPaging.PageIsBounded | backend/insights_service/redis_streams.py:359-389 | a page has at most `limit` entries, and only a shorter one, which has all that is left, ends the walk |
| DlqPaging.NothingListedTwice | backend/insights_service/redis_streams.py:359-389 | whatever happens between calls, listed ids strictly increase |
| DlqPaging.EveryLastingEntryListed | backend/insights_service/redis_streams.py:359-389 | from any cursor, a finished walk lists every entry there at every call |
| DlqPaging.PagingIsComplete | backend/insights_service/redis_streams.py:359-389 | a finished walk lists every entry present throughout exactly once |
| DlqPaging.StillLogIsListed | backend/insights_service/redis_streams.py:359-389 | on a log that does not change the walk finishes once calls times limit exceeds it, with the log |
| StreamTrim.Streams.TrimByMinId | backend/insights_service/redis_streams.py:589-646 | every stream is skipped on an error or an old pending entry, else trimmed, and the report says which |
| StreamTrim.TrimOne | backend/insights_service/redis_streams.py:610-646 | one stream's turn |
| StreamTrim.TrimSparesPending | backend/insights_service/redis_streams.py:610-633 | an entry pending when the summary was read is not removed, whatever the stream holds by then |
| StreamTrim.TrimRemovesOnlyOld | backend/insights_service/redis_streams.py:630-633 | nothing at or past the cutoff is removed; a full trim removes exactly the rest |
| StreamTrim.TrimSparesTheYoung | backend/insights_service/redis_streams.py:603-633 | no entry of at most the given age is removed; a trim that is not skipped or cut short removes every older one |
| StreamTrim.LeftAloneExactlyWhen | backend/insights_service/redis_streams.py:610-646 | a stream is skipped if and only if the server errs or its oldest pending entry is older than that age |
| SsoSignIn.Directory.CommitAttempt | backend/auth_service/service.py:1628-1682 | all of an attempt's writes or, on a unique constraint, none |
| SsoDecision.SignsInExactlyWhen | backend/auth_service/service.py:2005-2022 | a known subject signs in if and only if its account is there, active, not deleted and no service account |
| SsoDecision.LinksByEmailExactlyWhen | backend/auth_service/service.py:2036-2081 | a new subject is linked to the account with its email if and only if policy, verified email, account status, trust in the connection and the strict rule each allow it |
| SsoDecision.RefusalNamesItsReasons | backend/auth_service/service.py:2222-2249 | otherwise the refusal names exactly the reasons that apply |
| SsoDecision.ProvisionsExactlyWhen | backend/auth_service/service.py:2036-2044 | a new account if and only if subject and email are new and provisioning is on |
| SsoDecision.LinksOnRequestExactlyWhen | backend/auth_service/service.py:2024-2034 | a signed-in user's link goes to that user alone, while the account is there and active |
| SsoDecision.CommitSignsIn | backend/auth_service/service.py:1628-1690 | a committed attempt leaves the subject with whoever signed in, at most one new account with that email, and every other row as it was |
| SsoSignIn.Directory.CompleteSsoLogin | backend/auth_service/service.py:1408-1456 | two attempts against whatever others commit meanwhile, as the function `Completed` |
| SsoRuns.CompletedIsRun | backend/auth_service/service.py:1442-1456 | that answer is what the sign-in comes to in the run of its reads and commits with anybody's actions in between |
| SsoRuns.FirstSignInCompletes | backend/auth_service/service.py:1419-1456 | so from a fresh subject, racing any others on snapshots, the method signs in to the one account |
| SsoRaces.ConcurrentFirstSignIns | backend/auth_service/service.py:1419-1456 | reading from one snapshot, any number of racing first sign-ins end signed in within two attempts, with one account and one identity row |
| SsoRaces.SplitReadsSafeExactlyWhen | backend/auth_service/service.py:2005-2081 | when lookups may see different commits, that holds if and only if the connection would also link an account that already has an identity |
| SsoRaces.LoserIsRefused | backend/auth_service/service.py:2223-2249 | otherwise a run in which the loser is refused |

## Left out

- JWT signing, CSRF tags, password hashing, cookies, routes, audit and outbox events: decoded claims are taken as given.
- SQL and Redis are the records, conditional updates and commits they provide; identifiers are numbers; `created_at` is not modelled.
- Rotation runs have one clock that never goes back, and one reading of it per verdict; the verdict and the ceilings of a refresh are one step.
- In the rotation runs revoking a family is one step that waits for the locks it needs; `RevocationSweep` adds one sweep in passes to those runs, its locks held until it commits.
- RefreshStore.Store.RevokeFamily: runs its passes with nothing in between; `RevocationSweep` has them interleaved.
- RotationOutcomes.RevocationSticks: of a revocation that is one step; `SweepFinalExactlyWhen` and `SweepSilencesExactlyWhen` are about passes.
- RotationOutcomes.RevocationIsFinal: of a revocation that is one step, for the same reason.
- RevocationSweep.SweepSettles: one direction, kept for runs with any purge and revocation; `SweepFinalExactlyWhen` has both.
- Adoption of tokens without a row is in `Rotate` and `CheckAndRecordRotation`, not in the runs, where an adopted token could start a second chain.
- Account state, the password door and the slugs of the account's providers are inputs of a verdict; so is the outage set.
- SessionLiveness.OutageCannotExtend: allows the delay between an upstream answer and the clock reading stored for it, because that is the reading the code stores; `NeverExtendedExactlyWhenPrompt` says when that matters.
- LivenessGap.NeverExtendedExactlyWhenPrompt: for settings under which a token can be presented a second after it was minted.
- Doubles are real numbers in the bucket and in comparisons, so rounding, `%.15g` and the effect of removing repeated values on integers beyond 2^53 are not captured; in patches the rounding is a parameter.
- GcraRuns.RateBound: of a stored number that never expires; `StoredKeyRateBound` is about the key with its time to live.
- GcraRuns.RefinesTokenBucket: of a stored number that never expires; `StoredKeyIsTokenBucket` is about the key.
- The refill rate is positive; `drain` cancelled half way is not modelled.
- Case folding, stripping, truth words, decimal spellings with an exponent, date-time spellings and look-back durations are parameters of the comparison model.
- SearchSoundness.ResolvedNeverFaults: not about the host's conversion errors of the next line.
- Errors of the host's own conversions are not modelled: an integer beyond the doubles' range turned into a double (comparisons and patches), and `int` of digit text beyond the interpreter's length limit, 4300 digits by default.
- `lift_top_level_node_fields` and `apply_properties_patch` would only add easy members.
- TimeoutWire.DeadlineGivesOneCompleteResponse: for an application none of whose sends is lost, where it also says what the response is; `DeadlineCompletesExactlyWhen` covers lost sends.
- SSE bypass, readiness gate and tier selection of the middleware; the middleware's log lines.
- The counter of a redrive is a number rather than its text; the length cap of the dead-letter stream is a `Drop` step.
- Undelivered old stream entries: a trim protects only entries pending at the check.
- SSO sign-ins with a link intent are in `Classify` but not in the races; profile fields, groups and roles are not modelled.
- Frontend, landing page, load test, migrations and scripts.
