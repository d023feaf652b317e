# Season billing of a football club, modelled and proved in Dafny

The repository is a Django application for a children's football club. This project
models its billing engine and the lifecycle around it, and proves what that code is
relied on for:

- **Schedule and money** (`Money`, `Calendar`, `Schedule`, `Text`): first billing
  months, skip months, the calendar-year count, the partial-year base, tier discounts
  and the installment split, in integer cents.
- **The lifecycle machine** (`Domain`, `AgreementSteps`, `BillingSteps`,
  `InvoiceSteps`, `Tier`, `Machine`): agreements, billing records and invoice rows
  with every service call, admin action and job as one step, against a provider
  (Invoice Ninja) that may answer, refuse, carry a call out and lose the reply, or
  outlive the worker. `Do` gives a step's result, `Run` a whole run.
- **What every run keeps** (`RecordLife`, `AgreementLife`, `RecordRuns`, `Links`,
  `Runs`, `RemoteLife`, `RemoteRuns`): one invariant, and one relation saying what
  later states never undo. `Promises`, `ProviderPromises`, `Pushes`, `Silence`,
  `Recipients`, `Seasons`, `Families`, `Pipeline` and `EndToEnd` draw the consequences
  people rely on, `Calls` those for one call against another, and `Losses` runs to what
  the club can lose.
- **The services in place** (`Services`): a class whose fields are the tables. Each
  method follows the service statement by statement and is tied to the machine's step:
  done as specified, or refused with nothing changed. Each also promises `Kept`, the
  unlocking form edit apart: consistent tables stay consistent, nothing settled is
  undone, and the provider keeps one invoice per number, bills the right family and
  does nothing for a cancelled row. The lemmas about the steps say what a call means
  to its caller.
- **Three independent parts**: agreement numbers (`AgreementNumbers`), application
  review with correction messages (`Corrections`), guardian consolidation
  (`Guardians`).

Money is in cents. A month is counted by its index 12 x year + month - 1. Tables are
maps from primary keys. A row's sequence is its index plus one. `awaiting` holds what a
signing captured until its draft creation, which is a step of its own, so siblings'
signings and drafts can interleave. `Inv` is the invariant of all tables, `Later` the
relation of what stays, `RemoteInv` the one shared with the provider. Plans may change
price and activity at any time; their season, months, counts and days are fixed.

Results that differ from what the code's comments promise:

- Normalizing a month is idempotent unless it leaves the year 9999;
  `NormalizeIdempotent` gives the exact condition, `NormalizingDecember9999` an input.
- Small totals can have a negative last row; `NonNegativeRows` gives the exact condition.
- A cross-season reassignment can leave a signed agreement without its billing record.
  `ReassignKeepsSeasonsExactly` gives the exact condition,
  `AmendmentThenReassignmentStrands` a run that does it.
- Cancelling a row does not always withdraw its invoice: one whose creation reply was
  lost stays live for good (`LostInvoiceStaysLive`, with the run `LosingAnInvoice`).
  `CancellationWithdrawsExactly` gives the exact condition.
- A pending record can be stranded: a confirmed record whose schedule cannot be derived
  stays pending, and neither queueing nor the push button acts on it.
  `PendingIsStuckExactly` gives the exact condition, `MovedWithoutAMonthIsStuck` a run.
- Guardian consolidation aborts exactly on a placeholder address that is taken
  (`ConsolidateGuardians`, with the input `PlaceholderCollision`), and the copy of an
  external client id while merging is never reached.
- The season check of signing and the contradiction guard of the staff resolution never
  fire in a reachable state (`SigningAcceptedExactly`, `StaffResolveNeverContradicts`).
- Editing a confirmed record back to draft breaks the row sums; runs leave it out
  (`Locked`) and `UnlockingBreaksTheSum` shows why.

`dafny verify dfyconfig.toml` checks the whole project.

## Model

| member | source | states |
|---|---|---|
| `Money.RoundNearest` | apps/billing/services.py:27-28 | `ROUND_HALF_UP` is exactly: the nearest cent, and of two equally near ones the one further from zero, for both signs (if and only if) |
| `Money.BilledTotalBound` | apps/billing/services.py:123-141 | without an override the billed total is within 3/4 cent of the exact annual x k/n x (100-p)/100, for every tier and any sign |
| `Money.AmountsConserve` | apps/billing/services.py:282-288 | the installment amounts sum exactly to the total, for totals of either sign and any number of rows |
| `Money.LastRowBound` | apps/billing/services.py:286-288 | all rows but the last are equal, and the last differs from them by at most n/2 cents |
| `Money.NonNegativeRows` | apps/billing/services.py:286-288 | exactly when a non-negative total splits into non-negative rows, as a condition on quotient and remainder |
| `Money.LargeTotalsSplitNonNegative` | apps/billing/services.py:286-288 | n(n-1)/2 cents are always enough for non-negative rows |
| `Money.SmallTotalsCanGoNegative` | apps/billing/services.py:286-288 | below that guard a negative row exists: two cents in four rows |
| `Calendar.SkipMonthsPartByPart` | apps/billing/models.py:62-69 | the skipped months are those named by the parts between the commas: a part that reads as a month from 1 to 12 adds it, any other adds none |
| `Calendar.FirstOpen` | apps/billing/services.py:219-227 | the result is the earliest billing month not before the start, found within twelve steps unless all months are skipped |
| `Calendar.BillingMonthsExact` | apps/billing/services.py:300-319 | the schedule cursor visits exactly the first n billing months from the anchor: increasing, none skipped, none left out |
| `Calendar.FirstBillingMonthsUnique` | apps/billing/services.py:300-319 | that description fixes the months: no other list of n months satisfies it |
| `Calendar.BillingMonthsPrefix` | apps/billing/services.py:263-320 | a capped schedule has the months of a prefix of the full one |
| `Calendar.FirstOpenAnchors` | apps/billing/services.py:206-228 | starting from a month or from its first billing month yields the same months |
| `Calendar.CountBelowClosedForm` | apps/billing/services.py:231-251 | the rows before a bound number min(n, billing months before the bound) |
| `Calendar.MakeDueDate` | apps/billing/services.py:313-314 | a due date exists exactly for years 1 to 9999, a real month and a positive due day, and its day is the due day clamped to the month |
| `Calendar.MonthLengthsExactly` | apps/billing/services.py:313 | the length that clamps: February by the Gregorian rule, 31 days for odd months up to July and even ones after it, 30 for the rest |
| `Calendar.DatesCompare` | apps/billing/services.py:84-93 | the key that orders dates compares valid ones by year, then month, then day |
| `Calendar.ParseMonthExactly` | apps/billing/services.py:172-186 | a text denotes a month if and only if it has seven characters, a hyphen after the first four, and numbers on either side that are that year and month |
| `Calendar.SeasonYearReads` | apps/billing/services.py:189-203 | the start year of a season is the number before the slash, whatever follows it |
| `Calendar.ParseFormat` | apps/billing/services.py:169-186 | parsing undoes formatting for every month of the years 0 to 9999 |
| `Calendar.ParseFormatOverflow` | apps/billing/services.py:169-186 | from year 10000 on the formatted text is refused by the parser |
| `Calendar.FormatOrder` | apps/billing/services.py:874-879 | up to year 9999 string order on formatted months is chronological order, and equal texts are equal months |
| `Schedule.AdvancePastSkips` | apps/billing/services.py:219-227 | the cursor loop stops on the first billing month, or fails exactly when all twelve months are skipped; the guard fires in no other case |
| `Schedule.NormalizeFirstBillingMonth` | apps/billing/services.py:206-228 | the loop computes the canonical text of the earliest billing month not before the given one, with the same refusals |
| `Schedule.DeriveInstallmentSchedule` | apps/billing/services.py:263-320 | the nested loops compute the specified schedule: same rows, same errors in the same order |
| `Schedule.CountCalendarYearBillableInstallments` | apps/billing/services.py:231-251 | the filtered count equals min(max(installment count, 1), billing months from the start month to December) |
| `Schedule.NormalizeIdempotent` | apps/billing/services.py:206-228 | normalizing gives the earliest billing month and is idempotent if and only if the month lies before 9999 or some month from it to December 9999 is billed |
| `Schedule.NormalizingDecember9999` | apps/billing/services.py:206-228 | the failing input: "9999-12" on a plan that skips December becomes a text that is refused when read again |
| `Schedule.NormalizedAnchorSameSchedule` | apps/billing/services.py:206-228 | anchoring at a month or at its normalization gives the same schedule, or fails for both |
| `Schedule.OwnFirstMonthIsGiven` | apps/billing/services.py:293-299 | without a given month the schedule is the one for the plan's first installment month in the year its season names |
| `Schedule.ScheduleFailsExactly` | apps/billing/services.py:290-320 | from that start, or the given month, there are no billing months exactly when all twelve are skipped, and a schedule exactly when every row can be dated |
| `Schedule.ScheduleMeaning` | apps/billing/services.py:263-320 | a schedule falls on exactly the first billing months from the given month, or else from the plan's own first month in its season's year, on clamped due days; its rows are as many as asked for, at least one, and sum to the total |
| `Schedule.CappedScheduleStaysInYear` | apps/billing/services.py:231-251 | a saved count from a billing month is between 1 and the plan's count; the capped schedule stays in the start year with the due dates of a prefix of the full one |
| `AgreementNumbers.ParseNumber` | apps/agreements/services.py:64-69 | an allocated number parses back to its sequence, past 999 as well |
| `AgreementNumbers.FormatNumberInjective` | apps/agreements/services.py:84-86 | with one prefix, equal numbers have equal year and sequence |
| `AgreementNumbers.NumberShape` | apps/agreements/services.py:84-86 | a number is the prefix, the year and the sequence with hyphens between, in exactly three digits below 1000 |
| `AgreementNumbers.FirstAttemptIsFree` | apps/agreements/services.py:84-94 | in a book of allocated numbers the next number is taken by no row |
| `AgreementNumbers.AllocationKeepsAllocated` | apps/agreements/services.py:72-94 | writing the next number keeps every number distinct and readable |
| `AgreementNumbers.EveryRunIsAllocated` | apps/agreements/services.py:49-94 | over every run of creations and deletions numbers stay distinct, carry their row's year and read back |
| `AgreementNumbers.RunsWithoutDeletesHaveNoGaps` | apps/agreements/services.py:49-69 | without deletions the sequences of a year are exactly 1 to k |
| `AgreementNumbers.MaxSequencePlusOne` | apps/agreements/services.py:62-69 | the accumulator loop returns one more than the largest readable sequence, or 1 |
| `AgreementNumbers.NumberTable.NextAgreementSequence` | apps/agreements/services.py:49-69 | the scan exceeds every sequence of the local year, by one over the largest |
| `AgreementNumbers.NumberTable.SaveNumber` | apps/agreements/services.py:87-92 | the guarded write succeeds exactly when no other row has the number, and writes only that row |
| `AgreementNumbers.NumberTable.AssignAgreementNumber` | apps/agreements/services.py:72-94 | the retry loop keeps an existing number, else writes the next one or finds it taken on every attempt; on allocated books it never fails |
| `Tier.NextInOrder` | apps/billing/services.py:98 | the row returned precedes every other candidate in (signed_at, member) order |
| `Tier.ComputeFamilyTier` | apps/billing/services.py:67-104 | the walk over the ranking returns the number of candidates before the member's own row, at most three, or 0 without such a row |
| `Guardians.Tables.FindAccount` | apps/members/services.py:111-112 | the case-insensitive lookup returns the matching account of lowest id, or none exactly when none matches |
| `Guardians.Tables.CreateAccount` | apps/members/services.py:113-117 | the insert fails exactly on a taken e-mail and else adds one account |
| `Guardians.Tables.ResolveOrphans` | apps/members/services.py:100-118 | every orphan resolves to its e-mail's account or a new one; the step fails exactly when a placeholder address is taken |
| `Guardians.Tables.PickSurvivor` | apps/members/services.py:58-71 | lowest id with an external client, else most children, lowest id first |
| `Guardians.SurvivorOfTwo` | apps/members/services.py:58-71 | of two guardians the lower id survives exactly if it has a client, or neither has and it has no fewer children |
| `Guardians.Tables.DeleteGuardian` | apps/members/models.py:132-136 | deletion is refused while an application points at the guardian and takes its members along |
| `Guardians.Tables.MergeInto` | apps/members/services.py:148-159 | children and applications move to the survivor before the deletion, so the cascade takes nothing |
| `Guardians.Tables.MergeGroup` | apps/members/services.py:120-134 | one group ends as its survivor with the account and everyone's children and applications |
| `Guardians.Tables.BackfillPhones` | apps/members/services.py:136-145 | a phone changes only from blank and only to a phone of the account's guardian; afterwards none is left to fill |
| `Guardians.Tables.ConsolidateGuardians` | apps/members/services.py:74-145 | the whole run succeeds exactly without a placeholder collision, keeps every child and application and points each at the survivor of its old group; a failure changes nothing |
| `Guardians.PlaceholderCollision` | apps/members/services.py:103-117 | the aborting input: a guardian without an e-mail beside an account that has its placeholder address |
| `Guardians.EmailsMatchExactly` | apps/members/services.py:107-112 | two e-mails match if and only if the texts between the surrounding spaces are the same but for case, and one is blank exactly when it has spaces only |
| `Guardians.ConsolidatedIsClean` | apps/members/services.py:74-145 | afterwards no guardian lacks an account, no two share one, and the foreign keys hold |
| `Guardians.SecondRunChangesNothing` | apps/members/services.py:83-89 | a second run is the identity on guardians, accounts, members and applications |
| `Guardians.SurvivorHasClient` | apps/members/services.py:154-158 | the survivor already has an external client if anyone in its group has one, so the copy in the merge never happens |
| `Corrections.StepKeepsInv` | apps/registrations/services.py:632-992 | every review step keeps: the newest message alone can be open, and is exactly while a fix is requested; approval and its member go together |
| `Corrections.EveryRunIsConsistent` | apps/registrations/services.py:632-992 | over every run with late mail outcomes: open messages exactly while FIX_REQUESTED, APPROVED exactly with one member |
| `Corrections.WriteOnceOverRuns` | apps/registrations/services.py:697-711 | resolution time, source and actor, mail outcome and the approved member are written once and never altered by later steps |
| `Corrections.StaffResolveNeverContradicts` | apps/registrations/services.py:747-769 | the contradiction guard of the staff resolution never fires in a reachable state |
| `Corrections.TwoWaysOfClosing` | apps/registrations/services.py:666-796 | parent resubmission and staff resolution differ only in the provenance on the one open message |
| `Corrections.Review.SubmitApplication` | apps/registrations/services.py:632-727 | carries out the submit step in place, or refuses with nothing changed |
| `Corrections.Review.ResolveApplicationCorrections` | apps/registrations/services.py:730-824 | carries out the staff resolution in place, or refuses with nothing changed |
| `Corrections.SubmittingExactly` | apps/registrations/services.py:632-727 | submitting is accepted if and only if the owner, or anyone for an application without one, submits a complete draft or correction; it ends submitted with a blank review, closes what was open in the family's name and keeps everything else |
| `Text.StripExactly` | apps/registrations/services.py:858-862 | a stripped text is what lies between the spaces around it, and blank exactly for a text of spaces only |
| `Corrections.FixRoundTrip` | apps/registrations/services.py:849-880 | a fix is accepted exactly for a submitted application and a text that is not blank, and stores both; resubmitting then restores the review with one more, family-closed message on an unchanged history |
| `Corrections.MailOutcomeExactly` | apps/registrations/services.py:1034-1071 | an outcome is accepted exactly once for a message that is pending: sent with its time if the mail was accepted, else failed; no other message changes |
| `Corrections.MailOutcomeCommutes` | apps/registrations/services.py:1034-1071 | any step that may come between a message and its mail outcome commutes with it: reporting before or after gives the same tables |
| `Corrections.RejectionIsFinal` | apps/registrations/services.py:883-913 | rejecting is accepted exactly for a submitted application and a text that is not blank; it stores REJECTED, the text, the reviewer and the time, and after every later run that stands and every submission, fix request, resolution, rejection and approval is refused |
| `Corrections.ApprovingExactly` | apps/registrations/services.py:917-978 | approving is accepted again for an approved application, else exactly for a submitted one with an active group and a guardian or owner; it keeps the guardian there is, else takes the account's, and creates the one member |
| `Corrections.ApprovalIsFinal` | apps/registrations/services.py:917-978 | after an approval every later run keeps the one member and the application, and approving again with any arguments changes nothing |
| `BillingSteps.MonthYearOfFormat` | apps/billing/services.py:876 | the year the services read back from a formatted month is the month's year |
| `Services.Club.GetCurrentAgreement` | apps/agreements/services.py:24-31 | the query returns the member's one current row, or none exactly when there is none |
| `Calls.PreselectionMatchesSetup` | apps/agreements/services.py:136-149 | for an active default plan, setting it up for today's floor month is accepted exactly when it is preselected and its schedule has dates, and stores the very month that is preselected |
| `Calls.CreatingPreselects` | apps/agreements/services.py:136-158 | a fresh agreement is generated, current and unsigned with the default plan or none; where setting up the default plan for today would be accepted, doing it afterwards changes nothing |
| `Services.Club.CreateAgreementForMember` | apps/agreements/services.py:97-158 | carries out the creation step in place: existing row kept, void one archived, fresh one created |
| `Calls.SetupAcceptedExactly` | apps/agreements/services.py:338-430 | setting up is accepted if and only if the plan is active, the month is readable, and its first billing month lies in the season-start year and not before today's floor (which a text of year 10000 no longer bounds), with a dated schedule; that month is what is stored |
| `Calls.SettingUpExactly` | apps/agreements/services.py:362-430 | a setup is written if and only if the row is generated, sent or void and the plan and month are accepted; it changes the plan and month of that row alone |
| `Calls.SettingUpTwiceIsOnce` | apps/agreements/services.py:392-430 | setting up the stored month again on the same day is accepted and changes nothing |
| `Calls.TransitionsExactly` | apps/agreements/services.py:161-526 | exactly generated rows can be sent, all rows voided and signed rows amended; each changes the state of that row, and amending adds a fresh current row with its plan and month |
| `Calls.SendingDoesNotMatterToSigning` | apps/agreements/services.py:161-181 | signing after sending is refused by the same guards, and ends in the same tables, as signing at once |
| `Calls.VoidThenRegenerate` | apps/agreements/services.py:270-315 | a current agreement can be regenerated if and only if it is void; voiding and regenerating makes the fresh row the one current agreement and keeps the void one and every other row |
| `Calls.AmendingBillsNothingTwice` | apps/agreements/services.py:488-526 | amending a billed agreement, signing the new row and drafting succeed, supersede the old row and leave every billing record as it was |
| `Services.Club.CreateDiscontinuationAdjustments` | apps/billing/services.py:346-424 | every selected row is checked before the first is written; the loops cancel exactly the selection |
| `Services.Club.DiscontinueAgreement` | apps/agreements/services.py:553-590 | rows, agreement and member change together or not at all |
| `Services.Club.TieredRecord` | apps/billing/services.py:489-564 | the record carries the calendar year's count and partial base with the tier on top, with the service's refusals |
| `Services.Club.CreateDraftBilling` | apps/billing/services.py:439-564 | an existing record of the season is kept, else one draft is created from what the signing captured |
| `Calls.DraftingExactly` | apps/billing/services.py:439-564 | an existing record of the season is left alone; else exactly one draft is added, for the captured plan and month, its calendar-year count and partial base, on the member's payment mode and opt-out; the signing is done either way |
| `Services.Club.BackfillBilling` | apps/billing/services.py:483-512 | without an agreement the latest active plan is billed in full, once per season |
| `Calls.BackfillingExactly` | apps/billing/services.py:483-512 | the record added is for the newest active plan, at its full amount without discount, for a member without a record of the season; with none active nothing happens |
| `Calls.RecreatingIsDrafting` | apps/billing/services.py:748-810 | where the record is missing, recreating succeeds exactly when the draft of the signing does and writes the same record; without the confirmation it is refused |
| `Calls.RecreatingNeeds` | apps/billing/services.py:748-810 | nothing is recreated without the confirmation, for an agreement that is not signed or not the member's, or beside a record of the season |
| `Services.Club.RenewMemberBilling` | apps/billing/services.py:673-745 | renewal ranks over all seasons, bills the full year and skips an existing season |
| `Families.RenewalExactly` | apps/billing/services.py:673-745 | a renewal bills the full annual amount of the plan it was given, from the month it was given, under the current agreement; its discount is 0, 50, 75 or 100 percent by the number of children of the family signed earlier in any season |
| `Families.RenewalAcceptedExactly` | apps/billing/services.py:689-712 | a renewal is accepted exactly for a month that is blank or readable and either an existing record of the season, which is left alone, or a schedule with dates |
| `Calls.ClearingRestoresTheTotal` | apps/billing/admin.py:57-87 | an override with a reason holds through a recompute, clearing it restores the record but for its reason, and an override without a reason is refused |
| `Calls.ConfirmingLocks` | apps/billing/admin.py:248-264 | confirming changes the status alone; afterwards confirming and recomputing do nothing, and a reassignment or a changed override or reason is refused |
| `Services.Club.ReassignDraftRecord` | apps/billing/services.py:813-938 | only an unpushed draft moves; amounts are re-derived from the stored percent and the linked agreement follows |
| `Calls.ReassigningExactly` | apps/billing/services.py:813-938 | a move is accepted if and only if the record is a draft, its month is blank or passes the checks, and the member has no other record of the season; percent, override and everything else stay, the amounts follow from the new plan and count, and the linked agreement takes plan and month |
| `Calls.MovingChecksLikeSettingUp` | apps/billing/services.py:868-884 | a given month passes exactly when setting up the plan, were it active, would accept it, and the same month is stored with its calendar-year count |
| `Services.Club.MaterializeInstallments` | apps/billing/services.py:633-670 | no rows for a zero total, existing rows returned, else one per scheduled entry or one up front |
| `Calls.UpfrontIsOneRow` | apps/billing/services.py:655-662 | paying up front is one fresh row for the whole total, due when the first installment would be, possible exactly when installments are |
| `Services.Club.EnsureClientId` | apps/integrations/tasks.py:440-460 | the stored id is reused, else the provider's is stored once known |
| `Services.Club.CreateInvoiceWithRecovery` | apps/integrations/tasks.py:415-437 | one retry after a stale client: the stored id is cleared and renewed first |
| `Services.Club.PushInvoices` | apps/integrations/tasks.py:516-556 | cancelled and numbered rows are skipped, a transient error stops the loop, the first permanent one is remembered |
| `Services.Club.PushBillingRecord` | apps/integrations/tasks.py:463-569 | the job carries out the specified push: zero totals locally, else product, client, rows, invoices and the roll-up |
| `Pushes.PushOutcomeExactly` | apps/integrations/tasks.py:463-569 | for every way the calls can go: the record ends synced exactly when every call it needed answered, pending exactly when the worker died, and else failed with the code of the transient failure that ended the job or else of the first failure |
| `Pushes.FailuresAreShown` | apps/integrations/tasks.py:516-569 | rows without an id are created or marked failed and no other changes; a failed record shows the code of one of its rows, a synced one leaves no open row |
| `Pushes.EveryOutcomeRecovers` | apps/integrations/tasks.py:344-382 | however a push ends, the next one the provider answers syncs the record, also after being queued again from failed |
| `ProviderPromises.PendingIsStuckExactly` | apps/integrations/tasks.py:344-382 | an answered push leaves a confirmed record pending exactly when it has something to pay, no rows and no derivable schedule; then neither queueing nor the button does anything for it |
| `Losses.MovedWithoutAMonthIsStuck` | apps/billing/services.py:849-880 | such a record is reachable, for every accepted setup and every plan without a schedule: the month-less reassignment accepts it |
| `Losses.ClubSticks` | apps/integrations/tasks.py:356-361 | a concrete club in which a confirmed record is stranded as pending |
| `ProviderPromises.ButtonTwiceIsOnce` | apps/billing/admin.py:266-318 | the button is accepted exactly for a confirmed record or with the request to confirm a draft; it leaves the record confirmed, synced if it was and else pending, and pressing again, or queueing, changes nothing |
| `ProviderPromises.CancellationWithdrawsExactly` | apps/integrations/tasks.py:586-654 | after an answered cancellation job no live invoice has the row's number, if and only if the row knew an id or the provider never had an invoice with that number |
| `ProviderPromises.CancellationOutcomeExactly` | apps/integrations/tasks.py:586-654 | the provider archives a created invoice and voids a sent one whenever the call is carried out; the row records done exactly when it was answered, failed when it was refused or the reply lost, and nothing when the worker died |
| `Services.Club.SendDueInvoices` | apps/integrations/tasks.py:712-770 | the sweep treats the rows it reaches one after the other; a failing one does not stop it |
| `Calls.PaidRowsCannotBeCancelled` | apps/integrations/tasks.py:662-685 | a synced payment changes that row's payment alone, and from then on every discontinuation that selects the row is refused |
| `Services.FindClientIdByPk` | apps/integrations/invoice_ninja.py:138-154 | the scan returns the first active client of exactly this guardian, or none |
| `Services.FindInvoiceIdByNumber` | apps/integrations/invoice_ninja.py:198-210 | the scan returns the first active invoice with exactly this number, or none |
| `AgreementLife.StepKeepsAgreements` | apps/agreements/models.py:105-112 | every step keeps one current agreement per member, every other one void or superseded, stored months in their plan's year; nothing settled is undone |
| `Promises.ExactlyOneCurrent` | apps/agreements/services.py:120-158 | once a member has a current agreement, exactly one exists after every later run, and it is not superseded |
| `Promises.AgreementsInEveryRun` | apps/agreements/services.py:392-415 | in every reachable state a non-current agreement is void or superseded and a month is blank or a canonical billing month of the plan's season-start year |
| `Promises.SigningAcceptedExactly` | apps/agreements/services.py:228-251 | in every consistent state signing succeeds exactly for an unsigned row with a month and an active plan: the season check never refuses |
| `Promises.CreatingTwiceIsOnce` | apps/agreements/services.py:120-123 | creating again, on any later day, returns the same tables |
| `RecordLife.GeometryDecides` | apps/billing/services.py:263-320 | price and activity of a plan decide neither months nor counts nor rows |
| `RecordLife.NormalizedInYear` | apps/billing/services.py:871-877 | the checks on a normalized month establish that it is a billing month of the season-start year |
| `RecordLife.CancelAllExact` | apps/billing/services.py:392-424 | cancelling a selection changes exactly the selected rows |
| `RecordLife.SelectionRefusedExactly` | apps/billing/services.py:361-390 | in a consistent table a selection is refused exactly when it is not a set of the member's own rows or has money on it |
| `RecordRuns.StepKeepsRecords` | apps/billing/services.py:439-938 | every step but the unlocking edit keeps every record in order (amounts, count, rows as scheduled, row states) and only moves it forward |
| `Links.StepKeepsOneRecordEach` | apps/billing/models.py:186-193 | every step keeps at most one record per member and season |
| `Links.StepRecordKeys` | apps/billing/services.py:493-495 | a step adds at most one record, linked to an agreement of its member, for a season the member lacked |
| `Links.StepKeepsAwaiting` | apps/agreements/services.py:251-266 | what a signing captured stays tied to a signed agreement and a month of its plan until the draft exists |
| `Runs.RunMovesForward` | apps/billing/services.py:439-938 | from any consistent state every run without an unlocking edit stays consistent and undoes nothing settled |
| `Runs.EveryRunIsConsistent` | apps/billing/services.py:439-938 | every run from fresh tables satisfies the whole invariant |
| `Promises.AmountsInEveryRun` | apps/billing/services.py:596-607 | discount = round(base x percent) and total = override, else base - discount, in every reachable state; drafts have no rows |
| `Promises.SnapshotNeverChanges` | apps/billing/services.py:571-574 | percent, opt-out and mode never change; a confirmed record never changes what it bills |
| `Promises.RowsSumForever` | apps/billing/services.py:633-670 | rows keep dates and amounts through every later run and sum to the total, which is not zero, of a confirmed record |
| `Promises.UnlockingBreaksTheSum` | apps/billing/admin.py:54-87 | the edit of a confirmed record back to draft, followed by an override, is accepted and breaks the sum, from any consistent state with rows |
| `Promises.SavedCountBoundsTheYear` | apps/billing/services.py:652-658 | a saved count is between 1 and the plan's count, is the number of installment rows, and all rows lie in the season-start year |
| `Promises.RowsInEveryRun` | apps/integrations/tasks.py:550-560 | what a reachable row records: id exactly when created or sent, sent date exactly when sent and not before the due month, archive exactly for created, cancel for sent |
| `Silence.NoEmailBeforeTheDueMonth` | apps/billing/services.py:331-343 | in every reachable state every e-mail the provider sent, also one whose reply was lost, is dated in or past the due month of its row |
| `Silence.SentMeansEmailed` | apps/integrations/tasks.py:733-770 | a row marked sent has its own invoice e-mailed on that very day |
| `Silence.EmailedExactly` | apps/integrations/tasks.py:712-770 | the provider e-mails an invoice if and only if its row is open, created and due, the guardian has an address and the call takes effect, answered or not; and only that invoice |
| `Promises.SyncedRowsHaveIds` | apps/integrations/tasks.py:562-569 | a synced record has an id on every row not cancelled, and no rows exactly for a zero total |
| `Silence.CancelledRowsAreLeftAlone` | apps/integrations/tasks.py:519-522 | once a row is cancelled, through every later run and whatever replies are lost, the provider gets no new invoice with its number and e-mails none it has |
| `Promises.OutstandingNeverGrows` | apps/integrations/tasks.py:519-524 | the number of open rows without an id never grows in any later run |
| `Promises.SweepTreatsRowsAlone` | apps/integrations/tasks.py:733-770 | the sweep changes each row by that row alone, and beside the rows only the provider's invoices |
| `Promises.SentExactly` | apps/billing/services.py:331-343 | a row is marked sent exactly when it is open, known to the provider as a draft, in or past its due month, with an address and an answered call |
| `Promises.FailedSendingExactly` | apps/integrations/tasks.py:733-770 | a row the sweep calls for without success keeps everything and shows the code of the failure; one it does not call for, or whose worker died, is left as it was |
| `Promises.DiscontinuationExactly` | apps/agreements/services.py:553-590 | in every consistent state a discontinuation is refused exactly for an agreement that is not signed and for a foreign, duplicate or paid selection, and else cancels exactly the selection, marks the agreement and the member with its leaving date, and changes nothing else |
| `Promises.CancellingQueuesExactly` | apps/billing/services.py:392-424 | cancelling a row queues an archive for a created invoice, a cancel for a sent one, and nothing for a row without an id |
| `Promises.RecomputingTakesTheNewPrice` | apps/billing/services.py:584-607 | recomputing a draft takes the annual amount or partial base of the plan as it is now, under the stored percent and override, changes nothing but the amounts, and is idempotent |
| `Promises.BasesInEveryRun` | apps/billing/services.py:588-596 | in runs without a price edit every base is the full annual amount or the partial base of the saved count |
| `Calls.EditingPlansExactly` | apps/billing/models.py:77-90 | an edit of price and activity changes that plan alone, and is refused exactly for deactivating the default plan |
| `Calls.DefaultStaysActive` | apps/billing/models.py:77-90 | the default plan is active through every run |
| `Seasons.ReassignKeepsSeasonsExactly` | apps/billing/services.py:922-938 | a reassignment keeps "a signed current agreement has its season's record" if and only if it does not strand a signed agreement |
| `Seasons.LinkedReassignmentsNeverStrand` | apps/billing/services.py:922-938 | a record linked to its member's current agreement can always be reassigned without loss |
| `Seasons.StrandingIsAccepted` | apps/billing/services.py:849-880 | a draft linked to another agreement can be reassigned away: no guard refuses it |
| `Losses.AmendmentThenReassignmentStrands` | apps/billing/services.py:922-938 | a reachable loss, for every accepted setup: after an amendment the draft can be moved to another season, and the signed agreement is left unbilled |
| `Losses.ClubStrands` | apps/billing/services.py:922-938 | a concrete club in which that run strands a season |
| `Seasons.DraftSucceedsExactly` | apps/billing/signals.py:6-9 | the draft of a signing comes about exactly when a record exists or the plan's whole schedule can be dated |
| `Seasons.RunKeepsSeasons` | apps/agreements/services.py:251-266 | every run that strands nobody keeps the promise |
| `Seasons.SignedMeansOneRecord` | apps/agreements/services.py:251-266 | in such runs a signed current agreement whose draft is done has exactly one record for its season |
| `Pipeline.LoadPipelineObjects` | apps/admin_hub/pipeline.py:87-111 | the loop finds the record of the current season if one exists, the earliest later one and the earliest one linked under an older season |
| `Pipeline.SignedBillingIsFound` | apps/admin_hub/pipeline.py:89-111 | in runs that strand nobody the hub finds the one billing record of a signed current agreement |
| `Families.TierIsFixedAtSigning` | apps/billing/services.py:67-104 | as long as the family's own signed rows stay and later ones sign later, the tier is the number of same-season siblings signed at the moment of signing, at most three |
| `Families.EveryInterleavingSnapshotsTheSameTier` | apps/billing/services.py:439-564 | over every run in which the guardian's children sign at increasing times and none of their signed rows is taken away before the draft, it snapshots 0, 50, 75 or 100 percent for 0, 1, 2 or more siblings signed before in the season and not gone by the first due date, or 0 on opt-out, whatever else happens in between |
| `Families.FirstDueMeaning` | apps/billing/services.py:104-110 | that first due date is the clamped due day of the earliest billing month not before the given month, or the plan's own |
| `Families.LeaverLeavesOnTheDay` | apps/billing/services.py:84-93 | a discontinued member drops out of the ranking exactly for first due dates on or after its leaving date |
| `Families.LeaverFreesItsRank` | apps/billing/services.py:88-96 | after a discontinuation the siblings ranked before any other member are the same but for the leaver |
| `Families.RenewalRanksNoLower` | apps/billing/services.py:100-101 | the rank over all seasons is never below the rank within one season |
| `RemoteLife.EnsureClientOk` | apps/integrations/invoice_ninja.py:138-195 | looking up before creating keeps at most one active client per guardian, also after lost replies |
| `RemoteLife.CreateInvoiceOk` | apps/integrations/invoice_ninja.py:213-227 | one call keeps one invoice per number, adds at most one, of the number, amount and client it was given, and answers only with the live invoice of the number asked for |
| `RemoteLife.CreateWithRecoveryOk` | apps/integrations/tasks.py:427-437 | the retry with a fresh client keeps all of that |
| `RemoteLife.PushRowsKeepRemote` | apps/integrations/tasks.py:516-560 | so does the whole loop over the rows, for any answers |
| `RemoteRuns.StepKeepsRemote` | apps/integrations/tasks.py:463-770 | every step keeps one invoice per number, billing a row for its amount, and stored ids the ids of their numbers |
| `RemoteRuns.RunKeepsRemote` | apps/integrations/tasks.py:463-770 | so does every run; invoices and clients at the provider are only added, archived or cancelled |
| `ProviderPromises.OneInvoicePerNumber` | apps/integrations/tasks.py:427-569 | in every reachable state a number has one invoice, of the row's amount, and a stored id is that invoice's |
| `Recipients.EveryInvoiceBillsItsFamily` | apps/integrations/invoice_ninja.py:63-71 | in every reachable state each invoice is made out to a client of the guardian whose child its record bills, whatever replies were lost and however often clients went stale |
| `ProviderPromises.OneClientPerGuardian` | apps/integrations/invoice_ninja.py:138-195 | a guardian never has two active clients, and a stored client id is that guardian's |
| `ProviderPromises.IdsNeverChange` | apps/integrations/tasks.py:523-524 | an external id, once stored, is never replaced |
| `ProviderPromises.SyncedMeansBilledExactly` | apps/integrations/tasks.py:562-569 | for every synced record the provider's live invoices sum exactly to its open rows and those cancelled rows whose invoice is still live |
| `ProviderPromises.UncancelledMeansBilledInFull` | apps/integrations/tasks.py:562-569 | without cancelled rows that is the record's total, to the cent |
| `ProviderPromises.HealthyPushSyncs` | apps/integrations/tasks.py:463-569 | from every reachable confirmed state one answered push syncs, exactly when synced before, zero, with rows or with a derivable schedule |
| `ProviderPromises.FinishedCancellationsAreOut` | apps/integrations/tasks.py:586-626 | a finished cancellation has archived or cancelled the invoice of that row |
| `ProviderPromises.LostInvoiceStaysLive` | apps/integrations/tasks.py:586-596 | an invoice whose reply was lost and whose row was then cancelled stays live through every later run |
| `Losses.LosingAnInvoice` | apps/billing/services.py:395-402 | a run that gets there, for every accepted setup with something to pay: the first reply is lost, the row's discontinuation is accepted, and its invoice is live after every later run |
| `Losses.ClubLosesAnInvoice` | apps/billing/services.py:395-402 | a concrete club in which that happens |
| `EndToEnd.EveryAcceptedSetupIsDrafted` | apps/agreements/services.py:338-430 | from fresh tables, for every member, plan and month that setting up accepts, creating, setting up, signing and drafting succeed and give exactly the expected tables |
| `EndToEnd.EveryAcceptedSetupCanBeBilled` | apps/agreements/services.py:338-430 | and two more steps, confirming and pushing, end in a synced record with exactly the partial-year price at the provider |
| `ProviderPromises.NumberTextInjective` | apps/integrations/invoice_ninja.py:45-47 | with one prefix a number text names one record and one sequence |

## Left out

- HTTP transport, headers, status codes and JSON: the provider's answers are abstract fates of a call.
- DocuSeal, the identity provider, analytics, file storage, OCR, OTP and webhooks.
- Views, templates, exports, display columns and form rendering.
- E-mail rendering and SMTP: a mail outcome is a sent or failed value; audit events and lifecycle event rows are not kept.
- The fields of agreements, members and applications that billing does not read (signing path, void reason, names, documents).
- The dates, notes and product line of the provider's invoice: of its body the number, the amount and the client are kept.
- Product ids at the provider: ensuring a product is one call that may fail; its id is not kept.
- Staff working directly in Invoice Ninja, except archiving a client; the provider keeps numbers unique even across archived invoices, and its lookups of active rows are reliable.
- Edits of a plan's season, months, counts, due day, skip months or cutoff, and of which plan is the default.
- Members and plans exist from the start of a run; approving an application and adding members are modelled only in `Corrections` and `Guardians`.
- Moving a member to another guardian, and deleting agreements or members with billing.
- Materializing rows, archiving a void agreement with creating the next, and stamping a signature are one step each; a crash between their writes is not modelled. A worker may die between rows and calls of a push.
- Jobs run one at a time; row locks and overlapping transactions are not modelled.
- `BillingSteps.CreateDraft` does not model agreements without a plan, which signing refuses; the call without any agreement is `Backfill`.
- `BillingSteps.Backfill` is the branch of the draft creation without an agreement, which no caller of the repository takes: the signal (apps/billing/signals.py:9) and the backfill command (apps/billing/management/commands/backfill_billing.py:26) both pass one. A record the command creates is the one `Recreate` creates for the same agreement; its loop over all signed agreements is not modelled.
- An e-mail of the sweep is kept at the provider as its date alone; its text and address are not kept.
- `Services.Club.SendDueInvoices`: the rows of the sweep are given in the order the query returned them; a worker's death leaves that row unchanged, and a sweep that ends there is one over fewer rows.
- `Pipeline.LoadPipelineObjects`: the database's season order is taken to be Python's string order.
- Text.ParseInt: ASCII digits and whitespace only; other Unicode digits and spaces are not modelled. Guardians.Lower lowers ASCII letters only.
- The 28-digit decimal context: amounts are exact integers, field widths are not modelled.
- Payment amounts, balances and links: only the payment status of a row is kept, and the roll-up onto the record is left out.
- Credit notes, lanes, field readouts, address search and medical permits, which would only add easy members.
