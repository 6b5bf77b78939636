# Verified models of the school backend

A Dafny model of the parts of the backend that are algorithms or protocols, with proofs about every
input, every run and every reachable state. One module models one component:

| file | component |
|---|---|
| `Admissions.dfy` | admission-number configuration and the allocator with its search loop |
| `StudentSync.dfy` | the student write path: quota, backfill, allocation and row in one transaction |
| `WorkspaceFilter.dfy` | the multi-pass role filter, the join it computes, media visibility |
| `Pull.dfy`, `Bootstrap.dfy` | keyset-paged incremental pull; offset-paged workspace download |
| `MediaKey.dfy`, `MediaStore.dfy` | identity keys of media slots; upserting media and retiring what it replaces |
| `Settlement.dfy` | payment callbacks that settle one subscription change order |
| `DevicePairing.dfy` | registering, linking, approving and revoking support devices |
| `Licences.dfy` | perpetual licences and their activation and device slots |
| `Ownership.dfy` | transfer of an account to another user |
| `StudentPricing.dfy`, `QuoteMoney.dfy`, `Calendar.dfy` | tiered charges, quote money, calendar months |
| `Common.dfy`, `Text.dfy` | optional values and results; trimming, upper case, numerals, string order |

How the source is carried over. Tables are maps held in a class; a compound key that the schema
declares unique is a real constraint. Services that update rows are classes whose methods change the
same rows in the same order, and each method is proved equal to a specification function (or inside a
specification relation) on which the theorems are proved. Where callbacks or requests may interleave
(settlement, pairing), a handler is a value that names its next database call, `Next` makes one call,
and a run is any schedule of calls; a transaction is one call. Transactions under an advisory lock or
SERIALIZABLE isolation are one step. Time is a parameter; signatures, hashes, the payment provider, the
case table of the platform and the registry's table sets are parameters or injective values. Money and
rates are integers or reals. Month arithmetic is stated for every calendar whose months follow one
another and whose days read back as what makes them; the Gregorian calendar is proved to be one.

Besides the theorems over runs the main operations have lemmas that say, from their inputs, exactly when
they succeed and what they leave.

What the proofs brought out about the code:

- Pairing requests served one at a time always leave a registered user an active device. When their calls
  interleave they need not: two trusted devices that revoke each other at the same time leave none, from
  the empty database (`DevicePairing.MutualRevocationHappens`). The exact condition is that no revoking
  write hits the only active device (`DevicePairing.InterleavedRunKeepsActive`), which holds whenever the
  signing device is still active at that write (`DevicePairing.SignedRevocationsKeepActive`); the source
  checks the signer in an earlier call.
- After an ownership transfer the target is the only active owner-level user, whatever names roles were
  stored under. An active membership stored as `school_owner` or `account_owner` survives, because the
  bulk update looks for the two literal names only: `Ownership.OneOwnerMembership` gives the exact
  condition. A displaced owner with a lower membership is set active even if the login was inactive.
- A write at or below a client's pull cursor never reaches that client: `Pull.WriteReachesClient`. A first
  pull without `since` looks at timestamps on the in-memory path and not on the database path, so the two
  differ exactly when a timestamp is not positive: `Pull.PathsAgree`. A row with a negative timestamp
  produces a cursor that the server refuses: `Pull.CursorRoundTrip`.
- A download continues exactly when scope, page size and the digests of the list are unchanged and the
  cursor text is at most 4096 characters long, a length that includes the encoded table list:
  `Bootstrap.CursorHonoured`.
- Media slots keep one live asset exactly when no live asset of the slot is older than the 500 rows of
  the account updated last: `MediaStore.UpsertKeepsOneLive`.
- The quote's period end runs over into the next month by up to three days where the billing service
  clamps: `Calendar.GregorianAddition`, reached by 31 January of every year that is not a leap year
  (`Calendar.OverflowReachesThree`).

## Model

| member | source | states |
|---|---|---|
| `Admissions.NormalizeNumberStable` | src/admissions/admission-number.service.ts:39-41 | normalising a number twice is normalising it once, for every case table |
| `Admissions.NormalizeConfigValid` | src/admissions/admission-number.service.ts:43-61 | every accepted configuration is within the limits and has a normalised prefix |
| `Admissions.NormalizeConfigStable` | src/admissions/admission-number.service.ts:43-70 | normalising again what was normalised returns it unchanged exactly when it is a valid configuration |
| `Admissions.ConfigurationAccepted` | src/admissions/admission-number.service.ts:43-61 | which stored objects are accepted: a known mode, branch scope, short texts, a whole width from 1 to 12 and a whole safe start from 1 |
| `Admissions.ConfigurationRead` | src/admissions/admission-number.service.ts:45-60 | what an accepted object means, with manual, no prefix, "-", 3 and 1 for what is missing |
| `Admissions.CandidateShape` | src/admissions/admission-number.service.ts:117-120 | a normalised candidate is the fixed stem followed by the padded counter, so it is never empty |
| `Admissions.CounterRoundTrip` | src/admissions/admission-number.service.ts:117-119 | the counter can be read back from the formatted, normalised number: formatting is injective |
| `Admissions.Pigeonhole` | src/admissions/admission-number.service.ts:115-131 | a set that holds the numbers of n consecutive counters has at least n elements |
| `Admissions.AdmissionNumberService.FindFree` | src/admissions/admission-number.service.ts:111-132 | the loop returns the least counter from the start whose number is unused, or says why every one it may try is used |
| `Admissions.AdmissionNumberService.AllocateAutomatically` | src/admissions/admission-number.service.ts:106-132 | seeds the branch sequence once, registers the number found and advances the sequence past it; on failure nothing is registered |
| `Admissions.AdmissionNumberService.AssignInTransaction` | src/admissions/admission-number.service.ts:63-133 | every answer and every resulting table of an allocation: registered, supplied, manual and automatic branches with their errors |
| `Admissions.AdmissionNumberService.Create` | src/admissions/admission-number.service.ts:90-99 | a row is inserted exactly when neither the student nor the branch's normalised number is taken |
| `Admissions.AllocationSucceeds` | src/admissions/admission-number.service.ts:106-132 | with n numbers held, n below 100,000 and room below the safe-integer limit, an automatic allocation succeeds within n + 1 attempts at the least free counter |
| `Admissions.DrawExactly` | src/admissions/admission-number.service.ts:106-132 | exactly what an automatic allocation does: it issues the least number that is free among the next 100,000 safe counters and moves the counter past it, or fails, with which error, and leaves the counter where it was |
| `Admissions.AllocationKeepsRegistry` | src/admissions/admission-number.service.ts:63-133 | allocation never changes or drops a registered identity, never lowers a counter, and keeps numbers unique per branch |
| `Admissions.MovedCounterIsIssued` | src/admissions/admission-number.service.ts:111-130 | only an automatic allocation moves a counter, and it registers the number of the value drawn |
| `Admissions.NewRequestRefused` | src/admissions/admission-number.service.ts:85-104 | for a new student exactly: a typed number is refused in automatic mode and when taken, a draw in manual mode, and nothing is registered for no number in manual mode |
| `Admissions.TypedNumberRegistered` | src/admissions/admission-number.service.ts:88-95 | a typed number that is not refused is registered, trimmed, with its normal form, and no counter moves |
| `Admissions.KnownRequestAnswered` | src/admissions/admission-number.service.ts:73-83 | a registered student's request answers with the registered number or is refused for another branch, and changes nothing |
| `Admissions.IncompleteRefused` | src/admissions/admission-number.service.ts:64-69 | a request is refused for missing identifiers exactly when one is blank |
| `StudentSync.StudentSyncService.UpsertStudentWithAdmission` | src/sync/sync.service.ts:2794-2967 | up to four attempts of the transaction keep the invariant and have exactly one push's outcome; a serialization failure means that the last attempt failed |
| `StudentSync.StudentSyncService.Transaction` | src/sync/sync.service.ts:2807-2953 | one attempt: a conflict or a rejection leaves every table as it was |
| `StudentSync.StudentSyncService.Write` | src/sync/sync.service.ts:2843-2951 | backfill, tombstone, capacity check, settings and live save, with the reason of each rejection |
| `StudentSync.StudentSyncService.FindTarget` | src/sync/sync.service.ts:2808-2841 | the row of the student, cloud mismatch, refused transfers and stale answers |
| `StudentSync.StudentSyncService.BackfillBranch` | src/sync/sync.service.ts:2843-2874 | in a store that pushes alone have built, the historical backfill changes nothing and does not fail |
| `StudentSync.StudentSyncService.AssertCapacity` | src/sync/sync.service.ts:2751-2792 | counts distinct live identities and refuses exactly when enforcement, entitlement and limit say so |
| `StudentSync.StudentSyncService.SaveLive` | src/sync/sync.service.ts:2900-2951 | protects the number already stored, allocates or keeps a number and stores the live row that agrees with the registry |
| `StudentSync.PushKeepsInv` | src/sync/sync.service.ts:2794-2967 | every push keeps the invariant that ties rows, registry and counters together |
| `StudentSync.RunKeepsInv` | src/sync/sync.service.ts:2794-2967 | the invariant holds in every state of every run from an empty account |
| `StudentSync.RunGrows` | src/sync/sync.service.ts:2824-2834 | between any two points of a run registered numbers stay as they are and counters do not go down |
| `StudentSync.RunConfirms` | src/sync/sync.service.ts:2928-2951 | at every point of a run a live row is marked confirmed exactly when the registry holds its student, and then shows that number |
| `StudentSync.RunKeepsNumbersApart` | src/sync/sync.service.ts:2843-2951 | at every point of a run two live rows of a branch never share a normalised number, however often they were deleted and restored |
| `StudentSync.DrawsIncrease` | src/admissions/admission-number.service.ts:111-129 | automatic counter values strictly increase over a run, whatever seeds the settings carry |
| `StudentSync.DrawRegisters` | src/admissions/admission-number.service.ts:126-130 | a push that draws a counter value registers a number formatted from it |
| `StudentSync.PushKeepsQuota` | src/sync/sync.service.ts:2888-2892 | under an enforced limit a push keeps the number of distinct live students within it; deletions and edits of live students are never refused for capacity |
| `StudentSync.RunKeepsQuota` | src/sync/sync.service.ts:2751-2792 | no run under a fixed enforced limit exceeds it |
| `StudentSync.NumberIsDrawn` | src/sync/sync.service.ts:2919-2930 | in automatic mode, and in mixed mode when the push is provisional or has no number, a saved row shows the least free number of the branch and its counter moves past it; whatever a device assigned, only an exhausted sequence refuses it |
| `StudentSync.TypedNumberIsKept` | src/sync/sync.service.ts:2919-2937 | in manual mode, and in mixed mode without the provisional mark, a saved row shows the trimmed pushed number, refused exactly when the branch uses it |
| `StudentSync.NoNumberInManualMode` | src/sync/sync.service.ts:2929-2937 | without a number in manual mode the row is stored unconfirmed and nothing is registered |
| `StudentSync.RegisteredNumberIsKept` | src/sync/sync.service.ts:2824-2834 | a registered student's saved row shows the registered number whatever the push says, and no table changes |
| `StudentSync.RegisteredNeverRefused` | src/sync/sync.service.ts:2824-2834 | a registered student's push is never refused for its number |
| `StudentSync.CarriedNumberIsKept` | src/sync/sync.service.ts:2903-2918 | a number that an unregistered student's row already shows is registered and kept in any mode, and no other student of the branch has it then |
| `StudentSync.CarriedNumberRefused` | src/sync/sync.service.ts:2903-2930 | such a push is refused for a number only when another student of the branch has it |
| `StudentSync.SavedRowIsPushed` | src/sync/sync.service.ts:2876-2951 | the saved row field by field; every other row stays, and a deletion changes no registry |
| `StudentSync.SavedRowIsTheStudents` | src/sync/sync.service.ts:2808-2822 | a saved or stale push names the student's own row in its branch, or a saved one adds a first one, and its cloud id names no other student |
| `StudentSync.StaleExactly` | src/sync/sync.service.ts:2823-2840 | a stored row turns a push away exactly for another known number, or for no higher version and an earlier time; nothing changes then |
| `StudentSync.RunNeverGoesBack` | src/sync/sync.service.ts:2835-2840 | no step of a run replaces a row by one with both no higher version and an earlier time |
| `StudentSync.CapacityExactly` | src/sync/sync.service.ts:2756-2792 | exactly whom an enforced quota keeps out: a student who is not live, without entitlement or at the limit |
| `StudentSync.RejectionHasCause` | src/sync/sync.service.ts:2794-2822 | every other rejection has its cause in the push or the stored rows, and changes nothing |
| `WorkspaceFilter.FilterRecords` | src/sync/sync.service.ts:1895-2038 | passes, owner index, media selection and final sweep compute the visible records in their order |
| `WorkspaceFilter.CollectTeacherAccess` | src/sync/sync.service.ts:1928-1983 | the three passes compute the classes, colleagues, class subjects, students and report cards of the teacher |
| `WorkspaceFilter.CollectChildren` | src/sync/sync.service.ts:1907-1918 | the pass over the link rows computes the parent's children |
| `WorkspaceFilter.IndexOwners` | src/sync/sync.service.ts:2007-2015 | the index holds a table and id exactly when some record of the role is that owner |
| `WorkspaceFilter.SelectMedia` | src/sync/sync.service.ts:2017-2033 | the selected assets are those whose owner is in the index, or that have no owner for an unscoped role |
| `WorkspaceFilter.FilterMonotone` | src/sync/sync.service.ts:1895-2038 | adding records never hides a record that was visible, for every role |
| `WorkspaceFilter.FilterIdempotent` | src/sync/sync.service.ts:1895-2038 | filtering the output again changes nothing |
| `WorkspaceFilter.VisibleInOutput` | src/sync/sync.service.ts:1895-2038 | a record is visible judged against the output exactly when it was visible judged against all records |
| `WorkspaceFilter.TeacherEvidenceAuthorized` | src/sync/sync.service.ts:1928-1983 | every record that a pass uses as evidence is itself authorized |
| `WorkspaceFilter.FilterKeepsOrder` | src/sync/sync.service.ts:2035-2037 | the output lists exactly the visible positions of the input, each once and in increasing order |
| `WorkspaceFilter.TeacherClassRows` | src/sync/sync.service.ts:2316-2323 | a teacher sees a class, or an assignment or enrolment row of a class, exactly when a live assignment row gives the class to them |
| `WorkspaceFilter.TeacherPeople` | src/sync/sync.service.ts:2315-2320 | a teacher sees themselves, whoever is assigned to one of their classes, and the students actively enrolled in one, and no others |
| `WorkspaceFilter.TeacherReports` | src/sync/sync.service.ts:2324-2334 | report cards and their items are visible exactly when the card, or an item without a card, is of a taught class or of a taught student without a class |
| `WorkspaceFilter.TeacherScores` | src/sync/sync.service.ts:2336-2344 | a score is visible exactly when it names something and every class, student and class subject it names is taught |
| `WorkspaceFilter.TeacherOthers` | src/sync/sync.service.ts:2345-2373 | in every other table a teacher sees what is shared, and what names the teacher and nothing that is not taught; the rules for applicabilities and attendance |
| `WorkspaceFilter.StudentJoin` | src/sync/sync.service.ts:2118-2181 | a student sees, in the tenant, shared tables, records that name the student, the own row, and records with the student as subject, and nothing else |
| `WorkspaceFilter.OtherStudentsHidden` | src/sync/sync.service.ts:2118-2181 | personal records that name another student are hidden from a student |
| `WorkspaceFilter.ParentJoin` | src/sync/sync.service.ts:2183-2290 | a parent sees, in the tenant, shared tables, records that name the parent, and records that name a child joined by a live link row |
| `WorkspaceFilter.OtherFamiliesHidden` | src/sync/sync.service.ts:2183-2290 | personal records of children without a live link are hidden from a parent |
| `WorkspaceFilter.VisibleIsInTenant` | src/sync/sync.service.ts:2040-2116 | no role sees a record or an asset that names another school or branch, nor one without a name where the table requires it |
| `WorkspaceFilter.WholeTenant` | src/sync/sync.service.ts:1985-2005 | staff, and students and parents without a profile, see exactly their tenant; a teacher without one sees no record |
| `WorkspaceFilter.VisibleMediaHasVisibleOwner` | src/sync/sync.service.ts:2007-2033 | for student, parent and teacher scopes each visible asset has a visible owner record, and never another teacher |
| `WorkspaceFilter.MediaJoin` | src/sync/sync.service.ts:2007-2033 | an asset is visible exactly when it is in the tenant and its owner record is visible, without an owner to staff only, and of teachers to the teacher alone |
| `Pull.CursorRoundTrip` | src/sync/sync.service.ts:3600-3628 | a row's cursor comes back unchanged, except that a negative timestamp is refused |
| `Pull.QueryAnswered` | src/sync/sync.service.ts:437-449 | which queries both paths answer: limit 1 to 2000, and a whole cursor with a timestamp not below 0, or none and such a since |
| `Pull.AccountWidePage` | src/sync/sync.service.ts:458-516 | a page of the database path holds the earliest rows above the cursor or since, in order, says whether any were left out, and where it ended |
| `Pull.ScopedPage` | src/sync/sync.service.ts:493-516 | a page of the in-memory path does so for the records it was given |
| `Pull.OneMoreIsEnough` | src/sync/sync.service.ts:479-482 | fetching one row more than the limit gives the same page as fetching all |
| `Pull.Delivered` | src/sync/sync.service.ts:454-516 | a page holds stored rows above the cursor and leaves out none between the old and the new cursor |
| `Pull.PullConverges` | src/sync/sync.service.ts:454-516 | in every run of pages and writes above the client's cursor, a page without more rows leaves the replica equal to the server's selected table, shared timestamps included |
| `Pull.BelowCursorIsNeverDelivered` | src/sync/sync.service.ts:462-476 | no later page delivers a record written at or below the cursor |
| `Pull.WriteReachesClient` | src/sync/sync.service.ts:454-516 | a write reaches a client that pulls to the end exactly when its key is above the cursor or the client already had that row |
| `Pull.PagesPartitionListing` | src/sync/sync.service.ts:458-482 | on a fixed table the pages, for any limit, concatenate to the sorted listing, and every page but the last is full |
| `Pull.PagingCompletes` | src/sync/sync.service.ts:433-516 | with timestamps that a cursor accepts, paging to the end always succeeds |
| `Pull.FilterKeepsSorted` | src/sync/sync.service.ts:486-497 | the workspace filter leaves the ordered candidates ordered |
| `Pull.PathsAgree` | src/sync/sync.service.ts:483-512 | on the same records the in-memory path answers every query as the database path, except exactly a first query without since when some timestamp is not positive |
| `Bootstrap.EligibleRecords` | src/sync/sync.service.ts:865-876 | the eligible list is ordered and holds exactly the visible records of the selected tables |
| `Bootstrap.CursorHonoured` | src/sync/sync.service.ts:895-932 | exactly when a cursor is honoured: same scope and page size, same digests, text of at most 4096 characters |
| `Bootstrap.PageAnswered` | src/sync/sync.service.ts:860-922 | which requests are answered, from any client: 1 to 500 rows, from the start or a cursor made for the list as it is now |
| `Bootstrap.PageContents` | src/sync/sync.service.ts:924-932 | the page has the rows from its offset on, as many as fit, and a cursor to the next one exactly when more follow |
| `Bootstrap.DownloadIsOneRevision` | src/sync/sync.service.ts:878-940 | a download that completes without error met one revision throughout, and its pages concatenate to that revision's digests |
| `Bootstrap.DownloadIsTheList` | src/sync/sync.service.ts:878-940 | when version and timestamp tell records apart, the concatenated pages are the eligible list itself |
| `MediaKey.DecodeEncode` | src/sync/sync.service.ts:3987-3988 | percent-decoding undoes percent-encoding of every string |
| `MediaKey.EncodeHasNoBar` | src/sync/sync.service.ts:3987-3997 | the encoding never contains the separator |
| `MediaKey.EncodedAsItself` | src/sync/sync.service.ts:3987-3988 | exactly the letters, digits and nine marks of encodeURIComponent are their own encoding |
| `MediaKey.KeyRoundTrip` | src/sync/sync.service.ts:3972-4011 | a key parses back to its account, table, field and owner or temporary id |
| `MediaKey.KeyInjective` | src/sync/sync.service.ts:3972-4011 | two slots have the same key exactly when they are the same slot |
| `MediaKey.KeyNamesSlot` | src/sync/sync.service.ts:3972-4011 | when a key exists, and that it names the clean account, table and field with the owner, or else the temporary owner |
| `MediaKey.KeyIsClean` | src/sync/sync.service.ts:3382-3392 | a key has no white space, so cleaning a stored key leaves it as it is |
| `MediaStore.NormalizeTwice` | src/sync/sync.service.ts:3263-3308 | the normalisation after a save cannot fail and changes at most a blank device id |
| `MediaStore.DeactivationRestores` | src/sync/sync.service.ts:3402-3518 | retiring candidates restores one live asset per slot exactly when it reaches every other live asset of the slot |
| `MediaStore.UpsertKeepsOneLive` | src/sync/sync.service.ts:2969-3069 | an upsert keeps one live asset per slot exactly when no live asset of the pushed slot lies outside the 500 most recent other rows |
| `MediaStore.SmallAccountKeepsOneLive` | src/sync/sync.service.ts:3402-3416 | with at most 500 other media rows it always does |
| `MediaStore.UpsertTouchesOneSlot` | src/sync/sync.service.ts:3424-3516 | besides its own row an upsert only retires live assets of the same one-asset slot |
| `MediaStore.GalleryAddsSibling` | src/sync/sync.service.ts:3142-3148 | a new asset of a gallery field becomes a row of its own and changes no other row |
| `MediaStore.KnownAssetIsFound` | src/sync/sync.service.ts:3121-3140 | a pushed asset whose local id the account stores updates the most recent row with it |
| `MediaStore.SlotRowIsFound` | src/sync/sync.service.ts:3150-3184 | a new asset for an occupied one-asset slot takes over the slot's most recent row, never that of another slot |
| `MediaStore.CloudIdDecides` | src/sync/sync.service.ts:3079-3082 | a cloud id that names a row decides the lookup |
| `MediaStore.OwnerRowIsFound` | src/sync/sync.service.ts:3186-3209 | a row of the owner's field that was stored without its key is found among the 50 rows of the owner updated last |
| `MediaStore.TemporaryRowIsFound` | src/sync/sync.service.ts:3211-3234 | a row stored under the owner's temporary key is found once the owner has an id |
| `MediaStore.PushAccepted` | src/sync/sync.service.ts:2972-3004 | which pushes may be stored: account, permanent local id and, for a live asset, table, field and owner |
| `MediaStore.KnownAssetDecided` | src/sync/sync.service.ts:3015-3028 | a found row is refused for another account, stale exactly at no higher version and an earlier time, and otherwise saved unless it would stand for another row's asset and device |
| `MediaStore.NewAssetDecided` | src/sync/sync.service.ts:3053-3068 | an asset that is not found becomes a new row unless a row stands for its asset and device |
| `MediaStore.SavedRowIsPushed` | src/sync/sync.service.ts:3030-3068 | the saved row field by field, its device id kept when the push has none; what is not saved changes nothing |
| `MediaStore.PushRetiresExactly` | src/sync/sync.service.ts:3324-3518 | exactly which rows a saved push retires: those in use in its one-asset slot - account, table, field and owner, or temporary owner without one - among the 500 other rows updated last, when it is in use itself |
| `MediaStore.RetiredRow` | src/sync/sync.service.ts:3476-3512 | a retired row is deleted and inactive under its slot's key, one version on |
| `MediaStore.RunNeverGoesBack` | src/sync/sync.service.ts:3023-3028 | in every run a row gives way only to a higher version or a later time |
| `MediaStore.RunKeepsOneRow` | prisma/schema.prisma:236 | in every run no two rows stand for the same asset of an account on the same device |
| `MediaStore.RunKeepsNormal` | src/sync/sync.service.ts:2996-3004 | in every run of pushes all rows keep clean fields and the key of their own slot |
| `MediaStore.RunKeepsOneLive` | src/sync/sync.service.ts:3246-3519 | in every run of pushes each slot holds at most one live asset |
| `MediaStore.MediaAssets.UpsertRecord` | src/sync/sync.service.ts:2969-3069 | lookup, ownership, staleness and uniqueness decide the outcome; a stale or failed push changes nothing |
| `MediaStore.MediaAssets.AfterUpsertRecord` | src/sync/sync.service.ts:3246-3322 | the saved payload is normalised again and, outside gallery fields, the slot's other assets are retired |
| `MediaStore.CollectUpdates` | src/sync/sync.service.ts:3418-3512 | the loop over the candidates collects exactly the retirements of the live ones in the same slot |
| `MediaStore.MediaAssets.DeactivateReplacedMediaAssets` | src/sync/sync.service.ts:3324-3519 | an asset that is live in a one-asset slot retires the live candidates of the slot, any other asset changes nothing |
| `Settlement.SettlesExactlyOnce` | src/billing/billing.service.ts:412-497 | in any interleaving of repeated and reordered webhook, verification and confirmation callbacks no success callback fails, and once one has finished the store is that of a single success and stays so |
| `Settlement.AllFinishedIsOneSuccess` | src/billing/billing.service.ts:412-497 | once all callbacks of a run have finished, a success among them, the store is the one that a single success running alone leaves |
| `Settlement.SingleSuccess` | src/billing/billing.service.ts:412-479 | one success callback that runs alone does not fail and reaches the same store as any finished run |
| `Settlement.EffectInRun` | src/billing/subscription-change.service.ts:361-490 | between any two calls of a run the order has had all of its effect or none, and all once a success has finished: payment and invoice paid, the subscription on the order's plan, cycle and dates, one entitlement version on, and one period with the order's terms beside the earlier ones |
| `Settlement.SuccessAppliesExactly` | src/billing/subscription-change.service.ts:325-490 | exactly when an uninterrupted success applies an order of any rows: it names the payment, and the payment is the linked one on the order's terms, confirmed for a student-priced plan; otherwise order, subscription and periods stay |
| `Settlement.SuccessPaysExactly` | src/billing/billing.service.ts:412-479 | exactly when an uninterrupted success marks the payment paid; one that does not changes nothing |
| `Settlement.ActivationSettles` | src/billing/billing.service.ts:310-399 | an activation marks its order's payment and invoice paid, and changes nothing for any other payment |
| `Settlement.ApplyExactly` | src/billing/subscription-change.service.ts:361-490 | exactly when the applying transaction applies an order, and what it then leaves |
| `Settlement.AppliedStays` | src/billing/subscription-change.service.ts:325-330 | a success for an applied order changes neither order, subscription nor periods |
| `Settlement.FailureMarksUnlessPaid` | src/billing/billing.service.ts:481-497 | a failed charge marks exactly an unpaid payment failed and changes nothing else |
| `Settlement.NeverAppliedUnpaid` | src/billing/subscription-change.service.ts:325-490 | in every interleaving of callbacks, from any rows at all, an order is applied at most once and only with a payment that pays for it |
| `Settlement.ClaimedOnce` | src/billing/subscription-change.service.ts:298-322 | at most one checkout wins the claim on an order, before and after it settles |
| `Settlement.BillingService.MarkPaymentPaid` | src/billing/billing.service.ts:412-479 | equals the success callback run to its end: verification, compare-and-set, restored proof, activation |
| `Settlement.BillingService.MarkPaymentFailed` | src/billing/billing.service.ts:481-497 | equals the failure callback run to its end: the compare-and-set leaves a paid payment paid |
| `Settlement.BillingService.ActivateSubscriptionFromPayment` | src/billing/billing.service.ts:310-399 | equals the activation calls run to their end: payment, then invoice, then order |
| `Settlement.BillingService.ApplyPaidChangeOrder` | src/billing/subscription-change.service.ts:325-361 | equals the order calls run to their end: promotion and application only behind the matching paid payment |
| `Settlement.BillingService.Apply` | src/billing/subscription-change.service.ts:363-486 | one transaction applies the order, renews the subscription, raises the entitlement version once and adds the order's one period |
| `Settlement.BillingService.MarkPaymentPending` | src/billing/subscription-change.service.ts:298-322 | the claim links order, invoice and payment only from the allowed unlinked state |
| `Settlement.BillingService.HandlePaystackWebhook` | src/billing/billing.service.ts:1309-1381 | a success or failure event equals its callback run to its end; a dispute, another event or an unknown reference leaves the rows as they are |
| `DevicePairing.TrustTreeInEveryRun` | src/support/support-device-links.service.ts:176-208 | in every interleaving of calls each user has at most one self-linked device, and every linked device's chain stays with the user, has no cycle and ends at it, after revocations too |
| `DevicePairing.RunKeepsTrees` | src/support/support.service.ts:113-133 | the tree invariant holds after every database call of every run |
| `DevicePairing.AloneKeepsPairing` | src/support/support-device-links.service.ts:127-303 | a request served without interruption keeps the pairing invariant |
| `DevicePairing.SerialRunKeepsPairing` | src/support/support-device-links.service.ts:127-445 | served one at a time, requests keep: a registered user has an active device, a pending link has a target that can be linked, approver equals linker, and history keys target active devices of the link's user |
| `DevicePairing.WonApprovalLinksDevice` | src/support/support-device-links.service.ts:195-208 | an approval that wins its link also links the device, and otherwise changes nothing |
| `DevicePairing.ApprovalExactly` | src/support/support-device-links.service.ts:176-208 | exactly when an uninterrupted approval succeeds - own, open link below 5 attempts, its ten-digit code, a signature of another active device, an unlinked target - and what it changes; otherwise no device changes |
| `DevicePairing.MissIsCounted` | src/support/support-device-links.service.ts:184-194 | an approval with another code, a malformed one or an unsigned one of an acting device is refused, raises the link's attempts by one and changes nothing else |
| `DevicePairing.ApprovedWhileOpen` | src/support/support-device-links.service.ts:195-200 | in every interleaved run a link is approved only while pending, unexpired and below five attempts, whatever happened since it was read |
| `DevicePairing.OneApprovalSucceeds` | src/support/support-device-links.service.ts:195-206 | however approvals of one link interleave, at most one of them ever succeeds |
| `DevicePairing.OnlyRevocationUndoesApproval` | src/support/support-device-links.service.ts:217-222 | in every interleaved run an approved link is cancelled only by the revocation of its device, never by a cancellation read before the approval |
| `DevicePairing.RunLinksWithCode` | src/support/support-device-links.service.ts:176-208 | in every interleaved run a device is linked by another one only through a signed request that carried the code of its link |
| `DevicePairing.RegistrationExactly` | src/support/support.service.ts:97-135 | when a registration succeeds, and that only a user's first device is linked by it |
| `DevicePairing.StartExactly` | src/support/support-device-links.service.ts:127-154 | when a link request succeeds, the link it creates, and exactly which older links it cancels |
| `DevicePairing.CancelExactly` | src/support/support-device-links.service.ts:217-222 | exactly a pending link of the user is cancelled |
| `DevicePairing.UploadExactly` | src/support/support-device-links.service.ts:226-291 | when an upload succeeds, and that it adds exactly the keys that were missing, each with its item's own wrapping |
| `DevicePairing.BatchLengthsAdd` | src/support/support-device-links.service.ts:253 | the length of two batches as one |
| `DevicePairing.CompleteExactly` | src/support/support-device-links.service.ts:293-303 | when a completion succeeds, and that it changes the link's status only |
| `DevicePairing.RevocationExactly` | src/support/support-device-links.service.ts:430-445 | when a revocation succeeds, and that exactly the device, its keys and its open links change |
| `DevicePairing.CallKeepsActive` | src/support/support-device-links.service.ts:440 | one database call of any handler leaves a user without an active device exactly when it is the revoking write and hits the only active one |
| `DevicePairing.LastActiveLostExactly` | src/support/support-device-links.service.ts:430-445 | in every interleaved run a user loses the last active device exactly at such a write |
| `DevicePairing.InterleavedRunKeepsActive` | src/support/support-device-links.service.ts:127-445 | an interleaved run leaves a registered user an active device at every point exactly when none of its revoking writes hits the user's only active device |
| `DevicePairing.SignedRevocationsKeepActive` | src/support/support-device-links.service.ts:435-440 | that is so whenever the device that signed a revocation is still active when the revocation is written |
| `DevicePairing.MutualRevocation` | src/support/support-device-links.service.ts:430-445 | two trusted devices, the only active ones, that revoke each other with both checks before both writes leave their registered user without one |
| `DevicePairing.MutualRevocationFromEmpty` | src/support/support-device-links.service.ts:127-445 | with any identifiers and code two registrations, a link request, its approval and two revocations have a run from the empty database that ends that way |
| `DevicePairing.MutualRevocationHappens` | src/support/support-device-links.service.ts:430-445 | such identifiers and a code exist, so there is such a run for every user |
| `DevicePairing.SupportDeviceLinks.RegisterKey` | src/support/support.service.ts:97-135 | equals the registration handler run to its end: a known id is checked, a new device is linked only when the user never had one |
| `DevicePairing.SupportDeviceLinks.Start` | src/support/support-device-links.service.ts:127-154 | equals the start handler run to its end: the target must be unlinked, its pending links are cancelled, one new link is created |
| `DevicePairing.SupportDeviceLinks.Approve` | src/support/support-device-links.service.ts:176-208 | equals the approve handler run to its end: checks, attempt counting, single-winner claim, then linking of the target |
| `DevicePairing.SupportDeviceLinks.Cancel` | src/support/support-device-links.service.ts:217-222 | equals the cancel handler run to its end: a link is cancelled only while it is pending |
| `DevicePairing.SupportDeviceLinks.CheckBatch` | src/support/support-device-links.service.ts:235-282 | the loops accept exactly batches of 1 to 100 well-formed, signed, accessible and encrypted items without a repeated message, over at most 30 conversations, whose JSON text has at most 1,300,000 characters |
| `DevicePairing.SupportDeviceLinks.UploadHistory` | src/support/support-device-links.service.ts:226-291 | equals the upload handler run to its end: an accepted batch of the approving active device is stored for an active target, duplicates skipped |
| `DevicePairing.SupportDeviceLinks.Complete` | src/support/support-device-links.service.ts:293-303 | equals the complete handler run to its end: an approved link is completed with the signature of its approving active device |
| `DevicePairing.SupportDeviceLinks.Revoke` | src/support/support-device-links.service.ts:430-445 | equals the revoke handler run to its end: the device is marked, its keys deleted and its open links cancelled, on another active device's signature |
| `Licences.RunKeepsInv` | src/licenses/license-activation.service.ts:40-218 | in every run activation and device rows exist together with equal status and neither active count exceeds its limit |
| `Licences.ActivateKeepsInv` | src/licenses/license-activation.service.ts:73-150 | an activation keeps both limits, whether it takes a slot or renews one |
| `Licences.ActivationSucceeds` | src/licenses/license-activation.service.ts:57-97 | exactly when an activation succeeds; a device in use is never refused for a limit |
| `Licences.IssuedLicenceActivates` | src/licenses/perpetual-license.service.ts:83-192 | a device takes the first slot of a new licence exactly when both limits allow one |
| `Licences.ActivationTakesSlot` | src/licenses/license-activation.service.ts:99-150 | what an activation leaves in both tables, fingerprint and account included, and that nothing else changes |
| `Licences.FingerprintIsBound` | src/licenses/license-activation.service.ts:61-71 | after an activation another fingerprint is refused for the device and the same one accepted |
| `Licences.ActivationRefused` | src/licenses/license-activation.service.ts:50-97 | every refusal has its own cause and changes nothing |
| `Licences.IssueExactly` | src/licenses/perpetual-license.service.ts:28-192 | when a licence is issued, and what it is then |
| `Licences.RunKeepsOneOpen` | src/licenses/perpetual-license.service.ts:46-60 | in every run an account never holds two pending or active licences |
| `Licences.DeactivationExactly` | src/licenses/license-activation.service.ts:181-205 | who may give a slot back, and what becomes of it |
| `Licences.ClosingExactly` | src/licenses/perpetual-license.service.ts:225-302 | who may suspend and revoke; suspension leaves every slot, revocation bars exactly those in use |
| `Licences.DeactivationFreesSlot` | src/licenses/license-activation.service.ts:193-205 | deactivating puts exactly that device's slot out of use in both tables |
| `Licences.DeactivateUndoesActivate` | src/licenses/license-activation.service.ts:99-205 | a device that takes a new slot and gives it back leaves the slots in use as they were |
| `Licences.ClosedLicenceRefuses` | src/licenses/license-activation.service.ts:56-59 | neither a suspended nor a revoked licence activates a device |
| `Licences.LeftActiveForGood` | src/licenses/perpetual-license.service.ts:225-302 | a licence that has left active stays out of it and never gains a device in use |
| `Licences.RevokedStaysEmpty` | src/licenses/perpetual-license.service.ts:250-302 | after a revocation no device of the licence is ever in use again |
| `Licences.LicenceServices.ActivateDevice` | src/licenses/license-activation.service.ts:33-166 | the checks under the lock in their order, then both slot rows |
| `Licences.LicenceServices.DeactivateDevice` | src/licenses/license-activation.service.ts:181-218 | for the account or an operator both slot rows become deactivated; a missing activation or another account is refused |
| `Licences.LicenceServices.IssueLicence` | src/licenses/perpetual-license.service.ts:28-192 | only an operator issues, only for an active plan, and only when the account has no pending or active licence |
| `Licences.LicenceServices.SuspendLicence` | src/licenses/perpetual-license.service.ts:225-248 | the licence becomes suspended and no slot changes |
| `Licences.LicenceServices.RevokeLicence` | src/licenses/perpetual-license.service.ts:250-302 | the licence is revoked and every slot in use is barred |
| `Ownership.GetHighestRemainingNonOwnerRole` | src/accounts/accounts.service.ts:166-196 | the scan returns the first role of the priority list that remains |
| `Ownership.FallbackIsStrongest` | src/accounts/accounts.service.ts:166-196 | the fallback is among the remaining roles, none below ownership is stronger, and there is none exactly when no such role remains |
| `Ownership.FallbackByName` | src/accounts/accounts.service.ts:166-196 | the order of the roles by name |
| `Ownership.StoredRoleNames` | src/common/roles.ts:82-114 | which stored names are of owner level, a developer's and a school administrator's |
| `Ownership.OneOwnerUser` | src/accounts/accounts.service.ts:702-857 | after a transfer the target is the account's one active owner-level user, under any role names |
| `Ownership.TransferAllowedExactly` | src/accounts/accounts.service.ts:592-675 | exactly when a transfer goes through; otherwise nothing changes |
| `Ownership.DisplacedExactly` | src/accounts/accounts.service.ts:702-745 | exactly who loses ownership: other users of the account with an owner-level role or live membership |
| `Ownership.TargetPromoted` | src/accounts/accounts.service.ts:790-857 | the target becomes an active owner with one membership of the whole account |
| `Ownership.TargetMembership` | src/accounts/accounts.service.ts:790-847 | what becomes of each of the target's memberships |
| `Ownership.OthersMembership` | src/accounts/accounts.service.ts:742-760 | exactly the displaced users' active owner-level memberships end, and no other membership of anyone else changes |
| `Ownership.OneOwnerMembership` | src/accounts/accounts.service.ts:742-847 | the target holds an active owner membership, and it is the only owner-level one exactly when no active membership carried an owner-level role under another name |
| `Ownership.LowerMembershipsKept` | src/accounts/accounts.service.ts:790-847 | memberships below ownership keep role and status, the target's owner-scope row aside |
| `Ownership.DisplacedOwnerDemoted` | src/accounts/accounts.service.ts:727-788 | a displaced owner takes the strongest role that is left in the final state or is deactivated; other users stay as they were |
| `Ownership.SessionsRevoked` | src/accounts/accounts.service.ts:887-903 | the account's sessions of the displaced owners and the target end, and no others |
| `Ownership.AccountsService.DisplaceOwners` | src/accounts/accounts.service.ts:702-788 | the loop over the users, in any order, displaces exactly the other owner-level identities |
| `Ownership.AccountsService.PromoteTarget` | src/accounts/accounts.service.ts:790-857 | the two bulk updates and the upsert settle every row of the target |
| `Ownership.AccountsService.TransferOwnership` | src/accounts/accounts.service.ts:592-940 | the checks in their order, then displacement, promotion and session revocation |
| `StudentPricing.ParseTiers` | src/billing/student-pricing.ts:28-37 | the walk accepts exactly one to twenty tiers with increasing safe thresholds, rates not below zero and one last tier without end |
| `StudentPricing.ParseStudentPricing` | src/billing/student-pricing.ts:13-39 | a stored configuration is accepted exactly when it is acceptable, and then means what it says |
| `StudentPricing.AcceptableIsStorable` | src/billing/student-pricing.ts:13-39 | whatever the parser accepts is in a known mode and is a price that the quote can charge: known period, at most 20 tiers, increasing safe thresholds, nothing below zero |
| `StudentPricing.StoredPriceRoundTrip` | src/billing/student-pricing.ts:13-39 | a price stored as configuration is accepted and means the same price |
| `StudentPricing.CalculateStudentQuote` | src/billing/student-pricing.ts:41-56 | for 1 to 1,000,000 students and any accepted price the loop does not fail, and charges the sum over the students of the rate of the tier each falls in |
| `StudentPricing.ChargeGrows` | src/billing/student-pricing.ts:41-56 | more students never cost less, minimum and rounding included |
| `StudentPricing.SplitKeepsCharge` | src/billing/student-pricing.ts:45-53 | splitting a tier at any threshold inside it at the same rate changes no charge |
| `StudentPricing.OneTierIsPerStudent` | src/billing/student-pricing.ts:44-53 | a single tier without end is per-student pricing |
| `StudentPricing.ChargeCoversMinimum` | src/billing/student-pricing.ts:55 | the charge reaches the minimum up to half a cent, and fully when the minimum is in whole cents |
| `StudentPricing.CentsNearest` | src/billing/student-pricing.ts:55 | rounding moves a price by at most half a cent |
| `StudentPricing.ChargeIsNearest` | src/billing/student-pricing.ts:41-56 | the charge is the larger of the minimum and the sum over the students, to the nearest cent |
| `QuoteMoney.ProrationSound` | src/billing/subscription-calculator.service.ts:56-100 | elapsed and remaining make up the total; the credit is between nothing and the current price, all of it before the period and none after |
| `QuoteMoney.ProrationTimes` | src/billing/subscription-calculator.service.ts:56-81 | total, remaining time and ratio in terms of the period and the effective time |
| `QuoteMoney.CreditIsFlooredShare` | src/billing/subscription-calculator.service.ts:82-91 | in exact arithmetic the credit is the whole-number quotient of price times remaining time by total time |
| `QuoteMoney.RoundedCreditWithinOne` | src/billing/subscription-calculator.service.ts:82-91 | a computed product that rounding moves by less than one gives a credit at most one off |
| `QuoteMoney.CreditShrinks` | src/billing/subscription-calculator.service.ts:65-91 | a later effective time never gives a larger credit |
| `QuoteMoney.DiscountWithinBase` | src/billing/subscription-calculator.service.ts:102-138 | a discount of any kind is between nothing and the base |
| `QuoteMoney.DiscountExactly` | src/billing/subscription-calculator.service.ts:102-138 | what each kind of discount takes off, the percentage rounded down to a whole amount |
| `QuoteMoney.QuoteConsistent` | src/billing/subscription-change.service.ts:105-161 | credit, discount and tax are within their bounds, and the amount due is the clipped amount before tax plus its floored tax |
| `QuoteMoney.QuoteExactly` | src/billing/subscription-change.service.ts:110-161 | base, credit, discount, floored tax and amount due of a quote in terms of its inputs |
| `QuoteMoney.AmountDueGrows` | src/billing/subscription-change.service.ts:110-161 | for the same terms the amount due never falls as the effective time moves later |
| `Calendar.AddCalendarMonths` | src/billing/billing.service.ts:202-217 | the setters one after another give the same date so many months on, or that month's last day |
| `Calendar.PeriodEnd` | src/billing/subscription-calculator.service.ts:33-54 | the overflowing setters give the first of the target month plus the start's date |
| `Calendar.GregorianIsProper` | src/billing/billing.service.ts:202-217 | Gregorian months follow one another with their lengths, and days read back as the year, month and date that make them |
| `Calendar.GregorianMonths` | src/billing/billing.service.ts:202-217 | the lengths of the months by name, leap years included, and day 0 in January 1970 |
| `Calendar.ClampedLandsInMonth` | src/billing/billing.service.ts:197-217 | clamped addition always lands in the intended month |
| `Calendar.ClampedGrows` | src/billing/billing.service.ts:202-217 | a later start never gives an earlier end |
| `Calendar.ClampedIsLater` | src/billing/billing.service.ts:219-237 | a positive number of months gives a strictly later day |
| `Calendar.OverflowExceedsClamped` | src/billing/subscription-calculator.service.ts:33-54 | the two ends differ by exactly the days by which the start's date passes the target month's length, 0 to 3 |
| `Calendar.OverflowReachesThree` | src/billing/subscription-calculator.service.ts:39-42 | the difference of three days is reached by 31 January and one month in every year that is not a leap year |
| `Calendar.GregorianAddition` | src/billing/billing.service.ts:202-237 | for all Gregorian days: the intended month, monotone, strictly later, and the exact difference of the two ends with its bounds 0 and 3 |

## Left out

- Controllers, guards, DTO validation, the websocket gateway, storage, Paystack HTTP calls, audit rows, billing events, realtime events, conflict rows and device touches: I/O and side effects with no bearing on the invariants.
- Cryptography: signatures are flags, hashes (licence keys, link codes, SHA-256 revisions) are taken to be injective.
- Finance, payroll, payment gateway, communications, surveys, identity cards, public websites, entitlement merging, sync policy and the table registry: sums, mappings and finite lists that would only add easy members.
- `scheduleDowngrade`, `cancelPayment`, `initiatePayment` on an existing payment, `updatePayment`, `updateOwnerRecord`, order cancellation and quote expiry: they write without regard to a run's state, so they belong to other runs than those stated.
- JavaScript numbers are integers or reals here; values beyond the safe-integer limit other than counters and page offsets, fractional cursors, non-finite numbers and rounding of binary fractions are not modelled.
- Coercion of objects, arrays and fractional numbers in payload and configuration fields to strings: payload fields are absent, booleans, integers or strings.
- Strings hold Unicode scalar values; lone surrogates, on which percent-encoding throws, do not occur.
- The upper-case and lower-case tables of the platform are parameters with the properties used stated as requirements.
- Admissions.AdmissionNumberService.AllocateAutomatically: the 32-bit range of the stored sequence column is not modelled; the safe-integer check of the code is.
- StudentSync.StudentSyncService.UpsertStudentWithAdmission: rows of other tables or accounts that the pushed cloud id may name are not modelled, and the run starts from an empty account, so historical rows without a registered number do not occur.
- StudentSync.StudentSyncService.Deduplicate: keeps some live payload per student; the choice of the most recent one among several rows of a student is not modelled, since in the runs stated a student has one row.
- WorkspaceFilter.FilterRecords: the projection of colleague profiles after the filter is not modelled.
- Pull.PullConverges: quarantining of stored rows that fail their integrity check is not modelled; a page's rows are those returned and those quarantined.
- Pull.PathsAgree: paging of a scoped member is claimed on a fixed set of records only, since a record that becomes visible may lie below the cursor.
- Pull.Listing: the database query is specified (sorted, filtered, limited), not implemented.
- Bootstrap.DownloadIsOneRevision: base64url and JSON of the cursor are a decoded value and a length.
- MediaStore.MediaAssets.UpsertRecord: rows of other tables, the stored cloud id column and payload fields that do not decide about slots are not modelled; the database's order of the account's rows by recency is a parameter.
- MediaStore.RunKeepsOneLive: pushes are sequential, and each account stays within 500 other media rows.
- Settlement.SettlesExactlyOnce: receipt numbers, notes, payment times, and a rebuild of entitlements that fails after the transaction are not modelled; verification and confirmation requests start at the load of the payment that they have found.
- Settlement.BillingService.ActivateSubscriptionFromPayment: the activation of payments without a change order, which renews a subscription directly, is not modelled; the model stops there.
- Settlement.BillingService.HandlePaystackWebhook: the billing event that a dispute records is not modelled.
- Settlement.ClaimedOnce: the creation of the invoice and payment rows before the claim, and the provider checkout, are not modelled.
- DevicePairing.AloneKeepsPairing: one clock reading per request; rate limits are flags.
- DevicePairing.SupportDeviceLinks.CheckBatch: the shape, signature, conversation-access and stored-envelope checks of an item are flags, so the database reads of the last two are not calls of their own.
- DevicePairing.SupportDeviceLinks.UploadHistory: as for the batch check.
- Licences.RunKeepsInv: limits are fixed and operations are whole transactions; finding a licence by its key is the id found.
- Licences.LicenceServices.IssueLicence: check and creation are one step, so two issues that both pass the check before either creates a licence are not modelled.
- Ownership.AccountsService.TransferOwnership: the account's email and phone, login counters, time stamps and profile references are not modelled; whether another account uses the target's email is a flag.
- Ownership.OneOwnerMembership: the memberships of an account belong to users of that account.
- QuoteMoney.QuoteConsistent: private offers and overrides are the prices they resolve to; the manual price and the resolution of offers by validity dates are not modelled.
- QuoteMoney.CreditIsFlooredShare: the code forms the ratio and the product in binary floating point before it floors, which can give one less than the exact quotient (49 for 1 of 49 parts gives 0); stated in exact arithmetic.
- Calendar.AddCalendarMonths: days are in one time zone without clock changes, and the range limit of Date is not modelled.
