# Verified model of Modex Cloud

Modex Cloud takes API keys from suppliers, forwards each to a downstream AGT
platform and destroys its own copy once AGT has accepted it. This project models
the parts of it whose correctness is not visible in any one function, and proves
what they promise over every run.

- **The key protocol** (`ChannelRows`, `Agt`, `Protocol`, `KeyConservation`,
  `Agreement`, `KeyHistory`, `RetryBudget`, `SyncWorker`). Background syncs are
  separate load, call and mark steps; every SQL statement, every AGT request and every
  scheduling event is one step, so handlers and any number of syncs interleave freely.
  A request whose client has given up on it stays in transit and may still take effect
  at any later time. A run is any sequence of steps; a step that cannot happen changes
  nothing; a failed statement or a dead goroutine is a step that does not come, or `Drop`.
- **The store** (`Catalog`, `Whitelist`, `Names`, `Registry`, `Effects`, `Listing`,
  `Revocation`, `Integrity`, `Limits`, `Noninterference`, `Handlers`). Users, platforms,
  grants and channels, with every handler as one atomic request; what each answer means
  and what each request leaves behind (`Effects`, `Listing`, `Revocation`); and the
  handlers again as methods that change the tables statement by statement.
- **Both together** (`Refinement`, `WholeSystem`, `Witnesses`). Each request is a run of
  protocol steps, so the key theorems hold of the handlers in any interleaving with
  syncs. `Witnesses` has, for each promise that fails, a run of requests and background
  steps from the empty store in which it does.
- **Self-contained cores** (`RateLimiter`, `Comments`, `DotEnv`, `Vault`, `Decimal`,
  `Text`).

## Assumptions

- AGT: a POST that takes effect makes an entry under a fresh non-zero id; a PUT needs
  its entry, overwrites the metadata, and keeps the key when the payload has none. A
  request reported as successful has taken effect by then; one refused never does; one
  whose client gave up (a timeout, a broken reply, a reply without an id) takes effect at
  any time after it was sent, at most once, or never. A platform keeps pointing at the
  same AGT store, and AGT does not drop entries.
- Cryptography: sealing is an abstract AEAD with the law of sections 2.1 and 2.2 of
  RFC 5116 (`Vault.Sound`), the nonce is a parameter, the fingerprint is an arbitrary
  function. No theorem needs collision freedom: key conservation speaks of the keys.
- Database: single statements are atomic, skip soft-deleted rows, and preserve column
  bytes; channel ids are never reused (rows stay in the table).
- `State.uploaded`, `Entry.maker` and `Outgoing.maker` are history variables: the latest
  key uploaded to a row, and the row an entry or a request was made for. No step reads
  them to decide.

## Findings

Where the code and its comments disagree, the model follows the code. For each promise
that fails there is the exact condition under which it holds and, where the failure takes
a run, a witness run of requests and background steps.

- A sync marks its row by id alone. A key rotation that commits while a key-carrying
  sync of the row is in flight is wiped unsent (`Witnesses.RotationRace`: no work left,
  the row says synced, the new key sealed nowhere and held by no entry of AGT). A rotation
  while an older key is still in transit to the row's entry can be overwritten at AGT
  after it was wiped locally (`Witnesses.LateRequest`).
  `KeyConservation.RotationSafeExactly` gives the exact condition for both.
- The same holds of metadata: an edit that meets a sync or a request in transit that can
  still succeed leaves a row marked in sync with stale metadata at AGT
  (`Witnesses.EditRace`, `Agreement.EditSafeExactly`).
- "failed - EncKey retained" (constant/role.go:26) is false: after a refused
  metadata-only sync (`Witnesses.RefusedMetadata`), and after two overlapping syncs that
  both loaded the key, of which the first wiped it and the second failed
  (`Witnesses.RefusedOverlap`). A failed row has its key if and only if no success mark
  has reached it since its latest upload (`KeyHistory.FailedKeepsKeyExactly`).
- Updates dispatch a sync without looking at the retry budget, so updates that never
  overlap drive the failure count to any number (`Witnesses.UpdatesEvadeBudget`). One more
  sync keeps the count within a bound in every continuation if and only if the failures
  and the syncs that may still fail are below the bound (`RetryBudget.OneMoreSyncExactly`).
- Updates rotate a key without the duplicate check (`Witnesses.RotationReusesKey`,
  `Limits.DistinctStepExact`).
- `DeleteUser` is documented as a hard delete in which the sealed key of a pending channel
  dies with the row (model/user.go:142-144). The rows have a deletion timestamp, so the
  delete is soft, and every later statement skips the row: its sealed key is gone if and
  only if it had been wiped before (`WholeSystem.DeletionKeepsSealedKey`,
  `Witnesses.PendingKeyOutlivesUser`).
- The supplier's platform page shows a grant's list even where the platform's own list
  then denies it (`Whitelist.DisplayedTypesExact`, `Whitelist.DisplayedTextExact`).

## Model

| member | source | states |
|---|---|---|
| KeyConservation.EveryInterleaving | model/channel.go:69-123 | In every interleaving with any failures: a synced row holds no sealed key, a sealed key opens to the key its fingerprint names, a row without one is published at AGT, and no loaded sync has neither key nor remote id |
| KeyConservation.RemoteIdStays | model/channel.go:90-109 | Over any run rows stay in the table and a non-zero remote id never becomes zero again |
| KeyConservation.NoKeyIsLost | service/sync/worker.go:28-104 | Over every interleaving of creates, edits, deletes, overlapping syncs and requests that take effect late, in which each rotation is safe, the latest key of every row is sealed locally or held by AGT under its remote id, and the fingerprint names it |
| KeyConservation.WipedKeyWasPublished | service/sync/worker.go:63-89 | A sealed key disappears only by a success mark, and then AGT holds the row's latest key under the id recorded |
| KeyConservation.UnsafeRotationLosesKey | model/channel.go:88-109 | From every state that satisfies the conservation invariant, a rotation to a new key that meets a key-carrying sync, or an older key in transit to the row's entry, can be followed by a rotation-free run that loses the new key |
| KeyConservation.RotationSafeExactly | model/channel.go:227-247 | A rotation is harmless in every continuation without further rotations if and only if the key is not new, or at that moment no sync of the row carries a key and no request in transit can still write one over the row's entry |
| Witnesses.RotationRace | controller/supplier_channel.go:240-256 | For any two different keys there is a run of setup, upload, update and both syncs after which no work is left, the row says synced, and the second key is sealed in no row and held by no entry of AGT |
| Witnesses.LateRequest | service/agt/client.go:38 | For any keys with the last two different there is a run in which a request given up on arrives after a later key was published: no work is left, the row says synced, and the last key is nowhere |
| Agreement.InSyncMeansAgreement | service/sync/worker.go:47-104 | Overlapping syncs, deletes and failures allowed, if no edit or rotation commits while a sync of its row or a request in transit to its entry may still succeed, sync_status 1 means: no sealed key, AGT has the row's name, type, base URL, models, group, and the key the fingerprint names |
| Agreement.EditSafeExactly | model/channel.go:214-225 | An edit leaves that agreement standing in every quiet continuation if and only if it changes no forwarded column, or no sync of the row may still succeed and no request in transit can still write the row's entry |
| Witnesses.EditRace | controller/supplier_channel.go:234-256 | A run of setup, upload, edit and both syncs after which no work is left, the row says in sync, and AGT has other metadata than the row |
| Agreement.RotationApartExactly | model/channel.go:227-247 | The same for a rotation, with the exact condition on key-carrying syncs, keyless syncs and keys in transit |
| RetryBudget.AttemptsBounded | controller/supplier_channel.go:279-298 | Without update dispatches and with at most k syncs in flight, failures plus syncs in flight never exceed MaxSyncRetries - 1 + k; with k = 1 never more than five failures |
| RetryBudget.BudgetIsTight | controller/supplier_channel.go:292-296 | k resyncs checked before any of them fails do reach MaxSyncRetries - 1 + k failures |
| RetryBudget.OneMoreSyncExactly | controller/supplier_channel.go:254-256 | Another dispatched or resynced sync of a live row keeps its failure count within a bound, in every continuation that starts no further sync of it, if and only if its failures and the syncs that may still fail are below the bound |
| Witnesses.UpdatesEvadeBudget | controller/supplier_channel.go:254-256 | For every n, after one failed upload n updates with neither key nor models, none overlapping another's sync, bring the failure count to n + 1 |
| KeyHistory.KeyGoneExactly | model/channel.go:88-109 | In every interleaving a row has no sealed key if and only if a success mark has reached it since its latest upload |
| KeyHistory.FailedKeepsKeyExactly | constant/role.go:22-26 | In every interleaving a failed row keeps a recoverable key if and only if no success mark has reached it since its latest upload |
| KeyHistory.FailedMarkKeepsRowKey | model/channel.go:111-123 | A failed sync makes the live row failed, records why, counts the failure, and leaves every other column, the key included, as it is at that moment, whatever the sync had loaded |
| KeyHistory.AttemptsCounted | model/channel.go:111-123 | In every interleaving the retry count of a row is the number of failure marks that have reached it since its latest upload; a success does not reset it |
| KeyHistory.ColumnsAreLatestWrites | model/channel.go:90-271 | In every interleaving each column of each row holds exactly what the latest statement that writes it wrote |
| Witnesses.RefusedMetadata | service/sync/worker.go:99-102 | A run that ends with a failed live row holding no key, after a refused metadata-only sync |
| Witnesses.RefusedOverlap | service/sync/worker.go:63-89 | The same after two overlapping syncs that both loaded the key |
| KeyHistory.DeletedRowFrozen | model/channel.go:249-259 | A deleted row is the same in every continuation, its sealed key included |
| SyncWorker.SyncWithKey | service/sync/worker.go:63-89 | Table, AGT store, requests given up on and verdict are those of the protocol's call and mark |
| SyncWorker.SyncMetadataOnly | service/sync/worker.go:91-104 | The same for a sync without a key |
| SyncWorker.SyncChannel | service/sync/worker.go:21-61 | An uninterrupted sync leaves exactly the table, the AGT store and the requests in transit of the protocol run |
| SyncWorker.SyncIsRun | service/sync/worker.go:28-104 | That result is the run load, call, mark (or drop, when the final write is refused) from any protocol state |
| SyncWorker.SyncOutcome | service/sync/worker.go:28-104 | Success wipes the key, leaves AGT with exactly that key and the row's metadata under the recorded id, and touches no column outside the seven the success mark writes; a failure keeps the sealed key, counts itself and records why; no other row changes |
| Refinement.RequestRefinesProtocol | controller/supplier_channel.go:79-324 | On equal channel tables every request changes the table exactly as its run of protocol steps does |
| Refinement.CreateRefines | controller/supplier_channel.go:152-177 | An accepted upload is one create step that also dispatches the row's sync |
| Refinement.UpdateRefines | controller/supplier_channel.go:234-256 | An accepted update is an edit, a rotation if a key came, and an unguarded dispatch |
| Refinement.DeleteUserRefines | model/user.go:145-153 | The bulk soft delete of a user's channels is a run of single deletes |
| Refinement.AnsweredExactlyWhenStarted | controller/supplier_channel.go:279-298 | An upload, update or resync is answered without an error exactly when it has started a background sync |
| WholeSystem.EndToEnd | controller/supplier_channel.go:381-389 | In every interleaving of requests and background syncs references, names and stored models hold; with safe rotations every row's latest key is in the database or at AGT; with edits and rotations apart from syncs every row marked in sync agrees with AGT |
| WholeSystem.DeletionKeepsSealedKey | model/user.go:142-153 | After any run, a row deleted with its user or by its owner has, in every continuation, no sealed key if and only if its key had been wiped before; otherwise its blob still opens to the latest key |
| Witnesses.PendingKeyOutlivesUser | model/user.go:142-153 | A run of setup and upload such that after the supplier's deletion, in every continuation, the row holds a blob that opens to the key |
| Integrity.ReferencesHold | model/user.go:145-153 | Over every run, cascades stopping after any prefix: grants refer to existing users and platforms, a pair has at most one grant, live channels refer to existing owners and platforms |
| Integrity.UploaderExists | controller/supplier_channel.go:364-379 | An accepted upload's owner and platform exist because the grant used names them |
| Integrity.FirstProbeIsFree | model/channel.go:276-288 | In a numbered table the first probed name is free and carries the row count plus one |
| Integrity.NamesNeverRepeat | controller/supplier_channel.go:328-362 | Over every run the k-th row ever created for a pair is numbered k, so no two rows of a pair, deleted ones included, share a name |
| Integrity.SmallTableGetsFreshName | controller/supplier_channel.go:350-361 | On any table, fewer than 1000 rows for the pair guarantee a name none of them has |
| Integrity.AcceptedCsv | service/validate/validate.go:84-88 | An accepted model text is stored in a normal form that is its own normal form |
| Integrity.UpdateCsv | controller/supplier_channel.go:214-232 | An accepted update stores the requested models normalised, or the row's own column normalised when none were requested |
| Integrity.UpdateKeepsModels | controller/supplier_channel.go:214-234 | After any run, an accepted update that names no models leaves the models column as it was |
| Limits.CapStepExact | controller/supplier_channel.go:120-127 | A request keeps every positive cap respected if and only if it does not itself write a cap below the live count |
| Limits.CapsHold | model/channel.go:173-180 | Over every run without such a write no pair's live count exceeds its grant's positive cap |
| Limits.DistinctStepExact | controller/supplier_channel.go:139-143 | A request keeps live fingerprints of a pair distinct if and only if it is not a rotation to a key another live row of the pair has |
| Limits.KeysStayDistinct | model/channel.go:163-171 | Over every run without such a rotation live fingerprints of a pair stay pairwise distinct |
| Witnesses.RotationReusesKey | controller/supplier_channel.go:241-252 | For any two keys with different fingerprints, a run of two uploads and an update after which two live rows of the pair have one fingerprint |
| Noninterference.BlindStep | model/channel.go:125-180 | A request's answer, and the store outside enc_key, do not depend on enc_key |
| Noninterference.SealedKeysUnobservable | controller/supplier_channel.go:44-324 | Two stores that differ only in sealed keys answer every sequence of requests alike and stay equal outside the sealed keys |
| Registry.NewestFirst | model/channel.go:147-161 | Exactly the supplier's live rows (of one platform if given), strictly newest first |
| Effects.DeleteUserEffect | model/user.go:145-153 | After any number of the cascade's statements: whose grants are gone, no live channel of the user once the channels are reached, every channel row still there with all columns, nothing of anybody else changed |
| Effects.DeletePlatformEffect | model/platform.go:168-182 | Refused exactly while a live channel refers to the platform; otherwise its grants go by the first statement and it goes by the second, and no prefix leaves a grant or live channel of a missing platform |
| Effects.UpsertGrantEffect | controller/admin_grant.go:40-86 | Saved exactly for an existing supplier and an existing platform; then the pair has one grant, under its old id if it had one whatever its status, with the requested fields, and no other grant has changed |
| Effects.DeleteGrantEffect | controller/admin_grant.go:88-101 | The grant is gone, the pair has none left, and no other grant or table changes |
| Revocation.RevokedStaysRefused | model/grant.go:109-112 | After any run, once a grant is deleted its supplier uploads and updates nothing on its platform, whatever follows, until a grant of the pair is written again |
| Effects.AuthorizeExactly | controller/supplier_channel.go:364-379 | Let through exactly for an enabled platform with an enabled grant of the supplier, and then with that platform and the first such grant |
| Effects.UploadAcceptedExactly | controller/supplier_channel.go:86-143 | Accepted exactly when there is a key, authorization, a configured group, set rules for type, models and group, room below the cap, and no live row of the pair with the key's fingerprint |
| Effects.UploadEffect | controller/supplier_channel.go:129-177 | An accepted upload brings in exactly one row, under the id answered: owner, platform, type, normalised models and bound group as asked, a blob that opens to the key, its fingerprint and suffix, pending, never synced, under a name of prefix, user name, group and number; nothing else changes |
| Effects.UploadedName | controller/supplier_channel.go:328-362 | After any run the name of an accepted upload is prefix, user name and group, each trimmed and dashed as configured, and the pair's row count plus one |
| Effects.UpdateEffect | controller/supplier_channel.go:190-257 | An accepted update changes one row: normalised models, the group now bound to its type, no base URL, needs a sync, and with a key a blob that opens to it, its fingerprint and a fresh retry count, else the secret columns as they were, every other column alone; a refused one changes nothing |
| Effects.DeleteChannelEffect | controller/supplier_channel.go:259-277 | A supplier deletes exactly their own live channels, only the flag changes, and a second delete finds nothing |
| Effects.RefreshUsageEffect | service/sync/worker.go:106-141 | Answers exactly for a published live channel of the caller on an existing platform, stores the number answered, and touches no other column |
| Effects.CreateUserEffect | controller/admin_user.go:37-66 | A user comes in exactly with a free name, a password of eight characters or more and a role there is, as an enabled supplier by default |
| Effects.UsernamesStayDistinct | controller/admin_user.go:52-55 | Over every run no two users share a name |
| Effects.UpdateUserEffect | controller/admin_user.go:80-112 | Role and status change where the request names them, on an existing user; nothing else changes |
| Effects.CreatePlatformEffect | controller/admin_platform.go:42-81 | A platform comes in exactly with name, base URL and token, as configured, enabled by default |
| Effects.UpdatePlatformEffect | controller/admin_platform.go:84-131 | Omitted name, base URL and status are kept; prefix, groups and lists are always the request's |
| Listing.ListChannelsEffect | model/channel.go:145-161 | The total counts the supplier's live channels; item k of the page is the one with exactly offset + k newer ones above it, shown without its key and with the toggle of its group |
| Handlers.Database.ValidateFields | controller/supplier_channel.go:86-118 | The first failing field check of an upload |
| Handlers.Database.CreateChannel | controller/supplier_channel.go:79-179 | Store and answer are those of the atomic request the run theorems and `Effects.UploadEffect` speak of |
| Handlers.Database.ValidateUpdate | controller/supplier_channel.go:190-232 | The first failing check of an update, with models and group re-resolved |
| Handlers.Database.ListChannels | controller/supplier_channel.go:44-75 | The page and total of the atomic request, no sealed key in any view |
| Handlers.Database.PageViews | controller/supplier_channel.go:56-73 | Caching platforms per request changes no view |
| Handlers.ListMyPlatforms | controller/supplier_platform.go:14-59 | One view per grant with an existing platform, each list the grant's or else the platform's |
| Handlers.PageShowsGrants | controller/supplier_platform.go:33-58 | The views are those of the grants with an existing platform, in order, with the platform's name, base URL and status and the grant's cap |
| Handlers.UploadIsDisplayed | controller/supplier_platform.go:38-51 | Whatever upload is let through, the page has a view of that platform whose lists permit its type, models and group |
| Catalog.Platform.GroupForType | model/platform.go:137-147 | The first configured group bound to the type, and none exactly when no group is |
| Whitelist.NormalizeModels | service/validate/validate.go:143-155 | The loop with its seen-set computes the first-occurrence list |
| Whitelist.NormalizedExactly | service/validate/validate.go:143-155 | That list has no repetition and exactly the non-empty texts that are inside some entry once the white space around them is taken away |
| Text.TrimExactly | service/validate/validate.go:147 | Trimming gives the one text that, with white space added on both sides, is the original, and neither starts nor ends with white space |
| Whitelist.NormalizedOrder | service/validate/validate.go:143-155 | Its order is the order of first occurrence |
| Whitelist.ModelsFixedPoint | service/validate/validate.go:84-88 | Storing a model list, splitting the column and normalising again gives the same column |
| Whitelist.IntersectInts | service/validate/validate.go:173-182 | Membership of the intersection |
| Whitelist.IntersectStrings | service/validate/validate.go:184-193 | Membership of the intersection up to trimming |
| Whitelist.ComputeEffective | service/validate/validate.go:91-119 | The sets and flags decide exactly the declarative rule for types, models and groups |
| Whitelist.ChannelUpload | service/validate/validate.go:41-89 | The verdict is the declarative one and names the first violation |
| Whitelist.UploadExact | service/validate/validate.go:41-89 | Accepted if and only if type, some model, every model and the group satisfy the set rules |
| Whitelist.GrantNarrows | model/grant.go:14-16 | What a grant lets through the platform alone lets through with the same result, inside every list the grant spells out |
| Whitelist.AcceptedIsDisplayed | controller/supplier_platform.go:38-51 | Accepted fields are permitted by the displayed lists |
| Whitelist.DisplayedTypesExact | controller/supplier_platform.go:38-43 | The displayed types are exactly the permitted ones if and only if the grant lists nothing outside the platform's list |
| Whitelist.DisplayedTextExact | controller/supplier_platform.go:44-51 | The same for model and group lists |
| Whitelist.UnrestrictedPlatformUnderGrantDeniesAll | service/validate/validate.go:97-118 | An empty platform list under a non-empty grant list denies every upload (for groups: every non-empty group) |
| Names.BuildText | controller/supplier_channel.go:338-349 | The whole name: trimmed prefix, user name, trimmed group and printed number joined by dashes, a blank prefix or group leaving out its dash too |
| Names.SeqOfBuild | controller/supplier_channel.go:338-349 | The text after the last dash of a built name is the printed number, whatever surrounds it |
| Names.ProbeForName | controller/supplier_channel.go:350-361 | The loop returns the first free probe, or the first probe when all 1000 are taken |
| Names.Plan.GeneratedExact | controller/supplier_channel.go:328-362 | A taken name is generated if and only if all 1000 probed names are taken; never with fewer than 1000 taken names |
| Decimal.AtoiQuery | controller/supplier_channel.go:391-404 | The digit loop in wrapping 64-bit arithmetic computes the denoted number modulo 2^64, and 0 for any other text |
| Decimal.AtoiInvertsItoa | controller/supplier_channel.go:391-404 | It inverts decimal printing on every non-negative 64-bit int |
| Decimal.ItoaExactly | controller/supplier_channel.go:346 | The printed number is the one text without leading zeros that denotes it |
| Vaults.Vault.Seal | crypto/vault.go:95-115 | The appended buffer is version, nonce, ciphertext |
| Vaults.Vault.OpenSeal | crypto/vault.go:95-148 | Opening a sealed blob gives the plaintext back, for every byte string |
| Vaults.Vault.BlobInjective | crypto/vault.go:99-101 | Two blobs are equal if and only if nonce and plaintext are |
| Vaults.Vault.OpenExact | crypto/vault.go:122-148 | Opening succeeds exactly on version, 12-byte nonce and accepted ciphertext; the three errors partition all other blobs |
| Vaults.Last4ShowsFour | crypto/vault.go:170-178 | The display suffix shows the last four bytes of a secret of at least eight and nothing else of it |
| RateLimiter.FixedWindowLimiter.Allow | middleware/security.go:44-57 | Answer and windows after a call, with cells updated in place and no two keys sharing one |
| RateLimiter.RateBound | middleware/security.go:44-57 | Over every history with non-decreasing times, any closed interval of one window length holds at most 2 * limit accepted calls of a key |
| RateLimiter.NeverRefusedWrongly | middleware/security.go:52-54 | A refused call has at least limit accepted calls of its key in the window length before it |
| RateLimiter.KeysIndependent | middleware/security.go:47-51 | Every answer is that of a limiter that saw only the key's calls |
| Comments.StripComments | internal/architecture/invariant_test.go:58-86 | The index-jumping loop equals a scanner that reads one position at a time in code, line and block mode |
| Comments.StrippingIsSound | internal/architecture/invariant_test.go:58-86 | The result is a subsequence without comment marks, stable under stripping, and equal to the source exactly when the source has no mark |
| Comments.CodeSurvives | internal/architecture/invariant_test.go:80-83 | Comment-free code in front of any rest survives unchanged |
| Comments.CommentsVanish | internal/architecture/invariant_test.go:63-79 | A block comment vanishes up to its first closing mark, a line comment up to but without its newline, and scanning resumes behind it |
| DotEnv.Environment.LoadDotEnv | config/dotenv.go:35-58 | The final environment is the real one extended by the first settable binding of each name it lacks |
| DotEnv.RealEnvironmentWins | config/dotenv.go:10-12 | No variable of the real environment changes or goes away |
| DotEnv.LoadingAgainChangesNothing | config/dotenv.go:52-56 | Loading the same lines again changes nothing |
| DotEnv.QuotedValueReadsBack | config/dotenv.go:18-23 | A quoted value, with or without the export prefix, binds exactly the text between the quotes |
| DotEnv.BindingReadsBack | config/dotenv.go:37-50 | A binding reads back as the name in front of the first = and the unquoted value behind it, whatever white space is around the line and with or without the export prefix |
| DotEnv.BindsNothing | config/dotenv.go:38-51 | Blank lines, comment lines and lines without a name bind nothing |

## Left out

- HTTP, sessions, cookies, routing, pagination defaults, audit rows, password hashing, root seeding: plumbing around the handlers; requests carry an authenticated user id and user name.
- Races between handlers: the store theorems take each handler as one atomic request, so two uploads that both pass the cap or the duplicate check before either inserts are not excluded; the key theorems do interleave single statements.
- Deletion of a user's channels inside the protocol is a run of single deletes, not one statement.
- The bulk of `DeleteUser` and `DeletePlatform` under concurrent inserts: see races between handlers.
- A request that AGT carries out twice: one in transit takes effect at most once.
- Zeroizing plaintext buffers, key memory and the platform token: the model has values, no memory; a token is readable or not.
- JSON and text columns for whitelists and groups: taken as decoded lists.
- base_url validation: both upload paths pass an empty base URL.
- Strings that are not valid UTF-8: Go strings are sequences of Unicode scalar values here, and a key becomes bytes by UTF-8 encoding.
- Sealing failures (no randomness available) and a database that fails inside a handler other than the two cascades.
- `.env` file search and the scanner's line length limit: lines are what the scanner delivers.
- Time as 64-bit nanoseconds: the limiter's times are unbounded integers.
- The web frontend, Docker files and build configuration.
