# OpenKey: verified models

Dafny models of the parts of OpenKey where a small mistake loses a refresh
token, shows the wrong consent text, or runs two writers at once. Each module
follows one source file's code: same branches, same constants, same error
cases. `dafny verify dfyconfig.toml` checks everything.

## The four parts

**Delegation grants.** `GrantServer` is the server as the SDKs observe it: a
grant is live or revoked and has one current refresh-token version.
`RnProtocol` (packages/sdk-react-native/src/OpenKeyRN.ts) and
`CapacitorProtocol` (packages/sdk-capacitor/src/client.ts) are step systems: a
step is one storage-queue task, one request together with the client's
synchronous handling of the answer, or the start of an operation, and a run is
any interleaving of them. `RnInvariant` and `CapacitorInvariant` +
`CapacitorSteps` prove one inductive invariant each; `RnTheorems`, `RnPasses`,
`CapacitorTheorems` and `CapacitorPasses` are what follows for every run, with
`CapacitorFootprint` and `CapacitorMemory` for what one step can touch and where
a token can be. `RnClient` and `CapacitorClient` do the storage tasks in place,
on the fields the source has, and each method is proved to do exactly what its
step does; the table names the ones with a loop or more than one task, the
others are one guarded write each (OpenKeyRN.ts:402-415, 681-686, 779-794,
806-825, 1397-1411, 1582-1586; client.ts:330-352, 381-390, 459-518, 525-532,
719-727). `PendingRevokes` and `SessionRecord` are the two stored records both
protocols share; `Bytes`, `Search` and `Wrappers` hold what all parts use.

The fault model is the one the clients are written for: a store write succeeds
or the process stops. In the React Native model an operation may vanish at any
point; in the Capacitor model the whole process stops and only the store and
the server remain. A terminal renew answer means the grant is dead, a terminal
revoke answer that the token is no longer honoured.

**Hand-written codecs.** `Base58`, `Base64Url`, `RecapText` (UTF-8 to UTF-16),
`SiweLiteral` and `RenderedLiteral` (text views). Loops keep their
accumulators, including JavaScript's 32-bit wrap-around.

**Capability review.** `RecapGrouping` (parse.ts), `Restriction`, `Caveats` and
`CanonicalJson` (restrict.ts, subset.ts), `ConsentRows` and `PlainWords`
(statements.ts, plain-words.ts), `AppScope` (app-scope.ts and its gate in
statements.ts), `EncryptionResource` (encryption-resource.ts, key-resource.ts)
and `PermissionSubset` (isPermissionSubset).

**Operations.** `DirectoryLock` and `DirectoryLockRace`
(scripts/generate-prisma.ts) and `SessionBackfill` (scripts/ci-backfill-session-expiry.ts).

## Where the code and a natural reading of it part

- **Capacitor crash safety has two windows.** One would expect a marked token
  to be in the intent, the session record or the pending revokes at every stop.
  That fails between a sign-in's session write and the settled or recorded
  revoke of the session it replaced, and between the wipe of a sign-in whose
  immediate renewal failed and the settled or recorded revoke of its token.
  `CapacitorTheorems.CrashSafety` says exactly when a stop keeps the token,
  for every run; `CapacitorLoss` gives a run for each window, and what a stop
  forgets there never comes back (`CapacitorTheorems.ReachableLostIsGone`). An
  exchanged token whose own sign-in is still in progress is never in a window
  (`CapacitorTheorems.ExchangedTokenIsRecoverable`).
- **The restore branch of commitSignIn is dead.** client.ts:470-472 says a
  sign-out can start while the session is written. A sign-out moves the attempt
  on only after its own read, which waits for that write
  (`CapacitorTheorems.RestoreIsNeverNeeded`).
- **base58 of all-zero or empty input** has one `1` more than the standard
  (`Base58.StandardExactly`); the encoding is still injective.
- **ReCap grouping depends on the order of some requests.** parse.ts:636-638
  says the wire form must not. When service, space and path hold no NUL it does
  not, if and only if pairs that agree on these three agree on the resource
  segment (absent and empty told apart), and no two ReCap pairs give one
  ability under one key different caveats
  (`RecapGrouping.OrderIndependentWithoutNul`; `OrderIndependentExactly` is for
  every request). Groups of different segments tie in the sort and keep their
  order of arrival; a bare space and that space with a final slash even share a
  group, which takes the segment of whichever came first
  (`RecapGrouping.BareSpaceAndSlash`); of two caveat lists the last is kept.
- **The directory lock does not exclude.** While one process is alone inside
  and no running lease is stale, a second can get in beside it, no running
  lease ever going stale, if and only if the lock was renamed away or some
  waiter stands between its age check and its rename
  (`DirectoryLockRace.JoinedExactly`). For every staleness limit a run gets
  there from the start (`DirectoryLockRace.TwoCanBeInside`).

## Model

Rows that start with "Supporting" read a definition back or serve another row.

| member | source | states |
|---|---|---|
| RnTheorems.GrantConservation | packages/sdk-react-native/src/OpenKeyRN.ts:740-803 | In every run, a received token the server honours is the stored session's, a pending revoke, or held by a running operation, unless a retry dropped it or its process stopped. |
| RnTheorems.RotationNeverRegresses | packages/sdk-react-native/src/OpenKeyRN.ts:1286-1371 | However many instances save, a grant's stored token never goes back to an older version. |
| RnTheorems.RotationNeverForks | packages/sdk-react-native/src/OpenKeyRN.ts:1458-1521 | A received token newer than the stored one is the grant's newest, and exactly one operation holds it unless it was abandoned or lost. |
| RnTheorems.SignOutWins | packages/sdk-react-native/src/OpenKeyRN.ts:1488-1546 | A session is written only by a save whose instance started no sign-out since; a renewal replaces only its own session, by a newer token. |
| RnTheorems.NoSaveAfterSignOut | packages/sdk-react-native/src/OpenKeyRN.ts:670-681 | Once a sign-out of its instance has started, an operation that was running never writes a session, at any later point. |
| RnTheorems.RemovalIsWriteAhead | packages/sdk-react-native/src/OpenKeyRN.ts:755-801 | A session leaves the store unreplaced only if it is the one whose revoke was attempted, with a transient failure already pending, or the server no longer honours it. |
| RnTheorems.SignOutEndsSignedOut | packages/sdk-react-native/src/OpenKeyRN.ts:756-801 | A sign-out that ends leaves no session stored. |
| RnTheorems.ErrorTokenIsSaved | packages/sdk-react-native/src/OpenKeyRN.ts:154-165 | An error carries a rotated refresh token only if that token was saved and not abandoned. |
| RnTheorems.RevokesSpareTheSession | packages/sdk-react-native/src/OpenKeyRN.ts:861-864 | The current session's token is never revoked except by signing it out. |
| RnInvariant.StepKeeps | packages/sdk-react-native/src/OpenKeyRN.ts:1278-1371 | Every step of every operation keeps the invariant behind these theorems. |
| RnInvariant.ReachableInv | packages/sdk-react-native/src/OpenKeyRN.ts:1433-1443 | Every state of every interleaving satisfies it. |
| RnPasses.PassIsAMerge | packages/sdk-react-native/src/OpenKeyRN.ts:924-948 | A retry's write-back keeps entries appended meanwhile; an entry leaves only dead or dropped; tokens stay distinct and counts below 20. |
| RnPasses.PassRaisesAttempts | packages/sdk-react-native/src/OpenKeyRN.ts:874-950 | A pass adds exactly one to each entry it attempted and kept, if no other instance's pass wrote the record back since it read it. |
| RnPasses.ReadCameFirst | packages/sdk-react-native/src/OpenKeyRN.ts:889-896 | Every pass in its loop has read the record, so the theorem above speaks of every pass. |
| RnPasses.ReachablePassesOk | packages/sdk-react-native/src/OpenKeyRN.ts:874-887 | In every run: one pass an instance, tokens distinct, counts from one to nineteen. |
| RnClient.Client.CommitSession | packages/sdk-react-native/src/OpenKeyRN.ts:1488-1521 | The compare-and-set refuses a stale generation or an unexpected record, and otherwise writes and reports what it replaced. |
| RnClient.Client.SaveSession | packages/sdk-react-native/src/OpenKeyRN.ts:1537-1574 | Does the protocol's save, and names the token to abandon: its own when refused, the other grant's when it replaced one. |
| RnClient.Client.WriteBack | packages/sdk-react-native/src/OpenKeyRN.ts:924-943 | The filter-and-map loop over the re-read record is the merge. |
| PendingRevokes.RunPass | packages/sdk-react-native/src/OpenKeyRN.ts:900-922 | The retry loop files every entry as done or with one more attempt, as its clock and answer say. |
| PendingRevokes.MergeContains | packages/sdk-react-native/src/OpenKeyRN.ts:928-934 | A token is in the merged record exactly if it was in the re-read one and is not done. |
| PendingRevokes.MergeOrigin | packages/sdk-react-native/src/OpenKeyRN.ts:928-934 | Every merged entry is a re-read one with only its count replaced. |
| PendingRevokes.MergeKeepsWellFormed | packages/sdk-react-native/src/OpenKeyRN.ts:924-943 | The merge keeps tokens distinct and counts below the bound. |
| CapacitorTheorems.CrashSafety | packages/sdk-capacitor/src/client.ts:336-380 | At every point of every run: a durable, honoured token no retry dropped is in a record after a stop if and only if no earlier stop forgot it and it is not, unrecorded, in one of the two windows. |
| CapacitorTheorems.ExchangedTokenIsRecoverable | packages/sdk-capacitor/src/client.ts:570-628 | While its sign-in runs, a marked token survives every stop. |
| CapacitorTheorems.LostInAWindow | packages/sdk-capacitor/src/client.ts:459-489 | Whatever honoured token a stop leaves in no record was, at that stop, in a window and not pending. |
| CapacitorTheorems.ReachableLostIsGone | packages/sdk-capacitor/src/client.ts:353-380 | What a stop forgot is never in a record or an operation's memory again. |
| CapacitorLoss.ReplacedSessionCanBeLost | packages/sdk-capacitor/src/client.ts:598-603 | A reachable stop loses the live grant of the session a sign-in replaced. |
| CapacitorLoss.WipedSessionCanBeLost | packages/sdk-capacitor/src/client.ts:632-646 | A reachable stop loses the live grant of a sign-in whose immediate renewal failed. |
| CapacitorTheorems.RecoverySparesTheSession | packages/sdk-capacitor/src/client.ts:353-380 | The grant a recovery revokes is not the visible session's, and never becomes it, through every later step and stop. |
| CapacitorTheorems.SignOutWins | packages/sdk-capacitor/src/client.ts:816-845 | After a sign-out's first read, no older operation makes another session visible. |
| CapacitorTheorems.NothingLeavesUnguarded | packages/sdk-capacitor/src/client.ts:490-518 | A token that leaves the session record is dead, in the store, dropped, or in a window. |
| CapacitorTheorems.SignOutRemovesTheRevoked | packages/sdk-capacitor/src/client.ts:846-877 | A sign-out removes a session only if it is the very record whose revoke it asked for earlier in this process, and its token is dead, pending or expired by then. |
| CapacitorTheorems.RestoreIsNeverNeeded | packages/sdk-capacitor/src/client.ts:469-480 | The second attempt check of a commit never fails in any run: its restore branch is dead code. |
| CapacitorPasses.PassIsAMerge | packages/sdk-capacitor/src/client.ts:400-446 | A write-back keeps entries appended meanwhile; one leaves only dead, dropped or expired; tokens stay distinct and counts below 20. |
| CapacitorPasses.PassRaisesAttempts | packages/sdk-capacitor/src/client.ts:410-437 | Every pass adds exactly one to each entry it attempted and kept. |
| CapacitorPasses.ReachablePassesOk | packages/sdk-capacitor/src/client.ts:391-399 | In every run: one pass at a time, tokens distinct, counts from one to nineteen, and what a pass read is still in the record. |
| CapacitorSteps.StepKeeps | packages/sdk-capacitor/src/client.ts:534-660 | Every step, a stop included, keeps the invariant. |
| CapacitorSteps.ReachableInv | packages/sdk-capacitor/src/client.ts:447-452 | Every state of every run satisfies it. |
| CapacitorClient.Coordinator.FinishPass | packages/sdk-capacitor/src/client.ts:432-442 | The write-back loop is the merge without what has expired since. |
| Base58.MultiplyAdd | packages/core/src/native-delegation.ts:243-254 | One byte of the in-place long division: the value becomes 256 times itself plus the byte; digits below 58, top digit nonzero. |
| Base58.CanonicalIsUnique | packages/core/src/native-delegation.ts:242-254 | A digit string without a leading zero is the only one of its value. |
| Base58.Encode | packages/core/src/native-delegation.ts:241-264 | The loop's output: leading ones, then the digits of the bytes' number. |
| Base58.EncodingRoundTrip | packages/core/src/native-delegation.ts:241-264 | Every byte string can be read back from its encoding. |
| Base58.EncodingIsInjective | packages/core/src/native-delegation.ts:241-264 | No two byte strings share an encoding. |
| Base58.StandardExactly | packages/core/src/native-delegation.ts:255-262 | The output is standard base58btc if and only if some byte is nonzero; otherwise it has one `1` more. |
| Base58.SessionDidForPublicKey | packages/core/src/native-delegation.ts:267-278 | 32 bytes give their did:key, anything else the error. |
| Base58.SessionDidIsInjective | packages/core/src/native-delegation.ts:267-278 | Two 32-byte keys never share a did:key, and each one is the standard spelling. |
| Base64Url.Base64UrlEncode | packages/core/src/pkce.ts:24-43 | The loop writes the base64url text of the bytes. |
| Base64Url.ShiftInWraps | packages/core/src/pkce.ts:63 | The never-masked 32-bit accumulator stays whole words away from the unwrapped number. |
| Base64Url.BitsGained | packages/core/src/pkce.ts:64-68 | A byte cut out of the wrapped accumulator is the byte of the unwrapped number. |
| Base64Url.Base64UrlDecode | packages/core/src/pkce.ts:50-71 | Decodes exactly the texts over the alphabet, to the bytes of their number; the write index is floor(6i/8) throughout. |
| Base64Url.DecodesEncoded | packages/core/src/pkce.ts:24-71 | Only the bytes themselves decode their encoding. |
| Base64Url.RoundTrip | packages/core/src/pkce.ts:24-71 | Encode then decode is the identity on every byte string, with any trailing padding. |
| Base64Url.EncodingIsInjective | packages/core/src/pkce.ts:24-43 | No two byte strings share an encoding. |
| Base64Url.CheckHeader | packages/sdk-capacitor/src/verify.ts:27-38 | Accepts exactly the canonical spellings: the encoding itself, or with its exact padding. |
| Base64Url.CanonicalUnpadded | packages/sdk-capacitor/src/verify.ts:29-35 | Each byte sequence has one unpadded spelling, and at most one padded one. |
| RecapText.Utf8BytesToString | packages/capability-review/src/parse.ts:249-288 | The decoding loop, byte for byte, surrogate arithmetic included. |
| RecapText.UnitsOfUtf8 | packages/capability-review/src/parse.ts:249-288 | On the UTF-8 of any text it returns exactly the text's UTF-16. |
| RecapText.DecodeBase64Url | packages/capability-review/src/parse.ts:213-243 | The padding, the quads and the two early breaks, as a function of the input. |
| RecapText.DecoderInverts | packages/capability-review/src/parse.ts:213-288 | base64url of the UTF-8 of any text decodes to exactly its UTF-16. |
| SiweLiteral.EscapeExactLine | packages/capability-review/src/copy.ts:133-140 | The escaping loop over one line. |
| SiweLiteral.ViewIsInvertible | packages/capability-review/src/copy.ts:153-159 | One unescape function recovers every message from its view. |
| SiweLiteral.ViewIsUnambiguous | packages/capability-review/src/copy.ts:142-159 | The view has no two adjacent spaces, no space at a line end, no trailing line feed, and only printable ASCII and line feeds. |
| SiweLiteral.ViewIsInjective | packages/capability-review/src/copy.ts:153-159 | Different messages never share a view. |
| RenderedLiteral.RenderLiteral | packages/capability-review/src/copy.ts:107-125 | The loop stops at the first unit whose spelling would pass the cap. |
| RenderedLiteral.ShownIsHonest | packages/capability-review/src/copy.ts:102-125 | What is shown reads back as a prefix of the text, says so with an ellipsis exactly when something was cut, and holds no markup. |
| RecapGrouping.ParseRecapResources | packages/capability-review/src/parse.ts:543-650 | The three nested loops group all pairs of all lines, then sort. |
| RecapGrouping.GroupingIsLossless | packages/capability-review/src/parse.ts:406-528 | Every pair is in exactly one entry, with its caveats (a legacy line's none only where no ReCap has the ability) and mismatch mark, and an entry holds nothing else. |
| RecapGrouping.OrderDoesNotMatter | packages/capability-review/src/parse.ts:636-649 | Supporting: for consistent pairs the result depends only on which pairs there are. |
| RecapGrouping.ReorderedRequestsAgree | packages/capability-review/src/parse.ts:636-649 | Reordering the lines, resources and abilities of a consistent request gives the same entries. |
| RecapGrouping.CoherentExactly | packages/capability-review/src/parse.ts:485-500 | Keys name one place exactly when no service, space and path come with the segment both absent and empty. |
| RecapGrouping.OrderMatters | packages/capability-review/src/parse.ts:489-521 | Whenever a request has a key with two places, a service, space and path with two segments, or a key and ability with two ReCap caveat lists, some reordering of it gives other entries. |
| RecapGrouping.OrderIndependentExactly | packages/capability-review/src/parse.ts:636-649 | For every request: the entries are the same in every order of its lines, resources and abilities if and only if it has none of the three. |
| RecapGrouping.OrderIndependentWithoutNul | packages/capability-review/src/parse.ts:485-521 | When service, space and path hold no NUL: if and only if they fix the segment, and key and ability fix a ReCap pair's caveats. |
| RecapGrouping.BareSpaceAndSlash | packages/capability-review/src/parse.ts:318-339 | Every request with one service on both a bare space and that space with a final slash depends on its order. |
| Restriction.RestrictModel | packages/capability-review/src/restrict.ts:24-50 | The loop keeps required and chosen actions and drops emptied grants. |
| Restriction.AssertBaselineSubset | packages/capability-review/src/subset.ts:39-150 | Reports no violation exactly when the candidate is within the baseline and keeps what is required. |
| Restriction.CheckHeader | packages/capability-review/src/subset.ts:56-82 | Two headers pass exactly when the seven fields agree. |
| Restriction.CheckGrants | packages/capability-review/src/subset.ts:84-128 | No violation exactly when every grant and action is the baseline's, caveats included. |
| Restriction.CheckRequired | packages/capability-review/src/subset.ts:130-147 | No violation exactly when the required actions are present and selected. |
| Restriction.RestrictionPasses | packages/capability-review/src/restrict.ts:24-50 | With distinct ids and abilities, every restriction passes the check against its baseline. |
| Restriction.RestrictionComposes | packages/capability-review/src/restrict.ts:24-50 | Restricting by S then T is restricting by their intersection. |
| Restriction.NarrowingPasses | packages/capability-review/src/restrict.ts:24-50 | A smaller selection passes the check against a larger one's review. |
| Caveats.CanonicalMultisetEqual | packages/capability-review/src/subset.ts:180-191 | Sort and compare is multiset equality of caveats up to object key order. |
| Caveats.SortedEqual | packages/capability-review/src/subset.ts:185-189 | Two sorted lists are equal exactly when the multisets are. |
| Caveats.KeysAreMeanings | packages/capability-review/src/subset.ts:171-191 | Equal multisets of keys are equal multisets of meanings. |
| CanonicalJson.WriteIsInjective | packages/capability-review/src/subset.ts:159-169 | No two values have the same JSON text, whatever follows it. |
| CanonicalJson.CanonMeansTheSame | packages/capability-review/src/subset.ts:162-167 | Sorting the keys changes nothing but their order. |
| CanonicalJson.KeyIsMeaning | packages/capability-review/src/subset.ts:152-169 | Two caveats have one key exactly when they are the same value up to object key order. |
| ConsentRows.EveryGrantConserves | packages/capability-review/src/statements.ts:867-923 | However a grant is spelled, the recursive splits end and each of its actions is in exactly one of its rows, once. |
| ConsentRows.RowsConserveActions | packages/capability-review/src/statements.ts:867-923 | The same for every combination of facts in which the canonical form moves under apps/ only for a key or prefix. |
| ConsentRows.CanonicalKeepsApps | packages/capability-review/src/statements.ts:537-575 | Unless the URN is a key or prefix, the canonical form is under apps/ exactly when the grant is. |
| ConsentRows.RowsSeparateSchemaAndDeletes | packages/capability-review/src/statements.ts:979-986 | `schema` shares a row only in a fallback row; a key deletion never shares one with anything that could be approved. |
| ConsentRows.AppKeyRowsSpeak | packages/capability-review/src/statements.ts:757-796 | The rows of a grant under apps/ hold each of its actions exactly once. |
| ConsentRows.AppKeyRowsOk | packages/capability-review/src/statements.ts:757-796 | Those rows keep deletions and `schema` apart too. |
| PlainWords.Words | packages/capability-review/src/plain-words.ts:113-147 | Every action is raw, in order, or accounted for by the words; each part reads out exactly the kinds meant of its noun, in reading order. |
| PlainWords.SpokenIsExact | packages/capability-review/src/plain-words.ts:83-97 | The words say every kind there is (`manage` for `change`, everything for `all`) and none that is not. |
| AppScope.FindMatchingDeclaredSecret | packages/capability-review/src/app-scope.ts:717-805 | The first declaration whose name, scope, path and verbs match; none for an unknown ability. |
| AppScope.ProvenIsDeclared | packages/capability-review/src/app-scope.ts:477-676 | A proven grant's secret, scope, path and verbs are declared, in the signer's own space. |
| AppScope.AnnotationKeepsAuthority | packages/capability-review/src/app-scope.ts:477-676 | Annotation changes nothing granted, never lowers severity, never marks both ways. |
| AppScope.GatesAgree | packages/capability-review/src/statements.ts:988-1089 | For every parsed KV grant of a review and every manifest: the app-secret sentence of that secret exactly when proven under a trusted manifest, and the fallback row for a near miss. |
| EncryptionResource.ParsePrintsBack | packages/capability-review/src/encryption-resource.ts:46-71 | Printing a parsed URN gives it back. |
| EncryptionResource.PrintParsesBack | packages/capability-review/src/encryption-resource.ts:46-71 | Parsing a printed resource gives it back. |
| EncryptionResource.ContainsIsReflexive | packages/capability-review/src/encryption-resource.ts:80-93 | A URN covers itself exactly when it parses. |
| EncryptionResource.ContainsIsTransitive | packages/capability-review/src/encryption-resource.ts:80-93 | Coverage composes. |
| EncryptionResource.ContainsIsAntisymmetric | packages/capability-review/src/encryption-resource.ts:80-93 | URNs that cover each other are the same text. |
| EncryptionResource.ContainsIsSound | packages/capability-review/src/encryption-resource.ts:73-93 | A covered resource reaches no key its grant does not. |
| EncryptionResource.CoverageTestsAgree | packages/capability-review/src/key-resource.ts:64-66 | Where both grammars accept, prefixCovers and encryptionResourceContains agree. |
| PermissionSubset.SubsetIsReflexive | packages/core/src/native-delegation.ts:831-844 | A list covers itself. |
| PermissionSubset.SubsetIsTransitive | packages/core/src/native-delegation.ts:831-844 | Coverage composes. |
| PermissionSubset.SubsetIsSound | packages/core/src/native-delegation.ts:831-844 | What the granted list authorizes, the requested list does. |
| PermissionSubset.CoverageIsInclusion | packages/core/src/native-delegation.ts:820-844 | A permission with an action is covered exactly when all it allows is allowed. |
| DirectoryLock.OnlyDisplacingTouchesOthers | scripts/generate-prisma.ts:93-155 | Acquiring, heartbeat, release and cleanup never remove or refresh another process's files. |
| DirectoryLock.InsideHoldsTheLock | scripts/generate-prisma.ts:63-91 | In every interleaving, a process inside the operation has its lock unless a rename displaced it. |
| DirectoryLock.MutualExclusion | scripts/generate-prisma.ts:104-156 | With an atomic displacement and no stale running lease, at most one process is inside. |
| DirectoryLockRace.JoinedExactly | scripts/generate-prisma.ts:63-91 | At any point of any run with one process alone inside: a second can join it, with every running lease fresh all along, if and only if its lock was renamed away or a waiter has decided to rename and has not yet. |
| DirectoryLockRace.TwoCanBeInside | scripts/generate-prisma.ts:63-91 | For every staleness limit, a run from the start with two processes inside and no running lease ever stale. |
| SessionBackfill.Database.Run | scripts/ci-backfill-session-expiry.ts:87-111 | Each mode's whole effect on the two tables, its counts, its refusals and the rolled-back mismatch. |
| SessionBackfill.CapIsExact | scripts/ci-backfill-session-expiry.ts:36-45 | With equal counts every over-limit session ends at its cap and no other row changes, whatever was committed meanwhile. |
| SessionBackfill.RollbackUndoesApply | scripts/ci-backfill-session-expiry.ts:45-47 | Rolling back right after applying restores the table. |
| SessionBackfill.RollbackIsIdempotent | scripts/ci-backfill-session-expiry.ts:46-47 | A second rollback changes nothing. |
| SessionBackfill.UntouchedComesBack | scripts/ci-backfill-session-expiry.ts:45-47 | A row left as the cap left it gets its old expiry back. |
| RnTheorems.ExceptionsAreBounded | packages/sdk-react-native/src/OpenKeyRN.ts:905-931 | Supporting: a retry drops a token only at its expiry or its twentieth attempt; a stop loses only the token its own operation held. |
| CapacitorTheorems.DropsAreBounded | packages/sdk-capacitor/src/client.ts:353-446 | Supporting: a token leaves the intent or the pending revokes as expired only at or past the expiry recorded with it, or on its twentieth failed attempt. |
| CapacitorTheorems.StampsBounded | packages/sdk-capacitor/src/client.ts:453-458 | Supporting: no operation's attempt or epoch is ahead of the coordinator's. |
| SessionBackfill.RollbackTouchesOnlyCapped | scripts/ci-backfill-session-expiry.ts:46-47 | Supporting: after any changes, only backed-up rows still at the cap change, and restored plus left alone is the backup. |
| SessionBackfill.IsolatedCountsAgree | scripts/ci-backfill-session-expiry.ts:42-45 | Supporting: in isolation, capped equals backed up. |
| Base58.AlphabetAt | packages/core/src/native-delegation.ts:238-239 | Supporting: every digit's symbol is the alphabet's. |
| PendingRevokes.AppendContains | packages/sdk-react-native/src/OpenKeyRN.ts:806-825 | Supporting: appending adds exactly the token. |
| SessionBackfill.NoneLeftOver | scripts/ci-backfill-session-expiry.ts:36-45 | Supporting: apply in isolation leaves no session over the cap. |

## Left out

- Interleaving in the two SDK protocols is a step relation over values; the classes prove the single storage tasks in place, not the promise scheduling around them.
- Session ids: a session key is fresh for every sign-in, so it is identified with its grant.
- Store writes that fail and are survived, corrupt store records and the `STORAGE` errors they cause.
- Liveness: the compare-and-set and sign-out loops may be outrun by an endlessly interfering writer.
- The plain OAuth flow, pending flows and their timers, opener results and callback parsing in OpenKeyRN.ts; discovery, PAR and the retry schedules of native-delegation.ts.
- exchangeDelegationCode, renewDelegation and revokeDelegation appear as the answers they can give, not as request code.
- Cryptography, WASM bindings, JSON.parse, URL parsing and the platform's secure store.
- Base64Url.CheckHeader: models the branch without a dot, after `Bearer ` is removed.
- normalizeDelegationPermissions and defaultSelection: simple maps.
- RecapGrouping.ParseRecapResources: takes decoded lines; the resource-line regular expression and warnings are not modelled.
- CanonicalJson.KeyIsMeaning: numbers are their JSON text, and keys sort as text, so integer-like keys and `__proto__`, which JavaScript treats specially, are outside.
- Restriction.RestrictionPasses: asks for distinct grant ids and abilities; a grant id can collide when ability services mix on one resource.
- ConsentRows.EveryGrantConserves: rows carry a kind and their actions, not their wording; which grants have friendly words, and parseKeyResource, are parameters.
- PlainWords.Words: the table of words is a parameter, already filled in for the owner and the space; joining the words into a line is not modelled.
- AppScope.GatesAgree: white space and letter case are ASCII.
- EncryptionResource.CoverageTestsAgree: parseKeyResource's own owner and network grammar is not modelled.
- DirectoryLock.MutualExclusion: clock and file times are one integer clock; reading the age is one step; file-system errors other than a missing or non-empty directory are left out.
