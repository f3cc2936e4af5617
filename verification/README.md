# Integration core: verified model

This project models the parts of the integration library that must hold under concurrency, failures and
hostile input, and proves what they promise. Run `dafny verify dfyconfig.toml`.

**Claim journal** (`Journal`, `JournalMachine`, `JournalTheorems`, `JournalProgress`). Any number of workers
race over create-once files. Calls advance one file access at a time; the clock, other calls, failing
accesses and an older release act in between. Each chain is related to an abstract lock (free, held,
finished), and every step of every run is one atomic move of that lock or none. `ClaimDisk` and `FileStore`
show the same store as a class with its retry loops, against an arbitrary schedule of other workers;
`MemoryStore` is the process-local store, which drives the same lock.

**Number provisioning** (`Provision`, `ProvisionInvariant`, `ProvisionRows`, `ProvisionSteps`,
`ProvisionTheorems`, `ProvisionProgress`, `ProvisionRecovery`, `ProvisionReviews`, `ProvisionLosses`).
Concurrent ticks of one order share a versioned row and a provider whose calls succeed, are refused, or end
unknown. Every `await` is a step.

**Credentials** (`Credentials`, `CredentialInvariant`, `CredentialSteps`, `CredentialSafety`,
`CredentialTheorems`, `CredentialRuns`, `CredentialLateFlights`, `CredentialProgress`). Refresh flights,
rotation leases and revocations of one key in one process.

**Billing evidence** (`Billing`, `BillingInvariant`, `BillingTheorems`, `BillingRuns`, `BillingProgress`,
`AccessGate`). Verifications run over the claim journal, each through the owner entries of its store
instance, with the real time arithmetic; the gate is a class that trusts and consumes objects.

**Grants, capabilities, invocations** (`Capability`, `CapabilityTheorems`, `CapabilityTiming`,
`CapabilityProgress`, `Requirements`). Connections, grants and catalogs may change between any two reads.

**Algorithms.** The payload scanner and previews (`Redaction`, `RedactionTheorems`, `Previews`,
`PreviewTheorems`); base64, Unicode and tool names (`Base64`, `Unicode`, `ToolNames`); secret redaction
(`OAuthRedaction`, `OAuthForms`, `OAuthSecrets`, `OAuthStraddling`); registry composition (`Aliases`,
`SlugTheorems`, `Sorting`, `Registry`, `RegistryTheorems`, `RegistryMeaning`, `RegistryOrder`,
`RegistryBuilder`). `Text` holds strings as UTF-16 code units.

## Where the code does less than it seems

Nine expectations a reader may have are false of the code. Each has a lemma with a run or an input
that shows it, and a theorem that says when it does hold.

- Releasing a provisioning claim does not ask whose claim it is (`src/managed-messaging/provision.ts:152-158`).
  At most one purchase holds exactly when nobody else can create the identity under the order's handle. The row
  and its receipts are safe either way.
- A rotation or a refresh that begins after a revocation has returned, while a holder the revocation cancelled
  is still open, can leave the secret behind and the connection active (`src/credentials.ts:196-232, 320-347`).
  Revocation is final exactly when neither happens.
- Two verifications of one token in one store instance can both pass the check of `owners` and then share one
  entry (`src/idempotency.ts:163, 203-204, 290-294`): one deletes it, the other completes silently, and a live
  token is trusted twice. Trust before expiry is unique exactly when such claims do not overlap.
- A verifier that is slow between checking a token and claiming it can have the token trusted twice, the second
  time after its expiry (`src/billing-access-policy.ts:275-287`); the access decision then refuses it as expired.
  One of the two has always claimed after the expiry.
- An invocation checks the expiry of its token once, at its beginning (`src/hub.ts:180-186`). Calls come in time
  exactly when no invocation lasts longer than what an accepted token must have left.
- An invocation reads its connection once (`src/hub.ts:193-221`); it may expire or be revoked before the provider
  call. Calls find it usable exactly under the same bound and if it stays as it is meanwhile.
- The text decoder drops a leading byte order mark, so a tool name with such a part does not parse back
  (`src/base64.ts:16`). Names stay injective.
- With any cycle of two or more aliases the registry index maps one of the ids to another's entry
  (`src/registry-core.ts:105-109`). It is right for every catalog exactly when there is no such cycle.
- A secret that is a piece of the redaction marker stays in the text, and one that begins or ends where a marker
  ends or begins can be spelled again by it (`src/connectors/oauth-protocol.ts:257-262`). A form without brackets
  is always taken out exactly when it is no piece of the marker, and the condition is exact for lone secrets
  without escapes.

## Assumptions

Random identifiers never repeat; hashes of keys and tokens are injective; signatures cannot be forged; one
clock, which never goes back, is read by all workers; an exclusive link is atomic. A provider call that is
refused has no effect. A provider read may lag; only in an open world does it show what no request of the order
brought about. Awaited calls of the credential stores return without error.

## Model

| member | source | states |
|---|---|---|
| Journal.AppendKeepsLogInv | src/idempotency.ts:186-189 | Appending a record that may follow the head keeps every shape property of a chain: rooted, chained, distinct tokens, in time order, one contiguous block per owner |
| Journal.ClosingNodeFollowsItsClaim | src/idempotency.ts:212-234 | A completion or release stands directly behind a claim of the same owner and is the last node that owner ever has |
| Journal.OvertakenOwnerNeverReturns | src/idempotency.ts:211-222 | Once another owner's node follows, no later node belongs to the earlier owner |
| Journal.OwnerChangesOnlyWhenOpen | src/idempotency.ts:167-188 | The owner changes only behind a release or once the newest lease or completion window has run out, and the new owner enters with a claim |
| Journal.CompletionWindowsDisjoint | src/idempotency.ts:177-182 | Two completions of one key never have overlapping validity windows |
| JournalMachine.SuccessorFreeIffHead | src/idempotency.ts:250-262 | The file name behind a node is free exactly when that node is the head of its chain |
| JournalMachine.LinkKeepsInv | src/idempotency.ts:349-370 | The exclusive link keeps the invariant of all keys and calls, whether it wins, loses, or throws before or after taking effect |
| JournalMachine.StepKeepsInv | src/idempotency.ts:161-262 | Every step of every call, of the clock and of an older release keeps the invariant |
| JournalMachine.RunKeepsInv | src/idempotency.ts:115-126 | So does every run, for any number of instances, keys and workers |
| JournalTheorems.EveryChainIsWellShaped | src/idempotency.ts:115-126 | In every reachable state the files of a key are one chain: an optional version-1 root, then blocks claim+ [completed or available], one block per owner |
| JournalTheorems.RecordsNeverChange | src/idempotency.ts:123-125 | A file and its place in the chain are the same in every later state |
| JournalTheorems.ReadHeadReturnsTheHead | src/idempotency.ts:250-262 | The node the separate reads end with is the head at the instant of the last read |
| JournalTheorems.NoInvalidSuccessor | src/idempotency.ts:256-261 | A read never meets a successor it would reject; it fails only on a chain one node longer than the limit |
| JournalTheorems.LinkedMeansStillHead | src/idempotency.ts:349-370 | A link that takes effect proves that the node it was prepared for is still the head, and appends the record its call is for |
| JournalTheorems.EveryStepIsAMove | src/idempotency.ts:161-235 | Refinement: each step leaves a key's abstract lock alone or makes one atomic legal move of it, by the owner its call acts for |
| JournalTheorems.DecidesByTheLock | src/idempotency.ts:177-222 | A call that has found a head goes on to link exactly if the lock admits it, a claim if it is open and the others if their owner holds it; otherwise it names the lock |
| JournalTheorems.FailureHasACause | src/idempotency.ts:250-262 | A call fails only because an access of its own did, or on a chain longer than the reader's limit |
| JournalProgress.UndisturbedCallFollowsTheLock | src/idempotency.ts:161-248 | From every reachable state in which the reader's limit is not reached, a call that nobody disturbs ends within three steps more than the chain is long; an open lock is then held for one lease, a held one renewed, completed for its window or freed by its holder, and any other is unchanged and named |
| JournalTheorems.OvertakenWorkerIsFencedOff | src/idempotency.ts:120-122 | No step lets an owner append behind another owner's node |
| JournalTheorems.OwnershipAndWindowsAreDisjointInTime | src/idempotency.ts:167-190 | With a clock that does not go back, owners follow each other only after release or expiry and completion windows never overlap |
| JournalTheorems.AcquisitionsAreDistinct | src/idempotency.ts:184-189 | Two calls never acquire under one owner token, and each acquisition is on disk |
| JournalTheorems.RetriesAreBounded | src/idempotency.ts:112-112 | No call loses more links than the longest chain has nodes, which is one more than the reader's limit |
| ClaimDisk.FreeIffUnchanged | src/idempotency.ts:358-366 | Whatever others appended, the name behind the old head is free exactly when nobody appended |
| ClaimDisk.Disk.WriteExclusive | src/idempotency.ts:349-370 | A link wins only behind the current head and then adds exactly its record; losing means the chain grew; throwing leaves it open, and needs a faulty access |
| FileStore.ClaimIsLegal | src/idempotency.ts:177-187 | A head the code does not refuse is one behind which its claim node with fresh tokens may be linked |
| FileStore.CanClaimIffOpen | src/idempotency.ts:177-182 | The three refusals together are the abstract lock being closed |
| FileStore.SuccessorRead | src/idempotency.ts:253-259 | One more read of the walk either finds the next node of the chain or proves that the current one is the head |
| FileStore.FileSystemAtomicIdempotencyStore.constructor | src/idempotency.ts:134-155 | A new store owns nothing |
| FileStore.FileSystemAtomicIdempotencyStore.ReadHead | src/idempotency.ts:250-262 | The loop returns the head of the chain as it is when the last read comes back, while others publish between the reads; it fails exactly if one of its accesses is faulty or the chain is too long |
| FileStore.FileSystemAtomicIdempotencyStore.ClaimStatus | src/idempotency.ts:161-191 | The retry loop ends; `acquired` means the last node is this call's claim and took an open lock with a fresh owner for one lease, the other results name the closed lock at the head; failing needs a faulty access or an over-long chain; for a key this store does not own, without a fault and while nobody else appends, the result is `acquired` if the lock is open and names the closed lock otherwise; nothing else registers an owner |
| FileStore.FileSystemAtomicIdempotencyStore.TransitionOwned | src/idempotency.ts:201-248 | Closing links behind the owner's claim, with a completion window counted from this moment, or reports the lost ownership; it fails only through a faulty access or an over-long chain; without an owner it comes back silently; a failed release forgets the owner and a failed completion keeps it |
| FileStore.FileSystemAtomicIdempotencyStore.RenewOwnership | src/idempotency.ts:309-331 | A heartbeat extends only a lease that still holds the head, to at least one lease from its start; it gives up only if this store has no owner for the key or the owner no longer holds the lock, through a faulty access, or on an over-long chain |
| MemoryStore.InMemoryAtomicIdempotencyStore.constructor | src/idempotency.ts:29-32 | The store begins with no claims |
| MemoryStore.InMemoryAtomicIdempotencyStore.ClaimStatus | src/idempotency.ts:38-51 | A held key is refused as in progress and a completed one, until its window is over, as completed; any other valid claim is acquired, by one legal move with a window counted from the claim; no other key is touched |
| MemoryStore.InMemoryAtomicIdempotencyStore.Release | src/idempotency.ts:53-60 | A release frees exactly the lock its owner holds |
| MemoryStore.InMemoryAtomicIdempotencyStore.Complete | src/idempotency.ts:62-68 | A completion keeps the window that began with the claim |
| MemoryStore.ClaimLasts | src/idempotency.ts:40-45 | A claim stays held until its own owner ends it, and a completed one blocks until its window is over |
| MemoryStore.ClaimedOncePerWindow | src/idempotency.ts:40-50 | Between two claims of a key the first owner ended its own, and without a release the second comes after the first one's window |
| ProvisionSteps.StepKeepsInv | src/managed-messaging/provision.ts:68-288 | In a closed world every await, cancellation, clock step and provider answer keeps the invariant of row, requests and ticks |
| ProvisionTheorems.BuysAtMostOnce | src/managed-messaging/provision.ts:125-186 | In every interleaving the identity and number phases each send at most one mutation that took effect or may have, and no second mint request leaves the client |
| ProvisionTheorems.ForeignIdentityBuysTwice | src/managed-messaging/provision.ts:152-158 | A run in which a release clears another tick's claim and a second number is bought, because a stranger made the identity |
| ProvisionTheorems.AtMostOnceIffClosedWorld | src/managed-messaging/provision.ts:139-158 | At most once holds for every run exactly when nothing but this order creates what its provider reads show |
| ProvisionRows.StepAdvancesRow | src/managed-messaging/provision.ts:93-99 | In every world each write raises the version by one, keeps identity and number, never lowers the phase and never revives a cancelled order |
| ProvisionRows.RowNeverGoesBack | src/managed-messaging/provision.ts:100-124 | The same between any two states of any run, in every world |
| ProvisionTheorems.ReachableRows | src/managed-messaging/provision.ts:68-124 | In every world each reachable row and tick satisfies what those two need |
| ProvisionTheorems.ReturnedReceiptsAreOnTheRow | src/managed-messaging/provision.ts:105-124 | In every world a tick that returns after saving an identity or number leaves a row holding one, even if cancelled or rewritten under it, now and in every later state |
| ProvisionTheorems.PhaseImpliesReceipts | src/managed-messaging/provision.ts:191-270 | In every world each reachable phase has its identity, number, vault credential of that identity, and connection |
| ProvisionProgress.UndisturbedOrderCompletes | src/managed-messaging/provision.ts:187-270 | Over either transport and with any accepted provider answers, four undisturbed ticks bring a new order to `complete`, with one effective mutation per phase and exactly those answers as receipts |
| ProvisionLosses.LossyOrderCompletes | src/managed-messaging/provision.ts:187-288 | Over either transport, and whichever of the four phases lose the answer to a call that took effect, a new order completes with one effective mutation per phase and all its receipts |
| ProvisionRecovery.IdentityIsRecovered | src/managed-messaging/provision.ts:191-205 | From every state, in every world: behind an attempted journal, an undisturbed tick that sees the order's own identity records it, goes on to the number phase and sends nothing |
| ProvisionRecovery.MissingIdentityIsReviewed | src/managed-messaging/provision.ts:181-195 | If it sees none once the attempt's time is over, the order goes to review and nothing is sent |
| ProvisionRecovery.LineIsRecovered | src/managed-messaging/provision.ts:210-246 | A tick that sees a ready line under the order's identity records it and goes on to the credential, attempted or not, and sends nothing |
| ProvisionRecovery.UnreadyLineIsRecorded | src/managed-messaging/provision.ts:241-244 | A line that is not ready yet is recorded at once; the phase waits half a minute |
| ProvisionRecovery.MissingLineIsReviewed | src/managed-messaging/provision.ts:214-220 | An attempted SMS purchase without a line goes to review; no second line is bought |
| ProvisionRecovery.AcceptedLineIsAwaited | src/managed-messaging/provision.ts:214-218 | An accepted iMessage claim waits for its line |
| ProvisionRecovery.KeyIsRecovered | src/managed-messaging/provision.ts:250-264 | A key in the vault is verified and taken over, whether its answer came back or not; no second one is minted |
| ProvisionRecovery.LostKeyIsReviewed | src/managed-messaging/provision.ts:250-255 | A key that was minted and never reached the vault goes to review; no second one is minted |
| ProvisionRecovery.InFlightWaits | src/managed-messaging/provision.ts:160-162 | While another call may be in flight, a tick that finds nothing changes nothing |
| ProvisionRecovery.ForeignIdentityIsReviewed | src/managed-messaging/provision.ts:199-202 | An identity that exists before any attempt is not adopted |
| ProvisionRecovery.ClosedOrderIsLeftAlone | src/managed-messaging/provision.ts:85-93 | A tick changes nothing of a complete, cancelled or not yet due order |
| ProvisionReviews.OtherIdentityIsReviewed | src/managed-messaging/provision.ts:199-208 | From every state, in every world: a read that shows an identity with another id, handle or organization sends the order to review, with everything it records kept and nothing sent |
| ProvisionReviews.VanishedIdentityIsReviewed | src/managed-messaging/provision.ts:206-207 | So does a recorded identity that is gone |
| ProvisionReviews.FailedLineIsReviewed | src/managed-messaging/provision.ts:210-249 | So does a recorded line that is gone, another, or no longer ready; it is not bought again |
| ProvisionReviews.ForeignKeyIsReviewed | src/managed-messaging/provision.ts:250-266 | So does a vault key of another identity, or none when the connection is to be made |
| ProvisionReviews.RefusedCallReopens | src/managed-messaging/provision.ts:272-288 | A call the provider definitely refused may be made again after the back-off it asked for, between half a minute and a day, unless it was to mint a key |
| ProvisionReviews.LostCallStays | src/managed-messaging/provision.ts:272-288 | A call of unknown outcome keeps the attempt on the journal |
| ProvisionReviews.UnsentCallReopens | src/managed-messaging/provision.ts:125-136 | A call that never left the client may be made again in every phase, and no request exists |
| ProvisionReviews.DeniedAttemptIsGivenBack | src/managed-messaging/provision.ts:139-175 | Without permission or funding the attempt is given back, nothing is sent, and the order is due in a minute |
| CredentialTheorems.RedeemsWhatItRereadAsExpired | src/credentials.ts:207-217 | A flight redeems a refresh token only when its own reread found the credential expired |
| CredentialTheorems.OneFlightAtATime | src/credentials.ts:196-232 | At most one refresh flight of a key is unsettled |
| CredentialTheorems.CountsAreExact | src/credentials.ts:234-268 | Waiter and revocation counts equal the open holders, and a flight's entry is dropped exactly when it is settled and nobody waits |
| CredentialTheorems.RevocationHoldsWithoutLateOpenings | src/credentials.ts:399-450 | After every revocation has returned and every flight, waiter and lease has drained, the secret is gone and the connection is not active |
| CredentialRuns.LateRotationKeepsSecret | src/credentials.ts:361-382 | A run in which a rotation that begins after the revocation leaves a secret behind, while a lease the revocation cancelled is still open; no flight opens late |
| CredentialRuns.LateRotationRevives | src/credentials.ts:320-347 | The same with a connection store: the secret stays and the connection is active again |
| CredentialLateFlights.LateFlightKeepsSecret | src/credentials.ts:196-232 | A run in which only a refresh flight opens late, and it leaves a secret behind |
| CredentialLateFlights.LateFlightRevives | src/credentials.ts:128-160 | The same with a connection store: the secret stays and the connection is active again |
| CredentialLateFlights.RevocationHoldsIffNothingOpensLate | src/credentials.ts:399-450 | Revocation is final in every run exactly when neither a flight nor a lease opens after it while one it cancelled is still open; each of the two alone breaks it |
| CredentialProgress.UndisturbedRefreshIsRecorded | src/credentials.ts:128-182 | From every state without a refresh under way, whenever a refresh that nothing else disturbs has ended: a good credential is as it was; an expired one is replaced by the provider's answer and the connection active; if the provider refused, it stays and the connection is marked expired; under a revocation it is deleted and the connection marked revoked; nothing else has changed |
| CredentialProgress.UndisturbedRefreshEnds | src/credentials.ts:128-268 | And every such refresh can always be carried on to its end |
| CredentialProgress.UndisturbedRotationStores | src/credentials.ts:320-358 | A rotation left alone ends within 28 steps, with its credential stored and the connection active, or, under a revocation or without a credential to replace, with no secret and the connection revoked |
| Billing.TtlReachesPastExpiry | src/billing-access-policy.ts:275-275 | Rounding down the clock and rounding up the product never ends a claim before expiry plus tolerance |
| Billing.ReplayKeysAreInjective | src/billing-access-policy.ts:276-283 | Purchases and presentations never share a replay key, and neither do two ids of one kind |
| BillingInvariant.StepKeepsInv | src/billing-access-policy.ts:275-314 | Every verification step, over every step of the claim journal and through the owner entries of its instance, keeps what each verification has proved so far |
| BillingTheorems.TrustedOncePerWindow | src/billing-access-policy.ts:284-314 | If no two claims of a key overlap in one instance, two verifications trusted under one replay key were completed a whole window apart; for a purchase that is the retention period |
| BillingTheorems.TrustedOnceBeforeExpiry | src/billing-access-policy.ts:275-287 | Under the same condition, while a token lives at most one verification of it is trusted |
| BillingTheorems.LaterClaimIsLate | src/billing-access-policy.ts:275-314 | Of two trusted verifications of one token, in any such run of the code as it is, one claimed it only after its expiry |
| BillingRuns.OverlapIsTrustedTwice | src/idempotency.ts:201-204 | A run in which two claims of one key overlap in one instance: one verification finds no owner entry, is trusted without any completion on disk, and a third is trusted while the token lives |
| BillingRuns.LateClaimIsTrustedToo | src/billing-access-policy.ts:215-287 | A run in which a verifier that checked a live token claims it only after expiry, and the token is trusted a second time |
| BillingRuns.TrustsOncePerWindowIff | src/billing-access-policy.ts:284-314 | Trust is backed by completions a window apart, in every run, exactly when no claims of a key overlap in one instance |
| BillingRuns.TrustsOnceBeforeExpiryIff | src/billing-access-policy.ts:275-287 | A live token is trusted at most once, in every run, exactly under that condition |
| BillingRuns.TrustsEachTokenOnceIff | src/billing-access-policy.ts:275-314 | A token is trusted at most once for ever exactly when, besides, no verification goes on with a claim won after its expiry |
| BillingProgress.UndisturbedVerificationFollowsTheLock | src/billing-access-policy.ts:275-314 | Any token, for a purchase or not: from every reachable state in which the reader's limit is not near, a verification that meets nobody is trusted exactly if its instance has no owner registered for the key and the key's lock is open; the key is then completed for the full replay time, and otherwise left as it was |
| BillingProgress.FailedCompletionGivesTheClaimBack | src/billing-access-policy.ts:300-312 | If the completion fails, at whichever access before its link takes effect, the verification is refused, its claim released, its owner forgotten, and the key can be claimed again |
| BillingProgress.CompletionOutlastsTheToken | src/billing-access-policy.ts:275-286 | That replay time reaches past the token's expiry and tolerance, and for a purchase is at least the retention period |
| AccessGate.BillingAccess.constructor | src/billing-access-policy.ts:195-196 | Nothing is trusted at first |
| AccessGate.BillingAccess.Trust | src/billing-access-policy.ts:313-319 | Trust is added to one object and consumes nothing |
| AccessGate.BillingAccess.DecideBillingAccess | src/billing-access-policy.ts:321-375 | Each refusal comes back exactly for its own reason, in the order of the checks, and access is allowed exactly for live, acceptable, trusted evidence that is not a used purchase; over the gate's whole history each purchase object is allowed once |
| Redaction.PrefixFindings | src/redaction.ts:29-69 | Scanning further never takes back a symbol, a separator or a refusal |
| Redaction.ScanCore | src/redaction.ts:22-69 | The one-pass scan with its counters and flags accepts exactly the grammar of folded, chunked base64 |
| Redaction.IsEncodedPrivatePayload | src/redaction.ts:8-70 | The whole scanner, data URLs, edges and early exits included, decides exactly the declared grammar |
| RedactionTheorems.EncodingsArePrivate | src/redaction.ts:8-70 | Every RFC 4648 section 4 or 5 encoding of twelve bytes or more is redacted: padded or not, folded by any gaps that hold a line break, between any blanks |
| RedactionTheorems.SingleSpaceStaysVisible | src/redaction.ts:43-47 | One ordinary space between two words keeps a text outside the grammar |
| PreviewTheorems.PrivateTextsAreMarked | src/redaction.ts:10-21 | Every text that begins, behind white space only and within 256 units, with `data:` in any case, or has an edge of more than 64 blanks, is replaced by the marker |
| PreviewTheorems.OrdinaryTextsStay | src/redaction.ts:12-70 | Any other text is shown if it has fewer than 16 units or a single one outside the base64 alphabets, padding and blanks, all written out |
| Previews.RedactUnknown | src/redaction.ts:73-83 | The recursive copy is the redaction of the value, at every depth; the next rows say what that shows |
| PreviewTheorems.PrivateKeysAreMarked | src/redaction.ts:3-3 | For each word of the pattern, written out, in any mixture of cases and with anything around it in the key: nothing but the marker is left under the key, and all other entries are redacted as if it were not there |
| PreviewTheorems.OtherKeysStay | src/redaction.ts:78-81 | A key in which no such spelling occurs keeps its value, redacted in turn |
| PreviewTheorems.ShapesStay | src/redaction.ts:74-77 | Lists keep their length and order, buffers become the marker, other values stay |
| Previews.RedactedIsClean | src/redaction.ts:73-83 | No payload, no bytes and nothing but the marker under a sensitive key is left at any depth |
| Previews.UnchangedIffClean | src/redaction.ts:73-83 | Redaction leaves exactly the clean values as they are, so redacting again changes nothing |
| Previews.ProjectInputPreview | src/redaction.ts:88-98 | A preview is absent, or clean, and with an include list shows per argument exactly the named ones that exist, redacted |
| Base64.BytesToBase64Url | src/web-crypto.ts:33-47 | The loop and its three replacements produce the unpadded RFC 4648 section 5 encoding |
| Base64.DecodedIffEncoded | src/web-crypto.ts:33-47 | A strict section 5 decoder accepts exactly the encodings and returns the bytes they came from |
| Base64.UrlSafeFromStandard | src/base64.ts:5-8 | Swapping two characters and dropping the padding of the standard encoding gives the URL-safe one |
| Unicode.DecodesUtf8 | src/base64.ts:12-16 | The decoder undoes the encoder on every sequence of scalar values |
| Unicode.UnitsOfScalars | src/base64.ts:1-2 | Exactly the well-formed strings survive being read as scalar values |
| Unicode.TextSurvivesIff | src/base64.ts:1-17 | Encoding and decoding text gives it back exactly when it has no lone surrogate and no leading byte order mark |
| ToolNames.EncodeUtf8Base64Url | src/base64.ts:1-9 | The byte loop and `btoa` yield the unpadded URL-safe encoding of the text's UTF-8 bytes |
| ToolNames.AtobReads | src/base64.ts:14-14 | The forgiving decoder reads back what the standard encoder wrote |
| ToolNames.PartDecodes | src/catalog.ts:248-254 | Undoing the dots, dashes and padding of a name part gives the decoded bytes of its text |
| ToolNames.NameRoundTripsIff | src/catalog.ts:71-85 | A tool name parses to its own three parts exactly when none has a lone surrogate or a leading byte order mark; empty parts are fine |
| ToolNames.NamesAreInjective | src/catalog.ts:71-73 | Names of well-formed parts are equal only for equal parts, byte order marks included |
| OAuthRedaction.FormEncodedRedactionPattern | src/connectors/oauth-protocol.ts:278-295 | The loop builds the pattern of a form-encoded secret |
| OAuthRedaction.FormCovered | src/connectors/oauth-protocol.ts:278-305 | That pattern matches every way to write the secret in a form: `+` or `%20`, either case of each escape digit |
| OAuthRedaction.NothingIsRecreated | src/connectors/oauth-protocol.ts:257-262 | What a global replacement leaves of a text that markers cannot help to form was there before, where the pattern does not match |
| OAuthForms.ReplacesFromTheLeft | src/connectors/oauth-protocol.ts:257-262 | A replacement keeps what stands before the first match, puts the marker for the match, and goes on behind it |
| OAuthRedaction.ReplacedIsGone | src/connectors/oauth-protocol.ts:257-262 | After its own replacement such a text is gone, and no other replacement brings it back |
| OAuthSecrets.LongerFormsComeFirst | src/connectors/oauth-protocol.ts:257-258 | Replacement goes from longer to shorter forms and leaves none out |
| OAuthSecrets.MatchersHave | src/connectors/oauth-protocol.ts:237-255 | The matchers are exactly the patterns of the non-empty secrets |
| OAuthForms.JsonReadsBack | src/connectors/oauth-protocol.ts:242-247 | A strict reader of RFC 8259 strings gets any secret back from its JSON form, lone surrogates included |
| OAuthForms.JsonIsSameIff | src/connectors/oauth-protocol.ts:242-247 | That form differs from the secret exactly if it has a quote, a backslash, a control character or a lone surrogate |
| OAuthForms.UnitLength | src/connectors/oauth-protocol.ts:242-247 | Quotes, backslashes and five control characters take two-character escapes, the rest six, everything else itself |
| OAuthForms.FormEncodedReadsBack | src/connectors/oauth-protocol.ts:249-254 | A reader of submitted forms gets the bytes of any secret back from its form encoding |
| OAuthForms.FormReadsBack | src/connectors/oauth-protocol.ts:278-305 | So it does from every spelling the pattern matches, so no spelling stands for two secrets |
| OAuthSecrets.SecretsAreGone | src/connectors/oauth-protocol.ts:233-263 | No plain, JSON-escaped or form-encoded form of any secret is left, unless it is a piece of the marker or runs across a marker's edge |
| OAuthSecrets.SecretsAreGoneIff | src/connectors/oauth-protocol.ts:233-263 | A form that cannot run across a marker's edge is taken out of every text exactly when it is no piece of the marker |
| OAuthSecrets.BracketFreeSecretsAreGoneIff | src/connectors/oauth-protocol.ts:233-263 | So is every form without brackets, whatever letters it has |
| OAuthSecrets.MarkerPiecesStay | src/connectors/oauth-protocol.ts:257-262 | A piece of the marker that stands in the text stays, whatever the secrets are |
| OAuthStraddling.SomethingSurvives | src/connectors/oauth-protocol.ts:233-263 | Every secret without escapes of which a marker can supply the whole, the beginning or the end is left in some text by its own whole redaction |
| OAuthStraddling.LoneSecretIsGoneIff | src/connectors/oauth-protocol.ts:233-263 | A lone secret without escapes is taken out of every text exactly when a marker can supply neither its whole nor its beginning nor, where it does not itself begin earlier, its end |
| OAuthStraddling.BracketsComeBack | src/connectors/oauth-protocol.ts:257-262 | `]x` and `x[` are no pieces of the marker and can come back |
| OAuthStraddling.DoubledBracketIsGone | src/connectors/oauth-protocol.ts:257-262 | `[[` meets a marker in the same way and never comes back |
| OAuthSecrets.OtherTextStays | src/connectors/oauth-protocol.ts:257-262 | A text in which no pattern of any secret matches is left alone by the whole redaction |
| OAuthSecrets.RedactOAuthSensitiveText | src/connectors/oauth-protocol.ts:233-263 | The loops compute that replacement, and the result holds no form to which no marker can contribute |
| Aliases.SlugIffUnchanged | src/registry-core.ts:296-301 | A slug has only lower-case words with single dashes, and exactly slugs are left alone |
| SlugTheorems.SlugJoinsTheWords | src/registry-core.ts:296-301 | The slug of any words, with anything else around and between them, is the words in lower case, `and` for an ampersand, in their order, joined by single dashes |
| SlugTheorems.TextsAreWritten | src/registry-core.ts:296-301 | Every text can be read as such words |
| Aliases.CanonicalConnectorId | src/registry-core.ts:135-144 | The chase ends on every table, cycles included, with the canonical id |
| Aliases.CanonicalIsIdempotent | src/registry-core.ts:135-144 | When all targets are slugs a canonical id is its own canonical id, cycles or not |
| Aliases.AliasesAgreeIff | src/registry-core.ts:135-144 | In a table of slugs each alias leads where its target leads exactly when no cycle is longer than one |
| Aliases.AcyclicAliasesAgree | src/registry-core.ts:135-144 | So it does in every table whose aliases all fall |
| RegistryTheorems.FirstWinsKeepsFirsts | src/registry-core.ts:232-240 | Merged actions are exactly the first ones of their ids |
| RegistryTheorems.FirstWinsHasDistinctIds | src/registry-core.ts:232-240 | No id is merged twice |
| RegistryTheorems.TierIsThePrimarys | src/registry-core.ts:175-178 | The folded support tier of an entry is its primary candidate's, and no candidate has a better one |
| RegistryTheorems.ToolsComeFromTheTier | src/registry-core.ts:252-257 | Merged actions come from exactly the candidates of that tier, and from none if it is the catalog-only tier |
| RegistryMeaning.EntrySaysWhatItMerges | src/registry-core.ts:146-262 | In terms of the connectors that came in: each entry lists exactly its connectors, best tier, precedence, action count and id first, each with the tier its flags and strings give, written out; it offers for each id the first action and trigger of its best tier, all scopes of it, and says which fields differ, all aliases, and how many actions only the catalog knows |
| RegistryMeaning.BestToolsAreOffered | src/registry-core.ts:252-257 | An entry offers every action id of a connector whose tier no other connector of that id exceeds, unless it is catalog-only |
| RegistryMeaning.FirstPartyToolsAreOffered | src/registry-core.ts:150-150 | So it does those of a first-party connector when none of its id is sandboxed or claims that tier |
| RegistryMeaning.SandboxToolsAreOffered | src/registry-core.ts:149-149 | And always those of a sandbox-executable one |
| RegistryMeaning.EntriesAreTheIds | src/registry-core.ts:89-104 | There is exactly one entry for each canonical id of a connector, in collation order |
| RegistryMeaning.NamesLeadToTheLast | src/registry-core.ts:105-109 | Each entry is found under its id and all its aliases, unless a later one has the same name |
| RegistryMeaning.OnlyNamesAreFound | src/registry-core.ts:105-109 | And nothing else is found |
| RegistryTheorems.AgreeingAliasesIndexWell | src/registry-core.ts:105-109 | When aliases agree, every key of the index leads to the entry of its own canonical id, whatever overwrites what |
| RegistryTheorems.IndexAgreesIffAliasesAgree | src/registry-core.ts:105-109 | The index is right for every catalog exactly when each alias leads where its target leads |
| RegistryTheorems.IndexAgreesIffCyclesAreTrivial | src/registry-core.ts:105-144 | In terms of the alias table alone: the index is right for every catalog exactly when no cycle is longer than one |
| RegistryTheorems.CyclesMisindex | src/registry-core.ts:105-144 | Any longer cycle, in any table of slugs, puts an id under the wrong entry for some catalog |
| RegistryOrder.ComposeIgnoresOrder | src/registry-core.ts:81-115 | Rearranging the candidates leaves entries and index unchanged when no two in a group tie |
| RegistryOrder.SourcesPermute | src/registry-core.ts:89-92 | Permuting the sources only rearranges the candidates |
| RegistryOrder.ConnectorsPermute | src/registry-core.ts:90-92 | So does permuting the connectors of one source |
| RegistryOrder.SourcesTotalConnectors | src/registry-core.ts:125-128 | The source references of all entries are exactly as many as the connectors that came in |
| RegistryBuilder.MergeActions | src/registry-core.ts:232-240 | The nested loops keep the first action of each id over the bindable candidates |
| RegistryBuilder.ComposeIntegrationRegistry | src/registry-core.ts:81-115 | Grouping while reading, then ranking, merging, sorting and indexing, builds exactly the registry the theorems are about; `RegistryMeaning.EntrySaysWhatItMerges` says what is in it |
| RegistryBuilder.Summarize | src/registry-core.ts:117-133 | The summary counts entries, sources, entries with actions, entries with conflicts, and tiers |
| RegistryBuilder.TiersTotalEntries | src/registry-core.ts:117-133 | Every entry is counted under exactly one tier |
| CapabilityTheorems.ResolvedAreWanted | src/runtime.ts:288-333 | Grants named by id or by manifest come back only if stored, active, of the owner and as asked for |
| CapabilityProgress.NamedGrantsResolve | src/runtime.ts:294-325 | Named grants resolve exactly if each is stored and as asked for, and then to each of them once |
| CapabilityProgress.ManifestGrantsResolve | src/runtime.ts:326-333 | Without names the manifest's grants resolve as listed, other owners' and inactive ones left out |
| CapabilityTheorems.RunKeepsInv | src/runtime.ts:216-286 | Every step of bundling, issuing and invoking keeps what each bundle and invocation relies on |
| CapabilityTheorems.BundleCallsStayInsideTheirGrant | src/hub.ts:188-227 | A provider call with a bundle's token names an action of a grant that the bundle read as stored, active and its owner's; bundling found the connection active and the same owner's and issued the capability while it was usable and held the grant's scopes; the invocation found it usable and the action's scopes in both, after checking the token before expiry |
| CapabilityProgress.UndisturbedBundleIsBuilt | src/runtime.ts:216-286 | From every state, an undisturbed request whose grants resolve and are backed gets its bundle: one capability per grant of a registered connector, with that grant's connection, actions and scopes, for the subject and the time asked for |
| CapabilityProgress.BundleRefusalHasACause | src/runtime.ts:224-262 | It is refused only if nothing resolves, a connection is missing, inactive or another owner's, or it lost scopes or expired before the issue |
| CapabilityProgress.UndisturbedInvocationCalls | src/hub.ts:180-227 | From every state, an undisturbed invocation with an issued, live token reaches the provider for every action the token allows whose scopes lie in its own and in its usable connection's |
| CapabilityProgress.DenialHasACause | src/hub.ts:188-227 | It is denied only for a connection that is missing or unusable, an action that is undefined or outside the scopes of connection or token, or by the policy |
| CapabilityTheorems.CallsCarryIssuedCapabilities | src/hub.ts:272-294 | Every invocation carries a capability the hub issued, and an id stands for one capability |
| CapabilityTiming.CallsMayComeAfterExpiry | src/hub.ts:180-186 | A run in which an invocation verified in time reaches the provider after the token's expiry, unless invocations are bounded by what tokens have left |
| CapabilityTiming.CallsComeInTimeIff | src/hub.ts:180-227 | Every call of every run comes before its token's expiry exactly when no invocation lasts longer than what an accepted token must have left |
| CapabilityTiming.ConnectionMayDie | src/hub.ts:193-221 | A run in which the connection expires between its read and the call |
| CapabilityTiming.ConnectionMayGo | src/hub.ts:193-221 | A run in which the connection is deleted between its read and the call |
| CapabilityTiming.ConnectionsHoldIff | src/hub.ts:193-221 | Every call of every run finds its connection stored, usable and with the action's scopes exactly under the same bound and if a connection does not change while an invocation uses it |
| CapabilityTiming.CodeAlonePromisesNeither | src/hub.ts:180-227 | The code as it is sets no bound and holds no connection, so it promises neither |
| Requirements.GrantsAreBacked | src/runtime.ts:170-214 | Grants are created exactly when every requirement is ready or optional: one for each ready requirement, in order, on the first active connection of the owner that serves it and holds all its scopes; it allows the named actions except in trigger mode, else exactly the reads for reading and the writes for writing, and carries the named scopes, else exactly those of these actions and of the wanted triggers |
| Requirements.GrantedActionsPass | src/hub.ts:195-203 | From manifest to provider, over every run: while connection and catalog keep what a created grant was made from, an invocation with a bundle's token for it passes both scope checks exactly if the connector defines its action within the grant's scopes, and whenever it defines the action if the manifest names enough scopes or none; without named actions, a reading requirement's call has risk read and a writing one's risk write |

## Left out

- Journal owners across overlapping calls: the journal states its properties per owner token and `FileStore` assumes that calls on one key in one instance do not overlap; `Billing` models the shared `owners` entries for verifications that do.
- Flags and timers of local owners (`renewing`, `closing`, intervals): a heartbeat is a call that may begin at any time; `FileStore` runs one call at a time while others act on the disk.
- Directory creation, file permissions, fsync, temporary files and JSON parsing of records.
- Provisioning and credentials as objects updated in place: `order` and its flags, and the module-level maps of flights, leases and counters, are fields of a state value, because every await lets other code run; aliasing between closures is not modelled.
- Provisioning: `errorCode` and `errorStatus`, validation of the row's text fields, the organization and activity checks of an identity beyond matching, edits by operators, an order that disappears.
- ProvisionTheorems.BuysAtMostOnce: rests on provider reads that show only this order's own effects; `AtMostOnceIffClosedWorld` shows the assumption is necessary. The theorems about the row do not need it.
- The HTTP classification of provider answers in `src/managed-messaging/inkbox.ts`: its outcome codes are the answers the environment may give.
- Credentials: stores that reject, adapters without `refreshToken`, several connections that share a key, and reconnecting under a revoked reference.
- CredentialTheorems.RevocationHoldsWithoutLateOpenings: says the connection is not active rather than revoked, because the failure path writes `expired` over `revoked` (`src/credentials.ts:163-170`).
- BillingTheorems.TrustedOncePerWindow: assumes that no two claims of a key overlap in one instance; `TrustsOncePerWindowIff` shows that this is exactly the condition.
- BillingTheorems.TrustedOnceBeforeExpiry: the same assumption, with `TrustsOnceBeforeExpiryIff`.
- Billing: verification of the signature and of the claims other than the expiry, parsing of principal and funding, and the address patterns (an outcome in `AccessGate`).
- CapabilityTheorems.BundleCallsStayInsideTheirGrant: connection and action are those the invocation read, and the expiry is checked when it begins, because the code reads and checks nothing again before the provider call; `CallsComeInTimeIff` and `ConnectionsHoldIff` say when they hold at the call.
- Grants named by id are read in one step; triggers, tool lists and connectors of a bundle, policy and guard (one yes or no), and the encoding of tokens as JSON with an HMAC.
- `src/web-crypto.ts:9-23` (UUIDs), SHA-256, HMAC and JWT signatures.
- Redaction: keys inherited from a prototype, and `in` on buffers; assigning `__proto__` is modelled as adding no entry. Sensitive words are matched on ASCII letters, as the pattern does.
- Registry: lower-casing of letters outside ASCII in slugs, prototype keys of the alias table, and locale collation, which is an abstract total order; the alias list of an entry is a set.
- OAuthSecrets.SecretsAreGone: says nothing of forms that can run across a marker's edge, all of which have a bracket; for several secrets, or one with escapes, that depends on what the other patterns replace. `LoneSecretIsGoneIff` settles every lone secret without escapes.
- OAuthSecrets.SecretsAreGoneIff: the same forms are outside its condition.
- HTTP clients and transports, conversation normalizers, catalogs and overrides, `src/guard.ts`, `src/events.ts` and `src/approval.ts`: plumbing, static data, or checks without atomic claims.
