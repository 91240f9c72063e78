# Vouchr authority core

Vouchr is a shared PostgreSQL store in which many replicas mint, approve, bind, spend, supersede and fence
authority that people grant to agents. This project models that store as a set of state machines and proves
what they promise over every interleaving of their transactions. Time is one monotone microsecond clock;
tables are maps; each committed transaction is one atomic step.

## How it is organised

| files | part |
|---|---|
| `Base`, `Fences`, `FenceStore` | identities and owners; offboarding tombstones, break-glass scopes, receipt timestamps |
| `Framing`, `ActionKey` | the length-framed preimage of an approval's action key |
| `ApprovalModel`, `ApprovalInvariant`, `ApprovalExact`, `ApprovalRuns`, `ApprovalTheorems`, `AuditTheorems`, `SessionTheorems` | approvals, grants, their audit trail and worker sessions: steps, invariant, exact conditions and effects, runs, results |
| `ApprovalStore`, `SessionStore` | the same transactions as methods that update tables in place, with their retry loops |
| `ConsentModel`, `ConsentRuns`, `ConsentExact`, `ConsentTheorems`, `ConsentStore` | the OAuth consent round trip (authorization code flow, section 4.1 of RFC 6749) |
| `ChannelModel`, `ChannelExact`, `ChannelTheorems`, `ChannelStore` | channel-owned credentials: setup, identity change, shared disconnect |
| `Locks`, `LockPaths`, `LockCoverage`, `LockStore` | canonical advisory-lock batches, wait cycles, the lock order of each code path and what it excludes |
| `Crypto` | keyring loading, the three ciphertext layouts, key rotation |
| `Sections` | section packing with its optimality |
| `Delivery`, `DeliveryStore` | prompt delivery leases |

Each `*Model` module gives the effect of every transaction as a function on tables; each `*Store` module is a
class with those tables as fields whose methods follow the source's statements and are proved equal to the
model's step; each `*Exact` module says, in terms of the tables and inputs, exactly when every answer is given and
everything it writes; each `*Theorems` module proves results about `ValidRun`, that is about every sequence of enabled
steps from an initial store. A best-effort cleanup is a step that a run may never take.

## Where the code and its comments differ

- `src/core/db.ts:108-110` says a hash collision of lock keys only adds latency. `Locks.DeadlockFreeIff` shows
  when that holds: exactly when the keys that share a slot are an interval of the key order.
  `Locks.CollisionDeadlocks` gives the two-transaction wait cycle otherwise.
- `src/adapters/blocks.ts:55` recognises a section without rows by comparing its text with the first prefix, so
  a continuation section with the same text makes a packable input fail. `Sections.RenderedExact` states the
  exact condition, `Sections.ClashNeedsSharedStart` a guard that callers can check first.
- `src/adapters/bolt.ts:855-859` says the subtraction makes an issuance older by at least 1µs. When both
  monotonic reads are equal it subtracts nothing; `Fences.ReceiptConservative` proves the bound that holds.

## What is assumed

- SHA-256 and HMAC digests are injective functions, AES-256-GCM is an ideal AEAD, fresh ids and tokens are fresh.
  `Crypto.Authentic` says that no other key or suffix of a stored blob authenticates.
- Provider ids have the form that the registry and the schema require (src/core/providers.ts:388).
- Slack facts (eligibility, membership), token exchange, account probes, key services and clocks are inputs.
- Receipts are never in the future (`Fences.ReceiptConservative` is why), and Slack team ids begin with an
  upper-case letter (only used for the lock order).
- The vault is a map from owner and provider to a fresh generation, with its fences where the source has them.

## Model

| member | source | states |
|---|---|---|
| `Fences.ScopeKeyIffMatches` | src/core/consent.ts:165-207 | The key that a break-glass filter persists is one of an owner's four scope keys if and only if every field the filter gives describes that owner (digest injective). |
| `Fences.RaiseScopesSpec` | src/core/consent.ts:117-137 | Writing scope markers raises exactly the named scopes of the named user to at least the sample, keeps every other entry, and never moves an entry back. |
| `Fences.CurrentExact` | src/core/consent.ts:318-362 | A receipt is current exactly when each of the identity's three tombstones that exists (team; global; its enterprise's or the unscoped one) is strictly older. |
| `Fences.RevokedExact` | src/core/consent.ts:165-207 | An owner is revoked at an issuance exactly when the marker of one of its four scopes for that provider is not older. |
| `Fences.CommitsExactly` | src/core/consent.ts:407-446 | An actor's removal commits exactly while the actor's receipt is current, across teams only inside an enterprise; a marker exactly when its filter is well formed. |
| `Fences.RefusedChangesNothing` | src/core/consent.ts:416-420 | A fence transaction that does not commit leaves every tombstone as it was. |
| `Fences.FencesExactly` | src/core/consent.ts:106-137 | One that commits raises exactly the rows it names, in the three tables, to the newer of what they held and its own clock sample. |
| `Fences.FenceStepAdvances` | src/core/consent.ts:106-137 | No fence transaction moves any offboarding or revocation timestamp back (`GREATEST`). |
| `Fences.RemovalFences` | src/core/consent.ts:318-337 | A committed offboarding (team, enterprise, unscoped or global) fences every identity it covers at its own commit instant, through the three-scope lookup. |
| `Fences.OthersUnfenced` | src/core/consent.ts:66-81 | A fence transaction that does not cover an identity leaves that identity exactly as current as before. |
| `Fences.MarkerFencesMatching` | src/core/consent.ts:265-292 | A committed marker reaches every owner its filter describes and leaves every other owner's newest marker unchanged. |
| `Fences.RemovedActorCannotAct` | src/core/consent.ts:407-446 | In any run, a removed administrator's receipt from before the removal never commits another removal and never moves a tombstone. |
| `Fences.NoRemovalCycle` | src/core/consent.ts:407-446 | A circle of actor removals of any length from two up that commit or move any tombstone, each by the person the previous one removed, needs a receipt later than one of them; so two admins cannot remove each other on earlier receipts. |
| `Fences.ReceiptConservative` | src/adapters/bolt.ts:860-868 | For any database sample taken between the receipt and the second monotonic read, the computed issuance is at most the true receipt, and older by no more than the measured elapsed time rounded up. |
| `Fences.ReceiptNeverLater` | src/adapters/bolt.ts:860-868 | A receipt is refused exactly when the monotonic clock ran backwards, and its issuance never lies after the database sample. |
| `Fences.FencedInteractionIsBlocked` | src/core/consent.ts:355-362 | Hence an interaction received at or before a tombstone, ties included, is blocked by every fence that compares it. |
| `FenceStore.FenceTables.WriteScopeOffboardMarkers` | src/core/consent.ts:117-137 | The marker loop leaves exactly the scopes raised to one clock sample. |
| `FenceStore.FenceTables.MarkUserOffboardedByActor` | src/core/consent.ts:407-421 | Commits exactly for a current actor, and then raises exactly the target's row in the actor's team; refused, it changes nothing. |
| `FenceStore.FenceTables.MarkUserOffboardedEverywhereByActor` | src/core/consent.ts:426-446 | Commits exactly for a current actor in an enterprise, and then raises exactly the target's enterprise and unscoped rows; refused, it changes nothing. |
| `FenceStore.FenceTables.MarkUserOffboardedEverywhere` | src/core/consent.ts:451-458 | The cross-team form without an actor: exactly its scopes raised to one sample. |
| `FenceStore.FenceTables.MarkProvisioningRevoked` | src/core/consent.ts:265-292 | Accepts exactly a valid provider, not both user and channel, and no empty field; then raises exactly the filter's one scope key, and otherwise writes nothing. |
| `FenceStore.FenceTables.CheckReceipts` | src/core/consent.ts:366-389 | All receipts are current, or the index returned is the first that is not. |
| `Framing.FrameRoundTrip` | src/core/interaction.ts:147-174 | The length-framed encoding of a field list decodes to exactly that list. |
| `Framing.FrameInjective` | src/core/interaction.ts:147-174 | Two field lists frame equally only if they are equal. |
| `Framing.FeedFramed` | src/core/interaction.ts:147-174 | The hash-update loop feeds exactly the framing of its fields. |
| `ActionKey.SelectorExact` | src/core/interaction.ts:147-174 | Two approval keys share an action key if and only if they agree on every scope field (absent and empty identified) and, for `once`, on every exact action field. |
| `ActionKey.MatchRefinesSelector` | src/core/approval.ts:666-672 | Keys that match by the SQL column predicate share the selector, so the index never hides a matching row. |
| `ActionKey.ThreadSelectorIgnoresCall` | src/core/interaction.ts:147-174 | A `thread` selector does not depend on method, origin, host, path or query. |
| `ActionKey.ApprovalActionKey` | src/core/interaction.ts:147-174 | The loop computes the selector of the key. |
| `ApprovalModel.DerivedScopeAccepted` | src/core/authz.ts:143-170 | The governance channel derived for a conversation is the channel itself except in direct and group messages; the persisted-scope check accepts exactly the derived scopes and the channel. |
| `ApprovalInvariant.StepKeepsInv` | src/core/approval.ts:680-749 | Every transaction keeps: unique action keys (across the re-keying of a worker row), no granted placeholder, each grant's approver fitting its rule, sessions under their cap, and one owner per live generation. |
| `ApprovalInvariant.CurrentUseFits` | src/core/approval.ts:398-453 | A key that passes the generation and use checks carries a session placeholder exactly when it is an unbound worker key, else a credential generation of its owner. |
| `ApprovalInvariant.FlagNeverDisagrees` | src/core/approval.ts:702-722 | The conflict update, which does not set `delegated`, never meets a row whose flag differs. |
| `ApprovalExact.UseExact` | src/core/approval.ts:398-479 | A use is `current` exactly when the actor's receipt is current, the provider brokered, policy and tool row allow it here, the owner is the one the conversation's identity (for a bound worker key, its live session) names, and the exact generation or placeholder session is live; `credential` exactly when only the last fails. |
| `ApprovalExact.RequestAnswers` | src/core/approval.ts:680-801 | Exactly when a request is refused and why, created (every row of its action lapsed or denied) or answered by the live row that matches it. |
| `ApprovalExact.RequestWrites` | src/core/approval.ts:680-801 | A creation writes one fresh pending row and one audit row, field by field, and takes away only rows of its action; no other answer writes. |
| `ApprovalExact.ClickAnswers` | src/adapters/bolt.ts:4254-4437 | Exactly when each of the nine answers to a click is given. A click approves (or denies) exactly when it is on a live pending row at its own conversation, the rule still asks, actor and requester are current, the use is still current, and the clicker is whom the rule asks: another member in the safe channel, the bound member in it, or the requester. |
| `ApprovalExact.ClickWrites` | src/core/approval.ts:1206-1301 | What each answer writes, field by field: one row granted under its own key or, for a placeholder, under the clicker's credential, older grants of that action gone, the one session bound or extended within its cap, and one audit row; nothing else changes. |
| `ApprovalExact.SpendAnswers` | src/core/approval.ts:1059-1159 | Exactly when a spend succeeds or is refused and why, in terms of the one live matching grant, the fences since its creation, the rule and the use check. |
| `ApprovalExact.SpendWrites` | src/core/approval.ts:1059-1159 | A spend takes exactly a once grant away, writes one audit row and extends at most the bound conversation's session; a fenced grant is dropped; every other answer writes nothing. |
| `ApprovalExact.BeginWrites` | src/core/delegation.ts:76-105 | A session is kept exactly while it is live and its bound member holds the bound generation; otherwise one fresh unbound session replaces it and no other changes. |
| `ApprovalExact.CleanupExact` | src/core/approval.ts:1305-1339 | Each cleanup, credential write or delete, identity or tool change takes away exactly the rows it is for and changes none of the others. |
| `ApprovalExact.CleanupEndsSessions` | src/core/approval.ts:1305-1339 | And exactly the sessions: a leaver's own and those bound to them, or the idled-out ones. |
| `ApprovalExact.CleanupFacts` | src/core/approval.ts:1305-1339 | And exactly one generation, identity or tool row, while a sweep owes an expiry row for exactly the prompts and grants it took. |
| `ApprovalExact.StatusExact` | src/core/approval.ts:964-979 | Only the requester reads an answer: denied for a denied row, otherwise expired from the expiry on, otherwise approved or pending as the row stands. |
| `ApprovalInvariant.RequestShape` | src/core/approval.ts:761-801 | A created request displaces only the lapsed or denied row of the same action, is a fresh pending row of exactly the asked key, and comes with one audit row; any other outcome changes nothing. |
| `ApprovalInvariant.ApproveFacts` | src/core/approval.ts:1165-1301 | An approval implies a live pending row, a covering rule, a valid verdict, current actor and requester, a live generation for the granted key, and an approver that fits the rule. |
| `ApprovalInvariant.DecideShape` | src/adapters/bolt.ts:4254-4437 | The whole effect of a decision: one row granted under the possibly re-keyed key with its twins removed and one `approved` audit row; or one row denied with one `denied` row; or, for a click that the locked validator finds ineligible, nothing but one not-approver row; otherwise rows only removed and nothing audited. |
| `ApprovalInvariant.ConsumeShape` | src/core/approval.ts:1087-1159 | A spend only removes rows and at most touches the one session of its own conversation. |
| `ApprovalRuns.StepRow` | src/core/approval.ts:680-749 | Every row of the next state was there unchanged, was created fresh by a request, or was granted or denied from live pending by a decision on that id. |
| `ApprovalRuns.RowNeverReturns` | src/core/approval.ts:1059-1075 | In any run a row that is gone never comes back. |
| `ApprovalRuns.CreationOf` | src/core/approval.ts:680-749 | Every row of a reachable store comes from one request, keeps that request's conversation and call, and is that fresh row for as long as it is pending. |
| `ApprovalRuns.ApprovalOf` | src/core/approval.ts:1235-1257 | Every granted row comes from one approve decision on a live pending row and has not changed since. |
| `ApprovalTheorems.SpendIsApproved` | src/core/approval.ts:1059-1159 | Every spend is of a row that one request created and exactly one decision approved, for exactly this call if `once` and within the same conversation and owner if `thread`, before the grant expired, attributed to that approver; and the use check, with policy and tool row, held in full when it was asked for, approved and spent. |
| `ApprovalTheorems.OnceSpentOnce` | src/core/approval.ts:1059-1075 | A `once` grant is never spent twice by any two calls. |
| `ApprovalTheorems.OnceSpendsInject` | src/core/approval.ts:1087-1159 | The map from `once` spends to approve decisions is one-to-one. |
| `ApprovalTheorems.NoOffboardingBeforeSpend` | src/core/approval.ts:1100-1128 | No offboarding committed between creation and spend covers the requester or the bound member, even if no cleanup ever ran. |
| `ApprovalTheorems.GenerationNeverReturns` | src/core/approval.ts:1149-1157 | A replaced or deleted credential generation never becomes live again for any owner. |
| `ApprovalTheorems.NoGenerationChangeBeforeSpend` | src/core/approval.ts:1149-1157 | From the request to the spend (from the decision on, for a re-keyed worker row) the owner held one credential generation throughout. |
| `ApprovalTheorems.NoGovernanceChangeBeforeSpend` | src/core/interaction.ts:201-230 | No identity or tool change of the channel and provider lies between a request and its spend, not even one that was undone. |
| `ApprovalTheorems.GrantIsLegitimate` | src/adapters/bolt.ts:4303-4423 | Every grant ever held came from one click that decides the row as it was pending (whom the rule asks, in a safe channel where it needs one, still current, for a use still current), was written by it, fits the rule as it stands, and is the only row of its action. |
| `ApprovalTheorems.DenialIsLegitimate` | src/adapters/bolt.ts:4303-4423 | Every denial ever held came from one deny click by somebody who might have approved. |
| `AuditTheorems.AuditFollowsTransitions` | src/core/approval.ts:1165-1301 | Every step appends an audit row exactly when that row's own event happened, and at most one: a request row for a row created, `approved` and `denied` for a pending row that turned granted or denied, not-approver for an ineligible click in its transaction, approval-expired for one swept prompt or grant, `consumed` for a spend. |
| `AuditTheorems.TrailIsHistory` | src/adapters/bolt.ts:4254-4437 | The audit trail of a run and its events are in one-to-one correspondence, in the same order. |
| `AuditTheorems.ExpiryIsOfSweptRow` | src/core/sweep.ts:60-76 | Every expiry row is about a lapsed row that one earlier sweep removed while it was pending or granted, names that row's requester and action, and is written at most once. |
| `AuditTheorems.SweptIsAccountedFor` | src/core/sweep.ts:60-76 | A prompt or grant once swept awaits its expiry row until it is recorded, unless the sweeper dies first. |
| `ApprovalTheorems.SpentReadsAsUnknown` | src/core/approval.ts:964-979 | After a `once` spend the requester's poll reads unknown for ever. |
| `ApprovalTheorems.StatusIsTruthful` | src/core/approval.ts:964-979 | A poll answers `approved` only to the requester, only after a decision approved the row, before it expires and before any `once` spend; `pending` means no decision has approved it. |
| `SessionTheorems.BoundOnce` | src/core/delegation.ts:119-127 | A worker session is bound at most once, so of all placeholder rows under one generation at most one is ever granted. |
| `SessionTheorems.SessionCapped` | src/core/delegation.ts:132-139 | A bound session's expiry never exceeds its binding click plus eight hours, and its member is never the worker. |
| `SessionTheorems.UsableBindingIsStable` | src/core/delegation.ts:76-105 | While a bound session is live and its member holds the bound generation, nothing but the offboarding cleanup of one of the two overwrites or removes it. |
| `SessionTheorems.BindingStableWhileUsable` | src/core/delegation.ts:76-105 | Hence a session keeps its id and binding over every stretch of a run in which it stays usable and neither of the two is offboarded. |
| `SessionTheorems.ExtendedOnlyByMember` | src/core/delegation.ts:132-139 | Only the bound member's decision, or a spend of a grant that member made, extends a bound session. |
| `SessionTheorems.NoExtensionWithoutMember` | src/core/delegation.ts:132-139 | Hence over every stretch in which a session keeps its binding, its expiry moves forward only if its member decided, or a grant of theirs was spent, in that stretch. |
| `SessionStore.StepInterleaves` | src/core/delegation.ts:76-105 | Every transaction of the machine keeps a session's binding under its id and never revives a dead generation: what one replica may assume of the others between two statements. |
| `SessionStore.SessionTables.BeginWorkerSession` | src/core/delegation.ts:76-105 | The three-attempt loop, with other replicas committing between any two statements: whatever it returns or writes is one atomic begin at one instant of the call, so a stale read never overwrites a usable session; it gives up only if another replica began the session during each attempt. |
| `ApprovalStore.ApprovalTables.RequestRow` | src/core/approval.ts:680-749 | The insert-or-reuse retry loop, with other replicas committing between any two statements: what it writes or returns is one atomic request at one of its statements; else it wrote nothing, and no statement could have. |
| `ApprovalStore.ApprovalTables.RequestAudited` | src/core/approval.ts:761-801 | The request step: refused, created or reused exactly under the conditions on generation, rule, use and the action's rows; a creation leaves one fresh pending row of the asked key and one audit row, and every other answer changes nothing. |
| `ApprovalStore.ApprovalTables.ConsumeAudited` | src/core/approval.ts:1087-1159 | The spend step: spent exactly with a live matching grant whose people still stand, a rule that asks and a current use; only a `once` grant is gone afterwards, one `consumed` row names its approver, and a refusal audits nothing and touches no session. |
| `ApprovalStore.ApprovalTables.DecideAudited` | src/core/approval.ts:1165-1301 | The fenced decision: decides exactly for a current actor whom the rule asks, on a row that still stands; otherwise stale, invalidated or ineligible, each exactly in its own case. |
| `ApprovalStore.ApprovalTables.HandleApprovalDecision` | src/adapters/bolt.ts:4254-4437 | One click: approved or denied exactly when it decides the row, ineligible exactly when only the clicker fails, each with its whole effect on rows, sessions and audit; an invalidated one removes the row, and every other answer changes nothing. |
| `ApprovalStore.ApprovalTables.BindWorkerSession` | src/core/delegation.ts:119-127 | Not bound means that no session was changed and none was unbound and live under the id; bound means that exactly the one scope holding it, unbound and live, now names the member and their generation from now, for one idle period. |
| `ApprovalStore.ApprovalTables.RevokeUser` | src/core/approval.ts:1305-1311 | Removes exactly a leaver's rows and the sessions they hold or are bound to. |
| `ApprovalStore.ApprovalTables.DeleteLapsed` | src/core/approval.ts:1316-1322 | Deletes and returns exactly the rows past their expiry; those not denied are the ones that owe an expiry row. |
| `ApprovalStore.ApprovalTables.SweepExpired` | src/core/approval.ts:1316-1322 | The whole sweep: exactly the lapsed rows are returned and idled-out sessions dropped. |
| `ApprovalStore.ApprovalTables.AuditExpiries` | src/core/sweep.ts:60-76 | The loop over what was swept appends one expiry row for each prompt or grant and none for a retained denial. |
| `ApprovalStore.ApprovalTables.WriteChannelIdentity` | src/core/channelConfig.ts:83-99 | Writes the identity; exactly the tuple's rows go, and only on a real change. |
| `ApprovalStore.ApprovalTables.WriteConnection` | src/core/approval.ts:1334-1339 | A new generation purges exactly the rows that run under that owner's credential, and for a channel its tuple's. |
| `ConsentTheorems.ClassifyExact` | src/core/consent.ts:786-831 | Exactly when a spent state is active, expired, superseded, or invalidated by offboarding or revocation; a blocking fence yields only to a supersession strictly after every blocking fence. |
| `ConsentExact.BeginAnswers` | src/core/consent.ts:542-634 | Exactly when an initiation mints (unfenced, recent, nothing open but what is not newer and no longer serves), reuses the open generation (same person and conversation, unspent, unexpired, unfenced) or refuses. |
| `ConsentExact.BeginWrites` | src/core/consent.ts:575-634 | A mint adds one fresh row and supersedes exactly the user's open generation; no other answer writes. |
| `ConsentExact.HopExact` | src/adapters/slackVerify.ts:125-162 | Each answer of a hop exactly in its case: a match stamps a state still open and recent, a mismatch spends one still unspent, and nothing else changes a row. |
| `ConsentExact.CallbackExact` | src/core/oauthCallback.ts:174-330 | Which answer each state, class, provider, stamp, error and code gets, in both directions; every presented unspent state is spent by it. |
| `ConsentExact.WriteExact` | src/core/vault.ts:738-806 | Exactly when a user-credential write stores; then it changes the writer's own connection and supersedes exactly that user's unspent consents for that provider at or before the issuance, and nobody else's. |
| `ConsentExact.CommitExact` | src/core/oauthCallback.ts:332-489 | Each outcome of the callback's credential transaction exactly in its case, and everything it writes. |
| `ConsentExact.SupersededExactly` | src/core/consent.ts:575-634 | A row is marked superseded exactly by a mint or stored write of its own subject, at that instant. |
| `ConsentExact.SupersessionOf` | src/core/vault.ts:797-806 | So in any run each superseded row was superseded by one such step of its own subject. |
| `ConsentExact.DeletedExactly` | src/core/consent.ts:838-866 | A row goes exactly by a deletion or sweep that describes it, or with the callback that still claims it. |
| `ConsentExact.ConnectionChanges` | src/core/vault.ts:738-806 | A connection changes only by its own subject's stored write or callback, or by being dropped. |
| `ConsentTheorems.ConsumedAtMostOnce` | src/core/consent.ts:786-831 | A state yields a classified result at most once, whatever spent it first. |
| `ConsentTheorems.BeginContract` | src/core/consent.ts:542-634 | Reuse only of a live same-context generation newer than every fence; no older request replaces a newer generation; the replaced row is superseded and every other row untouched; a refusal changes nothing. |
| `ConsentTheorems.AtMostOneActive` | src/core/consent.ts:575-634 | At most one unsuperseded generation per team, user and provider at all times. |
| `ConsentTheorems.ChainNeverOlder` | src/core/consent.ts:575-634 | Along an unbroken chain of generations of one subject, mint times never decrease. |
| `ConsentTheorems.CommitFacts` | src/core/consent.ts:838-866 | A stored credential always used the claim's own row, still consumed and unsuperseded; the lifecycle fallback never stores, and the row is deleted with the commit. |
| `ConsentTheorems.ConnectedIsLegitimate` | src/core/oauthCallback.ts:174-489 | Every connected outcome comes from one state, minted for this user, then stamped by a hop in which Slack named exactly this user and team, then spent once while active; at the commit still unsuperseded and newer than every fence on its owner and provider. |
| `ConsentTheorems.ConnectsOnce` | src/core/oauthCallback.ts:174-489 | Each state connects at most once. |
| `ConsentTheorems.MismatchNeverConnects` | src/adapters/slackVerify.ts:125-162 | A state first spent by an identity mismatch never connects, before or after. |
| `ConsentTheorems.NothingBehindFence` | src/core/consent.ts:542-561 | After a covering offboarding or marker commits, no consent is minted or reused and no credential written under an issuance at or before it. |
| `ConsentTheorems.NoConnectionBehindFence` | src/core/consent.ts:838-866 | Nor does a callback connect: every state that does was minted strictly after the fence. |
| `ConsentRuns.StepKeepsInv` | src/core/consent.ts:575-634 | Every step keeps the partial unique index and the freshness of states held by hops and callbacks. |
| `ConsentRuns.StampOf` | src/core/consent.ts:714-724 | A verified row was stamped by a browser hop while unspent, for exactly the row's own team and user. |
| `ConsentStore.ConsentTables.BeginFenced` | src/core/consent.ts:542-634 | The initiation: the answer names an unspent, unfenced, live consent of exactly this user, provider and conversation, or nothing changed. |
| `ConsentStore.ConsentTables.CompleteHop` | src/adapters/slackVerify.ts:125-162 | Verified means that Slack named exactly the row's user and team and the unspent row was stamped; a mismatch leaves the state spent or gone; an incomplete or failed answer changes no row. |
| `ConsentStore.ConsentTables.Consume` | src/core/consent.ts:786-831 | After any answer the state is spent or gone; a classified answer spent it just now, an active one only for an unsuperseded, unexpired, unfenced row. |
| `ConsentStore.ConsentTables.BeginCallback` | src/core/oauthCallback.ts:174-330 | The callback up to its token exchange, early returns in order: it goes on only with a verified row that it spent itself, and spends the presented state on every other return too. |
| `ConsentStore.ConsentTables.FinalizeProvisioning` | src/core/consent.ts:838-866 | Deletes the exact current generation and returns its mint time, or only a fence's verdict. |
| `ConsentStore.ConsentTables.WriteUserCredential` | src/core/vault.ts:738-806 | Stores exactly when newer than every fence and the old generation; then only the writer's connection changes and exactly their unspent consents for the provider at or before the issuance are superseded; any other answer changes nothing. |
| `ConsentStore.ConsentTables.EndCallback` | src/core/oauthCallback.ts:332-489 | The callback's credential transaction: connected means that its own unsuperseded row was still there and is gone now, the user alone holds the new generation, and only their own obsolete consents were superseded; every other result leaves all credentials. |
| `ChannelModel.StepKeepsInv` | src/core/channelCredential.ts:49-115 | Every step keeps: a stored row implies identity `channel` and lies at or before the tuple's change stamp; request ids are unique and live ten minutes; the audit trail's last word is the identity. |
| `ChannelExact.IssueExact` | src/core/provisioning.ts:128-208 | Exactly when a setup request is minted, reused or refused; only the member's own request for the tuple is written. |
| `ChannelExact.ConfigureExact` | src/core/channelCredential.ts:49-115 | Exactly when a setup commits, and everything it writes; other tuples' requests and stamps stay, and a refusal at most spends the request presented. |
| `ChannelExact.SetIdentityExact` | src/core/channelCredential.ts:122-162 | Refused exactly for a fenced actor; deletes exactly on a move to `person` and purges exactly when the identity changes or a row goes. |
| `ChannelExact.DisconnectExact` | src/core/channelCredential.ts:200-270 | Exactly when a shared disconnect gives each of its four answers, and everything that a committed one writes. |
| `ChannelExact.OthersExact` | src/core/interaction.ts:201-230 | Deletes, governance changes and request cleanups touch exactly the tuple, member or lapsed requests they are for. |
| `ChannelTheorems.StoredImpliesShared` | src/core/channelCredential.ts:49-162 | In every reachable store a channel-owned row implies identity `channel`, and the last audit row of a tuple is its identity. |
| `ChannelTheorems.ChangeIsFenced` | src/core/interaction.ts:201-230 | Every committed change of a tuple leaves a tombstone at its own instant; nothing else touches the tuple's identity, and only the credential-only fallback delete takes its row without one. |
| `ChannelTheorems.SetupIsNewest` | src/core/channelCredential.ts:60-86 | A committed setup's issuance is strictly newer than every earlier committed change of its tuple. |
| `ChannelTheorems.SetupsStrictlyIncrease` | src/core/channelCredential.ts:60-86 | Committed setups of one tuple have strictly increasing issuances. |
| `ChannelTheorems.StoredOrigin` | src/core/channelCredential.ts:117-162 | Every stored credential is the one of some setup, present without a gap and under identity `channel` ever since, so no identity flip revives a dormant credential. |
| `ChannelTheorems.DisconnectContract` | src/core/channelCredential.ts:200-270 | `stale` and `not-shared` change nothing; every other outcome leaves `person`, no row, no open setup request and a fence; a row is deleted exactly when the actor is current and its generation strictly older than the request; break-glass markers never matter. |
| `ChannelTheorems.DelayedDisconnectSparesNewer` | src/core/channelCredential.ts:236-244 | A disconnect delayed behind a newer setup leaves that setup's credential, or any later one, in place. |
| `ChannelTheorems.NoSetupBehindMarker` | src/core/channelCredential.ts:60-86 | After a matching break-glass marker no setup commits under an issuance at or before it. |
| `ChannelTheorems.RemovedMemberChangesNothing` | src/core/channelCredential.ts:122-162 | A removed member's earlier receipts or requests never again change a channel's credential, identity or audit trail. |
| `ChannelTheorems.RequestedSetupIsLegitimate` | src/core/provisioning.ts:128-208 | A setup through a request was asked for by the same member for the same channel and provider, inside its lifetime, with no change of the tuple since, even an undone one. |
| `ChannelTheorems.RequestSetsUpOnce` | src/core/provisioning.ts:247-266 | A request sets up at most one credential. |
| `ChannelStore.ChannelTables.ConfigureChannelCredential` | src/core/channelCredential.ts:49-115 | Success leaves the new credential, identity `channel`, a tombstone and no open setup request of the tuple; a refusal leaves credential, identity, tombstones and audit (a matching request is spent either way). |
| `ChannelStore.ChannelTables.SetChannelCredentialIdentity` | src/core/channelCredential.ts:122-162 | Succeeds exactly for a current actor, leaving the asked identity and, for `person`, no credential; refused, it changes nothing. |
| `ChannelStore.ChannelTables.DisconnectChannelShared` | src/core/channelCredential.ts:200-270 | Up to its commit: removed exactly when a row was there and is gone, older than the request; stale and not-shared change nothing; otherwise `person`, no row and a tombstone. |
| `ChannelStore.ChannelTables.IssueRequest` | src/core/provisioning.ts:128-208 | The id it answers is that of the member's one live setup request for the tuple; without an id nothing changed. |
| `ChannelStore.ChannelTables.ConsumeRequest` | src/core/provisioning.ts:247-266 | Spends exactly the actor's own unexpired request, else nothing. |
| `ChannelStore.ChannelTables.PurgeInteraction` | src/core/interaction.ts:201-230 | Raises the tuple's tombstone to now and drops exactly its setup requests; every other tuple's stay. |
| `Locks.CanonicalExact` | src/core/db.ts:64-69 | A canonical batch holds exactly the requested keys, once each, in string order. |
| `Locks.CanonicalIsOrderFree` | src/core/db.ts:64-69 | Callers that ask for the same keys in any order, repetitions included, lock the same sequence. |
| `Locks.DeadlockFreeIff` | src/core/db.ts:60-69 | Over every run, the lock discipline prevents all wait cycles if and only if the keys that share a hash slot are intervals of the key order; in particular it does for an injective hash. |
| `Locks.CollisionDeadlocks` | src/core/db.ts:108-115 | Two transactions that each take one sorted batch of two keys wait for each other as soon as the lowest and highest of three keys collide and the middle one does not. |
| `Locks.SomeoneProceeds` | src/core/db.ts:90-126 | Whenever every open transaction waits, one of them can be granted. |
| `LockPaths.BatchFollows` | src/core/db.ts:157-173 | A canonical batch of one tier above everything held, or of held keys only, keeps the discipline. |
| `LockPaths.DisconnectReenters` | src/core/vault.ts:536-604 | The marker that a member's own disconnect writes is one of the scope locks it already holds. |
| `LockPaths.EveryPathIsDisciplined` | src/core/consent.ts:216-244 | Every transaction that takes an advisory lock keeps the discipline, with its full list of nested batches: consent, user and channel writes, setup and setup requests, identity and tool changes, disconnects, purges, request with the requester's fence, spend with both fences and the validator's re-entry, decision, handle use, markers, offboarding and migration. |
| `LockPaths.PathRunIsDisciplined` | src/core/db.ts:157-173 | A run in which each transaction merely acquires the batches of one such path, in order, is a disciplined run of the lock machine. |
| `LockPaths.PathsNeverDeadlock` | src/core/db.ts:60-126 | Hence, when keys that share a slot are intervals of the key order, no interleaving of these transactions has a wait cycle at any instant, and whenever all of them wait one can be granted. |
| `LockCoverage.FencingTakes` | src/core/consent.ts:98-104 | Every transaction that compares a person's tombstones takes that person's team, global, and enterprise or unscoped offboarding locks. |
| `LockCoverage.RemovalMeetsFence` | src/core/consent.ts:407-458 | A removal and any transaction that compares the removed person's tombstones have a lock in common. |
| `LockCoverage.MarkerMeetsOwner` | src/core/consent.ts:216-292 | A break-glass marker and a transaction over one owner have a lock in common exactly when the filter describes that owner, for its provider. |
| `LockCoverage.TouchesMeet` | src/core/vault.ts:1157-1185 | Any two transactions that touch one credential, or the authority that hangs on it, share its key. |
| `LockCoverage.WritersExcludeReaders` | src/core/db.ts:60-126 | So in no interleaving, under any hash, do two such transactions hold their full batches at one instant: each pair is one after the other. |
| `LockStore.LockTable.AcquireXactLocks` | src/core/db.ts:64-69 | Either the whole canonical batch is taken, or the transaction holds exactly the keys before the first occupied slot and waits there; mutual exclusion is kept. |
| `Crypto.LoadKeyring` | src/core/crypto.ts:55-90 | Accepts exactly well-formed environments, builds the ring with the id-less key tried first and the first listed key encrypting, and otherwise reports the first faulty entry and why. |
| `Crypto.TryLegacy` | src/core/crypto.ts:133-142 | The trial loop returns the first candidate that authenticates the whole blob. |
| `Crypto.SealExact` | src/core/crypto.ts:416-436 | What a seal stores, byte by byte: an envelope when there is one, never a ring key then; otherwise the primary key, under its id if it has one; impossible header fields are refused. |
| `Crypto.DirectExact` | src/core/crypto.ts:157-187 | An id-less row opens iff some candidate has its key; a keyed row iff its id still names its key, else it fails by that id or as undecryptable; an envelope row is reported as one. |
| `Crypto.UnwrapExact` | src/core/crypto.ts:437-463 | Whatever the key service answers, unwrapping yields the true plaintext or nothing, and yields it iff the service still unwraps the row's own data key. |
| `Crypto.OpensToSealedOrFails` | src/core/crypto.ts:495-512 | Opening a stored blob under any ring and any key service gives what was sealed or an error, never another plaintext. |
| `Crypto.OpenExact` | src/core/crypto.ts:157-512 | In every configuration a stored blob opens exactly when its own key is at hand, and otherwise gives the error that says why (an id-less row may read as one of an unknown id, when its random bytes look like that header). |
| `Crypto.ForgedNeverOpens` | src/core/crypto.ts:157-512 | Bytes of which no key authenticates the whole or any suffix are refused in every configuration. |
| `Crypto.BareKeyIsRing` | src/core/crypto.ts:189-202 | For every blob, decryption under a bare key succeeds with exactly the plaintext that the one-key ring gives. |
| `Crypto.LoadedRingIsValid` | src/core/crypto.ts:85-89 | In a loaded ring the primary is a candidate under its own id, every key has 32 bytes and every id is well formed. |
| `Crypto.EnvRotation` | src/core/crypto.ts:44-90 | Listing every old entry again, and keeping the id-less key or listing it under an id, is a key-keeping rotation. |
| `Crypto.RotationPreservesMeaning` | src/core/crypto.ts:103-202 | Across any sequence of key-keeping rotations, a blob sealed at any stage in any of the three layouts opens to its plaintext at every later stage, IVs that begin 0x01 or 0x02 and later envelope mode included. |
| `Crypto.DroppedKeyFailsClosed` | src/core/crypto.ts:157-202 | Once no candidate holds a key its id-less rows are refused, and a keyed row whose id is gone is refused by that id. |
| `Sections.MrkdwnSections` | src/adapters/blocks.ts:39-62 | The loop computes the packing function. |
| `Sections.GreedyIsOptimal` | src/adapters/blocks.ts:39-62 | No contiguous packing under the prefixes uses fewer sections than first fit, and first fit fails only when there is none. |
| `Sections.RenderedExact` | src/adapters/blocks.ts:39-62 | Success exactly when some packing within the cap exists and the loop's own does not clash with the first prefix; then the rows come back complete and in order, each section within 3000 units, in as few sections as possible. |
| `Sections.ClashNeedsSharedStart` | src/adapters/blocks.ts:55 | The clash is ruled out unless the first prefix begins with the continuation prefix or, without one, with some row. |
| `Sections.ClashExample` | src/adapters/blocks.ts:55 | Three rows that pack into three sections are refused, because the middle section reads as the first prefix. |
| `Sections.EmptyRowIsLost` | src/adapters/blocks.ts:47 | An empty row at the start of an unprefixed section leaves no trace. |
| `Delivery.OneOutstandingClaim` | src/core/approval.ts:809-867 | At any instant at most one unexpired, unreleased claim on a prompt exists. |
| `Delivery.ClaimExact` | src/core/approval.ts:809-867 | Exactly when a claim is granted, and what the other answers mean: a prompt that is alive can be claimed as soon as no lease runs, a lapsed one included. |
| `Delivery.ConfirmExact` | src/core/approval.ts:869-880 | A confirmation succeeds exactly for the outstanding claim on a prompt that is alive. |
| `Delivery.AbandonExact` | src/core/approval.ts:882-905 | A release succeeds exactly for the outstanding claim, and frees the slot or takes the unseen request away. |
| `Delivery.ReleaseIsByLatestClaim` | src/core/approval.ts:869-905 | A confirmation or release succeeds only for the latest claim's token, and for an approval only under the audience it was claimed for. |
| `Delivery.DeliveredToThisAudience` | src/core/approval.ts:809-867 | A delivered mark was set by a confirmation for the audience the row now carries. |
| `Delivery.DeliveredAnswerIsTrue` | src/core/approval.ts:849-864 | A claim answered `delivered` means this very audience had a confirmed delivery. |
| `Delivery.ConfirmedOnce` | src/core/consent.ts:870-927 | With redelivery off at most one confirmation per Connect state ever succeeds, and per approval while its audience does not change. |
| `DeliveryStore.PromptTables.ClaimDelivery` | src/core/approval.ts:809-867 | The three-attempt loop, with other replicas committing between any two statements: a grant is one atomic claim at its update; every other answer writes nothing and is true of what the last read found, or follows three lost races. |
| `DeliveryStore.PromptTables.ConfirmDelivery` | src/core/approval.ts:869-880 | The confirming update. |
| `DeliveryStore.PromptTables.AbandonDelivery` | src/core/approval.ts:882-905 | Frees the lease, or removes an approval request nobody can see. |

## Left out

- ApprovalInvariant.DecideShape: a decision is one atomic step; the source checks expiry when it locks the row and not again at the UPDATE a few statements later (src/core/approval.ts:1208-1257).
- ApprovalStore.ApprovalTables.ConsumeAudited: the unlocked grant lookup and the fenced spend are one step here; the source re-checks the row's id and status in the spending statement (src/core/approval.ts:1038-1075).
- ApprovalStore.ApprovalTables.RequestAudited: one attempt, whose insert and reuse lookup share one clock sample, without the reason and link columns; the retry loop and what other replicas commit between its statements are in `ApprovalStore.ApprovalTables.RequestRow`.
- ApprovalStore.ApprovalTables.AuditExpiries: the loop runs here as one call; in the runs of `AuditTheorems` each of its rows is a step of its own (`RecordExpiry`) that the sweeper may die before (`ForgetExpiry`), and `AuditTheorems.SweptIsAccountedFor` says what that leaves. The reports of a dry-run sweep are not modelled.
- AuditTheorems.AuditFollowsTransitions: audit rows of other features (connections, channel identity, injection), and the host, method and channel columns.
- SessionTheorems.UsableBindingIsStable: excepts the offboarding cleanup of the worker or the member, which ends sessions by design.
- SessionTheorems.ExtendedOnlyByMember: a worker's repeated spends of a bound `thread` grant do extend the idle lifetime, because the grant is the member's; only the eight-hour cap bounds that case.
- ChannelTheorems.StoredImpliesShared: the vault's exported low-level channel write, which sets no identity, is not a step of the machine (src/core/vault.ts:813-832).
- ChannelTheorems.DisconnectContract: the best-effort upstream revoke and its audit row after the commit.
- Crypto.RotationPreservesMeaning: splitting, trimming and base64-decoding the environment strings are inputs; GCM with bodies shorter than 28 bytes is taken never to authenticate.
- Sections.RenderedExact: asks for non-empty rows; `Sections.EmptyRowIsLost` shows what happens to empty ones.
- LockPaths.EveryPathIsDisciplined: row locks (`FOR UPDATE`) and table locks are not part of the wait-for graph.
- LockCoverage.WritersExcludeReaders: speaks of instants at which both transactions hold everything; a transaction that is still acquiring holds the earlier batches only.
- Reason, link and backchannel columns of approvals, and the delivery columns inside the approval and consent machines: delivery has its own machine.
- The unfenced `approve` and `deny` primitives, and handles used without a validator or a vault.
- ChannelTheorems.ChangeIsFenced: the vault's credential-only fallback delete takes the row and leaves the satellites (src/core/vault.ts:405-430); it is a step that writes no tombstone, and the break-glass marker that an ordinary delete commits first is a step of its own, with the consequence in `ChannelTheorems.NoSetupBehindMarker`.
- The same fallback for a user's credential, TTL policy, touch times and refresh.
- `waitForDecision`, `listUndeliveredBackchannel`, provisioning requests of users, and the batched manifests of tools.
- The Slack OIDC token checks, HTTP status codes, emitted events and error texts of the callback and the browser hop.
- `boundedEnvelopeProvider` (deadline and ceiling on unresolved key operations), `rekey`, and the installation store.
- Dry-run and lockdown switches, both off.
- Slack API calls, Block Kit, modals, App Home, direct messages, configuration, metrics and audit pruning.
