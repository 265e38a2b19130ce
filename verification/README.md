# AuthMe: verified models of the stores and protocols

AuthMe keeps its security promises in hand-written stores and small protocols around the
OpenID Connect library it uses. This project models those parts in Dafny and proves what they
promise, over every run and every interleaving of their awaits. `dafny verify dfyconfig.toml`
checks all of it.

What is modelled, file by file:

- `OidcRecords`, `MemoryStores`, `EpochProtocol`, `PostgresRecords`: the artifact records of the
  provider. Saves carry the account's security version; a mutation bumps that version and then
  deletes the account's records. The in-memory `upsert` is cut at its awaits and interleaved
  with everything else; the SQL one is a single statement.
- `AuditMachine`, `AuditProofs`, `AuditCalls`, `AuditWriter`: the bounded audit writer with its ring buffer,
  concurrency slots, sampling table, shared flush promise and hooks that call back into it.
- `SamlCache`, `SamlOneUse`: the three replay caches, the names of their keys, and any number of
  concurrent logins through the SAML broker.
- `JsonKeys`, `KeyedLock`, `FederatedLinks`: the promise-chain lock and the identity links that
  `resolve`, `link` and `unlink` keep under it.
- `ScimGroups`, `ScimWrites`, `ScimMemory`, `ScimPatch`, `ScimPatchEdits`: the PostgreSQL SCIM repository with its derived
  `groups` column, the in-memory repository with versions, and PATCH of a group.
- `IdentityStore`, `Lockout`: logins, the rollback of failed mutations and deletions, and the
  login lockout.
- `LdapFilter`: the LDAP filter of a login against the grammar of section 3 of RFC 4515.
- `Accounts`, `Text`, `Wrappers`: how every store names an account, strings as these components
  compare them, and two outcome types.

A protocol is a machine: a world, events, and a run that folds any sequence of events over the
world; an event that is not enabled changes nothing. A theorem about all event sequences is
therefore a theorem about all interleavings. Where the code mutates fields, a class has the same
fields and each of its methods is proved equal to the function the theorems are about.

Some promises turned out to need a condition, and the code is modelled as it is:

- A deletion whose audit record cannot be written is rolled back by `createUser`, which throws when
  another account has taken a login meanwhile: the account is then lost without a revocation, and
  its grant-linked records stay (`EpochProtocol.GrantLinkedRecordsAreCurrent` gives the exact
  condition, `EpochProtocol.LostDeletionsKeepRecords` a run). They are never answered again
  (`EpochProtocol.LostForGood`).
- The in-memory `upsert` loses a consumption that happens while it waits
  (`EpochProtocol.ConsumptionSurvivesSaveIff` gives the exact condition,
  `EpochProtocol.ConsumptionCanBeLost` a run). A save bound to no account and no grant never
  waits and never loses one; the SQL adapter never loses one.
- The SQL adapter refuses what the in-memory one accepts in exactly two cases: another row has the
  code, or a lapsed replay record is still stored (`PostgresRecords.AdaptersAgree`).
- A second link of one user at one provider and issuer is possible if the id of an account
  `resolve` has just created is linked before its own link is stored
  (`FederatedLinks.LinksStayUniqueIff` gives the exact condition, `FederatedLinks.GuessedIdsDoubleLinks`
  a run).
- A login whose link is unlinked while it waits for the link's user is still answered `resolved`
  (`FederatedLinks.ResolvedIsLinkedIff` gives the exact condition,
  `FederatedLinks.UnlinkedWhileResolving` a run).
- A login that found a link's user gone drops the link even if the account has come back since
  (`FederatedLinks.LinksOutliveTheirUser`, with a run in `FederatedLinks.RevivedUsersLoseLinks`).
- An item accepted by a call from inside the acceptance hook of another item starts before it
  (`AuditProofs.InnerItemsStartFirst`); nothing else starts out of turn.
- `restoreUser` keeps logins apart exactly when nobody has taken one meanwhile
  (`IdentityStore.RestoreKeepsLoginsApartIff`, with a run in `IdentityStore.RestoredLoginsCanClash`).
- A rollback puts an account back in its normal form, which `updateUser` does not write: what was
  stored with a repeated role comes back with the role once. The account is the old one exactly
  when it was normal (`IdentityStore.FailedMutationIsUndone`, `IdentityStore.FailedDeletionIsUndone`,
  with an input in `IdentityStore.DuplicateRolesAreNotPutBack`). A failed security mutation does
  not put an administrator grant back.
- All passkeys come back exactly when nobody else has registered one of their ids meanwhile
  (`IdentityStore.PasskeysComeBackIff`), and a failed deletion brings everything it should back
  exactly when id, logins and passkey ids are still free
  (`IdentityStore.DeletedAccountComesBackIff`).
- With a colon in a realm name two SAML cache keys can share a name
  (`SamlCache.RealmsShareNamesIff` says for exactly which realms, `SamlCache.ColonsCollide` gives a
  pair of keys). Configuration rejects such names (src/config.js:66-73), so they reach only a
  direct call of `createSamlBroker`.

## Model

| member | source | states |
|---|---|---|
| OidcRecords.RevocationIsExact | src/db.js:7-23 | Revoking an account leaves no record it owns and none linked to a grant it had, changes no other record and no other realm, and is idempotent. |
| OidcRecords.DoomedIff | src/db.js:7-23 | A revocation deletes exactly the records of the account's realm that name the account or a stored grant of it. |
| OidcRecords.FindAnswersIff | src/adapters/memory.js:66-71 | `find` answers exactly the record stored under the id while it lives, whatever its model, if it is bound to no version or its account is enabled at that version. |
| OidcRecords.MarksAreCarriedOver | src/adapters/memory.js:30-35 | A save keeps the consumption mark of the record it replaces unless it brings one of its own, and changes nothing else of what it is given. |
| OidcRecords.ConsumptionMarks | src/adapters/memory.js:95-104 | Consuming changes nothing of a record but its mark, which is the second of the clock. |
| OidcRecords.ReuseAnswers | src/adapters/memory.js:97-102 | A second use is an invalid grant for exactly the four grant artifacts, an invalid request for every other model. |
| EpochProtocol.EveryRunKeepsInv | src/adapters/memory.js:29-64 | In every interleaving of save segments, consumptions, deletions and account changes, deletions whose rollback throws included, the protocol's invariant holds. |
| EpochProtocol.GrantLinkedRecordsAreCurrent | src/adapters/memory.js:36-63 | In every run the account of a stored grant-linked record is between a bump (or deletion) and what follows it, or the record has the account's present version if and only if no rollback of a deletion of the account found one of its logins taken. |
| EpochProtocol.LostForGood | src/db.js:54-59 | After such a rollback the account never exists again, no revocation of it ever runs, and none of its bound records is ever answered. |
| EpochProtocol.LostDeletionsKeepRecords | src/db.js:54-59 | A concrete run: another account takes the login during a deletion whose audit fails, and a grant-linked token of the vanished account stays stored. |
| EpochProtocol.DeletionsStartAndEnd | src/db.js:48-62 | A deletion that fails puts user and logins back if none of the logins was taken meanwhile, and loses the account if one was. |
| EpochProtocol.NoSaveOutlivesRevocation | src/adapters/memory.js:36-63 | Once a revocation has finished, no grant-linked save begun before it is ever stored, whatever happens later. |
| EpochProtocol.FindAnswersAreFresh | src/adapters/memory.js:66-93 | A bound record that `find` answers belongs to an enabled account at the stored version, and that version was not read before the account's last security mutation. |
| EpochProtocol.StoredRecordsAreFound | src/adapters/memory.js:29-71 | In every run a record stored for an enabled account at its present version is answered by `find`, whatever else happens, until it is removed, replaced or expired or the account is disabled, mutated or deleted; but for a consumption it is the record stored. |
| EpochProtocol.ConsumptionSurvivesSaveIff | src/adapters/memory.js:30-35 | A save over a consumed record keeps it consumed if and only if its own payload says so or the record was consumed before the save began. |
| EpochProtocol.UnboundSaveKeepsConsumption | src/adapters/memory.js:30-35 | A save bound to no account and no grant is stored at once and never loses a consumption. |
| EpochProtocol.ConsumptionCanBeLost | src/adapters/memory.js:30-64 | A concrete run: a code consumed while a second save of it waits is stored unconsumed. |
| MemoryStores.PrefixSelectsRealm | src/adapters/memory.js:5-9 | Testing a bucket name for a realm's prefix selects exactly the buckets of that realm, and the grant test exactly its grants. |
| MemoryStores.MemoryAdapterStores.UpsertBegin | src/adapters/memory.js:29-42 | The stretch up to the first await answers, stores or suspends as the segment function says, and a suspended call changes no record. |
| MemoryStores.MemoryAdapterStores.BeginBound | src/adapters/memory.js:36-49 | The part of that stretch that binds a save to a grant or an account does what its segment function says. |
| MemoryStores.MemoryAdapterStores.UpsertFinish | src/adapters/memory.js:50-63 | The stretch after the last await stores exactly when version and parent object are still the ones read. |
| MemoryStores.MemoryAdapterStores.Find | src/adapters/memory.js:66-71 | `find` answers a live record whose owner is enabled at the stored version, and nothing otherwise. |
| MemoryStores.MemoryAdapterStores.FindByCode | src/adapters/memory.js:73-93 | The walks by uid and by user code decide on a live record with that code, answer what `find` would, and miss none. |
| MemoryStores.MemoryAdapterStores.Consume | src/adapters/memory.js:95-104 | A live unconsumed record is marked in place, keeping its identity; anything else is refused with the error of its model. |
| MemoryStores.MemoryAdapterStores.ClaimInitialAccessToken | src/adapters/memory.js:145-150 | The claim succeeds once, exactly for a live unconsumed token. |
| MemoryStores.MemoryAdapterStores.RevokeByGrantId | src/adapters/memory.js:110-114 | Deletes exactly the records of one model that are linked to the grant. |
| MemoryStores.MemoryAdapterStores.RevokeMemoryAccount | src/adapters/memory.js:122-143 | The two passes of nested loops leave exactly what the SQL revocation leaves and return the exact number of records deleted. |
| MemoryStores.RevokeInBucket | src/adapters/memory.js:133-141 | One bucket's delete loop removes exactly the account's records and those linked to its grants, and counts them. |
| PostgresRecords.EveryRunKeepsInv | src/adapters/postgres.js:74-145 | Every run of statements keeps each bound row at its account's present version and the unique codes unique. |
| PostgresRecords.BoundRowsAreCurrent | src/adapters/postgres.js:96-159 | In every run a live row is found exactly when it is unbound or its account enabled; a grant-linked row always carries its account at the present version. |
| PostgresRecords.ConsumedStays | src/adapters/postgres.js:84-94 | No statement clears `consumed_at`, a later upsert of the key included. |
| PostgresRecords.OneUse | src/adapters/postgres.js:203-220 | While a row exists at most one `consume` or claim of it succeeds in any run, none after the first. |
| PostgresRecords.ClaimsAreExact | src/adapters/postgres.js:203-220 | `consume` and the claim of an initial access token win exactly on a row that is there, unconsumed and unexpired; they mark that row with the time and touch no other. |
| PostgresRecords.RevocationsAgree | src/db.js:7-23 | The SQL revocation and the in-memory one delete the same records. |
| PostgresRecords.AdaptersAgree | src/adapters/postgres.js:96-145 | The SQL accepts a save if and only if the in-memory upsert, run without interruption, does, no other row has its code and no lapsed replay record is left under its key; what both accept they store alike. |
| PostgresRecords.UpsertIff | src/adapters/postgres.js:96-145 | A save succeeds exactly if its account is enabled, its grant live, of that account and at its present version, a replay marker not there yet and no other row of the model has one of its codes; which error is answered otherwise. |
| PostgresRecords.SavedRowIs | src/adapters/postgres.js:74-94 | The row carries the payload, the account and its present version, the lifetime from now and the first consumption there was; no other row changes. |
| PostgresRecords.FindsAgree | src/adapters/postgres.js:147-164 | `find` answers a record exactly where the SELECT over the same rows and enabled users returns its row. |
| AuditWriter.FixedQueue.Push | src/observability/audit-writer.js:54-61 | The ring buffer appends to the queue it stands for, or refuses when full (always, at capacity 0). |
| AuditWriter.FixedQueue.Shift | src/observability/audit-writer.js:63-71 | The ring buffer hands out the oldest item and leaves the rest in order. |
| AuditWriter.BoundedAuditWriter.Enqueue | src/observability/audit-writer.js:143-189 | `enqueue` with everything its hooks call back does what the machine's function says and returns its result. |
| AuditWriter.BoundedAuditWriter.CatchFailure | src/observability/audit-writer.js:271-281 | A failed write is counted and its hook run, with all that calls back; its slot stays taken. |
| AuditWriter.BoundedAuditWriter.Release | src/observability/audit-writer.js:282-286 | The last stage of a write, in a turn of its own, frees the slot and drains. |
| AuditWriter.BoundedAuditWriter.Drain | src/observability/audit-writer.js:288-300 | The drain loop fills free slots from the queue and resolves the pending flush if it leaves the writer idle. |
| AuditWriter.BoundedAuditWriter.Flush | src/observability/audit-writer.js:192-200 | `flush` answers a resolved promise when idle and the one shared pending promise otherwise. |
| AuditWriter.BoundedAuditWriter.Close | src/observability/audit-writer.js:203-209 | `close` stops acceptance once and answers one flush promise. |
| AuditWriter.BoundedAuditWriter.PruneSamples | src/observability/audit-writer.js:240-244 | The loop drops exactly the expired keys. |
| AuditWriter.BoundedAuditWriter.RememberSample | src/observability/audit-writer.js:246-259 | The search for the earliest expiry and the eviction do what the machine says. |
| AuditProofs.EveryRunIsOrderly | src/observability/audit-writer.js:143-189 | In every run, re-entrant hooks included: active never exceeds concurrency, a queued item means all slots are taken, accepted = finished + active + queued; exactly the oldest accepted items have started, each once, the queue holding the rest in order; and a write starts before that of an older item if and only if the older one is then inside its acceptance hook, never past a queued one. |
| AuditCalls.EveryCallIsAnswered | src/observability/audit-writer.js:143-189 | In every run, with all calls that hooks make, the accepted items carry in order exactly the events of the calls answered accepted, and the counters count those answered dropped and sampled; queued, started, written and failed items carry the event of their call. |
| AuditCalls.AnswersIff | src/observability/audit-writer.js:143-185 | `enqueue` throws exactly on malformed options; else drops if closed; else samples inside a live window of its key; else accepts exactly if a slot or a place in the queue is free. |
| AuditCalls.FlushAnswers | src/observability/audit-writer.js:192-200 | `flush` answers a resolved promise exactly at idle and changes nothing then; else the pending one, the same for every call until idle. |
| AuditCalls.CloseAnswers | src/observability/audit-writer.js:203-209 | The first `close` stops acceptance and answers what `flush` would; later ones answer the same promise. |
| AuditCalls.EvictionIsExact | src/observability/audit-writer.js:246-259 | A key is evicted exactly if the one recorded is new and the table full: the first entry of least expiry. |
| AuditProofs.InnerItemsStartFirst | src/observability/audit-writer.js:143-189 | A concrete run: the item a hook enqueues starts before the item whose acceptance the hook reports. |
| AuditProofs.StepStaysAtRest | src/observability/audit-writer.js:271-300 | Every call, every failure and every release of a slot, with all that their hooks call back, leaves the writer at rest; failed writes that still hold their slot included. |
| AuditProofs.FlushResolvesAtIdle | src/observability/audit-writer.js:288-300 | A pending flush means a write is running or, failed, still holds its slot; promises resolve only in a release that leaves nothing active or queued, and then the pending one does. |
| AuditProofs.CompletionsDrain | src/observability/audit-writer.js:282-300 | Without new work each release reduces active + queued by one, and the pending flush is resolved when that reaches zero. |
| AuditProofs.CloseAccountsForAll | src/observability/audit-writer.js:203-209 | When the promise of `close` is resolved every accepted event has been written or counted as failed, exactly one of the two. |
| AuditProofs.RememberKeeps | src/observability/audit-writer.js:246-259 | The table stays within its bound; what is evicted has the least expiry; every other entry stays. |
| AuditProofs.AcceptanceOpensWindow | src/observability/audit-writer.js:182-187 | An accepted event with a sample key has its window in the table before any hook runs. |
| AuditProofs.NoRepeatWithinWindow | src/observability/audit-writer.js:151-185 | Unless its key was evicted, no repeat of an accepted key is accepted inside its window, whatever ran in between, on a clock that does not go back. |
| SamlCache.NamesNeverCollide | src/federation/saml-broker.js:394-396 | Realm and provider names without a colon give every kind, provider, realm and id its own cache key. |
| SamlCache.RealmsShareNamesIff | src/federation/saml-broker.js:394-396 | Two realms can name one key alike if and only if one is the other, a colon and a text that begins with a provider id and either ends there or goes on with the name of a kind. |
| SamlCache.ColonsCollide | src/federation/saml-broker.js:366-368 | With a colon in the realm, a request key of one broker can be a state key of another. |
| SamlCache.PutOffers | src/federation/saml-replay-cache.js:46-113 | Over every cache `putIfAbsent` succeeds exactly on a key that is not blocked, offers the value for its lifetime unless a lapsed consumed record of the adapter was there, and leaves all other keys alone. |
| SamlCache.GetAnswersTheOffered | src/federation/saml-replay-cache.js:55-99 | Over every cache `get` answers exactly what is offered and takes nothing of it. |
| SamlCache.CommitTakesTheOffered | src/federation/saml-replay-cache.js:61-113 | Over every cache a consumption succeeds exactly on an offered key, which is then gone for good, and on no other. |
| SamlCache.MemorySamlReplayCache.PruneRecords | src/federation/saml-replay-cache.js:39-44 | The prune loop drops exactly the lapsed records. |
| SamlCache.MemorySamlReplayCache.PutRecordIfAbsent | src/federation/saml-replay-cache.js:46-53 | Stores under an unused or lapsed key, refuses a live one, and rejects invalid keys and lifetimes without a change. |
| SamlCache.MemorySamlReplayCache.GetRecord | src/federation/saml-replay-cache.js:55-59 | Answers the live value under a key, and an error for an invalid one. |
| SamlCache.MemorySamlReplayCache.Consume | src/federation/saml-replay-cache.js:61-68 | Answers the live value under a key and removes it, so that a second call answers nothing. |
| SamlCache.AdapterCacheIsRecords | src/federation/saml-replay-cache.js:81-113 | Over the in-memory adapter, put, get and consume are that adapter's upsert, find and consume of a replay record; a consumption is marked if and only if the clock is past the first second of 1970. |
| SamlOneUse.SuccessesNeverExceedStarts | src/federation/saml-broker.js:404-471 | In every run over every cache, a RelayState yields at most as many successes as `start` calls stored it, counting what is still unspent. |
| SamlOneUse.TwoSuccessesNeedTwoStarts | src/federation/saml-broker.js:424-471 | Two successes on one RelayState need two calls of `start` that stored it. |
| SamlOneUse.AtMostOnePostSucceeds | src/federation/saml-broker.js:424-471 | Of all concurrent posts of a RelayState stored once, at most one succeeds. |
| SamlOneUse.WinnerReturnsStoredInteraction | src/federation/saml-broker.js:451-457 | A success answers an interaction and request that `start` stored under its RelayState. |
| SamlOneUse.WinnersWereVouchedFor | src/federation/saml-broker.js:424-471 | In every run a success has a validation in the run whose response was for this destination and the pending request, whose signatures were valid, and whose profile named that request, the configured issuer, the assertion id claimed and a bearer confirmation good at that moment; the response id claimed is that response's. |
| SamlOneUse.MissedChecksFail | src/federation/saml-broker.js:429-444 | Which failure each missed check gives, that of the first one missed, and that a response that misses none goes on. |
| SamlOneUse.StartOffersItsState | src/federation/saml-broker.js:404-423 | `start` succeeds exactly on a RelayState that is not blocked, blocks it for the request's lifetime, offers its state for as long on a new one, and touches no other. |
| SamlOneUse.BeginsIffOffered | src/federation/saml-broker.js:424-429 | A post gets past its first read exactly if its RelayState has 32 to 80 base64url characters and is on offer. |
| SamlOneUse.ClaimsFailIffBlocked | src/federation/saml-broker.js:445-450 | A claim fails as a replay of the response, or of the assertion, exactly if its key is blocked. |
| SamlOneUse.ClaimsBlockForTheReplayLifetime | src/federation/saml-broker.js:445-450 | A claim blocks its key for exactly the replay lifetime, in the database until it is cleaned up. |
| SamlOneUse.ConsumesIffOffered | src/federation/saml-broker.js:451-452 | The last step succeeds exactly if the state read at first is still on offer, and takes it away, over every cache. |
| SamlOneUse.ReplaysAreSeparated | src/federation/saml-broker.js:445-450 | Two successes with one response id, or one assertion id, claimed it at least the first one's replay lifetime apart. |
| SamlOneUse.PutKeepsCover | src/federation/saml-replay-cache.js:46-53 | A put keeps every standing claim covered and succeeds only where every earlier claim on its key has lapsed. |
| SamlOneUse.UndisturbedLoginWins | src/federation/saml-broker.js:424-471 | A valid response that runs through with its state available and its ids unclaimed succeeds and spends the state, over every cache. |
| JsonKeys.StringifyIsInjective | src/repositories/federated-identity-repository.js:69-86 | Two arrays of strings share their JSON text only when they are equal, whatever their lengths. |
| KeyedLock.KeysNeverCollide | src/repositories/federated-identity-repository.js:69-86 | No two identities, no two user-provider pairs and no identity and pair share a key. |
| KeyedLock.OperationsRunInTurn | src/repositories/federated-identity-repository.js:103-114 | On each key operations start in the order of the calls, each after every earlier one is over, thrown or not: mutual exclusion and FIFO. |
| KeyedLock.TurnsComeIff | src/repositories/federated-identity-repository.js:103-110 | In every run a waiting call may start exactly when every earlier call on its key is over: no other key holds it up. |
| KeyedLock.MapHoldsBusyKeys | src/repositories/federated-identity-repository.js:103-114 | The lock map holds a key exactly while a call on it is unfinished, and then its latest call. |
| KeyedLock.NoRunDeadlocks | src/repositories/federated-identity-repository.js:167-183 | In every reachable state, nested locks included, some unfinished call can move, and all calls can end, leaving the map empty. |
| KeyedLock.EveryMoveIsProgress | src/repositories/federated-identity-repository.js:103-114 | Every start and every finish, in whatever order, uses up one unit of the work left. |
| KeyedLock.LockQuiesces | src/repositories/federated-identity-repository.js:103-114 | Without new calls all calls are over after exactly the work left, and the map is empty. |
| FederatedLinks.LinksNeverMove | src/repositories/federated-identity-repository.js:116-183 | In every run no step gives a linked identity to another user. |
| FederatedLinks.ResolvedIsLinkedIff | src/repositories/federated-identity-repository.js:116-125 | A resolve that found its link and user answers resolved or disabled as the user was at the lookup; the account answered is linked at that moment if and only if no `unlink` of the link ran since the lookup. |
| FederatedLinks.UnlinkedWhileResolving | src/repositories/federated-identity-repository.js:116-125 | A concrete run: an unlink between lookup and answer, and the login is answered resolved without a link. |
| FederatedLinks.EveryLinkHasOrigin | src/repositories/federated-identity-repository.js:116-183 | Every link was asked for by `link` with that user, or its user was created under a new id by the `resolve` that stored it: a colliding local account is never linked. |
| FederatedLinks.CreatedUsersDiffer | src/repositories/federated-identity-repository.js:134-152 | Two resolves, in one realm or two, never share the account they created. |
| FederatedLinks.OneAccountPerIdentity | src/repositories/federated-identity-repository.js:116-165 | While nothing is removed, of all concurrent first logins of an identity only one creates an account. |
| FederatedLinks.LinksAreUnique | src/repositories/federated-identity-repository.js:167-183 | While new ids stay unknown to `link`, a user has at most one link per provider and issuer in every run. |
| FederatedLinks.LinksStayUniqueIff | src/repositories/federated-identity-repository.js:158-183 | Throughout a run a user has at most one link per provider and issuer if and only if no resolve of the run stores the link of its new user when that user is linked there already. |
| FederatedLinks.StoringKeepsOneLinkIff | src/repositories/federated-identity-repository.js:158-162 | Storing the link of a new user keeps that uniqueness if and only if nobody linked the user there already. |
| FederatedLinks.GuessedIdsDoubleLinks | src/repositories/federated-identity-repository.js:158-183 | A concrete run in which a new id linked in time ends with two links. |
| FederatedLinks.LinksOutliveTheirUser | src/repositories/federated-identity-repository.js:116-125 | In every run a link disappears only by `unlink`, or by a resolve of its identity whose lookup found the user gone; the user is then still gone if and only if it was not restored, for good, since that lookup. |
| FederatedLinks.RevivedUsersLoseLinks | src/repositories/federated-identity-repository.js:118-121 | A concrete run: the account is restored between lookup and drop, and loses its link all the same. |
| FederatedLinks.AnswersAreTruthful | src/repositories/federated-identity-repository.js:116-183 | In every run the segment that answers a `resolve` or `link` answers what is so: for a resolved or disabled account no link is made or lost, and one still there is that account's and carries the login; a created account is linked where nothing was; a link-required answer names an account that had the profile's username or email at the last lookup; `link` answers not-found only when its lookup found no user; and not-found, link-required, conflict and failed calls leave the links as their answer says. |
| FederatedLinks.SearchesAreAnswered | src/repositories/federated-identity-repository.js:131-133 | In every run an account that had the username at its lookup is answered as link-required; if none had, the email is looked up if there is one, and an account that has it is answered; only after both searches in vain a resolve goes on. |
| FederatedLinks.CreationFollows | src/repositories/federated-identity-repository.js:134-164 | After a search in vain an enabled user with exactly its logins is created if they and its id are free, and then its link; a taken login leads to one more search, and nothing else to anything but a throw. |
| FederatedLinks.ResolveBegins | src/repositories/federated-identity-repository.js:116-133 | A resolve starts with the user of its link if it has one, else with the search for the username if it may create, else it is answered not-found. |
| FederatedLinks.DroppingGoesOn | src/repositories/federated-identity-repository.js:121-133 | A resolve whose link's user was gone drops that link alone and goes on as one without a link. |
| FederatedLinks.UndisturbedFirstLogin | src/repositories/federated-identity-repository.js:116-165 | A first login that runs through undisturbed is answered link-required with an account that has its username or email, or else an enabled account with these logins is created, linked and answered. |
| FederatedLinks.LinkAnswersIff | src/repositories/federated-identity-repository.js:167-183 | In every run `link` is answered not-found exactly if the user was absent at the lookup, linked exactly if the identity is the user's or is free while the user has no link there, which it then gets, and else conflict. |
| FederatedLinks.SuspendedIsAlone | src/repositories/federated-identity-repository.js:103-117 | An operation that has begun and is not finished is the only one on its identity. |
| FederatedLinks.LinksOfOneUserRunInTurn | src/repositories/federated-identity-repository.js:167-170 | In every run at most one `link` of a user to a provider and issuer is under way, whatever the identities: it holds that lock until it is over. |
| FederatedLinks.MemoryFederatedIdentityRepository.JoinQueue | src/repositories/federated-identity-repository.js:103-108 | The head of `#locked` puts its call in the map and answers the predecessor. |
| FederatedLinks.MemoryFederatedIdentityRepository.Release | src/repositories/federated-identity-repository.js:110-113 | The `finally` drops the map's entry only when no later call replaced it. |
| FederatedLinks.MemoryFederatedIdentityRepository.DecideLink | src/repositories/federated-identity-repository.js:171-181 | `link` answers and writes by the identity's own link, then by the search for the user's link at the provider. |
| FederatedLinks.MemoryFederatedIdentityRepository.ActOnLookup | src/repositories/federated-identity-repository.js:118-128 | From the answer of `findUserById` to the next await `resolve` does what the machine's segment does: it touches no other link, keeps a link exactly when it is still there and the user was found, never moves one, and stamps profile and login. |
| FederatedLinks.MemoryFederatedIdentityRepository.Unlink | src/repositories/federated-identity-repository.js:191-199 | Removes one matching link, and does so whenever there is one. |
| ScimGroups.ColumnsFollowMemberships | src/repositories/scim-repository.js:355-375 | After every run each user's column lists, once each and in the order of `listUserGroups`, the paths of the groups the user is a member of. |
| ScimGroups.ColumnsFollowFromTheStart | migrations/001_initial.sql:136-162 | From empty tables on, every run keeps the columns right and no two users share a login, across usernames and email addresses, or an external id. |
| ScimGroups.GroupOpsAreExact | src/repositories/scim-repository.js:377-429 | A group operation makes every column right, counts up the security version of exactly the users whose column changed, and revokes exactly their records. |
| ScimGroups.VersionsIdentifyContents | src/repositories/scim-repository.js:392-429 | Over every run an equal version means an equal group, members included, and an equal user, while the id is not created anew. |
| ScimGroups.ChangedUsersCountUp | migrations/003_scim.sql:32-51 | Whatever an operation changes in a user, the groups column included, counts up the user's version once. |
| ScimGroups.ChangedGroupsCountUp | src/repositories/scim-repository.js:274-294 | Whatever an operation changes in a group, its members included, counts up the group's version once. |
| ScimGroups.RaisedVersionsLeaveNoRecords | src/repositories/scim-repository.js:232-294 | No operation lowers a security version, and a user whose version it raises or whom it deletes is left without a record. |
| ScimGroups.OthersKeepTheirNames | src/repositories/scim-repository.js:338-353 | A user outside the old and the new members has the same groups and names afterwards, even on a rename: synchronising those members suffices. |
| ScimGroups.SyncOneMore | src/repositories/scim-repository.js:355-375 | The rows of the synchronising UPDATE can be taken one user at a time. |
| ScimGroups.UserOpsKeepConsistent | src/repositories/scim-repository.js:202-294 | Creating, replacing and deleting users keeps every column right. |
| ScimGroups.OrderedListsAll | src/repositories/scim-repository.js:431-440 | The ordered list of a user's groups holds each of them once. |
| ScimGroups.RevokesAsTheStoreDoes | src/repositories/scim-repository.js:137-159 | The revocation of this repository is the record store's own. |
| ScimGroups.DuplicatesShrinkTheSet | src/repositories/scim-repository.js:339-342 | Comparing the size of the set of member ids with their number finds exactly the duplicates. |
| ScimWrites.CreateUserIff | src/repositories/scim-repository.js:202-230 | A user is created exactly with a good password, an unused id, free and non-blank logins and a free external id, and stored as given. |
| ScimWrites.ReplaceUserIff | src/repositories/scim-repository.js:232-272 | A user is replaced exactly at the version expected under the same demands; all attributes given, `enabled` among them, are stored, the groups stay, both versions count up and the account is revoked. |
| ScimWrites.DeleteUserIff | src/repositories/scim-repository.js:274-294 | A user is deleted exactly at the version expected, with its memberships and records; exactly its groups count up. |
| ScimWrites.UserRowFaults | migrations/001_initial.sql:136-162 | A taken login is answered before a violated CHECK, and that before a taken external id. |
| ScimWrites.CreateGroupIff | src/repositories/scim-repository.js:377-390 | A group is created exactly with an unused id, a good and free name, a free external id and distinct members that exist; its memberships are those listed. |
| ScimWrites.ReplaceGroupIff | src/repositories/scim-repository.js:392-410 | A group is replaced exactly at the version expected under the same demands, with the memberships listed and nobody else's changed. |
| ScimWrites.DeleteGroupIff | src/repositories/scim-repository.js:412-429 | A group is deleted exactly at the version expected, with its memberships and no others. |
| ScimWrites.PathReplacesSlashes | src/repositories/scim-repository.js:359-361 | A group's path is a slash and its name with every slash in it made a hyphen. |
| ScimGroups.PostgresScimRepository.InsertMembers | src/repositories/scim-repository.js:349-351 | The insert loop adds exactly the memberships of the list. |
| ScimGroups.PostgresScimRepository.ReplaceMemberRows | src/repositories/scim-repository.js:338-353 | Refuses duplicates and unknown users without a change, else replaces the memberships and answers old and new members. |
| ScimGroups.PostgresScimRepository.SyncColumns | src/repositories/scim-repository.js:355-375 | Brings the columns of the affected users up to date and revokes the users it changed. |
| ScimGroups.PostgresScimRepository.Create | src/repositories/scim-repository.js:377-390 | The transaction commits the whole creation or leaves the tables as they were, with its error. |
| ScimGroups.PostgresScimRepository.Replace | src/repositories/scim-repository.js:392-410 | The transaction commits the whole replacement or rolls back, with its error. |
| ScimGroups.PostgresScimRepository.Delete | src/repositories/scim-repository.js:412-429 | The transaction deletes the group, its memberships and their paths, or changes nothing. |
| ScimMemory.EveryRealmIsValid | src/scim/memory-repository.js:73-101 | After every run no two users share a userName in any case or an externalId, no two groups an externalId, and every member is a user of the realm. |
| ScimMemory.EqualVersionsAreEqualRecords | src/scim/memory-repository.js:12-22 | Two reads of an id that see one version see one record. |
| ScimMemory.OneWriterPerVersion | src/scim/memory-repository.js:66-71 | Of all writes that insist on one version of a record at most one succeeds (section 3.14 of RFC 7644). |
| ScimMemory.NoLostUpdates | src/scim/router.js:333-346 | A PUT or PATCH written with the version read overwrites exactly what was read. |
| ScimMemory.PagesListAll | src/scim/memory-repository.js:35-41 | Pages of any size list every selected resource once and in order. |
| ScimMemory.UserCreationIsExact | src/scim/memory-repository.js:111-116 | A user is created exactly if its name, in any case, and its external id are free, with the attributes given and at version 1; nothing else changes. |
| ScimMemory.UserReplacementIsExact | src/scim/memory-repository.js:118-126 | A user is replaced exactly at the version expected with a free name and external id, by the attributes given; which error is answered otherwise. |
| ScimMemory.UserDeletionIsExact | src/scim/memory-repository.js:128-138 | A user is deleted exactly at the version expected; exactly the groups that had it are written again, their other members in order. |
| ScimMemory.GroupWritesAreExact | src/scim/memory-repository.js:148-173 | Groups are created, replaced and deleted exactly under the guards of the code, with the attributes given and nothing else changed. |
| ScimMemory.MemoryScimRepository.UserUnique | src/scim/memory-repository.js:73-83 | The loop finds a clash exactly when some other user has the userName or the externalId. |
| ScimMemory.MemoryScimRepository.GroupUnique | src/scim/memory-repository.js:85-92 | The loop finds a clash exactly when some other group has the externalId. |
| ScimMemory.MemoryScimRepository.AllUsers | src/scim/memory-repository.js:94-101 | The loop accepts exactly lists of existing users. |
| ScimMemory.MemoryScimRepository.CreateUser | src/scim/memory-repository.js:111-116 | Creates the user at version 1 or answers the error and changes nothing. |
| ScimMemory.MemoryScimRepository.ReplaceUser | src/scim/memory-repository.js:118-126 | Checks existence, version and uniqueness in that order, then writes the next version. |
| ScimMemory.MemoryScimRepository.DeleteUser | src/scim/memory-repository.js:128-138 | Deletes the user and writes a new version of exactly the groups it was a member of. |
| ScimMemory.MemoryScimRepository.CreateGroup | src/scim/memory-repository.js:148-154 | Creates the group at version 1 or answers the error and changes nothing. |
| ScimMemory.MemoryScimRepository.ReplaceGroup | src/scim/memory-repository.js:156-165 | Checks existence, version, uniqueness and members in that order, then writes the next version. |
| ScimMemory.MemoryScimRepository.DeleteGroup | src/scim/memory-repository.js:167-173 | Deletes the group at the expected version. |
| ScimPatch.ApplyOperations | src/scim/patch.js:92-116 | The loop over the operations equals their fold, and stops at the first error. |
| ScimPatch.AddingMembersTwiceIsOnce | src/scim/router.js:333-348 | A successful PATCH that only adds members leaves other attributes alone, keeps the members' order and distinctness, adds every value, and changes nothing when applied again: the version stays (section 3.5.2.1 of RFC 7644). |
| ScimPatch.OnlyAddedMembersAppear | src/scim/patch.js:84-88 | A member of the result was one before or is a value added. |
| ScimPatch.AddsAreAFold | src/scim/patch.js:63-116 | Add operations on members, with a path or without, amount to adding their values one after the other. |
| ScimPatch.NormalizingSettles | src/scim/attributes.js:103-122 | Whatever a body spells its attribute names like, normalising the result again, in any order, changes nothing. |
| ScimPatch.NormalMembersAreDistinct | src/scim/attributes.js:107-119 | Normalised members are distinct and in the order given. |
| ScimPatchEdits.FilteredRemoveLeavesTheOthers | src/scim/patch.js:65-73 | Removing members by value leaves exactly the members with another value, in order, and fails with `noTarget` if and only if no member has it. |
| ScimPatchEdits.FilteredSetAppends | src/scim/patch.js:69-77 | Replacing or adding by value puts what is given behind those members; only a replacement needs one to match. |
| ScimPatchEdits.UnfilteredOperations | src/scim/patch.js:80-89 | Without a filter `remove` drops the members, `replace` makes them what is given, `add` appends exactly what is new. |
| ScimPatchEdits.SimpleOperations | src/scim/patch.js:42-61 | `displayName` and `externalId` are set to what is given or removed, `noTarget` if absent, and take no filter; every other attribute stays. |
| ScimPatchEdits.PathlessIsPathByPath | src/scim/patch.js:96-108 | An operation without a path sets the attributes of its value one after the other, each as if its name were the path. |
| ScimPatchEdits.OperationsActInTurn | src/scim/patch.js:92-116 | The operations of a body act one after the other, and the first error ends them. |
| ScimPatchEdits.GroupIsNormalisedIff | src/scim/attributes.js:103-122 | A group is accepted exactly with a non-blank name, an external id that is text or null, and members that name distinct users, within their lengths; name trimmed, id and member values kept in order. |
| IdentityStore.LoginsNameOneAccount | src/repositories/identity-store.js:157-212 | After every run a login, in any case and with any white space around, names at most one account of its realm, across usernames and email addresses. |
| IdentityStore.CreatedUsersAreFound | src/repositories/identity-store.js:157-184 | A created user is the one account found by its username and by its email. |
| IdentityStore.CreateUserIff | src/repositories/identity-store.js:157-171 | A user is created exactly if its id is new and no account of the realm has its username or its email in either column, and stored in its normal form. |
| IdentityStore.UpdateUserIff | src/repositories/identity-store.js:194-212 | An update fails exactly if its new email is another account's username or email; an absent user stays absent. |
| IdentityStore.DeletionTakesWhatIsOwned | src/repositories/identity-store.js:214-230 | A deletion takes the account, its grant, sessions, passkeys and challenges, and nothing of anyone else. |
| IdentityStore.NormalIff | src/repositories/identity-store.js:9-36 | A user is its own normal form exactly when its logins are trimmed and folded, its names trimmed, its display name filled in and its roles and groups without repetition. |
| IdentityStore.RestoreKeepsLoginsApartIff | src/repositories/identity-store.js:232-236 | `restoreUser` keeps logins apart if and only if no other account has taken one meanwhile. |
| IdentityStore.RestoredLoginsCanClash | src/repositories/identity-store.js:232-236 | A concrete run: an address given up and taken by another account is put back, and names both. |
| IdentityStore.FailedMutationIsUndone | src/db.js:64-75 | A mutation whose callback throws leaves passkeys, version and all other accounts as they were and the account in its normal form; the store is the old one if and only if the account was normal and the callback left the grant alone. |
| IdentityStore.DuplicateRolesAreNotPutBack | src/repositories/identity-store.js:194-212 | A concrete input: a patch stores a role twice, a refused patch is rolled back, and the role is there once. |
| IdentityStore.PasskeysComeBackIff | src/db.js:25-31 | Putting back a listing restores all of it if and only if no other account holds one of its ids; no other account ever loses one. |
| IdentityStore.FailedDeletionIsUndone | src/db.js:48-62 | A deletion whose audit fails brings back the account in its normal form, its grant and its passkeys, and nothing else changes but that sessions and challenges are gone; the account is the old one if and only if it was normal. |
| IdentityStore.DeletedAccountComesBackIff | src/db.js:54-59 | With any other calls in between, account, grant and passkeys come back exactly when the id is free, no account of the realm has the username or the email in either column, and nobody has one of the passkey ids. |
| IdentityStore.FailedUndoStopsThere | src/db.js:54-59 | What the undo of a deletion that fails has put back by then: nothing if the user could not be created, else user, grant and the passkeys before the first whose id another account holds. |
| IdentityStore.MemoryIdentityStore.LoginFree | src/repositories/identity-store.js:162-167 | The search finds a duplicate exactly when another account of the realm has one of the logins in either column. |
| IdentityStore.MemoryIdentityStore.Insert | src/repositories/identity-store.js:157-171 | Creates the normalised user or answers that it exists and changes nothing. |
| IdentityStore.MemoryIdentityStore.FindUserByLogin | src/repositories/identity-store.js:178-184 | Answers an account with the login whenever there is one, and the only one while logins differ. |
| IdentityStore.MemoryIdentityStore.Delete | src/repositories/identity-store.js:214-230 | Deletes the user with its grant, sessions, passkeys and challenges, and nothing of anyone else. |
| IdentityStore.MemoryIdentityStore.Recreate | src/db.js:30 | Writes a listing passkey by passkey up to the first id that is taken, and answers that error. |
| IdentityStore.MemoryIdentityStore.RestoreCredentials | src/db.js:25-31 | The two loops drop the account's passkeys and put the listing back, throwing exactly when another account holds one of its ids. |
| IdentityStore.MemoryIdentityStore.UndoMutation | src/db.js:69-73 | The rollback of a mutation puts back user and passkeys, with the error of a passkey id taken meanwhile. |
| IdentityStore.MemoryIdentityStore.UndoDelete | src/db.js:54-59 | The rollback of a deletion stops at the first step that throws, with what it has put back by then. |
| IdentityStore.MemoryIdentityStore.DeleteAndUndo | src/db.js:48-59 | Deletion and rollback together end as the failed deletion is proved to end. |
| Lockout.StoresAgree | src/repositories/identity-store.js:750-767 | Over every run the CASE statement and the in-memory assignments give the same counter, and an unlocked account has fewer than five failures. |
| Lockout.FifthFailureLocks | src/repositories/identity-store.js:317-329 | A failure on a locked account changes nothing, the first after a lock counts one, and the fifth locks for 900000 milliseconds. |
| Lockout.FourAreForgiven | src/repositories/identity-store.js:317-345 | Four failures leave an account open, the fifth locks it for a quarter of an hour, and a success or an unlock clears it. |
| Lockout.LockoutFields.RecordLoginFailure | src/repositories/identity-store.js:317-329 | The assignments do what the failure function says and, at one instant, what the CASE statement says. |
| Lockout.GuessesAreBounded | src/repositories/identity-store.js:317-329 | Without a success or unlock at most 5 (T / 900000 ms + 1) failures are counted in any window of length T, the quotient rounded down. |
| Lockout.TheBoundIsReached | src/repositories/identity-store.js:317-329 | In every window of n times 900000 ms, failing five times as each lock ends is inside the window and counted 5 (n + 1) times: the bound cannot be lowered. |
| LdapFilter.EscapeLdapFilterValue | src/federation/ldap.js:122-132 | The byte loop builds the escaped text. |
| LdapFilter.BytesAreEscapedIff | src/federation/ldap.js:122-132 | Exactly the bytes outside printable ASCII and the four structural characters are escaped, as a backslash and two lower-case hexadecimal digits. |
| LdapFilter.EscapingLosesNothing | src/federation/ldap.js:122-132 | Reading an escaped value back yields its bytes: unescaping inverts escaping. |
| LdapFilter.ParseEscaped | src/federation/ldap.js:122-132 | An escaped value ends where it ends, whatever follows. |
| LdapFilter.EscapedIsPrintable | src/federation/ldap.js:120-132 | Escaped text is printable ASCII without parentheses or asterisks. |
| LdapFilter.ParsePrinted | src/federation/ldap.js:134-138 | Every filter but one with an extensible match, whether it tests equality, likeness, order, presence or substrings or combines others, reads back from its text as itself, whatever follows. |
| LdapFilter.UserFilterMeansLogin | src/federation/ldap.js:134-138 | For every login the filter's text is one filter of the grammar and means exactly: this object class and one of these attributes equal to the login. |
| LdapFilter.UserFilter | src/federation/ldap.js:134-138 | The template, map and join build that text. |

## Left out

- Account ids are random UUIDs: no event of EpochProtocol creates one twice, a rollback aside.
- Concurrent mutations of one account: a mutation or deletion of an account begins only when none of that account is running, as the row lock of src/db.js:159-162 enforces; the in-memory data layer has no such lock and a rollback would then re-install an older version.
- MemoryStores.MemoryAdapterStores.FindByCode: which of several live records with one code is met first is left open; the code takes the oldest entry of its map.
- MemoryStores.MemoryAdapterStores.Find: decides where the code reads record and version, in one stretch; the copy of the payload it hands out after its await is not modelled.
- Validation of identifiers and lifetimes in src/adapters/postgres.js:3-57, which throws before any statement runs.
- Lifetimes are whole milliseconds in the record stores; fractional seconds are not modelled.
- AuditProofs.NoRepeatWithinWindow: the clock has not gone back; window ends too large for a finite number, which the code caps, are not modelled, nor are clocks that answer no finite number.
- Hooks of the audit writer that return promises: their outcome is ignored by the code. What a hook calls is a finite tree of calls.
- XML, signatures, certificates and the assertion-age check of the SAML library: validation is an oracle in the events. No claim is made that the replay lifetime covers the whole time in which a response is acceptable.
- The request records of the SAML library are events on request keys of their own; when the library makes them is not modelled.
- JsonKeys.StringifyIsInjective: strings are sequences of Unicode scalar values, so the unpaired surrogates a JavaScript string may hold do not occur.
- FederatedLinks.LinksAreUnique: for runs in which no `link` acts on an id that a resolve has created and not yet stored; FederatedLinks.LinksStayUniqueIff is the exact condition on a run.
- The PostgreSQL federated-identity repository: its transactions hold an advisory lock instead of the promise chain.
- Normalisation of external profiles and the public copies of links.
- ScimGroups: one realm, since every statement names it; UUIDs are in lower case, transactions serial; password hashing and the mapping of SCIM attributes to core columns are inputs; other writers of the `groups` column are excluded.
- Letter case is that of ASCII; the collation of the database is some total order, here that of code points.
- ScimMemory: attributes that no check reads are one text; timestamps are event times; filters of listings are given as the selected resources.
- ScimPatch.ApplyOperations: the regular expression of a path is not modelled: an operation carries the parsed path or the error. PATCH of users, which differs in its multi-valued attributes only, is left out.
- IdentityStore.LoginsNameOneAccount: for runs in which no `restoreUser` brings back a login taken meanwhile; IdentityStore.RestoreKeepsLoginsApartIff is the exact condition.
- IdentityStore.FailedDeletionIsUndone: sessions and challenges stay deleted, as in the code.
- The mapping of a validated SAML profile to an identity (src/federation/saml-broker.js:270-304), which may still refuse one without a subject.
- Lockout.StoresAgree: a failure that takes no time; the in-memory form reads the clock twice.
- LdapFilter.ParsePrinted: the extensible form of a filter item is not parsed, attribute descriptions are checked by their characters only, and UTF-8 sequences are taken byte by byte.
- TOTP, recovery codes, passkey counters, administrator sessions, rate limits, routes, rendering, configuration and key handling: single guards, plumbing or library calls.
