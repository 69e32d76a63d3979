# agenthub-server, verified models

A Dafny 4.11 model of the stateful mechanisms of agenthub-server, with proofs of what they promise over every input, every run and every interleaving. `dafny verify dfyconfig.toml` checks everything.

What is modelled, file by file:

- **Realtime hub** (`HubSteps`, `HubInvariants`, `HubTheorems`, `HubLiveness`, `Hub`). `Register`, its writer, `Publish`, `Close` and `BroadcastReconnect` as a labelled step system with a program counter for every call. Lock regions are single steps; everything outside the lock interleaves, so stale snapshots, late registrations and shutdown races are runs of the model. The class `InMemoryHub` holds the locked index and the loops.
- **Per-IP limiter** (`RateLimit`, `RateLaw`, `Limiter`). Token buckets over `real`, a table that forgets idle entries, and the table that never forgets as its specification; the exact law of who is let through, stated on requests and answers alone; and the classes `Bucket` and `RateLimiter`, proved against both.
- **Linking to Headscale** (`LinkSteps`, `LinkTheorems`, `HeadscaleService`). Find-or-create across our link table and Headscale's users, one store access at a time, each of which may be refused, may succeed unanswered, or may be the last before a crash.
- **Identity and tenancy** (`Tables`, `Tenancy`, `AuthSteps`, `AuthInvariants`, `AuthTheorems`, `AuthSpec`, `AuthOutcomes`, `AuthHistory`, `AuthJourney`, `AuthRefinement`, `AuthService`, `ClaimRace`). The tables as maps with their primary keys, unique columns and foreign keys; what each statement and transaction does to them; all calls side by side, one statement or transaction at a time; one inductive invariant; theorems over runs; each operation and each step again in the columns' own terms (`AuthSpec`, `AuthOutcomes`); the tables as the history of the run (`AuthHistory`); that everyone entitled gets in (`AuthJourney`); and the service object with its methods.
- **Replay cache** (`Idempotency` for requests one after another, `IdempotencySteps` for requests side by side) over **stored time text** (`TimeText`), which spells out the Gregorian calendar.
- **Text formats** (`PasswordText`, `Slug`, `PairCode`).

Assumptions, all visible as parameters or preconditions: Headscale refuses a second user of the same name and gives out fresh non-zero ids; a bearer text parses only if this service signed it; argon2 (RFC 9106) and SHA-256 are arbitrary functions; database statements and transactions take turns, as one open connection makes them (internal/db/sqlite/sqlite.go:28-42). Ids and random texts are arbitrary: if one is already taken, the insert is refused as the schema says.

Where a promise depends on a condition, the condition is proved to be the exact one, or the failing case is shown: eviction is invisible exactly under the refill condition (`RateLimit.EvictionInvisibleIff`, `RateLimit.WindowBoundIff`), and under any config a request is let through exactly if it fits (`RateLaw.EveryRunIsLawful`); an undisturbed linking call succeeds exactly if the pair is linked already or can be, and once a user is linked no call under another account ever succeeds (`LinkTheorems.Recovery`, `LinkTheorems.SecondAccountRefused`); the captured status is the one sent, and a retry sees what the first client saw, exactly if the last header a handler sets carries the code of the call that fixed the status line (`Idempotency.CapturedIsSent`, `Idempotency.RetrySeesTheSame`); a slug is canonical exactly if the name leaves a base or the id is long enough (`Slug.SlugCanonicalIff`); `VerifyEmail` is not atomic, so a user is verified exactly if OAuth created the user or some call got as far as its second statement (`AuthTheorems.VerifiedExactly`, `AuthTheorems.VerifyEmailCutOff`); a provider login's session belongs to a verified user exactly if the login created the user or the user was verified before (`AuthRefinement.ProviderSessionVerifiedIff`); a claim is exclusive only because transactions are serialised (`ClaimRace.ExclusiveOnlySerialised`).

## Model

| member | source | states |
|---|---|---|
| HubInvariants.InvStep | internal/realtime/inmem.go:56-242 | every step of every interleaving keeps the hub's invariant: index, queues, channels, publish records and shutdown records |
| HubTheorems.Isolation | internal/realtime/inmem.go:93-119 | a frame queued for, held by or handled by a connection's writer was published under that connection's account, also by a Publish holding a stale snapshot |
| HubTheorems.IndexIsLiveRegistrations | internal/realtime/inmem.go:64-76 | `conns` is exactly the set of live registrations grouped by account, and has no empty group |
| HubTheorems.NothingLostOrReordered | internal/realtime/inmem.go:104-172 | accepted frames are handled frames, at most one in flight and the queue, in that order; the queue stays within SendBuffer; after a failed write nothing is written |
| HubTheorems.ExactlyAcceptedOrDropped | internal/realtime/inmem.go:106-118 | each connection a Publish has come to accepted its frame exactly once or dropped it, never both, and a returned Publish has come to all of its snapshot |
| HubTheorems.DropsOnlyWhenFull | internal/realtime/inmem.go:106-118 | a connection whose queue was never full has dropped nothing |
| HubTheorems.PublishOrder | internal/realtime/inmem.go:93-119 | if one Publish returns before another starts, their frames never swap on any connection |
| HubTheorems.NoDoubleClose | internal/realtime/inmem.go:121-148 | in every run the hub's done channel and each connection's are closed at most once |
| HubTheorems.CursorFindsConnection | internal/realtime/inmem.go:104-135 | the loops over a snapshot always find the connection they come to |
| HubTheorems.MeasureStep | internal/realtime/inmem.go:56-136 | after `done` is closed each step of a Register call lowers the measure, an arrival adds a constant, nothing else moves it |
| HubTheorems.ShutdownBound | internal/realtime/inmem.go:56-136 | the steps all Register calls take after shutdown began are bounded by the measure plus a constant per arrival |
| HubTheorems.NobodyStuck | internal/realtime/inmem.go:64-148 | once a Close has returned, every Register call, also one inserted after the snapshot, can take its next step, has its Read unblocked and finishes at most one more Read |
| HubTheorems.ShutdownDrains | internal/realtime/inmem.go:64-148 | when no Register step is left after a Close returned, every Register call is gone |
| HubLiveness.CutOffLeaves | internal/realtime/inmem.go:78-91 | hub open or not: from the step at which its socket is closed or its context is done, a Register call takes at most five more steps, and when none is left it is gone and in no group |
| HubLiveness.FailedWriteLeaves | internal/realtime/inmem.go:162-168 | a failed write has the same consequence for the Register call |
| HubLiveness.LeavesOnlyForCause | internal/realtime/inmem.go:78-91 | while its socket is open, its context alive and the hub not done, an inserted connection stays in its account's group |
| HubLiveness.WriterEnds | internal/realtime/inmem.go:150-172 | a writer that stopped or whose write failed takes no step and writes nothing ever again |
| HubLiveness.WriterNext | internal/realtime/inmem.go:150-172 | a writer whose Register call is gone or whose hub is done can go on until it has stopped |
| HubLiveness.OnlyCloseShuts | internal/realtime/inmem.go:121-122 | the hub is done only if some Close call has got past its once.Do |
| HubLiveness.StopReachesEveryone | internal/realtime/inmem.go:121-136 | every connection in the index when a Close or BroadcastReconnect took its list has its socket closed, in the second case after a reconnect event, when that call returns, and its Register call ends within five more steps |
| HubLiveness.PublishReachesEveryone | internal/realtime/inmem.go:104-119 | every connection in the group at the snapshot has, when Publish returns, taken the frame exactly once or dropped it, and no other connection has either |
| HubLiveness.PublishEnds | internal/realtime/inmem.go:93-119 | from its snapshot on a Publish takes one step a connection and one to return, and is never stuck |
| HubLiveness.MarshalFailureReturns | internal/realtime/inmem.go:97-101 | an event that cannot be encoded reaches nobody and its Publish returns at once |
| HubLiveness.StopEnds | internal/realtime/inmem.go:121-136 | from its list on a Close or BroadcastReconnect takes at most two steps a connection and one to return, and is never stuck |
| Hub.InMemoryHub.Insert | internal/realtime/inmem.go:64-69 | registration adds the connection to its account's group and to no other |
| Hub.InMemoryHub.Deregister | internal/realtime/inmem.go:138-148 | removes the connection, removes its group if it was the last, and closes its done channel, which must still be open |
| Hub.InMemoryHub.Publish | internal/realtime/inmem.go:93-119 | every connection of the account whose buffer has room gets the frame at its end once, no other queue changes |
| Hub.InMemoryHub.Close | internal/realtime/inmem.go:121-136 | closes `done` if no earlier call did, and only after that the socket of every connection in the index, each once |
| Hub.InMemoryHub.BroadcastReconnect | internal/realtime/inmem.go:215-242 | tries one reconnect frame on every registered connection past its queue, which stays as it is, and closes its socket |
| Hub.InMemoryHub.AccountConnCount | internal/realtime/inmem.go:200-204 | the size of the account's group, zero without one |
| RateLimit.EvictionInvisible | internal/httpmw/ratelimit.go:27-65 | under the refill condition every time-ordered request sequence over any IPs gets the same decisions as from a limiter that never forgets |
| RateLimit.EvictionInvisibleIff | internal/httpmw/ratelimit.go:36-52 | forgetting is invisible to all runs if and only if max(rate, 0) x TTL refills the burst or nothing is ever allowed |
| RateLimit.WindowBound | internal/httpmw/ratelimit.go:36-63 | under that condition at most max(burst, 0) + max(rate, 0) x w requests of an IP get through any window of length w, evictions included |
| RateLimit.WindowBoundIff | internal/httpmw/ratelimit.go:36-63 | the window bound holds on all runs under the refill condition and no other |
| RateLimit.ForgettingIsVisible | internal/httpmw/ratelimit.go:40-44 | without the condition a concrete run exceeds the bound |
| RateLimit.DefaultsForgive | internal/config/config.go:168-169 | the shipped rate of 5 and burst of 20, with the TTL left to its default, meet the condition |
| RateLaw.EveryRunIsLawful | internal/httpmw/ratelimit.go:27-65 | for any config and any run in clock order: a request is let through exactly if, counted from each earlier request of its IP with no gap longer than the TTL since, the requests let through and this one fit into burst + max(rate, 0) x the time between |
| RateLaw.LawDecides | internal/httpmw/ratelimit.go:27-65 | that law leaves nothing open: the times of an IP's requests decide every answer |
| RateLaw.LevelIsWhatFits | internal/httpmw/ratelimit.go:47-63 | the tokens a request would find are exactly what fits by the law |
| Limiter.RateLimiter.constructor | internal/httpmw/ratelimit.go:27-34 | keeps rate and burst, and the TTL unless it is zero, which stands for 300 seconds |
| Limiter.Bucket.Allow | internal/httpmw/ratelimit.go:55-63 | one draw: what the bucket held plus the rate since its last charge, cut at the burst; then one token or a refusal that leaves it alone |
| Limiter.RateLimiter.DropIdle | internal/httpmw/ratelimit.go:40-44 | exactly the entries idle for longer than the TTL go |
| Limiter.RateLimiter.Get | internal/httpmw/ratelimit.go:36-52 | the IP's bucket after eviction, a full one if it has none, and its time of use set |
| Limiter.RateLimiter.Handle | internal/httpmw/ratelimit.go:55-63 | one request is one step of the table specification, every kept bucket was seen within the TTL, and with the requests in clock order this one is let through exactly if it fits |
| LinkSteps.InvStep | internal/headscale/service.go:42-104 | every store access of every call, answered, lost or refused, keeps the two stores consistent |
| LinkTheorems.LinkForever | internal/headscale/service.go:67-104 | a link once written never changes and names the prefix followed by the user id, as does its Headscale user |
| LinkTheorems.OneHeadscaleUser | internal/headscale/service.go:80-104 | each of our users has at most one Headscale user and one link, and no two share a Headscale id |
| LinkTheorems.KeysAgree | internal/headscale/service.go:42-63 | all keys minted for a user, by whichever call, are bound to the same Headscale id, that of the user's link |
| LinkTheorems.Recovery | internal/headscale/service.go:67-104 | from any store that failures can leave, one undisturbed call succeeds if and only if the pair is linked or linkable; it reuses a Headscale user of that name and trips no index |
| LinkTheorems.FaultsExactly | internal/headscale/service.go:67-104 | the same for any pattern of refused and unanswered accesses: when the call gets its link, and exactly what it leaves in either store |
| LinkTheorems.UndisturbedCall | internal/headscale/service.go:42-104 | a call left alone in the step system ends in exactly the store and link of its specification |
| LinkTheorems.RecoveryAtHome | internal/headscale/service.go:67-104 | with one account per user, an undisturbed call succeeds from every reachable state |
| LinkTheorems.SecondAccountRefused | internal/db/migrations/sqlite/00005_headscale_links.sql:12 | without it, once a user is linked under one account no call under another ever gets a key |
| HeadscaleService.Service.FindUserByName | internal/headscale/client.go:52-63 | the scan returns the user of that name, and none only if there is none |
| HeadscaleService.Service.CreateUser | internal/headscale/client.go:66-76 | refuses a taken name, otherwise adds exactly that user |
| HeadscaleService.Service.GetLink | internal/headscale/bridge.go:30-44 | there is an answer exactly if the pair has a row; it is that row, it carries the user's name and its Headscale user exists |
| HeadscaleService.Service.CreateLink | internal/headscale/bridge.go:13-26 | inserts any link that the checks, the primary key, the unique index and the foreign keys let through; the stores stay consistent exactly if nothing was inserted or it is of the user's own Headscale user |
| HeadscaleService.Service.EnsureLink | internal/headscale/service.go:67-104 | leaves both stores and returns the link that the specification says, whichever accesses fail |
| HeadscaleService.Service.MintPreAuthKey | internal/headscale/service.go:42-63 | a key is bound to the link's id and is minted only after a link is in hand |
| Tenancy.TenantClosed | internal/auth/service.go:69-100 | the signup transaction keeps the tenancy invariant, takes no row back and makes the new user a member of the new account |
| Tenancy.OAuthTenantClosed | internal/auth/oauth_service.go:213-246 | so does the transaction of a first OAuth login; its new user is verified and owns the new identity, which was unknown before |
| Tenancy.ConsumeVTokenClosed | internal/auth/tokens.go:73-123 | consuming a verification token keeps the invariant; no token was ever consumed after its expiry |
| Tenancy.ClaimClosed | internal/devices/pairing.go:75-144 | the claim transaction keeps codes, devices and device tokens in one-to-one correspondence |
| Tenancy.AccountOfMember | internal/auth/service.go:166-171 | looking up a user's oldest membership finds the one account the user is a member of |
| Tenancy.OneAccount | internal/auth/service.go:90-97 | a user is a member of one account only |
| AuthInvariants.InvStep | internal/auth/service.go:54-251 | every step of every call keeps the tables closed, takes no row or mark back, and keeps true what each call in flight has read |
| AuthTheorems.RunGrows | internal/auth/sessions.go:77-84 | over a run rows keep their owners, and what is verified, consumed, revoked, deleted or ended stays so |
| AuthTheorems.TenancyClosure | internal/auth/tokenauth_middleware.go:21-55 | in every reachable state each user has exactly one membership, every (account, user) pair of sessions, tokens, codes and devices is one, an agent session's account is its device's, and every request runs as its user's one account on a device of both |
| AuthTheorems.HomeForever | internal/auth/service.go:166-171 | a user's account is the same at any two moments of a run |
| AuthTheorems.StableIdentity | internal/auth/oauth_service.go:168-247 | under every interleaving and whatever email is reported, (provider, subject) stands for one user and one account for ever, and at most one login reports it as created |
| AuthTheorems.LinkedIsNotCreated | internal/auth/oauth_service.go:186-202 | an identity that an email match linked is never reported as created |
| AuthTheorems.ConsumedRightly | internal/auth/tokens.go:82-119 | a token is consumed only when presented by its hash for its purpose, unconsumed and not after its expiry, and no other token changes |
| AuthTheorems.ConsumedOnce | internal/auth/tokens.go:99-101 | after a token was consumed every later attempt fails, for either purpose, and changes nothing |
| AuthTheorems.VerifiedExactly | internal/auth/service.go:125-131 | at every step of every run a user is verified if and only if OAuth created the user or a call that consumed an email_verify token of the user took its second statement |
| AuthHistory.PasswordExactly | internal/auth/service.go:238-251 | an existing user's password hash changes only at the second statement of a ResetPassword call that consumed a password_reset token of that user, and becomes the hash of that call |
| AuthHistory.ResetsRightly | internal/auth/service.go:238-251 | and that hash is the one the same call came with when it consumed the token |
| AuthTheorems.VerifiedOnlyBy | internal/auth/service.go:162-183 | sessions opened by Login belong to verified users; a verified user was created by OAuth or had an email_verify token consumed |
| AuthTheorems.LoginOpensVerified | internal/auth/service.go:162-183 | when a password login opens its session its user is verified |
| AuthTheorems.ProviderLoginVerifiedIff | internal/auth/oauth_service.go:57-105 | a provider login that created its user stands for a verified user; any other stands for one that is verified exactly as that history says |
| AuthTheorems.VerifyEmailCutOff | internal/auth/service.go:125-131 | cut off between its two statements, VerifyEmail leaves the token used up and the users as they were |
| AuthTheorems.OnlyLiveCredentials | internal/auth/tokenauth_middleware.go:21-55 | at every step of every run a request comes in exactly on a session or API token that is there, not revoked and not past expiry, and runs as the user, account and device that row names |
| AuthTheorems.RevokedForever | internal/auth/sessions.go:51-84 | no request ever comes in again on a revoked session or a revoked API token |
| AuthHistory.SessionsExactly | internal/auth/sessions.go:28-84 | a session is there exactly if a login opened it, and revoked exactly if a request that came in on it logged out |
| AuthHistory.LoggedOutForGood | internal/auth/sessions.go:51-84 | after a logout no request ever comes in on that session |
| AuthHistory.VTokensExactly | internal/auth/tokens.go:39-123 | a verification token is there exactly if it was mailed, and used up exactly if a call presented it for its purpose while it was live |
| AuthHistory.TokensExactly | internal/auth/apitokens.go:40-146 | an API token is there exactly if a request asked for it or it came with a claim, and revoked exactly if a request revoked it |
| AuthHistory.TokenRevokedForGood | internal/auth/apitokens.go:92-146 | after that no request ever comes in on the token |
| AuthHistory.DevicesExactly | internal/api/devices.go:136-150 | a device is there exactly if a claim made it, and deleted exactly if a request of its account deleted it |
| AuthHistory.CodesExactly | internal/devices/pairing.go:40-144 | a pair code is there exactly if a request made it, and used up exactly if a claim with it went through |
| AuthHistory.AgentsExactly | internal/api/sessions.go:31-125 | an agent session is there exactly if a device's request started it, and over exactly if that device ended it |
| AuthHistory.MintsExactly | internal/devices/pairing.go:146-154 | keys are asked for exactly for the account and user of a claim that went through |
| AuthOutcomes.LoginOutcome | internal/auth/service.go:147-164 | a login goes on exactly for a user with the email who is verified, has a hash and gave the right password |
| AuthOutcomes.ResetRequestOutcome | internal/auth/service.go:208-226 | a reset request finds exactly the user of the email, and ends quietly without one |
| AuthOutcomes.ConsumeOutcome | internal/auth/tokens.go:73-123 | a token is consumed exactly if it is live and presented for its purpose, and the call goes on for its user |
| AuthOutcomes.OAuthOutcome | internal/auth/oauth_service.go:168-185 | a provider's answer resolves to the user of a known identity, and is refused without email or subject |
| AuthOutcomes.LinkOutcome | internal/auth/oauth_service.go:186-202 | an identity is linked exactly if it is still unknown and its row id free |
| AuthOutcomes.CreateUserOutcome | internal/auth/oauth_service.go:203-246 | a verified user with a tenant is made exactly if identity, ids, email and slug are all free |
| AuthOutcomes.ResolveOutcome | internal/auth/service.go:166-171 | a login always finds the one account of its user |
| AuthOutcomes.BearerOutcome | internal/auth/tokenauth_middleware.go:23-37 | a request comes in on a signed text exactly if its session is live, as that session's user and account |
| AuthOutcomes.TokenOutcome | internal/auth/tokenauth_middleware.go:38-55 | a request comes in on an API token exactly if it is live, as its user, account and device |
| AuthOutcomes.FindAgentOutcome | internal/api/sessions.go:106-119 | an agent session may be ended exactly by the device that runs it |
| AuthOutcomes.FindDeviceOutcome | internal/api/devices.go:136-150 | a device may be deleted exactly by its account and not twice |
| AuthJourney.SignupJourney | internal/auth/service.go:54-131 | from every reachable state whoever comes with a free email and free ids can sign up and, with the mailed token in time, is verified |
| AuthJourney.LoginJourney | internal/auth/service.go:147-202 | from every reachable state a verified user with the right password gets a session, a signed text, and a request that runs as the user and account |
| AuthJourney.DeviceJourney | internal/devices/pairing.go:40-165 | whoever is let in can pair a device within five minutes of asking for a code, and the device gets in by its own token and runs agent sessions, all under that account and user |
| AuthTheorems.ClaimedOnce | internal/devices/pairing.go:81-112 | after a code was claimed every later claim of it fails and changes nothing |
| AuthTheorems.ClaimBijection | internal/devices/pairing.go:74-144 | in every reachable state consumed codes, devices and device-bound tokens correspond one to one, agree on account and user, are equally many, and no code was consumed after its expiry |
| AuthTheorems.MintsFollowHome | internal/devices/pairing.go:149-154 | whatever claims a run makes, the calls for keys keep each user under one account |
| AuthTheorems.ClaimedUsersGetLinks | internal/headscale/service.go:67-104 | after any run of claims and any run of linking over them, crashes included, an undisturbed call for a tenant of the tables gets its link |
| AuthRefinement.UndisturbedUpsert | internal/auth/oauth_service.go:168-247 | the steps of a provider login that nothing comes between reach exactly the tables, user, account and flag of the service's UpsertIdentity |
| AuthRefinement.ProviderSessionVerifiedIff | internal/auth/oauth_service.go:71-87 | the session that such a login then opens belongs to a verified user if and only if the login created the user or the user was verified before it |
| AuthRefinement.LinkedUnverifiedSession | internal/auth/oauth_service.go:186-202 | a login that an email match links to a user who is not verified opens a session for that user, who still is not |
| AuthSpec.ConsumeExactly | internal/auth/tokens.go:73-123 | a token may be consumed exactly if it is there under hash and purpose, unconsumed and not past its expiry; only a late one is reported as expired; nothing else changes |
| AuthSpec.AuthenticatedExactly | internal/auth/service.go:147-164 | a login is for the user with the email, a hash the password verifies against and the verified mark; only a right password without the mark is reported as unverified |
| AuthSpec.StoredPasswordLogsIn | internal/auth/password.go:28-83 | a user holding the stored hash of a password may log in with another exactly if verified and argon2 gives both the same key under the salt |
| AuthSpec.TenantExactly | internal/auth/service.go:69-100 | a tenant is created exactly if its ids, email and slug are free |
| AuthSpec.UpsertExactly | internal/auth/oauth_service.go:168-247 | the three ways of a provider's answer, with their conditions and every row they write |
| AuthSpec.UpsertLands | internal/auth/oauth_service.go:168-247 | an answer goes through exactly if it lands somewhere, and then at one user and one account |
| AuthSpec.SessionOpenedExactly | internal/auth/sessions.go:28-47 | when a session is opened and signed for, and that only its row is written |
| AuthSpec.SessionLives | internal/auth/sessions.go:28-74 | a session is active up to two seconds before its lifetime is over, for text keeps whole seconds, and never after it |
| AuthSpec.ExpiryLasts | internal/auth/tokens.go:50-64 | nothing lives longer than it was given, and less than two seconds shorter |
| AuthSpec.LookupExactly | internal/auth/apitokens.go:92-136 | a raw token is looked up exactly if a row of its hash is neither revoked nor past its expiry |
| AuthSpec.ContextExactly | internal/auth/tokenauth_middleware.go:18-61 | a header lets a request in exactly if it carries a live credential, and as exactly that row's user, account and device |
| AuthSpec.TrimSpaceIs | internal/auth/tokenauth_middleware.go:24-39 | what surrounds a credential is cut and nothing of it |
| AuthSpec.ClaimExactly | internal/devices/pairing.go:74-144 | a claim goes through exactly if its code is live and its ids and hash are new, and writes exactly its three rows |
| ClaimRace.ExclusiveOnlySerialised | internal/devices/pairing.go:103-112 | two claims of one code: serialised the second is refused; had it read the row before, it would succeed too and leave a second device on the code |
| AuthService.Service.Signup | internal/auth/service.go:54-123 | user, account and membership come together or not at all, the new user is unverified; the call succeeds if and only if the verification token can be stored as well, and if not the tenant stays |
| AuthService.Service.CreateVerificationToken | internal/auth/tokens.go:39-68 | one row under the token's hash, which lasts as long as it was given but for less than two seconds, or a refusal that changes nothing |
| AuthService.Service.ConsumeVerificationToken | internal/auth/tokens.go:73-123 | answers with the token exactly if it is live for the purpose, and uses up that row only; an error leaves the tables alone |
| AuthService.Service.VerifyEmail | internal/auth/service.go:125-131 | a live email_verify token is used up and its user, and no other, is marked verified |
| AuthService.Service.ResetPassword | internal/auth/service.go:238-251 | a live password_reset token is used up and its user's hash, and no other row, becomes the hash of the new password; an empty password is refused before |
| AuthService.Service.Login | internal/auth/service.go:147-202 | a session is opened exactly if some user with the email is verified and the password verifies against the user's hash, the lifetime is positive and the ids are given and fresh; it is one new row under the user's one account; which attempts are told to verify first and which are refused is exact too |
| AuthService.Service.OpenSession | internal/auth/sessions.go:28-47 | one session row with its expiry and one signed text naming it |
| AuthService.Service.UpsertIdentity | internal/auth/oauth_service.go:168-247 | a known identity stands for its user; an unknown one is linked to the user of its email, or made together with a new tenant in one transaction; the answer is the identity's owner and one account |
| AuthService.Service.FinishLogin | internal/auth/oauth_service.go:57-105 | goes through exactly if the answer lands at a user and the session can be opened and signed for; session and text are for the owner of the identity, `created` is true exactly if the call made it; a session that cannot be opened leaves what the upsert did |
| AuthService.Service.CheckSessionActive | internal/auth/sessions.go:51-74 | active if and only if there, not revoked and not past expiry |
| AuthService.Service.RevokeSession | internal/auth/sessions.go:77-84 | marks that row and nothing else; from here on the session is active at no time |
| AuthService.Service.CreateAPIToken | internal/auth/apitokens.go:40-87 | one row under the hash, for any account, user and device, if its ids are given and unused and its foreign keys exist; the tables stay closed exactly for a refusal or a member's token without a device |
| AuthService.Service.LookupAPIToken | internal/auth/apitokens.go:92-136 | the row of the hash if neither revoked nor past expiry |
| AuthService.Service.RevokeAPIToken | internal/auth/apitokens.go:139-146 | marks the token revoked and nothing else; from here on no lookup returns it at any time |
| AuthService.Service.RequireAuthOrToken | internal/auth/tokenauth_middleware.go:18-61 | the context the header stands for, or none; a request that gets through runs as its user's one account, on a device of both if on any |
| AuthService.Service.IssuePairCode | internal/devices/pairing.go:40-69 | the code drawn from the buffer, under the given account and user, live to the second for the given time or five minutes; the tables stay closed exactly for a refusal or a member |
| AuthService.Service.ClaimDevice | internal/devices/pairing.go:74-165 | failing before commit changes nothing, failing at minting keeps code, device and token; success ties all three to the code's account and user |
| AuthService.Service.CreateAgentSession | internal/api/sessions.go:31-58 | only a request from a device creates one, under that device and its account |
| AuthService.Service.OwnsAgentSession | internal/api/sessions.go:85-97 | the checks of the touch and end handlers amount to: the caller is the device that runs the session |
| AuthService.Service.EndAgentSession | internal/api/sessions.go:106-125 | ends the caller's own running session and nothing else |
| AuthService.Service.DeleteDevice | internal/api/devices.go:136-150 | marks a device of the caller's account deleted and nothing else |
| Idempotency.ReplayOnce | internal/httpmw/idempotency.go:39-76 | once an answer is stored, each later request with its key, scope and body hash before expiry gets that status and body without running the handler, and every other one gets its own handler's answer |
| Idempotency.AnsweredExactly | internal/httpmw/idempotency.go:39-76 | from an empty table, a keyed request whose lookup gets through is answered without its handler exactly from the first request under its key and scope with an answer of 200 to 299 that could be inserted, if that one had the same body hash and has not expired; every other request gets its own handler's answer |
| Idempotency.RowsAreFirsts | internal/httpmw/idempotency.go:63-73 | the table holds exactly the first such answer of each key and scope |
| Idempotency.RetrySeesTheSame | internal/httpmw/idempotency.go:39-76 | a retry before expiry sees what the first client saw if and only if the handler's last header carries the code of the call that fixed the status line |
| Idempotency.WriteOnce | internal/httpmw/idempotency.go:63-73 | a stored row is never overwritten or removed, even past its expiry |
| Idempotency.ReplayHasOrigin | internal/httpmw/idempotency.go:50-73 | every stored row is the captured answer of an earlier request under its key and scope |
| Idempotency.NoForeignAnswer | internal/httpmw/idempotency.go:50-60 | no request receives an answer made for another key, scope or body |
| Idempotency.AnsweredFromElsewhereIff | internal/httpmw/idempotency.go:50-73 | the method and path, which are stored, and the caller are not compared: an answer was made on another route or for another caller if and only if an earlier such request with the same key, scope and body is the one that serves it |
| IdempotencySteps.RowsWrittenOnce | internal/httpmw/idempotency.go:63-73 | with requests side by side, each step by step, a row is still never overwritten or removed |
| IdempotencySteps.OnlyOwnAnswers | internal/httpmw/idempotency.go:50-73 | in every interleaving a replayed answer is the 2xx that another request with the same key, scope and body hash captured from its handler |
| IdempotencySteps.AnsweredAfterInsert | internal/httpmw/idempotency.go:50-73 | once an insert put its row in, a lookup under its key and scope is answered from it exactly if it gets through, has the same body hash and comes before the expiry |
| IdempotencySteps.ReplayedIff | internal/httpmw/idempotency.go:50-73 | in every run a lookup is answered without running the handler if and only if it gets through and an earlier insert under the same key, scope and body hash put its row in and has not expired; rows are not replaced, so a slot held by another body or an expired row is never answered from again |
| IdempotencySteps.UndisturbedRequest | internal/httpmw/idempotency.go:30-76 | a request that no other comes between ends, step by step, in the rows and the answer of the sequential specification |
| Idempotency.CapturedIsSent | internal/httpmw/idempotency.go:78-92 | the captured status is the one on the wire if and only if no header was set or the last one carries the code of the call that fixed the status line |
| Idempotency.SecondHeaderIsCaptured | internal/httpmw/idempotency.go:84-87 | a header set after the status line was fixed, by a header or a write, does not reach the wire and is captured |
| Idempotency.BodyConcat | internal/httpmw/idempotency.go:89-92 | what is captured of two stretches of calls is what is captured of each, in order |
| Idempotency.BodyOfOne | internal/httpmw/idempotency.go:89-92 | a write is captured whole, a header leaves no body |
| Idempotency.CapturingWriter.Run | internal/httpmw/idempotency.go:78-92 | after any calls, `code` is the last header's or 200 and `buf` all that was written, in order |
| Idempotency.Middleware.Handle | internal/httpmw/idempotency.go:39-76 | one request leaves the table and gives the reply of the specification; the reply is the kept answer of the earlier request that answers for it, if there is one, and else the handler's own |
| TimeText.TextOrderIsTimeOrder | internal/httpmw/idempotency.go:50-57 | for instants of the years 0000 to 9999, comparing the stored texts is comparing whole seconds |
| TimeText.ParseFormat | internal/devices/pairing.go:93-99 | parsing a formatted instant returns it cut to the second |
| TimeText.FormatParse | internal/devices/pairing.go:93-99 | of the texts that parse, exactly those of nineteen characters with one blank are the ones printed for their instant |
| TimeText.ParseWritten | internal/devices/pairing.go:93-99 | a date, blanks, an hour of one or two digits and perhaps a fraction of a second parse, to the instant they name |
| TimeText.ParseShape | internal/devices/pairing.go:93-99 | no other text parses |
| TimeText.CivilOrder | internal/httpmw/idempotency.go:50-71 | calendar order is the order of seconds, and no second has two names |
| TimeText.YearStartClosed | internal/httpmw/idempotency.go:50-71 | the days before a year, counted year by year, are 365 a year and the Gregorian leap days |
| TimeText.SecondsClosed | internal/httpmw/idempotency.go:50-71 | the second a calendar name stands for, in closed form: leap years, month lengths and clock |
| TimeText.TextLayout | internal/devices/pairing.go:93-99 | the place and value of each of the nineteen characters of a stored instant |
| PasswordText.HashTextRoundTrip | internal/auth/password.go:38-76 | scanning a printed hash gives back version, costs, salt and key, for every salt and key |
| PasswordText.SixFields | internal/auth/password.go:39-54 | the printed text splits into exactly six fields |
| PasswordText.Base64RoundTrip | internal/auth/password.go:71-79 | decoding an unpadded base64 text gives the encoded bytes back |
| PasswordText.EncodeIsBase64 | internal/auth/password.go:38-43 | the encoding is that of section 4 of RFC 4648 without padding, symbol by symbol |
| PasswordText.PrintInjective | internal/auth/password.go:38-43 | no two hashes print alike |
| PasswordText.VerifyAcceptsExactly | internal/auth/password.go:28-83 | a password verifies against a hash exactly if argon2 gives both passwords the same key under its salt, so each verifies against its own |
| PasswordText.StoredHash | internal/auth/password.go:18-43 | the text a new hash is stored as, with the costs 65536, 3, 4 and a key of 32 bytes |
| PasswordText.VerifiedByItsOwnCosts | internal/auth/password.go:64-82 | a stored hash is verified under its own costs, salt and key length, whatever they are |
| Slug.Slugify | internal/auth/service.go:311-335 | the loop, the trim, the fallback and the suffix compute the specified slug |
| Slug.BaseIsJoinedWords | internal/auth/service.go:312-326 | loop and trim compute the name's words joined by single hyphens |
| Slug.OneCharacter | internal/auth/service.go:312-326 | between two runs of letters and digits a letter or digit stays, a space, hyphen or underscore becomes a hyphen, anything else is dropped |
| Slug.FixedPoints | internal/auth/service.go:312-326 | the normalisation leaves exactly the empty and the canonical texts alone, so it is idempotent |
| Slug.SlugCanonicalIff | internal/auth/service.go:311-335 | a slug matches [a-z0-9]+(-[a-z0-9]+)* if and only if the name leaves a base or the id has eight characters |
| Slug.SlugsEqualIff | internal/auth/service.go:326-334 | two slugs are equal exactly if the six-character id prefixes and the bases are, an empty base counting as its fallback |
| PairCode.RandomPairCode | internal/devices/pairing.go:167-177 | ten characters, each the symbol of the 32-symbol alphabet at its byte's remainder |
| PairCode.ExactlyUniform | internal/devices/pairing.go:19-25 | for every length n each of the 32^n codes has exactly 8^n preimages among the 256^n buffers |
| PairCode.IssuedIsCode | internal/devices/pairing.go:167-177 | whatever the buffer, the result is a code over the alphabet |

## Left out

- The limiter's float rounding, an infinite limit, and a clock read twice in one request (`get` and `Allow` share one reading); client address parsing.
- The hub's frame contents and JSON, heartbeat timing (a ping timeout is a socket closing at any time), and sockets beyond open and closed.
- Deletion of Headscale users, its normalisation of names, the lifetime of keys, gRPC and the supervisor.
- AuthTheorems.ConsumedRightly: compares with the clock reading of the call itself; readings of different calls need not agree.
- AuthTheorems.ClaimBijection: reads the clock once in a transaction; the source checks the expiry with one reading and stamps the consumption with a later one of the database, which may lie a second past the expiry. The same holds of Tenancy.ConsumeVTokenClosed and AuthTheorems.ConsumedRightly.
- Slug.SlugsEqualIff: does not claim that slugs are unique; ids made close in time share their first characters (section 5.7 of RFC 9562), and a taken slug fails the insert.
- Idempotency.ReplayOnce: speaks of requests one after another; for requests side by side see `IdempotencySteps`. Response headers are not kept.
- PasswordText.VerifyAcceptsExactly: leaves out white space that a scan of a hand-made text would skip; argon2's panic on zero rounds or lanes is an error value.
- AuthService.Service.CreateAPIToken: does not keep the tables closed for a token with a device, which would be a second one beside its claim's; no caller asks for one. Scope texts, names and last-use times are not kept.
- The lower-casing of names and emails, which come in already lowered.
- A bearer text's own expiry is an input of `RequireAuthOrToken`; signing and parsing are a table of the texts signed.
- `RequestPasswordReset` is a step of the auth system but not a method of the service; sending mail, the OAuth code exchange and its state table.
- Soft-deleted users and accounts (no code sets the mark), list endpoints, the admin API, blobs, device details, HTTP routing, JSON and status codes.
