# A verified model of the Warpgate operator

The operator keeps a Warpgate server in step with Kubernetes custom resources. Each controller
`Reconcile` is a sequence of API calls, any of which can be refused, fail, take effect without its
reply arriving, or never happen because the operator died; between any two calls somebody else can
edit the resource, rotate a Secret, or change records on the server. This project models that
shared world and proves what the controllers keep in every run, how soon they converge when left
alone, and exactly where their guarantees end.

## How it is organised

- `Base`, `Client`, `Kube`, `Text`: identifiers and conditions; which error an exchange with the
  server becomes; a custom resource with optimistic locking; decimal text.
- `Passes`: runs as folds over a step function, and passes as runs, once for all state machines.
- `Password*`, `SecretWatch`: the password rotation protocol.
- `Lifecycle*`, `Kinds`: the create/update/recreate/finalize protocol shared by roles, target
  groups, targets and public keys, generic in how the request is built.
- `Targets`, `TargetBlocking`, `TargetConvergence`, `TargetRounds`: the graph of targets, jump hosts
  and groups.
- `Ticket*`, `User*`: the two remaining state machines, with their Secrets.
- `Routes`, `RouteRuns`, `RouteHistory`: HTTPRoute discovery.
- `Scope`: the watched namespaces. `Conditions`: hand-written condition lists.
- `Instance`, `InstanceReading`, `InstanceMeaning`, `InstanceValidation`, `Rollout`, `YamlQuote`:
  what defaulting, accessors and built objects come to, field by field; webhook defaulting and
  validation against the controller's own accessors; the rollout hash; the database URL line.
- `RandomPassword`: the generated password.

The controllers appear twice. A `World` with a `Flight` (the call the pass under way makes next, and
its local variables) gives one step per API call, so that runs interleave freely; theorems are about
`Exec`, the fold of that step over any sequence of actions. A class with the same state as fields
has `Reconcile` written as the source writes it, call after call with early returns; its `ensures`
says that it does exactly what the state machine does (`Pass`), whatever others do before each call
and whatever becomes of it, and `PassIsRun` makes every pass a run. `made` and `lost` are
bookkeeping that no code reads. The `Outcomes` modules say of each call, for every fault, what it
leads to, and over runs what a stored status proves about the pass that stored it.

Assumptions: reads are linearizable, each object has one worker, ids handed out by the server are
fresh and not empty, a PUT replaces the record, and the server answers 404 only for a record that is
absent. A fault of a call is one of: served, login failed, request never sent, reply lost, refused.

## Model

| member | source | states |
|---|---|---|
| Client.ApiClient.Login | internal/warpgate/client.go:108-138 | the session is kept when there is one, opened on any status below 400, and otherwise reported as exactly the API error or a transport error |
| Client.ApiClient.DoRequest | internal/warpgate/client.go:140-174 | a failed login is wrapped, so its status never surfaces as an API error of the request |
| Client.ApiClient.Do | internal/warpgate/client.go:176-202 | the error of one exchange for every login and reply: API error from 400 up, other errors otherwise |
| Client.CallErrorIff | internal/warpgate/client.go:140-202 | a call succeeds if and only if, with a session, it is answered below 400 and decodes; an API error is exactly an answer from 400 up within a session |
| Client.NotFoundIsAuthenticated | internal/warpgate/client.go:140-143 | a 404 is seen if and only if an authenticated request was answered 404; a 404 from login never counts |
| Client.DeleteSettled | internal/warpgate/client.go:225-228 | with an honest server, "no error or not found" means exactly that the server served the delete |
| PasswordSafety.VersionInjective | internal/controller/warpgatepasswordcredential_controller.go:222-225 | among revisions of Secrets with valid names and keys, equal version texts mean the same name, key and revision, hence the same password |
| PasswordSafety.RunKeeps | internal/controller/warpgatepasswordcredential_controller.go:57-220 | the invariant behind all run theorems survives every step of every run with a stable user: any interleaving, fault, crash, rotation |
| PasswordRuns.LiveCredentialsAreAccounted | internal/controller/warpgatepasswordcredential_controller.go:163-217 | after any run, each live credential ever created is the one in the stored status or was lost (or the pass still holds it); after finalization only lost ones remain |
| PasswordRuns.LostAreLosses | internal/controller/warpgatepasswordcredential_controller.go:182-217 | the lost ones number at most the lost create replies, crashes and status writes that did not land |
| PasswordRuns.CreateComesLast | internal/controller/warpgatepasswordcredential_controller.go:147-186 | whenever a create is about to be issued the finalizer is stored and the credential recorded before is no longer in Warpgate |
| PasswordRuns.FinalizerOutlivesCredential | internal/controller/warpgatepasswordcredential_controller.go:79-103 | only a marked resource whose recorded credential is gone ever loses its finalizer |
| PasswordRuns.ReleaseNeedsServedDelete | internal/controller/warpgatepasswordcredential_controller.go:80-94 | finalization passes the delete if and only if the server served it |
| PasswordRuns.FinalizerDropsAfterServedDelete | internal/controller/warpgatepasswordcredential_controller.go:79-103 | in every run: when a resource with a recorded credential loses its finalizer, the server has served that very delete at an earlier step |
| PasswordRuns.RecordedHasOwner | internal/controller/warpgatepasswordcredential_controller.go:80-94 | in every run a stored credential id comes with the stored user id, so finalization never skips it |
| PasswordRuns.ReadyMeansThisRevision | internal/controller/warpgatepasswordcredential_controller.go:140-217 | a pass that saves Ready leaves the version text of exactly the revision it read, and the recorded credential was created from that revision's password |
| PasswordReconciler.Controller.Reconcile | internal/controller/warpgatepasswordcredential_controller.go:57-220 | the code, with anybody acting before each call and any fault, does exactly what the state machine does |
| PasswordReconciler.PassIsRun | internal/controller/warpgatepasswordcredential_controller.go:57-220 | every pass is a run, so all run theorems hold of passes |
| PasswordProgress.OneQuietPassSyncs | internal/controller/warpgatepasswordcredential_controller.go:105-217 | from any state a run can leave, one undisturbed pass ends Ready for exactly the current Secret revision |
| PasswordProgress.QuietPassUsesKey | internal/controller/warpgatepasswordcredential_controller.go:140-157 | the password that arrives is the value under the key the spec names, or under "password" if it names none; without one the pass says SecretKeyMissing and leaves Warpgate alone |
| PasswordLimits.CalmPassIs | internal/controller/warpgatepasswordcredential_controller.go:105-217 | what an undisturbed pass leaves of any world in which the user exists, with or without a readable Secret, stated as one update |
| PasswordLimits.MovedCredentialRemovedIff | internal/controller/warpgatepasswordcredential_controller.go:115-165 | when the username has come to mean another user, a pass removes the old user's credential if and only if it can read its Secret; the owner is overwritten either way |
| PasswordLimits.MovedUserLeaksIff | internal/controller/warpgatepasswordcredential_controller.go:79-146 | after that pass, deleting the resource leaves the old credential live and unrecorded if and only if Secret or key was missing |
| PasswordLimits.MovedRotationStrandsIff | internal/controller/warpgatepasswordcredential_controller.go:147-165 | with a readable Secret and a delete that is not served, the credential stays recorded under the wrong user, live if and only if the call took no effect |
| PasswordLimits.ReadyMeansPresentIff | internal/controller/warpgatepasswordcredential_controller.go:140-217 | after a Ready pass the stored credential exists if and only if it did before, or none was recorded, or the version or the user differs |
| PasswordOutcomes.ResolveOutcome | internal/controller/warpgatepasswordcredential_controller.go:105-120 | the pass goes on, with the user found, if and only if the lookup is served and finds one |
| PasswordOutcomes.ReadOutcome | internal/controller/warpgatepasswordcredential_controller.go:122-187 | for every fault: what is read is the present value under the asked-for key; when a credential is created, replaced, or found in sync |
| PasswordOutcomes.RemoveOutcome | internal/controller/warpgatepasswordcredential_controller.go:163-186 | a new credential is created only past a served delete; every other outcome is RotateFailed |
| PasswordOutcomes.CreateOutcome | internal/controller/warpgatepasswordcredential_controller.go:188-205 | Ready with the new id and the version read if and only if the create is served for an existing user |
| PasswordOutcomes.NotedIff | internal/controller/warpgatepasswordcredential_controller.go:64-202 | a call leads to a stored reason if and only if its outcome is what the reason stands for, reason by reason |
| PasswordOutcomes.FailureWasSeen | internal/controller/warpgatepasswordcredential_controller.go:64-202 | in every run, whoever interferes: a stored failure is explained by the last call of the pass that stored it |
| PasswordOutcomes.ReadyWasEarned | internal/controller/warpgatepasswordcredential_controller.go:105-217 | in every run, even if the username moves: behind a stored Ready there is one pass that read the asked-for key and either had the credential created from it or found the stored one of that very revision and user |
| SecretWatch.CredentialsForSecret | internal/controller/warpgatepasswordcredential_controller.go:229-244 | the loop yields, in order, the credentials that name the Secret, and none when the list call fails |
| SecretWatch.ReadersAreAll | internal/controller/warpgatepasswordcredential_controller.go:236-242 | a resource is woken up if and only if its spec names the Secret |
| SecretWatch.OthersReadTheSame | internal/controller/warpgatepasswordcredential_controller.go:237-241 | those not woken up would read the same before and after the Secret changed |
| SecretWatch.RotationArrives | internal/controller/warpgatepasswordcredential_controller.go:246-254 | after any run, a rotation wakes the reader, and one undisturbed pass leaves it Ready for exactly the new revision |
| LifecycleSafety.RunKeeps | internal/controller/warpgaterole_controller.go:51-167 | the shared invariant survives every step of every run, for each kind whose records live under one owner |
| Kinds.KindsAreSteady | internal/controller/warpgatepublickeycredential_controller.go:101-115 | roles and groups need no hypothesis for it; public keys need exactly that their usernames keep meaning one user |
| Kinds.KeyBuiltIff | internal/controller/warpgatepublickeycredential_controller.go:101-120 | a key is requested if and only if the user lookup is served and finds one, for that user, with label and text of the spec |
| Kinds.PlainRequests | internal/controller/warpgatetargetgroup_controller.go:101-106 | roles and groups are requested without lookups, field by field from the spec |
| LifecycleRuns.LiveRecordsAreAccounted | internal/controller/warpgatetargetgroup_controller.go:107-165 | a live record ever created is stored, lost, or held by the pass; after finalization only lost ones remain |
| LifecycleRuns.LostAreLosses | internal/controller/warpgaterole_controller.go:107-165 | lost records number at most the lost create replies, crashes and status writes that did not land |
| LifecycleRuns.LostAreUnrecorded | internal/controller/warpgaterole_controller.go:107-165 | in every run no id a status or the pass still names is among the lost |
| LifecycleRuns.CreateComesAfterFinalizer | internal/controller/warpgaterole_controller.go:93-109 | in every run a create is issued only with the finalizer stored and no record recorded |
| LifecycleRuns.ReleaseNeedsServedDelete | internal/controller/warpgaterole_controller.go:76-91 | finalization passes the delete if and only if the server served it |
| LifecycleRuns.FinalizerDropsAfterServedDelete | internal/controller/warpgaterole_controller.go:75-99 | in every run: when a resource with a recorded id loses its finalizer, the server has served that very delete at an earlier step |
| LifecycleRuns.FinalizerOutlivesRecord | internal/controller/warpgatepublickeycredential_controller.go:75-91 | only a marked resource whose recorded record is gone ever loses its finalizer |
| LifecycleOutcomes.CreateOutcome | internal/controller/warpgaterole_controller.go:107-127 | for every fault: Ready with the new id if and only if the create is served, else CreateFailed |
| LifecycleOutcomes.UpdateOutcome | internal/controller/warpgaterole_controller.go:128-152 | for every fault: Ready if and only if served and there, id dropped if and only if served and absent, else UpdateFailed with the id kept; the record changes exactly when the request arrives and it is there |
| LifecycleOutcomes.DeleteOutcome | internal/controller/warpgaterole_controller.go:79-85 | the record goes exactly when the request arrives and it is there; the pass goes on if and only if the delete is served |
| LifecycleOutcomes.NotedIff | internal/controller/warpgatepublickeycredential_controller.go:60-160 | a call leads to a stored reason if and only if its outcome is what the reason stands for |
| LifecycleOutcomes.FailureWasSeen | internal/controller/warpgatetarget_controller.go:61-134 | in every run: a stored failure is explained by the last call of the pass that stored it |
| LifecycleOutcomes.ReadyWasServed | internal/controller/warpgaterole_controller.go:107-164 | in every run: a stored Ready was stored by a pass whose last call was a served create or update of that very record, sending what the lookups yielded for the spec it had read |
| LifecycleReconciler.Controller.Reconcile | internal/controller/warpgaterole_controller.go:51-167 | the stepwise code equals the state machine, for every kind |
| LifecycleReconciler.PassIsRun | internal/controller/warpgaterole_controller.go:51-167 | every pass of a role, group, target or public key is a run |
| LifecycleProgress.CalmPassIsQuiet | internal/controller/warpgaterole_controller.go:93-167 | what an undisturbed pass over a live resource leaves, stated as one update of the world |
| LifecycleProgress.CalmPassApproaches | internal/controller/warpgaterole_controller.go:107-152 | each undisturbed pass with a buildable request strictly lowers a measure, and at zero changes nothing |
| LifecycleProgress.TwoPassesConverge | internal/controller/warpgaterole_controller.go:107-152 | from every stored status, stale ids included, two passes reach a fixed point whose record equals the request |
| Kinds.RoleConverges | internal/controller/warpgaterole_controller.go:107-152 | two passes and the role carries its spec's name, description and default flag, for good |
| Kinds.GroupConverges | internal/controller/warpgatetargetgroup_controller.go:107-152 | two passes and the group carries its spec, for good |
| Kinds.PublicKeyConverges | internal/controller/warpgatepublickeycredential_controller.go:122-167 | two passes and the key lives under the current user with the spec's label and text, for good |
| Kinds.KeyIsKeptIff | internal/controller/warpgatepublickeycredential_controller.go:101-167 | a pass over a live recorded key keeps its id under its user if and only if the username still means that user; the key stays live in any case |
| Kinds.KeyIsKeptByUpdateIff | internal/controller/warpgatepublickeycredential_controller.go:135-167 | the same for the update call with any fault, if the status write after it lands |
| Kinds.MovedUserLeaksKeyIff | internal/controller/warpgatepublickeycredential_controller.go:75-167 | after that pass, deleting the resource leaves the key live and unrecorded if and only if the username had come to mean another user |
| Targets.BuiltRequestCarriesSpec | internal/controller/warpgatetarget_controller.go:146-410 | a request carries every field of the spec and of its protocol block, of all seven protocols: defaults, TLS settings, ids as stored, and from the Secrets the value under the key named, or under the default one |
| Targets.RequestBuiltIff | internal/controller/warpgatetarget_controller.go:146-238 | a request is built if and only if its reads succeed, a protocol is given, every Secret it asks for has the key named or the default one, and group and jump host have ids |
| Targets.OnlyNeedsAreRead | internal/controller/warpgatetarget_controller.go:214-410 | the options depend on no other Secret value: the same for any Secrets that agree on those |
| TargetBlocking.ClosedSetNeverCreated | internal/controller/warpgatetarget_controller.go:94-114 | SSH targets without ids whose jump hosts stay inside their set have nothing created for them and are never Ready, in any interleaving of all controllers with any faults, whatever was created for them before |
| TargetConvergence.DistanceFalls | internal/controller/warpgatetarget_controller.go:104-135 | visiting any resource takes no other one further from its request and brings its own nearer, while its request stays the same |
| TargetRounds.RoundsConverge | internal/controller/warpgatetarget_controller.go:94-144 | from any stored statuses with no live id shared, after 2 + 2d rounds in any order every sound target less than d jumps deep is live and Ready, its record carrying the spec and the ids its group and jump host have then; longer runs keep it so |
| TargetRounds.DoneIsFixed | internal/controller/warpgatetarget_controller.go:104-143 | a further visit to any target or group that is done writes nothing at all, whatever the rest is up to |
| TargetRounds.OtherwiseStuck | internal/controller/warpgatetarget_controller.go:200-238 | a target at no depth is unsound itself or hangs on a missing target or on another one at no depth |
| TargetRounds.SharedRecordNeverSettles | internal/controller/warpgatetarget_controller.go:115-135 | why live ids must not be shared: two targets with different requests on one record are never both in sync |
| Ticket.UpdateAdmittedIffUnchanged | api/v1alpha1/warpgateticket_webhook.go:56-61 | an update is admitted if and only if all six spec fields are as they were |
| Ticket.CreateAdmittedIff | api/v1alpha1/warpgateticket_webhook.go:68-81 | a new ticket is admitted if and only if its connection is named and its uses are absent or at least 1; it warns exactly when neither user nor target is given |
| Ticket.AdmittedIff | api/v1alpha1/warpgateticket_webhook.go:50-66 | deletions always pass; a creation or a change reaches the stored object if and only if the webhook admits it |
| TicketRuns.RecordIsForGood | internal/controller/warpgateticket_controller.go:118-140 | while the resource exists its spec never changes, and a stored ticket id, with or without its Secret, never changes |
| TicketRuns.TicketMatchesSpec | internal/controller/warpgateticket_controller.go:119-140 | the recorded ticket was requested with username, target, expiry, uses and description of the spec; uses are absent or positive |
| TicketRuns.CreatesAreFew | internal/controller/warpgateticket_controller.go:119-184 | made minus lost minus known tickets is conserved, so tickets created number at most one plus those lost |
| TicketRuns.TicketLife | internal/controller/warpgateticket_controller.go:119-184 | both of the above from any start, over any stretch in which the resource exists |
| TicketRuns.LostHow | internal/controller/warpgateticket_controller.go:127-184 | a ticket is lost only by a lost reply, a crash, or a status write that did not land, one at a time |
| TicketRuns.LiveTicketsAreAccounted | internal/controller/warpgateticket_controller.go:79-108 | a live ticket ever created is stored, lost, or held by the pass; after finalization only lost ones remain |
| TicketRuns.CreateComesOnce | internal/controller/warpgateticket_controller.go:110-127 | a create is issued only with the finalizer stored and no ticket recorded |
| TicketRuns.ReleaseNeedsServedDelete | internal/controller/warpgateticket_controller.go:81-87 | finalization passes the delete if and only if the server served it |
| TicketRuns.FinalizerDropsAfterServedDelete | internal/controller/warpgateticket_controller.go:79-108 | in every run: when a resource with a recorded ticket loses its finalizer, the server has served that very delete at an earlier step |
| TicketRuns.FinalizerOutlivesTicket | internal/controller/warpgateticket_controller.go:79-108 | only a marked resource whose recorded ticket is gone ever loses its finalizer |
| TicketSecrets.SecretRecordedIff | internal/controller/warpgateticket_controller.go:143-184 | for any outcome of the call for the Secret and any status write that lands: the ticket is stored, and Ready with its Secret recorded if and only if that call was served and no Secret was there; then the Secret holds the value |
| TicketSecrets.StoredSecretIff | internal/controller/warpgateticket_controller.go:119-184 | in every run a stored ticket went through exactly one such call, and its Secret is recorded if and only if that call created it |
| TicketSecrets.SecretFate | internal/controller/warpgateticket_controller.go:158-168 | once that call has failed, no run after it ever records the Secret of that ticket |
| TicketSecrets.NextPassIsReady | internal/controller/warpgateticket_controller.go:119-187 | yet the next undisturbed pass reports every recorded ticket Ready and changes nothing else |
| TicketOutcomes.CreateOutcome | internal/controller/warpgateticket_controller.go:119-141 | for every fault: the pass goes on if and only if the create is served; a ticket made carries the five fields of the spec |
| TicketOutcomes.StoreOutcome | internal/controller/warpgateticket_controller.go:143-171 | for every fault: Ready if and only if the Secret was created by this call, else SecretCreateFailed with the ticket id kept |
| TicketOutcomes.DeleteOutcome | internal/controller/warpgateticket_controller.go:79-88 | finalization goes on past a served delete, to the Secret if one is recorded |
| TicketOutcomes.DropOutcome | internal/controller/warpgateticket_controller.go:88-100 | a Secret that cannot be read is left, one that can be read must be deleted first |
| TicketOutcomes.ReleaseOutcome | internal/controller/warpgateticket_controller.go:103-107 | the marked resource is gone if and only if the finalizer write lands, its reply lost or not |
| TicketOutcomes.NotedIff | internal/controller/warpgateticket_controller.go:61-171 | a call leads to a stored reason if and only if its outcome is what the reason stands for |
| TicketOutcomes.FailureWasSeen | internal/controller/warpgateticket_controller.go:61-171 | in every run: a stored failure is explained by the last call of the pass that stored it |
| TicketOutcomes.ReadyWasEarned | internal/controller/warpgateticket_controller.go:119-184 | in every run: behind a stored Ready there is a pass that found a ticket recorded, or had one created from the spec and then its Secret |
| TicketReconciler.Controller.Reconcile | internal/controller/warpgateticket_controller.go:54-187 | the stepwise code equals the state machine |
| TicketReconciler.PassIsRun | internal/controller/warpgateticket_controller.go:54-187 | every pass is a run |
| UserRuns.RunKeeps | internal/controller/warpgateuser_controller.go:56-203 | the invariant survives every step of every run |
| UserRuns.LiveUsersAreAccounted | internal/controller/warpgateuser_controller.go:123-200 | a live user ever created is stored, lost, or held by the pass; after finalization only lost ones remain |
| UserRuns.LostHow | internal/controller/warpgateuser_controller.go:181-200 | a user is lost only by a lost reply, a crash, a status write that did not land, or a Secret that could not be created |
| UserRuns.LostAreUnrecorded | internal/controller/warpgateuser_controller.go:123-200 | in every run no user id a status or the pass still names is among the lost |
| UserRuns.CreateComesAfterFinalizer | internal/controller/warpgateuser_controller.go:115-129 | users and credentials are created only with the finalizer stored, a user only when none is recorded |
| UserRuns.RemovalsNeedServedDeletes | internal/controller/warpgateuser_controller.go:83-106 | finalization passes each delete if and only if the server served it |
| UserRuns.FinalizerDropsAfterServedDeletes | internal/controller/warpgateuser_controller.go:80-113 | in every run: when a resource with a recorded user loses its finalizer, the server has served the delete of that user, and of the recorded credential, at earlier steps |
| UserRuns.FinalizerOutlivesUser | internal/controller/warpgateuser_controller.go:80-113 | only a marked resource whose recorded user is gone, with its recorded credential, ever loses its finalizer |
| UserRuns.SecretFailureForgetsIff | internal/controller/warpgateuser_controller.go:272-281 | the call for the Secret forgets the user made in that pass if and only if it is not served; user and credential stay behind |
| UserRuns.RecordedSecretMatchesIff | internal/controller/warpgateuser_controller.go:272-281 | the recorded Secret holds the generated password if and only if there was none before, or that very one |
| UserOutcomes.CreateOutcome | internal/controller/warpgateuser_controller.go:123-144 | for every fault: a create sends username and description and leaves default limits; the pass goes on if and only if it is served |
| UserOutcomes.UpdateOutcome | internal/controller/warpgateuser_controller.go:144-179 | for every fault: an update sends username, description and limits; id dropped if and only if served and absent, else UpdateFailed with the id kept |
| UserOutcomes.GenerateOutcome | internal/controller/warpgateuser_controller.go:236-248 | a credential is made for the user at hand; a missing user or any fault is PasswordCredentialFailed |
| UserOutcomes.StoreOutcome | internal/controller/warpgateuser_controller.go:272-281 | Ready if and only if the Secret call is served; an existing Secret stays as it is |
| UserOutcomes.RemoveOutcome | internal/controller/warpgateuser_controller.go:80-113 | credential, Secret, user are removed in this order, each past the one before |
| UserOutcomes.RemoveEffects | internal/controller/warpgateuser_controller.go:83-106 | what goes from Warpgate: exactly the recorded credential, or the user with all its credentials, and only if the request arrives |
| UserOutcomes.NotedIff | internal/controller/warpgateuser_controller.go:63-248 | a call leads to a stored reason if and only if its outcome is what the reason stands for |
| UserOutcomes.FailureWasSeen | internal/controller/warpgateuser_controller.go:63-248 | in every run: a stored failure is explained by the last call of the pass that stored it |
| UserOutcomes.ReadyWasEarned | internal/controller/warpgateuser_controller.go:123-200 | in every run: behind a stored Ready there is one pass for which the server made or updated the recorded user, with the Secret call served unless no password was due |
| UserPasswords.LivePasswordsAreAccounted | internal/controller/warpgateuser_controller.go:223-283 | a live generated credential is stored, stray, or held by the pass, stray meaning a lost create reply, a crash, a Secret not created or a status write that did not land; after finalization only stray ones remain |
| UserReconciler.Controller.Reconcile | internal/controller/warpgateuser_controller.go:56-203 | the stepwise code equals the state machine |
| UserReconciler.Controller.EnsurePasswordCredential | internal/controller/warpgateuser_controller.go:223-283 | so does the part that creates credential and Secret |
| UserReconciler.PassIsRun | internal/controller/warpgateuser_controller.go:56-203 | every pass is a run |
| UserProgress.CalmPassIsQuiet | internal/controller/warpgateuser_controller.go:115-200 | what an undisturbed pass leaves, stated as one update of the world |
| UserProgress.ThreePassesConverge | internal/controller/warpgateuser_controller.go:123-179 | from every stored status, stale ids included, three passes reach a fixed point in which the user has username, description and limits of the spec |
| UserProgress.TwoPassesSufficeIff | internal/controller/warpgateuser_controller.go:123-179 | two passes reach it if and only if the recorded user exists, or none is recorded, or the spec asks for no more than a create sends |
| UserProgress.PasswordWorksIff | internal/controller/warpgateuser_controller.go:123-200 | after three passes the recorded credential is live under the recorded user if and only if it was before, or a password is to be generated and none was recorded |
| Routes.ManagedTargetName | internal/controller/httproute_watcher_controller.go:203-211 | at most 63 characters |
| Routes.ManagedTargetNameCollides | internal/controller/httproute_watcher_controller.go:203-211 | two routes get one name if and only if they are equal or both full names have 63 characters or more and share the first 63 |
| Routes.HTTPRouteWatcherReconciler.Reconcile | internal/controller/httproute_watcher_controller.go:70-145 | the stepwise code against the specification of a pass, with any call failing or losing its reply |
| Routes.HTTPRouteWatcherReconciler.DeleteManaged | internal/controller/httproute_watcher_controller.go:175-188 | deletes only a labelled target |
| RouteRuns.PassSettles | internal/controller/httproute_watcher_controller.go:110-145 | a pass changes its own target only, and without API error leaves it as the route asks |
| RouteRuns.RunsCorrespond | internal/controller/httproute_watcher_controller.go:70-188 | over every allowed run, once every route is settled: wanted routes and live targets agree one to one if and only if no route that lost its hostnames still has a target; a further pass issues no write |
| RouteHistory.TargetIffLastSawWanted | internal/controller/httproute_watcher_controller.go:70-188 | in every allowed run a route has a live target if and only if the last pass over it that got as far as deciding saw it wanted |
| RouteHistory.RunsCorrespondIff | internal/controller/httproute_watcher_controller.go:99-104 | once all is settled, targets and wanted routes agree if and only if no route now without hostname was wanted at its last deciding pass |
| RouteHistory.HostlessPassStops | internal/controller/httproute_watcher_controller.go:94-104 | a pass over a managed route without hostname writes nothing, whatever targets exist |
| RouteHistory.PassWrites | internal/controller/httproute_watcher_controller.go:88-188 | a pass marks its target for deletion exactly if labelled and unwanted; anything else it writes has name, URL of the first hostname, host, connection, description and labels as the route says; no other target is touched |
| RouteHistory.PassKeepsAnnotations | internal/controller/httproute_watcher_controller.go:131-142 | no pass changes the annotations of a target that exists, rewrites included |
| RouteHistory.GroupIsThatOfCreation | internal/controller/httproute_watcher_controller.go:117-142 | in every allowed run a live target names the group its route had when the target was created, so the present group if and only if that is the same |
| RouteRuns.HalfDeletedTargetMissed | internal/controller/httproute_watcher_controller.go:110-145 | why deletions must complete first: a pass takes a half-deleted target for the real one |
| RouteRuns.CollidingRoutesShareOneTarget | internal/controller/httproute_watcher_controller.go:203-211 | why names must not collide: two such routes are never both served |
| Scope.Parse | internal/scope/namespaces.go:50-65 | the loop yields the trimmed nonempty pieces in order; only a bad selector is an error |
| Scope.NamesAreNames | internal/scope/namespaces.go:52-56 | every parsed name is trimmed, nonempty and comma-free |
| Scope.ParseOfJoin | internal/scope/namespaces.go:52-56 | parsing any comma-joined list of such names gives the list back |
| Scope.ParseOfPieces | internal/scope/namespaces.go:52-56 | comma-joined pieces, each a name or nothing with any spaces around it, yield the names in order |
| Scope.SpacesAre | internal/scope/namespaces.go:53-53 | what is trimmed are the characters of Unicode's White_Space property |
| Scope.ParseJoinParse | internal/scope/namespaces.go:52-56 | parse-join-parse equals parse, for every input |
| Scope.SortOrdered | internal/scope/namespaces.go:84-84 | sorting yields an ordered permutation |
| Scope.Resolve | internal/scope/namespaces.go:73-86 | the strictly sorted list of exactly the names and the selected namespaces, or the list error |
| Scope.ResolvedBySet | internal/scope/namespaces.go:84-85 | the result equals a strictly sorted list if and only if the sets are equal: order and repetition do not matter |
| Scope.CacheNamespaces | internal/scope/namespaces.go:90-106 | nothing when neither names nor selector are set, an error when the list fails or the set is empty, else a map over exactly the set |
| Scope.Watcher.Start | internal/scope/namespaces.go:123-141 | stops with the change exactly at the first successful poll whose set differs; failed polls never stop it |
| Conditions.Binding.SetCondition | internal/controller/warpgateuserrole_controller.go:159-181 | the loop over the slice against its specification |
| Conditions.ReadyTracksCalls | internal/controller/warpgatetargetrole_controller.go:144-166 | over any sequence of calls: one Ready entry, latest fields, time of the last flip, all other entries in place |
| InstanceMeaning.DefaultIsIdempotent | api/v1alpha1/warpgateinstance_webhook.go:54-158 | defaulting twice is defaulting once |
| InstanceReading.DefaultFills | api/v1alpha1/warpgateinstance_webhook.go:54-158 | a field that is given stays, one that is not gets its default, listener by listener |
| InstanceReading.DefaultCreates | api/v1alpha1/warpgateinstance_webhook.go:62-137 | absent http, storage and tls blocks are created; in given ones only the gaps are filled |
| Instance.WarpgateInstance.Default | api/v1alpha1/warpgateinstance_webhook.go:54-158 | the in-place method against the function of the old spec |
| InstanceMeaning.ImageKeptIff | internal/controller/warpgateinstance_controller.go:184-193 | the image is the same before and after if and only if it is set, or the version is empty or starts with "v" |
| InstanceMeaning.KubernetesAndTlsKeptIff | internal/controller/warpgateinstance_controller.go:265-292 | the Kubernetes port is kept if and only if the block is absent or has one, cert-manager if and only if it is set |
| InstanceMeaning.OtherAccessorsKept | internal/controller/warpgateinstance_controller.go:195-348 | every other accessor is the same for every spec |
| InstanceReading.SwitchesRead | internal/controller/warpgateinstance_controller.go:202-303 | each switch is on if and only if the spec says so, or does not say otherwise, in raw fields |
| InstanceReading.ValuesRead | internal/controller/warpgateinstance_controller.go:184-312 | ports, replicas, storage size, password key and image in raw fields |
| InstanceReading.DatabaseRead | internal/controller/warpgateinstance_controller.go:314-345 | a named Secret goes before the plain URL |
| InstanceMeaning.ConfigKeptIff | internal/controller/warpgateinstance_controller.go:407-480 | the generated file is the same if and only if no enabled Kubernetes listener lacks a port |
| InstanceReading.ConfigReads | internal/controller/warpgateinstance_controller.go:407-480 | the generated file line by line: the sqlite line if and only if no external database, each listener with its switch, port and certificate, then host and backend |
| InstanceMeaning.HashedTextKeptIff | internal/controller/warpgateinstance_controller.go:360-379 | the hashed text is the same if and only if image and Kubernetes port agree |
| InstanceReading.HostShows | internal/controller/warpgateinstance_controller.go:371-371 | a changed external host always changes the hashed text |
| InstanceReading.OverrideShows | internal/controller/warpgateinstance_controller.go:372-372 | so does a changed override |
| InstanceReading.KeysShow | internal/controller/warpgateinstance_controller.go:377-377 | so does another SSH key Secret |
| InstanceReading.DatabaseURLShows | internal/controller/warpgateinstance_controller.go:373-405 | a changed URL shows exactly as far as its fingerprint does |
| InstanceReading.DatabaseRefShows | internal/controller/warpgateinstance_controller.go:374-376 | another URL Secret or key shows unless name, slash and key read the same |
| InstanceMeaning.PodsKeptIff | internal/controller/warpgateinstance_controller.go:573-931 | the pods apart from the hash are the same if and only if image, port of an enabled Kubernetes listener, and cert-manager or a TLS secret agree |
| InstanceMeaning.DeploymentKept | internal/controller/warpgateinstance_controller.go:573-931 | under the three guards the whole Deployment is the same, whatever the digests |
| InstanceMeaning.ExposedPorts | internal/controller/warpgateinstance_controller.go:578-604 | a port is exposed if and only if its protocol is on, with the number its listener uses |
| InstanceReading.StepsIff | internal/controller/warpgateinstance_controller.go:606-714 | each step of the init script is there if and only if the spec asks for it, with what it is given |
| InstanceReading.ScriptInOrder | internal/controller/warpgateinstance_controller.go:606-714 | no step comes twice and each in its place |
| InstanceReading.EnvIff | internal/controller/warpgateinstance_controller.go:716-731 | the init environment is exactly the password and, with an external database, the URL |
| InstanceReading.MountsIff | internal/controller/warpgateinstance_controller.go:734-752 | the init mounts are exactly these |
| InstanceReading.VolumesIff | internal/controller/warpgateinstance_controller.go:805-877 | the volumes are exactly these; data is on the named claim, the operator's own, or nothing that lasts |
| InstanceReading.DeploymentRead | internal/controller/warpgateinstance_controller.go:573-931 | the Deployment around them: replicas, strategy, image, probe, hash |
| InstanceMeaning.ScriptHasItsInputs | internal/controller/warpgateinstance_controller.go:612-752 | every directory the init script uses is mounted and every variable it expands is set, in lists built under guards of their own |
| InstanceMeaning.MountsHaveVolumes | internal/controller/warpgateinstance_controller.go:733-877 | every mount of the init container names a volume of the pod |
| InstanceMeaning.SecretVolumesAreNamed | internal/controller/warpgateinstance_controller.go:803-877 | every volume from a Secret names a Secret the spec gives, never the empty name |
| InstanceMeaning.DatabaseURLFollowsConfig | internal/controller/warpgateinstance_controller.go:672-692 | the URL is appended right after the generated file was copied, once, and never to an override |
| InstanceValidation.Validate | api/v1alpha1/warpgateinstance_webhook.go:223-294 | the errors and warnings, in order |
| InstanceValidation.ValidatePorts | api/v1alpha1/warpgateinstance_webhook.go:241-267 | the port loop reports exactly the rows out of range |
| InstanceValidation.AcceptedIffUsable | api/v1alpha1/warpgateinstance_webhook.go:223-294 | a defaulted spec is accepted if and only if what the controller reads from the original is in order |
| InstanceValidation.ErrorIff | api/v1alpha1/warpgateinstance_webhook.go:182-289 | each error is reported if and only if its own defect is there; only Kubernetes may say port 0 |
| InstanceValidation.WarningsMean | api/v1alpha1/warpgateinstance_webhook.go:200-289 | each warning in terms of the controller: where the database URL comes from, whether data survives, whether there is a CA to verify against |
| InstanceValidation.UndefaultedHttpRefused | api/v1alpha1/warpgateinstance_webhook.go:235-239 | without defaulting the validator refuses an absent http block that the controller takes for on |
| Rollout.FlagTextDecodes | internal/controller/warpgateinstance_controller.go:367-370 | the five flags are read back from their text, whatever follows |
| Rollout.PortTextDecodes | internal/controller/warpgateinstance_controller.go:363-366 | so are five ports of known digit counts |
| Rollout.HashedTextShowsPortsAndFlags | internal/controller/warpgateinstance_controller.go:360-379 | same image, pairwise equal digit counts and equal hashed text mean equal ports, flags and rest |
| Rollout.PortTextCollides | internal/controller/warpgateinstance_controller.go:363-366 | without equal digit counts, ports 88 and 822 read like 888 and 22 |
| Rollout.DeploymentStore.EnsureDeployment | internal/controller/warpgateinstance_controller.go:933-961 | the code against its specification, with any reply |
| Rollout.SecondCallNeverWrites | internal/controller/warpgateinstance_controller.go:948-960 | after a successful call another one for an unchanged instance issues no write |
| Rollout.EnsuredAgrees | internal/controller/warpgateinstance_controller.go:939-960 | a write is issued if and only if the Deployment is missing or differs in image, hash or replicas; after success these three are the desired ones |
| Rollout.EnsuredIsDesiredIff | internal/controller/warpgateinstance_controller.go:948-960 | a successful call leaves what was built if and only if image, hash or replicas differed or nothing did |
| Rollout.StrategyChangeIgnored | internal/controller/warpgateinstance_controller.go:794-802 | a changed strategy alone is never applied |
| YamlQuote.QuoteRoundTrip | internal/controller/warpgateinstance_controller.go:685-690 | the doubled text reads back under section 7.3.2 of YAML 1.2.2 and closes at the closing quote and no earlier |
| YamlQuote.UnquoteIsOfQuoted | internal/controller/warpgateinstance_controller.go:685-690 | and conversely, whatever reads back to a text is its doubled form up to a lone quote |
| YamlQuote.ExactlyOneDatabaseLine | internal/controller/warpgateinstance_controller.go:684-691 | for every newline-free URL the finished file has exactly one line with the key, the last, reading back to the URL; all other lines stay |
| YamlQuote.GeneratedConfigHasOne | internal/controller/warpgateinstance_controller.go:407-480 | so it is for the generated file of every instance with an external database and no override |
| YamlQuote.NewlineBreaksTheLine | internal/controller/warpgateinstance_controller.go:689-689 | a newline in the URL can put the key on two lines |
| YamlQuote.UnfinishedLineSwallowsTheKey | internal/controller/warpgateinstance_controller.go:684-691 | why the file must end in a newline: otherwise no line carries the key |
| RandomPassword.GenerateRandomPassword | internal/controller/warpgateuser_controller.go:286-292 | the slice is in range; exactly n characters of the alphabet in section 5 of RFC 4648, or the error of the random source |
| RandomPassword.PasswordValue | internal/controller/warpgateuser_controller.go:291-291 | read as a number, the password is the buffer without its last two bits per byte |
| RandomPassword.PasswordIsUniform | internal/controller/warpgateuser_controller.go:286-292 | each string of n alphabet characters comes from exactly 4 to the n of the 256 to the n buffers |

## Findings

These follow the code. Each names the lemma that says exactly when the code does meet the
expectation.

- A password credential whose username comes to mean another user is forgotten, live, if and only if
  its Secret or key is missing at that pass (`MovedUserLeaksIff`); a failed delete leaves it recorded
  under the wrong user (`MovedRotationStrandsIff`). A public key is forgotten if and only if the
  username moved (`MovedUserLeaksKeyIff`).
- A credential deleted outside is not restored while version and user stay the same
  (`ReadyMeansPresentIff`).
- A recreated user keeps its old credential id, so it never gets a password (`PasswordWorksIff`); a
  Secret call that is not served forgets the user made in the same pass (`SecretFailureForgetsIff`);
  an existing Secret is accepted whatever it holds (`RecordedSecretMatchesIff`).
- A ticket has its Secret if and only if one particular call was served with none there
  (`StoredSecretIff`), and becomes Ready on the next pass in any case (`NextPassIsReady`).
- A route that loses its hostnames keeps its target (`RunsCorrespondIff`); its group annotation is
  read only on create (`GroupIsThatOfCreation`).
- An empty Kubernetes port means 8443 to the controller and 0 to the webhook, so defaulting changes
  the port (`KubernetesAndTlsKeptIff`, which also says when cert-manager is turned on); it changes
  the image of a version without "v" (`ImageKeptIff`).
- The rollout test does not look at the strategy (`EnsuredIsDesiredIff`), and the hashed port text has
  no separators (`HashedTextShowsPortsAndFlags`).
- Two targets on one live record never settle while their requests differ
  (`SharedRecordNeverSettles`), so convergence is stated for statuses that share none.

## Left out

- HTTP transport, TLS, cookies and JSON: an exchange is a login and a reply; a body that cannot be decoded is a lost reply.
- controller-runtime: queues, watches, caches and requeue intervals; any scheduler of passes and steps is covered.
- The two binding controllers apart from their condition lists: the same finalizer protocol with ids that are looked up on every pass.
- Condition messages and observed generations in the state machines: Ready is kept with its reason, and reasons are an enumeration; the reasons targets use for the same failures are not told apart from the others'. `Conditions` has the full entries.
- Empty-string ids are `None`, and ids are natural numbers handed out in order.
- Targets: a spec has one protocol block, the first one given. A Secret reference is always present where an SSH or Kubernetes authentication kind needs one; without it the code dereferences nil. JSON encoding of the options, which cannot fail on these structures, is left out.
- The lookup of a public key's user is one read; that a create under a user deleted meanwhile is refused is one of the refusals.
- The connection lookup that yields the client is one read with one failure; the connection is fixed.
- Deletion of Secrets through owner references, and errors from setting those references.
- A failing random source while a user's password is made ends the pass without a status write, like a crash.
- HTTPRoute discovery: a pass is one step; nobody else edits managed targets between its read and its write.
- SHA-256, PBKDF2 and FNV are arbitrary functions; what is proved is about the texts they are given. The YAML library that renders the external host, and quantity parsing, are functions too.
- The init script is a list of named steps; shell semantics beyond quoting the database URL, probes' timings, cert-manager, Ingress, Services, PVC creation, Vault text and the auto-created connection are left out.
- Sorting and compaction of namespaces, which Go's library does in place, are functions on sequences; that the list of names is cloned first is therefore not visible.
- Strings are sequences of characters, and truncation at 63 counts them as bytes, which Kubernetes names are.
- TargetRounds.RoundsConverge: rounds are undisturbed and fault-free, nothing is marked for deletion, and stored ids were once handed out by the server; stale ids are covered.
- PasswordRuns.LiveCredentialsAreAccounted: for a username that stays one user and a fixed connection; MovedUserLeaksIff shows what becomes of the first otherwise.
- InstanceMeaning.DeploymentKept: one direction, because different texts may have equal digests; PodsKeptIff and HashedTextKeptIff give both directions for the two parts.
