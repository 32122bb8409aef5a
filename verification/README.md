# Scooter: a verified model of its protocols and decision procedures

Scooter runs coding agents in sandboxes. Most of it is glue; this project models the parts that are
small stateful protocols or decision procedures, and proves what they promise.

- **AWS approvals.** `Globs` is the glob algebra (do two globs overlap, does one cover the other),
  proved against string matching. `Rules` is the ordered rule walk on top of it: deny, auto-grant, or
  the approvals owed, proved against concrete (service, verb, resource) names. `Concrete` says once more,
  without any of that machinery, which API calls a pattern, a part or a rule reaches, by cutting the call's
  name into one piece per pattern character, and proves the decisions against that. `Approvals` is the
  request lifecycle as a class over its table; `ApprovalRuns` runs it, whole calls for uniqueness and
  calls cut at every await for what an active request means, and ties an active request back to the
  rules it was filed under; `ApprovalProgress` is what a call leaves alone, and that requests get through.
- **Annotation outbox.** `Outbox` is memory, disk, queue, worker and sends as a transition system with
  crashes at any step; `OutboxProofs` proves its invariants; `OutboxStore` is the `Annotations` object,
  each critical section proved to be one step of that system; `OutboxProgress` is that the queue
  empties, who is told of what, and what a failure costs.
- **Router assignment.** `Placement` is the claim statement's choice of pod; `Assignment` is several
  routers, their caches, resolvers and listeners, interleaved; `AssignmentProofs` proves coherence and
  fencing, `AliasProofs` what a short id's cached answer is worth, `AssignmentProgress` that current claims
  win and routers catch up. The `Assigner` class holds the cache as the router does.
- **Conversation-list push.** `Stream` and `StreamProofs` are the notify, throttle, fan-out and resync
  path, `StreamProgress` that what is outstanding is worked off; `Coalescer` is the throttle with its clock, timers and pushers; `Access` is who may see a row.
- **Target cache, message limiter, visibility tree.** `DirectProxy` and `DirectProxyProofs`, `Limiter`
  and, for calls out of clock order, `LimiterRuns`, and `Heredity`.

Network answers, IAM, the authorization service, the clock and the readiness of pods are parameters of
the steps: any value may come. History that only the claims speak of (sends made, starts logged,
checks allowed, generations won) is carried in the state beside the real fields.

What the models found, stated and proved below:

- `glob_covers` is sound but not complete: `?*` and `*?` match the same strings and it refuses the
  pair (`Globs.CoversIncomplete`). It is exact whenever the rule has no `?` or the request has no `*`
  (`Globs.CoversExact`), and on every pair it decides inclusion exactly for the reading in which `?`
  refuses one character that `*` accepts (`Globs.CoversDecides`).
- `can_approve` is documented to foretell `approve`; on a settled request it can say yes while `approve` refuses (`Approvals.CanApproveOverpromises`). For one request the two agree, whoever
  asks and whatever the authorization service says, exactly if it is pending or nothing unmet has an
  object to ask about (`Approvals.CanApproveAgrees`).
- The outbox's worker counts an attempt only for a transport error. An answer it cannot parse, or one cut
  off, ends the whole pass uncounted: for every `n` some run tries one put `n` times and never once the
  put behind it (`OutboxProofs.TriesWithoutBound`). Tries are at most five plus the ones so cut short, and
  the doubling delay follows exactly the others (`OutboxProofs.TriesAreBounded`).
- Removing a doubled notice by value can take the very queue object that is being announced; one notice
  per announced remark survives all the same (`OutboxProofs.GatherCount`).
- An acknowledged put is only on disk at the end of the pass, so a crash before that forgets it
  (`OutboxProofs.CrashForgetsAck`). After a crash a remark is acked exactly if it was acked on disk, where
  that never reverts, as it never does in memory while the process lives (`OutboxProofs.AckedStaysAcked`).
- A row takes its short id by a statement that notifies no router. When a parent takes the one its subagent
  carries, a cached alias goes on answering with the subagent (`AliasProofs.AliasMissesNewRef`). A hit by a
  short id is what a lookup may read unless that name was given or taken since it was looked up, and by a
  conversation's own id always (`AliasProofs.HitEqualsLookup`); which such statements break it is said
  exactly by `AliasProofs.RefChangeKeepsAlias`.
- A message that arrived can still be answered with an error, a bad gateway for one. The outbox takes every
  error but a gateway timeout for "not delivered" and sends again, so the agent can get a remark twice
  (`OutboxProofs.AnnouncedTwice`). Arrivals are at most one plus the sends that arrived and were turned down
  (`OutboxProofs.ArrivalsAreBounded`), hence at most one where there is no such send
  (`OutboxProofs.AnnouncedAtMostOnce`).
- The list shows columns, the model and the sandbox, whose change the trigger notifies nobody of. A settled
  client goes stale at any such change with nothing outstanding (`StreamProofs.SilentChangeIsMissed`);
  in every other column it converges (`StreamProofs.EveryClientConverges`).
- The message limiter reads the clock before taking its lock. In clock order it is exact and no minute is
  over the limit (`Limiter.MessageLimiter.AllowMessage`). A call late by any amount can be refused with
  nothing accepted before it (`LimiterRuns.LateCallRefused`), and with a limit of two or more can take a
  minute over the limit (`LimiterRuns.LateCallBreaksLimit`). With a limit of one it cannot while at most
  4096 conversations send (`LimiterRuns.LimitOfOneHolds`), and can with one more
  (`LimiterRuns.CrowdBreaksLimitOfOne`).
- Component matching of actions equals whole-string matching when the name has one colon, and can
  differ when it has more (`Rules.ExtraColonBreaksComponents`).

`dafny verify dfyconfig.toml` checks the project.

## Model

| member | source | states |
|---|---|---|
| `Globs.OverlapsExact` | contrib/aws/scooter_contrib_aws/rules.py:57-79 | `glob_overlaps` on globs without `[` and `]` holds if and only if some string matches both; with either character in either glob it always holds and `glob_covers` never does |
| `Globs.OverlapWitness` | contrib/aws/scooter_contrib_aws/rules.py:67-79 | when the recursion says yes, a string matching both globs is constructed |
| `Globs.CommonStringOverlaps` | contrib/aws/scooter_contrib_aws/rules.py:67-79 | when some string matches both globs, the recursion says yes |
| `Globs.CoversSound` | contrib/aws/scooter_contrib_aws/rules.py:82-100 | a covering rule glob matches every string the request glob matches |
| `Globs.CoversPreorder` | contrib/aws/scooter_contrib_aws/rules.py:82-100 | covering is reflexive and transitive on bracket-free globs |
| `Globs.CoversImpliesOverlaps` | contrib/aws/scooter_contrib_aws/rules.py:62-100 | covering implies overlapping |
| `Globs.CoversIsMatching` | contrib/aws/scooter_contrib_aws/rules.py:82-100 | for a request without wildcards, covering is ordinary matching |
| `Globs.CoversDecides` | contrib/aws/scooter_contrib_aws/rules.py:82-100 | on every bracket-free pair, covering is inclusion, both ways, for the reading in which `?` refuses one character that `*` accepts |
| `Globs.CoversExact` | contrib/aws/scooter_contrib_aws/rules.py:82-100 | covering is language inclusion, both ways, when the rule has no `?` or the request no `*` |
| `Globs.CoversIncomplete` | contrib/aws/scooter_contrib_aws/rules.py:82-100 | a concrete pair with equal languages that covering refuses |
| `Globs.DisjointForAnyReading` | contrib/aws/scooter_contrib_aws/rules.py:57-65 | whatever brackets mean, two globs sharing a string are never called disjoint |
| `Globs.CoversForAnyReading` | contrib/aws/scooter_contrib_aws/rules.py:82-86 | whatever brackets mean, a covering rule matches all the request matches |
| `Rules.ParseRules` | contrib/aws/scooter_contrib_aws/rules.py:29-52 | parsing keeps the non-anchor rules in order, each well formed, or names the first malformed one |
| `Rules.EffectWords` | contrib/aws/scooter_contrib_aws/rules.py:12-37 | each of the four words gives its own effect, and any other none |
| `Rules.ComponentMatchingIsWholeMatching` | contrib/aws/scooter_contrib_aws/rules.py:103-118 | matching service and verb apart equals matching the whole name, for single-colon patterns and names |
| `Rules.ExtraColonBreaksComponents` | contrib/aws/scooter_contrib_aws/rules.py:103-108 | with a second colon in the name the two differ, on a concrete input |
| `Rules.SharedNameOverlaps` | contrib/aws/scooter_contrib_aws/rules.py:149-155 | a rule and a part that match a common concrete name overlap |
| `Rules.OverlapSharesName` | contrib/aws/scooter_contrib_aws/rules.py:149-155 | a bracket-free rule and part that overlap have a common concrete name |
| `Rules.CoverMatchesAll` | contrib/aws/scooter_contrib_aws/rules.py:158-163 | a rule that covers a part matches every concrete name of the part |
| `Rules.ContainmentMatchesAll` | contrib/aws/scooter_contrib_aws/rules.py:166-172 | a rule that contains another matches every concrete name the other matches |
| `Rules.Denials` | contrib/aws/scooter_contrib_aws/rules.py:177-185 | no error if and only if no deny rule overlaps any part |
| `Rules.DenyIsAirtight` | contrib/aws/scooter_contrib_aws/rules.py:177-185 | with no error, no concrete name any part matches is matched by any deny rule |
| `Concrete.MatchesIsStanding` | contrib/aws/scooter_contrib_aws/rules.py:149-163 | matching is cutting the text into one fitting piece per pattern character: any text for `*`, one character for `?`, the character itself otherwise |
| `Concrete.LoweringIsAnyCase` | contrib/aws/scooter_contrib_aws/rules.py:103-108 | matching lowered texts is matching with letters in either case |
| `Concrete.ActionReachesExactly` | contrib/aws/scooter_contrib_aws/rules.py:103-118 | splitting an action into service and verb decides exactly which calls it reaches: a pattern with a colon, or of stars only, stands for `service:verb` as a whole; any other stands for none |
| `Concrete.RuleReachesExactly` | contrib/aws/scooter_contrib_aws/rules.py:149-155 | a rule matches a folded name exactly if one of its actions and one of its resources reach the call |
| `Concrete.NoDeniedCallIsReached` | contrib/aws/scooter_contrib_aws/rules.py:177-185 | with no error, no API call that a part reaches is reached by a deny rule |
| `Concrete.CoveringRuleReachesAll` | contrib/aws/scooter_contrib_aws/rules.py:158-163 | a covering rule reaches every call the part reaches |
| `Concrete.ContainingRuleReachesAll` | contrib/aws/scooter_contrib_aws/rules.py:166-172 | a containing rule reaches every call the inner rule reaches |
| `Concrete.ReachingRuleOverlaps` | contrib/aws/scooter_contrib_aws/rules.py:149-155 | a rule that reaches a call the part reaches overlaps it |
| `Concrete.ManagedPolicyDenied` | contrib/aws/scooter_contrib_aws/rules.py:177-185 | a managed policy is let through exactly if no deny rule has a pattern that stands for its name |
| `Concrete.EverythingCovers` | contrib/aws/scooter_contrib_aws/rules.py:158-163 | a rule for `*` on `*` covers every bracket-free part |
| `Concrete.LargerRuleContains` | contrib/aws/scooter_contrib_aws/rules.py:166-172 | a rule that lists all of another's bracket-free patterns contains it |
| `Rules.WalkReactions` | contrib/aws/scooter_contrib_aws/rules.py:188-203 | the loop's hits are exactly the always-rules and the require rules before the first covering allow |
| `Rules.Walk` | contrib/aws/scooter_contrib_aws/rules.py:188-203 | the walk lists exactly the hits in order, and says whether an allow covers the part |
| `Rules.PartDebts` | contrib/aws/scooter_contrib_aws/rules.py:243-256 | one part adds exactly its debts, by eligible set, with rule names and labels |
| `Rules.Obligations` | contrib/aws/scooter_contrib_aws/rules.py:230-263 | the result numbers exactly the inclusion-minimal eligible sets owed, each with the rules and parts that owe it |
| `Rules.AlwaysNeedsItsOwn` | contrib/aws/scooter_contrib_aws/rules.py:223-254 | answering a require_always hit takes an approval on `aws_account:<account>/<rule>` if it lists approvers, on `aws_account:<account>` if it lists none; nobody stands in |
| `Rules.WhoMayAnswer` | contrib/aws/scooter_contrib_aws/rules.py:223-254 | a require hit is answered exactly by its own such object or by that of another hit that covers the part or contains the rule |
| `Rules.Prune` | contrib/aws/scooter_contrib_aws/rules.py:257-263 | what is kept is an antichain below everything found |
| `Rules.PruningPreservesMeaning` | contrib/aws/scooter_contrib_aws/rules.py:257-263 | approved objects hit every kept set if and only if they hit every found set |
| `Rules.AutoGrantCharacterised` | contrib/aws/scooter_contrib_aws/rules.py:188-263 | nothing is needed if and only if every part has a covering allow, no require rule overlaps before the first such allow, and no always-rule overlaps at all |
| `Rules.UncoveredPartIsOwed` | contrib/aws/scooter_contrib_aws/rules.py:243-263 | a part no allow covers keeps, after pruning, an obligation to a require hit covering it or to the account default |
| `Rules.StandInReachesFarEnough` | contrib/aws/scooter_contrib_aws/rules.py:245-254 | another rule's approvers stand in only if their rule matches every concrete name of the part that the guarded rule matches |
| `Rules.EveryNameAnswered` | contrib/aws/scooter_contrib_aws/rules.py:243-256 | when every debt is answered: each hit that matches a name has an approver whose rule reaches what the hit guards, and the name is let through by a covering allow or hit that matches it, or, where the part falls to the default, by the account object |
| `Rules.AllowDoesNotAnswer` | contrib/aws/scooter_contrib_aws/rules.py:188-203 | an allow rule never answers for a name a hit matches: with nobody approving the claim fails |
| `Rules.ApprovedMeansEveryNameAnswered` | contrib/aws/scooter_contrib_aws/rules.py:230-263 | approved objects that answer the pruned obligations give every hit an approver whose rule reaches what it guards, and answer every concrete name |
| `Approvals.Unmet` | contrib/aws/scooter_contrib_aws/service.py:274-277 | exactly the obligations no recorded approval names |
| `Approvals.Eligible` | contrib/aws/scooter_contrib_aws/service.py:260-272 | exactly the ids with an object on which the approver is allowed; nothing exactly when a check that is reached fails |
| `Approvals.AllowedOn` | contrib/aws/scooter_contrib_aws/service.py:265-271 | the one object at which asking stops with a yes, none exactly when the answer is not yes |
| `Approvals.PermissionService.EligibleIds` | contrib/aws/scooter_contrib_aws/service.py:260-272 | the memoised loop computes that function, errors included |
| `Approvals.ApproveAccepts` | contrib/aws/scooter_contrib_aws/service.py:380-399 | `approve` accepts if and only if the request is pending and `can_approve` holds |
| `Approvals.CanApproveAgrees` | contrib/aws/scooter_contrib_aws/service.py:421-431 | for a request, the two agree for every approver and every authorization answer if and only if it is pending or no unmet obligation has an object |
| `Approvals.CanApproveOverpromises` | contrib/aws/scooter_contrib_aws/service.py:421-431 | a settled request on which `can_approve` holds and `approve` refuses |
| `Approvals.ApprovalShrinksUnmet` | contrib/aws/scooter_contrib_aws/service.py:380-399 | an accepted approval strictly shrinks what is unmet, and its approver is new |
| `Approvals.ApproveKeepsRow` | contrib/aws/scooter_contrib_aws/store.py:181-191 | approvals never outnumber the obligations they met, one per approver |
| `Approvals.AccessIsHandedOver` | contrib/aws/scooter_contrib_aws/service.py:194-197 | filing leaves the older grant working; it goes only when the newer one is live, and stays if provisioning fails |
| `Approvals.PolicyIsTornDown` | contrib/aws/scooter_contrib_aws/service.py:288-296 | a policy made before the role failed is on the row, so neither deny nor revoke passes without deleting it |
| `Approvals.PermissionService.RequestAccess` | contrib/aws/scooter_contrib_aws/service.py:133-212 | a blocked or duplicate request changes nothing; otherwise the row holds what the rules ask for, waiting siblings are superseded, and it is provisioned at once exactly if nothing is needed |
| `Approvals.PermissionService.Provision` | contrib/aws/scooter_contrib_aws/service.py:279-333 | the request becomes active and its active siblings superseded, or it is marked errored, with the policy on the row if that far |
| `Approvals.PermissionService.SupersedeEach` | contrib/aws/scooter_contrib_aws/service.py:336-378 | the sibling loop flips exactly the siblings in the given state |
| `Approvals.PermissionService.ApproveRequest` | contrib/aws/scooter_contrib_aws/service.py:380-399 | records and provisions exactly as the specification says, with each refusal's reason |
| `Approvals.PermissionService.Deny` | contrib/aws/scooter_contrib_aws/service.py:401-419 | denies exactly if the caller is eligible for some obligation and any policy was deleted |
| `Approvals.PermissionService.Revoke` | contrib/aws/scooter_contrib_aws/service.py:481-502 | revokes exactly the caller's own conversation's request, after teardown |
| `Approvals.PermissionService.SweepExpired` | contrib/aws/scooter_contrib_aws/service.py:505-542 | expires exactly the lapsed requests that were torn down, had no role, or are past the grace period |
| `ApprovalRuns.OneLiveRequest` | contrib/aws/scooter_contrib_aws/service.py:336-378 | in every run of whole calls: of two requests with equal conversation and account at most one is pending or approved and at most one active; approvals never exceed obligations, no approver twice |
| `ApprovalRuns.ActiveMeansApproved` | contrib/aws/scooter_contrib_aws/service.py:253-399 | cut at every await: an active request needed nothing when filed, or every obligation has a recorded approval whose own round of checks, for this request and this approver, heard yes about one of that obligation's own objects |
| `ApprovalRuns.ActiveReachesOnlyAnsweredNames` | contrib/aws/scooter_contrib_aws/service.py:163-212 | end to end, for every concrete name an active request can reach: no deny rule matches it, every require rule hit has an approver of this request whose rule reaches what it guards, a require_always hit on its own object `aws_account:<account>/<rule>`, or `aws_account:<account>` if it lists no approvers, and it is let through by a covering rule that matches it or by the account default's approvers |
| `ApprovalRuns.ActiveCallsAreApproved` | contrib/aws/scooter_contrib_aws/service.py:163-212 | end to end, for every API call an active request reaches: no deny rule reaches it, every require_always rule that does has an approval on its own object, and an allow or require rule reaches it or the account's approvers approved |
| `ApprovalProgress.OthersAreLeftAlone` | contrib/aws/scooter_contrib_aws/service.py:336-378 | no call removes a request, and one it is not about changes only by giving way to a newer one of the same conversation and account, or in the sweep, exactly if its role ran out and it may go |
| `ApprovalProgress.RevokeIsOnesOwn` | contrib/aws/scooter_contrib_aws/service.py:481-502 | a revoke from another conversation changes nothing, from the request's own one it revokes |
| `ApprovalProgress.ProvisionedRow` | contrib/aws/scooter_contrib_aws/service.py:279-333 | each outcome of provisioning leaves exactly the policy, role and end it made on the row |
| `ApprovalProgress.UninterruptedIsWhole` | contrib/aws/scooter_contrib_aws/service.py:380-399 | the approve cut at its awaits, run without interruption, does to status and approvals what the whole call does |
| `ApprovalProgress.RightApproversSuffice` | contrib/aws/scooter_contrib_aws/service.py:253-399 | a pending request becomes active once people who between them may satisfy all that is unmet have each approved, in any order |
| `ApprovalProgress.LegacyNeedsTheAccount` | contrib/aws/scooter_contrib_aws/service.py:253-258 | a request with nothing stored is approved exactly by someone allowed on `aws_account:<account>`, once |
| `OutboxStore.Annotations.Load` | contrib/files/viewer/annotations.py:359-377 | a restart over the state file is the crash step: queue rebuilt in order, "sending" read as "sent" |
| `OutboxStore.Annotations.Add` | contrib/files/viewer/annotations.py:448-455 | one add step: record, queued put and save |
| `OutboxStore.Annotations.ResolveThread` | contrib/files/viewer/annotations.py:457-468 | marks exactly the thread, or refuses an unknown one |
| `OutboxStore.Annotations.Delete` | contrib/files/viewer/annotations.py:470-498 | the victim-by-victim loop removes exactly the doomed records and their puts, with one delete queued each |
| `OutboxStore.Annotations.Retry` | contrib/files/viewer/annotations.py:500-517 | re-queues a put, or a given-up notice of an acked record, and nothing else |
| `OutboxStore.DropFirst` | contrib/files/viewer/annotations.py:756-759 | removes the first element equal by value, whichever object it is |
| `OutboxStore.GatherLive` | contrib/files/viewer/annotations.py:639-654 | the loop that sorts due notices into dropped and live |
| `OutboxStore.Annotations.BeginNotices` | contrib/files/viewer/annotations.py:639-660 | "sending" is on disk before the message goes out |
| `OutboxStore.Annotations.NoticesSent` | contrib/files/viewer/annotations.py:661-679 | after a send that was answered, or got no answer, every live remark is sent and dropped |
| `OutboxStore.Annotations.NoticesRefused` | contrib/files/viewer/annotations.py:668-674 | after a send that was turned down the remarks wait again; nothing is said of whether it arrived |
| `OutboxStore.Annotations.PushDone` | contrib/files/viewer/annotations.py:697-710 | a stored put is acked and its notice queued with a delay |
| `OutboxStore.Annotations.PushFailed` | contrib/files/viewer/annotations.py:712-732 | backs off by doubling, gives up after the last attempt or a 404 |
| `OutboxStore.Annotations.NoticeFailed` | contrib/files/viewer/annotations.py:734-754 | a rate limit spends no attempt; a 403 or 404 or the last attempt ends it |
| `OutboxProofs.InvStep` | contrib/files/viewer/annotations.py:333-783 | every step of readers, worker and crash keeps the invariant, a pass that ends in an exception and a message that arrives at any time included |
| `OutboxProofs.ResentOnlyIfRejected` | contrib/files/viewer/annotations.py:639-679 | over every run, with crashes and aborted passes anywhere, a remark is sent again only after every earlier send of it was turned down |
| `OutboxProofs.ArrivalsAreBounded` | contrib/files/viewer/annotations.py:254-292 | whatever the worker concludes, a remark arrives at most once plus once for each send of it that arrived and was turned down |
| `OutboxProofs.AnnouncedAtMostOnce` | contrib/files/viewer/annotations.py:639-679 | a remark is in at most one send that arrived, over every run in which none of its sends that arrived was turned down |
| `OutboxProofs.AnnouncedTwice` | contrib/files/viewer/annotations.py:268-292 | a run in which a message arrives, is answered with an error other than a gateway timeout, and arrives again |
| `OutboxProofs.NothingStranded` | contrib/files/viewer/annotations.py:359-377 | in every reachable state each pending record has a queued put and each acked, unannounced one a queued notice |
| `OutboxProofs.TriesAreBounded` | contrib/files/viewer/annotations.py:712-732 | a put, resolve or delete is tried at most five times plus its aborted tries, and the first four tries not aborted are followed by waits of at least 2, 4, 8 and 16 seconds |
| `OutboxProofs.TriesWithoutBound` | contrib/files/viewer/annotations.py:212-231 | the aborted tries have no bound: for every number some run tries one put that often, and never the put behind it |
| `OutboxProofs.AckedStaysAcked` | contrib/files/viewer/annotations.py:500-517 | acked never reverts on disk, nor in memory while the process lives; after a crash a remark is acked exactly if it is on disk |
| `OutboxProofs.CrashForgetsAck` | contrib/files/viewer/annotations.py:619-634 | a run in which a crash before the pass saves forgets an acknowledgement |
| `OutboxProofs.AnnouncedOnlyAfterAck` | contrib/files/viewer/annotations.py:681-710 | what a send names is acked and waiting, and "sending" on disk before the send |
| `OutboxProofs.GatherCount` | contrib/files/viewer/annotations.py:639-654 | removal by value leaves a notice for each remark announced |
| `OutboxProgress.EverythingDrains` | contrib/files/viewer/annotations.py:620-710 | from every idle reachable state, if nothing goes wrong two passes empty the queue and save, with every pending remark stored, every queued resolve and delete sent, and, with the notifier configured, a message that arrived naming every remark that waited |
| `OutboxProgress.AgentHearsNothingOfItsOwn` | contrib/files/viewer/annotations.py:448-455 | over every run, retries, pulls and crashes included, no message names a remark the agent wrote |
| `OutboxProgress.ReaderIsHeard` | contrib/files/viewer/annotations.py:448-455 | a reader's remark added between passes is stored if nothing goes wrong, and the agent told if the notifier is configured |
| `OutboxProgress.DeletionIsQueued` | contrib/files/viewer/annotations.py:470-498 | a deletion takes the remark, or with the first of a thread the whole thread, and leaves a delete and no put for each |
| `OutboxProgress.DeletionGoesOut` | contrib/files/viewer/annotations.py:470-498 | each deleted remark is asked to be deleted at the broker, if nothing goes wrong |
| `OutboxProgress.ResolutionGoesOut` | contrib/files/viewer/annotations.py:457-468 | resolving marks exactly the thread's remarks, and the broker is sent that same thread and mark, if nothing goes wrong |
| `OutboxProgress.RetryIsServed` | contrib/files/viewer/annotations.py:500-517 | a retry forgets the failures of a remark not stored, which is then stored, or takes back a notice given up, of which the agent is then told, if nothing goes wrong |
| `OutboxProgress.PullBringsIn` | contrib/files/viewer/annotations.py:581-618 | a pull adds exactly what was missing, as stored and not to be announced, and saves it |
| `OutboxProgress.RestartQueues` | contrib/files/viewer/annotations.py:359-377 | a restart queues exactly a put for each remark pending or failed and a notice for each stored one waiting, afresh |
| `OutboxProgress.PushFailureCosts` | contrib/files/viewer/annotations.py:711-732 | a failed push is due again after 2, 4, 8, 16 seconds, and is given up at the fifth failure or at a 404, its remark then failed or disabled |
| `OutboxProgress.RefusalCosts` | contrib/files/viewer/annotations.py:734-754 | a notice turned down waits as told and uncounted at a rate limit, is given up at once if forbidden, and else fares like a push |
| `Placement.LeastLoadedIsFirst` | services/conversation-router/assignstore.go:36-47 | ties go to the earliest candidate: everything before the chosen pod is strictly more loaded |
| `Placement.LeastLoaded` | services/conversation-router/assignstore.go:36-47 | the chosen pod is a candidate and no candidate has less load |
| `Placement.SubagentFollowsParent` | services/conversation-router/assignstore.go:42-46 | a subagent lands on its parent's pod when that is a candidate, changing no load |
| `Placement.ServingKeepsBalance` | services/conversation-router/assign.go:122-130 | serial claims over a fixed ready set never widen the spread of loads beyond one, or beyond what it was |
| `Assignment.Assigner.Cached` | services/conversation-router/assign.go:61-73 | a hit needs a live cache, and is filed under the conversation it names |
| `Assignment.Assigner.Remember` | services/conversation-router/assign.go:75-85 | caches only if nothing was invalidated since the epoch was read |
| `Assignment.Assigner.Invalidate` | services/conversation-router/assign.go:157-167 | drops the conversation and exactly its aliases, bumping the epoch |
| `Assignment.Assigner.Flush` | services/conversation-router/assign.go:175-182 | drops everything, bumping the epoch |
| `Assignment.Assigner.SetLive` | services/conversation-router/assign.go:169-173 | a flush and then the flag |
| `AssignmentProofs.InvStep` | services/conversation-router/assignlisten.go:17-66 | every step of resolvers, claims, row changes and listeners keeps coherence and fencing |
| `AssignmentProofs.LiveCacheIsCoherent` | services/conversation-router/assign.go:61-182 | while live and connected, each cached assignment gives the row's pod, or none, its generation, and says suspended if and only if the row's phase is Suspended, or its notification is undelivered; every alias leads to a cached conversation; row deletion included |
| `AliasProofs.HitEqualsLookup` | services/conversation-router/assign.go:61-139 | over every run, with nothing undelivered a hit is what a lookup of the id may read, in pod, generation and whether it is suspended: by a conversation's own id always, by a short id unless its name was given or taken since it was looked up, or a lost claim for it came back with another conversation |
| `AliasProofs.AliasMissesNewRef` | lib/sql/agent_host/migrations/20261013164212_add_conversation_assignment_routing.sql:13-18 | a run in which a parent takes the short id its subagent carries, nobody is notified, and no lookup reads what the hit answers |
| `AliasProofs.RefChangeKeepsAlias` | services/agent-host/src/session/pgConversationRegistry.ts:93-105 | giving a row a short id keeps what another id finds exactly unless it renames the found conversation, or a top-level row takes the name from one that is not |
| `AliasProofs.CrossingNeedsDeletion` | services/conversation-router/assignstore.go:54-69 | a lost claim comes back with another conversation only if its own is gone and some short id is its id |
| `AssignmentProofs.OneWinPerGeneration` | services/conversation-router/assignstore.go:36-69 | over all routers, winning claims of a conversation saw strictly increasing generations, all below the row's |
| `AssignmentProofs.GenerationsNeverFall` | services/conversation-router/assignstore.go:47-52 | whatever runs, the generation of a row that stays never goes down |
| `AssignmentProofs.LoserReturnsCurrent` | services/conversation-router/assignstore.go:54-69 | a lost claim returns the row's own pod, generation and whether it is suspended, at a later generation than it saw |
| `AssignmentProgress.CurrentClaimWins` | services/conversation-router/assignstore.go:36-69 | a claim at the row's generation moves it on by one, to a candidate pod and out of suspension, touches no other row, and every connected router will hear |
| `AssignmentProgress.StaleClaimLoses` | services/conversation-router/assignstore.go:54-69 | a claim at another generation changes no row and reads it again |
| `AssignmentProgress.SuspendedIsClaimedFirst` | services/conversation-router/assign.go:109-125 | a suspended conversation as looked up is never kept and cached, and is claimed on its own pod if that is ready |
| `AssignmentProgress.NewConversationStarts` | services/conversation-router/conversationrow.go:8-18 | a new conversation starts on its parent's pod at generation one, or on none at zero |
| `AssignmentProgress.StatementsAreFenced` | services/conversation-controller/conversation_controller/rows.py:131-168 | assigning needs a later generation, releasing the same or a later one; each real change reaches every connected router once |
| `AssignmentProgress.RouterCatchesUp` | services/conversation-router/assignlisten.go:17-66 | from any state, a router's own steps alone bring it up and live, answering any conversation not suspended with its row's pod and generation |
| `Stream.PrivacyOnlyHides` | services/conversation-router/list.go:117-126 | a private row is visible exactly to its named owner, and going private never reveals |
| `Stream.AssembleList` | services/conversation-router/list.go:50-59 | the list holds exactly the visible rows, in the store's order |
| `Stream.Hub.Broadcast` | services/conversation-router/events.go:118-136 | each accepted subscriber gets the frame once, or a resync if its queue is full |
| `StreamProofs.ReplayFirst` | services/conversation-router/events.go:296-300 | taking queued frames early changes nothing in what the client ends up with |
| `StreamProofs.InvStep` | services/conversation-router/events.go:190-309 | every change, notification, push, expiry and serve-loop step keeps convergence |
| `StreamProofs.EveryClientConverges` | services/conversation-router/events.go:98-309 | in every reachable state, with nothing outstanding for the id and no resync pending, the client's frames and queue replay to nothing where no row is visible, else to the visible row in every notified column, and in the silent ones unless they changed since the last push |
| `StreamProofs.QuietClientIsExact` | services/conversation-router/events.go:251-309 | when all is quiet the client's list has the rows of a fresh read, equal in the same columns |
| `StreamProofs.SilentChangeIsMissed` | lib/sql/agent_host/migrations/20261025172400_notify_conversation_visibility.sql:45-56 | any change of a silent column to something other than what a settled client shows leaves it stale with nothing outstanding |
| `StreamProofs.StaleClientExists` | lib/sql/agent_host/migrations/20261025172400_notify_conversation_visibility.sql:45-56 | a run that leaves such a client |
| `StreamProofs.NothingLingersUnseen` | services/conversation-router/events.go:98-111 | a row is shown to someone who may not see it only while the note removing it waits |
| `StreamProgress.EverythingDrains` | services/conversation-router/events.go:190-309 | from every reachable state, steps of the listener, the throttle and the serve loops alone lead to one with nothing outstanding, every queue empty, and every client showing exactly the rows it is entitled to |
| `StreamProgress.NoEndlessWork` | services/conversation-router/events.go:190-309 | no infinite run consists of such steps alone: each leaves less to do |
| `StreamProgress.WorkEndsDone` | services/conversation-router/events.go:190-309 | where no such step is left, in whatever order they were taken, every client shows exactly the rows it is entitled to: its own and, listing all or anonymous, the shared ones |
| `StreamProgress.StampWaitsMetaDoesNot` | services/conversation-router/events.go:213-218 | a new stamp waits in an open window, or is pushed and opens one; any other notified change is pushed at once |
| `StreamProgress.RevocationIsPrompt` | services/conversation-router/events.go:98-111 | going private takes the row from exactly those who saw it and are not its owner, or resyncs them |
| `StreamProgress.DeletionIsPrompt` | services/conversation-router/events.go:200-207 | a deletion takes the row from exactly those who saw it, and closes its window |
| `StreamProgress.QueuesAreBounded` | services/conversation-router/events.go:118-136 | over every run no queue exceeds 64 frames, and a resync is asked for only by a frame that found 64 |
| `Coalescer.Throttle.Submit` | services/conversation-router/coalesce.go:46-59 | pushes exactly if no window was open, else marks it dirty |
| `Coalescer.Throttle.Expire` | services/conversation-router/coalesce.go:73-90 | pushes and reopens a dirty window, closes a quiet one |
| `Coalescer.Throttle.Stop` | services/conversation-router/coalesce.go:100-118 | closes every window and stops exactly the armed timers |
| `Coalescer.OneActorPerWindow` | services/conversation-router/coalesce.go:46-90 | each open window has exactly one timer or pusher, a closed one none |
| `Coalescer.PushesAreSpaced` | services/conversation-router/coalesce.go:46-90 | pushes of one id start at least a window apart |
| `Coalescer.NoSubmitIsLost` | services/conversation-router/coalesce.go:46-90 | every submit is followed by a push that starts after it, or one is owed |
| `Coalescer.DueWithinWindow` | services/conversation-router/coalesce.go:62-70 | no timer is ever due later than one window from now |
| `Coalescer.OwedLeadsToPush` | services/conversation-router/coalesce.go:62-90 | what is owed can always take its next step toward a push once its deadline passes |
| `Coalescer.OwedIsPaid` | services/conversation-router/coalesce.go:46-90 | what is owed can be pushed before anything else is, by a push that starts within one window |
| `Coalescer.NoMorePushesThanSubmits` | services/conversation-router/coalesce.go:46-90 | over every run an id is pushed at most as often as it was submitted |
| `Coalescer.ForgetStopsTheTimer` | services/conversation-router/coalesce.go:93-118 | after a forget no timer of the id runs and its window is closed |
| `DirectProxy.PrefixTestIsExact` | services/conversation-router/sandboxdirect.go:241-249 | among ids without NUL the key prefix test picks exactly the conversation's keys |
| `DirectProxy.Direct.Begin` | services/conversation-router/sandboxdirect.go:134-154 | an unexpired hit, else wait for the fetch in flight, else begin one |
| `DirectProxy.Direct.End` | services/conversation-router/sandboxdirect.go:162-186 | the answer counts only if the counter has not moved; the counter goes when nothing is in flight |
| `DirectProxy.Direct.AnyInFlight` | services/conversation-router/sandboxdirect.go:240-249 | true exactly if some key of the conversation is in flight |
| `DirectProxy.Direct.Prune` | services/conversation-router/sandboxdirect.go:188-203 | keeps exactly the unexpired entries, or none if still full, and the touches that matter |
| `DirectProxy.Direct.Invalidate` | services/conversation-router/sandboxdirect.go:252-267 | drops exactly the conversation's entries, and bumps the counter if a fetch is in flight |
| `DirectProxy.Direct.Touch` | services/conversation-router/sandboxdirect.go:270-277 | reports exactly if the last touch is 15 seconds old or unknown |
| `DirectProxyProofs.OneFetchPerKey` | services/conversation-router/sandboxdirect.go:134-154 | at most one fetch per key is under way |
| `DirectProxyProofs.NoStaleEntry` | services/conversation-router/sandboxdirect.go:134-186 | no cached entry comes from a fetch begun before its conversation's latest invalidation, though counters are deleted |
| `DirectProxyProofs.NoStaleAnswer` | services/conversation-router/sandboxdirect.go:162-168 | a fetch overtaken by an invalidation answers nothing |
| `DirectProxyProofs.HitIsCurrent` | services/conversation-router/sandboxdirect.go:134-141 | a hit is unexpired, not overtaken, and lives at most 60 seconds more |
| `DirectProxyProofs.CacheIsBounded` | services/conversation-router/sandboxdirect.go:172-182 | the cache never exceeds 4096 entries |
| `DirectProxyProofs.ReportsAreSpaced` | services/conversation-router/sandboxdirect.go:188-277 | reports of one conversation are at least 15 seconds apart, despite pruning |
| `DirectProxyProofs.SilenceIsReported` | services/conversation-router/sandboxdirect.go:270-277 | in every reachable state, a touch 15 seconds on is reported |
| `DirectProxyProofs.EveryLookupIsServed` | services/conversation-router/sandboxdirect.go:134-154 | every lookup is answered from the cache, waits for a fetch of its own key that is under way, or begins one |
| `DirectProxyProofs.FetchCountsUnlessOvertaken` | services/conversation-router/sandboxdirect.go:162-168 | a fetch answers exactly if its conversation was not invalidated since it began |
| `DirectProxyProofs.AnswerIsReused` | services/conversation-router/sandboxdirect.go:169-186 | its answer is then a hit exactly for the target's lifetime, 60 seconds if that is not between 0 and 60 |
| `DirectProxyProofs.StoringKeepsTheRest` | services/conversation-router/sandboxdirect.go:172-203 | storing forgets other entries only at 4096: the expired, or all if 4096 remain |
| `DirectProxyProofs.CountersAreForgotten` | services/conversation-router/sandboxdirect.go:162-168 | with ids free of NUL a counter is kept only while a fetch of its conversation is under way |
| `Limiter.CompactInPlace` | services/conversation-router/selfaccess.go:156-161 | the in-place loop leaves exactly the recent times, in order |
| `Limiter.AllowInOrder` | services/conversation-router/selfaccess.go:149-175 | in clock order a call is accepted exactly when fewer than the limit were accepted in the sixty seconds up to it, whatever compaction and eviction drop |
| `Limiter.MessageLimiter.AllowMessage` | services/conversation-router/selfaccess.go:149-175 | every call, in any order, answers and keeps what the specification says; as long as none was late it accepts if and only if fewer than the limit were accepted in the preceding minute, or there is no limit |
| `Limiter.MessageLimiter.Evict` | services/conversation-router/selfaccess.go:167-173 | keeps exactly the conversations whose last time is under a minute old |
| `Limiter.AcceptKeepsLimited` | services/conversation-router/selfaccess.go:162-166 | accepting below the limit keeps any `n`+1 accepted messages a minute apart |
| `Limiter.WindowHoldsAtMost` | services/conversation-router/selfaccess.go:149-175 | so no one-minute window, wherever it starts, holds more than the limit |
| `Limiter.MessageLimiter.NoMinuteOverLimit` | services/conversation-router/selfaccess.go:149-175 | as long as no call was late, no minute of any conversation is over the limit |
| `LimiterRuns.LateCallRefused` | services/conversation-router/selfaccess.go:153-165 | whatever the limit and the lateness, a late call can be refused with nothing accepted in the minute before it |
| `LimiterRuns.LateCallBreaksLimit` | services/conversation-router/selfaccess.go:153-166 | with a limit of two or more a call late by any amount can take a minute over the limit |
| `LimiterRuns.LimitOfOneHolds` | services/conversation-router/selfaccess.go:149-175 | with a limit of one, in any order, no minute is over it while at most 4096 conversations send |
| `LimiterRuns.CrowdBreaksLimitOfOne` | services/conversation-router/selfaccess.go:167-173 | with one conversation more, eviction and a late call take a minute over a limit of one |
| `Heredity.TreeOf` | services/conversation-router/store.go:241-251 | the recursive query finds exactly the root and everything below it |
| `Heredity.WriteStore.Create` | services/conversation-router/conversationrow.go:8-18 | inherits private, ignores a conflict, refuses private without an owner |
| `Heredity.WriteStore.SetVisibility` | services/conversation-router/store.go:239-251 | sets the whole tree, or nothing if the table's check would fail on any row of it |
| `Heredity.WriteStore.Patch` | services/conversation-router/metadata.go:42-113 | the guards in order, then the whole tree; any refusal changes nothing |
| `Heredity.PatchIsOwners` | services/conversation-router/metadata.go:87-113 | a patch passes exactly for a top-level conversation, by its owner, confirmed when it shares |
| `Heredity.PatchRefusals` | services/conversation-router/metadata.go:42-113 | which refusal each caller gets: not found, forbidden, bad request or conflict, each exactly when |
| `Heredity.PatchReachesTheTree` | services/conversation-router/store.go:239-251 | a patch that passes sets exactly what is below the conversation, or nothing if private is asked and something below has no owner |
| `Heredity.CreatedAsAsked` | services/conversation-router/conversationrow.go:8-18 | a new conversation is private exactly if asked or if its parent is, and is not made if that leaves it private for nobody |
| `Heredity.InsertKeepsHeredity` | services/conversation-router/conversationrow.go:8-18 | an insert keeps heredity if and only if no shared row already names the new private id as parent, as fresh ids ensure |
| `Heredity.SetKeepsHeredity` | services/conversation-router/store.go:239-251 | setting a whole tree from a top-level root keeps heredity |
| `Heredity.SubagentPatchWouldBreak` | services/conversation-router/metadata.go:104-107 | without the refusal of subagents, a patch could break it |
| `Heredity.DescendantsOfPrivateArePrivate` | services/conversation-router/store.go:239-251 | in every run of creates with fresh ids, patches and deletes, everything below a private conversation is private |

## Left out

- Globs.CoversExact: equality with plain inclusion is stated under a sufficient condition (no `?` in the rule or no `*` in the request), with a counterexample outside it; some pairs outside it are complete too, and Globs.CoversDecides is the exact statement for all pairs.
- Rules: lower-casing is ASCII only, obligation ids are numbers and their objects sets (the source sorts them and numbers with strings), and managed-policy ARNs match by the bracket-free glob semantics instead of the library `fnmatch`; the pair theorems are about action/resource parts.
- `request_parts`, `policy.py` and the account registry: a request comes in as parts, and other validation errors as a list.
- `iam.py`: creating and deleting is any success or failure; nothing is claimed about IAM resources outliving a row.
- `Approvals`: timestamps, risk, durations, credentials and the notification hook; statuses are not claimed to be absorbing, since `deny` and `revoke` check none; uniqueness is claimed for calls taken whole.
- Outbox: record text, anchors (`resolve_anchor`) and listing; queued deletes and resolves are lost in a crash, as in the source; `pull` and the choice of due operations are modelled on values only.
- OutboxProofs.TriesAreBounded: counts tries of one queue object within a process; a restart queues a new one.
- Outbox: writing the state file succeeds; a pass saves at its end or not, where the source saves if anything was done.
- Assignment: generations do not wrap; ties between rows sharing a short id may go either way; the striped locks are not modelled, so more interleavings are covered than can happen.
- AssignmentProofs.OneWinPerGeneration: for conversations never deleted, since a deleted row restarts its generation.
- Placement: candidates are compared in the order they are given (the router sorts them), not by the database's collation.
- Stream: reads succeed, a re-read and its fan-out are one step, and the LISTEN connection stays up, so a note lost with a connection is not covered; links, the awaiting-input mark and clock-derived columns; the owner of a row is only ever written back unchanged.
- Coalescer.PushesAreSpaced: for ids never forgotten; a forgotten id may be pushed again at once.
- DirectProxy: HTTP, hashing of identity headers and the fallback fetch; counters do not wrap.
- Heredity: each SQL statement is one step, so an insert racing a visibility change is not covered; a patch's read and write are one step too.
- Coalescer and Stream are separate models: Stream keeps only which windows are open and dirty, and lets a window expire at any time.
- Proxying, cookies, headers, TLS, tokens, UI, forge clients, search, the controller and all rendering.
