# Verification of the load balancer controller

A Dafny model of the controller that gives each Kubernetes Service of type LoadBalancer a load
balancer and a firewall rule in the Crusoe cloud, with proofs of what it promises. `dafny verify
dfyconfig.toml` checks everything.

## What is modelled

**The reconcile protocol.** `Model` holds the three stores: the API server's Service with all its
stored versions, the informer cache as a position among them, and the cloud with load balancers,
firewall rules and asynchronous operations. Every API call has a fate: it takes effect or not, and
its success is heard or not. `Protocol` says what a pass over one Service has learned, which call
that allows, and how passes over many Services interleave with users, caches, settling operations and
time, one call at a time. `Invariant`, `InvariantSteps` and `InvariantProof` show what every reachable
state satisfies (`InvariantProof.InitInv` and `RunInv`; results that start from a state with the
invariant hold from every reachable one); `Theorems`, `ProtocolRecord`, `Tracking`,
`Publication`, `ReleaseSafety` and `ReleaseRules` draw the safety results from it, and `CreationEffect`,
`Deletion`, `EnsureEffect`, `SelfHealing`, `FutureFailures` and `RateBound` the results about progress,
which `EnsureSteps` ties to the system's own steps. `Witnesses` and `RuleWitnesses` have runs from the
start that show where the guarantees end.

**The reconciler.** `Controller` has the reconciler as a class whose methods change a Service object
and make calls on a `World` object (`Apis`), which only accepts calls the protocol allows and lets
everybody else act between any two of them. So every pass is part of a run of the protocol and the
safety results hold of it (`ControllerSafety`). `PassSpec`, `FirewallPass` and `DeletionPass` say which
calls a pass makes and what it returns, given the answers; the methods are proved to do exactly that,
and `PassTheorems` and `DeletionPass` what every such sequence of calls has in common.
`PassAnswers`, `FirewallAnswers` and `DeletionAnswers` tell the same passes a second time, from the answers
alone and with every status, constant and protocol written out.
`Permits` shows why each of their calls is allowed.

**The request canonicalizer.** `Escaping`, `CanonicalQuery`, `QueryTheorems` and `Auth` model query
parsing, canonical printing and the signed message over bytes: percent-encoding as in section 2.1 of
RFC 3986, the unreserved set of its section 2.3, and `+` for a space as in section 17.13.4.1 of
HTML 4.01.

**Ports, rules and timing.** `Ports` and `FirewallArgs` derive protocols, listeners and rule
arguments; `RuleCompare` compares rules, sorting them in place; `NodeEvents` filters node events;
`Names`, `Timing` and `Polling` cover resource names, delays and the polling loop. `MergePatch` is the
merge patch of section 2 of RFC 7396, as `client.MergeFrom` computes it.

### Assumptions about the world

- An accepted load balancer create is visible in the name-filtered list at once and the load balancer
  stays until it is deleted. An accepted DELETE takes effect. A 404 is reported only for what does not
  exist.
- Rule names are unique; a clashing create gives a failed operation that says so. Identifiers are not
  empty and not used again.
- A load balancer has one VIP. The list, the create operation and a read report that one or, before it is
  assigned, none.
- The cache only moves forward. There is one clock, except that the cooldown reads the server's
  timestamps. One pass at a time runs for a Service.
- The hash of a Service's UID has eight bytes and is injective on the Services of the run.
- The controller has a direct API reader beside the cache, and the load balancer lookup by name.
- Users edit ports, their own annotations and may delete a Service; the controller's annotations and
  the finalizer are not edited by hand.

### Findings

- Removing the finalizer can leave a load balancer behind: handleDelete takes the id from its snapshot
  and makes no lookup by name. `ReleaseSafety.ReleaseLeavesLoadBalancer` gives the exact condition, both
  ways, and `Witnesses.ReleaseCanLeaveLoadBalancer` a run from the start that meets it: the answer to the
  create is lost and the Service is deleted before the next pass.
- It can leave a firewall rule behind in two ways. A recorded id is deleted without a look at the name, so
  a rule made anew but not recorded stays (`RuleWitnesses.ReleaseCanOrphanRule` has a run). And a create in
  flight whose answer was lost is not known to the deletion (`RuleWitnesses.ReleaseCanLeaveRule`).
  `ReleaseRules.ReleaseLeavesRule` and `ReleaseIsClean` say exactly when.
- A recorded protocol can be rewritten, to one the load balancer does not have, when the API reports no
  protocols and the direct read is forbidden: a create for TCP, an edit to UDP while it is under way, and a
  later pass on the older snapshot (`Witnesses.BlindPassRewrites`). Without either of the two conditions
  it never is (`ProtocolRecord.ProtocolNeverRewritten`).
- Creates of a failing rule are not held to one in two minutes when the patch that stores the operation id
  is lost, or when the next pass begins with a snapshot from before it: that pass knows of no operation and
  creates at once (`RateBound.CreatesAgain` says exactly when, `RateBound.LostRecordBreaksRate` has the two
  passes).
- The comparison sorts sources by CIDR only. That decides equality because derived sources carry nothing
  else; `RuleCompare.CidrOrderMatters` shows an input where it would not.
- A PATCH carries no VPC, so it repairs a rule if and only if the rule is in the right VPC
  (`RuleCompare.PatchMakesMatch`); the self-healing result assumes that VPC.
- The doc comment of ensureFirewallRule speaks of a boolean `requeue` and of "returning false"; the code
  returns a duration, and the model follows the code.
- After an operation succeeds its id stays on the Service beside the rule id; the rule id takes
  precedence from then on. The model does the same.
- A failed create stamped in the future, by a server clock that is ahead, stretches each wait to two
  minutes again (`FutureFailures.WaitsAgain`). Four passes may then leave the Service unhealed, and so may
  any other number of passes that come as soon as asked (`FutureFailures.NoBoundWithoutTimely`); the
  self-healing result takes failures to lie in the past.

## Model

| member | source | states |
|---|---|---|
| Theorems.AtMostOneLoadBalancer | internal/controller/service_controller.go:209-355 | Over every run with any number of Services, stale caches, lost answers and forbidden reads, at most one load balancer is ever accepted under a name, and a recorded load balancer carries the recording Service's name and no other Service's. |
| Theorems.CreateIsGuarded | internal/controller/service_controller.go:244-304 | When a create can be sent no load balancer of that name was ever accepted, no pass has acted on a deletion of the Service, and, unless the direct read was forbidden, the stored Service exists with the finalizer on it. |
| Theorems.NoCreateAfterDeletion | internal/controller/service_controller.go:142-168 | Once a pass has acted on a deletion, no continuation of the run ever sends another create for that Service. |
| Theorems.TrackingNeverLost | internal/controller/util.go:609-785 | While the Service is not being cleaned up, stored annotations that hold a rule id or an operation id always still hold one of them, under any failures and snapshots. |
| ProtocolRecord.ProtocolNeverRewritten | internal/controller/service_controller.go:364-382 | Over every run a recorded protocol is in every later stored state unchanged, unless the API reports no protocols and some pass of the Service went on without being allowed to read it. |
| Witnesses.BlindPassRewrites | internal/controller/service_controller.go:280-284 | That exception happens: for any fresh TCP Service there is a run, with no protocols reported and two forbidden reads, that records UDP over TCP for a load balancer serving TCP. |
| Theorems.RecordedIsActual | internal/controller/service_controller.go:280-291 | Where the API reports protocols, the protocol a pass reads from the annotations is the one the recorded load balancer has. |
| Theorems.ListenersFollowLoadBalancer | internal/controller/util.go:398-431 | Where the API reports protocols, however the ports are edited, each listener ever sent belongs to a Service port of the load balancer's own protocol. |
| Theorems.RuleFollowsLoadBalancer | internal/controller/util.go:941-967 | Where the API reports protocols, every rule created or patched has the load balancer's protocol as its one protocol and only node ports of Service ports of that protocol. |
| Theorems.RuleAdmitsRanges | internal/controller/util.go:925-939 | In every run each firewall rule created or patched admits exactly the Service's source ranges as the pass last read them, as a multiset of CIDRs and with no resource id, or 0.0.0.0/0 when there are none. |
| Publication.PublishedIsOwnVip | internal/controller/service_controller.go:631-665 | In every run a stored Service whose external IP is not the one it started with publishes exactly one, not empty, and it is the VIP of the load balancer that its recorded id names. |
| Tracking.RecordsOwnRule | internal/controller/util.go:609-785 | In every run a recorded rule id is that of a rule of the Service's name or of one that is gone, a recorded operation creates that name's rule, and a published external IP is not withdrawn. |
| Tracking.ActsOnOwnRule | internal/controller/util.go:636-896 | In every run the only firewall rule a pass can create, patch or delete is one of its own Service's name; what it deletes without that name is gone already. |
| Theorems.ForeignLeftAlone | internal/controller/service_controller.go:170-173 | In every run a Service whose stored states all name a load balancer class is never reconciled: no pass over it makes any call but to delete it. |
| Model.NameInjective | internal/controller/util.go:1072-1095 | Equal resource names belong to the same Service. |
| InvariantProof.RunInv | internal/controller/service_controller.go:119-206 | Every step of every interleaving keeps the protocol invariant that the safety theorems rest on. |
| ReleaseSafety.ReleaseSafe | internal/controller/util.go:793-896 | Under any interleaving from the start of a deleting pass: with coherent annotations no live or in-flight rule carries the Service's name when the pass turns to the load balancer, the one exception being a pass that asked its operation past the limit, found it still pending and gave up the hold, when a create of the name was in flight as the pass began; and when it turns to the finalizer, a hold given up or not, the recorded load balancer and every other of the name are gone. |
| ReleaseSafety.ReleaseLeavesLoadBalancer | internal/controller/service_controller.go:420-452 | Removing the finalizer leaves a live load balancer of the Service behind if and only if one was live when the pass began and its snapshot did not hold an id. |
| Witnesses.ReleaseCanLeaveLoadBalancer | internal/controller/service_controller.go:420-452 | That happens: for any fresh Service without a managed rule a run from the start releases it and leaves a live load balancer of its name. |
| ReleaseRules.ReleaseLeavesRule | internal/controller/util.go:793-896 | Under any interleaving and for any snapshot of a managed Service: past the rule step an old rule of the name is live if and only if the pass headed for another one by id (the recorded rule, or the one its operation reported) and nobody else dropped it since; only if the operation's record goes meanwhile may it be gone as well. A new rule comes only of a create that was in flight at the start and settled since. |
| ReleaseRules.CreatesStayInFlight | internal/controller/util.go:793-896 | For any snapshot: a create of the name is in flight during a deleting pass if and only if it was when the pass began and has not settled since. |
| ReleaseRules.ReleaseIsClean | internal/controller/util.go:793-896 | As long as no create of the name settles during the pass and the operation it asks keeps its record: past the rule step nothing of the name is live or in flight if and only if nothing was in flight when it began and no rule survives beside the one headed for. |
| ReleaseRules.UntrackedReleaseIsClean | internal/controller/util.go:850-896 | For a snapshot with neither rule id nor operation id that is: if and only if no create of the name was in flight when the pass began. |
| RuleWitnesses.ReleaseCanOrphanRule | internal/controller/util.go:793-896 | Such a rule is left in a run from the start: the recorded rule is dropped from outside, a new one comes of a create whose answer is lost, and the Service is then deleted and released. |
| RuleWitnesses.ReleaseCanLeaveRule | internal/controller/util.go:760-785 | Nor is a create in flight waited for that the annotations do not hold: a run from the start in which the answer to a rule create is lost releases the Service, and the operation then makes the rule. |
| CreationEffect.HealthyCreates | internal/controller/service_controller.go:119-417 | From any state: a pass that begins with the current Service, holding no load balancer id, with derivable ports, a name and no live load balancer of it, and whose calls up to the published address go well (a direct read that shows the Service or is forbidden, a complete list, a create operation seen to succeed), whatever the firewall step meets, sends exactly one create, for the protocol of the ports, ends without error, and leaves the stored Service recording the one live load balancer of its name, of that protocol, with the protocol beside the id and its VIP as the one external IP. |
| CreationEffect.HealthyPassExists | internal/controller/service_controller.go:209-417 | For every unmanaged Service in such a state that holds the finalizer, and any new ids and VIP, there is a pass that meets all of that. |
| Deletion.HealthyReleases | internal/controller/service_controller.go:420-507 | A pass that begins with the current state and meets a healthy API releases the Service and removes exactly its rule and its recorded load balancer from the cloud. |
| Deletion.CrashIdempotent | internal/controller/service_controller.go:142-168 | Any number of passes, each begun with any stored state of the Service being deleted, however old, cut at any call and with any failures, then one healthy pass on the current state, leave the same cloud as one healthy pass at once. |
| Deletion.CallProgress | internal/controller/util.go:813-895 | Each call of a healthy deleting pass strictly lowers a measure of at most seven. |
| Deletion.HoldIsBounded | internal/controller/util.go:817-842 | With passes ten seconds apart from the deletion on and an operation that never settles, passes within five minutes change nothing, there are at most 31 of them, and the next one releases the Service. |
| Deletion.CleanCallIsStep | internal/controller/service_controller.go:420-507 | A call of a deleting pass taken on its own is the step the whole system takes. |
| DeletionPass.CallsInOrder | internal/controller/service_controller.go:420-507 | Whatever is answered, a deletion asks the clock, the operation and the name in that order, then deletes the rule, drops its tracking, deletes the load balancer and removes the finalizer; any may be left out, none comes twice or out of turn. |
| DeletionPass.FinalizerComesLast | internal/controller/service_controller.go:142-168 | The finalizer's removal is the last call, after a recorded load balancer was answered deleted and after a managed, recorded rule was. |
| DeletionPass.LoadBalancerAfterRule | internal/controller/service_controller.go:420-452 | The load balancer DELETE is sent only for a recorded one, and only after a managed, recorded rule was answered deleted. |
| DeletionPass.DeletesOnlyGiven | internal/controller/util.go:807-870 | The rule deleted is the recorded one, or one that an answer of the pass gave: its operation's result, or a listed rule of exactly the name. |
| DeletionAnswers.DeletionByAnswers | internal/controller/util.go:793-896 | After any calls and answers a deletion stands where a reading of the snapshot, the statuses and the lists alone puts it. |
| DeletionAnswers.NextByAnswers | internal/controller/util.go:793-896 | The rule DELETE, the list of rules, the patch that drops the tracking, the load balancer DELETE and the removal of the finalizer are each turned to if and only if the answers so far make them due: an operation answered 400, 404, 410, failed, or succeeded without an id, or pending past the limit, leads to the name; any other failing answer to nothing more. |
| DeletionAnswers.EndsByAnswers | internal/controller/service_controller.go:420-507 | A deletion asks for a pass in ten seconds if and only if it is held on a pending operation, is an error if and only if its last answer is a failing one, and otherwise ended with the stored removal of the finalizer, due by the answers before it. |
| FirewallAnswers.ByAnswers | internal/controller/util.go:609-785 | After any calls and answers the firewall step stands where the annotations, the statuses and the lists alone put it. |
| FirewallAnswers.CreatesWhenDue | internal/controller/util.go:636-757 | A rule is created if and only if neither id was recorded, or the recorded rule was answered exactly 404, or the operation was answered 400, 404, 410 or succeeded without an id and a complete list without the name followed, or it failed and its cooldown had passed, after such a list if it reported a clash. |
| FirewallAnswers.PatchesWhenDifferent | internal/controller/util.go:636-667 | The recorded rule is patched, to the wanted one, if and only if it was read and differs in name, VPC or the multiset of ports, protocols or sources. |
| FirewallAnswers.StoresWhatWasTold | internal/controller/util.go:559-784 | What is stored is the rule id or the operation id that an answer gave, in place of what it overtakes. |
| FirewallAnswers.UnclearAnswerEnds | internal/controller/util.go:636-757 | Any error answer but those a decision can rest on is the last of the step, which ends with an error, and it ends with an error only so. |
| EnsureEffect.PassEffect | internal/controller/util.go:609-785 | The closed form of a healthy firewall pass for each of seven conditions it can find: unchanged, repaired, recorded by operation or by name, awaited, submitted, waited for. |
| SelfHealing.Closer | internal/controller/util.go:609-785 | Each healthy pass, with what settles or ages out before the next, lowers the number of passes that the condition found still needs, and keeps it at zero. |
| SelfHealing.FourPassesHeal | internal/controller/util.go:609-785 | From any annotations recording only the Service's own rule and operations, four passes leave the one live rule of its name recorded and matching; every later pass changes nothing and asks for none. |
| FutureFailures.WaitsAgain | internal/controller/util.go:588-599 | The wait asked for after a failed create is followed by another one if and only if the failure is stamped after the pass. |
| FutureFailures.FutureFailureStalls | internal/controller/util.go:731-741 | As long as a failure is stamped after them, passes that come as soon as asked, against a healthy API, all change nothing. |
| FutureFailures.NoBoundWithoutTimely | internal/controller/util.go:731-741 | For every number of passes there is a start, sound but for a failure stamped in the future, that so many on-time healthy passes leave unhealed. |
| EnsureSteps.EnsureCallIsStep | internal/controller/util.go:609-785 | A call of the firewall step taken on its own is the step the whole system takes, with the same answer. |
| EnsureSteps.EnsureRunIsRun | internal/controller/util.go:609-785 | A whole firewall pass, whatever the fates of its calls, is a run of the whole system that ends with the same cloud and the same stored Service. |
| RateBound.PassInCooldown | internal/controller/util.go:731-741 | For a pass on the current Service whose create and patch, if it comes to them, succeed: inside the cooldown of a failed create no create is sent and the pass asks to come back within (0, 120 s] unless a read fails; a create comes at least 120 s after the last. |
| RateBound.CreateRate | internal/controller/util.go:708-741 | While creates keep failing without a clash, passes begin with the current Service, and each accepted create is heard and its operation id stored, creates are at least 120 s apart, and a window of length T holds at most floor(T / 120 s) + 1 of them. |
| RateBound.CreatesAgain | internal/controller/util.go:609-785 | Exactly when that fails: after any pass, failed or cut, that got a create accepted, the next pass less than 120 s later, begun with the state that pass began with or the one it left and against a healthy API, sends another create if and only if that state does not hold the operation. |
| RateBound.LostRecordBreaksRate | internal/controller/util.go:760-784 | That happens: with nothing recorded, a pass whose annotation patch is lost and a healthy one right after it send two creates one nanosecond apart. |
| Apis.World.Send | internal/controller/service_controller.go:57-77 | Makes one call the protocol allows; the state stays that of a run, whatever everybody else did before and whatever the call's fate, and the pass learns exactly the answer. |
| Controller.ServiceReconciler.Reconcile | internal/controller/service_controller.go:119-206 | A pass is part of a run, makes exactly the calls its snapshot and the answers ask for, deleting or not, returns what they come to, and, ending without error or requeue, has come to rest in one of five ways or released the Service. |
| PassTheorems.OneCreateOnGrounds | internal/controller/service_controller.go:244-304 | A pass creates at most one load balancer, and only after its own direct read did not forbid it and its own complete lookup listed none of the name; an operation answered is waited for next. |
| PassAnswers.PassByAnswers | internal/controller/service_controller.go:119-206 | Every pass over a Service that is not being deleted makes the calls, and returns the delay and error, that the annotations, the ports and the answers call for: told without the predicates the methods are proved against, creation, update, listeners and firewall step each call by call. |
| PassAnswers.CreationByAnswers | internal/controller/service_controller.go:209-417 | For a Service without a recorded load balancer: which answers end the pass, which list item is adopted with which protocol, that an empty list leads to one create with the protocol and listeners of the ports, and that id and protocol, then the VIP, are stored before the rule is seen to. |
| PassAnswers.CreatesWhenClear | internal/controller/service_controller.go:272-304 | A direct read that allows it, a VPC, a name and a complete list without the name are followed by a create for the protocol of the ports. |
| PassAnswers.UpdateByAnswers | internal/controller/service_controller.go:510-543 | For one with a recorded load balancer: the VIP read from it is published when there is none, the listeners of the ports it serves are sent to it, then the rule is seen to; a failed update asks for a pass in ten seconds. |
| PassAnswers.RuleStepByAnswers | internal/controller/util.go:609-634 | The firewall step does nothing without the annotation or a project; an unreadable VPC is its error; without a name, a port left or a destination it asks for no rule. |
| PassAnswers.PublishesOnlyVips | internal/controller/service_controller.go:390-417 | Each address a pass publishes was, by an answer right before the write or before the record, the VIP of the recorded load balancer: a read of that id, the adopted list item of the name, or the succeeded create operation. |
| Controller.ServiceReconciler.Operate | internal/controller/service_controller.go:189-205 | Creates for a Service without a recorded load balancer, updates any other. |
| Controller.ServiceReconciler.AddFinalizer | internal/controller/service_controller.go:177-184 | The finalizer is stored before anything else is done for the Service. |
| Controller.ServiceReconciler.HandleCreate | internal/controller/service_controller.go:209-244 | Unservable ports end the pass with no call; a stale or unreadable Service ends it with a requeue or an error; otherwise the create steps follow. |
| Controller.ServiceReconciler.CreateFor | internal/controller/service_controller.go:246-270 | Nodes and VPC are looked up first; without a VPC or a name the pass fails before any load balancer call. |
| Controller.ServiceReconciler.AdoptOrCreate | internal/controller/service_controller.go:272-292 | An unreadable list is an error; the first exact match is recorded with its own protocol where known; an empty match, and only that, leads to the create. |
| Controller.ServiceReconciler.CreateLoadBalancer | internal/controller/service_controller.go:294-330 | One create with the derived protocol and listeners, then the wait for its operation; a client error is reported as not to be retried. |
| Controller.ServiceReconciler.AwaitLoadBalancer | internal/controller/service_controller.go:321-350 | The wait ends with the load balancer only for an operation seen succeeded with a readable result. |
| Controller.ServiceReconciler.RecordAnnotations | internal/controller/service_controller.go:364-388 | Id and protocol are written together in one merge patch and, once stored, are in the Service in memory. |
| Controller.ServiceReconciler.RecordLoadBalancer | internal/controller/service_controller.go:359-417 | Record, then publish the VIP, then the firewall rule, each only after the one before was stored; a rule error becomes a ten second requeue. |
| Controller.ServiceReconciler.HandleUpdate | internal/controller/service_controller.go:510-543 | External IP, then listeners, then rule; the pass asks for the sooner of the two delays and is quiet only when IP and rule are settled. |
| Controller.ServiceReconciler.UpdateLoadBalancer | internal/controller/util.go:398-470 | Sends exactly the listeners for the ports the load balancer can serve from the nodes just listed, or nothing when every port was edited away. |
| Controller.ServiceReconciler.EnsureLoadBalancerIngress | internal/controller/service_controller.go:631-665 | No call when an IP is published; otherwise the VIP the recorded load balancer answers is published, or tried again after ten seconds. |
| Controller.ServiceReconciler.SetLoadBalancerIngress | internal/controller/service_controller.go:614-623 | Publishes the VIP with one call; on an error the pass keeps its last known copy of the Service, whatever became of the stored one. |
| Controller.ServiceReconciler.CachedServiceIsStale | internal/controller/service_controller.go:548-578 | Recorded, deleted or missing in a direct read means stale; a forbidden read does not; anything else is an error. |
| Controller.ServiceReconciler.FindExistingLoadBalancer | internal/controller/service_controller.go:583-611 | The first exact match of the list; none means no load balancer of the name is listed; an unreadable list is an error. |
| Controller.FilterByName | internal/crusoe/lookup.go:71-80 | Keeps exactly the items of that name, in order. |
| Controller.ServiceReconciler.GetFirewallRuleArgs | internal/controller/util.go:906-983 | The wanted rule as a function of the Service, its source ranges included, and of the VPC and node lookups, each made only when still needed; error and deliberate skip kept apart. |
| Controller.ServiceReconciler.EnsureFirewallRule | internal/controller/util.go:609-785 | The calls made, the wait asked for and the error are exactly those of the firewall step for the wanted rule; quiet means unmanaged, skipped or recorded. |
| Controller.ServiceReconciler.CheckRecordedRule | internal/controller/util.go:636-667 | A matching rule is left, a differing one patched, one answered 404 forgotten together with its operation; any other error ends the pass and keeps them. |
| Controller.ServiceReconciler.ResolveOperation | internal/controller/util.go:668-757 | Each outcome of a recorded operation leads to recording, adopting, waiting, an error or a new create, as the step prescribes. |
| Controller.ServiceReconciler.AdoptFirewallRuleByName | internal/controller/util.go:559-580 | Records the first listed rule of exactly the name and drops the operation id in the same patch. |
| Controller.ServiceReconciler.CreateFirewallRule | internal/controller/util.go:760-784 | Submits the wanted rule and stores the operation id; the pass asks for another one in ten seconds. |
| Controller.ServiceReconciler.GetFirewallRuleOperationResult | internal/controller/util.go:1025-1063 | Reads the operation once and classifies it: rule, pending, failed, unresolvable, transient. |
| Controller.FirstNamed | internal/controller/util.go:541-554 | The first listed rule of exactly that name, None only when no listed rule has it. |
| Controller.ServiceReconciler.DeleteFirewallRule | internal/controller/util.go:793-896 | Ends with the rule step cleared, held for an in-flight operation, or failed; nothing else of the pass has moved. |
| Controller.ServiceReconciler.RuleOfOperation | internal/controller/util.go:813-849 | Reads the clock, then the operation: holds exactly for a pending operation at most five minutes after the deletion, fails exactly on an unclear answer, otherwise goes on with the operation's rule or, without one, with the name, remembering when a pending operation was given up. |
| Controller.ServiceReconciler.HandleDelete | internal/controller/service_controller.go:420-507 | The calls since the pass began are its prescribed ones up to here; a hold asks for a pass in ten seconds, a failed rule step or load balancer DELETE is an error, and success leaves only the finalizer. |
| Controller.ServiceReconciler.ReconcileDeletion | internal/controller/service_controller.go:142-168 | The calls of the pass are a whole deletion, and error and delay are what it comes to; quiet success means the last call removed the finalizer and was stored. |
| ControllerSafety.CallsAreSafe | internal/controller/service_controller.go:119-206 | Every state a reconciler brings about, at any point of any pass, has unique load balancer names and records that are the Service's own. |
| Permits.FollowsOn | internal/controller/util.go:609-785 | Each answer leads to the next stage of the firewall step with what that stage relies on. |
| Permits.ViewLearned | internal/controller/service_controller.go:273-292 | A listed load balancer of the name is known as the Service's, with the protocol it reports. |
| Permits.SettledFrom | internal/utils/utils.go:89-129 | The operation a wait ends with is the first one or one answered with status 200. |
| RuleCompare.CompareFirewallRule | internal/controller/util.go:985-1016 | Sorts both sides in place and is true exactly when name and VPC match and ports, protocols and sources are equal as multisets. |
| RuleCompare.SortedDecides | internal/controller/util.go:987-996 | Sorting, sources by CIDR only, decides multiset equality because derived sources carry a CIDR and nothing else. |
| RuleCompare.CidrOrderMatters | internal/controller/util.go:989-994 | Two rules with the same sources that the comparison tells apart once sources carry more than a CIDR. |
| RuleCompare.PatchMakesMatch | internal/controller/util.go:646-667 | After a PATCH with the derived arguments the next comparison is true if and only if the rule was in the right VPC. |
| MergePatch.PatchExact | internal/controller/util.go:577-579 | A merge patch reproduces the intended annotations on an unchanged Service and touches only what was meant to change on any other. |
| MergePatch.PatchIdempotent | internal/controller/service_controller.go:369-388 | Sending the patch again changes nothing. |
| Timing.FirewallRuleRetryWait | internal/controller/util.go:588-599 | What is left of two minutes after the first readable of two timestamps, within [0, 120 s], zero without one. |
| Timing.EarliestRequeue | internal/controller/service_controller.go:669-679 | The least positive delay; zero exactly when none is positive. |
| Ports.DeriveLoadBalancerProtocol | internal/controller/util.go:186-211 | Unsupported if any port is neither TCP nor UDP, mixed if both occur, otherwise UDP exactly when some port is UDP. |
| Ports.ServicePortsForProtocol | internal/controller/util.go:217-231 | Exactly the ports of the protocol, in order. |
| Ports.FilterIdentity | internal/controller/service_controller.go:246-246 | At creation the filter keeps every port of a list whose protocol could be derived. |
| Ports.CollectBackendIps | internal/controller/util.go:255-273 | The internal addresses of the ready, included nodes, in order. |
| Ports.ParseListenPortsAndBackends | internal/controller/util.go:245-305 | One listener for each port with a node port, every backend at that node port; empty when the nodes could not be listed. |
| Ports.ListenersExact | internal/controller/util.go:276-305 | There is a listener for each port with a node port, listening on the port, over every backend at the node port, and no other. |
| Ports.BackendIpsExact | internal/controller/util.go:255-273 | An address is a backend if and only if it is an internal address of a node that is ready and not excluded. |
| Ports.OfferedExact | internal/controller/util.go:413-431 | With a protocol recorded exactly the ports of it are offered, in order; without one all of them. |
| FirewallArgs.CollectDestinationPorts | internal/controller/util.go:958-966 | The backend ports of all listeners without repetition. |
| FirewallArgs.CollectProtocols | internal/controller/util.go:950-956 | The lower-case protocols without repetition. |
| FirewallArgs.RuleAgreesWithListeners | internal/controller/util.go:398-443 | The rule's ports are exactly the backend ports of the listener payload, even from different node reads, without repetition, and its protocol list is a singleton for a recorded protocol. |
| FirewallArgs.SkipAgreesWithListeners | internal/controller/util.go:958-971 | With backends in sight of both node reads the rule is skipped if and only if the listener payload, computed from another read, sends nothing anywhere. |
| FirewallArgs.ArgsExact | internal/controller/util.go:906-983 | The wanted rule has the name and the VPC looked up, one source for each source range, in order and with no resource id, or 0.0.0.0/0 when there are none, and the recorded protocol in lower case. |
| FirewallArgs.PortsAreDecimal | internal/controller/util.go:958-966 | A port is written as the decimal numeral of its number, digits only and without a leading zero. |
| NodeEvents.DroppedEventsHarmless | internal/controller/service_controller.go:719-768 | After any sequence of rejected node events with fixed addresses the set of backends is the one before it. |
| NodeEvents.DroppedEventKeepsBackends | internal/controller/service_controller.go:724-757 | A rejected create or update of one node does not change whether any address is a backend. |
| NodeEvents.AcceptsExact | internal/controller/service_controller.go:719-768 | A created node is worth a reconcile exactly when it is included, an updated one exactly when its being usable or its being included changes. |
| Names.ResourceNameLength | internal/controller/util.go:1072-1095 | Names stay under 50 bytes, are 49 when shortened, and are refused exactly when shortening is needed and the namespace exceeds 34 bytes. |
| Names.NameDeterminesHash | internal/controller/util.go:1072-1095 | Equal names end in the same hash. |
| Names.ResourceNameForm | internal/controller/util.go:1072-1095 | A name is namespace, service and hash joined by hyphens, the service cut to what 49 bytes leave for it when the whole would reach 50. |
| Polling.WaitForOperation | internal/utils/utils.go:89-129 | Returns only an operation that is no longer in progress and was the last one answered with status 200; after n >= 4 polls it has slept within [8n - 22, 9n - 22) seconds. |
| Polling.OutcomeExact | internal/utils/utils.go:89-129 | A wait ends with the first operation heard that is not in progress, and fails on the first poll that is not answered with status 200 while it was. |
| Polling.BackoffNeverDecreases | internal/utils/utils.go:119-123 | The backoff never decreases. |
| Polling.WholeSecondsClosed | internal/utils/utils.go:119-123 | From the fourth poll on the backoff is eight seconds and the truncated sleeps sum to 8n - 22 seconds. |
| Auth.CanonicalizeQuery | internal/crusoe/auth.go:116-155 | The loop computes the canonical form of the decoded map and the error that is left. |
| Auth.EncodeQuery | internal/crusoe/auth.go:159-183 | Prints keys in ascending order with their values in list order, separators only between items. |
| Auth.GenerateMessage | internal/crusoe/auth.go:93-110 | Fails exactly when the query has an error; otherwise the four lines in order. |
| Auth.MessageExact | internal/crusoe/auth.go:93-110 | The signed bytes are path, canonical query, verb and timestamp with a newline after each. |
| Auth.MessageDecides | internal/crusoe/auth.go:93-110 | With newline-free verb and timestamp two requests give the same message if and only if path, decoded query map, verb and timestamp agree. |
| Auth.FramedInjective | internal/crusoe/auth.go:93-110 | The framing can be read back from its end although a path may hold newlines. |
| Escaping.UnescapeEscape | internal/crusoe/auth.go:171-178 | Unescaping what was escaped gives the bytes back, for every byte string. |
| Escaping.EscapeExact | internal/crusoe/auth.go:171-178 | Letters, digits and - . _ ~ are kept, a space becomes a plus, every other byte a percent sign and two upper-case digits. |
| Escaping.UnescapeExact | internal/crusoe/auth.go:116-155 | A percent sign takes two digits of either case, a plus is a space, any other byte itself. |
| QueryTheorems.RoundTrip | internal/crusoe/auth.go:116-183 | Printing a map of non-empty lists and canonicalizing it decodes back to the map, prints the same string and reports no error. |
| QueryTheorems.CanonicalAscends | internal/crusoe/auth.go:159-183 | The canonical form is the escaped pairs joined by ampersands, keys strictly ascending byte by byte, each key with the values the query gives it in the order given. |
| QueryTheorems.SegmentExact | internal/crusoe/auth.go:116-155 | A segment gives its one pair, cut at the first equals sign; none when it is empty, holds a semicolon or cannot be unescaped. |
| QueryTheorems.ErrorExact | internal/crusoe/auth.go:116-155 | A query is in error if and only if it holds a semicolon or a segment with a malformed escape, the semicolon taking precedence. |
| QueryTheorems.CanonicalIdempotent | internal/crusoe/auth.go:116-155 | Canonicalizing is idempotent on every input, erroneous ones included, and its output has no error. |
| QueryTheorems.CanonicalDecides | internal/crusoe/auth.go:116-183 | Two queries have the same canonical string if and only if they decode to the same map. |
| QueryTheorems.CanonicalPerKey | internal/crusoe/auth.go:116-155 | That is: if and only if each key has the same values in the same order. |
| QueryTheorems.SwapKeepsCanonical | internal/crusoe/auth.go:116-155 | Swapping neighbouring pairs with different decoded keys does not change the canonical string. |
| CanonicalQuery.SortKeys | internal/crusoe/auth.go:163-167 | The order in which the keys are taken from the map does not matter: they come out in ascending order, none lost or repeated. |
| Strings.LeqExact | internal/crusoe/auth.go:168-168 | The order they are sorted in: a before b exactly when a is a prefix of b or is smaller at the first place they differ. |

## Left out

- HTTP transport, signing and encoding: HMAC, base64 and header handling only carry the message modelled here.
- JSON: a result decodes to an item with an id, without one, or not at all.
- VPC, subnet and cluster lookup: one call that answers with a VPC or fails; the location is not modelled.
- Reading the cache: a pass always gets the cached Service or "not found"; other cache errors only end the pass.
- Health check options in the create and update payloads, Events, logging and message texts.
- Manager setup, watches, leader election and the work queue beyond one pass at a time for each Service.
- Finalizers and annotations of other controllers: a Service is gone once this controller's finalizer is.
- Load balancer creates that are accepted late, after the list has missed them: the visibility assumption excludes them.
- In-memory annotations after a failed patch of ensureFirewallRule: nothing reads them before the pass ends.
- Controller.ServiceReconciler.AwaitLoadBalancer: a wait that is still polling when its answers run out counts as a failed pass.
- ReleaseSafety.ReleaseSafe: coherence is assumed of the snapshot a pass begins with. Tracking.RecordsOwnRule proves less in every run: a recorded rule id is the Service's own or gone, while coherence also needs that no other rule of the name is live; ReleaseRules.ReleaseIsClean says exactly what happens without it, and RuleWitnesses has two runs.
- ReleaseRules.ReleaseIsClean: when a create of the name settles during the pass, whether its rule stays depends on whether that comes before or after the pass looks for the name; ReleaseRules.ReleaseLeavesRule only says where such a rule comes from.
- Deletion.CrashIdempotent: other Services, users and settling operations do not act between the passes compared.
- SelfHealing.FourPassesHeal: each pass counted begins with the current stored Service, as do those of EnsureEffect and FutureFailures; the Service's ports, ranges and nodes do not change between them, and failed operations carry timestamps that are not in the future.
- RateBound.CreateRate: each pass begins with the current stored Service, an accepted create is heard, the patch that stores its operation id takes effect and is heard, and the records of failed operations do not age out along the run. RateBound.CreatesAgain says exactly when the bound fails without the first three.
- EqualPorts, EqualSelectors, CopyPortsFromService and protocolName: unused or immediate.
