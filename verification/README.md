# OpenSurge gateway: verified model

A Dafny model of the logic at the heart of the OpenSurge gateway, and proofs of what that logic
promises. `dafny verify dfyconfig.toml` checks the whole project.

What is modelled, and what the main theorems say:

- **Device policies** (`PolicyModel`, `PolicyValidation`, `PolicyCompiler`, `PolicyMeaning`,
  `PolicyTheorems`, `PolicyStructure`, `PolicyCompilation`, `PolicyExample`, `RuleText`). Devices,
  profiles, templates and rule sets are compiled into flat first-match rules, selector groups and rule
  providers. `PolicyCompilation.CompiledPolicyMeaning`: for every valid document, inventory and packet
  the compiled lists decide exactly as the source device's resolved profile does, and no rule fires for
  any other address. Conditions are uninterpreted predicates on packets. `RuleText` adds that no two
  compiled rules are written as the same line.
- **Gateway lifecycle** (`GatewayWorld`, `GatewayLifecycle`, `GatewayRecovery`,
  `GatewayExample`). `Machine` is a durable
  journal, a kernel and a process table together with the list of all worlds they went through; every
  call may fail, and some fail halfway. What a promise needs of the environment (that SmartDNS can be
  stopped, that records can be written, that probes answer) is a constant or a parameter. Every
  lifecycle method keeps the whole past `Safe`: at each crash point the durable snapshot names every
  OpenSurge object in the kernel, and a durable record that says running with routing applied is true.
  `GatewayRecovery.Runner.InterruptedRequest` cuts a request off anywhere and recovers; a recovery that
  reports success leaves a settled runtime.
- **Automatic recovery** (`RecoveryLog`, `MihomoRecovery`, `RecoveryMonitor`, `DnsmasqRecovery`). The
  controllers are classes with a ghost log of all their effective calls. `RecoveryLog.StartsAreSpaced`
  and `DnsmasqRecovery.StartsAreSpaced` say what must lie between two automatic starts in any history.
- **Profiles** (`RealIP`, `ProfilePatch`, `ConfigTransaction`, `ProfileReconcile`, `ReconcileExample`).
  A patched filter decides the targets as real-IP and all other domains as before; a failed
  configuration update leaves what it found, for every pattern of failures; the effective profile is
  always a fresh composition from one raw source.
- **Text and time** (`ConfigText`, `ConfigFile`, `Cron`). Loading a printed configuration gives it back;
  a cron expression fires at the earliest matching minute of a UTC calendar.
- **Addresses and traffic** (`DhcpPool`, `DeviceTraffic`, `TrafficRates`). A suggested DHCP pool is safe
  and passes the validators; connections, bytes and rates are conserved.
- `Text`, `Int64` and `Arithmetic` hold what several of these share.

Files that update objects step by step are classes and loops here, each method proved against a function
of its inputs; expressions are functions. A recurring shape is a function that builds its result from
the front of a sequence and the last element, because the loops do.

Where the code does not meet the natural reading of its promise, the exact condition is proved:

- The size of a match is a product of machine integers. It equals the number of variants if and only if
  that number is below 2^63 (`PolicyTheorems.CombinationCountExact`); five lists of 8192 values have
  2^65 variants, count as none and pass validation (`PolicyExample.HugePolicyIsValid`).
- A cron range with an enormous step wraps: it selects exactly its own values if and only if `start -
  min < 2 * (2^63 - step)` (`Cron.WrapExactly`). The field "5-59/9223372036854775806" is accepted and
  also selects 1 (`Cron.WrapHappens`).
- A stop that starts from a complete gateway and reports success keeps SmartDNS backed by its data plane
  at every point if and only if the durable record names every live SmartDNS
  (`GatewayLifecycle.Manager.Stop`). SmartDNS is spawned before it is recorded, so a crash in between
  leaves one that the next stop does not see (`GatewayExample.CrashedIsStray`,
  `GatewayExample.StopAfterCrash`).
- Restarting dnsmasq stops the recorded pid. Under a running record that keeps journal and record true
  if and only if the pid is not mihomo's (`GatewayLifecycle.MistakenResolver`).
- Unquoting undoes quoting if and only if the text is printable and has no double quote or backslash
  (`ConfigText.UnquoteUndoesQuote`), and a printed configuration loads only if no line is longer than
  the scanner's buffer (`ConfigFile.ConfigReadsBack`).
- An accepted profile update of a running gateway leaves a configuration that names a missing profile if
  and only if its reload and the writing back of the configuration both fail, its file is new, and that
  file can be removed (`ConfigTransaction.Workspace.ApplyProfile`, `ReconcileExample.DanglingUpdate`).
- A second reconcile with unchanged inputs proposes nothing if and only if the raw source is archived,
  or no overlay was applied and composing changed nothing; otherwise it is refused
  (`ProfileReconcile.SecondReconcile`), as for a profile first composed from the managed base
  (`ReconcileExample.SecondReconcileRefused`).
- When two leases share an address, rows of the traffic listing no longer correspond to addresses; the
  per-row clauses of `DeviceTraffic.Aggregate` need distinct lease addresses, the totals do not.
- Two refused connections in a row are needed only for an incident's first attempt
  (`MihomoRecovery.Controller.ObserveFailure`), and a permanent error does not end automatic recovery
  for good (`RecoveryMonitor.RetryAfterPermanentError`).
- The crontab utility of IEEE Std 1003.1 (section INPUT FILES) words the month differently from the
  code: here the month always restricts, and a restricted day of the month and a restricted day of the
  week are alternatives (`Cron.MatchesMeansFires`).

## Model

| member | source | states |
|---|---|---|
| PolicyValidation.ValidatePolicySet | internal/device/policy.go:196-328 | reports no fault exactly on documents that meet every rule of the format: identifiers, distinct devices, profiles, templates, rule sets and their references |
| PolicyValidation.ValidateRules | internal/device/policy.go:671-701 | accepts a rule list exactly when every rule is valid and no two share an id |
| PolicyValidation.ValidateMatch | internal/device/policy.go:703-750 | accepts a match exactly when it is a known template alone, or direct conditions with declared rule sets and a counted size of at most 256 |
| PolicyValidation.ValidatePolicyList | internal/device/policy.go:949-964 | accepts a selector's candidates exactly when each is valid and none is repeated |
| PolicyValidation.ValidateDevices | internal/device/policy.go:277-327 | accepts devices exactly when each is valid and no two clash in id, MAC or IPv4 |
| PolicyValidation.ValidateProfile | internal/device/policy.go:251-275 | accepts a profile exactly when its template, selector, default list and rules are valid |
| PolicyCompiler.ResolveSelector | internal/device/resolution.go:66-102 | the candidates that remain of a selector, and the recorded fallback or missing targets |
| PolicyCompiler.AppendConditionDimension | internal/device/policy.go:834-847 | extends every variant by every condition, in order; no condition leaves the variants alone |
| PolicyCompiler.RuleVariants | internal/device/policy.go:807-832 | the AND/OR expansion of a match or of its template; an error on an unknown template or an empty match |
| PolicyCompiler.CompileRule | internal/device/policy.go:513-550 | the rules, groups and uses of one rule of a profile |
| PolicyCompiler.CompileRoutedDevice | internal/device/policy.go:492-577 | everything one device on the data path contributes |
| PolicyCompiler.CompileDevices | internal/device/policy.go:456-577 | the device contributions put together in document order; the first failing device stops compilation |
| PolicyCompiler.CompileProviders | internal/device/policy.go:564-575 | one provider per used rule set, in ascending order of id |
| PolicyMeaning.FirstMatchConcat | internal/device/policy.go:492-560 | a first-match list decides by its first part that matches |
| PolicyMeaning.CrossMeaning | internal/device/policy.go:834-847 | some extended variant holds exactly when some variant and some condition hold |
| PolicyMeaning.ExpansionMeaning | internal/device/policy.go:807-832 | some variant of the expansion holds exactly when the match holds: AND across fields, OR within each |
| PolicyMeaning.SelectorMeaning | internal/device/resolution.go:66-102 | a selector is dropped exactly when nothing of it may be used |
| PolicyMeaning.SelectorFiltering | internal/device/resolution.go:66-102 | with missing targets a selector is dropped or becomes exactly its available candidates, each as often as before, effective selection first |
| PolicyMeaning.VariantRulesMeaning | internal/device/policy.go:543-549 | the rules of all variants decide like the OR of the variants; a REJECT follows each target that may not carry a packet |
| PolicyMeaning.RuleMeaning | internal/device/policy.go:513-550 | the flat rules of one rule decide every packet as the rule itself does, and none from another address |
| PolicyMeaning.RulesMeaning | internal/device/policy.go:513-550 | the flat rules of a device interpret its rule list from first to last |
| PolicyMeaning.CatchAllMeaning | internal/device/policy.go:551-560 | the catch-all rules of a device decide every packet from its address and no other |
| PolicyTheorems.VariantCount | internal/device/policy.go:807-847 | the number of variants is the product of the field sizes |
| PolicyTheorems.ValidMatchExpands | internal/device/policy.go:807-832 | every validated match expands, into as many variants as it has combinations |
| PolicyTheorems.CombinationCountExact | internal/device/policy.go:892-903 | the machine product equals the number of variants if and only if that number is below 2^63 |
| PolicyTheorems.CombinationCountWraps | internal/device/policy.go:892-903 | any five lists of 8192 values have 2^65 variants but count as none |
| PolicyExample.HugeIsValid | internal/device/policy.go:703-750 | such a match passes validation: the limit of 256 lets it through |
| PolicyExample.HugePolicyIsValid | internal/device/policy.go:196-328 | a whole document with one device and such a match is valid |
| PolicyTheorems.ValidMatchBounded | internal/device/policy.go:746-748 | a validated match has at most 256 combinations if and only if their number is below 2^63 |
| PolicyTheorems.ValidRulesCompile | internal/device/policy.go:513-550 | valid rules compile for every inventory |
| PolicyTheorems.DevicesCompile | internal/device/policy.go:447-577 | devices with valid profiles compile for every inventory and LAN mode |
| PolicyTheorems.DeviceMeaning | internal/device/policy.go:492-560 | each rule list of one device decides as its resolved profile says |
| PolicyTheorems.SectionsMeaning | internal/device/policy.go:456-577 | the lists of all devices decide a packet as the device at its source address alone would |
| PolicyStructure.GroupNameInjective | internal/device/policy.go:617-619 | different devices or slots never share a selector group name |
| PolicyStructure.GroupNamesDistinct | internal/device/policy.go:498-560 | selector group names of a compiled document are pairwise distinct |
| PolicyStructure.DocumentTargetsEmitted | internal/device/policy.go:498-560 | every device group that a rule sends packets to is emitted |
| PolicyStructure.ExpansionMentions | internal/device/policy.go:807-832 | a variant refers to a rule set's provider exactly when the match lists the rule set |
| PolicyStructure.DocumentUses | internal/device/policy.go:536-575 | the recorded used rule sets are exactly those that override rules refer to |
| PolicyStructure.CompleteInventoryChangesNothing | internal/device/resolution.go:34-53 | an inventory that has every target compiles to the same policy as no inventory at all |
| PolicyCompilation.ActivePolicySetForLAN | internal/device/policy.go:418-431 | the document with exactly the devices of the LAN, in order |
| PolicyCompilation.LANSubsetIsValid | internal/device/policy.go:422-431 | restricting a valid document to a LAN leaves it valid |
| PolicyCompilation.ValidDocumentCompiles | internal/device/policy.go:447-577 | every valid document compiles and uses only declared rule sets; valid includes documents whose match count wrapped to zero, which stand for 2^65 rules (PolicyExample.HugePolicyIsValid) |
| PolicyCompilation.CompilePolicySet | internal/device/policy.go:447-577 | compilation succeeds exactly on valid documents, and the providers are exactly the rule sets in use |
| PolicyCompilation.CompiledPolicyMeaning | internal/device/policy.go:492-577 | for every valid document and packet, the compiled lists give the verdict of the source device's resolved profile, and nothing fires for other addresses or upstream-router devices |
| PolicyCompilation.CompiledPolicyShape | internal/device/policy.go:447-577 | for every LAN subset and inventory: distinct group names, and every target emitted |
| RuleText.ComposeRule | internal/device/policy.go:881-890 | the rule's line |
| RuleText.LinesAreUnambiguous | internal/device/policy.go:881-890 | rules whose texts have no commas share a line only if they are equal |
| RuleText.ExpansionWritable | internal/device/policy.go:703-750 | nothing that a validated match expands to has a comma in it |
| RuleText.RulesWritable | internal/device/policy.go:513-550 | every override rule of a device with valid rules is one that its line determines |
| GatewayWorld.Machine.SaveState | internal/runtime/state.go:55-128 | writes the record with its cleanup intents marked, or nothing |
| GatewayWorld.Machine.RemoveState | internal/runtime/state.go:139-148 | removes the record; a failure may have removed it as well |
| GatewayWorld.Machine.SetupNAT | internal/platform/linux/backend.go:78-87 | installs the table; a failure may leave it behind |
| GatewayWorld.Machine.SetupPolicyRouting | internal/platform/linux/routing.go:481-573 | installs routes and rule of an installable recipe; a failure may leave some behind |
| GatewayWorld.Machine.Restore | internal/platform/linux/backend.go:273-324 | removes the objects that the snapshot names, in its own network namespace only |
| GatewayWorld.RestartKeepsConsistency | internal/runtime/boot.go:17-46 | a restarted container keeps the journal invariant |
| GatewayLifecycle.Manager.StopTracked | internal/gateway/manager.go:180-198 | signals only the recorded pid, and with a recorded fingerprint only a live process that has it; success means it is gone |
| GatewayLifecycle.Manager.TrackedRunning | internal/gateway/manager.go:200-209 | true only of a live process with the recorded identity, and true of it whenever the identity check answers |
| GatewayLifecycle.Manager.Begin | internal/gateway/manager.go:233-387 | nothing reaches the kernel before the first durable record names all of it |
| GatewayLifecycle.Manager.RecordRecipe | internal/gateway/manager.go:439-453 | on success the recipe with the TUN that came up is in the durable record; nothing is installed yet |
| GatewayLifecycle.Manager.ApplyNAT | internal/gateway/manager.go:455-465 | success means that the table is in the kernel and flagged; the record covers it at every point |
| GatewayLifecycle.Manager.ApplyRouting | internal/gateway/manager.go:468-478 | routing is flagged only after it was verified |
| GatewayLifecycle.Manager.BringUp | internal/gateway/manager.go:389-478 | when it succeeds the NAT table is in the kernel, routing is verified, and the record names a live mihomo and a needed live dnsmasq; SmartDNS is not started |
| GatewayLifecycle.Manager.ExposeDNS | internal/gateway/manager.go:480-499 | SmartDNS last; success is a started gateway, and after a failure the state names the only SmartDNS |
| GatewayLifecycle.Manager.Start | internal/gateway/manager.go:233-520 | at every crash point the journal covers the kernel and a running record is true; success leaves a healthy gateway whose record names its services; SmartDNS is never alive without a complete data plane on success, nor on failure where SmartDNS can be stopped |
| GatewayLifecycle.Manager.Dismantle | internal/gateway/manager.go:883-898 | front door first: a recorded SmartDNS that can be stopped is gone from the first step on; a stray one is seen alive without routing by every clean teardown; clean means no kernel object and no recorded service is left |
| GatewayLifecycle.Manager.Rollback | internal/gateway/manager.go:1024-1050 | a clean rollback leaves neither record, kernel object nor recorded service, and SmartDNS never outlives its data plane; any other rollback keeps the record that covers what is left |
| GatewayLifecycle.Manager.Stop | internal/gateway/manager.go:848-911 | success leaves neither record, kernel object nor recorded service; a successful stop keeps SmartDNS backed at every point if and only if the durable record named every live SmartDNS; a record of another boot never leads to a signal |
| GatewayLifecycle.Manager.TearDown | internal/gateway/manager.go:874-898 | the durable stopping mark, then the dismantling, with the same front-door clauses |
| GatewayLifecycle.UnrecordedFrontDoorIsStray | internal/gateway/manager.go:480-499 | a crash between spawning SmartDNS and recording it leaves a SmartDNS that no record names |
| GatewayExample.CrashedIsStray | internal/gateway/manager.go:480-499 | a concrete consistent world right after that crash |
| GatewayExample.StopAfterCrash | internal/gateway/manager.go:848-911 | from that world every stop that reports success takes the network away from under a live SmartDNS |
| GatewayLifecycle.Manager.CleanupInterrupted | internal/gateway/manager.go:927-950 | clears a record of another boot without signalling any pid |
| GatewayLifecycle.Manager.Reload | internal/gateway/manager.go:580-619 | a gateway of another boot or with a dead service is left exactly as it is; otherwise stop and start, with the front-door clause of both |
| GatewayLifecycle.Manager.RestartMihomo | internal/gateway/manager.go:628-749 | the running record is withdrawn before mihomo is touched and returns only over reinstalled and verified routing, naming the live replacement |
| GatewayLifecycle.Manager.StopEngine | internal/gateway/manager.go:673-693 | withdraws the record, then stops mihomo: success means it is gone; a survivor is recorded again with its routing claim wherever records can be written and its identity checked |
| GatewayLifecycle.Manager.ReplaceEngine | internal/gateway/manager.go:699-714 | success records a live mihomo; a replacement that cannot be identified or recorded is stopped again, so that no process is left where mihomo obeys |
| GatewayLifecycle.Manager.ReapplyRouting | internal/gateway/manager.go:537-567 | installs and verifies the persisted recipe with the new TUN name, which names the same kernel objects |
| GatewayLifecycle.Manager.ReattachEngine | internal/gateway/manager.go:716-742 | the record claims routing again only after it was reapplied |
| GatewayLifecycle.Manager.RestartDNSMasq | internal/gateway/dnsmasq_restart.go:20-100 | keeps journal, routing and attachment through every crash point, also when the recorded pid was taken over by a mihomo with another fingerprint; success records a live dnsmasq |
| GatewayLifecycle.MistakenResolver | internal/gateway/dnsmasq_restart.go:44-66 | under a running record, stopping the recorded resolver keeps journal and record true if and only if its pid is not mihomo's |
| GatewayLifecycle.SurvivorIsConsistent | internal/gateway/manager.go:676-693 | a mihomo that survived its stop was never detached, so its old record may be written again |
| GatewayLifecycle.StoppingIsTorn | internal/gateway/manager.go:879-882 | the durable stopping mark withdraws the running claim and still covers the kernel |
| GatewayLifecycle.WorkingNewRecipe | internal/gateway/manager.go:444-453 | another TUN name in the recipe names the same kernel objects |
| GatewayRecovery.Runner.Status | internal/gateway/status.go:47-261 | one identity check per recorded process and a probe of the recorded routing: never calls a gateway healthy that is not, and calls a healthy one so wherever checks and probes answer |
| GatewayRecovery.Runner.Recover | internal/gateway/container_recovery.go:47-125 | success matches the recorded intent, and a gateway that is meant to run is healthy; only pids of this boot are signalled; where checks and probes answer, a settled runtime is left as it is |
| GatewayRecovery.Runner.RecoverTwice | internal/gateway/container_recovery.go:47-125 | a recovery that reports success leaves a settled runtime, in which a second one whose checks and probes answer changes nothing |
| GatewayRecovery.Runner.Reconcile | internal/gateway/container_recovery.go:72-113 | where checks and probes answer, a healthy gateway that is meant to run is never touched; any other left-over record is cleared with all it names |
| GatewayRecovery.Runner.RunStart | internal/controlapi/container_runner.go:52-99 | at every point of the request either nothing has changed or the intent to run is durable |
| GatewayRecovery.Runner.RunStop | internal/controlapi/container_runner.go:52-85 | at every point of the request either nothing has changed or the intent to stop is durable; success leaves nothing |
| GatewayRecovery.Runner.Crash | internal/runtime/boot.go:17-46 | cutting a run off at any of its points leaves a safe world |
| GatewayRecovery.Runner.InterruptedRequest | internal/gateway/container_recovery.go:47-125 | after a crash anywhere inside a start or stop, a recovery that reports success matches the intent that was durable at the crash |
| RecoveryLog.StartsAreSpaced | internal/controlapi/mihomo_recovery.go:76-220 | between two automatic starts with no manual one between them: two healthy observations in a row, a stop, contention, or a failure at or after a retry time scheduled the n-th backoff ahead |
| RecoveryLog.ReleasedIsLifted | internal/controlapi/mihomo_recovery.go:76-183 | a released guard was lifted by one of these events after the start |
| RecoveryLog.DueIsScheduled | internal/controlapi/mihomo_recovery.go:254-271 | a due retry was scheduled after the last start, far enough ahead |
| MihomoRecovery.Controller.ObserveHealthy | internal/controlapi/mihomo_recovery.go:76-100 | settles an incident on the second healthy observation in a row; nothing while an operation runs |
| MihomoRecovery.Controller.ObserveUnknown | internal/controlapi/mihomo_recovery.go:102-122 | resets the confirmations and keeps the guard; six in a row give an attempt up |
| MihomoRecovery.Controller.ObserveStopped | internal/controlapi/mihomo_recovery.go:273-284 | forgets the incident unless an operation runs |
| MihomoRecovery.Controller.ObserveFailure | internal/controlapi/mihomo_recovery.go:134-185 | exactly when a start is due, when a retry is scheduled and how far ahead; a first attempt on refused connections needs two in a row |
| MihomoRecovery.Controller.Begin | internal/controlapi/mihomo_recovery.go:187-203 | takes the incident's only attempt exactly when it is free, never while an operation runs |
| MihomoRecovery.Controller.BeginManual | internal/controlapi/mihomo_recovery.go:205-220 | a manual start resets the retry count |
| MihomoRecovery.Controller.FinishAutomatic | internal/controlapi/mihomo_recovery.go:286-306 | contention gives the attempt back, timeouts of full recoveries are retried, anything else is final |
| MihomoRecovery.Controller.FinishManual | internal/controlapi/mihomo_recovery.go:308-326 | the same for a manual operation |
| MihomoRecovery.Controller.ScheduleTimeoutRetry | internal/controlapi/mihomo_recovery.go:254-271 | the n-th retry lies min(30 s * 2^(n-1), 15 min) ahead, for full recoveries only |
| RecoveryMonitor.RetryAfterPermanentError | internal/controlapi/mihomo_recovery.go:134-159 | after a permanent error, one healthy sample and a failure do schedule a retry |
| RecoveryMonitor.ContainerActions | internal/controlapi/mihomo_recovery.go:438-473 | in the container every reason asks for a full recovery of a gateway meant to run, never for an engine restart alone |
| RecoveryMonitor.Monitor.Heed | internal/controlapi/mihomo_recovery.go:383-397 | only an unavailable verdict makes a failure of an otherwise running gateway; no verdict is pending, an answer is health |
| RecoveryMonitor.Monitor.Complete | internal/controlapi/mihomo_recovery.go:383-433 | the rest of a tick whose probe completed, whatever happened meanwhile: a DNS recovery needs two unavailable probes in a row since the last reset, this one included |
| RecoveryMonitor.Monitor.Evaluate | internal/controlapi/mihomo_recovery.go:358-433 | what a launched operation implies about the tick that launched it; none while stopped, busy or unreadable; a tick may end by waiting for a probe |
| RecoveryMonitor.Monitor.Launch | internal/controlapi/mihomo_recovery.go:413-433 | launches exactly when the lifecycle lock and the attempt are free, and forgets old probe results |
| RecoveryMonitor.Monitor.Notify | internal/controlapi/server.go:974-985 | the controller learns how an automatic or a manual operation ended while the lock is still held |
| RecoveryMonitor.Monitor.Unlock | internal/controlapi/server.go:934-936 | the lock is given back only when the controller knows of no running operation |
| RecoveryMonitor.Monitor.StartManual | internal/controlapi/server.go:837-931 | refused while another lifecycle operation runs |
| DnsProbing.UnavailableMeansTwo | internal/controlapi/dns_probe.go:68-91 | unavailable exactly when the last two events since a reset are unavailable probes |
| DnsProbing.DnsProbe.StartSample | internal/controlapi/dns_probe.go:52-65 | probes exactly when none is in flight and the interval has passed; otherwise the known result |
| DnsProbing.DnsProbe.FinishSample | internal/controlapi/dns_probe.go:69-91 | counts completed probes |
| DnsProbing.DnsProbe.Reset | internal/controlapi/dns_probe.go:44-50 | forgets results but leaves a probe in flight running |
| DnsmasqRecovery.StartsAreSpaced | internal/controlapi/dnsmasq_recovery.go:33-107 | two automatic starts are separated by two healthy observations in a row |
| DnsmasqRecovery.Controller.ObserveMissing | internal/controlapi/dnsmasq_recovery.go:62-80 | asks for a start exactly when the incident has had none |
| DnsmasqRecovery.Controller.ObserveHealthy | internal/controlapi/dnsmasq_recovery.go:33-51 | settles on the second healthy observation in a row |
| DnsmasqRecovery.Controller.Begin | internal/controlapi/dnsmasq_recovery.go:82-94 | takes the only attempt |
| RealIP.PlanRealIP | internal/cloudflareopt/filter.go:15-77 | the plan of an independent per-domain judgement, folded over the targets |
| RealIP.FindEntry | internal/cloudflareopt/filter.go:79-105 | the first matching entry |
| RealIP.FirstRuleAction | internal/cloudflareopt/filter.go:107-115 | the action and text of the first matching rule |
| RealIP.DedupeStrings | internal/cloudflareopt/profile_patch.go:193-205 | first occurrences of trimmed, non-empty entries |
| RealIP.PlannedParts | internal/cloudflareopt/filter.go:15-77 | every addition is for a target, and every target that needs one has it or conflicts |
| RealIP.ConflictsExactly | internal/cloudflareopt/filter.go:28-74 | planning conflicts exactly for an unknown mode, a covering whitelist entry, or an earlier fake-IP rule |
| RealIP.DedupedDecision | internal/cloudflareopt/profile_patch.go:193-205 | deduplication changes no decision in any mode |
| RealIP.PatchDecides | internal/cloudflareopt/profile_patch.go:42-74 | after a patch every target is decided real-IP and every other domain as before, in all three modes |
| RealIP.PlanAgain | internal/cloudflareopt/filter.go:15-144 | planning on the patched filter adds nothing and conflicts with nothing |
| ProfilePatch.ApplyResultsToProfile | internal/cloudflareopt/profile_patch.go:16-81 | fails exactly on an unusable document or a conflict; otherwise hosts and filter are patched and nothing else |
| ProfilePatch.PrependMappingStrings | internal/cloudflareopt/profile_patch.go:111-133 | the selected names first, then the entries they do not override, in order |
| ProfilePatch.Document.EnsureMapping | internal/cloudflareopt/profile_patch.go:83-100 | the mapping at a key, which replaces anything else there |
| ProfilePatch.MappingStringSequence | internal/cloudflareopt/profile_patch.go:152-169 | the trimmed filter entries, or why there are none |
| ProfilePatch.InjectedMeaning | internal/cloudflareopt/profile_patch.go:42-74 | selected domains resolve to their addresses and are real; every other name resolves and is decided as before |
| ProfilePatch.InjectingAgain | internal/cloudflareopt/profile_patch.go:16-81 | injecting the same results again changes nothing |
| ConfigTransaction.Workspace.ApplyProfile | internal/controlapi/configuration_actions.go:71-154 | for every failure pattern: an error leaves the original bytes unless writing them back failed, never starts a stopped gateway, and leaves a running one or says what failed; the configuration is left naming a removed profile if and only if an accepted update of a running gateway fails to reload and to be written back, and its new file can be removed |
| ReconcileExample.DanglingUpdate | internal/controlapi/configuration_actions.go:137-151 | a concrete update after which the configuration names a profile that is gone |
| ConfigTransaction.Workspace.ApplyTailscale | internal/controlapi/configuration_actions.go:169-276 | the same for configuration and auth key; the key differs after an error only if putting it back failed, and a restarted gateway finds the restored configuration and key |
| ConfigTransaction.Workspace.RestoreConfig | internal/controlapi/configuration_actions.go:139-139 | the original bytes are back unless that write fails |
| ConfigTransaction.Workspace.Revive | internal/controlapi/configuration_actions.go:140-150 | starts the previous gateway exactly if the restore succeeded, the runtime could be inspected and it is gone |
| ConfigTransaction.Workspace.RestoreKey | internal/controlapi/configuration_actions.go:386-394 | puts the snapshot back unless that write fails |
| ProfileReconcile.RawSourceIsRaw | internal/controlapi/container_profile_reload.go:195-289 | wherever it is found, the raw source is the one the recorded digest names; an effective profile is never taken for it |
| ProfileReconcile.NothingProposedMeansFresh | internal/controlapi/container_profile_reload.go:66-106 | nothing is proposed exactly when the profile in force is a fresh composition |
| ProfileReconcile.AppliedIsFresh | internal/controlapi/container_profile_reload.go:72-112 | a candidate, once applied, is a fresh composition from the same raw source |
| ProfileReconcile.SecondReconcile | internal/controlapi/container_profile_reload.go:36-113 | a second reconcile proposes nothing if and only if the raw source is archived, or no overlay was applied and composing changed nothing; otherwise it fails |
| ReconcileExample.SecondReconcileRefused | internal/controlapi/container_profile_reload.go:195-241 | a concrete case: from the managed base with an overlay enabled and nothing archived, the second reconcile is refused |
| ReconcileExample.CodecIsTrusted | internal/controlapi/container_profile_reload.go:36-113 | the assumptions on hash and printer can be met |
| ReconcileExample.Example | internal/controlapi/container_profile_reload.go:296-330 | a reconciler that meets every assumption |
| ProfileReconcile.Reconciler.Reconcile | internal/controlapi/container_profile_reload.go:296-330 | after any sequence of edits and reconciles, success means the effective profile is a fresh composition from the one raw source |
| ConfigText.UnquoteUndoesQuote | internal/config/loader.go:111-119 | unquoting undoes printing exactly on printable text without double quotes and backslashes |
| ConfigText.StripComment | internal/config/loader.go:89-109 | the line up to a # outside quotes |
| ConfigText.SettingIsRead | internal/config/loader.go:33-50 | a printed setting line is read as its key and value |
| ConfigText.SplitCommaSeparated | internal/config/loader.go:408-420 | the trimmed non-empty items |
| ConfigText.ListReadsBack | internal/config/loader.go:408-420 | a list survives joining and splitting exactly when its items are trimmed, non-empty and free of commas |
| ConfigText.RenderResolverUpstreams | internal/config/render.go:136-146 | the comma-separated address/bootstrap entries |
| ConfigText.ResolversReadBack | internal/config/loader.go:193-205 | every list of encodable resolvers survives |
| ConfigText.ReadUpstreams | internal/config/loader.go:193-205 | one resolver for every trimmed non-empty item, cut at its first bar: address before it, bootstrap address after it |
| ConfigText.ValidatedIsEncodable | internal/config/resolver.go:29-33 | the character checks of validation make a normalized resolver encodable |
| ConfigFile.ValueReadsBack | internal/config/loader.go:121-406 | every normalized value of every kind is printed as a literal that reads back as the value |
| ConfigFile.Load | internal/config/loader.go:24-57 | the fold of the line reader over the lines, refusing a line whose bytes, carriage return included, fill the scanner's buffer |
| ConfigFile.SettingsAreWellNamed | internal/config/render.go:15-117 | no section and no setting appears twice |
| ConfigFile.SectionsLoad | internal/config/loader.go:33-57 | the printed sections set exactly their settings, if every line fits the scanner |
| ConfigFile.ConfigReadsBack | internal/config/render.go:13-134 | loading a printed configuration gives every printed setting back, unless a line exceeds the scanner's limit: then it fails |
| Cron.AddRange | internal/cloudflareopt/schedule.go:164-170 | what the loop over a range marks, in 64-bit arithmetic |
| Cron.WrapExactly | internal/cloudflareopt/schedule.go:164-170 | the loop marks exactly the range's values if and only if twice the step's distance to 2^63 exceeds the start's distance to the field minimum |
| Cron.WrapHappens | internal/cloudflareopt/schedule.go:111-176 | the field text 5-59/9223372036854775806 is accepted and selects 1, which its range does not name |
| Cron.ParseCronField | internal/cloudflareopt/schedule.go:111-176 | accepted exactly when every item parses; selects exactly what some item reaches, Sunday by either name |
| Cron.TameSelects | internal/cloudflareopt/schedule.go:111-176 | without such a step a field selects exactly the values its items name |
| Cron.ParseCron | internal/cloudflareopt/schedule.go:83-109 | five fields, each within its bounds |
| Cron.MatchesMeansFires | internal/cloudflareopt/schedule.go:186-204 | a minute matches exactly when minute, hour and month are selected and a restricted day of month or day of week is |
| Cron.MinuteRankGrows | internal/cloudflareopt/schedule.go:206-209 | the calendar comparison of the five-year limit orders minutes as time does |
| Cron.Next | internal/cloudflareopt/schedule.go:206-216 | the earliest matching whole minute strictly after the given time, within five years; none if and only if none matches within five years |
| Cron.NextInterval | internal/cloudflareopt/schedule.go:48-58 | the least multiple of the period after the base day that lies after now |
| Cron.NextRun | internal/cloudflareopt/schedule.go:43-65 | both schedules, from their texts: no run for an invalid one, always one for an interval, and none for a cron expression if and only if it does not fire within five years |
| DhcpPool.NewScopeIsValid | internal/lan/lan.go:30-52 | a block for every IPv4 address with prefix length 8 to 30 or 0 (which stands for 24), and for no other input; it is aligned, inside the address space, and holds the address |
| DhcpPool.CompareIPv4 | internal/config/validator.go:303-313 | comparing byte by byte is comparing the numbers |
| DhcpPool.ValidateDHCPRangeInLAN | internal/config/validator.go:371-390 | accepted exactly when both ends are usable hosts in order and the gateway is not between them |
| DhcpPool.ValidateRouterBypass | internal/config/validator.go:273-301 | accepted exactly when the router is another usable host outside the range, with mode and resolver set |
| DhcpPool.LongestAvailableHostRun | internal/controlapi/network_defaults.go:85-104 | the leftmost of the longest unreserved runs |
| DhcpPool.Reserve | internal/controlapi/network_defaults.go:47-52 | reserved are exactly the offsets of gateway, router and protected addresses |
| DhcpPool.SuggestDHCPRange | internal/controlapi/network_defaults.go:37-73 | the leftmost longest run of free addresses in the first of the windows 100-200, 20-240 and the whole subnet that has room, cut at 101 addresses; none if and only if no run of the minimum size is free |
| DhcpPool.SuggestedPoolIsAccepted | internal/controlapi/network_defaults.go:37-73 | the range validator accepts a suggested pool, and the bypass check never refuses it |
| DeviceTraffic.SourcesAreNotSplit | internal/controlapi/device_traffic.go:375-403 | connections of one source are all the gateway's or all not |
| DeviceTraffic.FindLocalSources | internal/controlapi/device_traffic.go:375-388 | the sources that some connection shows to be local |
| DeviceTraffic.AccountsAreComplete | internal/controlapi/device_traffic.go:284-330 | gateway, devices and unclassified together hold all of any measure |
| DeviceTraffic.Count | internal/controlapi/device_traffic.go:279-330 | every connection is counted into exactly its account |
| DeviceTraffic.SortRows | internal/controlapi/device_traffic.go:340-351 | a permutation in the listing's order |
| DeviceTraffic.Aggregate | internal/controlapi/device_traffic.go:215-373 | connections and bytes are conserved, totals are the sums of the rows, and with distinct lease addresses every row holds exactly its source's connections |
| TrafficRates.Sampler.Annotate | internal/controlapi/device_traffic.go:105-161 | the gateway's rate is the devices' plus its own plus the unclassified, however the division rounds; no rate is negative; no rates after a reset or a gap |
| TrafficRates.AddRates | internal/controlapi/device_traffic.go:126-158 | rates go to the account of their connection |
| TrafficRates.Poll | internal/controlapi/device_traffic.go:58-97 | one poll's counts and rates agree on every connection's account |

## Left out

- GatewayLifecycle.Manager.RestartDNSMasq: excludes a mihomo that holds the recorded dnsmasq pid where the record has no fingerprint or the very fingerprint of that mihomo; there the code would signal mihomo, and the running record would be false (`GatewayLifecycle.MistakenResolver`).
- ProfileReconcile.Reconciler.Reconcile: assumes that no two of the contents in play share a hash, and that file names and digests print plainly into settings that do.
- RecoveryMonitor.Monitor.Launch: the failed creation of an operation record is one step together with the end of the attempt.
- ConfigFile.ConfigReadsBack: covers reading and printing settings; resolving relative paths, normalization and validation after loading are not modelled, nor is the reading of unsigned numbers in other bases, which is a parameter.
- ConfigTransaction.Workspace.ApplyProfile: reload and start are outcomes with the resulting runtime state, not the lifecycle model itself.
- DeviceTraffic.Aggregate: counters are unbounded integers, where the code adds 64-bit ones.
- RealIP.PatchDecides: targets are domains that validation accepts; normalization strips one trailing dot only, so other texts could be missed.
- Error message texts and which of several errors is reported first, except where an outcome depends on it.
- Letter case beyond ASCII, and case folding in general.
- The parsers of CIDR, URL, MAC and IPv4 texts: addresses are numbers, other texts are classified by parameters.
- How mihomo reads rule lines, filters and profiles; YAML anchors and aliases, and YAML, JSON and SHA-256 themselves. A profile document is a tree of values, so the patch works on values under one mutable root.
- Legacy records without a boot id, which are compared by start time; the policy snapshot file; prepared engines; the value of the kernel's IPv4 forwarding switch, which is flagged only after it is applied.
- The in-memory commit hook of a candidate start, the archiving of logs and progress reports: calls that may fail and touch nothing modelled.
- Readiness and the parts of status that only report; what mihomo says of its TUN, file and boot-session errors are one parameter of a status.
- Spontaneous death of processes and outside edits of the kernel.
- The DNS probe's own packets: a completed probe is an outcome.
- Splitting the managed hosts block out of an old overlay, and reading the managed hosts file: their results are inputs of a composition.
- Normalization of a Tailscale request, and the choice of one lease per device, whose results are inputs.
- The main egress of a row, and names added to rows afterwards.
- Time zones, daylight saving and clock jumps; times before 1970.
- HTTP handlers, authentication, the web interface, deployment, Docker, Tailscale discovery, host hosts synchronization and the takeover wizard.
