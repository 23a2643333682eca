# Helix ACS: a verified model

Helix ACS is the server side of TR-069 (CWMP): it keeps a session with each device,
drives the device through remote procedure calls, and stores what it learns. This
project models the parts of it where the behaviour is hard to see from the code and
proves properties of them for all inputs, all runs and all visiting orders of Go's maps.

| file | component |
|---|---|
| `GoStrings.dfy`, `Ordering.dfy` | the string, number and sorting functions the code calls |
| `Templates.dfy` | placeholder templates under sequential and simultaneous substitution |
| `Provisioning.dfy` | the provisioning executor: a small interpreter of conditional AddObject, Set and Delete steps |
| `Conditions.dfy` | which steps of a flow a run visits |
| `DefiniteAssignment.dfy` | when no run of a flow sends an unfilled placeholder |
| `LegacyWanFlow.dfy`, `LegacyConfiguration.dfy` | the built-in PPPoE flow, the objects its references name, and what it leaves on a device |
| `Tasks.dfy`, `CwmpSpec.dfy` | tasks, and what one request does to a session as pure functions |
| `CwmpSession.dfy`, `CwmpManager.dfy` | the session and session-manager objects, proved against those functions |
| `DeviceLine.dfy`, `SessionLikeness.dfy` | which session the requests of a device meet; sessions that it cannot tell apart |
| `Rotation.dfy`, `FullSummon.dfy` | what shows when a device changes its session id or a full summon is asked for meanwhile, and what goes on |
| `CwmpProtocol.dfy`, `RequestOutcomes.dfy` | properties of runs: dispatch, lock step, summon batches, and what each request stores and answers |
| `TaskQueue.dfy` | the queue object and its runs, with every status write taken or refused |
| `CwmpQueue.dfy`, `DeviceRuns.dfy` | every request, and every run of a device, as queue events |
| `SetParameterOrder.dfy` | the order and the types of parameters in SetParameterValues |
| `VendorResolver.dfy`, `SchemaMapper.dfy` | vendor slugs; the mapper's placeholder table |
| `WanExtraction.dfy`, `DnsServers.dfy`, `BandTables.dfy`, `WanDiscovery.dfy`, `Tr098PppChoice.dfy`, `VlanChain.dfy` | what is read out of a device's parameters |
| `GlobalDefaults.dfy` | expansion and pushing of default parameters |
| `DigestNonces.dfy` | the nonce table of HTTP Digest authentication |
| `PortMapping.dfy`, `PortMappingOrder.dfy` | port forwarding rules, written and read back |

How the model is set up:

- Code that updates state is a class whose methods are proved equal to pure functions of
  the old state; runs are folds of those functions, and the theorems about runs are
  lemmas over all sequences of events.
- A range statement over a map is a loop that picks any key not yet visited. Where the
  result can depend on the order, the order is part of the specification, and a lemma
  says exactly when it matters. A library sort is insertion sort; `OrderedIsUnique`
  shows that the algorithm is irrelevant.
- What a handler learns from outside while it runs (which writes the store takes, the outcome
  of building a task's request, default parameters to set) is a `World` parameter, quantified
  over in every theorem. Each handler call is one atomic step.
- A SOAP body is the RPC it carries. JSON payloads are datatypes.

Where the code does not do what it is meant to, the project shows the failing inputs and
says when the code is right:

- Without a reused GPON link the built-in flow creates a link and then refers to link 0
  (`ReferencesIntactIff`).
- A name made of separators only makes the vendor resolver panic (`PanicsIff`).
- Values that hold or begin another variable's placeholder make substitution depend on map
  order (`ConfluentIff`).
- So do two service lists on one connection, two defaults for one path, two spellings of one
  VLANID, instance number 0, two radios on one band, several PPP connections of one rank and
  two port mapping parameters for one field (`OrderIrrelevantIff`,
  `ExpansionIgnoresOrderIff`, `SettlesIff`, `ReadsIsUniqueIff`, `OneTableIff`,
  `OnePreferredIff`, `OneChoiceIff`, `OneListingIff`). A comment calls the tie-break between
  PPP connections deterministic (`internal/datamodel/instances.go:845`); below two WAN
  devices it is not (`EqualIndicesAreUndecided`).
- A finished task is executed again when a session still holds its copy, and a late
  TransferComplete report can overwrite its outcome (`TerminalStaysIff`, `DownloadComesBack`,
  `DownloadIsSentAgain`).
- A re-dispatch that the store refuses counts as an attempt all the same, and one that cannot
  be built leaves the session a failed task that it sends again (`AttemptsAreDispatchesIff`,
  `CopyIsAheadIff`, `RefusedAttemptIsCounted`, `FailedTaskIsKept`).
- A change of session id shows exactly when the old session has something left over that a
  handler could still find, for example a summon under way or global defaults still to be
  applied (`RotationIsInvisibleIff`, `InterruptedSummonShows`). When a full summon is pending
  the driver is such a leftover: a fresh session never learns it, and the driver's default
  parameters are not pushed (`ForgottenDriverShows`).
- A full summon asked for through the API while batches are under way makes the values of the
  current batch complete whatever task is in flight (`TriggerCompletesTask`); while a provision
  is in flight it keeps a lost step from being sent again (`ProvisionUnderTrigger`).
- A targeted summon that is scheduled while a provision is in flight starts the next pending
  task before the provision is over (`SummonOvertakesProvision`); without one the provision
  survives every change of session id (`ResumeIff`, `ProvisionSurvivesRotations`).
- A Set reply that arrives for an AddObject step skips the step without binding its variable
  (`SetReplySkipsBinding`).
- The second DNS field holds all servers after the first one (`PairIsFirstAndRest`).
- Port mapping rules with gaps in their numbers are lost (`ListingIsCompleteIff`).
- A comment says that mode values follow Enable=1 (`internal/cwmp/soap.go:427`). The
  comparator puts Enable=1 last (`internal/cwmp/soap.go:420-432`); the model follows the
  comparator.

`dafny verify dfyconfig.toml` checks the project.

## Model

| member | source | states |
|---|---|---|
| `Templates.SubstitutionIsConfluent` | internal/schema/provision.go:298-303 | on a template without nested braces, replacing the variables of a table one after the other gives the simultaneous substitution, for every iteration order, when no value opens and no name closes a placeholder |
| `Templates.ConfluentIff` | internal/schema/provision.go:298-303 | for brace-free names, all iteration orders of a table agree on every template without nested braces if and only if no value contains, or ends in a proper beginning of, the placeholder of another variable that is not bound to its own placeholder |
| `Templates.NonInterferingIsSimultaneous` | internal/schema/provision.go:298-303 | under that condition the common result is the simultaneous substitution |
| `Templates.ReplacerIsSimultaneous` | internal/schema/mapper.go:107-129 | a Replacer gives the simultaneous substitution for every table whose names close no placeholder, on every template and for every argument order |
| `Templates.ExecutorAgreesWithMapper` | internal/schema/provision.go:298-303 | executor and mapper agree on a template without nested braces when no value opens and no name closes a placeholder |
| `Templates.AgreeIff` | internal/schema/provision.go:298-303 | for brace-free names, executor and mapper agree for all orders and all templates without nested braces if and only if the values do not interfere |
| `Templates.HolesLeft` | internal/schema/provision.go:298-303 | exactly the placeholders without a binding survive substitution |
| `Templates.NoHoleLeftIff` | internal/schema/provision.go:298-303 | no placeholder survives if and only if every one is bound |
| `Templates.VerbatimIff` | internal/schema/provision.go:298-303 | when no value opens a placeholder, a text comes through unchanged, for every iteration order, if and only if it contains no bound placeholder, nested or not |
| `Provisioning.ActiveFromNext` | internal/schema/provision.go:260-268 | skipping to the next active step drops exactly one entry from the list of active steps still to run |
| `Provisioning.RunKeepsPlace` | internal/schema/provision.go:219-238 | after n further replies the cursor rests on the entry n places further in the list of active steps, or at the end |
| `Provisioning.ExecutesActiveSubsequence` | internal/schema/provision.go:149-238 | over every run the cursor visits exactly the active steps, once each and in order, and the set of active steps never changes |
| `Provisioning.RemainingDecreases` | internal/schema/provision.go:219-238 | every reply strictly lowers the number of steps that remain |
| `Provisioning.DefiniteAssignmentIsSound` | internal/schema/provision.go:205-238 | if every placeholder of an active step is an initial variable or is bound by an earlier active AddObject, then in every run, for all instance numbers and all map orders, no resolved path, key or value holds a placeholder and the resolution is the simultaneous one |
| `Provisioning.UnboundTemplateLeaks` | internal/schema/provision.go:298-303 | a template of a step resolves without a placeholder if and only if all its placeholders are bound |
| `DefiniteAssignment.NoRunLeaksIff` | internal/schema/provision.go:205-238 | no run of a flow sends a placeholder, whatever the instance numbers and iteration orders, if and only if the flow passes one pass in which every new object gets number 1 |
| `DefiniteAssignment.AssignedIsClean` | internal/schema/provision.go:205-238 | the definite-assignment check implies that pass |
| `DefiniteAssignment.UncleanLeaks` | internal/schema/provision.go:309-323 | a step that fails the pass has a resolution that holds a placeholder |
| `Provisioning.ProvisionExecutor.constructor` | internal/schema/provision.go:149-196 | a new executor rests on the first active step of the flow, under driver configuration overridden by the inputs |
| `Provisioning.ProvisionExecutor.CurrentStep` | internal/schema/provision.go:205-215 | returns a resolution of the current step under the current bindings, and nothing when done |
| `Provisioning.ProvisionExecutor.Advance` | internal/schema/provision.go:219-224 | moves to the next active step and binds nothing |
| `Provisioning.ProvisionExecutor.AdvanceAddObject` | internal/schema/provision.go:228-238 | binds the instance number under the step's name, if it has one, and moves on |
| `Provisioning.ProvisionExecutor.SkipInactive` | internal/schema/provision.go:260-268 | moves to the first active step at or after the cursor |
| `Provisioning.ProvisionExecutor.Substitute` | internal/schema/provision.go:298-303 | the result is the sequential replacement for some iteration order of the table |
| `Provisioning.ProvisionExecutor.ResolveParams` | internal/schema/provision.go:309-323 | every entry of the result comes from an entry of the input with a non-empty value, and every such entry is delivered |
| `Conditions.GponConditions` | internal/schema/provision.go:172-178 | a step under gpon_reuse runs exactly when gpon_idx is bound to a text other than "" and "0", one under gpon_create exactly otherwise |
| `Conditions.FeatureCondition` | internal/schema/provision.go:166-170 | a step under feature_k runs exactly when the driver sets k |
| `Conditions.HasCondition` | internal/schema/provision.go:179-183 | a step under has_k runs exactly when k is bound to a text that is neither blank nor "0" |
| `Conditions.UnknownConditionFails` | internal/schema/provision.go:270-295 | a step under any other condition does not run |
| `Conditions.NegationMeans` | internal/schema/provision.go:270-295 | an exclamation mark negates a condition |
| `Conditions.VisitedIff` | internal/schema/provision.go:260-268 | a run that gets enough replies visits a step exactly when it is active |
| `Conditions.GponStepsVisited` | internal/schema/provision.go:149-196 | every complete run of an executor visits the steps that create a GPON link exactly when no link is given, those that reuse one exactly when it is, and all steps without a condition |
| `LegacyWanFlow.LegacyFlowIsAssigned` | internal/cwmp/wan_provision.go:150-262 | the built-in PPPoE flow passes the definite-assignment check for all inputs whose credentials contain no brace |
| `LegacyConfiguration.CredentialsReachTheDevice` | internal/cwmp/wan_provision.go:150-262 | in every run the user name and the password of the task reach the PPP interface that the device has created, and its VLAN the VLAN termination |
| `LegacyConfiguration.LegacyConfigures` | internal/cwmp/wan_provision.go:176-250 | in every run, step by step, the flow sends every parameter of the links, interfaces, address translation, DHCPv6 client and gateway to the objects with the numbers that the device has given, and enables them in the last step |
| `LegacyConfiguration.GponIsConfigured` | internal/cwmp/wan_provision.go:150-174 | before that the given GPON link, or else a new one, is put on the optical interface |
| `LegacyConfiguration.ObjectPaths` | internal/cwmp/wan_provision.go:150-250 | the paths of the objects |
| `LegacyConfiguration.LinkNames` | internal/cwmp/wan_provision.go:150-250 | the names of the parameters of links and of the PPP interface |
| `LegacyConfiguration.InterfaceNames` | internal/cwmp/wan_provision.go:200-250 | those of the IP interface and the device |
| `LegacyConfiguration.ClientNames` | internal/cwmp/wan_provision.go:220-235 | those of the DHCPv6 client |
| `LegacyConfiguration.GatewayNames` | internal/cwmp/wan_provision.go:234-239 | those of the default gateway |
| `LegacyWanFlow.LegacyReferencesIntact` | internal/cwmp/wan_provision.go:150-262 | with a reused GPON link every LowerLayers and Interface value of every run names an object created earlier, the reused link or the optical interface |
| `LegacyWanFlow.CreatedGponLinkIsNotReferenced` | internal/cwmp/wan_provision.go:176-200 | without a reused link there are runs in which the Ethernet link refers to a GPON link that does not exist |
| `LegacyWanFlow.ReferencesIntactIff` | internal/cwmp/wan_provision.go:150-262 | all references are intact in every run with positive instance numbers if and only if the GPON index is positive |
| `CwmpProtocol.DispatchPicksFirstRunnable` | internal/cwmp/session.go:1883-1932 | for any pattern of queue and build failures, dispatching ends with the first task that can run in flight and the rest pending, or with an empty queue and a closed session |
| `CwmpProtocol.FinishThenNext` | internal/cwmp/session.go:1862-1880 | ending a task writes its saved parameters and its verdict first, and then starts the first task that can run |
| `CwmpProtocol.FaultFailsTheTask` | internal/cwmp/session.go:526-545 | a fault fails the task in flight and starts the first task that can run; with none left and no empty flow, no work remains |
| `CwmpProtocol.DownloadKeepsOrCompletes` | internal/cwmp/session.go:1751-1770 | a finished download completes its task; one that goes on keeps it when nothing waits and otherwise gives way to the first task that can run |
| `CwmpProtocol.PlainSetStoresThenCompletes` | internal/cwmp/session.go:884-983 | parameters that were sent are stored before the task is reported done; a started diagnostic is neither stored nor reported |
| `CwmpProtocol.LockStep` | internal/cwmp/session.go:1774-1858 | with a conforming device and no summon, the session state after any run is the flow after the acknowledged replies; every answer is the step due, an empty POST re-sends it, and nothing is written |
| `CwmpProtocol.AnswerAt` | internal/cwmp/session.go:434-449 | the answer to each request of such a run is the step due at that point |
| `CwmpProtocol.ProvisionEndToEnd` | internal/cwmp/session.go:1774-1932 | from dispatch to completion a provision asks for exactly the active steps of its flow, in order and once each up to re-sends, writes nothing meanwhile and is reported completed with the last acknowledgement |
| `CwmpProtocol.SentStepsAreTheActiveSteps` | internal/cwmp/session.go:434-449 | each answer of such a run asks for the first active step that is not yet acknowledged |
| `CwmpProtocol.LastReplyCompletes` | internal/cwmp/session.go:884-923 | the acknowledgement of the last active step marks the task completed, saves credentials after a Set, and dispatches the next task |
| `CwmpProtocol.RepliesThatMove` | internal/cwmp/wan_provision.go:73-107 | with steps left, a Set or Delete reply moves past a step of any kind, while an AddObject reply to another kind of step fails the task |
| `CwmpProtocol.SetReplySkipsBinding` | internal/cwmp/wan_provision.go:86-95 | a Set reply that arrives for an AddObject step leaves its variable unbound, so every resolution of a template that needs it keeps a placeholder |
| `CwmpProtocol.BatchesTileTheNames` | internal/cwmp/session.go:1264-1302 | the requested batches laid end to end are the list of names |
| `CwmpProtocol.BatchCountBounds` | internal/cwmp/session.go:1264-1302 | the number of batches is the length of the list divided by the batch size, rounded up: fewer requests leave names over and that many do not |
| `CwmpProtocol.SummonStarts` | internal/cwmp/session.go:1218-1261 | a non-empty list of leaf names starts the batches with the first one |
| `CwmpProtocol.SummonAsksNextBatch` | internal/cwmp/session.go:1649-1673 | each reply before the last is merged and answered with the next batch |
| `CwmpProtocol.SummonRun` | internal/cwmp/session.go:1264-1302 | a run of value replies asks for the batches in order, accumulates every reply and writes nothing |
| `CwmpProtocol.SummonEnds` | internal/cwmp/session.go:1305-1456 | the last reply saves all accumulated values, resets the summon and dispatches the tasks for default parameters before the pending ones |
| `CwmpProtocol.TargetedEnds` | internal/cwmp/session.go:1075-1180 | the values of a targeted summon are saved, and default parameters added, if and only if it is a refresh; either way dispatching goes on |
| `CwmpProtocol.SummonCollectsEveryName` | internal/cwmp/session.go:1216-1302 | if each reply carries the names it was asked for, the saved keys are exactly the leaf names |
| `RequestOutcomes.AcknowledgedTaskCompletes` | internal/cwmp/session.go:505-524 | a reboot, reset, finished download, plain deletion or plain addition that is acknowledged is stored as completed before anything else, and the first task that can run starts |
| `RequestOutcomes.FaultyTaskFails` | internal/cwmp/session.go:526-545 | a task answered with a fault is stored as failed before anything else |
| `RequestOutcomes.TransferIsRecorded` | internal/cwmp/session.go:837-864 | a reported transfer is stored as completed, or as failed with a fault, and the session stays as it is |
| `RequestOutcomes.OtherRequests` | internal/cwmp/session.go:376-552 | unreadable and unparsable requests, method queries and unknown messages change nothing and get their answer |
| `RequestOutcomes.ReadTaskCompletes` | internal/cwmp/session.go:1649-1748 | values that no summon asked for complete the task that read them, or the diagnostic that they were collected for |
| `RequestOutcomes.SetStoresInOrder` | internal/cwmp/session.go:884-983 | the acknowledgement of a plain Set stores the parameters, the provisioning mark and the credentials that were sent, in this order, and then the task as completed |
| `RequestOutcomes.SentIsStored` | internal/cwmp/session.go:1883-1932 | what is stored with the acknowledgement of a Set is what the task sent, and the task has one attempt more |
| `RequestOutcomes.AddThenSet` | internal/cwmp/session.go:1774-1821 | a task that adds an object sends its second request with the number of the object and is completed by the acknowledgement of that one |
| `RequestOutcomes.ProvisionStoresCredentials` | internal/cwmp/session.go:884-923 | the credentials of a provision are kept over its whole conversation and stored with the acknowledgement of its last step |
| `RequestOutcomes.AcknowledgedOnce` | internal/cwmp/session.go:268-328 | after a change of session id what was sent is stored by the session that has adopted, and nothing of it by the one that was left |
| `RequestOutcomes.FreshSessionIsIdle` | internal/cwmp/session.go:173-182 | a session under a fresh id knows nothing and has nothing to do, so an empty POST closes it |
| `RequestOutcomes.AdoptionTakes` | internal/cwmp/session.go:268-328 | a fresh session takes over task, provision, follow-up and the parameters sent, but no waiting tasks and no summon |
| `RequestOutcomes.AdoptionByKnown` | internal/cwmp/session.go:268-328 | a known session keeps its own task, queue and summon; without a task it takes over the work, and its own parameters only where the other one has none |
| `RequestOutcomes.UnstoredInform` | internal/cwmp/session.go:584-589 | a device whose record cannot be stored gets a fault, and nothing else happens |
| `RequestOutcomes.InformThenTargets` | internal/cwmp/session.go:728-771 | after an Inform that schedules a targeted summon the next empty POST asks for its paths, and the values are stored exactly when it is a refresh |
| `RequestOutcomes.InformThenNames` | internal/cwmp/session.go:713-724 | after an Inform with a full summon pending the tasks that wait are dispatched, and then the names are asked for |
| `RequestOutcomes.InformLoadsTasks` | internal/cwmp/session.go:799-833 | an Inform loads the tasks of the device behind the global defaults, which are pushed to a device that was reset, is owed them or was never provisioned, or marked at once if it has them already |
| `RequestOutcomes.RefusedStepFails` | internal/cwmp/session.go:1774-1800 | a number that comes for a step that adds nothing, or a flow that has no step left, gives the provision up and stores its task as failed |
| `RequestOutcomes.EmptyPostRepeats` | internal/cwmp/session.go:447-461 | an empty POST while a task is in flight sends its request again, stored with one attempt more |
| `RequestOutcomes.UnbuildableTaskFails` | internal/cwmp/session.go:1883-1932 | a task whose request cannot be built is stored as executing and then as failed, and the next one is tried |
| `RequestOutcomes.UnbuildableStaysCurrent` | internal/cwmp/session.go:1883-1932 | the task in flight that can no longer be built is stored as failed and stays in the session until another one takes its place |
| `RequestOutcomes.UnmarkedStaysCurrent` | internal/cwmp/session.go:1883-1905 | the task in flight that the store does not mark again is kept with the attempt counted, and the next one is tried |
| `RequestOutcomes.FlowWithoutSteps` | internal/cwmp/session.go:1883-1932 | a provision none of whose steps applies is stored as failed after the session has taken it over |
| `RequestOutcomes.UnmarkedTaskIsSkipped` | internal/cwmp/session.go:1883-1932 | a task the store does not mark as executing is not sent, and the next one is tried |
| `RequestOutcomes.CollectionIsNotStored` | internal/cwmp/session.go:1883-1932 | the collection of a diagnostic is sent as it is and never stored |
| `RequestOutcomes.BuildsForItsSession` | internal/cwmp/session.go:1883-1960 | a task is built with what its own session knows of the device, also when an Inform with a full summon pending dispatches it |
| `RequestOutcomes.RefreshEnds` | internal/cwmp/session.go:1077-1200 | a refresh stores its values, marks a device that has the global defaults, and puts the tasks for default parameters, the global one first, before those that wait, for a session that now knows its schema |
| `RequestOutcomes.FullSummonEnds` | internal/cwmp/session.go:1305-1456 | a full summon that has all its values ends in the same way with everything accumulated |
| `RequestOutcomes.DispatchKeepsNotes` | internal/cwmp/session.go:1883-1932 | no dispatch touches what a session notes of summons, default parameters and its device |
| `RequestOutcomes.LeafNamesAre` | internal/cwmp/session.go:1226-1240 | a summon keeps exactly the names that do not end in a full stop, in the order in which the device lists them |
| `RequestOutcomes.NoLeafNoSummon` | internal/cwmp/session.go:1240-1252 | a device that lists no such name ends the summon with nothing stored |
| `RequestOutcomes.OldDataModel` | internal/cwmp/session.go:1004-1024 | a schema whose name ends in tr098 asks for names below InternetGatewayDevice and for values in batches of 5000 |
| `RequestOutcomes.NewDataModel` | internal/cwmp/session.go:1208-1214 | one for the new data model asks below Device and in batches of 500 |
| `RequestOutcomes.MapperTellsRoot` | internal/cwmp/session.go:1018-1024 | a session that was told no schema asks below the root of its mapper |
| `CwmpSession.WanProvision.BuildCurrentXml` | internal/cwmp/wan_provision.go:54-69 | gives the step due, or an error when the flow is over |
| `CwmpSession.WanProvision.OnAddObject` | internal/cwmp/wan_provision.go:73-83 | on an AddObject step binds the instance and moves on, otherwise fails and changes nothing |
| `CwmpSession.WanProvision.OnSetParams` | internal/cwmp/wan_provision.go:86-95 | moves on, whatever the kind of the current step |
| `CwmpSession.WanProvision.OnDeleteObject` | internal/cwmp/wan_provision.go:98-107 | moves on, whatever the kind of the current step |
| `CwmpSession.Session.DispatchNextOrClose` | internal/cwmp/session.go:2416-2431 | refines the pure dispatch and sends exactly one reply |
| `CwmpSession.Session.DispatchTask` | internal/cwmp/session.go:1883-1932 | refines the pure dispatch of one task and sends exactly one reply; the recursion ends because the pending list shrinks |
| `CwmpSession.Session.AttemptTask` | internal/cwmp/session.go:1883-1932 | one attempt: the counter and status written, and a request exactly when the build succeeds |
| `CwmpSession.Session.HandleTaskResponse` | internal/cwmp/session.go:1862-1880 | finishes the current task, clears it and dispatches on, with exactly one reply |
| `CwmpSession.Session.HandleSetParamValuesResponse` | internal/cwmp/session.go:884-983 | refines the pure handler of a Set reply with exactly one reply |
| `CwmpSession.Session.HandleAddObjectResponse` | internal/cwmp/session.go:1774-1821 | refines the pure handler of an AddObject reply with exactly one reply |
| `CwmpSession.Session.HandleDeleteObjectResponse` | internal/cwmp/session.go:1825-1858 | refines the pure handler of a DeleteObject reply with exactly one reply |
| `CwmpSession.Session.HandleDownloadResponse` | internal/cwmp/session.go:1751-1770 | refines the pure handler of a Download reply with exactly one reply |
| `CwmpSession.Session.HandleFault` | internal/cwmp/session.go:526-545 | a fault drops the provision and follow-up, fails the task and dispatches on |
| `CwmpSession.Session.SendNextSummonBatch` | internal/cwmp/session.go:1264-1302 | asks for the next batch, or finishes the summon when none is left |
| `CwmpSession.Session.HandleGetParameterNamesResponse` | internal/cwmp/session.go:1218-1261 | keeps the leaf names and starts the batches, or abandons an empty summon |
| `CwmpSession.Session.HandleGetParamValuesResponse` | internal/cwmp/session.go:1649-1748 | refines the pure handler of a value reply with exactly one reply |
| `CwmpSession.Session.HandleEmpty` | internal/cwmp/session.go:400-461 | refines the pure handler of an empty POST: summon first, then the provision or task in flight, then the queue |
| `CwmpSession.Session.ServeHttp` | internal/cwmp/session.go:376-552 | every request, of every kind and in every state, is answered exactly once, with the reply and the state of the pure model |
| `CwmpSession.Session.InheritFrom` | internal/cwmp/session.go:268-328 | a session without a task takes over the work of the previous one, otherwise nothing moves |
| `CwmpManager.InformConservesWork` | internal/cwmp/session.go:268-328 | an Inform under a fresh session id moves the work in flight unchanged; the previous session ends empty and, if it had work, out of the map |
| `CwmpManager.RunKeepsOneHolder` | internal/cwmp/session.go:268-328 | over every run of Informs under fresh ids, requests and triggered summons, only the session bound last holds work in flight |
| `CwmpManager.FleetIsLine` | internal/cwmp/session.go:268-328 | over every such run the session bound last, and whether it can still be reached, are those of the device line on which the theorems about changing ids are stated |
| `SessionLikeness.SimilarServe` | internal/cwmp/session.go:376-552 | no request tells apart two sessions that differ only in fields no handler reads: same reply, same writes, and again such sessions |
| `SessionLikeness.LikeServe` | internal/cwmp/session.go:376-552 | nor do requests tell apart sessions that also differ in their mappers, as long as there is no task to build and both lead to the same root object |
| `Rotation.RotationIsInvisibleIff` | internal/cwmp/session.go:268-328 | an Inform and everything after it, requests, triggered summons and further Informs under old or fresh ids, show the same replies and writes under a fresh id and under the old one, whatever the server learns, if and only if the old session has nothing left over that a handler could still find: sent parameters without a task, defaults to be applied, tasks, a summon or its schema that the Inform does not replace, the driver, a mapper that matters, a closed state |
| `Rotation.RotatedRunIsKeptRun` | internal/cwmp/session.go:400-568 | over every run in which each Inform finds nothing left over, a device that changes its id at every Inform gets the replies and causes the writes of one that never does; a session that has nothing to do leaves the session map, and the next request meets a new one |
| `Rotation.ClosesIff` | internal/cwmp/session.go:451-458 | a request takes the session out of the session map exactly when it is an empty POST that, whatever the server learns, gets no content and only ends the session |
| `Rotation.InterruptedSummonShows` | internal/cwmp/session.go:270-273 | a summon under way goes on under the old id and is forgotten under a fresh one, which shows |
| `Rotation.ForgottenDriverShows` | internal/cwmp/session.go:713-724 | when a full summon is pending, an idle device with a driver keeps it under its old id and loses it under a fresh one, which shows |
| `FullSummon.TriggerShowsIff` | internal/cwmp/session.go:3499-3511 | a full summon asked for through the API shows, in some reply or write of what follows, if and only if the session is open and is not to ask for the names anyway |
| `FullSummon.TriggeredSummonRestarts` | internal/cwmp/session.go:3499-3511 | whatever the session was doing, every empty POST after the trigger asks for the names, and once they are there the batches start with the first one and nothing collected before is left |
| `FullSummon.TriggeredSummonCollects` | internal/cwmp/session.go:1216-1302 | with a conforming device the values stored in the end are those of exactly the leaf names, whatever the trigger interrupted |
| `FullSummon.TriggerCompletesTask` | internal/cwmp/session.go:1649-1748 | values of a batch that were under way when the trigger came are not collected but complete the task in flight |
| `FullSummon.ProvisionUnderTrigger` | internal/cwmp/session.go:405-449 | a provision in flight goes on with every acknowledgement as if nothing had happened, but no step is sent again: the empty POST asks for the names instead |
| `Rotation.RotationKeepsWorkIff` | internal/cwmp/session.go:268-328 | the work in flight is the same under either id if and only if the Inform starts no full summon over tasks left pending |
| `Rotation.ResumeIff` | internal/cwmp/session.go:434-461 | a provision in flight is awaited in its new session if and only if the Inform schedules no summon |
| `Rotation.ProvisionSurvivesRotations` | internal/cwmp/session.go:268-328 | lock step goes on across any number of fresh session ids: the session bound last awaits the step after all replies so far, for the same task |
| `Rotation.SummonOvertakesProvision` | internal/cwmp/session.go:1075-1180 | after a targeted summon the next pending task starts while the provision is in flight, and the acknowledgement of that task moves the provision on |
| `CwmpManager.AdoptionConservesIff` | internal/cwmp/session.go:268-328 | adoption into a session that is not fresh keeps the previous work if and only if that session had no task, or already held the same work |
| `CwmpManager.SessionManager.GetOrCreate` | internal/cwmp/session.go:173-181 | returns the registered session, or registers a fresh one |
| `CwmpManager.SessionManager.BindSerial` | internal/cwmp/session.go:187-192 | the serial leads to the session, other serials are unchanged |
| `CwmpManager.SessionManager.BindRpcId` | internal/cwmp/session.go:207-214 | the id of an RPC leads to the session that sent it |
| `CwmpManager.SessionManager.TakeByRpcId` | internal/cwmp/session.go:217-227 | returns the session of an RPC id once and forgets the id |
| `CwmpManager.SessionManager.ServeReply` | internal/cwmp/session.go:468-478 | a reply that carries the id of an RPC is served by the session that sent it, under whatever session id it comes, and the id leads nowhere afterwards unless the answer carries it |
| `CwmpManager.SessionManager.TriggerFullSummon` | internal/cwmp/session.go:3499-3511 | marks the session bound to the device unless it is closed |
| `CwmpManager.SessionManager.AdoptInFlightBySerial` | internal/cwmp/session.go:268-328 | moves the work of a busy previous session, empties it and removes it from the map; otherwise changes nothing |
| `CwmpManager.SessionManager.HandleInform` | internal/cwmp/session.go:555-568 | adoption, then binding, then the tasks of the device, with one reply; a busy previous session ends empty and out of the map, an idle one is untouched |
| `CwmpManager.SessionManager.InformStep` | internal/cwmp/session.go:555-568 | one Inform through the manager moves its session objects as one step of the run model does |
| `CwmpManager.SessionManager.ServeEmpty` | internal/cwmp/session.go:400-461 | an empty POST is answered as in the session model and removes the session from the map exactly when it had nothing to do |
| `TaskQueue.RedisQueue.Enqueue` | internal/task/queue.go:47-81 | appends the id to the device list and stores the task |
| `TaskQueue.RedisQueue.DequeuePending` | internal/task/queue.go:86-107 | returns the stored pending tasks of a device in list order |
| `TaskQueue.RedisQueue.UpdateStatus` | internal/task/queue.go:110-136 | stores the task and removes a terminal one from the list, or changes nothing when the write fails |
| `TaskQueue.RedisQueue.Cancel` | internal/task/queue.go:139-157 | cancels a pending or executing task, refuses a finished or unknown one |
| `TaskQueue.WithoutKeepsOthers` | internal/task/queue.go:110-136 | dropping an id from a list keeps all the other entries in their order |
| `TaskQueue.EnqueueAppends` | internal/task/queue.go:47-81 | a new task goes to the end of the list of its device and its record is stored, and nothing else changes |
| `TaskQueue.UpdateStores` | internal/task/queue.go:110-136 | a status write stores the record; a completed, failed or cancelled task leaves the list of its device and any other stays |
| `TaskQueue.PendingInOrder` | internal/task/queue.go:86-107 | loading a list keeps its order and passes over ids without a record and records that are not pending |
| `TaskQueue.DispatchStores` | internal/cwmp/session.go:1883-1932 | a dispatch stores the copy as executing with one attempt more, a failed build stores it as failed |
| `TaskQueue.EndStores` | internal/cwmp/session.go:2434-2455 | an end is stored as completed or failed, a cancel and a report mark the record |
| `TaskQueue.RefusedStoresNothing` | internal/cwmp/session.go:1883-1932 | a refused write leaves the store as it is; a queued copy is dropped, one in flight stays and counts the attempt |
| `TaskQueue.LoadHolds` | internal/cwmp/session.go:799-833 | an Inform drops the queued copies of the device, keeps what is in flight, and holds what its list says is pending |
| `TaskQueue.StepKeepsInvariant` | internal/task/queue.go:47-157 | every enqueue, load, dispatch, failed build, completion, release, cancel, report and write of a made-up task, taken or refused by the store, keeps lists, records and held copies in agreement |
| `TaskQueue.QueueAgreesWithLifecycle` | internal/cwmp/session.go:1883-1932 | over every run from the empty queue a device list holds, once each and in enqueue order, exactly the ids that were never terminal, the pending tasks come back in that order, and no task has fewer attempts than dispatches |
| `TaskQueue.AttemptsAreDispatchesIff` | internal/cwmp/session.go:1883-1905 | over every run the attempts of a task are its successful dispatches if and only if the store never takes a write of a copy that counts a refused attempt |
| `TaskQueue.CopyIsAheadIff` | internal/cwmp/session.go:1883-1905 | over every run a held copy counts the attempts of its record, unless a re-dispatch was refused since the store last took a write of that copy |
| `TaskQueue.RefusedAttemptIsCounted` | internal/cwmp/session.go:1883-1905 | a dispatch, a refused re-dispatch and a successful one make three attempts and two dispatches |
| `TaskQueue.StoreIsApplied` | internal/task/queue.go:110-136 | after any run without new tasks the store is the fold of the status writes it took |
| `TaskQueue.RetiredIsTraced` | internal/task/queue.go:110-136 | a run without new tasks keeps the enqueue order and finishes exactly the ids of the terminal writes the store took |
| `TaskQueue.ListsLiveIff` | internal/task/queue.go:110-136 | the lists hold exactly the unfinished tasks if and only if no finished task was revived |
| `TaskQueue.RevivalIff` | internal/cwmp/session.go:1883-1932 | the only event that revives a task is a successful dispatch of a copy that a session holds after the task was finished |
| `TaskQueue.TerminalStaysIff` | internal/cwmp/session.go:2434-2455 | over every run a finished task keeps its record if and only if the store takes no dispatch of it, no completion or report with another outcome, and no write that counts an attempt refused before |
| `TaskQueue.UnheldStaysIff` | internal/cwmp/session.go:837-864 | when no session holds a copy, it keeps its record if and only if every later TransferComplete report that the store takes agrees with it |
| `TaskQueue.DownloadComesBack` | internal/cwmp/session.go:837-864 | a download reported complete while its session still holds it is executing again after the next dispatch |
| `CwmpQueue.ServeIsEvents` | internal/cwmp/session.go:376-552 | whatever the request and whatever fails, what it does to the tasks is a sequence of enabled queue events: the copies held are the task in flight and the pending ones, the status writes and their outcomes are those of the request, and the store is what the successful ones make of it |
| `CwmpQueue.DispatchEvents` | internal/cwmp/session.go:1883-1932 | dispatching is a sequence of dispatches, failures and releases of queue copies with the outcomes of its writes |
| `CwmpQueue.FinishEvents` | internal/cwmp/session.go:1862-1880 | ending a task and going on is a completion, taken or refused, followed by a dispatching sequence |
| `DeviceRuns.InformIsEvents` | internal/cwmp/session.go:555-797 | an Inform, under the old id or a fresh one, is a load of the device queue or what a full summon starts |
| `DeviceRuns.DeviceRunIsQueueRun` | internal/cwmp/session.go:376-552 | every run of Informs, requests, triggered summons, new tasks and cancels of a device is a run of the queue model with the same store, the same new tasks in order, and the same finished ids |
| `DeviceRuns.DeviceRunKeepsList` | internal/cwmp/session.go:376-552 | from the empty queue, with any writes refused, the store that the status writes of the session leave has a device list that holds, once each and in order of enqueueing, exactly the new tasks of the device that no taken terminal write and no cancel has finished; no listed record is finished, and dequeuing gives all pending tasks in that order |
| `CwmpQueue.DiagnosticIsReleased` | internal/cwmp/session.go:938-953 | the reply that an asynchronous diagnostic has started releases its copy before anything is dispatched, and the record stays executing |
| `CwmpQueue.UnrecordedAttemptIsKept` | internal/cwmp/session.go:1883-1905 | a refused re-dispatch puts the copy ahead of its record, and with nothing behind it the session keeps that copy |
| `CwmpQueue.FailedTaskIsKept` | internal/cwmp/session.go:1883-1932 | a re-dispatch whose request cannot be built stores the failure and leaves the session the failed task, which the next empty POST sends again and stores as executing |
| `CwmpQueue.DownloadIsSentAgain` | internal/cwmp/session.go:1751-1770 | on the session: the download reply keeps the task, TransferComplete stores it as completed, the next empty POST stores it as executing and sends it again |
| `SetParameterOrder.BlocksAreExclusive` | internal/cwmp/soap.go:397-432 | a parameter belongs to at most one of the five special groups |
| `SetParameterOrder.BeforeIsBlockThenName` | internal/cwmp/soap.go:390-436 | the six-level comparator is the order by group (disable, VLAN, credentials, ordinary, mode, enable) and then by name |
| `SetParameterOrder.NameOrderIsTotal` | internal/cwmp/soap.go:390-436 | for every parameter map the comparator is a strict total order on names |
| `SetParameterOrder.EmissionIsUnique` | internal/cwmp/soap.go:378-447 | the list sent is determined by the parameter map alone |
| `SetParameterOrder.DisableModifyEnable` | internal/cwmp/soap.go:385-436 | in the list sent, names that end in .Enable with value 0 come first, then .VLANID below a VLANTermination, the four credentials, ordinary values and the two mode values, and .Enable with value 1 last |
| `SetParameterOrder.BlockFixesType` | internal/cwmp/soap.go:461-502 | the inferred type agrees with the group: switches are booleans, VLANs unsigned integers, credentials and modes strings |
| `SetParameterOrder.TypesByName` | internal/cwmp/soap.go:464-497 | the type is unsigned for exactly fifteen last segments, int for one, boolean for those that contain Enable, end in Mcast or name a request, except ModeEnabled, and string for all others |
| `SetParameterOrder.BuildSetParameterValues` | internal/cwmp/soap.go:368-460 | every parameter once, in that order, with its value and inferred type |
| `Ordering.OrderedIsUnique` | internal/cwmp/soap.go:390-436 | two lists of the same names sorted by a strict total order are equal, so the sorting algorithm does not matter |
| `VendorResolver.SortByLength` | internal/schema/resolver.go:71-77 | the exchange sort leaves the same prefixes with their lengths descending |
| `VendorResolver.NormaliseVendor` | internal/schema/resolver.go:60-91 | blank for a blank name, else the slug of the longest known prefix, else the first word |
| `VendorResolver.LongestIsUnique` | internal/schema/resolver.go:79-83 | there is at most one longest known prefix |
| `VendorResolver.AnswerIsUnique` | internal/schema/resolver.go:60-91 | the answer does not depend on the order in which the vendor table is visited |
| `VendorResolver.FirstFieldIsAWord` | internal/schema/resolver.go:86-90 | the fallback is the first whole word, and there is none if and only if the name has separators only |
| `VendorResolver.PanicsIff` | internal/schema/resolver.go:86-88 | the function panics if and only if the name is not blank, has separators only and starts with no known prefix |
| `VendorResolver.ShippedTablePanicsIff` | internal/schema/resolver.go:95-123 | with the shipped table it panics if and only if the name is not blank and has separators only |
| `VendorResolver.Resolve` | internal/schema/resolver.go:34-49 | the vendor schema when registered, else the generic one, tr098 by default |
| `VendorResolver.ShippedVendors` | internal/schema/resolver.go:95-122 | the fifteen vendors resolve to themselves, and six other names to three of them |
| `VendorResolver.NoOtherVendors` | internal/schema/resolver.go:95-122 | the shipped table has no other names |
| `WanExtraction.ScanBuildsEntries` | internal/cwmp/results.go:523-602 | for every visiting order an entry holds each field its connection reports; only the service list is the one visited last |
| `WanExtraction.StableSortIsPartition` | internal/cwmp/results.go:492-501 | the priority sort puts PPPoE connections first and keeps the order within both groups |
| `WanExtraction.ExtractionIsListing` | internal/cwmp/results.go:523-653 | for every visiting order the result is the list of first reporters, PPPoE first and by base path within each group |
| `WanExtraction.ListingIsUnique` | internal/cwmp/results.go:604-653 | the map and the addresses already seen determine which connections are listed and in which order |
| `WanExtraction.AddressesAreDistinct` | internal/cwmp/results.go:611-651 | no address is listed twice, and none that is empty, 0.0.0.0 or seen before |
| `WanExtraction.EveryAddressIsListed` | internal/cwmp/results.go:611-651 | every address that some connection reports, and that is not empty, 0.0.0.0 or seen before, is listed |
| `WanExtraction.ChosenAreFirst` | internal/cwmp/results.go:604-653 | the loop keeps, for each address, the least base path that reports it |
| `WanExtraction.OrderIrrelevantIff` | internal/cwmp/results.go:523-653 | the result is the same for all visiting orders if and only if no listed connection reports two different service lists |
| `WanExtraction.ExtractionAt` | internal/cwmp/results.go:617-650 | each record is rendered from the entry of its base path, with defaults and the first and remaining DNS servers |
| `WanExtraction.ExtractionLists` | internal/cwmp/results.go:523-653 | whatever the visiting order, the records show the reported fields of their connections, blank or with their defaults where nothing is reported |
| `WanExtraction.ExtractWanInfos` | internal/cwmp/results.go:523-653 | the loops give the extraction for some visiting order: one record for each usable new address, showing what one connection with that address reports, PPPoE connections in front; the addresses join those seen |
| `DnsServers.CleanIsIdempotent` | internal/cwmp/results.go:1126-1156 | a cleaned list reads back as the addresses it was made of, so cleaning twice changes nothing |
| `DnsServers.PairIsFirstAndRest` | internal/cwmp/results.go:627-634 | the first field is the first address, the second one all the others joined again |
| `DnsServers.SecondIsAnAddressIff` | internal/cwmp/results.go:627-634 | the second field is one address if and only if the list holds exactly two |
| `DnsServers.ServerIff` | internal/cwmp/results.go:1126-1149 | a text is listed if and only if it is an entry between commas without the spaces around it, is not empty, "0.0.0.0", "0.0.0.0.0.0" or "::", and has three full stops or a colon |
| `DnsServers.CleanDnsServers` | internal/cwmp/results.go:1126-1149 | the loop keeps exactly the trimmed entries that count as addresses |
| `BandTables.LowestIsLeast` | internal/datamodel/instances.go:316-329 | keeping the lower index at every visit ends with the least instance, repetitions included |
| `BandTables.OrderFreeIff` | internal/datamodel/instances.go:316-329 | this does not depend on the visiting order if and only if instance 0 is not mixed with others |
| `BandTables.Fill` | internal/datamodel/instances.go:719-745 | the loop leaves, for some visiting order, the lowest (or for radios the last) visited instance of each band, or 0 |
| `BandTables.FilledIsLeast` | internal/datamodel/instances.go:719-745 | with instances numbered from 1 such a table holds the lowest instance of each band, whatever the order |
| `BandTables.OneTableIff` | internal/datamodel/instances.go:719-745 | a table does not depend on the visiting order if and only if no band mixes instance 0 with others, or for radios no band has two |
| `BandTables.EntryIsPrimary` | internal/datamodel/instances.go:719-745 | every instance on a band of the table leaves a positive entry on that band, no higher than itself |
| `BandTables.EmptyBandIsZero` | internal/datamodel/instances.go:719-745 | a band without an instance has entry 0 |
| `BandTables.UnknownBands` | internal/datamodel/instances.go:969-1015 | without known bands the lowest of instances 1 to 4 and of 5 to 8 stand for two bands, and otherwise all instances are listed in order |
| `BandTables.MaxBand` | internal/datamodel/instances.go:642-653 | an upper bound of all bands that is attained unless it is the initial value |
| `BandTables.BuildWifiTables` | internal/datamodel/instances.go:712-745 | the SSID, radio and access point tables are what some visiting order leaves, equally long, and no SSID or radio is dropped by the length guard |
| `BandTables.DiscoverWlan` | internal/datamodel/instances.go:969-1015 | the WLAN table holds the lowest instance per known band, else the split 1-4 and 5-8, else all instances in ascending order |
| `SchemaMapper.SafeIdx` | internal/schema/mapper.go:133-138 | positive whenever the fallback is, and the discovered number when there is one |
| `SchemaMapper.SafeInt` | internal/schema/mapper.go:141-146 | positive whenever the fallback is, and the discovered number when there is one |
| `SchemaMapper.NamesAreDistinct` | internal/schema/mapper.go:110-127 | the sixteen placeholders are pairwise different |
| `SchemaMapper.ValuesArePositive` | internal/schema/mapper.go:107-146 | each of the sixteen placeholders stands for the decimal text of its own discovered or default number, all of them positive |
| `SchemaMapper.BandsByName` | internal/schema/mapper.go:107-129 | each wireless placeholder stands for the discovered instance of its band, else for 1 or 2 |
| `SchemaMapper.InterfacesByName` | internal/schema/mapper.go:107-129 | each other placeholder stands for its own discovered instance, else for 1, or 2 for the LAN interface |
| `SchemaMapper.SubstituteIsSimultaneous` | internal/schema/mapper.go:107-129 | the mapper substitutes all placeholders at once, for every argument order and in agreement with the executor, and removes exactly the known ones |
| `WanDiscovery.RefOfPrinted` | internal/datamodel/instances.go:119-124 | a printed instance reference reads back |
| `WanDiscovery.ReferencedByPath` | internal/datamodel/instances.go:330-355 | the LowerLayers of the WAN interface names the PPP interface by its path, if that one exists |
| `WanDiscovery.TerminationByPath` | internal/datamodel/instances.go:362-392 | the LowerLayers of the PPP interface names the VLAN termination by its path, and that one reports its VLANID |
| `WanDiscovery.OnePreferredIff` | internal/datamodel/instances.go:316-355 | the PPP choice does not depend on the visiting order if and only if the WAN interface refers to an existing PPP interface or interface 0 is not found among others |
| `WanDiscovery.PreferredIsLeast` | internal/datamodel/instances.go:316-329 | with interfaces numbered from 1 and none referenced, it is the least existing one |
| `WanDiscovery.InstanceMap.CollectPpp` | internal/datamodel/instances.go:316-329 | collects the existing PPP interfaces and leaves what keeping the lower one at every visit gives |
| `WanDiscovery.InstanceMap.DiscoverTr181Ppp` | internal/datamodel/instances.go:316-355 | the PPP interface below the WAN interface if it exists, else what the first loop leaves |
| `WanDiscovery.InstanceMap.DiscoverTr181Vlan` | internal/datamodel/instances.go:362-392 | the VLAN termination the PPP interface refers to and the VLAN it reports; unchanged when either is missing |
| `Tr098PppChoice.PickBest` | internal/datamodel/instances.go:821-849 | for every order a candidate is chosen that no other beats on public address, any address, lower connection index |
| `Tr098PppChoice.CollectCandidates` | internal/datamodel/instances.go:787-818 | the candidates are those of some visiting order |
| `Tr098PppChoice.AddressByName` | internal/datamodel/instances.go:800-818 | addresses are the parameters whose last segment is ExternalIPAddress |
| `Tr098PppChoice.DeclaredVlanMeans` | internal/datamodel/instances.go:850-867 | the VLAN of the chosen connection is a number other than the text 0 |
| `Tr098PppChoice.CollectAllDescribes` | internal/datamodel/instances.go:787-818 | for every order there is one candidate per connection, with an address flag exactly when some address is reported and the public flag of a reported address |
| `Tr098PppChoice.OneChoiceIff` | internal/datamodel/instances.go:787-849 | the chosen connection does not depend on the visiting order if and only if some connection with a single PPP instance is preferred to all others even when its least favourable address and their most favourable ones are visited last |
| `Tr098PppChoice.TwoInstancesAreUndecided` | internal/datamodel/instances.go:787-818 | two PPP instances on one connection make the choice depend on the order |
| `Tr098PppChoice.EqualIndicesAreUndecided` | internal/datamodel/instances.go:845-849 | so does one connection index below two WAN devices |
| `Tr098PppChoice.TiesDifferInDevice` | internal/datamodel/instances.go:821-849 | two maximal candidates agree in everything the preference looks at and are the same if and only if they are below the same WAN device |
| `WanDiscovery.InstanceMap.DiscoverTr098Ppp` | internal/datamodel/instances.go:787-867 | the indices and the VLAN of a connection chosen under some visiting order are stored; nothing changes without one |
| `VlanChain.CycleHasNoTermination` | internal/cwmp/session.go:3373-3385 | a chain that re-enters visited objects never reaches a VLANTermination, so the visited set never changes the answer |
| `VlanChain.FollowChain` | internal/cwmp/session.go:3373-3415 | the loop finds the first VLANTermination among the first hops of the chain |
| `VlanChain.ReadVlanId` | internal/cwmp/session.go:3390-3405 | the positive VLANID under its exact name, else under any spelling, else 0 |
| `VlanChain.ResolveVlanFromChain` | internal/cwmp/session.go:3373-3418 | the VLANID of the first VLANTermination among the first four objects of the chain, or 0 |
| `VlanChain.LinkedVlan` | internal/cwmp/session.go:3373-3418 | for an object that lies on a VLANTermination the VLAN is the positive number that this one reports, and none if it reports no VLANID in any spelling |
| `VlanChain.ReadsIsUniqueIff` | internal/cwmp/session.go:3390-3405 | the answer is unique if and only if the exact name has a positive number or all spellings with one agree |
| `VlanChain.ChainAgreesWithDiscovery` | internal/datamodel/instances.go:362-392 | on a direct link to a termination with a positive VLANID the chain gives the VLAN that instance discovery finds |
| `GlobalDefaults.ExpandedByWriter` | internal/cwmp/session.go:1471-1499 | a path is in the expansion if and only if some default writes it, with the value of such a default |
| `GlobalDefaults.WrittenByEntry` | internal/cwmp/session.go:1471-1499 | an entry whose key begins with _vp. gives its value to its candidate paths of the data model and to those the device reports; any other entry is a path itself |
| `GlobalDefaults.PushedIff` | internal/cwmp/session.go:1532-1560 | a path is pushed exactly when the expansion has it with a value that the device lacks, and it neither begins with an underscore nor belongs to the other data model |
| `GlobalDefaults.ExpansionIgnoresOrderIff` | internal/cwmp/session.go:1471-1499 | the expansion is the same for all visiting orders if and only if all writers of each path agree |
| `GlobalDefaults.RootIsKept` | internal/cwmp/session.go:1532-1560 | applying the pushed parameters does not change the detected data model |
| `GlobalDefaults.SettlesIff` | internal/cwmp/session.go:1509-1560 | a second pass over a device that applied the first pushes nothing, for all visiting orders, if and only if no two defaults give one pushable path different values |
| `GlobalDefaults.ExpandVirtualParams` | internal/cwmp/session.go:1471-1499 | the loops give the expansion for some visiting order |
| `GlobalDefaults.GlobalDefaultsToPush` | internal/cwmp/session.go:1532-1560 | exactly the expanded pushable paths that differ from the device; no internal key and none of the other data model's paths |
| `DigestNonces.TableIsHistory` | internal/auth/digest.go:143-162 | after any run the table holds exactly the nonces issued at most five minutes before the last sweep, each with its time and the number of requests that presented it since |
| `DigestNonces.AcceptedIff` | internal/auth/digest.go:75-141 | a request is accepted if and only if it has all fields, its response is the digest of its fields, its nonce was issued at most five minutes before the sweep, and fewer than 1000 requests presented that nonce since |
| `DigestNonces.NonceUseIsBounded` | internal/auth/digest.go:101-118 | over every run each nonce is accepted at most 1000 times |
| `DigestNonces.DigestAuth.CleanStaleNonces` | internal/auth/digest.go:153-162 | removes exactly the nonces older than five minutes |
| `DigestNonces.DigestAuth.ValidateRequest` | internal/auth/digest.go:75-141 | a complete request with a known nonce uses it up once; the verdict is the acceptance condition |
| `DigestNonces.DigestAuth.Middleware` | internal/auth/digest.go:51-70 | sweeps, validates and, on failure, issues a challenge |
| `PortMapping.ScanBuildsRules` | internal/cwmp/results.go:945-977 | a rule exists if and only if some parameter names it, and holds the value visited last for each field |
| `PortMapping.DecodeKey` | internal/cwmp/results.go:949-962 | a built parameter name reads back as its instance number and field |
| `PortMapping.RoundTrip` | internal/cwmp/results.go:940-1008 | reading back what was written for instances 1 to n gives the n rules in order, whatever the visiting order |
| `PortMapping.WrittenByName` | internal/cwmp/results.go:990-1009 | the seven parameters of every rule by name, with their defaults |
| `PortMapping.ReadByName` | internal/cwmp/results.go:963-976 | a device that reports one parameter of its first rule gives a rule with that field, under the long names and the short ones |
| `PortMapping.ListingIsCompleteIff` | internal/cwmp/results.go:978-984 | no rule is lost if and only if the instance numbers are 1 to n without a gap |
| `PortMappingOrder.OneListingIff` | internal/cwmp/results.go:945-985 | the rules read are the same for all visiting orders if and only if all parameters for one field of one listed rule have the same effect |
| `PortMapping.ParsePortMappingRules` | internal/cwmp/results.go:940-985 | the loops give the parse for some visiting order |
| `GoStrings.AtoiOfItoa` | internal/schema/mapper.go:133-146 | printing an integer and parsing it back gives the integer |
| `GoStrings.LeafOfPath` | internal/cwmp/soap.go:396-400 | the last segment of a path is read off after its last dot |
| `GoStrings.LeafIsNamed` | internal/cwmp/soap.go:392-397 | the last segment is a given word exactly when the name is that word or ends in it after a dot |
| `GoStrings.StringLessIff` | internal/cwmp/results.go:608-610 | one string comes before another exactly when it is a proper beginning of it or smaller at the first position where they differ |

## Left out

- HTTP, cookies, SOAP and XML encoding, Redis, MongoDB, PostgreSQL, YAML, JSON decoding, logging and timers: their results are parameters.
- Byte-level strings: strings are sequences of Unicode scalar values, case mapping is ASCII only, and lengths in the vendor sort count characters.
- `strconv.Atoi` has no 64-bit range check; parsed numbers are unbounded.
- The regular expressions that take parameter paths apart: paths arrive as the parts they match, except for the instance references of the VLAN and PPP links. Zero-padded instance numbers in names are not distinguished.
- Redis pipeline and LREM failures, key expiry, paging and the search for running diagnostics.
- The index set of tasks per device, which no modelled operation reads.
- Task payloads, results, error texts and timestamps; how each task type builds its request is a `Plan` parameter.
- The bodies of provisioning requests in the session layer: a request is the step and its bindings, and any resolution of them is allowed.
- The TR-181 half of WAN extraction, which depends on map order in more than one place.
- How radios, SSIDs and access points get their bands; the tables are built from any assignment.
- The first WANIPConnection found on a TR-098 device, which is whichever the map yields first.
- The Ethernet and GPON links behind a VLAN termination, and the single-termination fallback of the WAN restore.
- The WAN flow that deletes and re-adds objects: nothing calls it.
- Parsing of the Authorization header. A sweep and the check after it are one step.
- Removal of old sessions, background goroutines and the parameter cache.
- The lock-step and summon theorems exclude runs in which a summon is scheduled while a provision is in flight, faults arrive during a summon, or a flow has no active step; `DeviceRunIsQueueRun` and `SimilarServe` include them.
- Device information that is extracted from stored values and kept beside them, and the throttling of summons: whether one is due is part of what an Inform learns.
- TaskQueue.QueueAgreesWithLifecycle: a removal from the device list never fails, and a device has one session at a time that holds copies.
- DeviceRuns.DeviceRunKeepsList: one device, whose replies come to the session it is bound to; replies that an RPC id leads to another session are in `SessionManager.ServeReply` only.
- CwmpManager.RunKeepsOneHolder: one device at a time and a fresh session id for every Inform, because an Inform on a session that already holds a task keeps that task (`AdoptionConservesIff`). `Rotation` covers Informs under an unchanged id. A request that comes after the bound session has left the map meets a session that is not among those of the device.
- Rotation.RotationIsInvisibleIff: RPC ids are not part of the comparison, and a session that is bound to no serial is compared by its replies and writes like any other.
- A mapper for a schema that is not registered is a nil pointer on which calls panic; such calls are taken to return.
- CwmpManager.SessionManager.TriggerFullSummon: the flag it keeps for the next Inform is part of what that Inform learns.
- CwmpSession.Session.ServeHttp: Informs are served by the session manager. Encoding a reply is taken to succeed, because the encoder reports no error for these structures of strings and a memory buffer; so the error branches after it are absent here and in the handlers it calls.
- CwmpSession.Session.HandleAddObjectResponse: the follow-up request is taken to be built, for the same reason.
- CwmpSession.Session.SendNextSummonBatch: the batch request is taken to be built, for the same reason.
- CwmpSession.Session.HandleEmpty: the removal of a closed session from the session map is in `SessionManager.ServeEmpty`.
- WanDiscovery.InstanceMap.DiscoverTr181Ppp: needs a fresh instance map, as its only caller passes.
- LegacyWanFlow.ReferencesIntactIff: requires credentials without braces; with braces a credential could name a placeholder.
- A bound on the number of attempts: the code never enforces one.
