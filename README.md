# Notification originator, engine bookkeeping, security cache and error indications of pysnmp

This project models, in Dafny, four pieces of the pysnmp SNMP engine.

- **The notification originator** of RFC 3413, section 3.3 (`NotificationOriginator` in
  `pysnmp/entity/rfc3413/ntforg.py`), in `ntforg.dfy`, with the binding-prefix step in
  `prefix.dfy` and its collaborators in `dispatch.dfy`. It is a class over its three tables:
  - outstanding confirmed requests by send-PDU handle;
  - the notification each outstanding Inform belongs to;
  - the Inform count per notification.

  The modelled operations are `sendVarBinds`, `sendPdu`, `processResponsePdu` and
  `processResponseVarBinds`. The invariant `Valid` ties the three tables together:
  - each pending count is the number of Informs outstanding for its notification, and it
    is positive;
  - each notification is reported to its application at most once, and only after its
    last Inform is answered, timed out or failed. A notification sent only as Traps, or
    stopped by an access denial, is never reported.

  Every state-changing method keeps this invariant. The methods of the response path
  (`processResponsePdu` and its steps) state the whole new state in each of the source's
  branches. The loop of `sendVarBinds` states its effect through two predicates over
  snapshots of the state:
  - `Advanced` gives the messages sent, in target order, and for Informs the records,
    handle links, counts and jobs added;
  - `Stopped` gives where and why the loop ended, and the report a failed send makes.
- **The security-model cache** (`pysnmp/proto/secmod/cache.py`), in `cache.dfy`. It is a
  table of security data keyed by state references drawn from one counter shared by every
  cache.
- **The SNMP engine object** (`pysnmp/entity/engine.py`), in `engine.dfy`. This covers:
  - the model registries;
  - snmpEngineBoots at start-up, including the persisted counter;
  - binding to one transport dispatcher;
  - the fan-out of a timer tick;
  - the user-context store.
- **The error-indication values** (`pysnmp/proto/errind.py`), in `errind.dfy`. This covers
  their values, descriptions and the Python 2 `__cmp__` that keeps them comparable with
  plain string literals.

`retries.dfy` counts the resends of a timed-out Inform. `wrappers.dfy` holds `Option` and
`Result`.

Collaborators are parameters of the model:
- the message-and-PDU dispatcher's `sendPdu`, whose success or failure on the n-th attempt
  is a function given to the dispatcher;
- the SNMPv1/SNMPv2 PDU translation of RFC 2576;
- the access-control check of the view-based model;
- the configuration tables read by `config.getTargetAddr`, `getTargetParams`,
  `getNotificationInfo` and `getTargetNames`.

The application callback is a ghost log of the notifications reported (`notified`). The
transport dispatcher's job counter is a ghost counter (`jobs`).

## Model

| member | source | states |
|---|---|---|
| ErrInd.ClassName | pysnmp/proto/errind.py:6-125 | every indication class name starts with a capital letter |
| ErrInd.ValueOf | pysnmp/proto/errind.py:8 | the value has the length of the class name, its first letter lower-cased, and the rest of the name unchanged |
| ErrInd.ClassNamedInverts | pysnmp/proto/errind.py:6-125 | every class is recovered from its name, so the 35 class names are pairwise distinct |
| ErrInd.ClassNameInjective | pysnmp/proto/errind.py:6-125 | equal class names mean the same class |
| ErrInd.ValueInjective | pysnmp/proto/errind.py:8 | equal values mean the same class, so the value identifies its class |
| ErrInd.Lower | pysnmp/proto/errind.py:8 | `lower` maps a capital to its lower-case letter, 32 code points on, and leaves other characters alone |
| ErrInd.New | pysnmp/proto/errind.py:7-9 | the object built has the class it was built for |
| ErrInd.Str | pysnmp/proto/errind.py:15 | the string form is the description, so building an object of the same class from a non-empty string form gives back the same object |
| ErrInd.StrOfNew | pysnmp/proto/errind.py:7-15 | `str()` is the given description when it is truthy, and the value otherwise (None or empty) |
| ErrInd.StrCmp | pysnmp/proto/errind.py:14 | Python 2 string `cmp` returns -1, 0 or 1 |
| ErrInd.StrCmpZeroIff | pysnmp/proto/errind.py:14 | string `cmp` is 0 exactly when the strings are equal |
| ErrInd.StrCmpAntisymmetric | pysnmp/proto/errind.py:14 | swapping the operands of `cmp` negates it |
| ErrInd.Cmp | pysnmp/proto/errind.py:10-14 | `__cmp__` returns -1, 0 or 1 against an indication, a string or None |
| ErrInd.EqualsIndicationIff | pysnmp/proto/errind.py:10-14 | two indications compare equal exactly when the right one is an instance of the left one's class; descriptions play no part |
| ErrInd.EqualsTextIff | pysnmp/proto/errind.py:13-14 | an indication equals a string exactly when the string is its value |
| ErrInd.CmpOrdersByValue | pysnmp/proto/errind.py:13-14 | unrelated indications are ordered by their values |
| ErrInd.NotEqualsNone | pysnmp/proto/errind.py:13-14 | no indication compares equal to None |
| ErrInd.Instance | pysnmp/proto/errind.py:19-125 | each module-level singleton belongs to its own class |
| ErrInd.InstanceDescr | pysnmp/proto/errind.py:19-125 | every module-level singleton is built with a description, except `accessAllowed`, and the base class has no singleton |
| ErrInd.RequestTimedOutComparesToLiteral | pysnmp/proto/errind.py:31-32 | `requestTimedOut` equals the literal 'requestTimedOut', while its `str()` is its long description |
| ErrInd.AccessAllowedStrIsValue | pysnmp/proto/errind.py:116-117 | `accessAllowed` has no description, so its `str()` is its value and compares equal to itself as a string |
| ErrInd.InstanceEqualsItsClass | pysnmp/proto/errind.py:10-125 | a singleton equals exactly the objects of its own class, whatever their descriptions |
| SecModCache.StateReferenceCounter.Next | pysnmp/proto/secmod/cache.py:12 | the shared generator hands out its current value, which is below 0xffffff, and moves on by one, wrapping to 0 |
| SecModCache.Pushed | pysnmp/proto/secmod/cache.py:17-20 | after a push, the reference maps to the data, and the keys are the old keys plus the reference |
| SecModCache.PopResult | pysnmp/proto/secmod/cache.py:22-28 | a pop succeeds exactly when the reference is in the table; otherwise it is a cache miss |
| SecModCache.Popped | pysnmp/proto/secmod/cache.py:22-24 | after a pop, the reference is gone and no other key is removed |
| SecModCache.PopAfterPush | pysnmp/proto/secmod/cache.py:17-24 | popping a pushed reference returns exactly the pushed data and leaves the table as if it had not been pushed |
| SecModCache.SecondPopMisses | pysnmp/proto/secmod/cache.py:22-28 | a second pop of the same reference is a cache miss |
| SecModCache.MissLeavesTable | pysnmp/proto/secmod/cache.py:22-28 | a pop that misses raises and leaves the table unchanged |
| SecModCache.OtherEntriesUntouched | pysnmp/proto/secmod/cache.py:17-24 | push and pop keep every other entry's presence and data |
| SecModCache.PushOverwrites | pysnmp/proto/secmod/cache.py:18-19 | a push under a reference still in use replaces the old data and does not grow the table |
| SecModCache.Cache.Push | pysnmp/proto/secmod/cache.py:17-20 | draws the next reference from the shared counter, stores the data under it and returns it |
| SecModCache.Cache.Pop | pysnmp/proto/secmod/cache.py:22-28 | returns and removes the entry, or reports a miss and changes nothing |
| SecModCache.SharedCounterAcrossCaches | pysnmp/proto/secmod/cache.py:11-20 | two caches draw consecutive, distinct references from the one class-level counter |
| Engine.MessageProcessingSubsystems | pysnmp/entity/engine.py:28-35 | the registry holds exactly the three message-processing models, each under its own model ID |
| Engine.SecurityModels | pysnmp/entity/engine.py:36-40 | the registry holds exactly the three security models, each under its own model ID |
| Engine.AccessControlModels | pysnmp/entity/engine.py:41-44 | the registry holds exactly the two access-control models, each under its own model ID |
| Engine.MpTicksStep | pysnmp/entity/engine.py:115-116 | each step of the walk over the message-processing registry finds the next key and appends its model |
| Engine.SmTicksStep | pysnmp/entity/engine.py:117-118 | each step of the walk over the security-model registry finds the next key and appends its model |
| Engine.RegistryWalk | pysnmp/entity/engine.py:115-118 | walking each registry meets every model exactly once, in key order |
| Engine.TickFanOut | pysnmp/entity/engine.py:113-118 | a tick makes seven distinct calls: the dispatcher first, then every message-processing model, then every security model |
| Engine.TickFanOutIsWalks | pysnmp/entity/engine.py:113-118 | the fan-out is the dispatcher followed by the two registry walks |
| Engine.SnmpEngine.ReceiveTimerTick | pysnmp/entity/engine.py:113-118 | the tick log grows by exactly the fan-out of the tick, and nothing else changes |
| Engine.StartupBoots | pysnmp/entity/engine.py:54-88 | construction fails exactly when the first increment leaves 1..2147483647; otherwise the counter ends in that range |
| Engine.BootsWithoutCustomId | pysnmp/entity/engine.py:54-59 | without a caller's engine ID the counter is the MIB value plus one |
| Engine.BootsContinuePersisted | pysnmp/entity/engine.py:79-86 | with a caller's engine ID, a stored count b becomes b + 1 |
| Engine.BootsFallBackToOne | pysnmp/entity/engine.py:85-88 | a stored count at the top of the range falls back to 1 |
| Engine.BootsUnreadableRaisedTwice | pysnmp/entity/engine.py:79-86 | with nothing readable stored, the MIB value is raised twice |
| Engine.SnmpEngine.Init | pysnmp/entity/engine.py:18-46 | a new engine holds the three registries, an empty user context and no transport dispatcher |
| Engine.SnmpEngine.Create | pysnmp/entity/engine.py:18-98 | construction succeeds exactly when the boot counter stays in range; the engine ID is the caller's or the MIB's, and the boot counter is the start-up value |
| Engine.SnmpEngine.RegisterTransportDispatcher | pysnmp/entity/engine.py:120-133 | another dispatcher already bound is refused with nothing changed; otherwise the receive callback is registered, and the timer callback too on first binding |
| Engine.SnmpEngine.UnregisterTransportDispatcher | pysnmp/entity/engine.py:135-142 | with no dispatcher bound it raises; otherwise both callbacks are unregistered and the binding is cleared |
| Engine.ContextKey | pysnmp/entity/engine.py:148-160 | the stored key is the name behind a two-underscore prefix |
| Engine.SnmpEngine.SetUserContext | pysnmp/entity/engine.py:148-151 | the store is the old store updated with every keyword under its prefixed key |
| Engine.GetAfterSet | pysnmp/entity/engine.py:148-154 | after a set, every given name reads back its value and every other name reads back what it did before |
| Engine.SnmpEngine.GetUserContext | pysnmp/entity/engine.py:153-154 | a name reads back a value exactly when its prefixed key is stored, and then it reads back the stored value |
| Engine.SnmpEngine.DelUserContext | pysnmp/entity/engine.py:156-160 | the prefixed key is removed, and a missing key is ignored |
| Engine.GetAfterDel | pysnmp/entity/engine.py:153-160 | after a delete the name reads back as absent, and other names are untouched |
| Engine.DelAbsentIsNoop | pysnmp/entity/engine.py:156-160 | deleting an absent name leaves the store unchanged |
| Dispatch.NewPdu | pysnmp/entity/rfc3413/ntforg.py:349-350 | a new PDU has the requested type, the given bindings and zero error status and index |
| Dispatch.Config.ResolveTarget | pysnmp/entity/rfc3413/ntforg.py:157-166 | a target resolves exactly when its address row and that row's parameters row exist, and then yields both rows |
| VarBindPrefix.Insert | pysnmp/entity/rfc3413/ntforg.py:289-297 | `list.insert` puts the element at the index, shifting the rest; an index past the end appends |
| VarBindPrefix.LastSysUpTimeAt | pysnmp/entity/rfc3413/ntforg.py:285-287 | the position found holds a sysUpTime binding and no later position does; -1 when none does |
| VarBindPrefix.LastSysUpTime | pysnmp/entity/rfc3413/ntforg.py:285-287 | the default comes back exactly when no binding is named sysUpTime; otherwise the result is the last sysUpTime binding of the list |
| VarBindPrefix.ScanFirst | pysnmp/entity/rfc3413/ntforg.py:292-294 | at position 0 a default sysUpTime is put first unless one is already there |
| VarBindPrefix.ScanStep | pysnmp/entity/rfc3413/ntforg.py:284-294 | at a later position, a sysUpTime found there overwrites position 0, and nothing else changes |
| VarBindPrefix.NormalizePrefix | pysnmp/entity/rfc3413/ntforg.py:284-298 | the in-place loop and the snmpTrapOID insertion yield exactly `Normalized` of the caller's list |
| VarBindPrefix.Normalized | pysnmp/entity/rfc3413/ntforg.py:284-298 | a non-empty list is sent with sysUpTime first and snmpTrapOID second; an empty list is sent as the snmpTrapOID binding alone, without sysUpTime |
| VarBindPrefix.NormalizedKeepsTail | pysnmp/entity/rfc3413/ntforg.py:284-298 | every binding after the caller's first is sent unchanged and in order at the end, behind at most two inserted ones |
| VarBindPrefix.CallerSysUpTimeFirst | pysnmp/entity/rfc3413/ntforg.py:285-287 | when the caller's list starts with sysUpTime, the last sysUpTime given is the one sent first |
| VarBindPrefix.TrailingSysUpTimeNotMoved | pysnmp/entity/rfc3413/ntforg.py:284-294 | a caller's sysUpTime in last place behind another first binding stays last, and a default is put first |
| VarBindPrefix.LaterSysUpTimeDuplicated | pysnmp/entity/rfc3413/ntforg.py:285-287 | a later sysUpTime is copied to the front but also stays where it was |
| NtfOrg.ProcessResponseVarBinds | pysnmp/entity/rfc3413/ntforg.py:240-253 | the callback gets the handle, the error indication, and the response's error status, index and bindings; without a response it gets zeros and no bindings |
| NtfOrg.NotifyPduType | pysnmp/entity/rfc3413/ntforg.py:342-345 | the PDU is confirmed-class (an Inform) exactly when the notify type is 2 |
| NtfOrg.OwnedByRemove | pysnmp/entity/rfc3413/ntforg.py:53-55 | removing a request lowers its notification's request count by one and no other count |
| NtfOrg.OwnedByAdd | pysnmp/entity/rfc3413/ntforg.py:378-382 | adding a request raises its notification's request count by one and no other count |
| NtfOrg.OwnedByNone | pysnmp/entity/rfc3413/ntforg.py:379-380 | a notification that no handle is linked to owns no request |
| NtfOrg.EnlistedStep | pysnmp/entity/rfc3413/ntforg.py:382 | one more Inform of the loop links one more handle, the next one, to the notification |
| NtfOrg.EnlistedMaps | pysnmp/entity/rfc3413/ntforg.py:382 | the handles of the Informs the loop sent, and only they, are added, each linked to the notification; every older link is kept |
| NtfOrg.Stop.Outcome | pysnmp/entity/rfc3413/ntforg.py:339-386 | `sendVarBinds` returns nothing exactly after an access denial, raises exactly for a target that does not resolve or an unknown notify type, and otherwise returns the notification's handle |
| NtfOrg.NotificationOriginator.constructor | pysnmp/entity/rfc3413/ntforg.py:16-19 | a new originator has three empty tables, which satisfy the invariant |
| NtfOrg.NotificationOriginator.FirstRecord | pysnmp/entity/rfc3413/ntforg.py:205-218 | the request kept for a confirmed PDU holds the PDU as given, the target's timeout and retry budget, and retry number 1 |
| NtfOrg.NotificationOriginator.FirstRecordResends | pysnmp/entity/rfc3413/ntforg.py:217 | a request recorded with a budget of R >= 1 is resent only R - 1 times before it is given up |
| NtfOrg.NotificationOriginator.FirstRecordZeroBudget | pysnmp/entity/rfc3413/ntforg.py:217 | a request recorded with a budget of 0 is never given up, however many timeouts follow |
| NtfOrg.NotificationOriginator.SendToTarget | pysnmp/entity/rfc3413/ntforg.py:168-238 | the message goes to the dispatcher with the translated PDU for SNMPv1 and a timeout only when the PDU expects a response; a confirmed PDU is remembered under the returned handle with retry number 1, as written, and one job started; a failed send changes no table |
| NtfOrg.NotificationOriginator.SendPdu | pysnmp/entity/rfc3413/ntforg.py:149-238 | a target that does not resolve raises before anything changes; otherwise the send goes as in `SendToTarget`, retry number 1 included, and its failure raises the dispatcher's status information |
| NtfOrg.NotificationOriginator.ProcessResponsePdu | pysnmp/entity/rfc3413/ntforg.py:22-147 | every branch keeps the invariant; an unknown handle raises ProtocolError with nothing changed; a request of no notification is popped before the lookup raises KeyError; a response retires the request and reports the (SNMPv1-translated) response once no Inform of its notification is left; a timeout at the budget is reported the same way with the error indication; any other timeout resends the request; a resend that fails is reported with the send's error; a resend that goes out is remembered under its new handle with its retry number raised by one |
| NtfOrg.NotificationOriginator.SettleResponse | pysnmp/entity/rfc3413/ntforg.py:139-147 | step 3.3.6c: the request leaves both tables, and the notification's count goes down; at zero the notification is forgotten and reported with the response |
| NtfOrg.NotificationOriginator.SettleTimeout | pysnmp/entity/rfc3413/ntforg.py:51-137 | step 3.3.6d, from the retired request on, as stated for `ProcessResponsePdu` |
| NtfOrg.NotificationOriginator.OnTimeout | pysnmp/entity/rfc3413/ntforg.py:59-137 | a retired request is given up and reported when its retry number equals its budget; otherwise it is resent, and then reported on a failed send or re-registered with the count restored |
| NtfOrg.NotificationOriginator.Forget | pysnmp/entity/rfc3413/ntforg.py:51-53 | a request that belongs to no notification is removed from the request table only |
| NtfOrg.NotificationOriginator.Retire | pysnmp/entity/rfc3413/ntforg.py:51-57 | returns the request and its notification, removes the request from both tables, lowers the notification's count by one and ends one job |
| NtfOrg.NotificationOriginator.ReportIfLast | pysnmp/entity/rfc3413/ntforg.py:140-147 | a notification with no Inform left is forgotten and reported once; otherwise nothing changes |
| NtfOrg.NotificationOriginator.Renew | pysnmp/entity/rfc3413/ntforg.py:114-135 | the resent request is remembered under its new handle for the same notification, and that notification's count goes back up by one |
| NtfOrg.NotificationOriginator.CheckAccess | pysnmp/entity/rfc3413/ntforg.py:326-339 | access is granted exactly when every binding other than sysUpTime and snmpTrapOID is in the target principal's notify view |
| NtfOrg.NotificationOriginator.SentInOrderEach | pysnmp/entity/rfc3413/ntforg.py:305-382 | messages sent in order extend the earlier ones, at most one per target, the j-th being the notification PDU sent to the j-th target, which resolves |
| NtfOrg.NotificationOriginator.SentInOrderOfEach | pysnmp/entity/rfc3413/ntforg.py:305-382 | conversely, messages that are the PDU sent to each target in turn are sent in order |
| NtfOrg.NotificationOriginator.SentInOrderResolves | pysnmp/entity/rfc3413/ntforg.py:305-314 | every target a message went to resolves, and at most one message went to each |
| NtfOrg.NotificationOriginator.SentInOrderStep | pysnmp/entity/rfc3413/ntforg.py:305-360 | sending to the next target keeps the sent messages the notification PDU, one per target, in target order |
| NtfOrg.NotificationOriginator.Refusal | pysnmp/entity/rfc3413/ntforg.py:306-347 | a target passes its checks only when it resolves and the notify type is 1 or 2; a check never ends the loop as delivered or as a failed send |
| NtfOrg.NotificationOriginator.StopAt | pysnmp/entity/rfc3413/ntforg.py:306-374 | the loop goes on past a target only when it passes its checks and the send to it goes out |
| NtfOrg.NotificationOriginator.AllPassEach | pysnmp/entity/rfc3413/ntforg.py:305-382 | the first n targets passed exactly when each of them passed its checks and its send, in turn |
| NtfOrg.NotificationOriginator.AllPassStep | pysnmp/entity/rfc3413/ntforg.py:305-382 | one more target that passes its checks and its send extends the run of targets passed |
| NtfOrg.NotificationOriginator.RecordedStep | pysnmp/entity/rfc3413/ntforg.py:205-218 | one more Inform of the loop records one more request, under the next handle |
| NtfOrg.NotificationOriginator.RecordedMaps | pysnmp/entity/rfc3413/ntforg.py:205-218 | the Informs the loop sent, and only they, are recorded, the j-th under the j-th handle with the request kept for its target; every older record is kept |
| NtfOrg.NotificationOriginator.SendVarBinds | pysnmp/entity/rfc3413/ntforg.py:255-386 | an unknown notification raises ConfigMissing with nothing changed; otherwise a fresh handle is taken and the normalized bindings are sent over the tag's targets as `FannedOut` states it, for some reason of stopping; the result is that reason's `Outcome`: the handle after the last target or a failed send, nothing after an access denial, the lookup's ConfigMissing or ProtocolError otherwise |
| NtfOrg.NotificationOriginator.FannedOutDelivered | pysnmp/entity/rfc3413/ntforg.py:305-386 | a loop that ran to the end sent the notification PDU to every target, one message each, in order, and reported nothing |
| NtfOrg.NotificationOriginator.FannedOutDenied | pysnmp/entity/rfc3413/ntforg.py:326-339 | an access denial stops the loop at a target that resolves and refuses one of the bindings, after one send per earlier target, and nothing is reported |
| NtfOrg.NotificationOriginator.FannedOutUnresolved | pysnmp/entity/rfc3413/ntforg.py:305-314 | the loop raises the lookup's own exception for the first target that does not resolve, and nothing is reported |
| NtfOrg.NotificationOriginator.FannedOutUnknownType | pysnmp/entity/rfc3413/ntforg.py:342-347 | an unknown notify type raises before anything is sent, recorded or reported |
| NtfOrg.NotificationOriginator.FannedOutReportsOnce | pysnmp/entity/rfc3413/ntforg.py:362-374 | the loop reports its notification at most once, only when a send fails, and under the notification's own handle |
| NtfOrg.NotificationOriginator.AdvancedTraps | pysnmp/entity/rfc3413/ntforg.py:220-234 | Traps leave the three tables and the job count as they were |
| NtfOrg.NotificationOriginator.AdvancedInformKeys | pysnmp/entity/rfc3413/ntforg.py:205-218 | the Informs sent add exactly their handles to the outstanding requests, and every older request is kept |
| NtfOrg.NotificationOriginator.AdvancedInformRecords | pysnmp/entity/rfc3413/ntforg.py:205-218 | the Inform sent to the j-th target is recorded under the j-th handle with the request kept for that target |
| NtfOrg.NotificationOriginator.AdvancedInformHandles | pysnmp/entity/rfc3413/ntforg.py:378-382 | each Inform sent is linked to the notification, which counts all of them, each is a job started, and every older link is kept |
| NtfOrg.NotificationOriginator.SendToTargets | pysnmp/entity/rfc3413/ntforg.py:305-384 | the loop keeps the invariant and ends as `FannedOut` states: the first k targets passed and got their message, the loop ends exactly when every target got one or target k was refused or its send failed, for that reason; an unresolved target raises ConfigMissing |
| NtfOrg.NotificationOriginator.VisitTarget | pysnmp/entity/rfc3413/ntforg.py:306-382 | one pass on target i: it goes on, with i + 1 targets passed, only after the message to target i went out; otherwise the loop has ended at target i as `FannedOut` states |
| NtfOrg.NotificationOriginator.Advance | pysnmp/entity/rfc3413/ntforg.py:353-382 | the send to a target that passed its checks either goes out and moves the loop on by one target, or fails and ends the loop as a failed send |
| NtfOrg.NotificationOriginator.AdvancedOnSend | pysnmp/entity/rfc3413/ntforg.py:378-382 | a send that goes out adds the next target's message and, for an Inform, its record, its handle's link and one more to the notification's count and jobs |
| NtfOrg.NotificationOriginator.AdvancedOnFailure | pysnmp/entity/rfc3413/ntforg.py:362-374 | a failed send leaves what the loop has sent and recorded as it was |
| NtfOrg.NotificationOriginator.PassedOn | pysnmp/entity/rfc3413/ntforg.py:353-382 | a send to the next target that goes out moves the loop on by one target, and nothing is reported |
| NtfOrg.NotificationOriginator.FailedAt | pysnmp/entity/rfc3413/ntforg.py:362-374 | a failed send to the next target ends the loop there as a failed send, with its report |
| NtfOrg.NotificationOriginator.StoppedOnRefusal | pysnmp/entity/rfc3413/ntforg.py:306-347 | a target refused by its checks ends the loop there, for that reason, with nothing reported |
| NtfOrg.NotificationOriginator.RefusedAt | pysnmp/entity/rfc3413/ntforg.py:306-347 | a refusal at a target ends the loop with what it sent and recorded so far |
| NtfOrg.NotificationOriginator.StoppedOnFailure | pysnmp/entity/rfc3413/ntforg.py:362-374 | a failed send ends the loop and reports the notification unless an Inform of it went out before |
| NtfOrg.NotificationOriginator.StoppedOnEnd | pysnmp/entity/rfc3413/ntforg.py:384-386 | a loop through every target ends as delivered, with nothing reported |
| NtfOrg.NotificationOriginator.Admit | pysnmp/entity/rfc3413/ntforg.py:306-347 | the checks in source order: an unresolved target, then an access denial, then an unknown notify type; none of them passes a target on |
| NtfOrg.NotificationOriginator.NotifyOne | pysnmp/entity/rfc3413/ntforg.py:341-382 | one send of the notification PDU, which fails exactly when the dispatcher's attempt fails; a failure changes no table and reports the notification unless an Inform of it is outstanding; a sent Inform is recorded under its handle with retry number 1, linked to and counted under the notification, and a job started; a sent Trap changes no table |
| NtfOrg.NotificationOriginator.ReportUnlessOutstanding | pysnmp/entity/rfc3413/ntforg.py:362-374 | a failed send reports the notification exactly when none of its Informs is outstanding |
| NtfOrg.NotificationOriginator.Enlist | pysnmp/entity/rfc3413/ntforg.py:378-382 | a sent Inform is counted under its notification (from 0 when new) and linked to it by its handle |
| InformRetries.Resends | pysnmp/entity/rfc3413/ntforg.py:59-134 | when the request is given up, the resends made take its retry number up to its budget, each timeout but the last causing one |
| InformRetries.ResendsCount | pysnmp/entity/rfc3413/ntforg.py:59-134 | from retry number r up to budget R, exactly R - r resends are made before the request is given up |
| InformRetries.AsWrittenOneResendShort | pysnmp/entity/rfc3413/ntforg.py:217 | starting from retry number 1, a budget of R >= 1 yields only R - 1 resends |
| InformRetries.AsWrittenZeroBudgetNeverGivesUp | pysnmp/entity/rfc3413/ntforg.py:217 | starting from retry number 1, a budget of 0 is never reached, so the Inform is resent after every timeout |
| InformRetries.IntendedUsesWholeBudget | pysnmp/entity/rfc3413/ntforg.py:59-134 | starting from retry number 0, a budget of R yields exactly R resends, for every R including 0 |

## Left out

- Logging, debug output and the `observer` and `getMibBuilder` members are not modelled. They do not affect state.
- The receive-message callback of the engine (`__receiveMessageCbFun`) is not modelled. It only forwards to the message dispatcher, which is not part of this model.
- File-system access for snmpEngineBoots is replaced by the `PersistedBoots` parameter:
  - creating the persistent directory;
  - reading the `boots` file;
  - writing it back through a temporary file.

  The write-back is not modelled because it cannot change the engine's state. The MIB's initial engine ID and boot counter are parameters too.
- The check that the MIB instrumentation exists (engine.py:48-51) is not modelled.
- The `msgAndPduDsp` argument of the engine and the setting of `snmpEngineMaxMessageSize` in the MIB are not modelled. Only the given maximum size is kept.
- The timer resolution and the conversion of a timeout to timer ticks are not modelled, because they use floating point. Timeouts are kept as given.
- The conversion of the context name to SnmpAdminString (ntforg.py:265-267) is not modelled. Context names are strings.
- The conversion of binding names to `ObjectIdentifier` is not modelled. Names are already OIDs.
- The PDU request-id set by `setDefaults` is not modelled.
- The SNMPv1/SNMPv2 PDU translation (`rfc2576.v2ToV1`, `v1ToV2`) is a function parameter.
- NtfOrg.NotificationOriginator.constructor: requires that `v2ToV1` keeps a PDU in or out of the confirmed class. `rfc2576.v2ToV1` is not part of this model. In pysnmp it has no SNMPv1 form for an InformRequest and raises, so an Inform to an SNMPv1 target raises out of `sendVarBinds` there. The model instead sends such an Inform as a confirmed PDU and counts it.
- The access-control check is a function parameter that answers allowed or denied. Its error indication is not kept, because `sendVarBinds` drops it.
- The configuration lookups are maps. A missing row raises `ConfigMissing` with the name looked up, where the source raises from the MIB layer.
- `sendVarBinds` calls `getTargetAddr` and `getTargetParams` once in its loop and again in `sendPdu`. The model resolves the target once. Configuration does not change in between.
- The message-and-PDU dispatcher's `sendPdu` is an abstract collaborator. Whether its n-th attempt fails with status information is a function given to it, and it hands out a fresh handle per attempt. Its encoding and transport are not part of this model.
- The application callback and its context (`cbFun`, `cbCtx`) are modelled by the ghost log `notified`. A callback that raises or re-enters the originator is not modelled.
- `jobStarted`/`jobFinished` are modelled as the ghost counter `jobs`.
- `getNextHandle` (`nextid.Integer(0x7fffffff)`) is not part of this model. Send-request handles are an increasing counter that starts at a constructor parameter, and its wrap-around is left out.
- SecModCache.StateReferenceCounter.Next: `nextid.Integer` is not part of this model. The shared counter is modelled as a counter that wraps to 0 after 0xffffff - 1, so the exact start value and any randomisation of the generator are parameters.
- The obsolete compatibility interfaces of `NotificationOriginator` (`sendNotification` and `_sendNotification`, ntforg.py:388 on) are not modelled.
- Notification filtering (step 3.3.1) is not modelled, because the source does not implement it.
- The `snmpContext` argument of the originator is not modelled, because the source marks it deprecated.
- In the retry handling, an SNMPv1 resend uses the message processing model reported with the timeout to decide whether the PDU is translated, as the code does (ntforg.py:76). The model follows the code here.

## Findings

| source | as written | input that shows it | evidently intended | confidence | as-written member | corrected member |
|---|---|---|---|---|---|---|
| pysnmp/entity/rfc3413/ntforg.py:217 | the first send records retry number 1, and a timeout gives up when the recorded number equals the retry budget (line 61); each resend raises the number by one (line 133) | budget 3 gives 2 resends; budget 0 never gives up, because 1, 2, 3, ... never equals 0 | a budget of R (snmpTargetAddrRetryCount) allows R resends, so the first send records retry number 0 | not executed | InformRetries.AsWrittenOneResendShort | InformRetries.IntendedUsesWholeBudget |

`InformRetries.AsWrittenZeroBudgetNeverGivesUp` shows the budget-0 case of the same discrepancy. The originator in `ntforg.dfy` follows the code as written: it records `InformRetries.FirstRetryAsWritten` (1) with the first send of a confirmed PDU, and keeps the code's give-up test. `NtfOrg.NotificationOriginator.FirstRecordResends` and `FirstRecordZeroBudget` carry both halves of the discrepancy over to the requests the class records. The corrected first retry number, `InformRetries.FirstRetryIntended` (0), and its property live in `retries.dfy`.
