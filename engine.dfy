/** Bookkeeping of the SNMP engine object (pysnmp/entity/engine.py): the model registries
    built at construction, the snmpEngineBoots arithmetic, the binding to at most one
    transport dispatcher, the fan-out of a timer tick, and the user-context store. */
module Engine {
  import opened Wrappers

  // ----- Model registries -----

  datatype MpModel = SnmpV1MessageProcessingModel | SnmpV2cMessageProcessingModel | SnmpV3MessageProcessingModel

  /** `messageProcessingModelID` of each message-processing model. */
  function MpModelId(m: MpModel): int
  {
    match m
    case SnmpV1MessageProcessingModel => 0
    case SnmpV2cMessageProcessingModel => 1
    case SnmpV3MessageProcessingModel => 3
  }

  datatype SecurityModel = SnmpV1SecurityModel | SnmpV2cSecurityModel | SnmpUSMSecurityModel

  /** `securityModelID` of each security model. */
  function SecurityModelId(s: SecurityModel): int
  {
    match s
    case SnmpV1SecurityModel => 1
    case SnmpV2cSecurityModel => 2
    case SnmpUSMSecurityModel => 3
  }

  datatype AccessControlModel = VoidVacm | Rfc3415Vacm

  /** `accessModelID` of each access-control model. */
  function AccessModelId(a: AccessControlModel): int
  {
    match a
    case VoidVacm => 0
    case Rfc3415Vacm => 3
  }

  /** `self.messageProcessingSubsystems`: one entry per model, keyed by its own ID. */
  function MessageProcessingSubsystems(): (r: map<int, MpModel>)
    ensures |r| == 3
    ensures forall m: MpModel :: MpModelId(m) in r && r[MpModelId(m)] == m
    ensures forall id :: id in r ==> MpModelId(r[id]) == id
  {
    var r := map[0 := SnmpV1MessageProcessingModel, 1 := SnmpV2cMessageProcessingModel, 3 := SnmpV3MessageProcessingModel];
    assert r.Keys == {0, 1, 3};
    r
  }

  /** `self.securityModels`: one entry per model, keyed by its own ID. */
  function SecurityModels(): (r: map<int, SecurityModel>)
    ensures |r| == 3
    ensures forall s: SecurityModel :: SecurityModelId(s) in r && r[SecurityModelId(s)] == s
    ensures forall id :: id in r ==> SecurityModelId(r[id]) == id
  {
    var r := map[1 := SnmpV1SecurityModel, 2 := SnmpV2cSecurityModel, 3 := SnmpUSMSecurityModel];
    assert r.Keys == {1, 2, 3};
    r
  }

  /** `self.accessControlModel`: the void model and the view-based one, keyed by their IDs. */
  function AccessControlModels(): (r: map<int, AccessControlModel>)
    ensures |r| == 2
    ensures forall a: AccessControlModel :: AccessModelId(a) in r && r[AccessModelId(a)] == a
    ensures forall id :: id in r ==> AccessModelId(r[id]) == id
  {
    var r := map[0 := VoidVacm, 3 := Rfc3415Vacm];
    assert r.Keys == {0, 3};
    r
  }

  /** The order in which the registries are walked: a Python 2 dictionary with these small
      integer keys yields them in ascending order. */
  const MpIds: seq<int> := [0, 1, 3]
  const SecurityModelIds: seq<int> := [1, 2, 3]

  // ----- Timer tick fan-out -----

  /** One `receiveTimerTick(self, timeNow)` call made by the engine's tick callback. */
  datatype TickTarget =
    | DispatcherTick(timeNow: int)
    | MpTick(mp: MpModel, timeNow: int)
    | SmTick(sm: SecurityModel, timeNow: int)

  function MpTicks(t: int, n: nat): seq<TickTarget>
    requires n <= |MpIds|
  {
    seq(n, j requires 0 <= j < n => MpTick(MessageProcessingSubsystems()[MpIds[j]], t))
  }

  function SmTicks(t: int, n: nat): seq<TickTarget>
    requires n <= |SecurityModelIds|
  {
    seq(n, j requires 0 <= j < n => SmTick(SecurityModels()[SecurityModelIds[j]], t))
  }

  /** One more step of the walk over the message-processing registry. */
  lemma MpTicksStep(t: int, i: nat)
    requires i < |MpIds|
    ensures MpIds[i] in MessageProcessingSubsystems()
    ensures MpTicks(t, i + 1) == MpTicks(t, i) + [MpTick(MessageProcessingSubsystems()[MpIds[i]], t)]
  {
    assert MpTicks(t, i + 1)[..i] == MpTicks(t, i);
  }

  /** One more step of the walk over the security-model registry. */
  lemma SmTicksStep(t: int, i: nat)
    requires i < |SecurityModelIds|
    ensures SecurityModelIds[i] in SecurityModels()
    ensures SmTicks(t, i + 1) == SmTicks(t, i) + [SmTick(SecurityModels()[SecurityModelIds[i]], t)]
  {
    assert SmTicks(t, i + 1)[..i] == SmTicks(t, i);
  }

  /** Walking the registries in key order meets every model once. */
  lemma RegistryWalk(t: int)
    ensures MpTicks(t, 3) == [MpTick(SnmpV1MessageProcessingModel, t), MpTick(SnmpV2cMessageProcessingModel, t),
                              MpTick(SnmpV3MessageProcessingModel, t)]
    ensures SmTicks(t, 3) == [SmTick(SnmpV1SecurityModel, t), SmTick(SnmpV2cSecurityModel, t),
                              SmTick(SnmpUSMSecurityModel, t)]
    ensures forall m: MpModel :: MpTick(m, t) in MpTicks(t, 3)
    ensures forall s: SecurityModel :: SmTick(s, t) in SmTicks(t, 3)
  {
    var mp, sm := MessageProcessingSubsystems(), SecurityModels();
    assert mp[MpModelId(SnmpV1MessageProcessingModel)] == SnmpV1MessageProcessingModel;
    assert mp[MpModelId(SnmpV2cMessageProcessingModel)] == SnmpV2cMessageProcessingModel;
    assert mp[MpModelId(SnmpV3MessageProcessingModel)] == SnmpV3MessageProcessingModel;
    assert sm[SecurityModelId(SnmpV1SecurityModel)] == SnmpV1SecurityModel;
    assert sm[SecurityModelId(SnmpV2cSecurityModel)] == SnmpV2cSecurityModel;
    assert sm[SecurityModelId(SnmpUSMSecurityModel)] == SnmpUSMSecurityModel;
    forall m: MpModel ensures MpTick(m, t) in MpTicks(t, 3) {
      match m
      case SnmpV1MessageProcessingModel => assert MpTicks(t, 3)[0] == MpTick(m, t);
      case SnmpV2cMessageProcessingModel => assert MpTicks(t, 3)[1] == MpTick(m, t);
      case SnmpV3MessageProcessingModel => assert MpTicks(t, 3)[2] == MpTick(m, t);
    }
    forall s: SecurityModel ensures SmTick(s, t) in SmTicks(t, 3) {
      match s
      case SnmpV1SecurityModel => assert SmTicks(t, 3)[0] == SmTick(s, t);
      case SnmpV2cSecurityModel => assert SmTicks(t, 3)[1] == SmTick(s, t);
      case SnmpUSMSecurityModel => assert SmTicks(t, 3)[2] == SmTick(s, t);
    }
  }

  /** The calls one timer tick makes: the message dispatcher first, then every
      message-processing model once, then every security model once. */
  function TickFanOut(t: int): (calls: seq<TickTarget>)
    ensures |calls| == 7 && calls[0] == DispatcherTick(t)
    ensures forall m: MpModel :: MpTick(m, t) in calls[1..4]
    ensures forall s: SecurityModel :: SmTick(s, t) in calls[4..]
    ensures forall i :: 1 <= i < 4 ==> calls[i].MpTick?
    ensures forall i :: 4 <= i < 7 ==> calls[i].SmTick?
    ensures forall i, j :: 0 <= i < j < |calls| ==> calls[i] != calls[j]
  {
    RegistryWalk(t);
    var calls := [DispatcherTick(t)] + MpTicks(t, 3) + SmTicks(t, 3);
    assert calls == [DispatcherTick(t),
                     MpTick(SnmpV1MessageProcessingModel, t), MpTick(SnmpV2cMessageProcessingModel, t),
                     MpTick(SnmpV3MessageProcessingModel, t),
                     SmTick(SnmpV1SecurityModel, t), SmTick(SnmpV2cSecurityModel, t), SmTick(SnmpUSMSecurityModel, t)];
    assert calls[1..4] == MpTicks(t, 3);
    assert calls[4..] == SmTicks(t, 3);
    calls
  }

  /** The fan-out is the dispatcher followed by the two registry walks. */
  lemma TickFanOutIsWalks(t: int)
    ensures TickFanOut(t) == [DispatcherTick(t)] + MpTicks(t, 3) + SmTicks(t, 3)
  {
  }

  lemma AppendAssoc<T>(a: seq<T>, b: seq<T>, c: seq<T>)
    ensures a + b + c == a + (b + c)
  {
  }

  // ----- snmpEngineBoots -----

  /** The range of snmpEngineBoots, SYNTAX INTEGER (1..2147483647) in the
      SNMP-FRAMEWORK-MIB of RFC 3411; a value outside it is refused by the MIB object. */
  const MaxBoots: int := 2147483647

  predicate InBootsRange(v: int) { 1 <= v <= MaxBoots }

  /** What the per-engine-ID `boots` file yields at start-up: the persistent directory
      could not be created, the file is missing or does not hold a number, or it holds one. */
  datatype PersistedBoots = NoDirectory | Unreadable | Stored(boots: int)

  /** snmpEngineBoots after construction, or None when the first increment leaves the
      MIB range and construction raises. */
  function StartupBoots(mibBoots: int, customEngineId: bool, persisted: PersistedBoots): (r: Option<int>)
    ensures r.None? <==> !InBootsRange(mibBoots + 1)
    ensures r.Some? ==> InBootsRange(r.value)
  {
    if !InBootsRange(mibBoots + 1) then None
    else if !customEngineId || persisted.NoDirectory? then Some(mibBoots + 1)
    else
      var loaded := if persisted.Stored? && InBootsRange(persisted.boots) then persisted.boots else mibBoots + 1;
      Some(if InBootsRange(loaded + 1) then loaded + 1 else 1)
  }

  /** Without a caller-supplied engine ID the MIB counter is raised by one. */
  lemma BootsWithoutCustomId(mibBoots: int, persisted: PersistedBoots)
    requires InBootsRange(mibBoots + 1)
    ensures StartupBoots(mibBoots, false, persisted) == Some(mibBoots + 1)
  {
  }

  /** With a caller-supplied engine ID, a readable stored count b is replaced by b + 1:
      each start of the engine counts one more boot than the last. */
  lemma BootsContinuePersisted(mibBoots: int, b: int)
    requires InBootsRange(mibBoots + 1) && 1 <= b < MaxBoots
    ensures StartupBoots(mibBoots, true, Stored(b)) == Some(b + 1)
  {
  }

  /** When the increment of the stored count leaves the range, the counter falls back to 1. */
  lemma BootsFallBackToOne(mibBoots: int)
    requires InBootsRange(mibBoots + 1)
    ensures StartupBoots(mibBoots, true, Stored(MaxBoots)) == Some(1)
  {
  }

  /** With a caller-supplied engine ID but nothing readable stored, the counter is raised
      twice: once for the MIB object and once more after the failed read. */
  lemma BootsUnreadableRaisedTwice(mibBoots: int)
    requires 1 <= mibBoots + 1 && mibBoots + 2 <= MaxBoots
    ensures StartupBoots(mibBoots, true, Unreadable) == Some(mibBoots + 2)
  {
  }

  // ----- User context -----

  /** `'__%s' % name` */
  function ContextKey(name: string): (key: string)
    ensures |key| == |name| + 2 && key[..2] == "__" && key[2..] == name
  {
    "__" + name
  }

  /** `self.cache.update(...)` with every keyword stored under its prefixed key. */
  function WithContext<V>(cache: map<string, V>, kwargs: map<string, V>): map<string, V>
  {
    cache + map k | k in kwargs :: ContextKey(k) := kwargs[k]
  }

  /** `self.cache.get('__%s' % name)` */
  function LookupContext<V>(cache: map<string, V>, name: string): Option<V>
  {
    if ContextKey(name) in cache then Some(cache[ContextKey(name)]) else None
  }

  /** `del self.cache['__%s' % name]`, with a missing key ignored. */
  function WithoutContext<V>(cache: map<string, V>, name: string): map<string, V>
  {
    cache - {ContextKey(name)}
  }

  /** After a set, every name given reads back its value and every other name reads back
      what it read before. */
  lemma GetAfterSet<V>(cache: map<string, V>, kwargs: map<string, V>, name: string)
    ensures name in kwargs ==> LookupContext(WithContext(cache, kwargs), name) == Some(kwargs[name])
    ensures name !in kwargs ==> LookupContext(WithContext(cache, kwargs), name) == LookupContext(cache, name)
  {
  }

  /** After a delete the name reads back as absent; other names are untouched. */
  lemma GetAfterDel<V>(cache: map<string, V>, name: string, other: string)
    ensures LookupContext(WithoutContext(cache, name), name) == None
    ensures other != name ==> LookupContext(WithoutContext(cache, name), other) == LookupContext(cache, other)
  {
  }

  /** Deleting a name that is not there is a silent no-op. */
  lemma DelAbsentIsNoop<V>(cache: map<string, V>, name: string)
    requires LookupContext(cache, name) == None
    ensures WithoutContext(cache, name) == cache
  {
  }

  // ----- Transport dispatcher binding -----

  /** A call the engine makes on its transport dispatcher. */
  datatype DispatcherCall =
    | RegisterRecvCbFun(recvId: Option<int>)
    | RegisterTimerCbFun
    | UnregisterRecvCbFun(recvId: Option<int>)
    | UnregisterTimerCbFun

  /** The transport dispatcher as the engine sees it: the registrations it receives. */
  class TransportDispatcher {
    var calls: seq<DispatcherCall>

    constructor ()
      ensures calls == []
    {
      calls := [];
    }

    method Call(c: DispatcherCall)
      modifies this
      ensures calls == old(calls) + [c]
    {
      calls := calls + [c];
    }
  }

  /** `error.PySnmpError` raised by the engine, and the range check of the MIB object. */
  datatype EngineError =
    | TransportDispatcherAlreadyRegistered
    | TransportDispatcherNotRegistered
    | BootsOutOfRange

  class SnmpEngine<V> {
    /** `self.cache`: the user-context store */
    var cache: map<string, V>
    var transportDispatcher: TransportDispatcher?
    /** the `receiveTimerTick` calls made so far, in order */
    var tickLog: seq<TickTarget>

    const snmpEngineID: seq<bv8>
    const snmpEngineBoots: int
    const maxMessageSize: nat
    const messageProcessingSubsystems: map<int, MpModel>
    const securityModels: map<int, SecurityModel>
    const accessControlModel: map<int, AccessControlModel>

    ghost predicate Valid()
      reads this
    {
      && messageProcessingSubsystems == MessageProcessingSubsystems()
      && securityModels == SecurityModels()
      && accessControlModel == AccessControlModels()
    }

    constructor Init(engineID: seq<bv8>, maxMessageSize: nat, boots: int)
      ensures Valid()
      ensures snmpEngineID == engineID && this.maxMessageSize == maxMessageSize && snmpEngineBoots == boots
      ensures cache == map[] && transportDispatcher == null && tickLog == []
    {
      cache := map[];
      transportDispatcher := null;
      tickLog := [];
      snmpEngineID := engineID;
      snmpEngineBoots := boots;
      this.maxMessageSize := maxMessageSize;
      messageProcessingSubsystems := MessageProcessingSubsystems();
      securityModels := SecurityModels();
      accessControlModel := AccessControlModels();
    }

    /** `SnmpEngine(snmpEngineID, maxMessageSize)`: the MIB's engine ID and boot counter are
        parameters, the read of the persisted counter is `persisted`. */
    static method Create(snmpEngineID: Option<seq<bv8>>, maxMessageSize: nat,
                         mibEngineID: seq<bv8>, mibBoots: int, persisted: PersistedBoots)
      returns (r: Result<SnmpEngine<V>, EngineError>)
      ensures r.Success? <==> StartupBoots(mibBoots, snmpEngineID.Some?, persisted).Some?
      ensures r.Failure? ==> r.error == BootsOutOfRange
      ensures r.Success? ==>
        && fresh(r.value) && r.value.Valid()
        && r.value.snmpEngineBoots == StartupBoots(mibBoots, snmpEngineID.Some?, persisted).value
        && r.value.snmpEngineID == (if snmpEngineID.Some? then snmpEngineID.value else mibEngineID)
        && r.value.maxMessageSize == maxMessageSize
        && r.value.cache == map[] && r.value.transportDispatcher == null
    {
      var boots := mibBoots + 1;
      if !InBootsRange(boots) {
        return Failure(BootsOutOfRange);
      }
      var engineID := mibEngineID;
      if snmpEngineID.Some? {
        engineID := snmpEngineID.value;
        if !persisted.NoDirectory? {
          if persisted.Stored? && InBootsRange(persisted.boots) {
            boots := persisted.boots;
          }
          if InBootsRange(boots + 1) {
            boots := boots + 1;
          } else {
            boots := 1;
          }
        }
      }
      var e := new SnmpEngine<V>.Init(engineID, maxMessageSize, boots);
      r := Success(e);
    }

    /** `__receiveTimerTickCbFun(timeNow)` */
    method ReceiveTimerTick(timeNow: int)
      requires Valid()
      modifies this
      ensures tickLog == old(tickLog) + TickFanOut(timeNow)
      ensures cache == old(cache) && transportDispatcher == old(transportDispatcher)
    {
      tickLog := tickLog + [DispatcherTick(timeNow)];
      ghost var before := tickLog;
      for i := 0 to |MpIds|
        invariant tickLog == before + MpTicks(timeNow, i)
        invariant cache == old(cache) && transportDispatcher == old(transportDispatcher)
      {
        MpTicksStep(timeNow, i);
        AppendAssoc(before, MpTicks(timeNow, i), [MpTick(messageProcessingSubsystems[MpIds[i]], timeNow)]);
        tickLog := tickLog + [MpTick(messageProcessingSubsystems[MpIds[i]], timeNow)];
      }
      AppendAssoc(old(tickLog), [DispatcherTick(timeNow)], MpTicks(timeNow, 3));
      before := tickLog;
      for i := 0 to |SecurityModelIds|
        invariant tickLog == before + SmTicks(timeNow, i)
        invariant cache == old(cache) && transportDispatcher == old(transportDispatcher)
      {
        SmTicksStep(timeNow, i);
        AppendAssoc(before, SmTicks(timeNow, i), [SmTick(securityModels[SecurityModelIds[i]], timeNow)]);
        tickLog := tickLog + [SmTick(securityModels[SecurityModelIds[i]], timeNow)];
      }
      AppendAssoc(old(tickLog), [DispatcherTick(timeNow)] + MpTicks(timeNow, 3), SmTicks(timeNow, 3));
      TickFanOutIsWalks(timeNow);
    }

    /** `registerTransportDispatcher(transportDispatcher, recvId)` */
    method RegisterTransportDispatcher(td: TransportDispatcher, recvId: Option<int>) returns (r: Result<(), EngineError>)
      modifies this, td
      ensures old(transportDispatcher) != null && old(transportDispatcher) != td ==>
        && r == Failure(TransportDispatcherAlreadyRegistered)
        && transportDispatcher == old(transportDispatcher) && td.calls == old(td.calls)
      ensures old(transportDispatcher) == null || old(transportDispatcher) == td ==>
        && r.Success? && transportDispatcher == td
        && td.calls == old(td.calls) + [RegisterRecvCbFun(recvId)]
                       + (if old(transportDispatcher) == null then [RegisterTimerCbFun] else [])
      ensures cache == old(cache) && tickLog == old(tickLog)
    {
      if transportDispatcher != null && transportDispatcher != td {
        return Failure(TransportDispatcherAlreadyRegistered);
      }
      td.Call(RegisterRecvCbFun(recvId));
      if transportDispatcher == null {
        td.Call(RegisterTimerCbFun);
        transportDispatcher := td;
      }
      r := Success(());
    }

    /** `unregisterTransportDispatcher(recvId)` */
    method UnregisterTransportDispatcher(recvId: Option<int>) returns (r: Result<(), EngineError>)
      modifies this, transportDispatcher
      ensures old(transportDispatcher) == null ==>
        r == Failure(TransportDispatcherNotRegistered) && transportDispatcher == null
      ensures old(transportDispatcher) != null ==>
        && r.Success? && transportDispatcher == null
        && old(transportDispatcher).calls
             == old(transportDispatcher.calls) + [UnregisterRecvCbFun(recvId), UnregisterTimerCbFun]
      ensures cache == old(cache) && tickLog == old(tickLog)
    {
      if transportDispatcher == null {
        return Failure(TransportDispatcherNotRegistered);
      }
      transportDispatcher.Call(UnregisterRecvCbFun(recvId));
      transportDispatcher.Call(UnregisterTimerCbFun);
      transportDispatcher := null;
      r := Success(());
    }

    /** `setUserContext(**kwargs)` */
    method SetUserContext(kwargs: map<string, V>)
      modifies this
      ensures cache == WithContext(old(cache), kwargs)
      ensures transportDispatcher == old(transportDispatcher) && tickLog == old(tickLog)
    {
      cache := cache + map k | k in kwargs :: ContextKey(k) := kwargs[k];
    }

    /** `getUserContext(arg)`: the stored value, or None. */
    function GetUserContext(arg: string): (r: Option<V>)
      reads this
      ensures r.Some? <==> ContextKey(arg) in cache
      ensures r.Some? ==> r.value == cache[ContextKey(arg)]
    {
      LookupContext(cache, arg)
    }

    /** `delUserContext(arg)` */
    method DelUserContext(arg: string)
      modifies this
      ensures cache == WithoutContext(old(cache), arg)
      ensures transportDispatcher == old(transportDispatcher) && tickLog == old(tickLog)
    {
      cache := cache - {ContextKey(arg)};
    }
  }
}
