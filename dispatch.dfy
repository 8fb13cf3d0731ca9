/** What the notification originator needs from the rest of the engine: PDUs and variable
    bindings, the target configuration (SNMP-TARGET-MIB and SNMP-NOTIFICATION-MIB tables as
    read by `config.getTargetAddr`, `getTargetParams`, `getNotificationInfo` and
    `getTargetNames`), the exceptions that cross the originator, and the message-and-PDU
    dispatcher's `sendPdu` as an abstract collaborator. */
module Dispatch {
  import opened Wrappers
  import opened ErrInd

  type Oid = seq<nat>

  /** The value half of a variable binding; `Unset` is a MIB syntax object cloned without
      a value. */
  datatype Value = Unset | Integer(i: int) | TimeTicks(ticks: nat) | ObjectName(oid: Oid) | OctetString(bytes: seq<bv8>)

  datatype VarBind = VarBind(name: Oid, value: Value)

  datatype PduType =
    | GetRequest | GetNextRequest | GetBulkRequest | SetRequest | Response
    | SNMPv2Trap | InformRequest | Report | V1Trap

  /** `rfc3411.confirmedClassPDUs`: the PDUs that expect a response (section 2.8 of RFC 3411). */
  predicate IsConfirmedClass(t: PduType)
  {
    t == GetRequest || t == GetNextRequest || t == GetBulkRequest || t == SetRequest || t == InformRequest
  }

  datatype Pdu = Pdu(pduType: PduType, errorStatus: int, errorIndex: int, varBinds: seq<VarBind>)

  /** `v2c.apiPDU.setDefaults` followed by `setVarBinds` (the request-id is left out). */
  function NewPdu(t: PduType, varBinds: seq<VarBind>): (p: Pdu)
    ensures p.pduType == t && p.varBinds == varBinds && p.errorStatus == 0 && p.errorIndex == 0
  {
    Pdu(t, 0, 0, varBinds)
  }

  /** The exceptions that leave the originator's methods. */
  datatype Exception =
    | StatusInformation(errorIndication: Indication)  // error.StatusInformation
    | ProtocolError(reason: string)                   // error.ProtocolError
    | ConfigMissing(name: string)                     // a configuration lookup that finds no row
    | KeyError(key: nat)                              // a dictionary pop of a missing key

  datatype TargetAddr = TargetAddr(transportDomain: Oid, transportAddress: string,
                                   timeout: nat, retryCount: nat, params: string)

  datatype TargetParams = TargetParams(messageProcessingModel: int, securityModel: int,
                                       securityName: string, securityLevel: int)

  datatype NotificationInfo = NotificationInfo(notifyTag: string, notifyType: int)

  /** A notification target resolved through both configuration tables. */
  datatype Target = Target(addr: TargetAddr, params: TargetParams)

  datatype Config = Config(targetAddrs: map<string, TargetAddr>,
                           targetParams: map<string, TargetParams>,
                           notifications: map<string, NotificationInfo>,
                           tagMembers: map<string, seq<string>>)
  {
    /** `getTargetAddr` then `getTargetParams`; a missing row raises. */
    function ResolveTarget(name: string): (r: Result<Target, Exception>)
      ensures r.Success? <==> name in targetAddrs && targetAddrs[name].params in targetParams
      ensures r.Success? ==> r.value.addr == targetAddrs[name] && r.value.params == targetParams[targetAddrs[name].params]
    {
      if name !in targetAddrs then Failure(ConfigMissing(name))
      else if targetAddrs[name].params !in targetParams then Failure(ConfigMissing(targetAddrs[name].params))
      else Success(Target(targetAddrs[name], targetParams[targetAddrs[name].params]))
    }

    /** `getTargetNames(tag)`: the targets carrying the tag, in table order; none if unknown. */
    function TargetNames(tag: string): seq<string>
    {
      if tag in tagMembers then tagMembers[tag] else []
    }
  }

  /** One message handed to the dispatcher; `expectTimeout` is the timeout passed with
      `expectResponse`, or None for a message that expects no response. */
  datatype Message = Message(transportDomain: Oid, transportAddress: string,
                             messageProcessingModel: int, securityModel: int,
                             securityName: string, securityLevel: int,
                             contextEngineId: seq<bv8>, contextName: string,
                             pduVersion: int, pdu: Pdu, expectTimeout: Option<nat>)

  /** The message-and-PDU dispatcher as the originator sees it. Whether the `n`-th attempt
      fails during encoding or security processing (raising StatusInformation) is a
      property of the environment, given by `outcome(n)`; a successful attempt is handed
      to the transport and gets a handle no earlier attempt got. */
  class MsgAndPduDispatcher {
    var sendCount: nat
    var sent: seq<Message>
    const outcome: nat -> Option<Indication>

    constructor (outcome: nat -> Option<Indication>)
      ensures sendCount == 0 && sent == [] && this.outcome == outcome
    {
      sendCount := 0;
      sent := [];
      this.outcome := outcome;
    }

    /** `msgAndPduDsp.sendPdu(...)` */
    method SendPdu(m: Message) returns (r: Result<nat, Indication>)
      modifies this
      ensures sendCount == old(sendCount) + 1
      ensures outcome(old(sendCount)).Some? ==>
        r == Failure(outcome(old(sendCount)).value) && sent == old(sent)
      ensures outcome(old(sendCount)).None? ==>
        r == Success(old(sendCount)) && sent == old(sent) + [m]
    {
      var attempt := sendCount;
      sendCount := sendCount + 1;
      match outcome(attempt)
      case Some(e) =>
        r := Failure(e);
      case None =>
        sent := sent + [m];
        r := Success(attempt);
    }
  }
}
