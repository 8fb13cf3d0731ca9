/** The notification originator of RFC 3413, section 3.3: it builds a notification's
    variable bindings, sends a Trap or an Inform to every target a notification tag
    selects, keeps the outstanding Inform requests, resends them on timeout and reports
    each notification to its application at most once. */
module NtfOrg {
  import opened Wrappers
  import opened ErrInd
  import opened Dispatch
  import opened VarBindPrefix
  import opened InformRetries

  /** One outstanding confirmed request (step 3.3.6b): where it went, the PDU as the
      application gave it, its timeout, its retry budget and the retry number recorded
      with it. */
  datatype PendingReq = PendingReq(
    transportDomain: Oid, transportAddress: string,
    messageProcessingModel: int, securityModel: int, securityName: string, securityLevel: int,
    contextEngineId: seq<bv8>, contextName: string,
    pdu: Pdu, timeout: nat, retryCount: nat, retries: nat)

  /** One call of the application's callback, as `processResponseVarBinds` makes it. */
  datatype Notification = Notification(sendRequestHandle: nat, errorIndication: Option<Indication>,
                                       errorStatus: int, errorIndex: int, varBinds: seq<VarBind>)

  /** `processResponseVarBinds`: the response PDU, if any, is taken apart for the callback;
      without one the callback gets zero error status and index and no bindings. */
  function ProcessResponseVarBinds(sendRequestHandle: nat, errorIndication: Option<Indication>,
                                   pdu: Option<Pdu>): (n: Notification)
    ensures n.sendRequestHandle == sendRequestHandle && n.errorIndication == errorIndication
    ensures pdu.None? ==> n.errorStatus == 0 && n.errorIndex == 0 && n.varBinds == []
    ensures pdu.Some? ==> n.errorStatus == pdu.value.errorStatus && n.errorIndex == pdu.value.errorIndex
                          && n.varBinds == pdu.value.varBinds
  {
    match pdu
    case None => Notification(sendRequestHandle, errorIndication, 0, 0, [])
    case Some(p) => Notification(sendRequestHandle, errorIndication, p.errorStatus, p.errorIndex, p.varBinds)
  }

  /** The PDU type a notification type (snmpNotifyType) asks for: 1 trap, 2 inform. */
  function NotifyPduType(notifyType: int): (t: PduType)
    requires notifyType == 1 || notifyType == 2
    ensures IsConfirmedClass(t) <==> notifyType == 2
  {
    if notifyType == 1 then SNMPv2Trap else InformRequest
  }

  /** The requests (send-PDU handles) that belong to notification `s`. */
  ghost function OwnedBy(m: map<nat, nat>, s: nat): set<nat>
  {
    set h | h in m && m[h] == s
  }

  lemma OwnedByRemove(m: map<nat, nat>, h: nat)
    requires h in m
    ensures |OwnedBy(m - {h}, m[h])| == |OwnedBy(m, m[h])| - 1
    ensures forall s :: s != m[h] ==> |OwnedBy(m - {h}, s)| == |OwnedBy(m, s)|
  {
    assert OwnedBy(m - {h}, m[h]) == OwnedBy(m, m[h]) - {h};
    forall s | s != m[h]
      ensures |OwnedBy(m - {h}, s)| == |OwnedBy(m, s)|
    {
      assert OwnedBy(m - {h}, s) == OwnedBy(m, s);
    }
  }

  lemma OwnedByAdd(m: map<nat, nat>, h: nat, v: nat)
    requires h !in m
    ensures |OwnedBy(m[h := v], v)| == |OwnedBy(m, v)| + 1
    ensures forall s :: s != v ==> |OwnedBy(m[h := v], s)| == |OwnedBy(m, s)|
  {
    assert OwnedBy(m[h := v], v) == OwnedBy(m, v) + {h};
    forall s | s != v
      ensures |OwnedBy(m[h := v], s)| == |OwnedBy(m, s)|
    {
      assert OwnedBy(m[h := v], s) == OwnedBy(m, s);
    }
  }

  lemma OwnedByNone(m: map<nat, nat>, s: nat)
    requires forall h :: h in m ==> m[h] != s
    ensures |OwnedBy(m, s)| == 0
  {
    assert OwnedBy(m, s) == {};
  }

  /** Once a request is retired: when no Inform of notification `srh` is left, the
      notification is forgotten and reported through `n`; otherwise nothing happens. */
  ghost predicate Reported(pn0: map<nat, nat>, log0: seq<Notification>,
                           pn1: map<nat, nat>, log1: seq<Notification>, n: Notification)
  {
    var srh := n.sendRequestHandle;
    && srh in pn0
    && (if pn0[srh] == 0 then pn1 == pn0 - {srh} && log1 == log0 + [n]
        else pn1 == pn0 && log1 == log0)
  }

  /** The pending count of a notification, zero when it has none. */
  function CountOf(pn: map<nat, nat>, s: nat): nat
  {
    if s in pn then pn[s] else 0
  }

  /** The pending counts with one request of notification `s` finished. */
  function Decremented(pn: map<nat, nat>, s: nat): map<nat, nat>
    requires s in pn && pn[s] >= 1
  {
    pn[s := pn[s] - 1]
  }

  /** The pending counts with notification `s`, absent from `pn`, counted `c` times. */
  function WithCount(pn: map<nat, nat>, s: nat, c: nat): map<nat, nat>
  {
    if c == 0 then pn else pn[s := c]
  }

  lemma RestoredCount(pn: map<nat, nat>, s: nat)
    requires s in pn && pn[s] >= 1
    ensures Decremented(pn, s)[s := Decremented(pn, s)[s] + 1] == pn
  {
  }

  lemma CountStep(pn: map<nat, nat>, s: nat, c: nat)
    requires s !in pn
    ensures WithCount(pn, s, c)[s := CountOf(WithCount(pn, s, c), s) + 1] == WithCount(pn, s, c + 1)
  {
  }

  /** How the pending count of notification `n.sendRequestHandle` settles when one of its
      requests is finished for good (steps 3.3.6c and 3.3.6d): the count goes down by one,
      and when it reaches zero the notification is forgotten and reported through `n`. */
  ghost predicate Settled(pn0: map<nat, nat>, log0: seq<Notification>,
                          pn1: map<nat, nat>, log1: seq<Notification>, n: Notification)
  {
    && n.sendRequestHandle in pn0 && pn0[n.sendRequestHandle] >= 1
    && Reported(Decremented(pn0, n.sendRequestHandle), log0, pn1, log1, n)
  }

  /** `m` with the send-PDU handles `base`, ..., `base + n - 1` mapped to notification `srh`. */
  function Enlisted(m: map<nat, nat>, base: nat, srh: nat, n: nat): map<nat, nat>
  {
    if n == 0 then m else Enlisted(m, base, srh, n - 1)[base + n - 1 := srh]
  }

  /** One more handle enlisted is one more entry, for `srh`. */
  lemma EnlistedStep(m: map<nat, nat>, base: nat, srh: nat, n: nat)
    ensures Enlisted(m, base, srh, n + 1) == Enlisted(m, base, srh, n)[base + n := srh]
  {
  }

  /** The handles from `base` on belong to `srh`; every other entry is kept. */
  lemma {:induction false} EnlistedMaps(m: map<nat, nat>, base: nat, srh: nat, n: nat)
    ensures forall h :: h in Enlisted(m, base, srh, n) <==> h in m || base <= h < base + n
    ensures forall h :: base <= h < base + n ==> Enlisted(m, base, srh, n)[h] == srh
    ensures forall h :: h in m && !(base <= h < base + n) ==> Enlisted(m, base, srh, n)[h] == m[h]
  {
    if n > 0 {
      EnlistedMaps(m, base, srh, n - 1);
    }
  }

  /** The tables of a notification originator and what its dispatcher has sent, at one instant. */
  datatype Snapshot = Snapshot(pendingReqs: map<nat, PendingReq>, sendRequestHandles: map<nat, nat>,
                               pendingNotifications: map<nat, nat>,
                               notified: seq<Notification>, jobs: int, sent: seq<Message>, sendCount: nat)

  /** Why the loop over a notification's targets ended. */
  datatype Stop = Delivered | SendFailed | Denied | Unresolved(error: Exception) | UnknownType
  {
    /** What `sendVarBinds` returns: the send-request handle once the loop has run or a
        send failed, nothing after an access denial, and the exception otherwise. */
    function Outcome(srh: nat): (r: Result<Option<nat>, Exception>)
      ensures r.Success? && r.value.Some? ==> r.value.value == srh
      ensures r == Success(None) <==> this == Denied
      ensures r.Failure? <==> this.Unresolved? || this == UnknownType
    {
      match this
      case Delivered => Success(Some(srh))
      case SendFailed => Success(Some(srh))
      case Denied => Success(None)
      case Unresolved(e) => Failure(e)
      case UnknownType => Failure(ProtocolError("Unknown notify-type"))
    }
  }

  /** A PDU translation that keeps a PDU in or out of the confirmed class. */
  ghost predicate KeepsConfirmedClass(f: Pdu -> Pdu)
  {
    forall p :: IsConfirmedClass(f(p).pduType) == IsConfirmedClass(p.pduType)
  }

  class NotificationOriginator {
    /** Outstanding confirmed requests by send-PDU handle. */
    var pendingReqs: map<nat, PendingReq>
    /** The notification (send-request handle) each outstanding Inform belongs to. */
    var sendRequestHandles: map<nat, nat>
    /** Outstanding Inform count per notification. */
    var pendingNotifications: map<nat, nat>
    /** The next value of `getNextHandle`. */
    var nextSendRequestHandle: nat
    /** Every callback made so far, in order. */
    ghost var notified: seq<Notification>
    /** The transport dispatcher's job count as `jobStarted`/`jobFinished` move it. */
    ghost var jobs: int

    const config: Config
    const dsp: MsgAndPduDispatcher
    /** `isAccessAllowed` of access control model 3 for view type 'notify': security model,
        security name, security level, context name, variable name. */
    const accessAllowed: (int, string, int, string, Oid) -> bool
    /** `rfc2576.v2ToV1` and `rfc2576.v1ToV2`. */
    const v2ToV1: Pdu -> Pdu
    const v1ToV2: (Pdu, Pdu) -> Pdu

    /** `acmID`: the access control model consulted. */
    const acmID: int := 3

    /** The originator's bookkeeping agrees with itself; only notification `exempt` may
        have a pending count of zero, between a request's retirement and its report. */
    ghost predicate Coherent(exempt: Option<nat>)
      reads this, dsp
    {
      && sendRequestHandles.Keys <= pendingReqs.Keys
      && (forall h :: h in pendingReqs ==> h < dsp.sendCount)
      && (forall h :: h in sendRequestHandles ==> sendRequestHandles[h] in pendingNotifications)
      && (forall s :: s in pendingNotifications ==>
            pendingNotifications[s] == |OwnedBy(sendRequestHandles, s)|
            && (1 <= pendingNotifications[s] || exempt == Some(s))
            && s < nextSendRequestHandle)
      && (forall i :: 0 <= i < |notified| ==>
            notified[i].sendRequestHandle < nextSendRequestHandle
            && notified[i].sendRequestHandle !in pendingNotifications)
      && (forall i, j :: 0 <= i < j < |notified| ==>
            notified[i].sendRequestHandle != notified[j].sendRequestHandle)
      && KeepsConfirmedClass(v2ToV1)
    }

    /** Every request belongs to at most one notification, each pending count is the number
        of Informs outstanding for it and is positive, and each notification is reported
        at most once and only after its last Inform is done. */
    ghost predicate Valid()
      reads this, dsp
    {
      Coherent(None)
    }

    constructor (config: Config, dsp: MsgAndPduDispatcher,
                 accessAllowed: (int, string, int, string, Oid) -> bool,
                 v2ToV1: Pdu -> Pdu, v1ToV2: (Pdu, Pdu) -> Pdu, firstHandle: nat)
      requires KeepsConfirmedClass(v2ToV1)
      ensures Valid()
      ensures pendingReqs == map[] && sendRequestHandles == map[] && pendingNotifications == map[]
      ensures notified == [] && jobs == 0 && nextSendRequestHandle == firstHandle
      ensures this.config == config && this.dsp == dsp && this.accessAllowed == accessAllowed
      ensures this.v2ToV1 == v2ToV1 && this.v1ToV2 == v1ToV2
    {
      this.config := config;
      this.dsp := dsp;
      this.accessAllowed := accessAllowed;
      this.v2ToV1 := v2ToV1;
      this.v1ToV2 := v1ToV2;
      pendingReqs := map[];
      sendRequestHandles := map[];
      pendingNotifications := map[];
      nextSendRequestHandle := firstHandle;
      notified := [];
      jobs := 0;
    }

    /** The PDU put on the wire for a message processing model: SNMPv1 gets the
        translated PDU, the rest get the SMIv2 PDU as given. */
    function OutboundPdu(mpModel: int, pdu: Pdu): Pdu
    {
      if mpModel == 0 then v2ToV1(pdu) else pdu
    }

    function PduVersion(mpModel: int): int
    {
      if mpModel == 0 then 0 else 1
    }

    /** The message `sendPdu` hands to the dispatcher for a resolved target. */
    function RequestMessage(t: Target, contextEngineId: seq<bv8>, contextName: string, pdu: Pdu): Message
    {
      var mp := t.params.messageProcessingModel;
      var req := OutboundPdu(mp, pdu);
      Message(t.addr.transportDomain, t.addr.transportAddress, mp,
              t.params.securityModel, t.params.securityName, t.params.securityLevel,
              contextEngineId, contextName, PduVersion(mp), req,
              if IsConfirmedClass(req.pduType) then Some(t.addr.timeout) else None)
    }

    /** The request `sendPdu` records for a confirmed PDU, with retry number
        `FirstRetryAsWritten` (1). */
    function FirstRecord(t: Target, contextEngineId: seq<bv8>, contextName: string, pdu: Pdu): (r: PendingReq)
      ensures r.retries == FirstRetryAsWritten && r.retryCount == t.addr.retryCount
      ensures r.timeout == t.addr.timeout && r.pdu == pdu
    {
      PendingReq(t.addr.transportDomain, t.addr.transportAddress,
                 t.params.messageProcessingModel, t.params.securityModel,
                 t.params.securityName, t.params.securityLevel,
                 contextEngineId, contextName, pdu, t.addr.timeout, t.addr.retryCount, FirstRetryAsWritten)
    }

    /** A request recorded with a budget of R >= 1 retries is resent only R - 1 times
        before it is given up (see `AsWrittenOneResendShort`). */
    lemma FirstRecordResends(t: Target, contextEngineId: seq<bv8>, contextName: string, pdu: Pdu)
      requires t.addr.retryCount >= 1
      ensures var req := FirstRecord(t, contextEngineId, contextName, pdu);
        req.retryCount == t.addr.retryCount &&
        Resends(req.retries, req.retryCount, req.retryCount) == Some(t.addr.retryCount - 1)
    {
      AsWrittenOneResendShort(t.addr.retryCount);
    }

    /** A request recorded with a budget of 0 retries is resent after every timeout. */
    lemma FirstRecordZeroBudget(t: Target, contextEngineId: seq<bv8>, contextName: string, pdu: Pdu,
                                fuel: nat)
      requires t.addr.retryCount == 0
      ensures var req := FirstRecord(t, contextEngineId, contextName, pdu);
        Resends(req.retries, req.retryCount, fuel) == None
    {
      AsWrittenZeroBudgetNeverGivesUp(FirstRetryAsWritten, fuel);
    }

    /** The message a timed-out request is resent as; the PDU is translated for the
        message processing model of the response that reported the timeout. */
    function ResendMessage(req: PendingReq, mpModel: int): Message
    {
      Message(req.transportDomain, req.transportAddress, req.messageProcessingModel,
              req.securityModel, req.securityName, req.securityLevel,
              req.contextEngineId, req.contextName, PduVersion(mpModel),
              OutboundPdu(mpModel, req.pdu), Some(req.timeout))
    }

    /** The response PDU the application sees: SMIv2, translated back for SNMPv1. */
    function ResponseForCaller(mpModel: int, pdu: Option<Pdu>, origPdu: Pdu): Option<Pdu>
    {
      if mpModel == 0 && pdu.Some? then Some(v1ToV2(pdu.value, origPdu)) else pdu
    }

    /** What sending `pdu` to resolved target `t` does (steps 3.3.5 and 3.3.6a-b). */
    twostate predicate Dispatched(t: Target, contextEngineId: seq<bv8>, contextName: string,
                                  pdu: Pdu, new r: Result<Option<nat>, Indication>)
      reads this, dsp
    {
      var n := old(dsp.sendCount);
      && dsp.sendCount == n + 1
      && sendRequestHandles == old(sendRequestHandles)
      && pendingNotifications == old(pendingNotifications)
      && notified == old(notified)
      && nextSendRequestHandle == old(nextSendRequestHandle)
      && (dsp.outcome(n).Some? ==>
            r == Failure(dsp.outcome(n).value) && dsp.sent == old(dsp.sent)
            && pendingReqs == old(pendingReqs) && jobs == old(jobs))
      && (dsp.outcome(n).None? ==>
            dsp.sent == old(dsp.sent) + [RequestMessage(t, contextEngineId, contextName, pdu)]
            && (IsConfirmedClass(pdu.pduType) ==>
                  r == Success(Some(n))
                  && pendingReqs == old(pendingReqs)[n := FirstRecord(t, contextEngineId, contextName, pdu)]
                  && jobs == old(jobs) + 1)
            && (!IsConfirmedClass(pdu.pduType) ==>
                  r == Success(None) && pendingReqs == old(pendingReqs) && jobs == old(jobs)))
    }

    /** `sendPdu` once the target is resolved. */
    method SendToTarget(t: Target, contextEngineId: seq<bv8>, contextName: string, pdu: Pdu)
      returns (r: Result<Option<nat>, Indication>)
      requires Valid()
      modifies this, dsp
      ensures Valid()
      ensures Dispatched(t, contextEngineId, contextName, pdu, r)
    {
      var mp := t.params.messageProcessingModel;
      var reqPdu := OutboundPdu(mp, pdu);
      if IsConfirmedClass(reqPdu.pduType) {
        var sent := dsp.SendPdu(RequestMessage(t, contextEngineId, contextName, pdu));
        if sent.Failure? {
          return Failure(sent.error);
        }
        var h := sent.value;
        pendingReqs := pendingReqs[h := FirstRecord(t, contextEngineId, contextName, pdu)];
        jobs := jobs + 1;
        r := Success(Some(h));
      } else {
        var sent := dsp.SendPdu(RequestMessage(t, contextEngineId, contextName, pdu));
        if sent.Failure? {
          return Failure(sent.error);
        }
        r := Success(None);
      }
    }

    /** `sendPdu`: resolve the target, then send; a confirmed PDU is remembered under the
        handle returned, an unconfirmed one yields no handle. */
    method SendPdu(targetName: string, contextEngineId: seq<bv8>, contextName: string, pdu: Pdu)
      returns (r: Result<Option<nat>, Exception>)
      requires Valid()
      modifies this, dsp
      ensures Valid()
      ensures config.ResolveTarget(targetName).Failure? ==>
        r == Failure(config.ResolveTarget(targetName).error) && unchanged(this) && unchanged(dsp)
      ensures config.ResolveTarget(targetName).Success? ==>
        && (r.Success? || r.error.StatusInformation?)
        && Dispatched(config.ResolveTarget(targetName).value, contextEngineId, contextName, pdu,
                      if r.Success? then Success(r.value) else Failure(r.error.errorIndication))
    {
      var target := config.ResolveTarget(targetName);
      if target.Failure? {
        return Failure(target.error);
      }
      var d := SendToTarget(target.value, contextEngineId, contextName, pdu);
      r := if d.Success? then Success(d.value) else Failure(StatusInformation(d.error));
    }

    /** `processResponsePdu`: the dispatcher reports a response to, or the timeout of,
        request `sendPduHandle` (steps 3.3.6c and 3.3.6d). */
    method ProcessResponsePdu(messageProcessingModel: int, pdu: Option<Pdu>,
                              statusInformation: Option<Indication>, sendPduHandle: nat)
      returns (r: Result<(), Exception>)
      requires Valid()
      modifies this, dsp
      ensures Valid()
      ensures nextSendRequestHandle == old(nextSendRequestHandle)
      ensures sendPduHandle !in old(pendingReqs) ==>
        r == Failure(ProtocolError("Missing sendPduHandle")) && unchanged(this) && unchanged(dsp)
      ensures sendPduHandle in old(pendingReqs) && sendPduHandle !in old(sendRequestHandles) ==>
        && r == Failure(KeyError(sendPduHandle))
        && pendingReqs == old(pendingReqs) - {sendPduHandle}
        && sendRequestHandles == old(sendRequestHandles)
        && pendingNotifications == old(pendingNotifications)
        && notified == old(notified) && jobs == old(jobs) && unchanged(dsp)
      ensures sendPduHandle in old(sendRequestHandles) ==> r == Success(())
      // 3.3.6c: a response settles the request
      ensures sendPduHandle in old(sendRequestHandles) && statusInformation.None? ==>
        var req, srh := old(pendingReqs)[sendPduHandle], old(sendRequestHandles)[sendPduHandle];
        && pendingReqs == old(pendingReqs) - {sendPduHandle}
        && sendRequestHandles == old(sendRequestHandles) - {sendPduHandle}
        && jobs == old(jobs) - 1 && unchanged(dsp)
        && Settled(old(pendingNotifications), old(notified), pendingNotifications, notified,
                   ProcessResponseVarBinds(srh, None, ResponseForCaller(messageProcessingModel, pdu, req.pdu)))
      // 3.3.6d: a timeout with the retries used up settles it with the error
      ensures sendPduHandle in old(sendRequestHandles) && statusInformation.Some?
              && old(pendingReqs)[sendPduHandle].retries == old(pendingReqs)[sendPduHandle].retryCount ==>
        var srh := old(sendRequestHandles)[sendPduHandle];
        && pendingReqs == old(pendingReqs) - {sendPduHandle}
        && sendRequestHandles == old(sendRequestHandles) - {sendPduHandle}
        && jobs == old(jobs) - 1 && unchanged(dsp)
        && Settled(old(pendingNotifications), old(notified), pendingNotifications, notified,
                   ProcessResponseVarBinds(srh, statusInformation, None))
      // 3.3.6d: any other timeout resends the request
      ensures sendPduHandle in old(sendRequestHandles) && statusInformation.Some?
              && old(pendingReqs)[sendPduHandle].retries != old(pendingReqs)[sendPduHandle].retryCount ==>
        dsp.sendCount == old(dsp.sendCount) + 1
      // ... and a resend that fails settles it with the send's error
      ensures sendPduHandle in old(sendRequestHandles) && statusInformation.Some?
              && old(pendingReqs)[sendPduHandle].retries != old(pendingReqs)[sendPduHandle].retryCount
              && dsp.outcome(old(dsp.sendCount)).Some? ==>
        var srh := old(sendRequestHandles)[sendPduHandle];
        && dsp.sent == old(dsp.sent)
        && pendingReqs == old(pendingReqs) - {sendPduHandle}
        && sendRequestHandles == old(sendRequestHandles) - {sendPduHandle}
        && jobs == old(jobs) - 1
        && Settled(old(pendingNotifications), old(notified), pendingNotifications, notified,
                   ProcessResponseVarBinds(srh, dsp.outcome(old(dsp.sendCount)), None))
      // ... while one that goes out is remembered with its retry number raised
      ensures sendPduHandle in old(sendRequestHandles) && statusInformation.Some?
              && old(pendingReqs)[sendPduHandle].retries != old(pendingReqs)[sendPduHandle].retryCount
              && dsp.outcome(old(dsp.sendCount)).None? ==>
        var req, srh, n := old(pendingReqs)[sendPduHandle], old(sendRequestHandles)[sendPduHandle], old(dsp.sendCount);
        && dsp.sent == old(dsp.sent) + [ResendMessage(req, messageProcessingModel)]
        && pendingReqs == (old(pendingReqs) - {sendPduHandle})[n := req.(retries := req.retries + 1)]
        && sendRequestHandles == (old(sendRequestHandles) - {sendPduHandle})[n := srh]
        && pendingNotifications == old(pendingNotifications)
        && notified == old(notified) && jobs == old(jobs)
    {
      if sendPduHandle !in pendingReqs {
        return Failure(ProtocolError("Missing sendPduHandle"));
      }
      if sendPduHandle !in sendRequestHandles {
        Forget(sendPduHandle);
        return Failure(KeyError(sendPduHandle));
      }
      r := Success(());
      if statusInformation.Some? {
        SettleTimeout(messageProcessingModel, statusInformation, sendPduHandle);
      } else {
        SettleResponse(messageProcessingModel, pdu, statusInformation, sendPduHandle);
      }
    }

    /** Step 3.3.6c: the response to request `sendPduHandle` has come. */
    method SettleResponse(messageProcessingModel: int, pdu: Option<Pdu>,
                          statusInformation: Option<Indication>, sendPduHandle: nat)
      requires Valid() && sendPduHandle in sendRequestHandles && statusInformation.None?
      modifies this, dsp
      ensures Valid()
      ensures nextSendRequestHandle == old(nextSendRequestHandle)
      // 3.3.6c: a response settles the request
      ensures sendPduHandle in old(sendRequestHandles) && statusInformation.None? ==>
        var req, srh := old(pendingReqs)[sendPduHandle], old(sendRequestHandles)[sendPduHandle];
        && pendingReqs == old(pendingReqs) - {sendPduHandle}
        && sendRequestHandles == old(sendRequestHandles) - {sendPduHandle}
        && jobs == old(jobs) - 1 && unchanged(dsp)
        && Settled(old(pendingNotifications), old(notified), pendingNotifications, notified,
                   ProcessResponseVarBinds(srh, None, ResponseForCaller(messageProcessingModel, pdu, req.pdu)))
    {
      var req, srh := Retire(sendPduHandle);
      RestoredCount(old(pendingNotifications), srh);
      ReportIfLast(ProcessResponseVarBinds(srh, None, ResponseForCaller(messageProcessingModel, pdu, req.pdu)));
    }

    /** Step 3.3.6d: request `sendPduHandle` has timed out. */
    method SettleTimeout(messageProcessingModel: int, statusInformation: Option<Indication>, sendPduHandle: nat)
      requires Valid() && sendPduHandle in sendRequestHandles && statusInformation.Some?
      modifies this, dsp
      ensures Valid()
      ensures nextSendRequestHandle == old(nextSendRequestHandle)
      // 3.3.6d: a timeout with the retries used up settles it with the error
      ensures sendPduHandle in old(sendRequestHandles) && statusInformation.Some?
              && old(pendingReqs)[sendPduHandle].retries == old(pendingReqs)[sendPduHandle].retryCount ==>
        var srh := old(sendRequestHandles)[sendPduHandle];
        && pendingReqs == old(pendingReqs) - {sendPduHandle}
        && sendRequestHandles == old(sendRequestHandles) - {sendPduHandle}
        && jobs == old(jobs) - 1 && unchanged(dsp)
        && Settled(old(pendingNotifications), old(notified), pendingNotifications, notified,
                   ProcessResponseVarBinds(srh, statusInformation, None))
      // 3.3.6d: any other timeout resends the request
      ensures sendPduHandle in old(sendRequestHandles) && statusInformation.Some?
              && old(pendingReqs)[sendPduHandle].retries != old(pendingReqs)[sendPduHandle].retryCount ==>
        dsp.sendCount == old(dsp.sendCount) + 1
      // ... and a resend that fails settles it with the send's error
      ensures sendPduHandle in old(sendRequestHandles) && statusInformation.Some?
              && old(pendingReqs)[sendPduHandle].retries != old(pendingReqs)[sendPduHandle].retryCount
              && dsp.outcome(old(dsp.sendCount)).Some? ==>
        var srh := old(sendRequestHandles)[sendPduHandle];
        && dsp.sent == old(dsp.sent)
        && pendingReqs == old(pendingReqs) - {sendPduHandle}
        && sendRequestHandles == old(sendRequestHandles) - {sendPduHandle}
        && jobs == old(jobs) - 1
        && Settled(old(pendingNotifications), old(notified), pendingNotifications, notified,
                   ProcessResponseVarBinds(srh, dsp.outcome(old(dsp.sendCount)), None))
      // ... while one that goes out is remembered with its retry number raised
      ensures sendPduHandle in old(sendRequestHandles) && statusInformation.Some?
              && old(pendingReqs)[sendPduHandle].retries != old(pendingReqs)[sendPduHandle].retryCount
              && dsp.outcome(old(dsp.sendCount)).None? ==>
        var req, srh, n := old(pendingReqs)[sendPduHandle], old(sendRequestHandles)[sendPduHandle], old(dsp.sendCount);
        && dsp.sent == old(dsp.sent) + [ResendMessage(req, messageProcessingModel)]
        && pendingReqs == (old(pendingReqs) - {sendPduHandle})[n := req.(retries := req.retries + 1)]
        && sendRequestHandles == (old(sendRequestHandles) - {sendPduHandle})[n := srh]
        && pendingNotifications == old(pendingNotifications)
        && notified == old(notified) && jobs == old(jobs)
    {
      var req, srh := Retire(sendPduHandle);
      RestoredCount(old(pendingNotifications), srh);
      OnTimeout(messageProcessingModel, statusInformation.value, req, srh);
    }

    /** Step 3.3.6d for a retired request `req` of notification `srh`: give up when its
        retry number has reached its budget, else resend it. */
    method OnTimeout(messageProcessingModel: int, statusInformation: Indication, req: PendingReq, srh: nat)
      requires Coherent(Some(srh)) && srh in pendingNotifications
      modifies this, dsp
      ensures Valid()
      ensures nextSendRequestHandle == old(nextSendRequestHandle)
      ensures req.retries == req.retryCount ==>
        && pendingReqs == old(pendingReqs) && sendRequestHandles == old(sendRequestHandles)
        && jobs == old(jobs) && unchanged(dsp)
        && Reported(old(pendingNotifications), old(notified), pendingNotifications, notified,
                    ProcessResponseVarBinds(srh, Some(statusInformation), None))
      ensures req.retries != req.retryCount ==> dsp.sendCount == old(dsp.sendCount) + 1
      ensures req.retries != req.retryCount && dsp.outcome(old(dsp.sendCount)).Some? ==>
        && dsp.sent == old(dsp.sent)
        && pendingReqs == old(pendingReqs) && sendRequestHandles == old(sendRequestHandles)
        && jobs == old(jobs)
        && Reported(old(pendingNotifications), old(notified), pendingNotifications, notified,
                    ProcessResponseVarBinds(srh, dsp.outcome(old(dsp.sendCount)), None))
      ensures req.retries != req.retryCount && dsp.outcome(old(dsp.sendCount)).None? ==>
        var n := old(dsp.sendCount);
        && dsp.sent == old(dsp.sent) + [ResendMessage(req, messageProcessingModel)]
        && pendingReqs == old(pendingReqs)[n := req.(retries := req.retries + 1)]
        && sendRequestHandles == old(sendRequestHandles)[n := srh]
        && pendingNotifications == old(pendingNotifications)[srh := old(pendingNotifications)[srh] + 1]
        && notified == old(notified) && jobs == old(jobs) + 1
    {
      if req.retries == req.retryCount {
        ReportIfLast(ProcessResponseVarBinds(srh, Some(statusInformation), None));
        return;
      }
      var sent := dsp.SendPdu(ResendMessage(req, messageProcessingModel));
      if sent.Failure? {
        ReportIfLast(ProcessResponseVarBinds(srh, Some(sent.error), None));
        return;
      }
      Renew(sent.value, req.(retries := req.retries + 1), srh);
    }

    /** A request sent through `sendPdu` alone belongs to no notification: popping it is
        all `processResponsePdu` does before its lookup of the notification fails. */
    method Forget(sendPduHandle: nat)
      requires Valid() && sendPduHandle in pendingReqs && sendPduHandle !in sendRequestHandles
      modifies this
      ensures Valid()
      ensures pendingReqs == old(pendingReqs) - {sendPduHandle}
      ensures sendRequestHandles == old(sendRequestHandles)
      ensures pendingNotifications == old(pendingNotifications)
      ensures notified == old(notified) && jobs == old(jobs)
      ensures nextSendRequestHandle == old(nextSendRequestHandle)
    {
      pendingReqs := pendingReqs - {sendPduHandle};
    }

    /** Steps 3.3.6c-d, first half: forget request `sendPduHandle` and lower the pending
        count of its notification. */
    method Retire(sendPduHandle: nat) returns (req: PendingReq, srh: nat)
      requires Valid() && sendPduHandle in sendRequestHandles
      modifies this
      ensures Coherent(Some(srh)) && srh in pendingNotifications
      ensures req == old(pendingReqs)[sendPduHandle] && srh == old(sendRequestHandles)[sendPduHandle]
      ensures pendingReqs == old(pendingReqs) - {sendPduHandle}
      ensures sendRequestHandles == old(sendRequestHandles) - {sendPduHandle}
      ensures srh in old(pendingNotifications) && old(pendingNotifications)[srh] >= 1
      ensures pendingNotifications == Decremented(old(pendingNotifications), srh)
      ensures jobs == old(jobs) - 1
      ensures notified == old(notified) && nextSendRequestHandle == old(nextSendRequestHandle)
    {
      req := pendingReqs[sendPduHandle];
      pendingReqs := pendingReqs - {sendPduHandle};
      srh := sendRequestHandles[sendPduHandle];
      OwnedByRemove(sendRequestHandles, sendPduHandle);
      sendRequestHandles := sendRequestHandles - {sendPduHandle};
      pendingNotifications := pendingNotifications[srh := pendingNotifications[srh] - 1];
      jobs := jobs - 1;
    }

    /** Steps 3.3.6c-d, second half: when no Inform of the notification is left, forget it
        and report `n` to the application. */
    method ReportIfLast(n: Notification)
      requires Coherent(Some(n.sendRequestHandle)) && n.sendRequestHandle in pendingNotifications
      modifies this
      ensures Valid()
      ensures Reported(old(pendingNotifications), old(notified), pendingNotifications, notified, n)
      ensures pendingReqs == old(pendingReqs) && sendRequestHandles == old(sendRequestHandles)
      ensures jobs == old(jobs) && nextSendRequestHandle == old(nextSendRequestHandle)
    {
      var srh := n.sendRequestHandle;
      if pendingNotifications[srh] == 0 {
        forall h | h in sendRequestHandles
          ensures sendRequestHandles[h] != srh
        {
          assert sendRequestHandles[h] == srh ==> h in OwnedBy(sendRequestHandles, srh);
        }
        pendingNotifications := pendingNotifications - {srh};
        notified := notified + [n];
      }
    }

    /** Step 3.3.6b for a resend: remember the new request under handle `h`. */
    method Renew(h: nat, req: PendingReq, srh: nat)
      requires Coherent(Some(srh)) && srh in pendingNotifications
      requires h !in pendingReqs && h < dsp.sendCount
      modifies this
      ensures Valid()
      ensures pendingReqs == old(pendingReqs)[h := req]
      ensures sendRequestHandles == old(sendRequestHandles)[h := srh]
      ensures pendingNotifications == old(pendingNotifications)[srh := old(pendingNotifications)[srh] + 1]
      ensures jobs == old(jobs) + 1
      ensures notified == old(notified) && nextSendRequestHandle == old(nextSendRequestHandle)
    {
      OwnedByAdd(sendRequestHandles, h, srh);
      pendingNotifications := pendingNotifications[srh := pendingNotifications[srh] + 1];
      jobs := jobs + 1;
      pendingReqs := pendingReqs[h := req];
      sendRequestHandles := sendRequestHandles[h := srh];
    }

    /** The access check `sendVarBinds` makes for one target: every binding but sysUpTime
        and snmpTrapOID must be in the 'notify' view of the target's principal. */
    predicate AccessOk(params: TargetParams, contextName: string, varBinds: seq<VarBind>)
    {
      forall i :: 0 <= i < |varBinds| && !IsPrefixName(varBinds[i].name) ==>
        accessAllowed(params.securityModel, params.securityName, params.securityLevel,
                      contextName, varBinds[i].name)
    }

    /** The loop of `sendVarBinds` over the bindings for one target; it stops at the first
        denial. */
    method CheckAccess(params: TargetParams, contextName: string, varBinds: seq<VarBind>)
      returns (allowed: bool)
      ensures allowed <==> AccessOk(params, contextName, varBinds)
    {
      for i := 0 to |varBinds|
        invariant forall j :: 0 <= j < i && !IsPrefixName(varBinds[j].name) ==>
          accessAllowed(params.securityModel, params.securityName, params.securityLevel,
                        contextName, varBinds[j].name)
      {
        if IsPrefixName(varBinds[i].name) {
          continue;
        }
        if !accessAllowed(params.securityModel, params.securityName, params.securityLevel,
                          contextName, varBinds[i].name) {
          return false;
        }
      }
      return true;
    }

    /** The message that carries the notification PDU to target `targetName`. */
    function NotifyMessage(targetName: string, contextEngineId: seq<bv8>, contextName: string,
                           notifyType: int, varBinds: seq<VarBind>): Message
      requires config.ResolveTarget(targetName).Success? && (notifyType == 1 || notifyType == 2)
    {
      RequestMessage(config.ResolveTarget(targetName).value, contextEngineId, contextName,
                     NewPdu(NotifyPduType(notifyType), varBinds))
    }

    /** The messages from `sent0` to `sent1` are the notification PDU carrying `varBinds`,
        sent to the first targets of `targets` in order, one each. */
    ghost predicate SentInOrder(sent0: seq<Message>, sent1: seq<Message>, targets: seq<string>,
                                contextEngineId: seq<bv8>, contextName: string,
                                notifyType: int, varBinds: seq<VarBind>)
      decreases |sent1|
    {
      if |sent1| <= |sent0| then sent1 == sent0
      else
        var n := |sent1| - |sent0|;
        && n <= |targets| && (notifyType == 1 || notifyType == 2)
        && config.ResolveTarget(targets[n - 1]).Success?
        && sent1[|sent1| - 1] == NotifyMessage(targets[n - 1], contextEngineId, contextName, notifyType, varBinds)
        && SentInOrder(sent0, sent1[..|sent1| - 1], targets, contextEngineId, contextName, notifyType, varBinds)
    }

    /** `SentInOrder` message by message: `sent1` extends `sent0` by one message per
        target, the j-th carrying the PDU to the j-th target. */
    lemma {:induction false} SentInOrderEach(sent0: seq<Message>, sent1: seq<Message>, targets: seq<string>,
                                             contextEngineId: seq<bv8>, contextName: string,
                                             notifyType: int, varBinds: seq<VarBind>)
      requires SentInOrder(sent0, sent1, targets, contextEngineId, contextName, notifyType, varBinds)
      ensures sent0 <= sent1 && |sent1| - |sent0| <= |targets|
      ensures |sent1| > |sent0| ==> notifyType == 1 || notifyType == 2
      ensures forall j :: 0 <= j < |sent1| - |sent0| ==>
        && config.ResolveTarget(targets[j]).Success?
        && sent1[|sent0| + j] == NotifyMessage(targets[j], contextEngineId, contextName, notifyType, varBinds)
      decreases |sent1|
    {
      if |sent1| > |sent0| {
        var prev := sent1[..|sent1| - 1];
        var n := |sent1| - |sent0|;
        SentInOrderEach(sent0, prev, targets, contextEngineId, contextName, notifyType, varBinds);
        assert sent0 <= sent1 by {
          assert forall j :: 0 <= j < |sent0| ==> sent0[j] == prev[j] == sent1[j];
        }
        forall j | 0 <= j < n - 1
          ensures sent1[|sent0| + j] == NotifyMessage(targets[j], contextEngineId, contextName, notifyType, varBinds)
        {
          assert sent1[|sent0| + j] == prev[|sent0| + j];
        }
      }
    }

    /** The converse of `SentInOrderEach`: messages that are the PDU sent to each target
        in turn are sent in order. */
    lemma {:induction false} SentInOrderOfEach(sent0: seq<Message>, sent1: seq<Message>, targets: seq<string>,
                                               contextEngineId: seq<bv8>, contextName: string,
                                               notifyType: int, varBinds: seq<VarBind>)
      requires sent0 <= sent1 && |sent1| - |sent0| <= |targets|
      requires |sent1| > |sent0| ==> notifyType == 1 || notifyType == 2
      requires forall j :: 0 <= j < |sent1| - |sent0| ==>
        && config.ResolveTarget(targets[j]).Success?
        && sent1[|sent0| + j] == NotifyMessage(targets[j], contextEngineId, contextName, notifyType, varBinds)
      ensures SentInOrder(sent0, sent1, targets, contextEngineId, contextName, notifyType, varBinds)
      decreases |sent1|
    {
      if |sent1| > |sent0| {
        var prev := sent1[..|sent1| - 1];
        var n := |sent1| - |sent0|;
        assert sent0 <= prev by {
          assert forall j :: 0 <= j < |sent0| ==> sent0[j] == sent1[j] == prev[j];
        }
        forall j | 0 <= j < |prev| - |sent0|
          ensures && config.ResolveTarget(targets[j]).Success?
                  && prev[|sent0| + j] == NotifyMessage(targets[j], contextEngineId, contextName, notifyType, varBinds)
        {
          assert prev[|sent0| + j] == sent1[|sent0| + j];
        }
        SentInOrderOfEach(sent0, prev, targets, contextEngineId, contextName, notifyType, varBinds);
        assert sent1[|sent1| - 1] == sent1[|sent0| + (n - 1)];
      }
    }

    /** Every target a message went to resolves. */
    lemma {:induction false} SentInOrderResolves(sent0: seq<Message>, sent1: seq<Message>, targets: seq<string>,
                                                 contextEngineId: seq<bv8>, contextName: string,
                                                 notifyType: int, varBinds: seq<VarBind>)
      requires SentInOrder(sent0, sent1, targets, contextEngineId, contextName, notifyType, varBinds)
      ensures |sent0| <= |sent1| <= |sent0| + |targets|
      ensures forall j :: 0 <= j < |sent1| - |sent0| ==> config.ResolveTarget(targets[j]).Success?
      decreases |sent1|
    {
      if |sent1| > |sent0| {
        SentInOrderResolves(sent0, sent1[..|sent1| - 1], targets, contextEngineId, contextName, notifyType, varBinds);
      }
    }

    /** Sending to the next target in line keeps the messages in order. */
    lemma SentInOrderStep(sent0: seq<Message>, sent1: seq<Message>, targets: seq<string>,
                          contextEngineId: seq<bv8>, contextName: string,
                          notifyType: int, varBinds: seq<VarBind>)
      requires SentInOrder(sent0, sent1, targets, contextEngineId, contextName, notifyType, varBinds)
      requires |sent1| >= |sent0| && |sent1| - |sent0| < |targets| && (notifyType == 1 || notifyType == 2)
      requires config.ResolveTarget(targets[|sent1| - |sent0|]).Success?
      ensures SentInOrder(sent0, sent1 + [NotifyMessage(targets[|sent1| - |sent0|], contextEngineId, contextName,
                                                        notifyType, varBinds)],
                          targets, contextEngineId, contextName, notifyType, varBinds)
    {
      var sent2 := sent1 + [NotifyMessage(targets[|sent1| - |sent0|], contextEngineId, contextName,
                                          notifyType, varBinds)];
      assert sent2[..|sent2| - 1] == sent1;
    }

    /** The targets a notification's tag selects. */
    function NotifyTargets(notificationTarget: string): seq<string>
      requires notificationTarget in config.notifications
    {
      config.TargetNames(config.notifications[notificationTarget].notifyTag)
    }

    /** What the checks of `sendVarBinds` make of one target, in the code's order: the
        target cannot be resolved, access to a binding is denied, or the notification type
        is unknown; None when the PDU may be sent. */
    function Refusal(targetName: string, contextName: string, notifyType: int, varBinds: seq<VarBind>)
      : (r: Option<Stop>)
      ensures r.None? ==> config.ResolveTarget(targetName).Success? && (notifyType == 1 || notifyType == 2)
      ensures r != Some(Delivered) && r != Some(SendFailed)
    {
      match config.ResolveTarget(targetName)
      case Failure(e) => Some(Unresolved(e))
      case Success(t) =>
        if !AccessOk(t.params, contextName, varBinds) then Some(Denied)
        else if notifyType != 1 && notifyType != 2 then Some(UnknownType)
        else None
    }

    /** Why the loop of `sendVarBinds` stops at target `targetName` when the dispatcher's
        send to it would be its `attempt`-th: a refusal, or else the failure of that send;
        None when the PDU goes out and the loop moves on. */
    function StopAt(targetName: string, contextName: string, notifyType: int, varBinds: seq<VarBind>,
                    attempt: nat): (r: Option<Stop>)
      ensures r.None? ==> Refusal(targetName, contextName, notifyType, varBinds).None?
                          && dsp.outcome(attempt).None?
      ensures r != Some(Delivered)
    {
      var refusal := Refusal(targetName, contextName, notifyType, varBinds);
      if refusal.Some? then refusal
      else if dsp.outcome(attempt).Some? then Some(SendFailed)
      else None
    }

    /** The first `n` targets all pass their checks and their sends, numbered from
        `base` on, all succeed. */
    ghost predicate AllPass(targets: seq<string>, contextName: string, notifyType: int,
                            varBinds: seq<VarBind>, base: nat, n: nat)
      requires n <= |targets|
    {
      n == 0 ||
      (AllPass(targets, contextName, notifyType, varBinds, base, n - 1)
       && StopAt(targets[n - 1], contextName, notifyType, varBinds, base + n - 1) == None)
    }

    lemma {:induction false} AllPassEach(targets: seq<string>, contextName: string, notifyType: int,
                                         varBinds: seq<VarBind>, base: nat, n: nat)
      requires n <= |targets|
      ensures AllPass(targets, contextName, notifyType, varBinds, base, n) <==>
        forall j :: 0 <= j < n ==> StopAt(targets[j], contextName, notifyType, varBinds, base + j) == None
    {
      if n > 0 {
        AllPassEach(targets, contextName, notifyType, varBinds, base, n - 1);
      }
    }

    /** Target n passing its checks and its send, numbered `base + n`, going out extends
        the run of targets that passed by one. */
    lemma AllPassStep(targets: seq<string>, contextName: string, notifyType: int,
                      varBinds: seq<VarBind>, base: nat, n: nat)
      requires n < |targets| && AllPass(targets, contextName, notifyType, varBinds, base, n)
      requires Refusal(targets[n], contextName, notifyType, varBinds) == None && dsp.outcome(base + n).None?
      ensures AllPass(targets, contextName, notifyType, varBinds, base, n + 1)
    {
    }

    /** `m` with the request `sendPdu` records for `pdu` sent to each of the first `n`
        targets, under the handles `base`, ..., `base + n - 1`. */
    function Recorded(m: map<nat, PendingReq>, base: nat, targets: seq<string>, contextEngineId: seq<bv8>,
                      contextName: string, pdu: Pdu, n: nat): map<nat, PendingReq>
      requires n <= |targets|
    {
      if n == 0 then m
      else
        var prev := Recorded(m, base, targets, contextEngineId, contextName, pdu, n - 1);
        match config.ResolveTarget(targets[n - 1])
        case Success(t) => prev[base + n - 1 := FirstRecord(t, contextEngineId, contextName, pdu)]
        case Failure(_) => prev
    }

    /** One more target recorded is one more entry, for the request sent to it. */
    lemma RecordedStep(m: map<nat, PendingReq>, base: nat, targets: seq<string>, contextEngineId: seq<bv8>,
                       contextName: string, pdu: Pdu, n: nat, t: Target)
      requires n < |targets| && config.ResolveTarget(targets[n]) == Success(t)
      ensures Recorded(m, base, targets, contextEngineId, contextName, pdu, n + 1)
              == Recorded(m, base, targets, contextEngineId, contextName, pdu, n)[base + n := FirstRecord(t, contextEngineId, contextName, pdu)]
    {
    }

    /** The request sent to the `j`-th target is recorded under handle `base + j`; every
        other entry is kept. */
    lemma {:induction false} RecordedMaps(m: map<nat, PendingReq>, base: nat, targets: seq<string>,
                                          contextEngineId: seq<bv8>, contextName: string, pdu: Pdu, n: nat)
      requires n <= |targets|
      requires forall j :: 0 <= j < n ==> config.ResolveTarget(targets[j]).Success?
      ensures forall h :: h in Recorded(m, base, targets, contextEngineId, contextName, pdu, n)
                          <==> h in m || base <= h < base + n
      ensures forall j :: 0 <= j < n ==>
        Recorded(m, base, targets, contextEngineId, contextName, pdu, n)[base + j]
          == FirstRecord(config.ResolveTarget(targets[j]).value, contextEngineId, contextName, pdu)
      ensures forall h :: h in m && !(base <= h < base + n) ==>
        Recorded(m, base, targets, contextEngineId, contextName, pdu, n)[h] == m[h]
    {
      if n > 0 {
        RecordedMaps(m, base, targets, contextEngineId, contextName, pdu, n - 1);
      }
    }

    /** `sendVarBinds`: look up the notification, give it a fresh send-request handle,
        complete its bindings with sysUpTime and snmpTrapOID, then send a Trap or an Inform
        to each target its tag selects, in order, until one is refused or a send fails
        (steps 3.3.1 to 3.3.5). */
    method SendVarBinds(notificationTarget: string, contextEngineId: seq<bv8>, contextName: string,
                        varBinds: seq<VarBind>)
      returns (r: Result<Option<nat>, Exception>)
      requires Valid()
      modifies this, dsp
      ensures Valid()
      ensures notificationTarget !in config.notifications ==>
        r == Failure(ConfigMissing(notificationTarget)) && unchanged(this) && unchanged(dsp)
      ensures r.Failure? ==> r.error.ConfigMissing? || r.error.ProtocolError?
      ensures notificationTarget in config.notifications ==>
        nextSendRequestHandle == old(nextSendRequestHandle) + 1
      ensures r.Success? && r.value.Some? ==> r.value.value == old(nextSendRequestHandle)
      // the loop over the targets, as `FannedOut` states it, under the handle
      // `old(nextSendRequestHandle)`, and what it returns for the reason it stopped
      ensures notificationTarget in config.notifications ==>
        var info := config.notifications[notificationTarget];
        exists stop ::
          && FannedOut(old(Snap()), Snap(), stop, NotifyTargets(notificationTarget), contextEngineId,
                       contextName, info.notifyType, Normalized(varBinds), old(nextSendRequestHandle))
          && r == stop.Outcome(old(nextSendRequestHandle))
    {
      if notificationTarget !in config.notifications {
        return Failure(ConfigMissing(notificationTarget));
      }
      var info := config.notifications[notificationTarget];
      ghost var s0 := Snap();
      var srh := nextSendRequestHandle;
      nextSendRequestHandle := nextSendRequestHandle + 1;
      assert Snap() == s0;
      var vbs := NormalizePrefix(varBinds);
      var targets := config.TargetNames(info.notifyTag);
      assert targets == NotifyTargets(notificationTarget);
      var stop := SendToTargets(targets, contextEngineId, contextName, info.notifyType, vbs, srh);
      r := stop.Outcome(srh);
    }

    /** The part of the state that the loop of `sendVarBinds` changes. */
    ghost function Snap(): Snapshot
      reads this, dsp
    {
      Snapshot(pendingReqs, sendRequestHandles, pendingNotifications,
               notified, jobs, dsp.sent, dsp.sendCount)
    }

    /** What the loop of `sendVarBinds` has done between `s0` and `s` for notification
        `srh`, its sends numbered from `s0.sendCount` on: its PDU has gone, in order, to as
        many targets as messages were sent; each Inform sent is recorded under its handle,
        belongs to `srh`, is counted under `srh` and is a job started; a Trap leaves
        nothing outstanding. */
    ghost predicate Advanced(s0: Snapshot, s: Snapshot, targets: seq<string>, contextEngineId: seq<bv8>,
                             contextName: string, notifyType: int, varBinds: seq<VarBind>, srh: nat)
    {
      && s.sendCount >= s0.sendCount
      && SentInOrder(s0.sent, s.sent, targets, contextEngineId, contextName, notifyType, varBinds)
      && var informs := if notifyType == 2 then |s.sent| - |s0.sent| else 0;
         && s.pendingNotifications == WithCount(s0.pendingNotifications, srh, informs)
         && s.pendingReqs == Recorded(s0.pendingReqs, s0.sendCount, targets, contextEngineId, contextName,
                                      NewPdu(InformRequest, varBinds), informs)
         && s.sendRequestHandles == Enlisted(s0.sendRequestHandles, s0.sendCount, srh, informs)
         && s.jobs == s0.jobs + informs
    }

    /** Where and why the loop of `sendVarBinds` over `targets` for notification `srh`
        stopped, from `s0` to `s`, with k the number of messages sent: the first k targets
        passed their checks and their sends went out; the loop ran to the end exactly when
        k is the number of targets, and otherwise stopped at target k for reason `stop`,
        as `StopAt` gives it; one send was made per target reached, the failed one
        included; a failed send reports the notification at once unless an Inform of it
        went out before, and nothing else reports it. */
    ghost predicate Stopped(s0: Snapshot, s: Snapshot, stop: Stop, targets: seq<string>, contextName: string,
                            notifyType: int, varBinds: seq<VarBind>, srh: nat)
    {
      && |s0.sent| <= |s.sent| <= |s0.sent| + |targets|
      && var k := |s.sent| - |s0.sent|;
         && AllPass(targets, contextName, notifyType, varBinds, s0.sendCount, k)
         && (stop == Delivered <==> k == |targets|)
         && (k < |targets| ==>
               StopAt(targets[k], contextName, notifyType, varBinds, s0.sendCount + k) == Some(stop))
         && s.sendCount == s0.sendCount + k + (if stop == SendFailed then 1 else 0)
         && (stop != SendFailed ==> s.notified == s0.notified)
         && (stop == SendFailed ==>
               s.notified == s0.notified + (if notifyType == 2 && k > 0 then []
                                            else [ProcessResponseVarBinds(srh, dsp.outcome(s0.sendCount + k), None)]))
    }

    /** The whole loop of `sendVarBinds` over `targets` for notification `srh`, from `s0`
        to `s`, ending for reason `stop`: what it sent and recorded, and where it stopped. */
    ghost predicate FannedOut(s0: Snapshot, s: Snapshot, stop: Stop, targets: seq<string>,
                              contextEngineId: seq<bv8>, contextName: string, notifyType: int,
                              varBinds: seq<VarBind>, srh: nat)
    {
      && Advanced(s0, s, targets, contextEngineId, contextName, notifyType, varBinds, srh)
      && Stopped(s0, s, stop, targets, contextName, notifyType, varBinds, srh)
    }

    /** A loop that ran to the end sent the PDU to every target, in order, and reported
        nothing. */
    lemma FannedOutDelivered(s0: Snapshot, s: Snapshot, stop: Stop, targets: seq<string>,
                  contextEngineId: seq<bv8>, contextName: string, notifyType: int,
                  varBinds: seq<VarBind>, srh: nat)
      requires FannedOut(s0, s, stop, targets, contextEngineId, contextName, notifyType, varBinds, srh)
      requires stop == Delivered
      ensures s0.sent <= s.sent && |s.sent| == |s0.sent| + |targets| && s.notified == s0.notified
      ensures |targets| > 0 ==> notifyType == 1 || notifyType == 2
      ensures forall j :: 0 <= j < |targets| ==>
        && config.ResolveTarget(targets[j]).Success?
        && s.sent[|s0.sent| + j] == NotifyMessage(targets[j], contextEngineId, contextName, notifyType, varBinds)
    {
      SentInOrderEach(s0.sent, s.sent, targets, contextEngineId, contextName, notifyType, varBinds);
    }

    /** A loop stopped by an access denial stopped at a target that resolves and refuses
        access to one of the bindings, and reported nothing. */
    lemma FannedOutDenied(s0: Snapshot, s: Snapshot, stop: Stop, targets: seq<string>,
                  contextEngineId: seq<bv8>, contextName: string, notifyType: int,
                  varBinds: seq<VarBind>, srh: nat)
      requires FannedOut(s0, s, stop, targets, contextEngineId, contextName, notifyType, varBinds, srh)
      requires stop == Denied
      ensures var k := |s.sent| - |s0.sent|;
        && k < |targets| && config.ResolveTarget(targets[k]).Success?
        && !AccessOk(config.ResolveTarget(targets[k]).value.params, contextName, varBinds)
        && s.notified == s0.notified && s.sendCount == s0.sendCount + k
    {
    }

    /** A loop stopped by a target that cannot be resolved stopped at the first such target,
        with the lookup's own exception, and reported nothing. */
    lemma FannedOutUnresolved(s0: Snapshot, s: Snapshot, stop: Stop, targets: seq<string>,
                  contextEngineId: seq<bv8>, contextName: string, notifyType: int,
                  varBinds: seq<VarBind>, srh: nat)
      requires FannedOut(s0, s, stop, targets, contextEngineId, contextName, notifyType, varBinds, srh)
      requires stop.Unresolved?
      ensures var k := |s.sent| - |s0.sent|;
        && k < |targets| && config.ResolveTarget(targets[k]) == Failure(stop.error)
        && (forall j :: 0 <= j < k ==> config.ResolveTarget(targets[j]).Success?)
        && s.notified == s0.notified
    {
      AllPassEach(targets, contextName, notifyType, varBinds, s0.sendCount, |s.sent| - |s0.sent|);
    }

    /** An unknown notification type stops the loop at the first target that passes its
        other checks, before anything is sent, so nothing changes at all. */
    lemma FannedOutUnknownType(s0: Snapshot, s: Snapshot, stop: Stop, targets: seq<string>,
                  contextEngineId: seq<bv8>, contextName: string, notifyType: int,
                  varBinds: seq<VarBind>, srh: nat)
      requires FannedOut(s0, s, stop, targets, contextEngineId, contextName, notifyType, varBinds, srh)
      requires stop == UnknownType
      ensures notifyType != 1 && notifyType != 2
      ensures s == s0
    {
    }

    /** Traps leave nothing outstanding: the tables and the jobs are as they were. */
    lemma AdvancedTraps(s0: Snapshot, s: Snapshot, targets: seq<string>, contextEngineId: seq<bv8>,
                           contextName: string, notifyType: int, varBinds: seq<VarBind>, srh: nat)
      requires Advanced(s0, s, targets, contextEngineId, contextName, notifyType, varBinds, srh)
      requires notifyType == 1
      ensures s.pendingReqs == s0.pendingReqs && s.sendRequestHandles == s0.sendRequestHandles
      ensures s.pendingNotifications == s0.pendingNotifications && s.jobs == s0.jobs
    {
    }

    /** The Informs sent add the handles `s0.sendCount`, ..., one per message, to the
        outstanding requests; every older entry is kept. */
    lemma AdvancedInformKeys(s0: Snapshot, s: Snapshot, targets: seq<string>, contextEngineId: seq<bv8>,
                             contextName: string, notifyType: int, varBinds: seq<VarBind>, srh: nat)
      requires Advanced(s0, s, targets, contextEngineId, contextName, notifyType, varBinds, srh)
      requires notifyType == 2
      ensures var k := |s.sent| - |s0.sent|;
        && (forall h :: h in s.pendingReqs <==> h in s0.pendingReqs || s0.sendCount <= h < s0.sendCount + k)
        && (forall h :: h in s0.pendingReqs && !(s0.sendCount <= h < s0.sendCount + k) ==>
              s.pendingReqs[h] == s0.pendingReqs[h])
    {
      SentInOrderResolves(s0.sent, s.sent, targets, contextEngineId, contextName, notifyType, varBinds);
      RecordedMaps(s0.pendingReqs, s0.sendCount, targets, contextEngineId, contextName,
                   NewPdu(InformRequest, varBinds), |s.sent| - |s0.sent|);
    }

    /** The Inform sent to the j-th target is recorded under handle `s0.sendCount + j`
        with the request `sendPdu` keeps for it. */
    lemma AdvancedInformRecords(s0: Snapshot, s: Snapshot, targets: seq<string>, contextEngineId: seq<bv8>,
                                contextName: string, notifyType: int, varBinds: seq<VarBind>, srh: nat)
      requires Advanced(s0, s, targets, contextEngineId, contextName, notifyType, varBinds, srh)
      requires notifyType == 2
      ensures forall j :: 0 <= j < |s.sent| - |s0.sent| ==>
        && config.ResolveTarget(targets[j]).Success?
        && s0.sendCount + j in s.pendingReqs
        && s.pendingReqs[s0.sendCount + j]
           == FirstRecord(config.ResolveTarget(targets[j]).value, contextEngineId, contextName,
                          NewPdu(InformRequest, varBinds))
    {
      SentInOrderResolves(s0.sent, s.sent, targets, contextEngineId, contextName, notifyType, varBinds);
      RecordedMaps(s0.pendingReqs, s0.sendCount, targets, contextEngineId, contextName,
                   NewPdu(InformRequest, varBinds), |s.sent| - |s0.sent|);
    }

    /** Each Inform sent belongs to notification `srh`, which counts them all, and each is
        a job started; every older entry is kept. */
    lemma AdvancedInformHandles(s0: Snapshot, s: Snapshot, targets: seq<string>, contextEngineId: seq<bv8>,
                           contextName: string, notifyType: int, varBinds: seq<VarBind>, srh: nat)
      requires Advanced(s0, s, targets, contextEngineId, contextName, notifyType, varBinds, srh)
      requires notifyType == 2
      ensures var k := |s.sent| - |s0.sent|;
        && (forall h :: h in s.sendRequestHandles <==>
              h in s0.sendRequestHandles || s0.sendCount <= h < s0.sendCount + k)
        && (forall h :: s0.sendCount <= h < s0.sendCount + k ==> s.sendRequestHandles[h] == srh)
        && (forall h :: h in s0.sendRequestHandles && !(s0.sendCount <= h < s0.sendCount + k) ==>
              s.sendRequestHandles[h] == s0.sendRequestHandles[h])
        && (k > 0 ==> CountOf(s.pendingNotifications, srh) == k)
        && s.jobs == s0.jobs + k
    {
      EnlistedMaps(s0.sendRequestHandles, s0.sendCount, srh, |s.sent| - |s0.sent|);
    }

    /** A notification is reported at most once by the loop, and only when a send fails. */
    lemma FannedOutReportsOnce(s0: Snapshot, s: Snapshot, stop: Stop, targets: seq<string>,
                  contextEngineId: seq<bv8>, contextName: string, notifyType: int,
                  varBinds: seq<VarBind>, srh: nat)
      requires FannedOut(s0, s, stop, targets, contextEngineId, contextName, notifyType, varBinds, srh)
      ensures |s0.notified| <= |s.notified| <= |s0.notified| + 1
      ensures |s.notified| > |s0.notified| ==>
        stop == SendFailed && s.notified[|s0.notified|].sendRequestHandle == srh
    {
    }

    /** One send of `sendVarBinds` that went out, from `s1` to `s2`: the message is on the
        wire, and an Inform is recorded under the send's number, belongs to `srh`, is counted
        under it and is a job started; a Trap changes nothing else. */
    ghost predicate SentOne(s1: Snapshot, s2: Snapshot, t: Target, contextEngineId: seq<bv8>,
                            contextName: string, notifyType: int, varBinds: seq<VarBind>, srh: nat)
    {
      && (notifyType == 1 || notifyType == 2)
      && s2.sendCount == s1.sendCount + 1
      && s2.sent == s1.sent + [RequestMessage(t, contextEngineId, contextName,
                                              NewPdu(NotifyPduType(notifyType), varBinds))]
      && s2.notified == s1.notified
      && (notifyType != 2 ==>
            && s2.pendingReqs == s1.pendingReqs && s2.sendRequestHandles == s1.sendRequestHandles
            && s2.pendingNotifications == s1.pendingNotifications && s2.jobs == s1.jobs)
      && (notifyType == 2 ==>
            && s2.pendingReqs == s1.pendingReqs[s1.sendCount := FirstRecord(t, contextEngineId, contextName,
                                                                            NewPdu(InformRequest, varBinds))]
            && s2.sendRequestHandles == s1.sendRequestHandles[s1.sendCount := srh]
            && s2.pendingNotifications == s1.pendingNotifications[srh := CountOf(s1.pendingNotifications, srh) + 1]
            && s2.jobs == s1.jobs + 1)
    }

    /** One send of `sendVarBinds` that failed, from `s1` to `s2`: only the send count moves,
        and notification `srh` is reported unless an Inform of it is outstanding. */
    ghost predicate FailedOne(s1: Snapshot, s2: Snapshot, srh: nat)
    {
      && s2.sendCount == s1.sendCount + 1 && s2.sent == s1.sent
      && s2.pendingReqs == s1.pendingReqs && s2.sendRequestHandles == s1.sendRequestHandles
      && s2.pendingNotifications == s1.pendingNotifications && s2.jobs == s1.jobs
      && (srh in s1.pendingNotifications ==> s2.notified == s1.notified)
      && (srh !in s1.pendingNotifications ==>
            s2.notified == s1.notified + [ProcessResponseVarBinds(srh, dsp.outcome(s1.sendCount), None)])
    }

    /** A send that fails leaves what the loop has sent and recorded as it was. */
    lemma AdvancedOnFailure(s0: Snapshot, s1: Snapshot, s2: Snapshot, targets: seq<string>,
                            contextEngineId: seq<bv8>, contextName: string, notifyType: int,
                            varBinds: seq<VarBind>, srh: nat)
      requires Advanced(s0, s1, targets, contextEngineId, contextName, notifyType, varBinds, srh)
      requires FailedOne(s1, s2, srh)
      ensures Advanced(s0, s2, targets, contextEngineId, contextName, notifyType, varBinds, srh)
    {
    }

    /** A send that succeeds moves the loop on to the next target: target k has passed,
        and an Inform is recorded under the send's handle and counted under `srh`. */
    lemma AdvancedOnSend(s0: Snapshot, s1: Snapshot, s2: Snapshot, t: Target, k: nat, targets: seq<string>,
                         contextEngineId: seq<bv8>, contextName: string, notifyType: int,
                         varBinds: seq<VarBind>, srh: nat)
      requires Advanced(s0, s1, targets, contextEngineId, contextName, notifyType, varBinds, srh)
      requires srh !in s0.pendingNotifications
      requires k < |targets| && |s1.sent| == |s0.sent| + k && s1.sendCount == s0.sendCount + k
      requires config.ResolveTarget(targets[k]) == Success(t)
      requires SentOne(s1, s2, t, contextEngineId, contextName, notifyType, varBinds, srh)
      ensures Advanced(s0, s2, targets, contextEngineId, contextName, notifyType, varBinds, srh)
    {
      SentInOrderStep(s0.sent, s1.sent, targets, contextEngineId, contextName, notifyType, varBinds);
      assert |s2.sent| - |s0.sent| == k + 1;
      if notifyType == 2 {
        var pdu := NewPdu(InformRequest, varBinds);
        CountStep(s0.pendingNotifications, srh, k);
        RecordedStep(s0.pendingReqs, s0.sendCount, targets, contextEngineId, contextName, pdu, k, t);
        EnlistedStep(s0.sendRequestHandles, s0.sendCount, srh, k);
        assert s1.pendingReqs == Recorded(s0.pendingReqs, s0.sendCount, targets, contextEngineId, contextName, pdu, k);
        assert s1.sendRequestHandles == Enlisted(s0.sendRequestHandles, s0.sendCount, srh, k);
        assert s2.pendingReqs == Recorded(s0.pendingReqs, s0.sendCount, targets, contextEngineId, contextName, pdu, k + 1);
        assert s2.sendRequestHandles == Enlisted(s0.sendRequestHandles, s0.sendCount, srh, k + 1);
      }
    }

    /** A send to target k that went out moves the loop on: target k has passed. */
    lemma PassedOn(s0: Snapshot, s1: Snapshot, s2: Snapshot, t: Target, k: nat, targets: seq<string>,
                   contextEngineId: seq<bv8>, contextName: string, notifyType: int,
                   varBinds: seq<VarBind>, srh: nat)
      requires Advanced(s0, s1, targets, contextEngineId, contextName, notifyType, varBinds, srh)
      requires srh !in s0.pendingNotifications && s1.notified == s0.notified
      requires k < |targets| && |s1.sent| == |s0.sent| + k && s1.sendCount == s0.sendCount + k
      requires AllPass(targets, contextName, notifyType, varBinds, s0.sendCount, k)
      requires config.ResolveTarget(targets[k]) == Success(t)
      requires Refusal(targets[k], contextName, notifyType, varBinds) == None
      requires SentOne(s1, s2, t, contextEngineId, contextName, notifyType, varBinds, srh)
      requires dsp.outcome(s1.sendCount).None?
      ensures Advanced(s0, s2, targets, contextEngineId, contextName, notifyType, varBinds, srh)
      ensures |s2.sent| == |s0.sent| + k + 1 && s2.sendCount == s0.sendCount + k + 1
      ensures AllPass(targets, contextName, notifyType, varBinds, s0.sendCount, k + 1)
      ensures s2.notified == s0.notified
    {
      AdvancedOnSend(s0, s1, s2, t, k, targets, contextEngineId, contextName, notifyType, varBinds, srh);
      AllPassStep(targets, contextName, notifyType, varBinds, s0.sendCount, k);
    }

    /** A send to target k that failed ends the loop there. */
    lemma FailedAt(s0: Snapshot, s1: Snapshot, s2: Snapshot, k: nat, targets: seq<string>,
                   contextEngineId: seq<bv8>, contextName: string, notifyType: int,
                   varBinds: seq<VarBind>, srh: nat)
      requires Advanced(s0, s1, targets, contextEngineId, contextName, notifyType, varBinds, srh)
      requires srh !in s0.pendingNotifications && s1.notified == s0.notified
      requires k < |targets| && |s1.sent| == |s0.sent| + k && s1.sendCount == s0.sendCount + k
      requires AllPass(targets, contextName, notifyType, varBinds, s0.sendCount, k)
      requires Refusal(targets[k], contextName, notifyType, varBinds) == None
      requires dsp.outcome(s1.sendCount).Some?
      requires FailedOne(s1, s2, srh)
      ensures FannedOut(s0, s2, SendFailed, targets, contextEngineId, contextName, notifyType, varBinds, srh)
    {
      AdvancedOnFailure(s0, s1, s2, targets, contextEngineId, contextName, notifyType, varBinds, srh);
      StoppedOnFailure(s0, s1, s2, k, targets, contextName, notifyType, varBinds, srh);
    }

    /** The loop of `sendVarBinds` from `s0` to the current state, which is coherent, after
        its first `n` passes: the first n targets passed, their messages went out, and
        nothing is reported yet. */
    ghost predicate Progressed(s0: Snapshot, n: nat, targets: seq<string>, contextEngineId: seq<bv8>,
                               contextName: string, notifyType: int, varBinds: seq<VarBind>, srh: nat)
      reads this, dsp
    {
      && Valid() && n <= |targets|
      && Advanced(s0, Snap(), targets, contextEngineId, contextName, notifyType, varBinds, srh)
      && |dsp.sent| == |s0.sent| + n && dsp.sendCount == s0.sendCount + n
      && AllPass(targets, contextName, notifyType, varBinds, s0.sendCount, n)
      && notified == s0.notified
      && (n > 0 ==> notifyType == 1 || notifyType == 2)
    }

    /** The loop stops at target k, reached after k sends that went out, when the
        target's checks refuse it. */
    lemma StoppedOnRefusal(s0: Snapshot, s: Snapshot, k: nat, stop: Stop, targets: seq<string>,
                           contextName: string, notifyType: int, varBinds: seq<VarBind>, srh: nat)
      requires k < |targets| && |s.sent| == |s0.sent| + k && s.sendCount == s0.sendCount + k
      requires AllPass(targets, contextName, notifyType, varBinds, s0.sendCount, k)
      requires Refusal(targets[k], contextName, notifyType, varBinds) == Some(stop)
      requires s.notified == s0.notified
      ensures Stopped(s0, s, stop, targets, contextName, notifyType, varBinds, srh)
    {
    }

    /** A refusal at target k ends the loop there, with what it sent and recorded so far. */
    lemma RefusedAt(s0: Snapshot, s: Snapshot, k: nat, stop: Stop, targets: seq<string>,
                    contextEngineId: seq<bv8>, contextName: string, notifyType: int,
                    varBinds: seq<VarBind>, srh: nat)
      requires Advanced(s0, s, targets, contextEngineId, contextName, notifyType, varBinds, srh)
      requires k < |targets| && |s.sent| == |s0.sent| + k && s.sendCount == s0.sendCount + k
      requires AllPass(targets, contextName, notifyType, varBinds, s0.sendCount, k)
      requires Refusal(targets[k], contextName, notifyType, varBinds) == Some(stop)
      requires s.notified == s0.notified
      ensures FannedOut(s0, s, stop, targets, contextEngineId, contextName, notifyType, varBinds, srh)
    {
      StoppedOnRefusal(s0, s, k, stop, targets, contextName, notifyType, varBinds, srh);
    }

    /** The loop stops at target k because the send to it, numbered `s1.sendCount`, failed:
        nothing but the send count and the report changes from `s1` to `s2`. */
    lemma StoppedOnFailure(s0: Snapshot, s1: Snapshot, s2: Snapshot, k: nat, targets: seq<string>,
                           contextName: string, notifyType: int, varBinds: seq<VarBind>, srh: nat)
      requires srh !in s0.pendingNotifications && s1.notified == s0.notified
      requires s1.pendingNotifications == WithCount(s0.pendingNotifications, srh, if notifyType == 2 then k else 0)
      requires k < |targets| && |s1.sent| == |s0.sent| + k && s1.sendCount == s0.sendCount + k
      requires AllPass(targets, contextName, notifyType, varBinds, s0.sendCount, k)
      requires Refusal(targets[k], contextName, notifyType, varBinds) == None
      requires dsp.outcome(s1.sendCount).Some?
      requires FailedOne(s1, s2, srh)
      ensures Stopped(s0, s2, SendFailed, targets, contextName, notifyType, varBinds, srh)
    {
    }

    /** The loop ran through every target. */
    lemma StoppedOnEnd(s0: Snapshot, s: Snapshot, targets: seq<string>,
                       contextName: string, notifyType: int, varBinds: seq<VarBind>, srh: nat)
      requires |s.sent| == |s0.sent| + |targets| && s.sendCount == s0.sendCount + |targets|
      requires AllPass(targets, contextName, notifyType, varBinds, s0.sendCount, |targets|)
      requires s.notified == s0.notified
      ensures Stopped(s0, s, Delivered, targets, contextName, notifyType, varBinds, srh)
    {
    }

    /** The loop of `sendVarBinds` over the targets of notification `srh`, which stops
        early at a target that cannot be resolved, one whose access check fails, an
        unknown notification type, or a send that fails. */
    method SendToTargets(targets: seq<string>, contextEngineId: seq<bv8>, contextName: string,
                         notifyType: int, varBinds: seq<VarBind>, srh: nat)
      returns (stop: Stop)
      requires Valid() && srh !in pendingNotifications && srh < nextSendRequestHandle
      requires forall j :: 0 <= j < |notified| ==> notified[j].sendRequestHandle < srh
      modifies this, dsp
      ensures Valid() && nextSendRequestHandle == old(nextSendRequestHandle)
      ensures FannedOut(old(Snap()), Snap(), stop, targets, contextEngineId, contextName, notifyType, varBinds, srh)
      ensures stop.Unresolved? ==> stop.error.ConfigMissing?
    {
      ghost var s0 := Snap();
      for i := 0 to |targets|
        invariant Progressed(s0, i, targets, contextEngineId, contextName, notifyType, varBinds, srh)
        invariant nextSendRequestHandle == old(nextSendRequestHandle)
      {
        var early := VisitTarget(i, targets, contextEngineId, contextName, notifyType, varBinds, srh, s0);
        if early.Some? {
          return early.value;
        }
      }
      StoppedOnEnd(s0, Snap(), targets, contextName, notifyType, varBinds, srh);
      return Delivered;
    }

    /** One pass of the loop of `sendVarBinds`: the checks on target `i`, then the send;
        `None` when the loop goes on to the next target. */
    method VisitTarget(i: nat, targets: seq<string>, contextEngineId: seq<bv8>, contextName: string,
                       notifyType: int, varBinds: seq<VarBind>, srh: nat, ghost s0: Snapshot)
      returns (early: Option<Stop>)
      requires Progressed(s0, i, targets, contextEngineId, contextName, notifyType, varBinds, srh)
      requires i < |targets|
      requires srh !in s0.pendingNotifications && srh < nextSendRequestHandle
      requires forall j :: 0 <= j < |notified| ==> notified[j].sendRequestHandle < srh
      modifies this, dsp
      ensures Valid() && nextSendRequestHandle == old(nextSendRequestHandle)
      ensures early.None? ==> Progressed(s0, i + 1, targets, contextEngineId, contextName, notifyType, varBinds, srh)
      ensures early.Some? ==>
        FannedOut(s0, Snap(), early.value, targets, contextEngineId, contextName, notifyType, varBinds, srh)
      ensures early.Some? && early.value.Unresolved? ==> early.value.error.ConfigMissing?
    {
      var refusal, t := Admit(targets[i], contextName, notifyType, varBinds);
      if refusal.Some? {
        RefusedAt(s0, Snap(), i, refusal.value, targets, contextEngineId, contextName, notifyType, varBinds, srh);
        return refusal;
      }
      var failed := Advance(i, t, targets, contextEngineId, contextName, notifyType, varBinds, srh, s0);
      early := if failed then Some(SendFailed) else None;
    }

    /** The send to target `i` once it has passed its checks. */
    method Advance(i: nat, t: Target, targets: seq<string>, contextEngineId: seq<bv8>, contextName: string,
                   notifyType: int, varBinds: seq<VarBind>, srh: nat, ghost s0: Snapshot)
      returns (failed: bool)
      requires Progressed(s0, i, targets, contextEngineId, contextName, notifyType, varBinds, srh)
      requires i < |targets|
      requires config.ResolveTarget(targets[i]) == Success(t)
      requires Refusal(targets[i], contextName, notifyType, varBinds) == None
      requires srh !in s0.pendingNotifications && srh < nextSendRequestHandle
      requires forall j :: 0 <= j < |notified| ==> notified[j].sendRequestHandle < srh
      modifies this, dsp
      ensures Valid() && nextSendRequestHandle == old(nextSendRequestHandle)
      ensures !failed ==> Progressed(s0, i + 1, targets, contextEngineId, contextName, notifyType, varBinds, srh)
      ensures failed ==>
        FannedOut(s0, Snap(), SendFailed, targets, contextEngineId, contextName, notifyType, varBinds, srh)
    {
      ghost var s1 := Snap();
      failed := NotifyOne(t, contextEngineId, contextName, notifyType, varBinds, srh);
      ghost var s2 := Snap();
      if failed {
        FailedAt(s0, s1, s2, i, targets, contextEngineId, contextName, notifyType, varBinds, srh);
      } else {
        PassedOn(s0, s1, s2, t, i, targets, contextEngineId, contextName, notifyType, varBinds, srh);
      }
    }

    /** The checks `sendVarBinds` makes before sending to one target, in its order:
        resolve the target, check access to every binding, check the notification type. */
    method Admit(targetName: string, contextName: string, notifyType: int, varBinds: seq<VarBind>)
      returns (refusal: Option<Stop>, t: Target)
      ensures refusal == Refusal(targetName, contextName, notifyType, varBinds)
      ensures config.ResolveTarget(targetName).Success? ==> t == config.ResolveTarget(targetName).value
    {
      var target := config.ResolveTarget(targetName);
      if target.Failure? {
        return Some(Unresolved(target.error)), Target(TargetAddr([], "", 0, 0, ""), TargetParams(0, 0, "", 0));
      }
      t := target.value;
      var allowed := CheckAccess(t.params, contextName, varBinds);
      if !allowed {
        return Some(Denied), t;
      }
      if notifyType != 1 && notifyType != 2 {
        return Some(UnknownType), t;
      }
      refusal := None;
    }

    /** Steps 3.3.4 and 3.3.5 of `sendVarBinds` for one resolved target: send the PDU; an
        Inform sent is counted under notification `srh`; a send that fails reports the
        notification unless an Inform of it is still outstanding. */
    method NotifyOne(t: Target, contextEngineId: seq<bv8>, contextName: string, notifyType: int,
                     varBinds: seq<VarBind>, srh: nat)
      returns (failed: bool)
      requires Valid()
      requires notifyType == 1 || notifyType == 2
      requires srh < nextSendRequestHandle
      requires forall j :: 0 <= j < |notified| ==> notified[j].sendRequestHandle != srh
      modifies this, dsp
      ensures Valid()
      ensures nextSendRequestHandle == old(nextSendRequestHandle)
      ensures failed <==> dsp.outcome(old(dsp.sendCount)).Some?
      ensures failed ==> FailedOne(old(Snap()), Snap(), srh)
      ensures !failed ==> SentOne(old(Snap()), Snap(), t, contextEngineId, contextName, notifyType, varBinds, srh)
    {
      ghost var s1 := Snap();
      assert forall h :: h in sendRequestHandles ==> h < s1.sendCount;
      var sent := SendToTarget(t, contextEngineId, contextName, NewPdu(NotifyPduType(notifyType), varBinds));
      if sent.Failure? {
        ReportUnlessOutstanding(ProcessResponseVarBinds(srh, Some(sent.error), None));
        assert FailedOne(s1, Snap(), srh);
        return true;
      }
      if notifyType == 2 {
        Enlist(sent.value.value, srh);
      }
      assert SentOne(s1, Snap(), t, contextEngineId, contextName, notifyType, varBinds, srh);
      return false;
    }

    /** A failed send of notification `n.sendRequestHandle`: report it unless one of its
        Informs is still outstanding. */
    method ReportUnlessOutstanding(n: Notification)
      requires Valid() && n.sendRequestHandle < nextSendRequestHandle
      requires forall j :: 0 <= j < |notified| ==> notified[j].sendRequestHandle != n.sendRequestHandle
      modifies this
      ensures Valid()
      ensures n.sendRequestHandle in old(pendingNotifications) ==> notified == old(notified)
      ensures n.sendRequestHandle !in old(pendingNotifications) ==> notified == old(notified) + [n]
      ensures pendingNotifications == old(pendingNotifications)
      ensures pendingReqs == old(pendingReqs) && sendRequestHandles == old(sendRequestHandles)
      ensures jobs == old(jobs) && nextSendRequestHandle == old(nextSendRequestHandle)
    {
      var srh := n.sendRequestHandle;
      if srh !in pendingNotifications || pendingNotifications[srh] == 0 {
        pendingNotifications := pendingNotifications - {srh};
        notified := notified + [n];
      }
    }

    /** Count one more outstanding Inform, sent under handle `h`, for notification `srh`. */
    method Enlist(h: nat, srh: nat)
      requires Valid() && h in pendingReqs && h !in sendRequestHandles
      requires forall j :: 0 <= j < |notified| ==> notified[j].sendRequestHandle != srh
      requires srh < nextSendRequestHandle
      modifies this
      ensures Valid()
      ensures sendRequestHandles == old(sendRequestHandles)[h := srh]
      ensures pendingNotifications == old(pendingNotifications)[srh := CountOf(old(pendingNotifications), srh) + 1]
      ensures pendingReqs == old(pendingReqs) && notified == old(notified) && jobs == old(jobs)
      ensures nextSendRequestHandle == old(nextSendRequestHandle)
    {
      if srh !in pendingNotifications {
        OwnedByNone(sendRequestHandles, srh);
      }
      OwnedByAdd(sendRequestHandles, h, srh);
      pendingNotifications := pendingNotifications[srh := CountOf(pendingNotifications, srh) + 1];
      sendRequestHandles := sendRequestHandles[h := srh];
    }
  }
}
