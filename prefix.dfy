/** The mandatory variable-binding prefix of a notification (steps 3.3.2 and 3.3.3 of
    RFC 3413): sysUpTime first, snmpTrapOID second, as `sendVarBinds` arranges them in
    place before fanning out (pysnmp/entity/rfc3413/ntforg.py:284-298). */
module VarBindPrefix {
  import opened Dispatch

  /** The MIB object names of sysUpTime and snmpTrapOID (SNMPv2-MIB, RFC 3418). */
  const SysUpTimeName: Oid := [1, 3, 6, 1, 2, 1, 1, 3]
  const SnmpTrapOidName: Oid := [1, 3, 6, 1, 6, 3, 1, 1, 4, 1]

  /** The bindings inserted when the caller supplied none: the MIB syntax without a value. */
  const SysUpTimeDefault: VarBind := VarBind(SysUpTimeName, Unset)
  const SnmpTrapOidDefault: VarBind := VarBind(SnmpTrapOidName, Unset)

  predicate IsPrefixName(name: Oid) { name == SysUpTimeName || name == SnmpTrapOidName }

  /** Python's `list.insert(i, x)`: an index past the end appends. */
  function Insert(s: seq<VarBind>, i: nat, x: VarBind): (r: seq<VarBind>)
    ensures |r| == |s| + 1
    ensures i <= |s| ==> r[i] == x && r[..i] == s[..i] && r[i + 1..] == s[i..]
    ensures i > |s| ==> r == s + [x]
  {
    if i <= |s| then s[..i] + [x] + s[i..] else s + [x]
  }

  /** The position of the last binding of `s` named sysUpTime, or -1 when there is none. */
  function LastSysUpTimeAt(s: seq<VarBind>): (i: int)
    ensures -1 <= i < |s|
    ensures i >= 0 ==> s[i].name == SysUpTimeName
    ensures forall j :: i < j < |s| ==> s[j].name != SysUpTimeName
  {
    if s == [] then -1
    else if s[|s| - 1].name == SysUpTimeName then |s| - 1
    else
      var p := s[..|s| - 1];
      assert forall j :: 0 <= j < |p| ==> p[j] == s[j];
      LastSysUpTimeAt(p)
  }

  /** The last binding of `s` named sysUpTime, or `d` when there is none. */
  function LastSysUpTime(s: seq<VarBind>, d: VarBind): (b: VarBind)
    ensures (forall i :: 0 <= i < |s| ==> s[i].name != SysUpTimeName) ==> b == d
    ensures (exists i :: 0 <= i < |s| && s[i].name == SysUpTimeName) ==>
      exists i :: 0 <= i < |s| && s[i] == b && b.name == SysUpTimeName &&
        forall j :: i < j < |s| ==> s[j].name != SysUpTimeName
  {
    var i := LastSysUpTimeAt(s);
    if i < 0 then d else s[i]
  }

  /** The list after the loop of lines 284-294 has looked at its first `idx` positions. */
  function Scanned(varBinds: seq<VarBind>, idx: nat): seq<VarBind>
    requires 1 <= idx <= |varBinds|
  {
    if varBinds[0].name == SysUpTimeName then [LastSysUpTime(varBinds[..idx], varBinds[0])] + varBinds[1..]
    else [LastSysUpTime(varBinds[..idx - 1], SysUpTimeDefault)] + varBinds
  }

  /** Position 0 of the loop: a default sysUpTime is put first unless one is there. */
  lemma ScanFirst(varBinds: seq<VarBind>)
    requires varBinds != []
    ensures Scanned(varBinds, 1) == if varBinds[0].name == SysUpTimeName then varBinds else [SysUpTimeDefault] + varBinds
  {
    assert varBinds[..1] == [varBinds[0]];
    if varBinds[0].name == SysUpTimeName {
      assert [varBinds[0]] + varBinds[1..] == varBinds;
    }
  }

  /** Position idx > 0 of the loop: a sysUpTime found there overwrites position 0. */
  lemma ScanStep(varBinds: seq<VarBind>, idx: nat)
    requires 1 <= idx < |varBinds|
    ensures var cur := Scanned(varBinds, idx);
      idx < |cur| &&
      Scanned(varBinds, idx + 1) == if cur[idx].name == SysUpTimeName then cur[0 := cur[idx]] else cur
  {
    var cur := Scanned(varBinds, idx);
    var next := Scanned(varBinds, idx + 1);
    if varBinds[0].name == SysUpTimeName {
      assert varBinds[..idx + 1][..idx] == varBinds[..idx];
      assert cur[idx] == varBinds[idx];
    } else {
      assert varBinds[..idx][..idx - 1] == varBinds[..idx - 1];
      assert cur[idx] == varBinds[idx - 1];
    }
  }

  /** The binding list `sendVarBinds` sends, as the code arranges it. */
  function Normalized(varBinds: seq<VarBind>): (r: seq<VarBind>)
    ensures varBinds == [] ==> r == [SnmpTrapOidDefault]
    ensures varBinds != [] ==> |r| >= 2 && r[0].name == SysUpTimeName && r[1].name == SnmpTrapOidName
  {
    var withUpTime := if varBinds == [] then [] else Scanned(varBinds, |varBinds|);
    if |withUpTime| < 2 || withUpTime[1].name != SnmpTrapOidName then Insert(withUpTime, 1, SnmpTrapOidDefault)
    else withUpTime
  }

  /** Lines 284-298: the loop runs over the positions of the list as it was on entry while
      the list itself may grow at the front. */
  method NormalizePrefix(varBinds: seq<VarBind>) returns (vbs: seq<VarBind>)
    ensures vbs == Normalized(varBinds)
  {
    vbs := varBinds;
    var n := |vbs|;
    for idx := 0 to n
      invariant idx == 0 ==> vbs == varBinds
      invariant idx > 0 ==> |vbs| >= n
      invariant idx > 0 ==> vbs == Scanned(varBinds, idx) && vbs[0].name == SysUpTimeName
    {
      if idx == 0 {
        ScanFirst(varBinds);
      } else {
        ScanStep(varBinds, idx);
      }
      if idx > 0 && vbs[idx].name == SysUpTimeName {
        if vbs[0].name == SysUpTimeName {
          vbs := vbs[0 := vbs[idx]];
        } else {
          // lines 289-290: once position 0 has been seen, sysUpTime is always first
          assert false;
        }
      }
      if vbs[0].name != SysUpTimeName {
        vbs := [SysUpTimeDefault] + vbs;
      }
    }
    if |vbs| < 2 || vbs[1].name != SnmpTrapOidName {
      vbs := Insert(vbs, 1, SnmpTrapOidDefault);
    }
  }

  /** Everything the caller gave after its first binding is sent unchanged, in order, at
      the end of the list; at most the two prefix bindings come before it. */
  lemma NormalizedKeepsTail(varBinds: seq<VarBind>)
    requires varBinds != []
    ensures var r := Normalized(varBinds);
      |varBinds| - 1 <= |r| - 1 <= |varBinds| + 1 && r[|r| - (|varBinds| - 1)..] == varBinds[1..]
  {
  }

  /** When the caller's list starts with sysUpTime, the last sysUpTime binding given is
      the one sent first. */
  lemma CallerSysUpTimeFirst(varBinds: seq<VarBind>)
    requires varBinds != [] && varBinds[0].name == SysUpTimeName
    ensures Normalized(varBinds)[0] == LastSysUpTime(varBinds, varBinds[0])
  {
    assert varBinds[..|varBinds|] == varBinds;
  }

  /** As written, a caller's sysUpTime in the last position behind another first binding
      is never looked at: a default sysUpTime is put first and the caller's stays last. */
  lemma TrailingSysUpTimeNotMoved(x: VarBind, u: VarBind)
    requires !IsPrefixName(x.name) && u.name == SysUpTimeName
    ensures Normalized([x, u]) == [SysUpTimeDefault, SnmpTrapOidDefault, x, u]
  {
    assert [x, u][..1] == [x];
  }

  /** As written, a later sysUpTime is copied to the front but not removed from its place. */
  lemma LaterSysUpTimeDuplicated(u1: VarBind, x: VarBind, u2: VarBind)
    requires u1.name == SysUpTimeName && u2.name == SysUpTimeName && !IsPrefixName(x.name)
    ensures Normalized([u1, x, u2]) == [u2, SnmpTrapOidDefault, x, u2]
  {
    assert [u1, x, u2][..3] == [u1, x, u2];
  }
}
