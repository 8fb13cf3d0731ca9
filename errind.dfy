/** Error-indication values of the SNMP engine (pysnmp/proto/errind.py).

    An indication is an object of one of the classes below. Its value is the class name
    with the first letter lower-cased, its description defaults to that value, `str()`
    gives the description, and comparison treats any instance of the same class (or of a
    subclass, for the base class) as equal and otherwise compares the value as a string,
    which is what keeps indications comparable with the plain string literals that older
    code used. */
module ErrInd {
  import opened Wrappers

  /** The base class and its 34 subclasses, one constructor per class. */
  datatype Cls =
    | ErrorIndication
    | ParseError | UnsupportedMsgProcessingModel | UnknownPDUHandler | UnsupportedPDUtype
    | RequestTimedOut | EmptyResponse | NonReportable | DataMismatch | EngineIDMispatch
    | UnknownEngineID | TooBig | LoopTerminated | InvalidMsg
    | UnknownCommunityName | NoEncryption | EncryptionError | DecryptionError
    | NoAuthentication | AuthenticationError | AuthenticationFailure
    | UnsupportedAuthProtocol | UnsupportedPrivProtocol | UnknownSecurityName
    | UnsupportedSecurityModel | UnsupportedSecurityLevel | NotInTimeWindow
    | NoSuchView | NoAccessEntry | NoGroupName | NoSuchContext | NotInView
    | AccessAllowed | OtherError
    | OidNotIncreasing

  /** `self.__class__.__name__`: every class name starts with a capital letter. */
  function ClassName(c: Cls): (name: string)
    ensures |name| > 0 && IsUpper(name[0])
  {
    match c
    case ErrorIndication => "ErrorIndication"
    case ParseError => "ParseError"
    case UnsupportedMsgProcessingModel => "UnsupportedMsgProcessingModel"
    case UnknownPDUHandler => "UnknownPDUHandler"
    case UnsupportedPDUtype => "UnsupportedPDUtype"
    case RequestTimedOut => "RequestTimedOut"
    case EmptyResponse => "EmptyResponse"
    case NonReportable => "NonReportable"
    case DataMismatch => "DataMismatch"
    case EngineIDMispatch => "EngineIDMispatch"
    case UnknownEngineID => "UnknownEngineID"
    case TooBig => "TooBig"
    case LoopTerminated => "LoopTerminated"
    case InvalidMsg => "InvalidMsg"
    case UnknownCommunityName => "UnknownCommunityName"
    case NoEncryption => "NoEncryption"
    case EncryptionError => "EncryptionError"
    case DecryptionError => "DecryptionError"
    case NoAuthentication => "NoAuthentication"
    case AuthenticationError => "AuthenticationError"
    case AuthenticationFailure => "AuthenticationFailure"
    case UnsupportedAuthProtocol => "UnsupportedAuthProtocol"
    case UnsupportedPrivProtocol => "UnsupportedPrivProtocol"
    case UnknownSecurityName => "UnknownSecurityName"
    case UnsupportedSecurityModel => "UnsupportedSecurityModel"
    case UnsupportedSecurityLevel => "UnsupportedSecurityLevel"
    case NotInTimeWindow => "NotInTimeWindow"
    case NoSuchView => "NoSuchView"
    case NoAccessEntry => "NoAccessEntry"
    case NoGroupName => "NoGroupName"
    case NoSuchContext => "NoSuchContext"
    case NotInView => "NotInView"
    case AccessAllowed => "AccessAllowed"
    case OtherError => "OtherError"
    case OidNotIncreasing => "OidNotIncreasing"
  }

  predicate IsUpper(ch: char) { 'A' <= ch <= 'Z' }

  predicate IsLower(ch: char) { 'a' <= ch <= 'z' }

  /** `string.lower` on one ASCII character. */
  function Lower(ch: char): (r: char)
    ensures IsUpper(ch) ==> IsLower(r) && r as int == ch as int + 32
    ensures !IsUpper(ch) ==> r == ch
  {
    if IsUpper(ch) then (ch as int + 32) as char else ch
  }

  /** The indication's value: the class name with its first character lower-cased. */
  function ValueOf(c: Cls): (v: string)
    ensures |v| == |ClassName(c)|
    ensures IsLower(v[0]) && v[0] == Lower(ClassName(c)[0])
    ensures v[1..] == ClassName(c)[1..]
  {
    var name := ClassName(c);
    [Lower(name[0])] + name[1..]
  }

  /** The class named `name`, found from its length and a character or two. */
  function ClassNamed(name: string): Option<Cls>
  {
    if |name| == 6 then Some(TooBig)
    else if |name| == 9 then Some(NotInView)
    else if |name| == 10 then
      (if name[0] == 'P' then Some(ParseError)
       else if name[0] == 'I' then Some(InvalidMsg)
       else if name[0] == 'N' then Some(NoSuchView)
       else if name[0] == 'O' then Some(OtherError)
       else None)
    else if |name| == 11 then Some(NoGroupName)
    else if |name| == 12 then
      (if name[0] == 'D' then Some(DataMismatch)
       else if name[0] == 'N' then Some(NoEncryption)
       else None)
    else if |name| == 13 then
      (if name[0] == 'E' then Some(EmptyResponse)
       else if name[0] == 'N' then
        (if name[2] == 'n' then Some(NonReportable)
         else if name[2] == 'A' then Some(NoAccessEntry)
         else if name[2] == 'S' then Some(NoSuchContext)
         else None)
       else if name[0] == 'A' then Some(AccessAllowed)
       else None)
    else if |name| == 14 then Some(LoopTerminated)
    else if |name| == 15 then
      (if name[0] == 'E' then
        (if name[1] == 'r' then Some(ErrorIndication)
         else if name[1] == 'n' then Some(EncryptionError)
         else None)
       else if name[0] == 'R' then Some(RequestTimedOut)
       else if name[0] == 'U' then Some(UnknownEngineID)
       else if name[0] == 'D' then Some(DecryptionError)
       else if name[0] == 'N' then Some(NotInTimeWindow)
       else None)
    else if |name| == 16 then
      (if name[0] == 'E' then Some(EngineIDMispatch)
       else if name[0] == 'N' then Some(NoAuthentication)
       else if name[0] == 'O' then Some(OidNotIncreasing)
       else None)
    else if |name| == 17 then Some(UnknownPDUHandler)
    else if |name| == 18 then Some(UnsupportedPDUtype)
    else if |name| == 19 then
      (if name[0] == 'A' then Some(AuthenticationError)
       else if name[0] == 'U' then Some(UnknownSecurityName)
       else None)
    else if |name| == 20 then Some(UnknownCommunityName)
    else if |name| == 21 then Some(AuthenticationFailure)
    else if |name| == 23 then
      (if name[11] == 'A' then Some(UnsupportedAuthProtocol)
       else if name[11] == 'P' then Some(UnsupportedPrivProtocol)
       else None)
    else if |name| == 24 then
      (if name[19] == 'M' then Some(UnsupportedSecurityModel)
       else if name[19] == 'L' then Some(UnsupportedSecurityLevel)
       else None)
    else if |name| == 29 then Some(UnsupportedMsgProcessingModel)
    else None
  }

  /** Every class is found again from its name; the classes are taken a few at a time. */
  lemma ClassNamedInverts(c: Cls)
    ensures ClassNamed(ClassName(c)) == Some(c)
  {
    if c.ErrorIndication? || c.ParseError? || c.UnsupportedMsgProcessingModel? || c.UnknownPDUHandler? {
      ClassNamedInvertsPart1(c);
    }
    else if c.UnsupportedPDUtype? || c.RequestTimedOut? || c.EmptyResponse? || c.NonReportable? {
      ClassNamedInvertsPart2(c);
    }
    else if c.DataMismatch? || c.EngineIDMispatch? || c.UnknownEngineID? || c.TooBig? {
      ClassNamedInvertsPart3(c);
    }
    else if c.LoopTerminated? || c.InvalidMsg? || c.UnknownCommunityName? || c.NoEncryption? {
      ClassNamedInvertsPart4(c);
    }
    else if c.EncryptionError? || c.DecryptionError? || c.NoAuthentication? || c.AuthenticationError? {
      ClassNamedInvertsPart5(c);
    }
    else if c.AuthenticationFailure? || c.UnsupportedAuthProtocol? || c.UnsupportedPrivProtocol? || c.UnknownSecurityName? {
      ClassNamedInvertsPart6(c);
    }
    else if c.UnsupportedSecurityModel? || c.UnsupportedSecurityLevel? || c.NotInTimeWindow? || c.NoSuchView? {
      ClassNamedInvertsPart7(c);
    }
    else if c.NoAccessEntry? || c.NoGroupName? || c.NoSuchContext? || c.NotInView? {
      ClassNamedInvertsPart8(c);
    }
    else {
      ClassNamedInvertsPart9(c);
    }
  }

  lemma ClassNamedInvertsPart1(c: Cls)
    requires c.ErrorIndication? || c.ParseError? || c.UnsupportedMsgProcessingModel? || c.UnknownPDUHandler?
    ensures ClassNamed(ClassName(c)) == Some(c)
  {
  }

  lemma ClassNamedInvertsPart2(c: Cls)
    requires c.UnsupportedPDUtype? || c.RequestTimedOut? || c.EmptyResponse? || c.NonReportable?
    ensures ClassNamed(ClassName(c)) == Some(c)
  {
  }

  lemma ClassNamedInvertsPart3(c: Cls)
    requires c.DataMismatch? || c.EngineIDMispatch? || c.UnknownEngineID? || c.TooBig?
    ensures ClassNamed(ClassName(c)) == Some(c)
  {
  }

  lemma ClassNamedInvertsPart4(c: Cls)
    requires c.LoopTerminated? || c.InvalidMsg? || c.UnknownCommunityName? || c.NoEncryption?
    ensures ClassNamed(ClassName(c)) == Some(c)
  {
  }

  lemma ClassNamedInvertsPart5(c: Cls)
    requires c.EncryptionError? || c.DecryptionError? || c.NoAuthentication? || c.AuthenticationError?
    ensures ClassNamed(ClassName(c)) == Some(c)
  {
  }

  lemma ClassNamedInvertsPart6(c: Cls)
    requires c.AuthenticationFailure? || c.UnsupportedAuthProtocol? || c.UnsupportedPrivProtocol? || c.UnknownSecurityName?
    ensures ClassNamed(ClassName(c)) == Some(c)
  {
  }

  lemma ClassNamedInvertsPart7(c: Cls)
    requires c.UnsupportedSecurityModel? || c.UnsupportedSecurityLevel? || c.NotInTimeWindow? || c.NoSuchView?
    ensures ClassNamed(ClassName(c)) == Some(c)
  {
  }

  lemma ClassNamedInvertsPart8(c: Cls)
    requires c.NoAccessEntry? || c.NoGroupName? || c.NoSuchContext? || c.NotInView?
    ensures ClassNamed(ClassName(c)) == Some(c)
  {
  }

  lemma ClassNamedInvertsPart9(c: Cls)
    requires c.AccessAllowed? || c.OtherError? || c.OidNotIncreasing?
    ensures ClassNamed(ClassName(c)) == Some(c)
  {
  }

  /** Distinct classes have distinct names. */
  lemma ClassNameInjective(a: Cls, b: Cls)
    requires ClassName(a) == ClassName(b)
    ensures a == b
  {
    ClassNamedInverts(a);
    ClassNamedInverts(b);
  }

  /** Lower-casing the first letter loses nothing for names that start with a capital. */
  lemma LowerFirstInjective(x: string, y: string)
    requires |x| > 0 && |y| > 0 && IsUpper(x[0]) && IsUpper(y[0])
    requires [Lower(x[0])] + x[1..] == [Lower(y[0])] + y[1..]
    ensures x == y
  {
    var vx, vy := [Lower(x[0])] + x[1..], [Lower(y[0])] + y[1..];
    assert Lower(x[0]) == vx[0] == vy[0] == Lower(y[0]);
    assert x[1..] == vx[1..] == vy[1..] == y[1..];
    assert x == [x[0]] + x[1..] && y == [y[0]] + y[1..];
  }

  /** Distinct classes have distinct values, so a value identifies its class. */
  lemma ValueInjective(a: Cls, b: Cls)
    requires ValueOf(a) == ValueOf(b)
    ensures a == b
  {
    LowerFirstInjective(ClassName(a), ClassName(b));
    ClassNameInjective(a, b);
  }

  /** An error-indication object: its class and its description. */
  datatype Indication = Indication(cls: Cls, descr: string)
  {
    /** `self.__value` */
    function Value(): string { ValueOf(cls) }
  }

  /** Python truthiness of the optional `descr` argument: None and '' are false. */
  predicate Truthy(descr: Option<string>) { descr.Some? && descr.value != [] }

  /** `ErrorIndication.__init__(descr)` for an object of class `c`. */
  function New(c: Cls, descr: Option<string>): (e: Indication)
    ensures e.cls == c
  {
    Indication(c, if Truthy(descr) then descr.value else ValueOf(c))
  }

  /** `__str__`: an object built again of the same class from a non-empty string form
      is the same object. */
  function Str(e: Indication): (r: string)
    ensures r != [] ==> New(e.cls, Some(r)) == e
  {
    e.descr
  }

  /** The description is the value unless a truthy `descr` was given, and then it is that. */
  lemma StrOfNew(c: Cls, descr: Option<string>)
    ensures !Truthy(descr) ==> Str(New(c, descr)) == New(c, descr).Value()
    ensures Truthy(descr) ==> Str(New(c, descr)) == descr.value
  {
  }

  /** The right-hand operand of a comparison with an indication. */
  datatype Operand = Ind(obj: Indication) | Text(s: string) | NoneValue

  /** `isinstance(other, self.__class__)`: the base class has every indication as an instance. */
  predicate IsInstance(obj: Cls, cls: Cls) { obj == cls || cls == ErrorIndication }

  /** Python 2 `cmp` of two byte strings: lexicographic, a proper prefix sorts first. */
  function StrCmp(a: string, b: string): (r: int)
    ensures -1 <= r <= 1
  {
    if a == [] && b == [] then 0
    else if a == [] then -1
    else if b == [] then 1
    else if a[0] < b[0] then -1
    else if a[0] > b[0] then 1
    else StrCmp(a[1..], b[1..])
  }

  lemma {:induction false} StrCmpZeroIff(a: string, b: string)
    ensures StrCmp(a, b) == 0 <==> a == b
  {
    if a != [] && b != [] && a[0] == b[0] {
      StrCmpZeroIff(a[1..], b[1..]);
      if a[1..] == b[1..] {
        assert a == [a[0]] + a[1..] && b == [b[0]] + b[1..];
      }
    }
  }

  lemma {:induction false} StrCmpAntisymmetric(a: string, b: string)
    ensures StrCmp(a, b) == -StrCmp(b, a)
  {
    if a != [] && b != [] && a[0] == b[0] {
      StrCmpAntisymmetric(a[1..], b[1..]);
    }
  }

  /** `__cmp__(self, other)`. Against another indication of an unrelated class, Python 2
      calls `cmp(self.__value, other)`, which is answered by `other.__cmp__` with the
      arguments swapped and the sign negated; against None, a string compares greater. */
  function Cmp(e: Indication, other: Operand): (r: int)
    ensures -1 <= r <= 1
  {
    match other
    case Ind(o) => if IsInstance(o.cls, e.cls) then 0 else -StrCmp(o.Value(), e.Value())
    case Text(s) => StrCmp(e.Value(), s)
    case NoneValue => 1
  }

  /** `e == other` in Python: `__cmp__` returned 0. */
  predicate Equals(e: Indication, other: Operand) { Cmp(e, other) == 0 }

  /** Two indications are equal exactly when the right one is an instance of the left one's
      class; the descriptions play no part. */
  lemma EqualsIndicationIff(e: Indication, o: Indication)
    ensures Equals(e, Ind(o)) <==> IsInstance(o.cls, e.cls)
  {
    if !IsInstance(o.cls, e.cls) && Cmp(e, Ind(o)) == 0 {
      StrCmpZeroIff(o.Value(), e.Value());
      ValueInjective(o.cls, e.cls);
    }
  }

  /** An indication equals a string exactly when the string is its value. */
  lemma EqualsTextIff(e: Indication, s: string)
    ensures Equals(e, Text(s)) <==> s == e.Value()
  {
    StrCmpZeroIff(e.Value(), s);
  }

  /** The swapped, negated comparison orders unrelated indications by their values. */
  lemma CmpOrdersByValue(e: Indication, o: Indication)
    requires !IsInstance(o.cls, e.cls)
    ensures Cmp(e, Ind(o)) == StrCmp(e.Value(), o.Value())
  {
    StrCmpAntisymmetric(o.Value(), e.Value());
  }

  /** An indication is never equal to None. */
  lemma NotEqualsNone(e: Indication)
    ensures !Equals(e, NoneValue)
  {
  }

  /** The description each module-level instance is built with; `accessAllowed` has none,
      and the base class has no instance. */
  function InstanceDescr(c: Cls): (r: Option<string>)
    ensures r.None? <==> c == ErrorIndication || c == AccessAllowed
  {
    if c == ErrorIndication || c == AccessAllowed then None else Some(DescrText(c))
  }

  /** The description text given to the instance of class `c`; empty for the two classes
      whose instance is built without one. */
  function DescrText(c: Cls): string
  {
    match c
    case ErrorIndication => ""
    case ParseError => "SNMP message deserialization error"
    case UnsupportedMsgProcessingModel => "Unknown SNMP message processing model ID encountered"
    case UnknownPDUHandler => "Unhandled PDU type encountered"
    case UnsupportedPDUtype => "Unsupported SNMP PDU type encountered"
    case RequestTimedOut => "No SNMP response received before timeout"
    case EmptyResponse => "Empty SNMP response message"
    case NonReportable => "Report PDU generation not attempted"
    case DataMismatch => "SNMP request/response parameters mismatched"
    case EngineIDMispatch => "SNMP engine ID mismatch encountered"
    case UnknownEngineID => "Unknown SNMP engine ID encountered"
    case TooBig => "SNMP message will be too big"
    case LoopTerminated => "Infinite SNMP entities talk terminated"
    case InvalidMsg => "Invalid SNMP message header parameters encountered"
    case UnknownCommunityName => "Unknown SNMP community name encountered"
    case NoEncryption => "No encryption services configured"
    case EncryptionError => "Ciphering services not available"
    case DecryptionError => "Ciphering services not available or ciphertext is broken"
    case NoAuthentication => "No authentication services configured"
    case AuthenticationError => "Ciphering services not available or bad parameters"
    case AuthenticationFailure => "Authenticator mismatched"
    case UnsupportedAuthProtocol => "Authentication protocol is not supprted"
    case UnsupportedPrivProtocol => "Privacy protocol is not supprted"
    case UnknownSecurityName => "Unknown SNMP security name encountered"
    case UnsupportedSecurityModel => "Unsupported SNMP security model"
    case UnsupportedSecurityLevel => "Unsupported SNMP security level"
    case NotInTimeWindow => "SNMP message timing parameters not in windows of trust"
    case NoSuchView => "No such MIB view currently exists"
    case NoAccessEntry => "Access to MIB node denined"
    case NoGroupName => "No such VACM group configured"
    case NoSuchContext => "SNMP context now found"
    case NotInView => "Requested OID is out of MIB view"
    case AccessAllowed => ""
    case OtherError => "Unspecified SNMP engine error occurred"
    case OidNotIncreasing => "OIDs are not increasing"
  }

  /** The module-level singleton of a subclass (`parseError`, `requestTimedOut`, ...). */
  function Instance(c: Cls): (e: Indication)
    requires c != ErrorIndication
    ensures e.cls == c
  {
    New(c, InstanceDescr(c))
  }

  /** `requestTimedOut == 'requestTimedOut'`, while its string form is the long description. */
  lemma RequestTimedOutComparesToLiteral()
    ensures Equals(Instance(RequestTimedOut), Text("requestTimedOut"))
    ensures Str(Instance(RequestTimedOut)) == "No SNMP response received before timeout"
  {
    assert ValueOf(RequestTimedOut) == [Lower('R')] + "equestTimedOut" == "requestTimedOut";
    EqualsTextIff(Instance(RequestTimedOut), "requestTimedOut");
  }

  /** `accessAllowed` has no description, so its string form is its value. */
  lemma AccessAllowedStrIsValue()
    ensures Str(Instance(AccessAllowed)) == "accessAllowed"
    ensures Equals(Instance(AccessAllowed), Text(Str(Instance(AccessAllowed))))
  {
    assert InstanceDescr(AccessAllowed) == None;
    assert ClassName(AccessAllowed) == "AccessAllowed";
    assert ValueOf(AccessAllowed) == [Lower('A')] + "ccessAllowed" == "accessAllowed";
    EqualsTextIff(Instance(AccessAllowed), "accessAllowed");
  }

  /** Every singleton compares equal to any other object of its class, whatever that
      object's description, and unequal to every object of another subclass. */
  lemma InstanceEqualsItsClass(c: Cls, o: Indication)
    requires c != ErrorIndication
    ensures Equals(Instance(c), Ind(o)) <==> o.cls == c
  {
    EqualsIndicationIff(Instance(c), o);
  }
}
