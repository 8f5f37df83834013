/** The local transaction status vocabulary. It is a string enum whose member
    values equal their names; the gateway's vocabulary is wider (it also has
    AUTHORIZED and PENDING_VALIDATION), and whatever the enum does not name is
    narrowed to ERROR. */
module Enums {
  import opened Exceptions

  datatype TransactionStatus = PENDING | APPROVED | DECLINED | VOIDED | ERROR

  /** The string each member stands for. */
  function Value(s: TransactionStatus): string {
    match s
    case PENDING => "PENDING"
    case APPROVED => "APPROVED"
    case DECLINED => "DECLINED"
    case VOIDED => "VOIDED"
    case ERROR => "ERROR"
  }

  /** `TransactionStatus[name]`: the member with that key, if any. */
  function Lookup(name: string): (r: Option<TransactionStatus>)
    ensures r.Some? ==> Value(r.value) == name
  {
    if name == "PENDING" then Some(PENDING)
    else if name == "APPROVED" then Some(APPROVED)
    else if name == "DECLINED" then Some(DECLINED)
    else if name == "VOIDED" then Some(VOIDED)
    else if name == "ERROR" then Some(ERROR)
    else None
  }

  /** `TransactionStatus[name] || TransactionStatus.ERROR`. */
  function FromGateway(name: string): (s: TransactionStatus)
    ensures Lookup(name).Some? ==> s == Lookup(name).value
    ensures Lookup(name).None? ==> s == ERROR
  {
    Lookup(name).GetOr(ERROR)
  }

  /** Looking a member up by its own value gives that member: the lookup is the
      identity on the five members and on nothing else. */
  lemma LookupValue(s: TransactionStatus)
    ensures Lookup(Value(s)) == Some(s)
  {
  }

  lemma LookupExactlyMembers(name: string)
    ensures Lookup(name).Some? <==> exists s: TransactionStatus :: Value(s) == name
  {
    if exists s: TransactionStatus :: Value(s) == name {
      var s: TransactionStatus :| Value(s) == name;
      LookupValue(s);
    }
  }

  /** The two gateway-only states are not members and become ERROR; PENDING
      stays PENDING. */
  lemma GatewayOnlyStatesBecomeError()
    ensures Lookup("AUTHORIZED") == None && FromGateway("AUTHORIZED") == ERROR
    ensures Lookup("PENDING_VALIDATION") == None && FromGateway("PENDING_VALIDATION") == ERROR
    ensures FromGateway("PENDING") == PENDING
  {
  }

  function LowerChar(c: char): char {
    if 'A' <= c <= 'Z' then (c as int + 32) as char else c
  }

  /** `s.toLowerCase()` restricted to ASCII letters, which is all a status
      value contains. */
  function ToLowerAscii(s: string): (r: string)
    ensures |r| == |s|
    ensures forall i :: 0 <= i < |r| ==> !('A' <= r[i] <= 'Z')
    ensures forall i :: 0 <= i < |s| && 'A' <= s[i] <= 'Z' ==> r[i] as int == s[i] as int + 32
    ensures forall i :: 0 <= i < |s| && !('A' <= s[i] <= 'Z') ==> r[i] == s[i]
    ensures (forall i :: 0 <= i < |s| ==> !('A' <= s[i] <= 'Z')) ==> r == s
  {
    seq(|s|, i requires 0 <= i < |s| => LowerChar(s[i]))
  }

  /** The default result message uses the lowercase status: "Pago approved". */
  lemma LowerApproved()
    ensures ToLowerAscii(Value(APPROVED)) == "approved"
  {
    var r := ToLowerAscii("APPROVED");
    assert r[0] == 'a' && r[1] == 'p' && r[2] == 'p' && r[3] == 'r';
    assert r[4] == 'o' && r[5] == 'v' && r[6] == 'e' && r[7] == 'd';
  }
}
