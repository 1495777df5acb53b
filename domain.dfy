/**
 * The records the farm bookkeeping application stores, and the small string
 * and number helpers the rest of the model shares.
 *
 * Numeric fields that the server fills with `parseFloat(...)` are `Option`s:
 * `None` stands for a value that is missing or not a number (undefined, null,
 * NaN), which every `x || 0` in the source turns into 0.
 */
module Domain {

  datatype Option<+T> = None | Some(value: T) {
    function GetOr(default: T): T {
      match this
      case Some(v) => v
      case None => default
    }
  }

  /** An income record (a sale of livestock); `livestockType` is the source's `type` field. */
  datatype Income = Income(
    id: string,
    date: Option<string>,
    livestockType: Option<string>,
    amount: Option<int>,
    quantity: Option<int>,
    unitPrice: Option<int>,
    description: Option<string>,
    createdAt: string)

  /** An expense record; `category` is meant to be one of the five report buckets. */
  datatype Expense = Expense(
    id: string,
    date: Option<string>,
    category: Option<string>,
    amount: Option<int>,
    quantity: Option<int>,
    unitPrice: Option<int>,
    description: Option<string>,
    createdAt: string)

  datatype Employee = Employee(id: string, name: string, position: string, hourlyRate: real, monthlyTarget: real)

  /** One attendance record per employee and day; clocks are instants in milliseconds. */
  datatype Attendance = Attendance(
    id: string,
    employeeId: string,
    date: string,
    clockIn: Option<int>,
    clockOut: Option<int>,
    hours: real)

  datatype Partner = Partner(id: string, name: string, percentage: Option<real>)

  /** A partner's part of a month's profit; `amount` is `None` where the source computes NaN. */
  datatype Share = Share(partnerId: string, partnerName: string, percentage: Option<real>, amount: Option<real>)

  datatype ProfitSharing = ProfitSharing(
    id: string,
    month: string,
    totalIncome: int,
    totalExpense: int,
    profit: int,
    shares: seq<Share>,
    calculatedAt: string)

  datatype LivestockType = LivestockType(id: string, name: string, color: string)

  /** `x || 0` on a stored amount. */
  function AmountOf(amount: Option<int>): int {
    amount.GetOr(0)
  }

  /** JavaScript's `s.startsWith(prefix)`. */
  predicate StartsWith(s: string, prefix: string) {
    |prefix| <= |s| && s[..|prefix|] == prefix
  }

  lemma StartsWithConcat(prefix: string, rest: string)
    ensures StartsWith(prefix + rest, prefix)
  {
    assert (prefix + rest)[..|prefix|] == prefix;
  }

  /** A string that starts with `prefix` agrees with it position by position. */
  lemma StartsWithAt(s: string, prefix: string, i: int)
    requires StartsWith(s, prefix) && 0 <= i < |prefix|
    ensures s[i] == prefix[i]
  {
    assert s[..|prefix|][i] == s[i];
  }

  predicate Contains(s: string, c: char) {
    exists i :: 0 <= i < |s| && s[i] == c
  }

  function DigitChar(d: int): (c: char)
    requires 0 <= d < 10
    ensures '0' <= c <= '9' && c as int - '0' as int == d
  {
    ('0' as int + d) as char
  }

  predicate IsDigit(c: char) {
    '0' <= c <= '9'
  }

  /** JavaScript's `String(n)` for a non-negative integer. */
  function NatToString(n: nat): (s: string)
    ensures |s| >= 1
    ensures forall i :: 0 <= i < |s| ==> IsDigit(s[i])
    decreases n
  {
    if n < 10 then [DigitChar(n)] else NatToString(n / 10) + [DigitChar(n % 10)]
  }

  /** JavaScript's `String(n)` (and a template literal `${n}`) for an integer. */
  function IntToString(n: int): (s: string)
    ensures |s| >= 1
    ensures forall i :: 0 <= i < |s| ==> IsDigit(s[i]) || (i == 0 && s[i] == '-')
  {
    if n < 0 then "-" + NatToString(-n) else NatToString(n)
  }

  /** `n.toString().padStart(2, '0')` for 0 <= n < 100. */
  function Pad2(n: int): (s: string)
    requires 0 <= n < 100
    ensures |s| == 2 && IsDigit(s[0]) && IsDigit(s[1])
  {
    [DigitChar(n / 10), DigitChar(n % 10)]
  }
}
