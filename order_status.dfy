/**
 * The three-case order status enumeration (app/Enums/OrderStatusEnum.php):
 * its backing string values, human-readable labels, the `is` test and the
 * static `values()` / `labels()` listings.
 */
module OrderStatus {
  import opened Wrappers

  datatype OrderStatusEnum = Pending | Paid | Failed

  /** The backing value of a case (`$case->value`). */
  function Value(s: OrderStatusEnum): string {
    match s
    case Pending => "pending"
    case Paid => "paid"
    case Failed => "failed"
  }

  /** `label()`: the human-readable text of a case. */
  function Label(s: OrderStatusEnum): string {
    match s
    case Pending => "Pending Payment"
    case Paid => "Payment Successful"
    case Failed => "Payment Failed"
  }

  /** `is($status)`: strict comparison of the case's value with a string. */
  predicate Is(s: OrderStatusEnum, status: string) {
    Value(s) == status
  }

  /** `cases()`, in declaration order. */
  function Cases(): seq<OrderStatusEnum> {
    [Pending, Paid, Failed]
  }

  /** `array_column($cases, 'value')`: the value of each case, position by position. */
  function Column(cases: seq<OrderStatusEnum>): (r: seq<string>)
    ensures |r| == |cases|
    ensures forall i :: 0 <= i < |cases| ==> r[i] == Value(cases[i])
  {
    if cases == [] then [] else [Value(cases[0])] + Column(cases[1..])
  }

  /** `values()`. */
  function Values(): seq<string> {
    Column(Cases())
  }

  /** The set of values of some cases. */
  function ValueSet(cases: seq<OrderStatusEnum>): (r: set<string>)
    ensures forall i :: 0 <= i < |cases| ==> Value(cases[i]) in r
    ensures forall v :: v in r ==> exists i :: 0 <= i < |cases| && Value(cases[i]) == v
  {
    if cases == [] then {}
    else
      var rest := ValueSet(cases[1..]);
      assert forall i :: 1 <= i < |cases| ==> cases[i] == cases[1..][i - 1];
      assert forall j :: 0 <= j < |cases[1..]| ==> cases[1..][j] == cases[j + 1];
      {Value(cases[0])} + rest
  }

  /**
   * The `array_reduce` of `labels()`: starting from `carry`, each case in turn
   * stores its label under its value.
   */
  function ReduceLabels(cases: seq<OrderStatusEnum>, carry: map<string, string>): (r: map<string, string>)
    ensures r.Keys == carry.Keys + ValueSet(cases)
  {
    if cases == [] then carry
    else ReduceLabels(cases[1..], carry[Value(cases[0]) := Label(cases[0])])
  }

  /** A key that no case writes keeps the value it had in `carry`. */
  lemma {:induction false} ReduceLabelsKeeps(cases: seq<OrderStatusEnum>, carry: map<string, string>, k: string)
    requires k in carry && k !in ValueSet(cases)
    ensures ReduceLabels(cases, carry)[k] == carry[k]
  {
    if cases != [] {
      ReduceLabelsKeeps(cases[1..], carry[Value(cases[0]) := Label(cases[0])], k);
    }
  }

  /** After the fold, every case's value is mapped to that case's label. */
  lemma {:induction false} ReduceLabelsAt(cases: seq<OrderStatusEnum>, carry: map<string, string>, i: nat)
    requires i < |cases|
    ensures ReduceLabels(cases, carry)[Value(cases[i])] == Label(cases[i])
  {
    var next := carry[Value(cases[0]) := Label(cases[0])];
    if i > 0 {
      ReduceLabelsAt(cases[1..], next, i - 1);
    } else if Value(cases[0]) in ValueSet(cases[1..]) {
      var j :| 0 <= j < |cases[1..]| && Value(cases[1..][j]) == Value(cases[0]);
      ValueInjective(cases[1..][j], cases[0]);
      ReduceLabelsAt(cases[1..], next, j);
    } else {
      ReduceLabelsKeeps(cases[1..], next, Value(cases[0]));
    }
  }

  /** `labels()`: value => label for every case. */
  function Labels(): map<string, string> {
    ReduceLabels(Cases(), map[])
  }

  /** `tryFrom($value)`: the case whose value is the given string, if any. */
  function TryFrom(status: string): (r: Option<OrderStatusEnum>)
    ensures r.Some? ==> Value(r.value) == status
    ensures r.None? ==> forall s: OrderStatusEnum :: Value(s) != status
  {
    if status == "pending" then Some(Pending)
    else if status == "paid" then Some(Paid)
    else if status == "failed" then Some(Failed)
    else None
  }

  /** Distinct cases have distinct values. */
  lemma ValueInjective(s: OrderStatusEnum, t: OrderStatusEnum)
    ensures Value(s) == Value(t) ==> s == t
  {
  }

  /** Distinct cases have distinct labels, and every case has one. */
  lemma LabelInjective(s: OrderStatusEnum, t: OrderStatusEnum)
    ensures |Label(s)| > 0
    ensures Label(s) == Label(t) ==> s == t
  {
  }

  /** `is` holds of exactly one case for a given string, the case with that value. */
  lemma IsExactlyOwnValue(s: OrderStatusEnum, status: string)
    ensures Is(s, status) <==> TryFrom(status) == Some(s)
  {
  }

  /** `values()` lists the three values in declaration order. */
  lemma ValuesInOrder()
    ensures Values() == ["pending", "paid", "failed"]
  {
  }

  /** `labels()` has exactly the three values as keys, each mapped to its case's label. */
  lemma LabelsComplete()
    ensures Labels().Keys == {"pending", "paid", "failed"}
    ensures |Labels()| == 3
    ensures forall s: OrderStatusEnum :: Labels()[Value(s)] == Label(s)
  {
    var cs := Cases();
    assert ValueSet(cs) == {"pending", "paid", "failed"} by {
      assert Value(cs[0]) == "pending" && Value(cs[1]) == "paid" && Value(cs[2]) == "failed";
    }
    forall s: OrderStatusEnum ensures Labels()[Value(s)] == Label(s) {
      var i := if s == Pending then 0 else if s == Paid then 1 else 2;
      ReduceLabelsAt(cs, map[], i);
    }
  }

  /** Looking a case up by its own value gives that case back. */
  lemma TryFromValue(s: OrderStatusEnum)
    ensures TryFrom(Value(s)) == Some(s)
  {
  }
}
