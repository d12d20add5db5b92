/** Rule errors as `RuleErrorBuilder` builds them. */
module Diagnostics {
  import opened Wrappers

  /** The fixed remediation tips a rule can attach; their wording is not part of this model. */
  datatype Tip =
    | MissingIterableValueTypeTip   // MissingTypehintCheck::TURN_OFF_MISSING_ITERABLE_VALUE_TYPE_TIP
    | NonGenericCheckTip            // MissingTypehintCheck::TURN_OFF_NON_GENERIC_CHECK_TIP
    | DiscoveringSymbolsTip         // RuleErrorBuilder::discoveringSymbolsTip()

  /**
   One reported error: its message, an explicit line (None lets the reporter use the
   node's line) and an optional tip.
   */
  datatype Diagnostic = Diagnostic(message: string, line: Option<int>, tip: Option<Tip>)

  /** `RuleErrorBuilder::message(m)->build()` */
  function Message(m: string): (d: Diagnostic)
    ensures d.message == m && d.line.None? && d.tip.None?
  {
    Diagnostic(m, None, None)
  }

  /** The total length of some strings. */
  function TotalLength(parts: seq<string>): nat
  {
    if |parts| == 0 then 0 else |parts[0]| + TotalLength(parts[1..])
  }

  /**
   PHP's `implode(sep, parts)`: the parts in order with `sep` between neighbours, so the
   result starts with the first part and ends with the last.
   */
  function Implode(sep: string, parts: seq<string>): (r: string)
    ensures |parts| == 0 ==> r == ""
    ensures |parts| > 0 ==> parts[0] <= r
    ensures |parts| > 0 ==> |parts[|parts| - 1]| <= |r|
                            && r[|r| - |parts[|parts| - 1]|..] == parts[|parts| - 1]
  {
    if |parts| == 0 then ""
    else if |parts| == 1 then parts[0]
    else parts[0] + sep + Implode(sep, parts[1..])
  }

  /** The joined string is as long as the parts plus one separator per gap. */
  lemma {:induction false} ImplodeLength(sep: string, parts: seq<string>)
    requires |parts| > 0
    ensures |Implode(sep, parts)| == TotalLength(parts) + (|parts| - 1) * |sep|
    decreases |parts|
  {
    if |parts| > 1 {
      ImplodeLength(sep, parts[1..]);
      assert (|parts| - 1) * |sep| == |sep| + (|parts| - 2) * |sep|;
    }
  }

  /** Adding a part at the end adds one separator and that part. */
  lemma {:induction false} ImplodeSnoc(sep: string, parts: seq<string>, p: string)
    requires |parts| > 0
    ensures Implode(sep, parts + [p]) == Implode(sep, parts) + sep + p
    decreases |parts|
  {
    if |parts| > 1 {
      assert (parts + [p])[1..] == parts[1..] + [p];
      ImplodeSnoc(sep, parts[1..], p);
    } else {
      assert (parts + [p])[1..] == [p];
    }
  }
}
