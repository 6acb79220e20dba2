/**
 * Model of tools/stdafx.py: the CustomException message format, and the properties its
 * date helpers promise. Its wrapTo2Pi, wrapTo360Deg, daterange and daterangeLength are
 * the same expressions as the helpers of tools/Common.py and are modelled once, in Common.
 */
module Stdafx {
  import Common

  /** CustomException(m): an exception carrying a message, shown with a '>>> ' prefix. */
  datatype CustomException = CustomException(message: string)
  {
    /** str(e) */
    function Str(): (s: string)
      ensures |s| == |message| + 4
      ensures s[..4] == ">>> " && s[4..] == message
    {
      ">>> " + message
    }
  }

  /** Distinct messages print differently: the prefix hides nothing. */
  lemma StrInjective(a: CustomException, b: CustomException)
    requires a.Str() == b.Str()
    ensures a == b
  {
    assert a.message == a.Str()[4..];
  }

  /**
   * For end at most one day before start or later, daterangeLength equals the number of
   * dates daterange yields.
   */
  lemma {:induction false} DaterangeLengthMatchesCount(start: Common.Datetime, end: Common.Datetime, step: int)
    requires step >= 1 && Common.DaysBetween(start, end) >= -1
    ensures Common.DaterangeLength(start, end, step).value >= 0
    ensures |Common.Daterange(start, end, step).value| == Common.DaterangeLength(start, end, step).value
  {
    var n := Common.DaysBetween(start, end) + 1;
    var c := Common.CeilDiv(n, step);
    if c < 0 {
      Common.MulSignInt(c - 1, step);
    }
    Common.DaterangeLengthCounts(start, end, step);
  }

  /** When end is not before start, daterange yields the start date first and every date stays within end. */
  lemma {:induction false} DaterangeFromStartToEnd(start: Common.Datetime, end: Common.Datetime, step: int)
    requires step >= 1 && Common.DaysBetween(start, end) >= 0
    ensures |Common.Daterange(start, end, step).value| >= 1
    ensures Common.Daterange(start, end, step).value[0] == start
    ensures forall k :: 0 <= k < |Common.Daterange(start, end, step).value| ==>
      Common.Elapsed(Common.Daterange(start, end, step).value[k], end) >= 0.0
  {
    DaterangeLengthMatchesCount(start, end, step);
    var dates := Common.Daterange(start, end, step).value;
    var n := Common.DaysBetween(start, end) + 1;
    Common.MulSignInt(Common.CeilDiv(n, step), step);
    Common.DaterangeDates(start, end, step, 0);
    forall k | 0 <= k < |dates|
      ensures Common.Elapsed(dates[k], end) >= 0.0
    {
      Common.DaterangeDates(start, end, step, k);
    }
  }
}
