/** Budget status: the share of a budget spent, and the marker shown next to it. */
module Budget {
  import opened Wrappers
  import opened Text

  datatype BudgetStatus = BudgetStatus(percentage: Option<real>, isWarning: bool, displayText: string)

  const DefaultWarningThreshold: real := 80.0

  /** `calculateBudgetPercentage`: None without a positive budget or with a negative cost; otherwise the
      percentage spent, capped at 100. */
  function CalculateBudgetPercentage(cost: real, budget: Option<real>): (p: Option<real>)
    ensures p.None? <==> budget.None? || budget.value <= 0.0 || cost < 0.0
    ensures p.Some? ==> 0.0 <= p.value <= 100.0
    ensures p.Some? ==> (p.value == 100.0 <==> cost >= budget.value)
    ensures p.Some? && cost < budget.value ==> p.value * budget.value == cost * 100.0
  {
    if budget.None? || budget.value <= 0.0 || cost < 0.0 then None
    else
      var raw := cost / budget.value * 100.0;
      assert raw * budget.value == cost * 100.0;
      ScaledComparison(raw, cost, budget.value);
      Some(if raw < 100.0 then raw else 100.0)
  }

  /** With `r * b == c * 100` and `b > 0`, `r` reaches 100 exactly when `c` reaches `b`. */
  lemma ScaledComparison(r: real, c: real, b: real)
    requires b > 0.0 && r * b == c * 100.0
    ensures r >= 100.0 <==> c >= b
  {
    assert (r - 100.0) * b == (c - b) * 100.0;
    if r >= 100.0 {
      assert (r - 100.0) * b >= 0.0;
    } else {
      assert (100.0 - r) * b > 0.0;
    }
  }

  /** The marker before the percentage: " !" at or over the warning threshold, " +" from 50, else " ". */
  function Marker(percentage: real, warningThreshold: real): string {
    if percentage >= warningThreshold then " !" else if percentage >= 50.0 then " +" else " "
  }

  /** `getBudgetStatus`. */
  function GetBudgetStatus(cost: real, budget: Option<real>, warningThreshold: real): (s: BudgetStatus)
    ensures s.percentage == CalculateBudgetPercentage(cost, budget)
    ensures s.percentage.None? ==> !s.isWarning && s.displayText == ""
    ensures s.percentage.Some? ==> (s.isWarning <==> s.percentage.value >= warningThreshold)
    ensures s.percentage.Some? ==>
      s.displayText == Marker(s.percentage.value, warningThreshold) + ToFixed(s.percentage.value, 0) + "%"
  {
    match CalculateBudgetPercentage(cost, budget)
    case None => BudgetStatus(None, false, "")
    case Some(percentage) =>
      var percentStr := ToFixed(percentage, 0) + "%";
      var isWarning := percentage >= warningThreshold;
      var displayText :=
        if isWarning then " !" + percentStr
        else if percentage >= 50.0 then " +" + percentStr
        else " " + percentStr;
      BudgetStatus(Some(percentage), isWarning, displayText)
  }

  /** The display text is empty without a percentage; otherwise its marker says which band the
      percentage is in, followed by digits and a final "%". */
  lemma DisplayTextBands(cost: real, budget: Option<real>, warningThreshold: real)
    ensures var s := GetBudgetStatus(cost, budget, warningThreshold);
      && (s.displayText == "" <==> s.percentage.None?)
      && (s.percentage.Some? ==>
            && s.displayText[|s.displayText| - 1] == '%'
            && (StartsWith(s.displayText, " !") <==> s.isWarning)
            && (StartsWith(s.displayText, " +") <==> !s.isWarning && s.percentage.value >= 50.0)
            && (forall i :: 1 <= i < |s.displayText| - 1 && !StartsWith(s.displayText, " !") && !StartsWith(s.displayText, " +")
                  ==> IsDigit(s.displayText[i]) || s.displayText[i] == '.'))
  {
    var s := GetBudgetStatus(cost, budget, warningThreshold);
    if s.percentage.Some? {
      var p := s.percentage.value;
      UnsignedDigits(p);
      MarkedText(Marker(p, warningThreshold), ToFixed(p, 0));
    }
  }

  /** The digits of a percentage are digits and '.', starting with a digit. */
  lemma UnsignedDigits(p: real)
    requires p >= 0.0
    ensures IsDigit(ToFixed(p, 0)[0])
    ensures forall j :: 0 <= j < |ToFixed(p, 0)| ==> IsDigit(ToFixed(p, 0)[j]) || ToFixed(p, 0)[j] == '.'
  {
    forall j | 0 <= j < |ToFixed(p, 0)| ensures IsDigit(ToFixed(p, 0)[j]) || ToFixed(p, 0)[j] == '.' {
      ToFixedUnsigned(p, 0, j);
    }
  }

  /** A marker, then digits, then "%": the text starts with the marker and, after the plain marker " ",
      holds only digits and '.' before the final "%". */
  lemma MarkedText(m: string, digits: string)
    requires m == " !" || m == " +" || m == " "
    requires |digits| >= 1 && IsDigit(digits[0])
    requires forall j :: 0 <= j < |digits| ==> IsDigit(digits[j]) || digits[j] == '.'
    ensures var t := m + digits + "%";
      && t[|t| - 1] == '%'
      && (StartsWith(t, " !") <==> m == " !")
      && (StartsWith(t, " +") <==> m == " +")
      && (m == " " ==> forall i :: 1 <= i < |t| - 1 ==> IsDigit(t[i]) || t[i] == '.')
  {
    var t := m + digits + "%";
    assert t[|m|] == digits[0];
    if m == " " {
      assert !StartsWith(t, " !") && !StartsWith(t, " +") by {
        assert t[1] == digits[0];
      }
      forall i | 1 <= i < |t| - 1
        ensures IsDigit(t[i]) || t[i] == '.'
      {
        assert t[i] == digits[i - 1];
      }
    }
  }
}
