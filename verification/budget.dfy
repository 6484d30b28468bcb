/** How much of the monthly budget the month's expenses use, and the three bands
    Dashboard and Analytics sort that share into. */
module Budget {
  import opened Wrappers
  import opened Domain

  /** `user?.monthlyBudget` is truthy: someone is signed in and the budget is not 0. */
  predicate HasBudget(user: Option<User>) {
    user.Some? && user.value.monthlyBudget != 0.0
  }

  /** Share of the budget spent, in percent; 0 when there is no budget to compare with. */
  function BudgetUsed(user: Option<User>, spent: real): (r: real)
    ensures !HasBudget(user) ==> r == 0.0
    ensures HasBudget(user) ==> r * user.value.monthlyBudget == spent * 100.0
  {
    if HasBudget(user) then (spent / user.value.monthlyBudget) * 100.0 else 0.0
  }

  /** Above 100 percent, above 80 percent, or neither. */
  datatype Band = Exceeded | Approaching | Within

  /** The band of a percentage; the thresholds are exclusive, so exactly 100 is still
      approaching and exactly 80 is still within. */
  function BandOf(used: real): (b: Band)
    ensures b == Exceeded <==> used > 100.0
    ensures b == Approaching <==> 80.0 < used <= 100.0
    ensures b == Within <==> used <= 80.0
  {
    if used > 100.0 then Exceeded else if used > 80.0 then Approaching else Within
  }

  /** How alarming a band is, for comparing bands. */
  function Severity(b: Band): nat {
    match b
    case Within => 0
    case Approaching => 1
    case Exceeded => 2
  }

  /** Spending more never moves the band to a less alarming one. */
  lemma BandMonotone(u: real, v: real)
    requires u <= v
    ensures Severity(BandOf(u)) <= Severity(BandOf(v))
  {
  }

  /** With a positive budget the band is decided by the amount spent against the
      budget itself: over it, above four fifths of it, or at most four fifths. */
  lemma BandOfSpending(user: Option<User>, spent: real)
    requires user.Some? && user.value.monthlyBudget > 0.0
    ensures BandOf(BudgetUsed(user, spent)) == Exceeded <==> spent > user.value.monthlyBudget
    ensures BandOf(BudgetUsed(user, spent)) == Approaching <==>
              0.8 * user.value.monthlyBudget < spent <= user.value.monthlyBudget
    ensures BandOf(BudgetUsed(user, spent)) == Within <==> spent <= 0.8 * user.value.monthlyBudget
  {
    var b := user.value.monthlyBudget;
    var u := BudgetUsed(user, spent);
    assert u * b == spent * 100.0;
    ScaleCompare(u, 100.0, b);
    ScaleCompare(u, 80.0, b);
  }

  /** Multiplying both sides by a positive number keeps a strict comparison. */
  lemma ScaleCompare(u: real, t: real, b: real)
    requires b > 0.0
    ensures u > t <==> u * b > t * b
  {
    if u > t {
      assert (u - t) * b > 0.0;
    } else {
      assert (t - u) * b >= 0.0;
    }
  }

  /** The filled part of the budget bar: the percentage, capped at a full bar. */
  function BarWidth(used: real): (w: real)
    ensures w <= 100.0
    ensures w == used || w == 100.0
    ensures w == 100.0 <==> used >= 100.0
  {
    if used < 100.0 then used else 100.0
  }

  /** A bar that is not full is never red, and a red bar is always full. */
  lemma BarFullWhenExceeded(used: real)
    ensures BandOf(used) == Exceeded ==> BarWidth(used) == 100.0
    ensures BarWidth(used) < 100.0 ==> BandOf(used) != Exceeded
  {
  }
}
