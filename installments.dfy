/**
 * Installment amortisation (components/InstallmentTracker.tsx): the current
 * round of each installment plan, what has been paid and what remains, and
 * the totals over the plans still running.
 */
module Installments {
  import opened Wrappers
  import opened Seqs
  import opened Ledger

  /** An installment plan: `totalAmount` paid over `months` monthly rounds from `startDate`. */
  datatype Installment = Installment(
    id: string,
    startDate: Date,
    merchant: string,
    cardId: string,
    totalAmount: int,
    months: int)

  /** One plan with the figures of lines 43-55. */
  datatype InstallmentView = InstallmentView(
    plan: Installment,
    currentRound: int,
    isFinished: bool,
    paidAmount: int,
    remainingAmount: int,
    progress: real,
    endDate: Date,
    cardName: string,
    monthlyAmount: int)

  const UNKNOWN_CARD := "Unknown Card"

  /** Lines 43-44: whole months since the start, plus one once the start's day of month is reached; at least 1. */
  function MonthsPassed(cal: Calendar, now: Date, start: Date): (r: int)
    ensures r >= 1
    ensures var raw := cal.differenceInMonths(now, start) + (if now.day >= start.day then 1 else 0);
      r == Max(raw, 1)
  {
    var passed := cal.differenceInMonths(now, start) + (if now.day >= start.day then 1 else 0);
    if passed < 1 then 1 else passed
  }

  /** Line 55: the name of the plan's card, or "Unknown Card" when none matches or its name is empty. */
  function CardName(cards: seq<Card>, cardId: string): (r: string)
    ensures (forall i :: 0 <= i < |cards| ==> cards[i].id != cardId) ==> r == UNKNOWN_CARD
    ensures r != UNKNOWN_CARD ==> exists i :: 0 <= i < |cards| && cards[i].id == cardId && cards[i].name == r
    ensures forall i :: 0 <= i < |cards| && cards[i].id == cardId && (forall j :: 0 <= j < i ==> cards[j].id != cardId) ==>
              r == (if cards[i].name == "" then UNKNOWN_CARD else cards[i].name)
  {
    match Find(cards, (c: Card) => c.id == cardId)
    case None => UNKNOWN_CARD
    case Some(i) => if cards[i].name == "" then UNKNOWN_CARD else cards[i].name
  }

  /** The map callback of lines 38-57. */
  function Amortize(cal: Calendar, now: Date, cards: seq<Card>, inst: Installment): InstallmentView
    requires inst.months >= 1
  {
    var passed := MonthsPassed(cal, now, inst.startDate);
    var round := Min(passed, inst.months);
    var monthly := inst.totalAmount / inst.months;
    var paid := monthly * round;
    InstallmentView(inst, round, passed > inst.months, paid, inst.totalAmount - paid,
                    Ratio(round, inst.months),
                    cal.addMonths(inst.startDate, inst.months),
                    CardName(cards, inst.cardId), monthly)
  }

  /**
   * The figures of one plan: the round lies in [1, months] and the plan is
   * finished exactly when more months than rounds have passed; the monthly
   * amount is the floor of total / months; paid and remaining add up to the
   * total; at the last round the remainder of the division is still
   * outstanding; a non-negative total leaves a non-negative remainder; the
   * progress lies in (0, 100].
   */
  lemma AmortizeSpec(cal: Calendar, now: Date, cards: seq<Card>, inst: Installment)
    requires inst.months >= 1
    ensures var v, m := Amortize(cal, now, cards, inst), inst.months;
      && 1 <= v.currentRound <= m
      && (v.isFinished <==> MonthsPassed(cal, now, inst.startDate) > m)
      && (!v.isFinished ==> v.currentRound == MonthsPassed(cal, now, inst.startDate))
      && v.monthlyAmount * m <= inst.totalAmount < (v.monthlyAmount + 1) * m
      && v.paidAmount == v.monthlyAmount * v.currentRound
      && v.paidAmount + v.remainingAmount == inst.totalAmount
      && (v.currentRound == m ==> v.remainingAmount == inst.totalAmount % m)
      && (inst.totalAmount >= 0 ==> v.monthlyAmount >= 0 && v.remainingAmount >= v.monthlyAmount * (m - v.currentRound) >= 0)
      && 0.0 < v.progress <= 100.0
  {
    var v, m, t := Amortize(cal, now, cards, inst), inst.months, inst.totalAmount;
    FloorDivision(t, m, v.currentRound);
  }

  /**
   * Floor division by a positive divisor: q * m <= t < (q + 1) * m, and
   * after `round` of `m` rounds the remainder of the division plus the
   * rounds still to come are outstanding.
   */
  lemma FloorDivision(t: int, m: int, round: int)
    requires m >= 1 && 0 <= round <= m
    ensures (t / m) * m <= t < (t / m + 1) * m
    ensures t - (t / m) * round == (t / m) * (m - round) + t % m
    ensures t >= 0 ==> t / m >= 0 && (t / m) * (m - round) >= 0
  {
    var q := t / m;
    DivBounds(t, m);
    MulSucc(q, m);
    MulSub(q, m, round);
    if t >= 0 {
      DivNonneg(t, m);
      MulNonneg(q, m - round);
    }
  }

  /** The arithmetic steps of `FloorDivision`, each in a context of its own. */
  lemma DivBounds(t: int, m: int)
    requires m >= 1
    ensures (t / m) * m + t % m == t && 0 <= t % m < m
  {
  }

  lemma MulSucc(q: int, m: int)
    ensures (q + 1) * m == q * m + m
  {
  }

  lemma MulSub(q: int, m: int, round: int)
    ensures q * m - q * round == q * (m - round)
  {
  }

  lemma DivNonneg(t: int, m: int)
    requires t >= 0 && m >= 1
    ensures t / m >= 0
  {
  }

  lemma MulNonneg(a: int, b: int)
    requires a >= 0 && b >= 0
    ensures a * b >= 0
  {
  }

  /** The plans of `installments` with their figures, in order. */
  function Views(cal: Calendar, now: Date, cards: seq<Card>, installments: seq<Installment>): (r: seq<InstallmentView>)
    requires forall i :: 0 <= i < |installments| ==> installments[i].months >= 1
    ensures |r| == |installments|
    ensures forall i :: 0 <= i < |r| ==> r[i] == Amortize(cal, now, cards, installments[i])
    decreases |installments|
  {
    if |installments| == 0 then []
    else
      var init := installments[..|installments| - 1];
      assert forall i :: 0 <= i < |init| ==> init[i] == installments[i];
      Views(cal, now, cards, init) + [Amortize(cal, now, cards, installments[|installments| - 1])]
  }

  predicate IsActive(v: InstallmentView) { !v.isFinished }

  /** Line 58: the plans that are not finished. */
  function ActiveInstallments(cal: Calendar, now: Date, cards: seq<Card>, installments: seq<Installment>): seq<InstallmentView>
    requires forall i :: 0 <= i < |installments| ==> installments[i].months >= 1
  {
    Filter(Views(cal, now, cards, installments), IsActive)
  }

  function Remaining(v: InstallmentView): int { v.remainingAmount }
  function Monthly(v: InstallmentView): int { v.monthlyAmount }

  /** Lines 61-62: the remaining principal and the monthly charge summed over the active plans. */
  function Totals(cal: Calendar, now: Date, cards: seq<Card>, installments: seq<Installment>): (r: (int, int))
    requires forall i :: 0 <= i < |installments| ==> installments[i].months >= 1
  {
    var active := ActiveInstallments(cal, now, cards, installments);
    (SumOf(active, Remaining), SumOf(active, Monthly))
  }

  /** A plan is listed exactly when it is still running, and then with its own figures. */
  lemma ActiveSpec(cal: Calendar, now: Date, cards: seq<Card>, installments: seq<Installment>)
    requires forall i :: 0 <= i < |installments| ==> installments[i].months >= 1
    ensures var active := ActiveInstallments(cal, now, cards, installments);
      && (forall v :: v in active ==> !v.isFinished && exists i :: 0 <= i < |installments| && v == Amortize(cal, now, cards, installments[i]))
      && (forall i :: 0 <= i < |installments| && MonthsPassed(cal, now, installments[i].startDate) <= installments[i].months ==>
            Amortize(cal, now, cards, installments[i]) in active)
  {
    var views := Views(cal, now, cards, installments);
    FilterMembers(views, IsActive);
    forall i | 0 <= i < |installments| ensures views[i].isFinished <==> MonthsPassed(cal, now, installments[i].startDate) > installments[i].months {
      AmortizeSpec(cal, now, cards, installments[i]);
    }
    forall v | v in ActiveInstallments(cal, now, cards, installments)
      ensures exists i :: 0 <= i < |installments| && v == Amortize(cal, now, cards, installments[i])
    {
      var i :| 0 <= i < |views| && views[i] == v;
    }
  }

  /** With non-negative plan totals, the summary totals are non-negative. */
  lemma TotalsNonneg(cal: Calendar, now: Date, cards: seq<Card>, installments: seq<Installment>)
    requires forall i :: 0 <= i < |installments| ==> installments[i].months >= 1 && installments[i].totalAmount >= 0
    ensures Totals(cal, now, cards, installments).0 >= 0 && Totals(cal, now, cards, installments).1 >= 0
  {
    var views := Views(cal, now, cards, installments);
    var active := Filter(views, IsActive);
    FilterMembers(views, IsActive);
    forall i | 0 <= i < |active| ensures Remaining(active[i]) >= 0 && Monthly(active[i]) >= 0 {
      assert active[i] in views;
      var j :| 0 <= j < |views| && views[j] == active[i];
      ViewNonneg(cal, now, cards, installments[j]);
    }
    SumOfNonneg(active, Remaining);
    SumOfNonneg(active, Monthly);
  }

  lemma ViewNonneg(cal: Calendar, now: Date, cards: seq<Card>, inst: Installment)
    requires inst.months >= 1 && inst.totalAmount >= 0
    ensures Amortize(cal, now, cards, inst).remainingAmount >= 0
    ensures Amortize(cal, now, cards, inst).monthlyAmount >= 0
  {
    AmortizeSpec(cal, now, cards, inst);
  }
}
