/**
 * The loans page: debt totals and payoff progress over the loan list, the
 * per-loan progress and due-date labels, and the add/edit form's state. Date
 * arithmetic (`differenceInMonths`, `differenceInDays` against today) is the
 * parameters `monthsUntil` and `daysUntil`; the server's list and requests are
 * outside the model beyond the request a save issues.
 */
module LoanTracker {
  import opened Wrappers
  import opened Decimal
  import opened Finance
  import opened Records

  /** A row of the `loans` table; an unset date is the empty string. */
  datatype Loan = Loan(
    id: string,
    name: string,
    owner: Owner,
    totalAmount: real,
    currentBalance: real,
    dueDate: string,
    nextPaymentDate: string)

  // ---------------------------------------------------------------------------
  // Totals and progress
  // ---------------------------------------------------------------------------

  /** `loans.reduce((acc, l) => acc + Number(l.current_balance), 0)`. */
  function TotalDebt(ls: seq<Loan>): real
  {
    if ls == [] then 0.0 else TotalDebt(ls[..|ls| - 1]) + ls[|ls| - 1].currentBalance
  }

  /** `loans.reduce((acc, l) => acc + Number(l.total_amount), 0)`. */
  function TotalOriginal(ls: seq<Loan>): real
  {
    if ls == [] then 0.0 else TotalOriginal(ls[..|ls| - 1]) + ls[|ls| - 1].totalAmount
  }

  /** The percentage of the original debt paid off; 0 when there is nothing to pay. */
  function Progress(ls: seq<Loan>): (r: real)
    ensures TotalOriginal(ls) == 0.0 ==> r == 0.0
    ensures TotalOriginal(ls) != 0.0 ==> r * TotalOriginal(ls) == (TotalOriginal(ls) - TotalDebt(ls)) * 100.0
  {
    var original := TotalOriginal(ls);
    if original == 0.0 then 0.0 else (original - TotalDebt(ls)) / original * 100.0
  }

  /** Every balance lies between nothing owed and the original amount. */
  predicate BalancesInRange(ls: seq<Loan>)
  {
    forall i :: 0 <= i < |ls| ==> 0.0 <= ls[i].currentBalance <= ls[i].totalAmount
  }

  lemma {:induction false} DebtWithinOriginal(ls: seq<Loan>)
    requires BalancesInRange(ls)
    ensures 0.0 <= TotalDebt(ls) <= TotalOriginal(ls)
  {
    if ls != [] {
      var p := ls[..|ls| - 1];
      assert forall i :: 0 <= i < |p| ==> p[i] == ls[i];
      DebtWithinOriginal(p);
    }
  }

  /** With every balance in range the overall progress is a percentage, 100 exactly when nothing is owed. */
  lemma ProgressInRange(ls: seq<Loan>)
    requires BalancesInRange(ls)
    ensures 0.0 <= Progress(ls) <= 100.0
    ensures TotalOriginal(ls) != 0.0 ==> (Progress(ls) == 100.0 <==> TotalDebt(ls) == 0.0)
  {
    DebtWithinOriginal(ls);
    var o, d := TotalOriginal(ls), TotalDebt(ls);
    if o != 0.0 {
      FractionBounds(o - d, o);
      QuotientIsOne(o - d, o);
      assert Progress(ls) == (o - d) / o * 100.0;
    }
  }

  lemma QuotientIsOne(a: real, b: real)
    requires b != 0.0
    ensures a / b == 1.0 <==> a == b
  {
    assert a / b * b == a;
  }

  lemma FractionBounds(a: real, b: real)
    requires 0.0 <= a <= b && b > 0.0
    ensures 0.0 <= a / b <= 1.0
  {
    assert a / b * b == a;
  }

  /**
   * `((total_amount - current_balance) / total_amount) * 100`, with no guard:
   * a zero original amount gives NaN or an infinity.
   */
  function LoanProgress(l: Loan): (r: Num)
    ensures r.NonFinite? <==> l.totalAmount == 0.0
    ensures r.Finite? ==> r.value * l.totalAmount == (l.totalAmount - l.currentBalance) * 100.0
  {
    if l.totalAmount == 0.0 then NonFinite
    else Finite((l.totalAmount - l.currentBalance) / l.totalAmount * 100.0)
  }

  /** A loan with a positive amount and its balance in range shows a progress of 0..100. */
  lemma LoanProgressInRange(l: Loan)
    requires 0.0 <= l.currentBalance <= l.totalAmount && l.totalAmount > 0.0
    ensures LoanProgress(l).Finite?
    ensures 0.0 <= LoanProgress(l).value <= 100.0
  {
    FractionBounds(l.totalAmount - l.currentBalance, l.totalAmount);
  }

  // ---------------------------------------------------------------------------
  // Due dates and their labels
  // ---------------------------------------------------------------------------

  /** Whole months until the payoff date; 0 when the loan has none. */
  function MonthsLeft(l: Loan, monthsUntil: string -> int): (m: int)
    ensures l.dueDate == "" ==> m == 0
    ensures l.dueDate != "" ==> m == monthsUntil(l.dueDate)
  {
    if l.dueDate != "" then monthsUntil(l.dueDate) else 0
  }

  /** Days until the next payment; `null` when the loan has no next payment date. */
  function DaysToNext(l: Loan, daysUntil: string -> int): (d: Option<int>)
    ensures d.None? <==> l.nextPaymentDate == ""
    ensures d.Some? ==> d.value == daysUntil(l.nextPaymentDate)
  {
    if l.nextPaymentDate != "" then Some(daysUntil(l.nextPaymentDate)) else None
  }

  /** `monthsLeft > 0 ? `${monthsLeft} mo. left` : 'Due soon!'`. */
  function PayoffLabel(m: int): string
  {
    if m > 0 then Digits(m) + " mo. left" else "Due soon!"
  }

  /** The payoff label is red under three months. */
  predicate PayoffIsUrgent(m: int)
  {
    m < 3
  }

  /** `daysToNext < 0 ? 'Overdue!' : daysToNext === 0 ? 'Today!' : `${daysToNext} days``. */
  function NextPaymentLabel(d: int): string
  {
    if d < 0 then "Overdue!" else if d == 0 then "Today!" else Digits(d) + " days"
  }

  /** The next-payment label is red and bold under five days. */
  predicate NextPaymentIsUrgent(d: int)
  {
    d < 5
  }

  /** The number written in front of `suffix` in a label, if the label has that form. */
  function NumberBefore(s: string, suffix: string): (r: Option<nat>)
    ensures r.Some? ==> |s| > |suffix| && s[|s| - |suffix|..] == suffix
  {
    var k := |s| - |suffix|;
    if k > 0 && s[k..] == suffix && AllDigits(s[..k]) then Some(Value(s[..k])) else None
  }

  lemma NumberBeforeDigits(n: nat, suffix: string)
    ensures NumberBefore(Digits(n) + suffix, suffix) == Some(n)
  {
    var s := Digits(n) + suffix;
    assert s[..|Digits(n)|] == Digits(n);
    assert s[|Digits(n)|..] == suffix;
    ValueOfDigits(n);
  }

  /** The payoff label says "Due soon!" exactly when no whole month is left, and otherwise states the months. */
  lemma PayoffLabelMeaning(m: int)
    ensures PayoffLabel(m) == "Due soon!" <==> m <= 0
    ensures m > 0 ==> NumberBefore(PayoffLabel(m), " mo. left") == Some(m)
    ensures m <= 0 ==> NumberBefore(PayoffLabel(m), " mo. left") == None
  {
    if m > 0 {
      NumberBeforeDigits(m, " mo. left");
      assert NumberBefore("Due soon!", " mo. left") == None;
    }
  }

  /** The next-payment label distinguishes overdue, today and the days left, which it states. */
  lemma NextPaymentLabelMeaning(d: int)
    ensures NextPaymentLabel(d) == "Overdue!" <==> d < 0
    ensures NextPaymentLabel(d) == "Today!" <==> d == 0
    ensures d > 0 ==> NumberBefore(NextPaymentLabel(d), " days") == Some(d)
    ensures d <= 0 ==> NumberBefore(NextPaymentLabel(d), " days") == None
  {
    assert NumberBefore("Overdue!", " days") == None by {
      assert "Overdue!"[3..] != " days" by { assert "Overdue!"[3] != ' '; }
    }
    assert NumberBefore("Today!", " days") == None by {
      assert "Today!"[1..] != " days" by { assert "Today!"[1] != ' '; }
    }
    if d > 0 {
      NumberBeforeDigits(d, " days");
    }
  }

  // ---------------------------------------------------------------------------
  // The add/edit form
  // ---------------------------------------------------------------------------

  /** The modal form's state: the text fields hold what the inputs show. */
  datatype FormState = FormState(
    isModalOpen: bool,
    editingId: Option<string>,
    name: string,
    owner: Owner,
    total: string,
    balance: string,
    targetDate: string,
    nextDate: string)

  /** The form when the page mounts. */
  const InitialForm: FormState := FormState(false, None, "", Both, "", "", "", "")

  /** What a save sends: the fields, with the amounts read by `parseFloat`. */
  datatype Payload = Payload(
    name: string,
    owner: Owner,
    totalAmount: Num,
    currentBalance: Num,
    dueDate: string,
    nextPaymentDate: string)

  datatype SaveRequest = UpdateLoan(id: string, payload: Payload) | InsertLoan(payload: Payload)

  /** `closeModal`: hides and clears the form, but keeps the last chosen owner. */
  function Closed(s: FormState): (r: FormState)
    ensures !r.isModalOpen && r.editingId.None?
    ensures r.name == r.total == r.balance == r.targetDate == r.nextDate == ""
    ensures r.owner == s.owner
  {
    FormState(false, None, "", s.owner, "", "", "", "")
  }

  /**
   * `openEdit(loan)`: the fields take the loan's values and the modal opens
   * for that loan; `totalText`/`balanceText` are the amounts' `toString()`.
   */
  function Editing(l: Loan, totalText: string, balanceText: string): FormState
  {
    FormState(true, Some(l.id), l.name, l.owner, totalText, balanceText, l.dueDate, l.nextPaymentDate)
  }

  /** "Add Loan": only opens the modal, whatever the fields hold. */
  function Opened(s: FormState): (r: FormState)
    ensures r.isModalOpen
    ensures r == s.(isModalOpen := true)
  {
    s.(isModalOpen := true)
  }

  /**
   * The request `handleSave` issues: an update of the loan being edited when
   * `editingId` is truthy (set and not empty), an insert otherwise.
   */
  function RequestOf(s: FormState, parseFloat: string -> Num): (r: SaveRequest)
    ensures r.UpdateLoan? <==> s.editingId.Some? && s.editingId.value != ""
    ensures r.UpdateLoan? ==> r.id == s.editingId.value
    ensures r.payload.name == s.name && r.payload.owner == s.owner
    ensures r.payload.dueDate == s.targetDate && r.payload.nextPaymentDate == s.nextDate
    ensures r.payload.totalAmount == parseFloat(s.total) && r.payload.currentBalance == parseFloat(s.balance)
  {
    var p := Payload(s.name, s.owner, parseFloat(s.total), parseFloat(s.balance), s.targetDate, s.nextDate);
    if s.editingId.Some? && s.editingId.value != "" then UpdateLoan(s.editingId.value, p) else InsertLoan(p)
  }

  /** The payload of a loan as it stands. */
  function PayloadOf(l: Loan): Payload
  {
    Payload(l.name, l.owner, Finite(l.totalAmount), Finite(l.currentBalance), l.dueDate, l.nextPaymentDate)
  }

  /** Editing a loan and saving at once sends that loan back unchanged, as an update of its id. */
  lemma EditThenSave(l: Loan, totalText: string, balanceText: string, parseFloat: string -> Num)
    requires l.id != ""
    requires parseFloat(totalText) == Finite(l.totalAmount)
    requires parseFloat(balanceText) == Finite(l.currentBalance)
    ensures RequestOf(Editing(l, totalText, balanceText), parseFloat) == UpdateLoan(l.id, PayloadOf(l))
  {
  }

  /**
   * The browser submits the modal form only when its `required` inputs (the
   * name, both amounts and the target payoff date) are filled in.
   */
  predicate Submittable(s: FormState)
  {
    s.isModalOpen && s.name != "" && s.total != "" && s.balance != "" && s.targetDate != ""
  }

  /**
   * After a close, "Add Loan" shows an empty form the browser will not submit;
   * `handleSave` run on it would insert a loan with empty fields and the owner
   * last chosen.
   */
  lemma AddAfterClose(s: FormState, parseFloat: string -> Num)
    ensures Opened(Closed(s)).isModalOpen && !Submittable(Opened(Closed(s)))
    ensures RequestOf(Opened(Closed(s)), parseFloat) == InsertLoan(Payload("", s.owner, parseFloat(""), parseFloat(""), "", ""))
  {
  }

  /** Editing a loan whose name, amounts and target date are set gives a form the browser submits. */
  lemma EditingSubmittable(l: Loan, totalText: string, balanceText: string)
    ensures Submittable(Editing(l, totalText, balanceText)) <==>
      l.name != "" && totalText != "" && balanceText != "" && l.dueDate != ""
  {
  }

  class LoanForm {
    var isModalOpen: bool
    var editingId: Option<string>
    var name: string
    var owner: Owner
    var total: string
    var balance: string
    var targetDate: string
    var nextDate: string

    function State(): FormState
      reads this
    {
      FormState(isModalOpen, editingId, name, owner, total, balance, targetDate, nextDate)
    }

    constructor()
      ensures State() == InitialForm
    {
      isModalOpen, editingId := false, None;
      name, owner, total, balance, targetDate, nextDate := "", Both, "", "", "", "";
    }

    method CloseModal()
      modifies this
      ensures State() == Closed(old(State()))
    {
      isModalOpen := false;
      editingId := None;
      name := "";
      total := "";
      balance := "";
      targetDate := "";
      nextDate := "";
    }

    method OpenEdit(l: Loan, totalText: string, balanceText: string)
      modifies this
      ensures State() == Editing(l, totalText, balanceText)
    {
      name := l.name;
      owner := l.owner;
      total := totalText;
      balance := balanceText;
      targetDate := l.dueDate;
      nextDate := l.nextPaymentDate;
      editingId := Some(l.id);
      isModalOpen := true;
    }

    method OpenNew()
      modifies this
      ensures State() == Opened(old(State()))
    {
      isModalOpen := true;
    }

    /** Builds the request from the fields, then closes the form. */
    method HandleSave(parseFloat: string -> Num) returns (req: SaveRequest)
      modifies this
      ensures req == RequestOf(old(State()), parseFloat)
      ensures State() == Closed(old(State()))
    {
      var payload := Payload(name, owner, parseFloat(total), parseFloat(balance), targetDate, nextDate);
      if editingId.Some? && editingId.value != "" {
        req := UpdateLoan(editingId.value, payload);
      } else {
        req := InsertLoan(payload);
      }
      CloseModal();
    }
  }
}
