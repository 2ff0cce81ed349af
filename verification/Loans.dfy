/** backend/src/modules/loans/loans.service.ts and the loan book of reports.service.ts. */
module Loans {
  import opened Common
  import opened Arith
  import opened Tables
  import opened Cycles
  import opened Contributions
  import Reports
  import LedgerLaw
  import History

  // ---- data ----

  /** approved and defaulted exist in the schema; no service sets them. */
  datatype LoanStatus = LoanPending | Approved | LoanActive | Repaid | LoanRejected | Defaulted
  datatype Loan = Loan(groupId: int, memberId: int, amount: int, rate: nat, totalDue: int, amountRepaid: int,
                       status: LoanStatus)
  datatype Repayment = Repayment(loan: int, amount: int)
  datatype Book = Book(loans: seq<Loan>, repayments: seq<Repayment>)

  /** The loan settings of a group: the multiplier in hundredths, the interest rate in ten-thousandths. */
  datatype LoanTerms = LoanTerms(allowLoans: bool, multiplier: nat, rate: nat)

  datatype LoanError =
    | GroupMissing | LoansDisabled | CycleNotActive | AmountNotPositive | ActiveLoanExists | LoanLimitExceeded
    | NotPrivileged | LoanMissing | LoanNotPending | LoanNotActive

  // ---- specification ----

  const RATE_SCALE: nat := 10000
  const MULTIPLIER_SCALE: nat := 100

  /** Principal plus interest, the interest rounded half up. */
  function ComputeTotalDue(amount: nat, rate: nat): int {
    amount + (2 * amount * rate + RATE_SCALE) / (2 * RATE_SCALE)
  }

  /** What the member paid in over all cycles of the group, less what was paid out, if positive. */
  ghost function Savings(w: World, g: int, m: int): nat {
    var contributed := Sum(Reports.MemberCounted(w, g, m, None), LedgerLaw.AmountAt(w));
    var payouts := Sum(Reports.MemberReceived(w, g, m, None), History.PayoutAmount(w));
    if contributed > payouts then contributed - payouts else 0
  }

  ghost function MaxLoan(w: World, g: int, m: int, terms: LoanTerms): nat {
    Savings(w, g, m) * terms.multiplier / MULTIPLIER_SCALE
  }

  predicate Live(l: Loan) {
    l.status == LoanPending || l.status == Approved || l.status == LoanActive
  }

  predicate HasLiveLoan(loans: seq<Loan>, g: int, m: int) {
    exists i :: 0 <= i < |loans| && loans[i].groupId == g && loans[i].memberId == m && Live(loans[i])
  }

  predicate IsLoanOf(loans: seq<Loan>, g: int, i: int) {
    0 <= i < |loans| && loans[i].groupId == g
  }

  datatype Event =
    | Request(w: World, g: int, m: int, terms: LoanTerms, amount: int)
    | Approve(g: int, i: int, role: Role)
    | Reject(g: int, i: int, role: Role)
    | Repay(g: int, i: int, role: Role, amount: int)

  ghost function ErrorOf(b: Book, ev: Event): Option<LoanError> {
    match ev
    case Request(w, g, m, terms, amount) =>
      if !HasGroup(w, g) then Some(GroupMissing)
      else if !terms.allowLoans then Some(LoansDisabled)
      else if !HasActiveCycle(w, g) then Some(CycleNotActive)
      else if amount <= 0 then Some(AmountNotPositive)
      else if HasLiveLoan(b.loans, g, m) then Some(ActiveLoanExists)
      else if amount > MaxLoan(w, g, m, terms) then Some(LoanLimitExceeded)
      else None
    case Repay(g, i, role, amount) =>
      if !Privileged(role) then Some(NotPrivileged)
      else if amount <= 0 then Some(AmountNotPositive)
      else if !IsLoanOf(b.loans, g, i) then Some(LoanMissing)
      else if b.loans[i].status != LoanActive then Some(LoanNotActive)
      else None
    case _ =>
      if !Privileged(ev.role) then Some(NotPrivileged)
      else if !IsLoanOf(b.loans, ev.g, ev.i) then Some(LoanMissing)
      else if b.loans[ev.i].status != LoanPending then Some(LoanNotPending)
      else None
  }

  function Paying(l: Loan, amount: int): Loan {
    var newRepaid := l.amountRepaid + amount;
    l.(amountRepaid := newRepaid, status := if newRepaid >= l.totalDue then Repaid else LoanActive)
  }

  ghost function Step(b: Book, ev: Event): Book {
    if ErrorOf(b, ev).Some? then b else
    match ev
    case Request(w, g, m, terms, amount) =>
      b.(loans := b.loans + [Loan(g, m, amount, terms.rate, ComputeTotalDue(amount, terms.rate), 0, LoanPending)])
    case Approve(_, i, _) => b.(loans := b.loans[i := b.loans[i].(status := LoanActive)])
    case Reject(_, i, _) => b.(loans := b.loans[i := b.loans[i].(status := LoanRejected)])
    case Repay(_, i, _, amount) =>
      Book(b.loans[i := Paying(b.loans[i], amount)], b.repayments + [Repayment(i, amount)])
  }

  ghost function Run(b: Book, evs: seq<Event>): Book {
    if evs == [] then b else Step(Run(b, evs[..|evs| - 1]), evs[|evs| - 1])
  }

  const EMPTY := Book([], [])

  // ---- the service ----

  class LoanService {
    var loans: seq<Loan>
    var repayments: seq<Repayment>

    function Contents(): Book
      reads this
    {
      Book(loans, repayments)
    }

    method MemberSavings(w: World, g: int, m: int) returns (savings: nat)
      ensures savings == Savings(w, g, m)
    {
      var contributed := AddUp(Reports.MemberCounted(w, g, m, None), LedgerLaw.AmountAt(w));
      var payouts := AddUp(Reports.MemberReceived(w, g, m, None), History.PayoutAmount(w));
      savings := if contributed > payouts then contributed - payouts else 0;
    }

    method RequestLoan(w: World, g: int, m: int, terms: LoanTerms, amount: int) returns (error: Option<LoanError>)
      modifies this
      ensures error == ErrorOf(old(Contents()), Request(w, g, m, terms, amount))
      ensures Contents() == Step(old(Contents()), Request(w, g, m, terms, amount))
    {
      if !HasGroup(w, g) { return Some(GroupMissing); }
      if !terms.allowLoans { return Some(LoansDisabled); }
      if !HasActiveCycle(w, g) { return Some(CycleNotActive); }
      if amount <= 0 { return Some(AmountNotPositive); }
      if HasLiveLoan(loans, g, m) { return Some(ActiveLoanExists); }
      var savings := MemberSavings(w, g, m);
      var maxLoan := savings * terms.multiplier / MULTIPLIER_SCALE;
      if amount > maxLoan { return Some(LoanLimitExceeded); }
      loans := loans + [Loan(g, m, amount, terms.rate, ComputeTotalDue(amount, terms.rate), 0, LoanPending)];
      error := None;
    }

    method ApproveLoan(g: int, i: int, role: Role) returns (error: Option<LoanError>)
      modifies this
      ensures error == ErrorOf(old(Contents()), Approve(g, i, role))
      ensures Contents() == Step(old(Contents()), Approve(g, i, role))
    {
      if role != Owner && role != Treasurer { return Some(NotPrivileged); }
      if !(0 <= i < |loans|) || loans[i].groupId != g { return Some(LoanMissing); }
      if loans[i].status != LoanPending { return Some(LoanNotPending); }
      loans := loans[i := loans[i].(status := LoanActive)];
      error := None;
    }

    method RejectLoan(g: int, i: int, role: Role) returns (error: Option<LoanError>)
      modifies this
      ensures error == ErrorOf(old(Contents()), Reject(g, i, role))
      ensures Contents() == Step(old(Contents()), Reject(g, i, role))
    {
      if role != Owner && role != Treasurer { return Some(NotPrivileged); }
      if !(0 <= i < |loans|) || loans[i].groupId != g { return Some(LoanMissing); }
      if loans[i].status != LoanPending { return Some(LoanNotPending); }
      loans := loans[i := loans[i].(status := LoanRejected)];
      error := None;
    }

    method RecordRepayment(g: int, i: int, role: Role, amount: int) returns (error: Option<LoanError>)
      modifies this
      ensures error == ErrorOf(old(Contents()), Repay(g, i, role, amount))
      ensures Contents() == Step(old(Contents()), Repay(g, i, role, amount))
    {
      if role != Owner && role != Treasurer { return Some(NotPrivileged); }
      if amount <= 0 { return Some(AmountNotPositive); }
      if !(0 <= i < |loans|) || loans[i].groupId != g { return Some(LoanMissing); }
      var loan := loans[i];
      if loan.status != LoanActive { return Some(LoanNotActive); }
      var newRepaid := loan.amountRepaid + amount;
      var isFullyRepaid := newRepaid >= loan.totalDue;
      repayments := repayments + [Repayment(i, amount)];
      loans := loans[i := loan.(amountRepaid := newRepaid, status := if isFullyRepaid then Repaid else LoanActive)];
      error := None;
    }

    /** getLoanBook: the live loans of the group and what is still owed on them. */
    method GetLoanBook(w: World, g: int) returns (result: Result<LoanFigures, LoanError>)
      ensures result ==
        if HasGroup(w, g) then Success(LoanFigures(Outstanding(Contents(), g), |LiveLoans(Contents(), g)|))
        else Failure(GroupMissing)
    {
      if !HasGroup(w, g) { return Failure(GroupMissing); }
      var live := LiveLoans(Contents(), g);
      var totalOutstanding := AddUp(live, BalanceOf(Contents()));
      result := Success(LoanFigures(totalOutstanding, |live|));
    }
  }

  datatype LoanFigures = LoanFigures(totalOutstanding: int, activeCount: nat)

  function LiveLoans(b: Book, g: int): set<int> {
    set i | 0 <= i < |b.loans| && b.loans[i].groupId == g && Live(b.loans[i])
  }

  function BalanceOf(b: Book): int -> int {
    i => if 0 <= i < |b.loans| then b.loans[i].totalDue - b.loans[i].amountRepaid else 0
  }

  ghost function Outstanding(b: Book, g: int): int {
    Sum(LiveLoans(b, g), BalanceOf(b))
  }

  // ---- the invariant ----

  function RepaymentsOf(b: Book, i: int): set<int> {
    set j | 0 <= j < |b.repayments| && b.repayments[j].loan == i
  }

  function RepaidAt(b: Book): int -> int {
    j => if 0 <= j < |b.repayments| then b.repayments[j].amount else 0
  }

  ghost predicate OneLiveLoan(loans: seq<Loan>) {
    forall i, j ::
      0 <= i < j < |loans| && loans[i].groupId == loans[j].groupId && loans[i].memberId == loans[j].memberId ==>
      !(Live(loans[i]) && Live(loans[j]))
  }

  /** j is the loan's last repayment, and the one that reached the total. */
  predicate CrossedWith(b: Book, i: int, j: int)
    requires 0 <= i < |b.loans|
  {
    && j in RepaymentsOf(b, i) && (forall k :: k in RepaymentsOf(b, i) ==> k <= j)
    && b.loans[i].amountRepaid - b.repayments[j].amount < b.loans[i].totalDue <= b.loans[i].amountRepaid
  }

  ghost predicate LoanSound(b: Book, i: int)
    requires 0 <= i < |b.loans|
  {
    var l := b.loans[i];
    && 0 < l.amount <= l.totalDue == ComputeTotalDue(l.amount, l.rate)
    && l.amountRepaid == Sum(RepaymentsOf(b, i), RepaidAt(b))
    && l.status != Approved && l.status != Defaulted
    && (l.status == LoanPending || l.status == LoanRejected ==> RepaymentsOf(b, i) == {})
    && (l.status == LoanActive ==> l.amountRepaid < l.totalDue)
    && (l.status == Repaid ==> exists j :: CrossedWith(b, i, j))
  }

  ghost predicate Inv(b: Book) {
    && OneLiveLoan(b.loans)
    && (forall i :: 0 <= i < |b.loans| ==> LoanSound(b, i))
    && (forall j :: 0 <= j < |b.repayments| ==> 0 <= b.repayments[j].loan < |b.loans| && b.repayments[j].amount >= 1)
  }

  lemma TotalDueFacts(amount: nat, rate: nat)
    ensures ComputeTotalDue(amount, rate) >= amount
  {
    MulMonotone(0, 2 * amount, rate);
  }

  /** A call that leaves the loan and its repayments alone leaves it sound. */
  lemma UntouchedLoan(b: Book, b': Book, i: int)
    requires 0 <= i < |b.loans| <= |b'.loans| && b'.loans[i] == b.loans[i] && LoanSound(b, i)
    requires b.repayments <= b'.repayments && RepaymentsOf(b', i) == RepaymentsOf(b, i)
    ensures LoanSound(b', i)
  {
    SumCongruent(RepaymentsOf(b, i), RepaidAt(b), RepaidAt(b'));
    if b.loans[i].status == Repaid {
      var j :| CrossedWith(b, i, j);
      assert CrossedWith(b', i, j);
    }
  }

  lemma PaidLoan(b: Book, ev: Event)
    requires Inv(b) && ev.Repay? && ErrorOf(b, ev).None?
    ensures LoanSound(Step(b, ev), ev.i)
  {
    var b', n, i := Step(b, ev), |b.repayments|, ev.i;
    assert LoanSound(b, i);
    assert RepaymentsOf(b', i) == RepaymentsOf(b, i) + {n};
    SumRemove(RepaymentsOf(b', i), RepaidAt(b'), n);
    assert RepaymentsOf(b', i) - {n} == RepaymentsOf(b, i);
    SumCongruent(RepaymentsOf(b, i), RepaidAt(b), RepaidAt(b'));
    if b'.loans[i].status == Repaid { assert CrossedWith(b', i, n); }
  }

  lemma RepayKeepsInv(b: Book, ev: Event)
    requires Inv(b) && ev.Repay? && ErrorOf(b, ev).None?
    ensures Inv(Step(b, ev))
  {
    var b' := Step(b, ev);
    PaidLoan(b, ev);
    forall i | 0 <= i < |b'.loans| ensures LoanSound(b', i) {
      if i != ev.i {
        assert RepaymentsOf(b', i) == RepaymentsOf(b, i);
        UntouchedLoan(b, b', i);
      }
    }
  }

  lemma RequestKeepsInv(b: Book, ev: Event)
    requires Inv(b) && ev.Request? && ErrorOf(b, ev).None?
    ensures Inv(Step(b, ev))
  {
    var b', n := Step(b, ev), |b.loans|;
    TotalDueFacts(ev.amount, ev.terms.rate);
    assert RepaymentsOf(b', n) == {};
    assert LoanSound(b', n);
    forall i | 0 <= i < n ensures LoanSound(b', i) {
      assert RepaymentsOf(b', i) == RepaymentsOf(b, i);
      UntouchedLoan(b, b', i);
    }
    assert OneLiveLoan(b'.loans);
  }

  lemma DecisionKeepsInv(b: Book, ev: Event)
    requires Inv(b) && (ev.Approve? || ev.Reject?) && ErrorOf(b, ev).None?
    ensures Inv(Step(b, ev))
  {
    var b' := Step(b, ev);
    forall i | 0 <= i < |b'.loans| ensures LoanSound(b', i) {
      assert LoanSound(b, i);
      assert RepaymentsOf(b', i) == RepaymentsOf(b, i);
      if i != ev.i { UntouchedLoan(b, b', i); }
    }
  }

  lemma StepKeepsInv(b: Book, ev: Event)
    requires Inv(b)
    ensures Inv(Step(b, ev))
  {
    hide Inv;
    if ErrorOf(b, ev).None? {
      if ev.Request? {
        RequestKeepsInv(b, ev);
      } else if ev.Repay? {
        RepayKeepsInv(b, ev);
      } else {
        DecisionKeepsInv(b, ev);
      }
    }
  }

  /** In every reachable state, whatever the rest of the database did in between: a member has at most one live
      loan per group, the amount repaid is the sum of the repayments, an active loan is not yet covered, and a
      repaid one was covered by its last repayment and by none before. */
  lemma {:induction false} RunKeepsInv(evs: seq<Event>)
    ensures Inv(Run(EMPTY, evs))
  {
    if evs != [] {
      RunKeepsInv(evs[..|evs| - 1]);
      StepKeepsInv(Run(EMPTY, evs[..|evs| - 1]), evs[|evs| - 1]);
    }
  }

  // ---- consequences ----

  /** A loan takes at most as many repayments as it has ngwe to pay back: its remaining balance is a measure. */
  lemma RepaymentsAreBounded(b: Book, i: int)
    requires Inv(b) && 0 <= i < |b.loans|
    ensures |RepaymentsOf(b, i)| <= b.loans[i].totalDue
  {
    assert LoanSound(b, i);
    if b.loans[i].status == Repaid {
      var j :| CrossedWith(b, i, j);
      var earlier := RepaymentsOf(b, i) - {j};
      SumRemove(RepaymentsOf(b, i), RepaidAt(b), j);
      AtLeastOneEach(b, earlier);
    } else {
      AtLeastOneEach(b, RepaymentsOf(b, i));
    }
  }

  lemma AtLeastOneEach(b: Book, s: set<int>)
    requires Inv(b) && forall j :: j in s ==> 0 <= j < |b.repayments|
    ensures |s| <= Sum(s, RepaidAt(b))
  {
    var none: set<int> := {};
    assert none <= s;
    forall j | j in s ensures Constant(1)(j) <= RepaidAt(b)(j) {}
    SumConstant(s, Constant(1), 1);
    SumDrops(s, RepaidAt(b), Constant(1), none);
  }

  function AllLoans(b: Book): set<int> { Indices(|b.loans|) }

  function AllRepayments(b: Book): set<int> { Indices(|b.repayments|) }

  function RepaidOn(b: Book): int -> int {
    i => if 0 <= i < |b.loans| then b.loans[i].amountRepaid else 0
  }

  function LoanAt(b: Book): int -> int {
    j => if 0 <= j < |b.repayments| then b.repayments[j].loan else -1
  }

  /** Conservation: the amounts repaid on all loans are together exactly the repayments recorded. */
  lemma RepaymentsConserved(b: Book)
    requires Inv(b)
    ensures Sum(AllLoans(b), RepaidOn(b)) == Sum(AllRepayments(b), RepaidAt(b))
  {
    var split := ClassSum(AllRepayments(b), LoanAt(b), RepaidAt(b));
    forall i | i in AllLoans(b) ensures RepaidOn(b)(i) == split(i) {
      assert LoanSound(b, i);
      assert ClassOf(AllRepayments(b), LoanAt(b), i) == RepaymentsOf(b, i);
    }
    SumCongruent(AllLoans(b), RepaidOn(b), split);
    SumByClass(AllRepayments(b), LoanAt(b), RepaidAt(b), AllLoans(b));
    assert InClasses(AllRepayments(b), LoanAt(b), AllLoans(b)) == AllRepayments(b);
  }

  function BorrowersOf(b: Book, g: int): set<int> {
    set i | i in LiveLoans(b, g) :: b.loans[i].memberId
  }

  /** The loan book never shows a live loan with nothing left to pay, and counts every borrower once. */
  lemma LoanBookFigures(b: Book, g: int)
    requires Inv(b)
    ensures Outstanding(b, g) >= |LiveLoans(b, g)| == |BorrowersOf(b, g)|
  {
    var live, none: set<int> := LiveLoans(b, g), {};
    assert none <= live;
    forall i | i in live ensures Constant(1)(i) <= BalanceOf(b)(i) {
      assert LoanSound(b, i);
    }
    SumConstant(live, Constant(1), 1);
    SumDrops(live, BalanceOf(b), Constant(1), none);
    BorrowersDiffer(b, g, live);
    assert BorrowersOf(b, g) == (set i | i in live :: b.loans[i].memberId);
  }

  lemma {:induction false} BorrowersDiffer(b: Book, g: int, live: set<int>)
    requires OneLiveLoan(b.loans) && live <= LiveLoans(b, g)
    ensures |set i | i in live :: b.loans[i].memberId| == |live|
    decreases |live|
  {
    var members := set i | i in live :: b.loans[i].memberId;
    if live != {} {
      var i := SomeElement(live);
      var rest := live - {i};
      BorrowersDiffer(b, g, rest);
      var others := set j | j in rest :: b.loans[j].memberId;
      assert b.loans[i].memberId !in others;
      assert members == others + {b.loans[i].memberId};
    } else {
      assert members == {};
    }
  }

  /** A granted request stays within the limit, and a member with a live loan or without savings gets none. */
  lemma RequestLimits(b: Book, ev: Event)
    requires ev.Request? && ErrorOf(b, ev).None?
    ensures 0 < ev.amount && ev.amount * MULTIPLIER_SCALE <= Savings(ev.w, ev.g, ev.m) * ev.terms.multiplier
    ensures Savings(ev.w, ev.g, ev.m) > 0 && Savings(ev.w, ev.g, ev.m) == Reports.NetPosition(ev.w, ev.g, ev.m, None)
    ensures !HasLiveLoan(b.loans, ev.g, ev.m) && HasLiveLoan(Step(b, ev).loans, ev.g, ev.m)
  {
    var product := Savings(ev.w, ev.g, ev.m) * ev.terms.multiplier;
    DivMod(product, MULTIPLIER_SCALE);
    assert Savings(ev.w, ev.g, ev.m) == 0 ==> product == 0;
    assert Live(Step(b, ev).loans[|b.loans|]);
  }

  /** The interest is the exact one, rounded to the nearest ngwe with halves going up. */
  lemma InterestIsNearest(amount: nat, rate: nat)
    ensures var interest := ComputeTotalDue(amount, rate) - amount;
      2 * amount * rate - RATE_SCALE < 2 * RATE_SCALE * interest <= 2 * amount * rate + RATE_SCALE
  {
    MulMonotone(0, 2 * amount, rate);
    DivMod(2 * amount * rate + RATE_SCALE, 2 * RATE_SCALE);
  }

  /** The loan book after any run of loan calls, whatever the rest of the database did in between: what it shows
      as outstanding is at least one ngwe per live loan, every live loan has a borrower of its own, no loan has
      more repayments than ngwe due, and nothing repaid is lost or invented. */
  lemma LoanBookPromises(evs: seq<Event>, g: int)
    ensures var b := Run(EMPTY, evs);
      && Outstanding(b, g) >= |LiveLoans(b, g)| == |BorrowersOf(b, g)|
      && (forall i :: 0 <= i < |b.loans| ==> |RepaymentsOf(b, i)| <= b.loans[i].totalDue)
      && Sum(AllLoans(b), RepaidOn(b)) == Sum(AllRepayments(b), RepaidAt(b))
  {
    var b := Run(EMPTY, evs);
    RunKeepsInv(evs);
    hide Inv, Run;
    LoanBookFigures(b, g);
    RepaymentsConserved(b);
    forall i | 0 <= i < |b.loans| ensures |RepaymentsOf(b, i)| <= b.loans[i].totalDue { RepaymentsAreBounded(b, i); }
  }

  // ---- the calls, in rows and numbers ----

  /** Neither repaid, nor rejected, nor given up. */
  predicate Running(l: Loan) {
    l.status != Repaid && l.status != LoanRejected && l.status != Defaulted
  }

  predicate Borrows(loans: seq<Loan>, g: int, m: int) {
    exists i :: 0 <= i < |loans| && loans[i].groupId == g && loans[i].memberId == m && Running(loans[i])
  }

  predicate CycleUnderWay(w: World, g: int) {
    exists c :: 0 <= c < |w.cycles| && w.cycles[c].groupId == g && w.cycles[c].status != CycleCompleted
  }

  /** The amount, in hundredths, is at most the member's net position times the multiplier. */
  ghost predicate WithinLimit(ev: Event)
    requires ev.Request?
  {
    var net := Reports.NetPosition(ev.w, ev.g, ev.m, None);
    net > 0 && ev.amount * 100 <= net * ev.terms.multiplier
  }

  /** When a request is granted, and otherwise the first of the reasons against it. */
  lemma RequestVerdict(b: Book, ev: Event)
    requires ev.Request?
    ensures ErrorOf(b, ev) ==
      if !(0 <= ev.g < |ev.w.groups|) then Some(GroupMissing)
      else if !ev.terms.allowLoans then Some(LoansDisabled)
      else if !CycleUnderWay(ev.w, ev.g) then Some(CycleNotActive)
      else if ev.amount <= 0 then Some(AmountNotPositive)
      else if Borrows(b.loans, ev.g, ev.m) then Some(ActiveLoanExists)
      else if !WithinLimit(ev) then Some(LoanLimitExceeded)
      else None
  {
    hide WithinLimit;
    if ev.amount > 0 { LimitIff(ev); }
    assert HasActiveCycle(ev.w, ev.g) <==> CycleUnderWay(ev.w, ev.g) by {
      if c :| 0 <= c < |ev.w.cycles| && ev.w.cycles[c].groupId == ev.g && ev.w.cycles[c].status != CycleCompleted {
        assert Active(ev.w, c);
      }
    }
    LiveIsRunning(b.loans);
  }

  lemma LiveIsRunning(loans: seq<Loan>)
    ensures forall l :: Live(l) <==> Running(l)
    ensures forall g, m :: HasLiveLoan(loans, g, m) <==> Borrows(loans, g, m)
  {
  }

  lemma LimitIff(ev: Event)
    requires ev.Request? && ev.amount > 0
    ensures ev.amount <= MaxLoan(ev.w, ev.g, ev.m, ev.terms) <==> WithinLimit(ev)
  {
    var savings, net := Savings(ev.w, ev.g, ev.m), Reports.NetPosition(ev.w, ev.g, ev.m, None);
    assert savings == if net > 0 then net else 0;
    hide Savings, Reports.NetPosition;
    Hundredths(savings * ev.terms.multiplier, ev.amount);
  }

  lemma Hundredths(product: nat, amount: nat)
    ensures amount <= product / 100 <==> amount * 100 <= product
  {
  }

  /** due is the principal plus the interest of rate ten-thousandths, to the nearest ngwe, halves up. */
  predicate IsTotalDue(due: int, amount: int, rate: nat) {
    2 * amount * rate - 10_000 < 20_000 * (due - amount) <= 2 * amount * rate + 10_000
  }

  lemma RequestEffect(b: Book, ev: Event)
    requires ev.Request? && ErrorOf(b, ev).None?
    ensures exists due ::
      IsTotalDue(due, ev.amount, ev.terms.rate)
      && Step(b, ev) == b.(loans := b.loans + [Loan(ev.g, ev.m, ev.amount, ev.terms.rate, due, 0, LoanPending)])
  {
    InterestIsNearest(ev.amount, ev.terms.rate);
    assert IsTotalDue(ComputeTotalDue(ev.amount, ev.terms.rate), ev.amount, ev.terms.rate);
  }

  /** Owners and treasurers decide on pending loans of their group, and the decision sets the status alone. */
  lemma DecisionLaw(b: Book, ev: Event)
    requires ev.Approve? || ev.Reject?
    ensures var found := 0 <= ev.i < |b.loans| && b.loans[ev.i].groupId == ev.g;
      && ErrorOf(b, ev) == (
        if ev.role == Member then Some(NotPrivileged)
        else if !found then Some(LoanMissing)
        else if b.loans[ev.i].status != LoanPending then Some(LoanNotPending)
        else None)
      && (ErrorOf(b, ev).None? ==> Step(b, ev) == b.(loans := b.loans[ev.i :=
            b.loans[ev.i].(status := if ev.Approve? then LoanActive else LoanRejected)]))
  {
  }

  /** A repayment is added to an active loan, which it closes once the total due is reached. */
  lemma RepaymentLaw(b: Book, ev: Event)
    requires ev.Repay?
    ensures var found := 0 <= ev.i < |b.loans| && b.loans[ev.i].groupId == ev.g;
      && ErrorOf(b, ev) == (
        if ev.role == Member then Some(NotPrivileged)
        else if ev.amount <= 0 then Some(AmountNotPositive)
        else if !found then Some(LoanMissing)
        else if b.loans[ev.i].status != LoanActive then Some(LoanNotActive)
        else None)
      && (ErrorOf(b, ev).None? ==>
          var l := b.loans[ev.i];
          Step(b, ev) == Book(
            b.loans[ev.i := l.(amountRepaid := l.amountRepaid + ev.amount,
                               status := if l.amountRepaid + ev.amount < l.totalDue then LoanActive else Repaid)],
            b.repayments + [Repayment(ev.i, ev.amount)]))
  {
  }

  function Owed(b: Book): int -> int {
    i => if 0 <= i < |b.loans| then b.loans[i].totalDue - b.loans[i].amountRepaid else 0
  }

  /** The loan book counts the running loans of the group, and adds up what is still owed on them. */
  lemma LoanBookLaw(b: Book, g: int)
    ensures var running := set i | 0 <= i < |b.loans| && b.loans[i].groupId == g && Running(b.loans[i]);
      LiveLoans(b, g) == running && Outstanding(b, g) == Sum(running, Owed(b))
  {
    LiveIsRunning(b.loans);
    var running := set i | 0 <= i < |b.loans| && b.loans[i].groupId == g && Running(b.loans[i]);
    assert LiveLoans(b, g) == running;
    SumCongruent(running, BalanceOf(b), Owed(b));
  }
}
