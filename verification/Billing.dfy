/** Invoices, payment proofs and the groups they pay for: backend/src/modules/invoices/invoices.service.ts,
    payment-proofs/payment-proofs.service.ts and createGroupFromToken of groups/groups.service.ts. */
module Billing {
  import opened Common

  // ---- data ----

  /** cancelled exists in the schema; no service sets it. */
  datatype InvoiceStatus = InvoicePending | InvoicePaid | InvoiceCancelled
  datatype Invoice = Invoice(phone: int, status: InvoiceStatus, paidAt: Option<int>)
  datatype ProofStatus = ProofPending | ProofApproved | ProofRejected
  datatype Proof = Proof(invoice: int, cash: bool, status: ProofStatus, reviewedAt: Option<int>)

  /** groups lists, for each group in order of creation, the invoice it was created from. */
  datatype Ledger = Ledger(invoices: seq<Invoice>, proofs: seq<Proof>, groups: seq<int>)

  /** The person asking: the platform admin sees every invoice, others those of their own phone number. */
  datatype Requester = Requester(superAdmin: bool, phone: Option<int>)

  datatype BillingError =
    | StorageNotConfigured | InvoiceMissing | AccessDenied | InvoiceNotPending | UnsupportedFile
    | ProofMissing | AlreadyReviewed | ReasonRequired | InvoiceNotPaid | InvoiceAlreadyLinked | PhoneMismatch

  datatype Event =
    | Issue(phone: int)
    | Upload(i: int, who: Requester, configured: bool, supported: bool)
    | Approve(p: int, now: int)
    | Reject(p: int, hasReason: bool, now: int)
    | Cash(i: int, now: int)
    | CreateGroup(i: int, phone: int)

  // ---- specification ----

  predicate HasInvoice(b: Ledger, i: int) { 0 <= i < |b.invoices| }

  predicate HasProof(b: Ledger, p: int) { 0 <= p < |b.proofs| }

  predicate Accessible(inv: Invoice, who: Requester) {
    who.superAdmin || who.phone == Some(inv.phone)
  }

  function ErrorOf(b: Ledger, ev: Event): Option<BillingError> {
    match ev
    case Issue(_) => None
    case Upload(i, who, configured, supported) =>
      if !configured then Some(StorageNotConfigured)
      else if !HasInvoice(b, i) then Some(InvoiceMissing)
      else if !Accessible(b.invoices[i], who) then Some(AccessDenied)
      else if b.invoices[i].status != InvoicePending then Some(InvoiceNotPending)
      else if !supported then Some(UnsupportedFile)
      else None
    case Approve(p, _) =>
      if !HasProof(b, p) then Some(ProofMissing)
      else if b.proofs[p].status != ProofPending then Some(AlreadyReviewed)
      else if !HasInvoice(b, b.proofs[p].invoice) || b.invoices[b.proofs[p].invoice].status != InvoicePending
        then Some(InvoiceNotPending)
      else None
    case Reject(p, hasReason, _) =>
      if !hasReason then Some(ReasonRequired)
      else if !HasProof(b, p) then Some(ProofMissing)
      else if b.proofs[p].status != ProofPending then Some(AlreadyReviewed)
      else None
    case Cash(i, _) =>
      if !HasInvoice(b, i) then Some(InvoiceMissing)
      else if b.invoices[i].status != InvoicePending then Some(InvoiceNotPending)
      else None
    case CreateGroup(i, phone) =>
      if !HasInvoice(b, i) then Some(InvoiceMissing)
      else if b.invoices[i].status != InvoicePaid then Some(InvoiceNotPaid)
      else if i in b.groups then Some(InvoiceAlreadyLinked)
      else if b.invoices[i].phone != phone then Some(PhoneMismatch)
      else None
  }

  function Superseded(proofs: seq<Proof>, i: int, now: int): (r: seq<Proof>)
    ensures |r| == |proofs|
  {
    seq(|proofs|, p requires 0 <= p < |proofs| =>
      if proofs[p].invoice == i && proofs[p].status == ProofPending
      then proofs[p].(status := ProofRejected, reviewedAt := Some(now))
      else proofs[p])
  }

  function MarkPaid(invoices: seq<Invoice>, i: int, now: int): seq<Invoice>
    requires 0 <= i < |invoices|
  {
    invoices[i := invoices[i].(status := InvoicePaid, paidAt := Some(now))]
  }

  function Reviewed(proofs: seq<Proof>, p: int, status: ProofStatus, now: int): seq<Proof>
    requires 0 <= p < |proofs|
  {
    proofs[p := proofs[p].(status := status, reviewedAt := Some(now))]
  }

  function Step(b: Ledger, ev: Event): Ledger {
    if ErrorOf(b, ev).Some? then b else
    match ev
    case Issue(phone) => b.(invoices := b.invoices + [Invoice(phone, InvoicePending, None)])
    case Upload(i, _, _, _) => b.(proofs := b.proofs + [Proof(i, false, ProofPending, None)])
    case Approve(p, now) =>
      b.(invoices := MarkPaid(b.invoices, b.proofs[p].invoice, now),
         proofs := Reviewed(b.proofs, p, ProofApproved, now))
    case Reject(p, _, now) => b.(proofs := Reviewed(b.proofs, p, ProofRejected, now))
    case Cash(i, now) =>
      b.(invoices := MarkPaid(b.invoices, i, now),
         proofs := Superseded(b.proofs, i, now) + [Proof(i, true, ProofApproved, Some(now))])
    case CreateGroup(i, _) => b.(groups := b.groups + [i])
  }

  function Run(b: Ledger, evs: seq<Event>): Ledger {
    if evs == [] then b else Step(Run(b, evs[..|evs| - 1]), evs[|evs| - 1])
  }

  // ---- the services ----

  class BillingService {
    var invoices: seq<Invoice>
    var proofs: seq<Proof>
    var groups: seq<int>

    function Contents(): Ledger
      reads this
    {
      Ledger(invoices, proofs, groups)
    }

    method CreateInvoice(phone: int)
      modifies this
      ensures Contents() == Step(old(Contents()), Issue(phone))
    {
      invoices := invoices + [Invoice(phone, InvoicePending, None)];
    }

    method UploadPop(i: int, who: Requester, configured: bool, supported: bool) returns (error: Option<BillingError>)
      modifies this
      ensures error == ErrorOf(old(Contents()), Upload(i, who, configured, supported))
      ensures Contents() == Step(old(Contents()), Upload(i, who, configured, supported))
    {
      if !configured { return Some(StorageNotConfigured); }
      if !(0 <= i < |invoices|) { return Some(InvoiceMissing); }
      if !who.superAdmin && (who.phone.None? || who.phone.value != invoices[i].phone) { return Some(AccessDenied); }
      if invoices[i].status != InvoicePending { return Some(InvoiceNotPending); }
      if !supported { return Some(UnsupportedFile); }
      proofs := proofs + [Proof(i, false, ProofPending, None)];
      error := None;
    }

    method ApprovePop(p: int, now: int) returns (error: Option<BillingError>)
      modifies this
      ensures error == ErrorOf(old(Contents()), Approve(p, now))
      ensures Contents() == Step(old(Contents()), Approve(p, now))
    {
      if !(0 <= p < |proofs|) { return Some(ProofMissing); }
      var pop := proofs[p];
      if pop.status != ProofPending { return Some(AlreadyReviewed); }
      if !(0 <= pop.invoice < |invoices|) || invoices[pop.invoice].status != InvoicePending {
        return Some(InvoiceNotPending);
      }
      proofs := proofs[p := pop.(status := ProofApproved, reviewedAt := Some(now))];
      invoices := invoices[pop.invoice := invoices[pop.invoice].(status := InvoicePaid, paidAt := Some(now))];
      error := None;
    }

    method RejectPop(p: int, hasReason: bool, now: int) returns (error: Option<BillingError>)
      modifies this
      ensures error == ErrorOf(old(Contents()), Reject(p, hasReason, now))
      ensures Contents() == Step(old(Contents()), Reject(p, hasReason, now))
    {
      if !hasReason { return Some(ReasonRequired); }
      if !(0 <= p < |proofs|) { return Some(ProofMissing); }
      if proofs[p].status != ProofPending { return Some(AlreadyReviewed); }
      proofs := proofs[p := proofs[p].(status := ProofRejected, reviewedAt := Some(now))];
      error := None;
    }

    /** The updateMany of recordCashPayment. */
    method RejectPending(i: int, now: int)
      modifies this`proofs
      ensures proofs == Superseded(old(proofs), i, now)
    {
      for p := 0 to |proofs|
        modifies this`proofs
        invariant |proofs| == |old(proofs)|
        invariant forall q :: 0 <= q < |proofs| ==>
          proofs[q] == if q < p then Superseded(old(proofs), i, now)[q] else old(proofs)[q]
      {
        if proofs[p].invoice == i && proofs[p].status == ProofPending {
          proofs := proofs[p := proofs[p].(status := ProofRejected, reviewedAt := Some(now))];
        }
      }
    }

    method RecordCashPayment(i: int, now: int) returns (error: Option<BillingError>)
      modifies this
      ensures error == ErrorOf(old(Contents()), Cash(i, now))
      ensures Contents() == Step(old(Contents()), Cash(i, now))
    {
      if !(0 <= i < |invoices|) { return Some(InvoiceMissing); }
      if invoices[i].status != InvoicePending { return Some(InvoiceNotPending); }
      RejectPending(i, now);
      proofs := proofs + [Proof(i, true, ProofApproved, Some(now))];
      invoices := invoices[i := invoices[i].(status := InvoicePaid, paidAt := Some(now))];
      error := None;
    }

    method CreateGroupFromToken(i: int, phone: int) returns (error: Option<BillingError>)
      modifies this
      ensures error == ErrorOf(old(Contents()), CreateGroup(i, phone))
      ensures Contents() == Step(old(Contents()), CreateGroup(i, phone))
    {
      if !(0 <= i < |invoices|) { return Some(InvoiceMissing); }
      if invoices[i].status != InvoicePaid { return Some(InvoiceNotPaid); }
      if i in groups { return Some(InvoiceAlreadyLinked); }
      if invoices[i].phone != phone { return Some(PhoneMismatch); }
      groups := groups + [i];
      error := None;
    }
  }

  // ---- the invariant ----

  function ApprovedProofs(b: Ledger, i: int): set<int> {
    set p | 0 <= p < |b.proofs| && b.proofs[p].invoice == i && b.proofs[p].status == ProofApproved
  }

  /** The invoice is paid exactly when one of its proofs is approved, never two; it is never cancelled. */
  ghost predicate PaidIffApproved(b: Ledger, i: int)
    requires HasInvoice(b, i)
  {
    && |ApprovedProofs(b, i)| == (if b.invoices[i].status == InvoicePaid then 1 else 0)
    && b.invoices[i].status != InvoiceCancelled
    && (b.invoices[i].paidAt.Some? <==> b.invoices[i].status == InvoicePaid)
  }

  /** Once paid in cash, an invoice has no proof left to review. */
  ghost predicate CashSettles(b: Ledger) {
    forall p, q ::
      0 <= p < |b.proofs| && 0 <= q < |b.proofs| && b.proofs[p].cash && b.proofs[q].invoice == b.proofs[p].invoice ==>
      b.proofs[q].status != ProofPending
  }

  /** Proofs belong to invoices, and cash proofs are approved. */
  ghost predicate ProofsSound(b: Ledger) {
    forall p :: 0 <= p < |b.proofs| ==>
      HasInvoice(b, b.proofs[p].invoice) && (b.proofs[p].cash ==> b.proofs[p].status == ProofApproved)
  }

  ghost predicate Inv(b: Ledger) {
    && (forall i :: 0 <= i < |b.invoices| ==> PaidIffApproved(b, i))
    && ProofsSound(b)
    && CashSettles(b)
    && Distinct(b.groups) && (forall i :: i in b.groups ==> HasInvoice(b, i) && b.invoices[i].status == InvoicePaid)
  }

  /** How an accepted call changes the approved proofs of an invoice. */
  lemma ApprovedAfter(b: Ledger, ev: Event, i: int)
    requires Inv(b) && ErrorOf(b, ev).None?
    ensures ApprovedProofs(Step(b, ev), i) == ApprovedProofs(b, i) +
      (if ev.Approve? && b.proofs[ev.p].invoice == i then {ev.p}
       else if ev.Cash? && ev.i == i then {|b.proofs|}
       else {})
  {
  }

  lemma StepKeepsPaid(b: Ledger, ev: Event, i: int)
    requires Inv(b) && ErrorOf(b, ev).None? && HasInvoice(Step(b, ev), i)
    ensures PaidIffApproved(Step(b, ev), i)
  {
    hide ApprovedProofs, ProofsSound, CashSettles, Superseded;
    ApprovedAfter(b, ev, i);
    if HasInvoice(b, i) { assert PaidIffApproved(b, i); } else { NoProofsYet(b, i); }
  }

  lemma NoProofsYet(b: Ledger, i: int)
    requires ProofsSound(b) && !HasInvoice(b, i)
    ensures ApprovedProofs(b, i) == {}
  {
  }

  lemma StepKeepsInv(b: Ledger, ev: Event)
    requires Inv(b)
    ensures Inv(Step(b, ev))
  {
    if ErrorOf(b, ev).None? {
      forall i | HasInvoice(Step(b, ev), i) ensures PaidIffApproved(Step(b, ev), i) { StepKeepsPaid(b, ev, i); }
      StepKeepsProofs(b, ev);
      StepKeepsGroups(b, ev);
    }
  }

  lemma StepKeepsProofs(b: Ledger, ev: Event)
    requires Inv(b) && ErrorOf(b, ev).None?
    ensures var b' := Step(b, ev);
      CashSettles(b') && ProofsSound(b')
  {
    var b' := Step(b, ev);
    if ev.Upload? || ev.Cash? {
      forall p | 0 <= p < |b.proofs| && b.proofs[p].cash ensures b.proofs[p].invoice != ev.i {
        assert p in ApprovedProofs(b, b.proofs[p].invoice);
        assert PaidIffApproved(b, b.proofs[p].invoice);
      }
    }
  }

  lemma StepKeepsGroups(b: Ledger, ev: Event)
    requires Inv(b) && ErrorOf(b, ev).None?
    ensures var b' := Step(b, ev);
      Distinct(b'.groups) && forall i :: i in b'.groups ==> HasInvoice(b', i) && b'.invoices[i].status == InvoicePaid
  {
  }

  /** The billing starts from pending invoices without approved proofs. */
  ghost predicate Unreviewed(b: Ledger) {
    && (forall i :: 0 <= i < |b.invoices| ==> b.invoices[i].status == InvoicePending && b.invoices[i].paidAt.None?)
    && (forall p :: 0 <= p < |b.proofs| ==>
        HasInvoice(b, b.proofs[p].invoice) && !b.proofs[p].cash && b.proofs[p].status != ProofApproved)
    && b.groups == []
  }

  /** Over all runs: an invoice is paid exactly when exactly one of its proofs is approved, one paid in cash has
      no pending proof, and each invoice has at most one group, and only once it is paid. */
  lemma {:induction false} RunKeepsInv(b: Ledger, evs: seq<Event>)
    requires Unreviewed(b)
    ensures Inv(Run(b, evs))
  {
    if evs == [] {
      forall i | 0 <= i < |b.invoices| ensures PaidIffApproved(b, i) { assert ApprovedProofs(b, i) == {}; }
    } else {
      RunKeepsInv(b, evs[..|evs| - 1]);
      StepKeepsInv(Run(b, evs[..|evs| - 1]), evs[|evs| - 1]);
    }
  }

  // ---- what is final ----

  /** b' is a possible future of b: a paid invoice stays as it is, a reviewed proof too, and groups stay linked. */
  ghost predicate Later(b: Ledger, b': Ledger) {
    && |b.invoices| <= |b'.invoices| && |b.proofs| <= |b'.proofs| && b.groups <= b'.groups
    && (forall i :: 0 <= i < |b.invoices| && b.invoices[i].status == InvoicePaid ==> b'.invoices[i] == b.invoices[i])
    && (forall p :: 0 <= p < |b.proofs| && b.proofs[p].status != ProofPending ==> b'.proofs[p] == b.proofs[p])
  }

  lemma StepIsLater(b: Ledger, ev: Event)
    ensures Later(b, Step(b, ev))
  {
  }

  lemma {:induction false} RunIsLater(b: Ledger, evs: seq<Event>)
    ensures Later(b, Run(b, evs))
  {
    if evs != [] {
      RunIsLater(b, evs[..|evs| - 1]);
      StepIsLater(Run(b, evs[..|evs| - 1]), evs[|evs| - 1]);
    }
  }

  /** Paid is final: the invoice never changes again, and no later cash payment or approval of one of its
      proofs succeeds. */
  lemma {:induction false} PaidIsFinal(b: Ledger, evs: seq<Event>, i: int, now: int)
    requires HasInvoice(b, i) && b.invoices[i].status == InvoicePaid
    ensures var b' := Run(b, evs);
      && HasInvoice(b', i) && b'.invoices[i] == b.invoices[i]
      && ErrorOf(b', Cash(i, now)) == Some(InvoiceNotPending)
      && forall p :: HasProof(b', p) && b'.proofs[p].invoice == i ==> ErrorOf(b', Approve(p, now)).Some?
  {
    RunIsLater(b, evs);
  }

  /** One invoice, one group: whoever used the link once finds it spent for ever. */
  lemma {:induction false} OneGroupPerInvoice(b: Ledger, first: Event, evs: seq<Event>, again: Event)
    requires first.CreateGroup? && ErrorOf(b, first).None? && again.CreateGroup? && again.i == first.i
    ensures ErrorOf(Run(Step(b, first), evs), again) == Some(InvoiceAlreadyLinked)
  {
    var b1 := Step(b, first);
    RunIsLater(b1, evs);
    assert b1.groups[|b.groups|] == first.i;
    assert first.i in Run(b1, evs).groups;
  }

  // ---- the calls, in rows and numbers ----

  /** Proofs are taken for pending invoices, from the platform's admin or from the invoice's own phone number. */
  lemma UploadLaw(b: Ledger, ev: Event)
    requires ev.Upload?
    ensures var found := 0 <= ev.i < |b.invoices|;
      && ErrorOf(b, ev) == (
        if !ev.configured then Some(StorageNotConfigured)
        else if !found then Some(InvoiceMissing)
        else if !ev.who.superAdmin && ev.who.phone != Some(b.invoices[ev.i].phone) then Some(AccessDenied)
        else if b.invoices[ev.i].status != InvoicePending then Some(InvoiceNotPending)
        else if !ev.supported then Some(UnsupportedFile)
        else None)
      && (ErrorOf(b, ev).None? ==> Step(b, ev) == b.(proofs := b.proofs + [Proof(ev.i, false, ProofPending, None)]))
  {
  }

  /** One pending proof of a pending invoice pays it; no other row changes. */
  lemma ApprovalLaw(b: Ledger, ev: Event)
    requires ev.Approve?
    ensures var found := 0 <= ev.p < |b.proofs|;
      && ErrorOf(b, ev) == (
        if !found then Some(ProofMissing)
        else if b.proofs[ev.p].status != ProofPending then Some(AlreadyReviewed)
        else if !(0 <= b.proofs[ev.p].invoice < |b.invoices|) then Some(InvoiceNotPending)
        else if b.invoices[b.proofs[ev.p].invoice].status != InvoicePending then Some(InvoiceNotPending)
        else None)
      && (ErrorOf(b, ev).None? ==>
          var i := b.proofs[ev.p].invoice;
          && 0 <= i < |b.invoices|
          && Step(b, ev) == b.(
               invoices := b.invoices[i := b.invoices[i].(status := InvoicePaid, paidAt := Some(ev.now))],
               proofs := b.proofs[ev.p := b.proofs[ev.p].(status := ProofApproved, reviewedAt := Some(ev.now))]))
  {
  }

  /** A rejection needs a reason and a pending proof, and leaves the invoice open. */
  lemma RejectionLaw(b: Ledger, ev: Event)
    requires ev.Reject?
    ensures var found := 0 <= ev.p < |b.proofs|;
      && ErrorOf(b, ev) == (
        if !ev.hasReason then Some(ReasonRequired)
        else if !found then Some(ProofMissing)
        else if b.proofs[ev.p].status != ProofPending then Some(AlreadyReviewed)
        else None)
      && (ErrorOf(b, ev).None? ==> Step(b, ev) == b.(
            proofs := b.proofs[ev.p := b.proofs[ev.p].(status := ProofRejected, reviewedAt := Some(ev.now))]))
  {
  }

  /** Cash pays a pending invoice with a proof of its own and rejects the proofs still waiting for it. */
  lemma CashLaw(b: Ledger, ev: Event)
    requires ev.Cash?
    ensures var found, b' := 0 <= ev.i < |b.invoices|, Step(b, ev);
      && ErrorOf(b, ev) == (
        if !found then Some(InvoiceMissing)
        else if b.invoices[ev.i].status != InvoicePending then Some(InvoiceNotPending)
        else None)
      && (ErrorOf(b, ev).None? ==>
          && b'.invoices == b.invoices[ev.i := b.invoices[ev.i].(status := InvoicePaid, paidAt := Some(ev.now))]
          && b'.groups == b.groups && |b'.proofs| == |b.proofs| + 1
          && b'.proofs[|b.proofs|] == Proof(ev.i, true, ProofApproved, Some(ev.now))
          && forall p :: 0 <= p < |b.proofs| ==>
               b'.proofs[p] == if b.proofs[p].invoice == ev.i && b.proofs[p].status == ProofPending
                               then b.proofs[p].(status := ProofRejected, reviewedAt := Some(ev.now)) else b.proofs[p])
  {
  }

  /** A paid invoice founds one group, for the phone number it was issued to. */
  lemma CreateGroupLaw(b: Ledger, ev: Event)
    requires ev.CreateGroup?
    ensures var found := 0 <= ev.i < |b.invoices|;
      && ErrorOf(b, ev) == (
        if !found then Some(InvoiceMissing)
        else if b.invoices[ev.i].status != InvoicePaid then Some(InvoiceNotPaid)
        else if exists n :: 0 <= n < |b.groups| && b.groups[n] == ev.i then Some(InvoiceAlreadyLinked)
        else if b.invoices[ev.i].phone != ev.phone then Some(PhoneMismatch)
        else None)
      && (ErrorOf(b, ev).None? ==> Step(b, ev) == b.(groups := b.groups + [ev.i]))
  {
    assert ev.i in b.groups <==> exists n :: 0 <= n < |b.groups| && b.groups[n] == ev.i;
  }

  /** An invoice starts pending and unpaid, for the phone number it names. */
  lemma IssueLaw(b: Ledger, ev: Event)
    requires ev.Issue?
    ensures ErrorOf(b, ev).None?
    ensures Step(b, ev) == b.(invoices := b.invoices + [Invoice(ev.phone, InvoicePending, None)])
  {
  }
}
