/** The payment service (payment.service.ts): a subscription payment is
    accepted only if it covers every child of the parent, and an admin
    approval moves it from PENDING to PAID and sets each child's
    subscription expiry to the payment's end date. */
module Payments {
  import opened Common
  import opened Entities

  /** PRICE_PER_CHILD. */
  const PricePerChild: int := 9900

  datatype PaymentStatus = Pending | Paid | Active | Expired

  /** A payment row; dates are timestamps, `None` for a null column. */
  datatype Payment = Payment(
    id: nat,
    parentId: int,
    amount: int,
    depositorName: string,
    status: PaymentStatus,
    startAt: Option<int>,
    endAt: Option<int>,
    paidAt: Option<int>)

  function PaymentId(p: Payment): int { p.id }

  /** The fields of CreatePaymentDto that createPayment reads (its own
      `parentId` field is ignored in favour of the caller's id). */
  datatype PaymentRequest = PaymentRequest(amount: int, depositorName: string, startAt: Option<int>, endAt: Option<int>)

  /** `{ paymentId, status, childrenUpdated }`. */
  datatype Approval = Approval(paymentId: int, status: PaymentStatus, childrenUpdated: nat)

  /** The subscription rule: the amount must cover PRICE_PER_CHILD for every child. */
  predicate Covers(childrenCount: nat, amount: int) {
    childrenCount * PricePerChild <= amount
  }

  /** A child row after the approval of a payment ending at `endAt`. */
  function Renewed(u: User, parentId: int, endAt: Option<int>): (v: User)
    ensures IsChildOf(u, parentId) ==> v == u.(expiresAt := endAt)
    ensures !IsChildOf(u, parentId) ==> v == u
    ensures v.id == u.id
  {
    if IsChildOf(u, parentId) then u.(expiresAt := endAt) else u
  }

  class PaymentTable {
    var rows: seq<Payment>

    ghost predicate Valid()
      reads this
    {
      Numbered(rows, PaymentId)
    }

    constructor (rows: seq<Payment>)
      requires Numbered(rows, PaymentId)
      ensures Valid() && this.rows == rows
    {
      this.rows := rows;
    }

    /** `findOne({ where: { id } })`. */
    function Find(id: int): Option<Payment>
      reads this
      requires Valid()
    {
      FindById(rows, PaymentId, id)
    }
  }

  class PaymentService {
    const payments: PaymentTable
    const users: UserTable

    ghost predicate Valid()
      reads payments, users
    {
      payments.Valid() && users.Valid()
    }

    constructor (payments: PaymentTable, users: UserTable)
      ensures this.payments == payments && this.users == users
    {
      this.payments := payments;
      this.users := users;
    }

    /** createPayment: rejected iff the amount does not cover every CHILD-role
        child of the parent; otherwise stored as PENDING. */
    method CreatePayment(parentId: int, request: PaymentRequest) returns (r: Result<Payment>)
      requires Valid()
      modifies payments
      ensures Valid()
      ensures r.Err? <==> |ChildrenOf(users.rows, parentId)| * PricePerChild > request.amount
      ensures r.Err? ==> r.error == InvalidAmount && payments.rows == old(payments.rows)
      ensures r.Ok? ==>
        && r.value == Payment(|old(payments.rows)| + 1, parentId, request.amount, request.depositorName,
                              Pending, request.startAt, request.endAt, None)
        && payments.rows == old(payments.rows) + [r.value]
    {
      var childrenCount := |ChildrenOf(users.rows, parentId)|;
      if !Covers(childrenCount, request.amount) {
        return Err(InvalidAmount);
      }
      var payment := Payment(|payments.rows| + 1, parentId, request.amount, request.depositorName,
                             Pending, request.startAt, request.endAt, None);
      NumberedAppend(payments.rows, payment, PaymentId);
      payments.rows := payments.rows + [payment];
      r := Ok(payment);
    }

    /** The `map` over the parent's CHILD-role children and the bulk save:
        each gets the payment's end date as its expiry; the number renewed is returned. */
    method RenewChildren(parentId: int, endAt: Option<int>) returns (updated: nat)
      requires users.Valid()
      modifies users
      ensures users.Valid()
      ensures updated == |ChildrenOf(old(users.rows), parentId)|
      ensures |users.rows| == |old(users.rows)|
      ensures forall i :: 0 <= i < |users.rows| ==> users.rows[i] == Renewed(old(users.rows[i]), parentId, endAt)
    {
      ghost var before := users.rows;
      var i := 0;
      updated := 0;
      while i < |users.rows|
        invariant 0 <= i <= |users.rows| == |before|
        invariant forall k :: 0 <= k < i ==> users.rows[k] == Renewed(before[k], parentId, endAt)
        invariant forall k :: i <= k < |users.rows| ==> users.rows[k] == before[k]
        invariant updated == |ChildrenOf(before[..i], parentId)|
        invariant Numbered(users.rows, UserId)
      {
        assert before[..i + 1][..i] == before[..i];
        var child := users.rows[i];
        if IsChildOf(child, parentId) {
          var renewed := child.(expiresAt := endAt);
          NumberedUpdate(users.rows, i, renewed, UserId);
          users.rows := users.rows[i := renewed];
          updated := updated + 1;
        }
        i := i + 1;
      }
      assert before[..i] == before;
    }

    /** approvePayment, with the clock reading for `paidAt` as `now`. */
    method ApprovePayment(paymentId: int, now: int) returns (r: Result<Approval>)
      requires Valid()
      modifies payments, users
      ensures Valid()
      ensures old(payments.Find(paymentId)).None? ==>
        r == Err(PaymentNotFound) && payments.rows == old(payments.rows) && users.rows == old(users.rows)
      ensures old(payments.Find(paymentId)).Some? && old(payments.Find(paymentId)).value.status != Pending ==>
        r == Err(PaymentNotPending) && payments.rows == old(payments.rows) && users.rows == old(users.rows)
      ensures old(payments.Find(paymentId)).Some? && old(payments.Find(paymentId)).value.status == Pending ==>
        var p := old(payments.Find(paymentId)).value;
        && r == Ok(Approval(paymentId, Paid, |ChildrenOf(old(users.rows), p.parentId)|))
        && payments.rows == old(payments.rows)[paymentId - 1 := p.(status := Paid, paidAt := Some(now))]
        && |users.rows| == |old(users.rows)|
        && (forall i :: 0 <= i < |users.rows| ==> users.rows[i] == Renewed(old(users.rows[i]), p.parentId, p.endAt))
    {
      var found := payments.Find(paymentId);
      if found.None? {
        return Err(PaymentNotFound);
      }
      var payment := found.value;
      if payment.status != Pending {
        return Err(PaymentNotPending);
      }
      var updated := RenewChildren(payment.parentId, payment.endAt);
      var paid := payment.(status := Paid, paidAt := Some(now));
      NumberedUpdate(payments.rows, paymentId - 1, paid, PaymentId);
      payments.rows := payments.rows[paymentId - 1 := paid];
      r := Ok(Approval(paymentId, Paid, updated));
    }
  }

  /** Approval is not repeatable: once a payment has been approved, approving it again fails and changes nothing. */
  method ApproveTwice(service: PaymentService, paymentId: int, now: int, later: int)
    returns (first: Result<Approval>, second: Result<Approval>)
    requires service.Valid()
    modifies service.payments, service.users
    ensures first.Ok? ==> second == Err(PaymentNotPending)
  {
    first := service.ApprovePayment(paymentId, now);
    second := service.ApprovePayment(paymentId, later);
  }
}
