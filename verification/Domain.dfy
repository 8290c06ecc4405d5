/** The entities of the purchase lifecycle and the status machine of a purchase. */
module Domain {
  import opened Text

  type Time = int

  datatype Status = Pending | Paid | AccessIssued | Expired | Error

  datatype Failure =
    | EmptyChargeId | PurchaseNotFound | ContentNotFound | ContentInactive
    | InvalidTransition | MissingChargeId
    | InvalidToken | TokenExpired | TokenUsed
    | CallFailed  // a repository, provider, token or sender call returned an error

  datatype Result<+T> = Ok(value: T) | Err(failure: Failure)

  datatype Purchase = Purchase(
    id: string, userId: int, contentId: string, status: Status, payload: string, chargeId: string,
    stars: int, createdAt: Time, paidAt: Option<Time>,
    attempts: int, lastError: string, lastIssueAt: Option<Time>, reviewAt: Option<Time>)
  {
    function MarkPaid(chargeId: string, now: Time): Result<Purchase> {
      if status != Pending then Err(InvalidTransition)
      else if chargeId == "" then Err(MissingChargeId)
      else Ok(this.(status := Paid, chargeId := chargeId, paidAt := Some(now)))
    }

    function MarkAccessIssued(): Result<Purchase> {
      if status != Paid then Err(InvalidTransition) else Ok(this.(status := AccessIssued))
    }

    function RegisterFailure(message: string, now: Time, maxAttempts: int): Purchase {
      this.(attempts := attempts + 1, lastError := message, lastIssueAt := Some(now),
            status := if attempts + 1 >= maxAttempts then Error else status)
    }

    /** Retry accounting: error is exactly the status of a purchase that used up its attempts. */
    predicate Accounted(maxAttempts: int) {
      status == Error <==> attempts >= maxAttempts
    }
  }

  datatype Grant = Grant(
    id: string, purchaseId: string, userId: int, tokenHash: string,
    issuedAt: Time, expiresAt: Time, usedAt: Option<Time>)
  {
    predicate IsUsable(now: Time) {
      usedAt.None? && now < expiresAt
    }
  }

  datatype Content = Content(
    id: string, externalRef: string, title: string, description: string, price: int, active: bool)
  {
    predicate CanBePurchased() {
      active && price > 0
    }
  }

  datatype Event = Event(chargeId: string, amount: int, payload: string, raw: string, occurredAt: Time)

  datatype OutboxRow = OutboxRow(id: string, kind: string, purchaseId: string, published: bool)

  const CONFIRMED := "purchase_confirmed"

  // ---------- the status machine ----------

  /** The edges a purchase's status is meant to move along; access_issued -> error is one,
      because registering a failure does not look at the status. */
  predicate StatusEdge(a: Status, b: Status) {
    || (a == Pending && b == Paid)
    || (a == Paid && b == AccessIssued)
    || (a == Paid && b == Error)
    || (a == AccessIssued && b == Error)
  }

  function StatusRank(s: Status): nat {
    match s
    case Pending => 0
    case Paid => 1
    case AccessIssued => 2
    case Error => 3
    case Expired => 3
  }

  // ---------- the purchase as the handlers hold it ----------

  /** A purchase loaded into memory. Only the fields the status machine assigns are mutable. */
  class PurchaseRecord {
    const row: Purchase
    var status: Status
    var chargeId: string
    var paidAt: Option<Time>
    var attempts: int
    var lastError: string
    var lastIssueAt: Option<Time>

    constructor (row: Purchase)
      ensures this.row == row && Value() == row
    {
      this.row := row;
      status, chargeId, paidAt := row.status, row.chargeId, row.paidAt;
      attempts, lastError, lastIssueAt := row.attempts, row.lastError, row.lastIssueAt;
    }

    function Value(): Purchase
      reads this
    {
      row.(status := status, chargeId := chargeId, paidAt := paidAt,
           attempts := attempts, lastError := lastError, lastIssueAt := lastIssueAt)
    }

    method MarkPaid(chargeId: string, now: Time) returns (r: Result<()>)
      modifies this
      ensures match old(Value()).MarkPaid(chargeId, now)
              case Ok(p) => r == Ok(()) && Value() == p
              case Err(e) => r == Err(e) && Value() == old(Value())
      ensures r == (if old(status) != Pending then Err(InvalidTransition)
                    else if chargeId == "" then Err(MissingChargeId) else Ok(()))
      ensures r.Ok? ==> status == Paid && this.chargeId == chargeId && paidAt == Some(now)
      ensures attempts == old(attempts) && lastError == old(lastError) && lastIssueAt == old(lastIssueAt)
    {
      if status != Pending {
        return Err(InvalidTransition);
      }
      if chargeId == "" {
        return Err(MissingChargeId);
      }
      status := Paid;
      this.chargeId := chargeId;
      paidAt := Some(now);
      return Ok(());
    }

    method MarkAccessIssued() returns (r: Result<()>)
      modifies this
      ensures match old(Value()).MarkAccessIssued()
              case Ok(p) => r == Ok(()) && Value() == p
              case Err(e) => r == Err(e) && Value() == old(Value())
      ensures r == (if old(status) != Paid then Err(InvalidTransition) else Ok(()))
      ensures r.Ok? ==> status == AccessIssued && chargeId == old(chargeId) && paidAt == old(paidAt)
      ensures attempts == old(attempts) && lastError == old(lastError) && lastIssueAt == old(lastIssueAt)
    {
      if status != Paid {
        return Err(InvalidTransition);
      }
      status := AccessIssued;
      return Ok(());
    }

    method RegisterIssueAccessFailure(message: string, now: Time, maxAttempts: int)
      modifies this
      ensures Value() == old(Value()).RegisterFailure(message, now, maxAttempts)
      ensures attempts == old(attempts) + 1 && lastError == message && lastIssueAt == Some(now)
      ensures status == (if old(attempts) + 1 >= maxAttempts then Error else old(status))
      ensures chargeId == old(chargeId) && paidAt == old(paidAt)
    {
      attempts := attempts + 1;
      lastError := message;
      lastIssueAt := Some(now);
      if attempts >= maxAttempts {
        status := Error;
      }
    }
  }
}
