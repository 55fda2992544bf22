/** Payments, the sessions and coupons they buy, and the transactions on their rows. */
module PaymentStore {
  import opened Text

  datatype PaymentStatus = Pending | PaidUnprovisioned | Provisioned | Failed

  datatype Product = DirectSession | CouponPack10

  datatype PaymentRow = PaymentRow(checkout: Option<string>, product: Product, amount: int, currency: string,
                                   status: PaymentStatus, session: Option<string>, coupon: Option<string>,
                                   pin: Option<string>, revealExpires: Option<int>, revealConsumed: Option<int>,
                                   failure: Option<string>)

  /** What a session was created from; a coupon leaves the limits it had when it was claimed. */
  datatype Origin = FromPayment(payment: nat) | FromCoupon(coupon: string, maxAtClaim: nat, usesAtClaim: nat)

  /** `pin` is the PIN whose hash the row holds. */
  datatype SessionRecord = SessionRecord(origin: Origin, pin: string)

  datatype CouponRow = CouponRow(maxUses: nat, uses: nat, expires: Option<int>, source: Option<nat>)

  datatype Shop = Shop(payments: map<nat, PaymentRow>, sessions: map<string, SessionRecord>,
                       coupons: map<string, CouponRow>)

  const COUPON_PACK_USES: nat := 10

  datatype Reference = Reference(payment: Option<nat>, checkout: string)

  /** The data generated for a fulfilment, of which a product uses its part. */
  datatype Fulfillment = Fulfillment(sessionCode: string, pin: string, revealExpires: int, couponCode: string)

  /** Texts are trimmed on their way into a nullable column, and nothing left is NULL. */
  function NullableText(s: string): Option<string> { if Blank(s) then None else Some(Trim(s)) }

  function NewPayment(product: Product, amount: int, currency: string): PaymentRow {
    PaymentRow(None, product, amount, currency, Pending, None, None, None, None, None, None)
  }

  // ----- finding and locking a row -----

  /** The unique index on the checkout id. */
  ghost predicate UniqueCheckouts(payments: map<nat, PaymentRow>) {
    forall a, b ::
      a in payments && b in payments && payments[a].checkout.Some? && payments[a].checkout == payments[b].checkout ==>
        a == b
  }

  ghost function ByCheckout(payments: map<nat, PaymentRow>, checkout: Option<string>): (found: Option<nat>)
    ensures found.Some? ==> found.value in payments && payments[found.value].checkout == checkout && checkout.Some?
    ensures found.None? && checkout.Some? ==> forall id :: id in payments ==> payments[id].checkout != checkout
  {
    if checkout.Some? && exists id: nat :: id in payments && payments[id].checkout == checkout
    then Some(var id: nat :| id in payments && payments[id].checkout == checkout; id)
    else None
  }

  datatype Lock = Locked(id: nat) | NotFound | ReferenceMismatch | InvalidReference | DuplicateCheckout

  /** A payment id wins over a checkout id; an unknown payment id falls back to the checkout id when there is one. */
  ghost function LockOf(payments: map<nat, PaymentRow>, ref: Reference): (lock: Lock)
    ensures lock.Locked? ==> lock.id in payments
  {
    if ref.payment.Some? && ref.payment.value in payments then Locked(ref.payment.value)
    else if Blank(ref.checkout) then (if ref.payment.Some? then NotFound else InvalidReference)
    else
      var found := ByCheckout(payments, NullableText(ref.checkout));
      if found.Some? then Locked(found.value) else NotFound
  }

  /** A locked row that belongs to another checkout is refused; one that belongs to none is attached. */
  ghost function LockAndAttach(payments: map<nat, PaymentRow>, ref: Reference): (lock: Lock)
    ensures lock.Locked? ==> lock.id in payments
  {
    var found := LockOf(payments, ref);
    if !found.Locked? then found
    else
      var row := payments[found.id];
      if row.checkout.Some? && !Blank(ref.checkout) && row.checkout.value != ref.checkout then ReferenceMismatch
      else if row.checkout.None? && !Blank(ref.checkout) && ByCheckout(payments, NullableText(ref.checkout)).Some?
      then DuplicateCheckout
      else found
  }

  function Attached(row: PaymentRow, checkout: string): PaymentRow {
    if row.checkout.None? then row.(checkout := NullableText(checkout)) else row
  }

  function MarkedFailed(row: PaymentRow, checkout: string, code: string): PaymentRow {
    Attached(row, checkout).(status := Failed, failure := NullableText(code))
  }

  function MarkedPaid(row: PaymentRow, checkout: string): PaymentRow {
    var attached := Attached(row, checkout);
    if row.status.Pending? then attached.(status := PaidUnprovisioned, failure := None) else attached
  }

  function NotedFailure(row: PaymentRow, code: string): PaymentRow {
    if row.status.PaidUnprovisioned? then row.(failure := NullableText(code)) else row
  }

  // ----- fulfilment -----

  datatype Outcome =
    | Resolved(status: PaymentStatus)
    | RevealedPin(code: string, pin: string)
    | RevealedCoupon(code: string)
    | NoPayment
    | RevealConsumed
    | RevealExpired
    | InternalError

  /** One payment row together with the sessions and coupons tables. */
  datatype Scope = Scope(row: PaymentRow, sessions: map<string, SessionRecord>, coupons: map<string, CouponRow>)

  /** Creates what a paid payment bought; fails when nothing was generated or its code is taken. */
  function Provision(s: Scope, id: nat, f: Option<Fulfillment>): Option<Scope> {
    if f.None? then None
    else
      match s.row.product
      case DirectSession =>
        if f.value.sessionCode in s.sessions then None
        else Some(Scope(
          s.row.(status := Provisioned, session := NullableText(f.value.sessionCode), coupon := None,
                 pin := NullableText(f.value.pin),
                 revealExpires := Some(f.value.revealExpires), revealConsumed := None, failure := None),
          s.sessions[f.value.sessionCode := SessionRecord(FromPayment(id), f.value.pin)], s.coupons))
      case CouponPack10 =>
        if f.value.couponCode in s.coupons then None
        else Some(Scope(
          s.row.(status := Provisioned, session := None, coupon := NullableText(f.value.couponCode), pin := None,
                 revealExpires := None, revealConsumed := None, failure := None),
          s.sessions, s.coupons[f.value.couponCode := CouponRow(COUPON_PACK_USES, 0, None, Some(id))]))
  }

  /** What a poll of a provisioned payment returns, and the row it leaves. */
  function PollResult(row: PaymentRow, now: int): (PaymentRow, Outcome) {
    match row.product
    case DirectSession =>
      if row.revealConsumed.Some? then (row, RevealConsumed)
      else if row.revealExpires.Some? && row.revealExpires.value <= now then (row, RevealExpired)
      else if row.pin.None? || row.session.None? then (row, InternalError)
      else (row.(revealConsumed := Some(now)), RevealedPin(row.session.value, row.pin.value))
    case CouponPack10 =>
      if row.coupon.None? then (row, InternalError) else (row, RevealedCoupon(row.coupon.value))
  }

  predicate IsError(o: Outcome) { o.NoPayment? || o.RevealConsumed? || o.RevealExpired? || o.InternalError? }

  /** The fulfilment transaction on one locked row: an error leaves everything as it was. */
  function ResolveScope(s: Scope, id: nat, now: int, forPoll: bool, f: Option<Fulfillment>): (Scope, Outcome) {
    if s.row.status.Pending? || s.row.status.Failed? then (s, Resolved(s.row.status))
    else
      var provisioned := if s.row.status.PaidUnprovisioned? then Provision(s, id, f) else Some(s);
      if provisioned.None? then (s, InternalError)
      else if !forPoll then (provisioned.value, Resolved(Provisioned))
      else
        var (row, o) := PollResult(provisioned.value.row, now);
        if IsError(o) then (s, o) else (provisioned.value.(row := row), o)
  }

  // ----- one payment resolved again and again -----

  /** A resolution of the checkout: by a poll, or by the webhook that only provisions. */
  datatype Resolution = Resolution(now: int, forPoll: bool, f: Option<Fulfillment>)

  function ResolveAll(s: Scope, id: nat, rs: seq<Resolution>): (Scope, seq<Outcome>)
    decreases |rs|
  {
    if rs == [] then (s, [])
    else
      var (mid, o) := ResolveScope(s, id, rs[0].now, rs[0].forPoll, rs[0].f);
      var (last, os) := ResolveAll(mid, id, rs[1..]);
      (last, [o] + os)
  }

  /** The outcomes of resolutions that all show the same to a poll. */
  function Always(rs: seq<Resolution>, status: PaymentStatus, shown: Outcome): seq<Outcome> {
    seq(|rs|, i requires 0 <= i < |rs| => if rs[i].forPoll then shown else Resolved(status))
  }

  lemma {:induction false} SettledStays(s: Scope, id: nat, rs: seq<Resolution>, shown: Outcome)
    requires forall now, forPoll, f ::
               ResolveScope(s, id, now, forPoll, f) == (s, if forPoll then shown else Resolved(s.row.status))
    ensures ResolveAll(s, id, rs) == (s, Always(rs, s.row.status, shown))
    decreases |rs|
  {
    if rs == [] {
      assert Always(rs, s.row.status, shown) == [];
    } else {
      SettledStays(s, id, rs[1..], shown);
      var all := Always(rs, s.row.status, shown);
      assert ResolveScope(s, id, rs[0].now, rs[0].forPoll, rs[0].f) == (s, all[0]);
      assert all == [all[0]] + Always(rs[1..], s.row.status, shown);
    }
  }

  /** However often a payment that is not paid is resolved, nothing is created and nothing but its status is shown. */
  lemma UnpaidBuysNothing(s: Scope, id: nat, rs: seq<Resolution>)
    requires s.row.status.Pending? || s.row.status.Failed?
    ensures ResolveAll(s, id, rs) == (s, Always(rs, s.row.status, Resolved(s.row.status)))
  {
    SettledStays(s, id, rs, Resolved(s.row.status));
  }

  /** The poll that provisions a paid session shows its code and PIN if they have not expired; every later poll is told
      that they were shown, and no later resolution changes anything. */
  lemma SessionIsShownOnce(s: Scope, id: nat, now: int, f: Fulfillment, rs: seq<Resolution>)
    requires s.row.status.PaidUnprovisioned? && s.row.product.DirectSession?
    requires NullableText(f.sessionCode) == Some(f.sessionCode) && NullableText(f.pin) == Some(f.pin)
    requires f.sessionCode !in s.sessions && now < f.revealExpires
    ensures var (after, o) := ResolveScope(s, id, now, true, Some(f));
            && o == RevealedPin(f.sessionCode, f.pin)
            && after.sessions == s.sessions[f.sessionCode := SessionRecord(FromPayment(id), f.pin)]
            && after.coupons == s.coupons
            && ResolveAll(after, id, rs) == (after, Always(rs, Provisioned, RevealConsumed))
  {
    var (after, o) := ResolveScope(s, id, now, true, Some(f));
    SettledStays(after, id, rs, RevealConsumed);
  }

  /** The poll that provisions a coupon pack shows its code, and so does every later one. */
  lemma CouponIsShownAlways(s: Scope, id: nat, now: int, f: Fulfillment, rs: seq<Resolution>)
    requires s.row.status.PaidUnprovisioned? && s.row.product.CouponPack10?
    requires NullableText(f.couponCode) == Some(f.couponCode) && f.couponCode !in s.coupons
    ensures var (after, o) := ResolveScope(s, id, now, true, Some(f));
            && o == RevealedCoupon(f.couponCode)
            && after.coupons == s.coupons[f.couponCode := CouponRow(COUPON_PACK_USES, 0, None, Some(id))]
            && after.sessions == s.sessions
            && ResolveAll(after, id, rs) == (after, Always(rs, Provisioned, RevealedCoupon(f.couponCode)))
  {
    var (after, o) := ResolveScope(s, id, now, true, Some(f));
    SettledStays(after, id, rs, RevealedCoupon(f.couponCode));
  }

  predicate CanClaim(coupons: map<string, CouponRow>, code: string, now: int) {
    && code in coupons && coupons[code].uses < coupons[code].maxUses
    && (coupons[code].expires.None? || coupons[code].expires.value > now)
  }

  datatype ClaimOutcome = Claimed(maxUses: nat, uses: nat) | CouponInvalid | SessionCodeTaken

  /** The rows, changed by one transaction at a time. */
  class PostgresStore {
    var payments: map<nat, PaymentRow>
    var sessions: map<string, SessionRecord>
    var coupons: map<string, CouponRow>

    ghost predicate Valid()
      reads this
    {
      UniqueCheckouts(payments)
    }

    ghost function Rows(): Shop
      reads this
    {
      Shop(payments, sessions, coupons)
    }

    constructor ()
      ensures Valid() && Rows() == Shop(map[], map[], map[])
    {
      payments, sessions, coupons := map[], map[], map[];
    }

    method CreatePendingPayment(id: nat, product: Product, amount: int, currency: string)
      requires Valid() && id !in payments
      modifies this
      ensures Valid() && Rows() == old(Rows()).(payments := old(payments)[id := NewPayment(product, amount, currency)])
    {
      payments := payments[id := NewPayment(product, amount, currency)];
    }

    /** Overwrites the checkout id; another row's id violates the unique index. */
    method AttachCheckoutSessionID(id: nat, checkout: string) returns (ok: bool)
      requires Valid()
      modifies this
      ensures Valid()
      ensures ok <==> id in old(payments)
                      && forall k :: k in old(payments) && k != id && old(payments)[k].checkout.Some? ==>
                           old(payments)[k].checkout != NullableText(checkout)
      ensures Rows() ==
              if ok then
                old(Rows()).(payments := old(payments)[id := old(payments)[id].(checkout := NullableText(checkout))])
              else old(Rows())
    {
      if id !in payments { return false; }
      var text := NullableText(checkout);
      if k :| k in payments && k != id && payments[k].checkout.Some? && payments[k].checkout == text { return false; }
      payments := payments[id := payments[id].(checkout := text)];
      return true;
    }

    method FindByCheckout(checkout: Option<string>) returns (found: Option<nat>)
      requires Valid()
      ensures found == ByCheckout(payments, checkout)
    {
      if checkout.Some? {
        if id :| id in payments && payments[id].checkout == checkout { return Some(id); }
      }
      return None;
    }

    method LockPayment(ref: Reference) returns (lock: Lock)
      requires Valid()
      ensures lock == LockOf(payments, ref)
    {
      if ref.payment.Some? {
        if ref.payment.value in payments { return Locked(ref.payment.value); }
        if Blank(ref.checkout) { return NotFound; }
      }
      if Blank(ref.checkout) { return InvalidReference; }
      var found := FindByCheckout(NullableText(ref.checkout));
      return if found.Some? then Locked(found.value) else NotFound;
    }

    /** The opening of every transaction on a referenced payment. A refusal rolls back to nothing changed. */
    method LockAndAttachPayment(ref: Reference) returns (lock: Lock)
      requires Valid()
      modifies this`payments
      ensures Valid() && lock == LockAndAttach(old(payments), ref)
      ensures payments == if lock.Locked? then old(payments)[lock.id := Attached(old(payments)[lock.id], ref.checkout)]
              else old(payments)
    {
      lock := LockPayment(ref);
      if !lock.Locked? { return; }
      var row := payments[lock.id];
      if row.checkout.Some? && !Blank(ref.checkout) && row.checkout.value != ref.checkout { return ReferenceMismatch; }
      if row.checkout.None? && !Blank(ref.checkout) {
        var other := FindByCheckout(NullableText(ref.checkout));
        if other.Some? { return DuplicateCheckout; }
      }
      payments := payments[lock.id := Attached(row, ref.checkout)];
    }

    /** Reads a payment; the read already attaches a checkout id the row did not have. */
    method GetPayment(ref: Reference) returns (lock: Lock, row: Option<PaymentRow>)
      requires Valid()
      modifies this`payments
      ensures Valid() && lock == LockAndAttach(old(payments), ref)
      ensures if lock.Locked? then
                payments == old(payments)[lock.id := Attached(old(payments)[lock.id], ref.checkout)]
                && row == Some(payments[lock.id])
              else payments == old(payments) && row == None
    {
      lock := LockAndAttachPayment(ref);
      row := if lock.Locked? then Some(payments[lock.id]) else None;
    }

    /** Marks a payment failed whatever its status. */
    method MarkPaymentFailed(ref: Reference, code: string) returns (lock: Lock)
      requires Valid()
      modifies this`payments
      ensures Valid() && lock == LockAndAttach(old(payments), ref)
      ensures if lock.Locked? then
                payments == old(payments)[lock.id := MarkedFailed(old(payments)[lock.id], ref.checkout, code)]
              else payments == old(payments)
    {
      lock := LockAndAttachPayment(ref);
      if lock.Locked? {
        payments := payments[lock.id := payments[lock.id].(status := Failed, failure := NullableText(code))];
      }
    }

    /** Moves a pending payment to paid; any other status stays. */
    method MarkPaymentPaid(ref: Reference) returns (lock: Lock, status: PaymentStatus)
      requires Valid()
      modifies this`payments
      ensures Valid() && lock == LockAndAttach(old(payments), ref)
      ensures if lock.Locked? then
                payments == old(payments)[lock.id := MarkedPaid(old(payments)[lock.id], ref.checkout)]
                && status == payments[lock.id].status
              else payments == old(payments)
    {
      lock := LockAndAttachPayment(ref);
      status := Pending;
      if lock.Locked? {
        if payments[lock.id].status == Pending {
          payments := payments[lock.id := payments[lock.id].(status := PaidUnprovisioned, failure := None)];
        }
        status := payments[lock.id].status;
      }
    }

    /** Provisions a paid payment and, for a poll, reveals what was bought; any error rolls every table back. */
    method ResolveCheckoutSession(checkout: string, now: int, forPoll: bool, f: Option<Fulfillment>)
      returns (outcome: Outcome)
      requires Valid()
      modifies this
      ensures Valid()
      ensures var found := ByCheckout(old(payments), NullableText(checkout));
              if found.None? then outcome == NoPayment && Rows() == old(Rows())
              else
                var (s, o) := ResolveScope(Scope(old(payments)[found.value], old(sessions), old(coupons)), found.value,
                                           now, forPoll, f);
                outcome == o && Rows() == Shop(old(payments)[found.value := s.row], s.sessions, s.coupons)
    {
      var found := FindByCheckout(NullableText(checkout));
      if found.None? { return NoPayment; }
      var id := found.value;
      var savedPayments, savedSessions, savedCoupons := payments, sessions, coupons;
      if payments[id].status == Pending || payments[id].status == Failed {
        assert payments == payments[id := payments[id]];
        return Resolved(payments[id].status);
      }
      if payments[id].status == PaidUnprovisioned {
        var ok := ProvisionLockedPayment(id, f);
        if !ok {
          assert payments == payments[id := payments[id]];
          return InternalError;
        }
      }
      if !forPoll { return Resolved(Provisioned); }
      outcome := ResolvePollResult(id, now);
      if outcome.RevealConsumed? || outcome.RevealExpired? || outcome.InternalError? {
        payments, sessions, coupons := savedPayments, savedSessions, savedCoupons;
        assert payments == payments[id := payments[id]];
      }
    }

    /** Creates the session or coupon of a locked paid payment; a taken code fails before anything is written. */
    method ProvisionLockedPayment(id: nat, f: Option<Fulfillment>) returns (ok: bool)
      requires Valid() && id in payments
      modifies this
      ensures Valid()
      ensures var after := Provision(Scope(old(payments)[id], old(sessions), old(coupons)), id, f);
              ok == after.Some?
              && Rows() ==
                 if ok then Shop(old(payments)[id := after.value.row], after.value.sessions, after.value.coupons)
                 else old(Rows())
    {
      if f.None? { return false; }
      var row := payments[id];
      match row.product {
        case DirectSession =>
          if f.value.sessionCode in sessions { return false; }
          sessions := sessions[f.value.sessionCode := SessionRecord(FromPayment(id), f.value.pin)];
          payments := payments[id := row.(status := Provisioned, session := NullableText(f.value.sessionCode),
                                          coupon := None, pin := NullableText(f.value.pin),
                                          revealExpires := Some(f.value.revealExpires),
                                          revealConsumed := None, failure := None)];
        case CouponPack10 =>
          if f.value.couponCode in coupons { return false; }
          coupons := coupons[f.value.couponCode := CouponRow(COUPON_PACK_USES, 0, None, Some(id))];
          payments := payments[id := row.(status := Provisioned, session := None,
                                          coupon := NullableText(f.value.couponCode),
                                          pin := None, revealExpires := None, revealConsumed := None, failure := None)];
      }
      return true;
    }

    method ResolvePollResult(id: nat, now: int) returns (outcome: Outcome)
      requires Valid() && id in payments
      modifies this`payments
      ensures Valid() && !outcome.NoPayment?
      ensures var (row, o) := PollResult(old(payments)[id], now);
              outcome == o && payments == old(payments)[id := row]
    {
      assert payments == payments[id := payments[id]];
      var row := payments[id];
      match row.product {
        case DirectSession =>
          if row.revealConsumed.Some? { return RevealConsumed; }
          if row.revealExpires.Some? && !(row.revealExpires.value > now) { return RevealExpired; }
          if row.pin.None? || row.session.None? { return InternalError; }
          payments := payments[id := row.(revealConsumed := Some(now))];
          return RevealedPin(row.session.value, row.pin.value);
        case CouponPack10 =>
          if row.coupon.None? { return InternalError; }
          return RevealedCoupon(row.coupon.value);
      }
    }

    /** Notes a failure on a payment that is still waiting to be provisioned. */
    method MarkProvisionFailure(checkout: string, code: string) returns (found: bool)
      requires Valid()
      modifies this`payments
      ensures Valid()
      ensures var id := ByCheckout(old(payments), NullableText(checkout));
              && (found <==> id.Some? && old(payments)[id.value].status.PaidUnprovisioned?)
              && payments == if found then old(payments)[id.value := NotedFailure(old(payments)[id.value], code)]
                 else old(payments)
    {
      var id := FindByCheckout(NullableText(checkout));
      if id.None? || payments[id.value].status != PaidUnprovisioned { return false; }
      payments := payments[id.value := payments[id.value].(failure := NullableText(code))];
      return true;
    }

    /** Takes one use of a coupon and creates a session with it, or neither. */
    method ClaimCouponAndCreateSession(code: string, sessionCode: string, pin: string, now: int)
      returns (outcome: ClaimOutcome)
      modifies this`sessions, this`coupons
      ensures outcome.CouponInvalid? <==> !CanClaim(old(coupons), code, now)
      ensures outcome.SessionCodeTaken? <==> CanClaim(old(coupons), code, now) && sessionCode in old(sessions)
      ensures if outcome.Claimed? then
                && outcome == Claimed(old(coupons)[code].maxUses, old(coupons)[code].uses + 1)
                && coupons == old(coupons)[code := old(coupons)[code].(uses := outcome.uses)]
                && var claimed := SessionRecord(FromCoupon(code, outcome.maxUses, outcome.uses), pin);
                   sessions == old(sessions)[sessionCode := claimed]
              else coupons == old(coupons) && sessions == old(sessions)
    {
      if !(code in coupons && coupons[code].uses < coupons[code].maxUses
           && (coupons[code].expires.None? || coupons[code].expires.value > now)) {
        return CouponInvalid;
      }
      var savedCoupons := coupons;
      var uses := coupons[code].uses + 1;
      coupons := coupons[code := coupons[code].(uses := uses)];
      if sessionCode in sessions {
        coupons := savedCoupons;
        return SessionCodeTaken;
      }
      sessions := sessions[sessionCode := SessionRecord(FromCoupon(code, coupons[code].maxUses, uses), pin)];
      return Claimed(coupons[code].maxUses, uses);
    }
  }
}
