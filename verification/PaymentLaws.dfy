/** That paid checkouts are delivered: what each step does to a payment, a session and a coupon, said on the rows. */
module PaymentLaws {
  import opened Text
  import opened PaymentStore
  import opened PaymentSafety

  // ----- a new payment -----

  /** A created payment is pending with its terms, has no checkout, has bought nothing, and is the only thing new. */
  lemma PaymentIsCreated(w: World, e: Step)
    requires Enabled(w, e) && e.CreatePayment?
    ensures var w' := Apply(w, e);
            && e.id in w'.shop.payments && SameTables(w, w') && w'.stripe == w.stripe
            && (forall k :: k in w.shop.payments ==> k in w'.shop.payments && w'.shop.payments[k] == w.shop.payments[k])
            && var row := w'.shop.payments[e.id];
               && row.product == e.product && row.amount == e.amount && row.currency == e.currency
               && row.status == Pending && row.checkout == None && row.session == None && row.coupon == None
               && row.pin == None && row.revealExpires == None && row.revealConsumed == None
  {
  }

  // ----- from the event to what was bought -----

  /** The event names the payment's amount and, but for case and blanks, its currency. */
  predicate HasTerms(event: Event, row: PaymentRow) {
    event.amount == row.amount && Lower(Trim(event.currency)) == Lower(Trim(row.currency))
  }

  predicate OnlyPayment(a: World, b: World, id: nat) {
    && SameTables(a, b) && b.stripe == a.stripe && b.pinsShown == a.pinsShown && b.couponsShown == a.couponsShown
    && b.shop.payments.Keys == a.shop.payments.Keys
    && forall k :: k in a.shop.payments && k != id ==> b.shop.payments[k] == a.shop.payments[k]
  }

  lemma EventLocks(w: World, event: Event)
    requires Inv(w) && event.checkout in w.stripe
    ensures var id := w.stripe[event.checkout];
            && id in w.shop.payments && LockAndAttach(w.shop.payments, RefOf(w, event)) == Locked(id)
            && Attached(w.shop.payments[id], event.checkout)
               == w.shop.payments[id].(checkout := Some(event.checkout))
  {
    var id := w.stripe[event.checkout];
    AuthenticReferenceLocks(w, id, event.checkout);
    assert RowInv(w.stripe, w.confirmed, w.shop, id, w.shop.payments[id]);
  }

  lemma MatchesByTerms(event: Event, row: PaymentRow)
    ensures Matches(event, row.(checkout := Some(event.checkout))) <==> HasTerms(event, row)
  {
  }

  /** Receiving an event attaches its checkout and tells by the terms alone whether it matches. */
  lemma EventIsRead(w: World, h: nat, event: Event)
    requires Inv(w) && Enabled(w, Receive(h, event))
    ensures var id, w' := w.stripe[event.checkout], Apply(w, Receive(h, event));
            && id in w.shop.payments && OnlyPayment(w, w', id) && h in w'.hooks
            && w'.shop.payments[id] == w.shop.payments[id].(checkout := Some(event.checkout))
            && w'.hooks[h] == (if HasTerms(event, w.shop.payments[id]) then Matched(event) else Mismatched(event))
  {
    EventLocks(w, event);
    MatchesByTerms(event, w.shop.payments[w.stripe[event.checkout]]);
    assert Apply(w, Receive(h, event)) == ApplyHook(w, Receive(h, event));
  }

  /** The mark of a matched event pays a pending payment and leaves any other status; only a paid one goes on. */
  lemma EventPays(w: World, h: nat)
    requires Inv(w) && Enabled(w, MarkPaid(h))
    ensures var event := w.hooks[h].event;
            var id, w' := w.stripe[event.checkout], Apply(w, MarkPaid(h));
            && id in w.shop.payments && OnlyPayment(w, w', id) && h in w'.hooks
            && w'.shop.payments[id] ==
               (if w.shop.payments[id].status == Pending
                then w.shop.payments[id].(checkout := Some(event.checkout), status := PaidUnprovisioned,
                                          failure := None)
                else w.shop.payments[id].(checkout := Some(event.checkout)))
            && w'.hooks[h] == (if w'.shop.payments[id].status == PaidUnprovisioned then Paid(event) else HookEnded)
  {
    EventLocks(w, w.hooks[h].event);
    assert Apply(w, MarkPaid(h)) == ApplyHook(w, MarkPaid(h));
  }

  /** A mismatched event fails its payment, whatever the status was, and goes no further. */
  lemma MismatchFails(w: World, h: nat)
    requires Inv(w) && Enabled(w, FailMismatched(h))
    ensures var id, w' := w.stripe[w.hooks[h].event.checkout], Apply(w, FailMismatched(h));
            && id in w.shop.payments && OnlyPayment(w, w', id)
            && w'.shop.payments[id] == w.shop.payments[id].(checkout := Some(w.hooks[h].event.checkout),
                                                            status := Failed,
                                                            failure := Some("PAYMENT_AMOUNT_MISMATCH"))
            && h in w'.hooks && w'.hooks[h] == HookEnded
  {
    EventLocks(w, w.hooks[h].event);
    assert Apply(w, FailMismatched(h)) == ApplyHook(w, FailMismatched(h));
  }

  // ----- references -----

  /** A reference means the payment it gives, or else the one of its checkout. */
  predicate Means(payments: map<nat, PaymentRow>, ref: Reference, id: nat) {
    && id in payments
    && (ref.payment == Some(id)
        || ((ref.payment.None? || ref.payment.value !in payments)
            && !Blank(ref.checkout) && payments[id].checkout == Some(Trim(ref.checkout))))
  }

  lemma MeantIsFound(payments: map<nat, PaymentRow>, ref: Reference, id: nat)
    requires UniqueCheckouts(payments)
    ensures LockOf(payments, ref) == Locked(id) <==> Means(payments, ref, id)
    ensures LockOf(payments, ref) == InvalidReference <==> ref.payment == None && Blank(ref.checkout)
  {
  }

  /** Of all the payments the one meant is locked, unless it has another checkout than the reference gives, or has none
      and a payment with that checkout exists. */
  lemma ReferenceLocksIff(payments: map<nat, PaymentRow>, ref: Reference, id: nat)
    requires UniqueCheckouts(payments)
    ensures var lock := LockAndAttach(payments, ref);
            && (lock == Locked(id) <==>
                  && Means(payments, ref, id)
                  && (Blank(ref.checkout) || payments[id].checkout == Some(ref.checkout)
                      || (payments[id].checkout == None
                          && forall k :: k in payments ==> payments[k].checkout != Some(Trim(ref.checkout)))))
            && (Means(payments, ref, id) ==>
                  (lock == ReferenceMismatch <==>
                   payments[id].checkout.Some? && !Blank(ref.checkout) && payments[id].checkout != Some(ref.checkout)))
            && (lock == InvalidReference <==> ref.payment == None && Blank(ref.checkout))
            && (lock == NotFound ==> !Means(payments, ref, id))
  {
    MeantIsFound(payments, ref, id);
  }

  // ----- checkouts and their failures -----

  /** The row of a reference that names the payment and a checkout of its own, or none. */
  lemma OwnLocks(w: World, id: nat, checkout: string)
    requires Inv(w) && id in w.shop.payments && (checkout == "" || (checkout in w.stripe && w.stripe[checkout] == id))
    ensures LockAndAttach(w.shop.payments, Reference(Some(id), checkout)) == Locked(id)
    ensures Attached(w.shop.payments[id], checkout).checkout ==
            if checkout == "" then w.shop.payments[id].checkout else Some(checkout)
  {
    if checkout != "" { AuthenticReferenceLocks(w, id, checkout); }
    assert RowInv(w.stripe, w.confirmed, w.shop, id, w.shop.payments[id]);
  }

  /** The checkout made for a payment is attached to it, and to no other. */
  lemma CheckoutIsAttached(w: World, checkout: string)
    requires Inv(w) && Enabled(w, AttachCheckout(checkout))
    ensures var id, w' := w.stripe[checkout], Apply(w, AttachCheckout(checkout));
            && id in w.shop.payments && OnlyPayment(w, w', id)
            && w'.shop.payments[id] == w.shop.payments[id].(checkout := Some(checkout))
  {
    var id := w.stripe[checkout];
    forall k | k in w.shop.payments && k != id
      ensures w.shop.payments[k].checkout != Some(checkout)
    {
      assert RowInv(w.stripe, w.confirmed, w.shop, k, w.shop.payments[k]);
    }
  }

  /** A checkout that could not be made fails its payment with the given code. */
  lemma CheckoutFails(w: World, id: nat, checkout: string, code: string)
    requires Inv(w) && Enabled(w, FailCheckout(id, checkout, code))
    ensures var w' := Apply(w, FailCheckout(id, checkout, code));
            && OnlyPayment(w, w', id)
            && w'.shop.payments[id] ==
               w.shop.payments[id].(checkout := if checkout == "" then w.shop.payments[id].checkout else Some(checkout),
                                    status := Failed, failure := if Blank(code) then None else Some(Trim(code)))
  {
    OwnLocks(w, id, checkout);
  }

  /** A failed provisioning is noted on the payment of its checkout while that waits to be provisioned; nothing else
      changes. */
  lemma FailureIsNoted(w: World, id: nat, checkout: string, code: string)
    requires Inv(w) && id in w.shop.payments && w.shop.payments[id].checkout == Some(checkout) && checkout in w.stripe
    ensures var row, w' := w.shop.payments[id], Apply(w, NoteFailure(checkout, code));
            && OnlyPayment(w, w', id)
            && w'.shop.payments[id] == (if row.status == PaidUnprovisioned
                                        then row.(failure := if Blank(code) then None else Some(Trim(code))) else row)
  {
    CheckoutFinds(w, id, checkout);
  }

  lemma CheckoutFinds(w: World, id: nat, checkout: string)
    requires Inv(w) && checkout in w.stripe && id in w.shop.payments && w.shop.payments[id].checkout == Some(checkout)
    ensures ByCheckout(w.shop.payments, NullableText(checkout)) == Some(id) && w.stripe[checkout] == id
  {
    assert IsCode(checkout);
    CheckoutFindsItsPayment(w, checkout);
    assert RowInv(w.stripe, w.confirmed, w.shop, id, w.shop.payments[id]);
  }

  /** What a payment of its product buys with these generated data. */
  predicate IsBought(a: World, b: World, id: nat, f: Fulfillment)
    requires id in a.shop.payments
  {
    && id in b.shop.payments && b.shop.payments[id].status == Provisioned
    && b.shop.payments.Keys == a.shop.payments.Keys
    && (forall k :: k in a.shop.payments && k != id ==> b.shop.payments[k] == a.shop.payments[k])
    && match a.shop.payments[id].product
       case DirectSession =>
         && b.shop.sessions == a.shop.sessions[f.sessionCode := SessionRecord(FromPayment(id), f.pin)]
         && b.shop.coupons == a.shop.coupons
         && b.shop.payments[id].session == Some(f.sessionCode) && b.shop.payments[id].pin == Some(f.pin)
         && b.shop.payments[id].revealExpires == Some(f.revealExpires) && b.shop.payments[id].revealConsumed == None
       case CouponPack10 =>
         && b.shop.coupons == a.shop.coupons[f.couponCode := CouponRow(10, 0, None, Some(id))]
         && b.shop.sessions == a.shop.sessions
         && b.shop.payments[id].coupon == Some(f.couponCode)
  }

  predicate IsNew(w: World, id: nat, f: Fulfillment)
    requires id in w.shop.payments
  {
    if w.shop.payments[id].product == DirectSession then f.sessionCode !in w.shop.sessions
    else f.couponCode !in w.shop.coupons
  }

  /** Provisioning a paid payment with new codes buys exactly what was paid for. */
  lemma PaidIsProvisioned(w: World, h: nat, id: nat, now: int, f: Fulfillment)
    requires Inv(w) && Enabled(w, ProvisionPaid(h, now, Some(f)))
    requires w.hooks[h].event.checkout in w.stripe && id in w.shop.payments
    requires w.shop.payments[id].checkout == Some(w.hooks[h].event.checkout)
    requires w.shop.payments[id].status == PaidUnprovisioned && IsNew(w, id, f)
    ensures var w' := Apply(w, ProvisionPaid(h, now, Some(f)));
            && IsBought(w, w', id, f) && w'.stripe == w.stripe
            && w'.shop.payments[id].product == w.shop.payments[id].product
            && w'.shop.payments[id].checkout == w.shop.payments[id].checkout
            && w'.pinsShown == w.pinsShown && w'.couponsShown == w.couponsShown
  {
    CheckoutFinds(w, id, w.hooks[h].event.checkout);
    assert Apply(w, ProvisionPaid(h, now, Some(f))) == ApplyFulfilment(w, ProvisionPaid(h, now, Some(f)));
  }

  lemma SessionResolves(s: Scope, id: nat, now: int, f: Option<Fulfillment>)
    requires s.row.status == Provisioned && s.row.product == DirectSession
    requires s.row.session.Some? && s.row.pin.Some? && s.row.revealExpires.Some?
    ensures ResolveScope(s, id, now, true, f).1 ==
            if s.row.revealConsumed != None then RevealConsumed
            else if s.row.revealExpires.value <= now then RevealExpired
            else RevealedPin(s.row.session.value, s.row.pin.value)
  {
  }

  /** A poll of a provisioned session before it expires shows its code and PIN, once. */
  lemma SessionPollShows(w: World, checkout: string, id: nat, now: int, f: Option<Fulfillment>)
    requires Inv(w) && WellGenerated(f) && checkout in w.stripe && id in w.shop.payments
    requires w.shop.payments[id].checkout == Some(checkout) && w.shop.payments[id].status == Provisioned
    requires w.shop.payments[id].product == DirectSession
    ensures var row, w' := w.shop.payments[id], Apply(w, PollCheckout(checkout, now, f));
            && row.session.Some? && row.pin.Some? && row.revealExpires.Some? && w'.couponsShown == w.couponsShown
            && w'.pinsShown == w.pinsShown + (if row.revealConsumed == None && now < row.revealExpires.value
                                              then [Reveal(id, row.session.value, row.pin.value, now)] else [])
  {
    CheckoutFinds(w, id, checkout);
    assert RowInv(w.stripe, w.confirmed, w.shop, id, w.shop.payments[id]);
    SessionResolves(ScopeOf(w, id), id, now, f);
    assert Apply(w, PollCheckout(checkout, now, f)) == ApplyFulfilment(w, PollCheckout(checkout, now, f));
  }

  /** A poll of a provisioned pack shows its coupon. */
  lemma PackPollShows(w: World, checkout: string, id: nat, now: int, f: Option<Fulfillment>)
    requires Inv(w) && WellGenerated(f) && checkout in w.stripe && id in w.shop.payments
    requires w.shop.payments[id].checkout == Some(checkout) && w.shop.payments[id].status == Provisioned
    requires w.shop.payments[id].product == CouponPack10
    ensures var row, w' := w.shop.payments[id], Apply(w, PollCheckout(checkout, now, f));
            && row.coupon.Some? && w'.pinsShown == w.pinsShown
            && w'.couponsShown == w.couponsShown + [(id, row.coupon.value)]
  {
    CheckoutFinds(w, id, checkout);
    assert RowInv(w.stripe, w.confirmed, w.shop, id, w.shop.payments[id]);
    assert Apply(w, PollCheckout(checkout, now, f)) == ApplyFulfilment(w, PollCheckout(checkout, now, f));
  }

  // ----- progress -----

  ghost predicate Leads(w: World, es: seq<Step>, w': World) { Runnable(w, es) && After(w, es) == w' }

  lemma Take(w: World, es: seq<Step>, mid: World, e: Step) returns (more: seq<Step>)
    requires Leads(w, es, mid) && Enabled(mid, e)
    ensures more == es + [e] && Leads(w, more, Apply(mid, e))
  {
    more := es + [e];
    assert more[..|more| - 1] == es;
  }

  lemma SameNew(a: World, b: World, id: nat, f: Fulfillment)
    requires id in a.shop.payments && id in b.shop.payments && SameTables(a, b) && IsNew(a, id, f)
    requires b.shop.payments[id].product == a.shop.payments[id].product
    ensures IsNew(b, id, f)
  {
  }

  lemma BoughtFrom(a: World, b: World, c: World, id: nat, f: Fulfillment)
    requires id in a.shop.payments && OnlyPayment(a, b, id) && IsBought(b, c, id, f)
    requires b.shop.payments[id].product == a.shop.payments[id].product
    ensures IsBought(a, c, id, f)
  {
  }

  lemma PaidAfter(w: World, read: World, h: nat, event: Event, id: nat) returns (paid: World)
    requires Inv(read) && event.checkout in w.stripe && id == w.stripe[event.checkout] && id in w.shop.payments
    requires OnlyPayment(w, read, id) && h in read.hooks && read.hooks[h] == Matched(event)
    requires read.shop.payments[id] == w.shop.payments[id].(checkout := Some(event.checkout))
    requires w.shop.payments[id].status == Pending
    ensures Enabled(read, MarkPaid(h)) && paid == Apply(read, MarkPaid(h)) && Inv(paid) && OnlyPayment(w, paid, id)
    ensures h in paid.hooks && paid.hooks[h] == Paid(event) && paid.shop.payments[id].status == PaidUnprovisioned
    ensures paid.shop.payments[id].checkout == Some(event.checkout)
    ensures paid.shop.payments[id].product == w.shop.payments[id].product
  {
    paid := Apply(read, MarkPaid(h));
    EventPays(read, h);
    StepKeepsInv(read, MarkPaid(h));
  }

  lemma EventIsPaid(w: World, h: nat, event: Event) returns (es: seq<Step>, paid: World)
    requires Inv(w) && h !in w.hooks && event.checkout in w.stripe && w.stripe[event.checkout] in w.shop.payments
    requires var row := w.shop.payments[w.stripe[event.checkout]]; row.status == Pending && HasTerms(event, row)
    ensures es == [Receive(h, event), MarkPaid(h)] && Leads(w, es, paid) && Inv(paid)
    ensures var id := w.stripe[event.checkout];
            && OnlyPayment(w, paid, id) && h in paid.hooks && paid.hooks[h] == Paid(event)
            && paid.shop.payments[id].status == PaidUnprovisioned
            && paid.shop.payments[id].checkout == Some(event.checkout)
            && paid.shop.payments[id].product == w.shop.payments[id].product
  {
    assert Leads(w, [], w);
    es := Take(w, [], w, Receive(h, event));
    var read := Apply(w, Receive(h, event));
    EventIsRead(w, h, event);
    StepKeepsInv(w, Receive(h, event));
    paid := PaidAfter(w, read, h, event, w.stripe[event.checkout]);
    es := Take(w, es, read, MarkPaid(h));
  }

  /** From every reachable shop, a pending payment whose completed checkout is received with its terms is provisioned:
      received, marked and provisioned with new codes, it has bought exactly what it was for, and nothing
        else changed. */
  lemma PaidIsDelivered(w: World, h: nat, event: Event, now: int, f: Fulfillment) returns (es: seq<Step>, w': World)
    requires Inv(w) && h !in w.hooks && event.checkout in w.stripe && WellGenerated(Some(f))
    requires w.stripe[event.checkout] in w.shop.payments
    requires var row := w.shop.payments[w.stripe[event.checkout]]; row.status == Pending && HasTerms(event, row)
    requires IsNew(w, w.stripe[event.checkout], f)
    ensures es == [Receive(h, event), MarkPaid(h), ProvisionPaid(h, now, Some(f))] && Leads(w, es, w') && Inv(w')
    ensures IsBought(w, w', w.stripe[event.checkout], f) && w'.stripe == w.stripe
    ensures w'.shop.payments[w.stripe[event.checkout]].checkout == Some(event.checkout)
    ensures w'.shop.payments[w.stripe[event.checkout]].product == w.shop.payments[w.stripe[event.checkout]].product
    ensures w'.pinsShown == w.pinsShown && w'.couponsShown == w.couponsShown
  {
    var id := w.stripe[event.checkout];
    var paid: World;
    es, paid := EventIsPaid(w, h, event);
    SameNew(w, paid, id, f);
    PaidIsProvisioned(paid, h, id, now, f);
    StepKeepsInv(paid, ProvisionPaid(h, now, Some(f)));
    es := Take(w, es, paid, ProvisionPaid(h, now, Some(f)));
    w' := Apply(paid, ProvisionPaid(h, now, Some(f)));
    BoughtFrom(w, paid, w', id, f);
  }

  /** And the next poll before it expires shows the customer what was bought. */
  lemma DeliveredIsShown(w: World, h: nat, event: Event, now: int, f: Fulfillment, later: int) returns (es: seq<Step>)
    requires Inv(w) && h !in w.hooks && event.checkout in w.stripe && WellGenerated(Some(f))
    requires w.stripe[event.checkout] in w.shop.payments
    requires var row := w.shop.payments[w.stripe[event.checkout]]; row.status == Pending && HasTerms(event, row)
    requires IsNew(w, w.stripe[event.checkout], f) && later < f.revealExpires
    ensures |es| == 4 && es[3] == PollCheckout(event.checkout, later, None) && Runnable(w, es)
    ensures var id := w.stripe[event.checkout];
            if w.shop.payments[id].product == DirectSession then
              After(w, es).pinsShown == w.pinsShown + [Reveal(id, f.sessionCode, f.pin, later)]
            else After(w, es).couponsShown == w.couponsShown + [(id, f.couponCode)]
  {
    var w': World;
    es, w' := PaidIsDelivered(w, h, event, now, f);
    if w'.shop.payments[w.stripe[event.checkout]].product == DirectSession {
      SessionPollShows(w', event.checkout, w.stripe[event.checkout], later, None);
    } else {
      PackPollShows(w', event.checkout, w.stripe[event.checkout], later, None);
    }
    es := Take(w, es, w', PollCheckout(event.checkout, later, None));
  }

  // ----- coupons -----

  /** A coupon with a use left that has not expired makes the session and loses one use; any other claim changes
      nothing. */
  lemma CouponIsClaimed(w: World, e: Step)
    requires Enabled(w, e) && e.ClaimCoupon?
    ensures var w' := Apply(w, e);
            if e.code in w.shop.coupons && w.shop.coupons[e.code].uses < w.shop.coupons[e.code].maxUses
               && (w.shop.coupons[e.code].expires == None || e.now < w.shop.coupons[e.code].expires.value)
               && e.sessionCode !in w.shop.sessions
            then
              var row := w.shop.coupons[e.code];
              && w'.shop.coupons == w.shop.coupons[e.code := row.(uses := row.uses + 1)]
              && w'.shop.sessions ==
                 w.shop.sessions[e.sessionCode := SessionRecord(FromCoupon(e.code, row.maxUses, row.uses + 1), e.pin)]
              && w'.shop.payments == w.shop.payments
            else w' == w
  {
    assert Apply(w, e) == ApplyCoupon(w, e);
  }
}
