/** What payments and coupons promise over every run of webhooks, polls, claims and failures. */
module PaymentTheorems {
  import opened Text
  import opened PaymentStore
  import opened PaymentSafety

  // ----- payments only go on -----

  predicate GoesOn(a: PaymentRow, b: PaymentRow) {
    RowAdvances(a, b) && Rank(a.status) <= Rank(b.status)
  }

  ghost predicate PaymentsGoOn(a: map<nat, PaymentRow>, b: map<nat, PaymentRow>) {
    forall id :: id in a ==> id in b && GoesOn(a[id], b[id])
  }

  lemma RowPut(w: World, id: nat, row: PaymentRow)
    requires id in w.shop.payments && GoesOn(w.shop.payments[id], row)
    ensures PaymentsGoOn(w.shop.payments, WithRow(w, id, row).shop.payments)
  {
  }

  lemma FailureGoesOn(w: World, e: Step)
    requires Enabled(w, e) && e.FailCheckout?
    ensures PaymentsGoOn(w.shop.payments, Apply(w, e).shop.payments)
  {
    var lock := LockAndAttach(w.shop.payments, Reference(Some(e.id), e.checkout));
    if lock.Locked? { RowPut(w, lock.id, MarkedFailed(w.shop.payments[lock.id], e.checkout, e.code)); }
  }

  lemma NoteGoesOn(w: World, e: Step)
    requires Enabled(w, e) && e.NoteFailure?
    ensures PaymentsGoOn(w.shop.payments, Apply(w, e).shop.payments)
  {
    var found := ByCheckout(w.shop.payments, NullableText(e.checkout));
    if found.Some? { RowPut(w, found.value, NotedFailure(w.shop.payments[found.value], e.code)); }
  }

  lemma CheckoutsGoOn(w: World, e: Step)
    requires Enabled(w, e) && (e.AttachCheckout? || e.CreatePayment? || e.CreateStripeCheckout?)
    ensures PaymentsGoOn(w.shop.payments, Apply(w, e).shop.payments)
  {
    if e.AttachCheckout? && w.stripe[e.checkout] in w.shop.payments {
      RowPut(w, w.stripe[e.checkout], w.shop.payments[w.stripe[e.checkout]].(checkout := Some(e.checkout)));
    }
  }

  lemma ReceiptGoesOn(w: World, e: Step)
    requires Enabled(w, e) && e.Receive?
    ensures PaymentsGoOn(w.shop.payments, ApplyHook(w, e).shop.payments)
  {
    var lock := LockAndAttach(w.shop.payments, RefOf(w, e.event));
    if lock.Locked? { RowPut(w, lock.id, Attached(w.shop.payments[lock.id], e.event.checkout)); }
  }

  lemma HooksGoOn(w: World, e: Step)
    requires Enabled(w, e) && (e.MarkPaid? || e.FailMismatched?)
    ensures PaymentsGoOn(w.shop.payments, ApplyHook(w, e).shop.payments)
  {
    var event := w.hooks[e.h].event;
    var lock := LockAndAttach(w.shop.payments, RefOf(w, event));
    if lock.Locked? {
      var row := w.shop.payments[lock.id];
      RowPut(w, lock.id, if e.MarkPaid? then MarkedPaid(row, event.checkout)
                         else MarkedFailed(row, event.checkout, "PAYMENT_AMOUNT_MISMATCH"));
    }
  }

  lemma ResolutionsGoOn(w: World, checkout: string, now: int, forPoll: bool, f: Option<Fulfillment>)
    requires Inv(w) && WellGenerated(f)
    ensures PaymentsGoOn(w.shop.payments, Resolve(w, checkout, now, forPoll, f).0.shop.payments)
  {
    ResolveKeeps(w, checkout, now, forPoll, f);
    var (w', id, o) := Resolve(w, checkout, now, forPoll, f);
    if id.Some? { RowPut(w, id.value, w'.shop.payments[id.value]); }
  }

  /** Two worlds that differ at most in their hooks and what polls have shown. */
  predicate SameShop(a: World, b: World) { a.shop == b.shop && a.initialUses == b.initialUses }

  lemma ProvisionIsResolution(w: World, e: Step)
    requires Enabled(w, e) && e.ProvisionPaid?
    ensures SameShop(ApplyFulfilment(w, e), Resolve(w, CheckoutOf(w, e), e.now, false, e.f).0)
  {
  }

  lemma ShowingKeepsShop(w: World, id: nat, now: int, o: Outcome)
    ensures SameShop(Shown(w, id, now, o), w)
  {
  }

  lemma PollIsResolution(w: World, e: Step)
    requires Enabled(w, e) && e.PollCheckout?
    ensures SameShop(ApplyFulfilment(w, e), Resolve(w, CheckoutOf(w, e), e.now, true, e.f).0)
  {
    var (w', id, o) := Resolve(w, CheckoutOf(w, e), e.now, true, e.f);
    if id.Some? { ShowingKeepsShop(w', id.value, e.now, o); }
  }

  lemma FulfilmentIsResolution(w: World, e: Step)
    requires Enabled(w, e) && IsFulfilment(e)
    ensures SameShop(Apply(w, e), Resolve(w, CheckoutOf(w, e), e.now, e.PollCheckout?, e.f).0)
  {
    if e.ProvisionPaid? { ProvisionIsResolution(w, e); } else { PollIsResolution(w, e); }
  }

  lemma FulfilmentsGoOn(w: World, e: Step)
    requires Inv(w) && Enabled(w, e) && IsFulfilment(e)
    ensures PaymentsGoOn(w.shop.payments, Apply(w, e).shop.payments)
  {
    FulfilmentIsResolution(w, e);
    ResolutionsGoOn(w, CheckoutOf(w, e), e.now, e.PollCheckout?, e.f);
  }

  lemma StepGoesOn(w: World, e: Step)
    requires Inv(w) && Enabled(w, e)
    ensures PaymentsGoOn(w.shop.payments, Apply(w, e).shop.payments)
  {
    if IsHook(e) {
      if e.Receive? { ReceiptGoesOn(w, e); } else { HooksGoOn(w, e); }
    } else if IsFulfilment(e) {
      FulfilmentsGoOn(w, e);
    } else if IsCoupon(e) {
      OtherRowsKeep(w, e);
    } else if e.FailCheckout? {
      FailureGoesOn(w, e);
    } else if e.NoteFailure? {
      NoteGoesOn(w, e);
    } else {
      CheckoutsGoOn(w, e);
    }
  }

  /** Over every run a payment's status never goes down, its terms never change, and what it bought, the PIN to it and
      the moment that PIN was revealed are fixed once they exist. */
  lemma {:induction false} StatusNeverFalls(w: World, es: seq<Step>)
    requires Inv(w) && Runnable(w, es)
    ensures PaymentsGoOn(w.shop.payments, After(w, es).shop.payments)
    decreases |es|
  {
    if es != [] {
      var mid := After(w, es[..|es| - 1]);
      StatusNeverFalls(w, es[..|es| - 1]);
      RunKeepsInv(w, es[..|es| - 1]);
      StepGoesOn(mid, es[|es| - 1]);
      forall id | id in w.shop.payments
        ensures id in After(w, es).shop.payments && GoesOn(w.shop.payments[id], After(w, es).shop.payments[id])
      {
        assert GoesOn(w.shop.payments[id], mid.shop.payments[id]);
        assert GoesOn(mid.shop.payments[id], After(w, es).shop.payments[id]);
      }
    }
  }

  // ----- provision once -----

  predicate SoldSession(shop: Shop, id: nat, code: string) {
    code in shop.sessions && shop.sessions[code].origin == FromPayment(id)
  }

  predicate SoldCoupon(shop: Shop, id: nat, code: string) {
    code in shop.coupons && shop.coupons[code].source == Some(id)
  }

  lemma OwnerNames(w: World, id: nat, code: string)
    requires Inv(w)
    ensures SoldSession(w.shop, id, code) ==> id in w.shop.payments && w.shop.payments[id].session == Some(code)
    ensures SoldCoupon(w.shop, id, code) ==> id in w.shop.payments && w.shop.payments[id].coupon == Some(code)
  {
    if SoldSession(w.shop, id, code) { assert SessionOwned(w.shop.payments, code, w.shop.sessions[code]); }
    if SoldCoupon(w.shop, id, code) { assert CouponOwned(w.shop.payments, code, w.shop.coupons[code]); }
  }

  /** However webhooks and polls race, a payment buys at most one thing: one session, or one coupon, never both. */
  lemma {:induction false} ProvisionOnce(es: seq<Step>, id: nat, a: string, b: string)
    requires Runnable(OPENING, es)
    ensures var shop := After(OPENING, es).shop;
            && (SoldSession(shop, id, a) && SoldSession(shop, id, b) ==> a == b)
            && (SoldCoupon(shop, id, a) && SoldCoupon(shop, id, b) ==> a == b)
            && !(SoldSession(shop, id, a) && SoldCoupon(shop, id, b))
  {
    RunKeepsInv(OPENING, es);
    var w := After(OPENING, es);
    OwnerNames(w, id, a);
    OwnerNames(w, id, b);
    if id in w.shop.payments { assert RowInv(w.stripe, w.confirmed, w.shop, id, w.shop.payments[id]); }
  }

  /** A payment waiting for money or for provisioning has bought nothing; a provisioned one has bought something. */
  lemma {:induction false} BoughtOnceProvisioned(es: seq<Step>, id: nat)
    requires Runnable(OPENING, es) && id in After(OPENING, es).shop.payments
    ensures var shop := After(OPENING, es).shop;
            var status := shop.payments[id].status;
            && (status.Pending? || status.PaidUnprovisioned? ==>
                forall code :: !SoldSession(shop, id, code) && !SoldCoupon(shop, id, code))
            && (status.Provisioned? ==> exists code :: SoldSession(shop, id, code) || SoldCoupon(shop, id, code))
  {
    RunKeepsInv(OPENING, es);
    var w := After(OPENING, es);
    var row := w.shop.payments[id];
    assert RowInv(w.stripe, w.confirmed, w.shop, id, row);
    if row.status.Provisioned? {
      var code := if row.session.Some? then row.session.value else row.coupon.value;
      assert SoldSession(w.shop, id, code) || SoldCoupon(w.shop, id, code);
    }
    forall code | row.status.Pending? || row.status.PaidUnprovisioned?
      ensures !SoldSession(w.shop, id, code) && !SoldCoupon(w.shop, id, code)
    {
      OwnerNames(w, id, code);
    }
  }

  predicate Sold(shop: Shop, id: nat, code: string) {
    SoldSession(shop, id, code) || SoldCoupon(shop, id, code)
  }

  /** Step i received a completed-checkout event of this payment's own checkout, with this payment's amount and
      currency, when the session or coupon had not been sold yet. */
  ghost predicate PaidFirst(es: seq<Step>, i: nat, id: nat, code: string)
    requires Runnable(OPENING, es)
  {
    var w := After(OPENING, es);
    && i < |es| && es[i].Receive? && EventOf(w.stripe, es[i].event, id)
    && id in w.shop.payments && Matches(es[i].event, w.shop.payments[id])
    && Runnable(OPENING, es[..i + 1]) && !Sold(After(OPENING, es[..i + 1]).shop, id, code)
  }

  /** What was sold stays sold. */
  lemma SoldStays(w: World, e: Step, id: nat, code: string)
    requires Inv(w) && Enabled(w, e) && Sold(w.shop, id, code)
    ensures Sold(Apply(w, e).shop, id, code)
  {
    var w' := Apply(w, e);
    OwnerNames(w, id, code);
    StepGoesOn(w, e);
    StepKeepsInv(w, e);
    assert GoesOn(w.shop.payments[id], w'.shop.payments[id]);
    assert RowInv(w'.stripe, w'.confirmed, w'.shop, id, w'.shop.payments[id]);
  }

  lemma {:induction false} UnsoldBefore(es: seq<Step>, n: nat, id: nat, code: string)
    requires Runnable(OPENING, es) && n <= |es| && !Sold(After(OPENING, es).shop, id, code)
    ensures Runnable(OPENING, es[..n]) && !Sold(After(OPENING, es[..n]).shop, id, code)
    decreases |es|
  {
    if n == |es| {
      assert es[..n] == es;
    } else {
      var init := es[..|es| - 1];
      RunKeepsInv(OPENING, init);
      if Sold(After(OPENING, init).shop, id, code) { SoldStays(After(OPENING, init), es[|es| - 1], id, code); }
      UnsoldBefore(init, n, id, code);
      assert init[..n] == es[..n];
    }
  }

  lemma StripeStays(w: World, e: Step)
    requires Enabled(w, e)
    ensures forall k :: k in w.stripe ==> k in Apply(w, e).stripe && Apply(w, e).stripe[k] == w.stripe[k]
  {
  }

  lemma OnlyFulfilmentSells(w: World, e: Step, id: nat, code: string)
    requires Enabled(w, e) && !IsFulfilment(e) && Sold(Apply(w, e).shop, id, code)
    ensures Sold(w.shop, id, code)
  {
    if !IsCoupon(e) { MarkKeepsTables(w, e); }
  }

  /** The step that sells finds its payment confirmed by an event received earlier. */
  lemma SaleFindsConfirmation(w: World, e: Step, id: nat, code: string)
    requires Inv(w) && Enabled(w, e) && Sold(Apply(w, e).shop, id, code) && !Sold(w.shop, id, code)
    ensures var w' := Apply(w, e);
            id in w.confirmed && id in w'.shop.payments && Confirmed(w'.stripe, w.confirmed, id, w'.shop.payments[id])
  {
    var w' := Apply(w, e);
    StepKeepsInv(w, e);
    OwnerNames(w', id, code);
    assert RowInv(w'.stripe, w'.confirmed, w'.shop, id, w'.shop.payments[id]);
    if !IsFulfilment(e) { OnlyFulfilmentSells(w, e, id, code); }
    FulfilmentConfirmsNothing(w, e);
  }

  lemma {:induction false} SaleIsConfirmed(es: seq<Step>, id: nat, code: string) returns (i: nat)
    requires Runnable(OPENING, es) && Sold(After(OPENING, es).shop, id, code)
    requires es != [] && !Sold(After(OPENING, es[..|es| - 1]).shop, id, code)
    ensures i < |es| - 1 && es[i].Receive? && EventOf(After(OPENING, es).stripe, es[i].event, id)
    ensures id in After(OPENING, es).shop.payments && Matches(es[i].event, After(OPENING, es).shop.payments[id])
  {
    var init := es[..|es| - 1];
    RunKeepsInv(OPENING, init);
    SaleFindsConfirmation(After(OPENING, init), es[|es| - 1], id, code);
    ConfirmationWasReceived(init, id);
    i :| 0 <= i < |init| && init[i].Receive? && init[i].event == After(OPENING, init).confirmed[id];
    assert es[i] == init[i];
  }

  /** An event of a payment's own checkout, with the payment's terms, stays one. */
  lemma EventStays(w: World, e: Step, event: Event, id: nat)
    requires Inv(w) && Enabled(w, e) && EventOf(w.stripe, event, id)
    requires id in w.shop.payments && Matches(event, w.shop.payments[id])
    ensures EventOf(Apply(w, e).stripe, event, id)
    ensures id in Apply(w, e).shop.payments && Matches(event, Apply(w, e).shop.payments[id])
  {
    StripeStays(w, e);
    StepGoesOn(w, e);
    assert GoesOn(w.shop.payments[id], Apply(w, e).shop.payments[id]);
  }

  lemma {:induction false} PaidFirstStays(es: seq<Step>, i: nat, id: nat, code: string)
    requires Runnable(OPENING, es) && es != [] && PaidFirst(es[..|es| - 1], i, id, code)
    ensures PaidFirst(es, i, id, code)
  {
    var init, e := es[..|es| - 1], es[|es| - 1];
    RunKeepsInv(OPENING, init);
    EventStays(After(OPENING, init), e, init[i].event, id);
    assert init[..i + 1] == es[..i + 1] && init[i] == es[i];
  }

  /** Nothing is sold for a payment unless, before the sale, the run received a completed-checkout event of that
      payment's own checkout whose amount and currency matched the payment's. */
  lemma {:induction false} NoFulfilmentWithoutPayment(es: seq<Step>, id: nat, code: string) returns (i: nat)
    requires Runnable(OPENING, es) && Sold(After(OPENING, es).shop, id, code)
    ensures PaidFirst(es, i, id, code)
    decreases |es|
  {
    var init := es[..|es| - 1];
    if Sold(After(OPENING, init).shop, id, code) {
      i := NoFulfilmentWithoutPayment(init, id, code);
      PaidFirstStays(es, i, id, code);
    } else {
      i := SaleIsConfirmed(es, id, code);
      UnsoldBefore(init, i + 1, id, code);
      assert init[..i + 1] == es[..i + 1];
    }
  }

  lemma {:induction false} ConfirmationWasReceived(es: seq<Step>, id: nat)
    requires Runnable(OPENING, es) && id in After(OPENING, es).confirmed
    ensures exists i :: 0 <= i < |es| && es[i].Receive? && es[i].event == After(OPENING, es).confirmed[id]
    decreases |es|
  {
    var init := es[..|es| - 1];
    var before := After(OPENING, init);
    var e := es[|es| - 1];
    if e.Receive? && Apply(before, e).confirmed != before.confirmed && Apply(before, e).confirmed[id] == e.event {
      assert es[|es| - 1].event == After(OPENING, es).confirmed[id];
    } else {
      OnlyReceivingConfirms(before, e);
      ConfirmationWasReceived(init, id);
      var i :| 0 <= i < |init| && init[i].Receive? && init[i].event == before.confirmed[id];
      assert es[i] == init[i];
    }
  }

  lemma OnlyReceivingConfirms(w: World, e: Step)
    requires Enabled(w, e)
    ensures forall id :: id in Apply(w, e).confirmed ==>
                           (id in w.confirmed && Apply(w, e).confirmed[id] == w.confirmed[id])
                           || (e.Receive? && Apply(w, e).confirmed != w.confirmed
                               && Apply(w, e).confirmed[id] == e.event)
  {
    if IsHook(e) {
      assert Apply(w, e) == ApplyHook(w, e);
    } else if IsFulfilment(e) {
      FulfilmentConfirmsNothing(w, e);
    } else {
      assert Apply(w, e).confirmed == w.confirmed;
    }
  }

  lemma FulfilmentConfirmsNothing(w: World, e: Step)
    requires Enabled(w, e) && IsFulfilment(e)
    ensures Apply(w, e).confirmed == w.confirmed
  {
  }

  // ----- reveal once -----

  /** A payment's PIN is shown by at most one poll of the whole run, before it expires, and the code and PIN shown are
      those of the session the payment bought. */
  lemma {:induction false} RevealOnce(es: seq<Step>, i: nat, j: nat)
    requires Runnable(OPENING, es) && i < |After(OPENING, es).pinsShown| && j < |After(OPENING, es).pinsShown|
    ensures var w := After(OPENING, es);
            var shown := w.pinsShown[i];
            && (shown.payment == w.pinsShown[j].payment ==> i == j)
            && shown.payment in w.shop.payments && w.shop.payments[shown.payment].revealExpires.Some?
            && shown.at < w.shop.payments[shown.payment].revealExpires.value
            && shown.code in w.shop.sessions
            && w.shop.sessions[shown.code] == SessionRecord(FromPayment(shown.payment), shown.pin)
  {
    RunKeepsInv(OPENING, es);
    var w := After(OPENING, es);
    var shown := w.pinsShown[i];
    assert RevealInv(w.shop.payments, shown);
    assert RowInv(w.stripe, w.confirmed, w.shop, shown.payment, w.shop.payments[shown.payment]);
  }

  /** Every poll of a coupon-pack payment shows the same code, that of the coupon the payment bought. */
  lemma {:induction false} CouponPollsAgree(es: seq<Step>, i: nat, j: nat)
    requires Runnable(OPENING, es) && i < |After(OPENING, es).couponsShown| && j < |After(OPENING, es).couponsShown|
    ensures var w := After(OPENING, es);
            && (w.couponsShown[i].0 == w.couponsShown[j].0 ==> w.couponsShown[i].1 == w.couponsShown[j].1)
            && SoldCoupon(w.shop, w.couponsShown[i].0, w.couponsShown[i].1)
  {
    RunKeepsInv(OPENING, es);
    var w := After(OPENING, es);
    var id := w.couponsShown[i].0;
    assert RowInv(w.stripe, w.confirmed, w.shop, id, w.shop.payments[id]);
  }

  // ----- coupons are conserved -----

  predicate ClaimedBy(sessions: map<string, SessionRecord>, s: string, coupon: string) {
    s in sessions && sessions[s].origin.FromCoupon? && sessions[s].origin.coupon == coupon
  }

  function ClaimedWith(sessions: map<string, SessionRecord>, coupon: string): set<string> {
    set s | s in sessions && ClaimedBy(sessions, s, coupon)
  }

  ghost predicate UseTaken(sessions: map<string, SessionRecord>, coupon: string, n: nat) {
    exists s :: ClaimedBy(sessions, s, coupon) && sessions[s].origin.usesAtClaim == n
  }

  /** The sessions claimed with a coupon recorded different uses of it, within its own. */
  ghost predicate Snapshots(sessions: map<string, SessionRecord>, coupon: string, row: CouponRow, initial: nat) {
    && (forall s :: ClaimedBy(sessions, s, coupon) ==>
          initial < sessions[s].origin.usesAtClaim <= row.uses && sessions[s].origin.maxAtClaim == row.maxUses)
    && (forall s, t :: ClaimedBy(sessions, s, coupon) && ClaimedBy(sessions, t, coupon) && s != t ==>
          sessions[s].origin.usesAtClaim != sessions[t].origin.usesAtClaim)
  }

  ghost predicate AllUsesTaken(sessions: map<string, SessionRecord>, coupon: string, initial: nat, uses: nat) {
    forall n: nat :: initial < n <= uses ==> UseTaken(sessions, coupon, n)
  }

  /** One coupon: its uses are its sessions, and the uses they found on it are each number once. */
  ghost predicate CouponInv(sessions: map<string, SessionRecord>, coupon: string, row: CouponRow, initial: nat) {
    && initial <= row.uses <= row.maxUses
    && |ClaimedWith(sessions, coupon)| == row.uses - initial
    && Snapshots(sessions, coupon, row, initial)
    && AllUsesTaken(sessions, coupon, initial, row.uses)
    && (row.source.Some? ==> initial == 0 && row.maxUses == COUPON_PACK_USES)
  }

  ghost predicate EachCoupon(sessions: map<string, SessionRecord>, coupons: map<string, CouponRow>,
                             initial: map<string, nat>) {
    && coupons.Keys <= initial.Keys
    && forall c {:trigger CouponInv(sessions, c, coupons[c], initial[c])} :: c in coupons ==>
         CouponInv(sessions, c, coupons[c], initial[c])
  }

  ghost predicate KnownCoupons(sessions: map<string, SessionRecord>, coupons: map<string, CouponRow>) {
    forall s :: s in sessions && sessions[s].origin.FromCoupon? ==> sessions[s].origin.coupon in coupons
  }

  ghost predicate TablesInv(sessions: map<string, SessionRecord>, coupons: map<string, CouponRow>,
                            initial: map<string, nat>) {
    && initial.Keys == coupons.Keys
    && EachCoupon(sessions, coupons, initial)
    && KnownCoupons(sessions, coupons)
  }

  ghost predicate CouponsInv(w: World) {
    TablesInv(w.shop.sessions, w.shop.coupons, w.initialUses)
  }

  lemma TakenStays(sessions: map<string, SessionRecord>, coupon: string, initial: nat, uses: nat, code: string,
                   r: SessionRecord)
    requires AllUsesTaken(sessions, coupon, initial, uses) && code !in sessions
    ensures AllUsesTaken(sessions[code := r], coupon, initial, uses)
  {
    var after := sessions[code := r];
    forall n: nat | initial < n <= uses
      ensures UseTaken(after, coupon, n)
    {
      assert UseTaken(sessions, coupon, n);
      var s :| ClaimedBy(sessions, s, coupon) && sessions[s].origin.usesAtClaim == n;
      assert ClaimedBy(after, s, coupon);
    }
  }

  /** A session not made with a coupon changes nothing for it. */
  lemma SessionElsewhere(sessions: map<string, SessionRecord>, coupon: string, row: CouponRow, initial: nat,
                         code: string, r: SessionRecord)
    requires CouponInv(sessions, coupon, row, initial) && code !in sessions
             && (r.origin.FromCoupon? ==> r.origin.coupon != coupon)
    ensures CouponInv(sessions[code := r], coupon, row, initial)
  {
    assert ClaimedWith(sessions[code := r], coupon) == ClaimedWith(sessions, coupon);
    TakenStays(sessions, coupon, initial, row.uses, code, r);
  }

  lemma ClaimCounts(sessions: map<string, SessionRecord>, coupon: string, row: CouponRow, initial: nat, code: string,
                    r: SessionRecord)
    requires CouponInv(sessions, coupon, row, initial) && row.uses < row.maxUses && code !in sessions
    requires r.origin == FromCoupon(coupon, row.maxUses, row.uses + 1)
    ensures CouponInv(sessions[code := r], coupon, row.(uses := row.uses + 1), initial)
  {
    var after := sessions[code := r];
    assert ClaimedWith(after, coupon) == ClaimedWith(sessions, coupon) + {code};
    ClaimSnapshots(sessions, coupon, row, initial, code, r);
    TakenStays(sessions, coupon, initial, row.uses, code, r);
    assert ClaimedBy(after, code, coupon);
    assert UseTaken(after, coupon, row.uses + 1);
  }

  lemma ClaimSnapshots(sessions: map<string, SessionRecord>, coupon: string, row: CouponRow, initial: nat,
                       code: string, r: SessionRecord)
    requires Snapshots(sessions, coupon, row, initial) && initial <= row.uses && code !in sessions
    requires r.origin == FromCoupon(coupon, row.maxUses, row.uses + 1)
    ensures Snapshots(sessions[code := r], coupon, row.(uses := row.uses + 1), initial)
  {
  }

  lemma ClaimKeepsEach(sessions: map<string, SessionRecord>, coupons: map<string, CouponRow>, initial: map<string, nat>,
                       code: string, session: string, r: SessionRecord)
    requires EachCoupon(sessions, coupons, initial) && code in coupons && coupons[code].uses < coupons[code].maxUses
    requires session !in sessions && r.origin == FromCoupon(code, coupons[code].maxUses, coupons[code].uses + 1)
    ensures EachCoupon(sessions[session := r], coupons[code := coupons[code].(uses := coupons[code].uses + 1)], initial)
  {
    var after := coupons[code := coupons[code].(uses := coupons[code].uses + 1)];
    forall c | c in after
      ensures CouponInv(sessions[session := r], c, after[c], initial[c])
    {
      assert CouponInv(sessions, c, coupons[c], initial[c]);
      if c == code {
        ClaimCounts(sessions, c, coupons[c], initial[c], session, r);
      } else {
        SessionElsewhere(sessions, c, coupons[c], initial[c], session, r);
      }
    }
  }

  lemma ClaimKeepsTables(sessions: map<string, SessionRecord>, coupons: map<string, CouponRow>,
                         initial: map<string, nat>,
                         code: string, session: string, r: SessionRecord)
    requires TablesInv(sessions, coupons, initial) && code in coupons && coupons[code].uses < coupons[code].maxUses
    requires session !in sessions && r.origin == FromCoupon(code, coupons[code].maxUses, coupons[code].uses + 1)
    ensures TablesInv(sessions[session := r], coupons[code := coupons[code].(uses := coupons[code].uses + 1)], initial)
  {
    ClaimKeepsEach(sessions, coupons, initial, code, session, r);
  }

  lemma ClaimKeepsCoupons(w: World, e: Step)
    requires CouponsInv(w) && e.ClaimCoupon? && Enabled(w, e)
    ensures CouponsInv(Apply(w, e))
  {
    if CanClaim(w.shop.coupons, e.code, e.now) && e.sessionCode !in w.shop.sessions {
      var row := w.shop.coupons[e.code];
      ClaimKeepsTables(w.shop.sessions, w.shop.coupons, w.initialUses, e.code, e.sessionCode,
                       SessionRecord(FromCoupon(e.code, row.maxUses, row.uses + 1), e.pin));
    }
  }

  lemma NewCouponKeepsTables(sessions: map<string, SessionRecord>, coupons: map<string, CouponRow>,
                             initial: map<string, nat>,
                             code: string, row: CouponRow)
    requires TablesInv(sessions, coupons, initial) && code !in coupons
    requires row.uses <= row.maxUses && (row.source.Some? ==> row.uses == 0 && row.maxUses == COUPON_PACK_USES)
    ensures TablesInv(sessions, coupons[code := row], initial[code := row.uses])
  {
  }

  lemma SoldSessionKeepsTables(sessions: map<string, SessionRecord>, coupons: map<string, CouponRow>,
                               initial: map<string, nat>,
                               code: string, r: SessionRecord)
    requires TablesInv(sessions, coupons, initial) && code !in sessions && r.origin.FromPayment?
    ensures TablesInv(sessions[code := r], coupons, initial)
  {
    forall c | c in coupons
      ensures CouponInv(sessions[code := r], c, coupons[c], initial[c])
    {
      SessionElsewhere(sessions, c, coupons[c], initial[c], code, r);
    }
  }

  lemma IssueKeepsCoupons(w: World, e: Step)
    requires CouponsInv(w) && e.IssueCoupon? && Enabled(w, e)
    ensures CouponsInv(Apply(w, e))
  {
  }

  /** A fulfilment adds one session that no coupon paid for, or one unused coupon. */
  lemma InstallKeepsCoupons(w: World, id: nat, s: Scope, f: Fulfillment)
    requires CouponsInv(w) && id in w.shop.payments && OneBought(ScopeOf(w, id), s, id, f)
    ensures CouponsInv(Install(w, id, s))
  {
    var w' := Install(w, id, s);
    if w.shop.payments[id].product.DirectSession? {
      SoldSessionKeepsTables(w.shop.sessions, w.shop.coupons, w.initialUses, f.sessionCode,
                             SessionRecord(FromPayment(id), f.pin));
      assert w'.initialUses == w.initialUses;
    } else {
      NewCouponKeepsTables(w.shop.sessions, w.shop.coupons, w.initialUses, f.couponCode,
                           CouponRow(COUPON_PACK_USES, 0, None, Some(id)));
      assert w'.initialUses == w.initialUses[f.couponCode := 0];
    }
  }

  lemma ResolveKeepsCoupons(w: World, checkout: string, now: int, forPoll: bool, f: Option<Fulfillment>)
    requires CouponsInv(w)
    ensures CouponsInv(Resolve(w, checkout, now, forPoll, f).0)
  {
    var found := ByCheckout(w.shop.payments, NullableText(checkout));
    if found.Some? {
      var s := ResolveScope(ScopeOf(w, found.value), found.value, now, forPoll, f).0;
      FailedProvisioningLeavesNothing(ScopeOf(w, found.value), found.value, now, forPoll, f);
      if s.row.status != w.shop.payments[found.value].status {
        InstallKeepsCoupons(w, found.value, s, f.value);
      } else {
        assert Install(w, found.value, s).initialUses == w.initialUses;
      }
    }
  }

  lemma SameTablesKeepCoupons(w: World, w': World)
    requires CouponsInv(w) && SameTables(w, w')
    ensures CouponsInv(w')
  {
  }

  lemma FulfilmentKeepsCoupons(w: World, e: Step)
    requires CouponsInv(w) && Enabled(w, e) && IsFulfilment(e)
    ensures CouponsInv(Apply(w, e))
  {
    FulfilmentIsResolution(w, e);
    ResolveKeepsCoupons(w, CheckoutOf(w, e), e.now, e.PollCheckout?, e.f);
    SameTablesKeepCoupons(Resolve(w, CheckoutOf(w, e), e.now, e.PollCheckout?, e.f).0, Apply(w, e));
  }

  lemma MarkKeepsTables(w: World, e: Step)
    requires Enabled(w, e) && (IsHook(e) || IsCheckout(e))
    ensures SameTables(w, Apply(w, e))
  {
  }

  lemma StepKeepsCoupons(w: World, e: Step)
    requires CouponsInv(w) && Enabled(w, e)
    ensures CouponsInv(Apply(w, e))
  {
    if e.ClaimCoupon? {
      ClaimKeepsCoupons(w, e);
    } else if e.IssueCoupon? {
      IssueKeepsCoupons(w, e);
    } else if IsFulfilment(e) {
      FulfilmentKeepsCoupons(w, e);
    } else {
      MarkKeepsTables(w, e);
      SameTablesKeepCoupons(w, Apply(w, e));
    }
  }

  lemma {:induction false} RunKeepsCoupons(es: seq<Step>)
    requires Runnable(OPENING, es)
    ensures CouponsInv(After(OPENING, es))
    decreases |es|
  {
    if es != [] {
      RunKeepsCoupons(es[..|es| - 1]);
      StepKeepsCoupons(After(OPENING, es[..|es| - 1]), es[|es| - 1]);
    }
  }

  /** The uses a coupon has lost are exactly the sessions claimed with it, never more than it had; the counts those
      sessions recorded are the numbers after its initial uses, each once. */
  lemma {:induction false} CouponsAreConserved(es: seq<Step>, coupon: string)
    requires Runnable(OPENING, es) && coupon in After(OPENING, es).shop.coupons
    ensures var w := After(OPENING, es);
            var row := w.shop.coupons[coupon];
            && coupon in w.initialUses && w.initialUses[coupon] <= row.uses <= row.maxUses
            && |ClaimedWith(w.shop.sessions, coupon)| == row.uses - w.initialUses[coupon]
            && (forall n: nat :: w.initialUses[coupon] < n <= row.uses <==> UseTaken(w.shop.sessions, coupon, n))
  {
    RunKeepsCoupons(es);
    var w := After(OPENING, es);
    assert CouponInv(w.shop.sessions, coupon, w.shop.coupons[coupon], w.initialUses[coupon]);
  }

  /** One ten-pack payment leads to at most ten sessions, whatever coupons its polls show. */
  lemma {:induction false} PackMakesAtMostTenSessions(es: seq<Step>, id: nat, coupon: string)
    requires Runnable(OPENING, es) && SoldCoupon(After(OPENING, es).shop, id, coupon)
    ensures var w := After(OPENING, es);
            && |ClaimedWith(w.shop.sessions, coupon)| == w.shop.coupons[coupon].uses <= 10
            && forall other :: SoldCoupon(w.shop, id, other) ==> other == coupon
  {
    RunKeepsCoupons(es);
    var w := After(OPENING, es);
    assert CouponInv(w.shop.sessions, coupon, w.shop.coupons[coupon], w.initialUses[coupon]);
    forall other | SoldCoupon(w.shop, id, other)
      ensures other == coupon
    {
      ProvisionOnce(es, id, coupon, other);
    }
  }
}
