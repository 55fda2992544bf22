/** Checkouts, webhooks, polls and coupon claims in any interleaving; every transaction is one step. */
module PaymentSafety {
  import opened Text
  import opened PaymentStore

  /** A signed checkout-completed event. Its client reference is the payment its checkout was created for. */
  datatype Event = Event(checkout: string, amount: int, currency: string)

  predicate Matches(e: Event, row: PaymentRow) {
    e.amount == row.amount && EqualFold(Trim(e.currency), Trim(row.currency))
  }

  /** Where one webhook delivery has got to. */
  datatype Hook = Matched(event: Event) | Mismatched(event: Event) | Paid(event: Event) | HookEnded

  datatype Reveal = Reveal(payment: nat, code: string, pin: string, at: int)

  /** `stripe` says which payment a checkout was created for. The other fields after `hooks` are history: the event that
      matched a payment, the PINs and coupon codes polls returned, and the uses a coupon was created with. */
  datatype World = World(shop: Shop, stripe: map<string, nat>, hooks: map<nat, Hook>, confirmed: map<nat, Event>,
                         pinsShown: seq<Reveal>, couponsShown: seq<(nat, string)>, initialUses: map<string, nat>)

  const OPENING := World(Shop(map[], map[], map[]), map[], map[], map[], [], [], map[])

  datatype Step =
    | CreatePayment(id: nat, product: Product, amount: int, currency: string)
    | CreateStripeCheckout(id: nat, checkout: string)
    | AttachCheckout(checkout: string)
    | FailCheckout(id: nat, checkout: string, code: string)
    | Receive(h: nat, event: Event)
    | FailMismatched(h: nat)
    | MarkPaid(h: nat)
    | ProvisionPaid(h: nat, now: int, f: Option<Fulfillment>)
    | PollCheckout(checkout: string, now: int, f: Option<Fulfillment>)
    | NoteFailure(checkout: string, code: string)
    | IssueCoupon(code: string, maxUses: nat, uses: nat, expires: Option<int>)
    | ClaimCoupon(code: string, sessionCode: string, pin: string, now: int)

  predicate IsHook(e: Step) { e.Receive? || e.FailMismatched? || e.MarkPaid? }

  predicate IsFulfilment(e: Step) { e.ProvisionPaid? || e.PollCheckout? }

  predicate IsCoupon(e: Step) { e.IssueCoupon? || e.ClaimCoupon? }

  predicate IsCheckout(e: Step) { !IsHook(e) && !IsFulfilment(e) && !IsCoupon(e) }

  predicate IsCode(s: string) { NullableText(s) == Some(s) }

  /** Generated codes and PINs have no blanks. */
  predicate WellGenerated(f: Option<Fulfillment>) {
    f.Some? ==> IsCode(f.value.sessionCode) && IsCode(f.value.pin) && IsCode(f.value.couponCode)
  }

  ghost predicate Enabled(w: World, e: Step) {
    match e
    case CreatePayment(id, _, _, _) => id !in w.shop.payments
    case CreateStripeCheckout(id, checkout) =>
      && id in w.shop.payments && checkout !in w.stripe && IsCode(checkout)
      && forall k :: k in w.stripe ==> w.stripe[k] != id
    case AttachCheckout(checkout) => checkout in w.stripe
    case FailCheckout(id, checkout, _) =>
      id in w.shop.payments && (checkout == "" || (checkout in w.stripe && w.stripe[checkout] == id))
    case Receive(h, event) => h !in w.hooks && event.checkout in w.stripe
    case FailMismatched(h) => h in w.hooks && w.hooks[h].Mismatched? && w.hooks[h].event.checkout in w.stripe
    case MarkPaid(h) => h in w.hooks && w.hooks[h].Matched? && w.hooks[h].event.checkout in w.stripe
    case ProvisionPaid(h, _, f) => h in w.hooks && w.hooks[h].Paid? && WellGenerated(f)
    case PollCheckout(_, _, f) => WellGenerated(f)
    case NoteFailure(_, _) => true
    case IssueCoupon(code, maxUses, uses, _) => code !in w.shop.coupons && uses <= maxUses
    case ClaimCoupon(_, _, _, _) => true
  }

  function WithRow(w: World, id: nat, row: PaymentRow): World {
    w.(shop := w.shop.(payments := w.shop.payments[id := row]))
  }

  function HookAt(w: World, h: nat, hook: Hook): World { w.(hooks := w.hooks[h := hook]) }

  function RefOf(w: World, event: Event): Reference
    requires event.checkout in w.stripe
  {
    Reference(Some(w.stripe[event.checkout]), event.checkout)
  }

  function ScopeOf(w: World, id: nat): Scope
    requires id in w.shop.payments
  {
    Scope(w.shop.payments[id], w.shop.sessions, w.shop.coupons)
  }

  /** The fulfilment transaction on the payment of a checkout, and what a poll would have shown. */
  ghost function Resolve(w: World, checkout: string, now: int, forPoll: bool, f: Option<Fulfillment>)
    : (World, Option<nat>, Outcome)
  {
    var found := ByCheckout(w.shop.payments, NullableText(checkout));
    if found.None? then (w, None, NoPayment)
    else
      var (s, o) := ResolveScope(ScopeOf(w, found.value), found.value, now, forPoll, f);
      (Install(w, found.value, s), found, o)
  }

  function Install(w: World, id: nat, s: Scope): World {
    w.(shop := Shop(w.shop.payments[id := s.row], s.sessions, s.coupons),
       initialUses := map c | c in w.initialUses.Keys + s.coupons.Keys ::
         if c in w.initialUses then w.initialUses[c] else 0)
  }

  /** One use of a coupon is taken and a session made with it. */
  function WithClaim(w: World, code: string, session: string, pin: string): World
    requires code in w.shop.coupons
  {
    var row := w.shop.coupons[code];
    var claimed := SessionRecord(FromCoupon(code, row.maxUses, row.uses + 1), pin);
    w.(shop := w.shop.(coupons := w.shop.coupons[code := row.(uses := row.uses + 1)],
                       sessions := w.shop.sessions[session := claimed]))
  }

  /** A poll's answer is recorded when it shows a PIN or a coupon code. */
  function Shown(w: World, id: nat, now: int, o: Outcome): World {
    match o
    case RevealedPin(code, pin) => w.(pinsShown := w.pinsShown + [Reveal(id, code, pin, now)])
    case RevealedCoupon(code) => w.(couponsShown := w.couponsShown + [(id, code)])
    case _ => w
  }

  predicate SameTables(a: World, b: World) {
    a.shop.sessions == b.shop.sessions && a.shop.coupons == b.shop.coupons && a.initialUses == b.initialUses
  }

  ghost function ApplyHook(w: World, e: Step): (w': World)
    requires Enabled(w, e) && IsHook(e)
    ensures SameTables(w, w') && w'.stripe == w.stripe
  {
    match e
    case Receive(h, event) =>
      var lock := LockAndAttach(w.shop.payments, RefOf(w, event));
      if !lock.Locked? then HookAt(w, h, HookEnded)
      else
        var row := Attached(w.shop.payments[lock.id], event.checkout);
        var read := WithRow(w, lock.id, row);
        if Matches(event, row) then HookAt(read, h, Matched(event)).(confirmed := w.confirmed[lock.id := event])
        else HookAt(read, h, Mismatched(event))
    case FailMismatched(h) =>
      var event := w.hooks[h].event;
      var lock := LockAndAttach(w.shop.payments, RefOf(w, event));
      if !lock.Locked? then HookAt(w, h, HookEnded)
      else
        var row := MarkedFailed(w.shop.payments[lock.id], event.checkout, "PAYMENT_AMOUNT_MISMATCH");
        HookAt(WithRow(w, lock.id, row), h, HookEnded)
    case MarkPaid(h) =>
      var event := w.hooks[h].event;
      var lock := LockAndAttach(w.shop.payments, RefOf(w, event));
      if !lock.Locked? then HookAt(w, h, HookEnded)
      else
        var row := MarkedPaid(w.shop.payments[lock.id], event.checkout);
        HookAt(WithRow(w, lock.id, row), h, if row.status.PaidUnprovisioned? then Paid(event) else HookEnded)
  }

  ghost function CheckoutOf(w: World, e: Step): string
    requires Enabled(w, e) && IsFulfilment(e)
  {
    if e.ProvisionPaid? then w.hooks[e.h].event.checkout else e.checkout
  }

  ghost function ApplyFulfilment(w: World, e: Step): (w': World)
    requires Enabled(w, e) && IsFulfilment(e)
    ensures w'.stripe == w.stripe && w'.confirmed == w.confirmed
  {
    var (resolved, id, o) := Resolve(w, CheckoutOf(w, e), e.now, e.PollCheckout?, e.f);
    if e.ProvisionPaid? then HookAt(resolved, e.h, HookEnded)
    else if id.Some? then Shown(resolved, id.value, e.now, o) else resolved
  }

  ghost function ApplyCheckout(w: World, e: Step): (w': World)
    requires Enabled(w, e) && IsCheckout(e)
    ensures SameTables(w, w')
  {
    match e
    case CreatePayment(id, product, amount, currency) => WithRow(w, id, NewPayment(product, amount, currency))
    case CreateStripeCheckout(id, checkout) => w.(stripe := w.stripe[checkout := id])
    case AttachCheckout(checkout) =>
      var id := w.stripe[checkout];
      if id in w.shop.payments && forall k :: k in w.shop.payments && k != id ==>
        w.shop.payments[k].checkout != Some(checkout)
      then WithRow(w, id, w.shop.payments[id].(checkout := Some(checkout))) else w
    case FailCheckout(id, checkout, code) =>
      var lock := LockAndAttach(w.shop.payments, Reference(Some(id), checkout));
      if lock.Locked? then WithRow(w, lock.id, MarkedFailed(w.shop.payments[lock.id], checkout, code)) else w
    case NoteFailure(checkout, code) =>
      var found := ByCheckout(w.shop.payments, NullableText(checkout));
      if found.Some? then WithRow(w, found.value, NotedFailure(w.shop.payments[found.value], code)) else w
  }

  ghost function ApplyCoupon(w: World, e: Step): World
    requires Enabled(w, e) && IsCoupon(e)
  {
    match e
    case IssueCoupon(code, maxUses, uses, expires) =>
      w.(shop := w.shop.(coupons := w.shop.coupons[code := CouponRow(maxUses, uses, expires, None)]),
         initialUses := w.initialUses[code := uses])
    case ClaimCoupon(code, sessionCode, pin, now) =>
      if !CanClaim(w.shop.coupons, code, now) || sessionCode in w.shop.sessions then w
      else WithClaim(w, code, sessionCode, pin)
  }

  ghost function Apply(w: World, e: Step): World
    requires Enabled(w, e)
  {
    if IsHook(e) then ApplyHook(w, e)
    else if IsFulfilment(e) then ApplyFulfilment(w, e)
    else if IsCoupon(e) then ApplyCoupon(w, e)
    else ApplyCheckout(w, e)
  }

  ghost predicate Runnable(w: World, es: seq<Step>)
    decreases |es|, 0
  {
    es == [] || (Runnable(w, es[..|es| - 1]) && Enabled(After(w, es[..|es| - 1]), es[|es| - 1]))
  }

  ghost function After(w: World, es: seq<Step>): World
    requires Runnable(w, es)
    decreases |es|, 1
  {
    if es == [] then w else Apply(After(w, es[..|es| - 1]), es[|es| - 1])
  }

  // ----- invariant of payments -----

  predicate Bought(row: PaymentRow) { row.session.Some? || row.coupon.Some? }

  /** An event of this payment's own checkout, with this payment's amount and currency, was received. */
  predicate Confirmed(stripe: map<string, nat>, confirmed: map<nat, Event>, id: nat, row: PaymentRow) {
    id in confirmed && EventOf(stripe, confirmed[id], id) && Matches(confirmed[id], row)
  }

  predicate EventOf(stripe: map<string, nat>, e: Event, id: nat) {
    e.checkout in stripe && stripe[e.checkout] == id
  }

  predicate CheckoutInv(stripe: map<string, nat>, id: nat, row: PaymentRow) {
    row.checkout.Some? ==> row.checkout.value in stripe && stripe[row.checkout.value] == id
  }

  /** Nothing is bought before payment, something is bought once provisioned, and only what an event confirmed. */
  predicate StatusInv(stripe: map<string, nat>, confirmed: map<nat, Event>, id: nat, row: PaymentRow) {
    && (row.status.Pending? || row.status.PaidUnprovisioned? ==> !Bought(row))
    && (row.status.Provisioned? ==> Bought(row))
    && (row.status.PaidUnprovisioned? || Bought(row) ==> Confirmed(stripe, confirmed, id, row))
    && (row.revealConsumed.Some? ==> row.session.Some?)
  }

  predicate BoughtInv(sessions: map<string, SessionRecord>, coupons: map<string, CouponRow>, id: nat, row: PaymentRow) {
    && (row.session.Some? ==>
          && row.product.DirectSession? && row.coupon.None? && row.pin.Some? && row.revealExpires.Some?
          && row.session.value in sessions
          && sessions[row.session.value] == SessionRecord(FromPayment(id), row.pin.value))
    && (row.coupon.Some? ==>
          && row.product.CouponPack10? && row.session.None?
          && row.coupon.value in coupons && coupons[row.coupon.value].source == Some(id))
  }

  predicate RowInv(stripe: map<string, nat>, confirmed: map<nat, Event>, shop: Shop, id: nat, row: PaymentRow) {
    CheckoutInv(stripe, id, row) && StatusInv(stripe, confirmed, id, row)
    && BoughtInv(shop.sessions, shop.coupons, id, row)
  }

  ghost predicate RowsInv(stripe: map<string, nat>, confirmed: map<nat, Event>, shop: Shop) {
    forall id {:trigger RowInv(stripe, confirmed, shop, id, shop.payments[id])} :: id in shop.payments ==>
      RowInv(stripe, confirmed, shop, id, shop.payments[id])
  }

  /** Every checkout was created for one payment, and every payment got at most one. */
  ghost predicate StripeInv(stripe: map<string, nat>, payments: map<nat, PaymentRow>) {
    && (forall k :: k in stripe ==> IsCode(k) && stripe[k] in payments)
    && (forall j, k :: j in stripe && k in stripe && stripe[j] == stripe[k] ==> j == k)
  }

  predicate SessionOwned(payments: map<nat, PaymentRow>, code: string, r: SessionRecord) {
    r.origin.FromPayment? ==> r.origin.payment in payments && payments[r.origin.payment].session == Some(code)
  }

  predicate CouponOwned(payments: map<nat, PaymentRow>, code: string, r: CouponRow) {
    r.source.Some? ==> r.source.value in payments && payments[r.source.value].coupon == Some(code)
  }

  /** Everything bought belongs to the one payment whose row names it. */
  ghost predicate OwnersInv(shop: Shop) {
    && (forall c {:trigger SessionOwned(shop.payments, c, shop.sessions[c])} :: c in shop.sessions ==>
        SessionOwned(shop.payments, c, shop.sessions[c]))
    && (forall c {:trigger CouponOwned(shop.payments, c, shop.coupons[c])} :: c in shop.coupons ==>
        CouponOwned(shop.payments, c, shop.coupons[c]))
  }

  predicate RevealInv(payments: map<nat, PaymentRow>, r: Reveal) {
    && r.payment in payments
    && payments[r.payment].revealConsumed == Some(r.at) && payments[r.payment].session == Some(r.code)
    && payments[r.payment].pin == Some(r.pin)
    && payments[r.payment].revealExpires.Some? && r.at < payments[r.payment].revealExpires.value
  }

  ghost predicate ShownInv(payments: map<nat, PaymentRow>, pinsShown: seq<Reveal>, couponsShown: seq<(nat, string)>) {
    && (forall i {:trigger RevealInv(payments, pinsShown[i])} :: 0 <= i < |pinsShown| ==>
        RevealInv(payments, pinsShown[i]))
    && (forall i, j :: 0 <= i < j < |pinsShown| ==> pinsShown[i].payment != pinsShown[j].payment)
    && (forall i :: 0 <= i < |couponsShown| ==>
        couponsShown[i].0 in payments && payments[couponsShown[i].0].coupon == Some(couponsShown[i].1))
  }

  predicate HookInv(stripe: map<string, nat>, confirmed: map<nat, Event>, payments: map<nat, PaymentRow>, hook: Hook) {
    hook.Matched? ==>
      && hook.event.checkout in stripe && stripe[hook.event.checkout] in payments
      && Confirmed(stripe, confirmed, stripe[hook.event.checkout], payments[stripe[hook.event.checkout]])
  }

  ghost predicate HooksInv(stripe: map<string, nat>, confirmed: map<nat, Event>, payments: map<nat, PaymentRow>,
                           hooks: map<nat, Hook>) {
    forall h {:trigger HookInv(stripe, confirmed, payments, hooks[h])} :: h in hooks ==>
      HookInv(stripe, confirmed, payments, hooks[h])
  }

  ghost predicate Inv(w: World) {
    && StripeInv(w.stripe, w.shop.payments)
    && RowsInv(w.stripe, w.confirmed, w.shop)
    && OwnersInv(w.shop)
    && ShownInv(w.shop.payments, w.pinsShown, w.couponsShown)
    && HooksInv(w.stripe, w.confirmed, w.shop.payments, w.hooks)
  }

  // ----- one row changes -----

  /** What no statement ever changes: the terms of a payment, and what it bought once it bought something. */
  predicate RowAdvances(a: PaymentRow, b: PaymentRow) {
    && b.product == a.product && b.amount == a.amount && b.currency == a.currency
    && (Bought(a) ==>
          b.session == a.session && b.coupon == a.coupon && b.pin == a.pin && b.revealExpires == a.revealExpires)
    && (a.revealConsumed.Some? ==> b.revealConsumed == a.revealConsumed)
  }

  lemma HooksStay(w: World, id: nat, row: PaymentRow)
    requires Inv(w) && id in w.shop.payments && RowAdvances(w.shop.payments[id], row)
    ensures HooksInv(w.stripe, w.confirmed, w.shop.payments[id := row], w.hooks)
  {
    forall h | h in w.hooks
      ensures HookInv(w.stripe, w.confirmed, w.shop.payments[id := row], w.hooks[h])
    {
      assert HookInv(w.stripe, w.confirmed, w.shop.payments, w.hooks[h]);
    }
  }

  lemma ShownStays(w: World, id: nat, row: PaymentRow)
    requires Inv(w) && id in w.shop.payments && RowAdvances(w.shop.payments[id], row)
    ensures ShownInv(w.shop.payments[id := row], w.pinsShown, w.couponsShown)
  {
    forall i | 0 <= i < |w.pinsShown|
      ensures RevealInv(w.shop.payments[id := row], w.pinsShown[i])
    {
      assert RevealInv(w.shop.payments, w.pinsShown[i]);
    }
  }

  lemma OwnersStay(shop: Shop, payments: map<nat, PaymentRow>)
    requires OwnersInv(shop) && forall id :: id in shop.payments ==>
                   id in payments && RowAdvances(shop.payments[id], payments[id])
    ensures OwnersInv(shop.(payments := payments))
  {
    forall c | c in shop.sessions
      ensures SessionOwned(payments, c, shop.sessions[c])
    {
      assert SessionOwned(shop.payments, c, shop.sessions[c]);
    }
    forall c | c in shop.coupons
      ensures CouponOwned(payments, c, shop.coupons[c])
    {
      assert CouponOwned(shop.payments, c, shop.coupons[c]);
    }
  }

  lemma RowChangeKeeps(w: World, id: nat, row: PaymentRow)
    requires Inv(w) && id in w.shop.payments && RowAdvances(w.shop.payments[id], row)
    requires RowInv(w.stripe, w.confirmed, w.shop, id, row)
    ensures Inv(WithRow(w, id, row))
  {
    HooksStay(w, id, row);
    ShownStays(w, id, row);
    OwnersStay(w.shop, w.shop.payments[id := row]);
    RowReplaced(w.stripe, w.confirmed, w.shop, id, row);
  }

  lemma HookMoveKeeps(w: World, h: nat, hook: Hook)
    requires Inv(w) && HookInv(w.stripe, w.confirmed, w.shop.payments, hook)
    ensures Inv(HookAt(w, h, hook))
  {
  }

  // ----- finding the payment -----

  /** A checkout finds the payment it was created for and no other. */
  lemma CheckoutFindsItsPayment(w: World, checkout: string)
    requires RowsInv(w.stripe, w.confirmed, w.shop)
    ensures var found := ByCheckout(w.shop.payments, NullableText(checkout));
            found.Some? ==>
              NullableText(checkout).value in w.stripe && w.stripe[NullableText(checkout).value] == found.value
  {
    var found := ByCheckout(w.shop.payments, NullableText(checkout));
    if found.Some? { assert RowInv(w.stripe, w.confirmed, w.shop, found.value, w.shop.payments[found.value]); }
  }

  /** A reference to a payment and its own checkout always locks that payment and never mismatches. */
  lemma AuthenticReferenceLocks(w: World, id: nat, checkout: string)
    requires StripeInv(w.stripe, w.shop.payments) && RowsInv(w.stripe, w.confirmed, w.shop)
    requires id in w.shop.payments && (checkout == "" || (checkout in w.stripe && w.stripe[checkout] == id))
    ensures LockAndAttach(w.shop.payments, Reference(Some(id), checkout)) == Locked(id)
    ensures CheckoutInv(w.stripe, id, Attached(w.shop.payments[id], checkout))
  {
    assert Blank("");
    assert RowInv(w.stripe, w.confirmed, w.shop, id, w.shop.payments[id]);
    CheckoutFindsItsPayment(w, checkout);
  }

  // ----- steps that mark -----

  lemma FailCheckoutKeeps(w: World, e: Step)
    requires Inv(w) && e.FailCheckout? && Enabled(w, e)
    ensures Inv(Apply(w, e))
  {
    AuthenticReferenceLocks(w, e.id, e.checkout);
    assert RowInv(w.stripe, w.confirmed, w.shop, e.id, w.shop.payments[e.id]);
    RowChangeKeeps(w, e.id, MarkedFailed(w.shop.payments[e.id], e.checkout, e.code));
  }

  lemma FailMismatchedKeeps(w: World, e: Step)
    requires Inv(w) && e.FailMismatched? && Enabled(w, e)
    ensures Inv(ApplyHook(w, e))
  {
    var event := w.hooks[e.h].event;
    var id := w.stripe[event.checkout];
    AuthenticReferenceLocks(w, id, event.checkout);
    assert RowInv(w.stripe, w.confirmed, w.shop, id, w.shop.payments[id]);
    var row := MarkedFailed(w.shop.payments[id], event.checkout, "PAYMENT_AMOUNT_MISMATCH");
    RowChangeKeeps(w, id, row);
    HookMoveKeeps(WithRow(w, id, row), e.h, HookEnded);
  }

  lemma MarkPaidKeeps(w: World, e: Step)
    requires Inv(w) && e.MarkPaid? && Enabled(w, e)
    ensures Inv(ApplyHook(w, e))
  {
    var event := w.hooks[e.h].event;
    var id := w.stripe[event.checkout];
    AuthenticReferenceLocks(w, id, event.checkout);
    assert HookInv(w.stripe, w.confirmed, w.shop.payments, w.hooks[e.h]);
    assert RowInv(w.stripe, w.confirmed, w.shop, id, w.shop.payments[id]);
    var row := MarkedPaid(w.shop.payments[id], event.checkout);
    RowChangeKeeps(w, id, row);
    HookMoveKeeps(WithRow(w, id, row), e.h, if row.status.PaidUnprovisioned? then Paid(event) else HookEnded);
  }

  /** An event that matches confirms its payment; what was confirmed stays so. */
  lemma ConfirmKeeps(w: World, id: nat, event: Event)
    requires Inv(w) && id in w.shop.payments && EventOf(w.stripe, event, id) && Matches(event, w.shop.payments[id])
    ensures Inv(w.(confirmed := w.confirmed[id := event]))
  {
    var confirmed := w.confirmed[id := event];
    forall k | k in w.shop.payments
      ensures RowInv(w.stripe, confirmed, w.shop, k, w.shop.payments[k])
    {
      assert RowInv(w.stripe, w.confirmed, w.shop, k, w.shop.payments[k]);
    }
    forall h | h in w.hooks
      ensures HookInv(w.stripe, confirmed, w.shop.payments, w.hooks[h])
    {
      assert HookInv(w.stripe, w.confirmed, w.shop.payments, w.hooks[h]);
    }
  }

  lemma ReceiveKeeps(w: World, e: Step)
    requires Inv(w) && e.Receive? && Enabled(w, e)
    ensures Inv(ApplyHook(w, e))
  {
    var id := w.stripe[e.event.checkout];
    AuthenticReferenceLocks(w, id, e.event.checkout);
    assert RowInv(w.stripe, w.confirmed, w.shop, id, w.shop.payments[id]);
    var row := Attached(w.shop.payments[id], e.event.checkout);
    RowChangeKeeps(w, id, row);
    var read := WithRow(w, id, row);
    if Matches(e.event, row) {
      ConfirmKeeps(read, id, e.event);
      HookMoveKeeps(read.(confirmed := w.confirmed[id := e.event]), e.h, Matched(e.event));
    } else {
      HookMoveKeeps(read, e.h, Mismatched(e.event));
    }
  }

  lemma AttachKeeps(w: World, e: Step)
    requires Inv(w) && e.AttachCheckout? && Enabled(w, e)
    ensures Inv(Apply(w, e))
  {
    var id := w.stripe[e.checkout];
    assert RowInv(w.stripe, w.confirmed, w.shop, id, w.shop.payments[id]);
    RowChangeKeeps(w, id, w.shop.payments[id].(checkout := Some(e.checkout)));
  }

  lemma NoteFailureKeeps(w: World, e: Step)
    requires Inv(w) && e.NoteFailure? && Enabled(w, e)
    ensures Inv(Apply(w, e))
  {
    var found := ByCheckout(w.shop.payments, NullableText(e.checkout));
    if found.Some? {
      assert RowInv(w.stripe, w.confirmed, w.shop, found.value, w.shop.payments[found.value]);
      RowChangeKeeps(w, found.value, NotedFailure(w.shop.payments[found.value], e.code));
    }
  }

  lemma CreateKeeps(w: World, e: Step)
    requires Inv(w) && e.CreatePayment? && Enabled(w, e)
    ensures Inv(Apply(w, e))
  {
    var payments := w.shop.payments[e.id := NewPayment(e.product, e.amount, e.currency)];
    forall k | k in payments
      ensures RowInv(w.stripe, w.confirmed, w.shop.(payments := payments), k, payments[k])
    {
      assert k != e.id ==> RowInv(w.stripe, w.confirmed, w.shop, k, w.shop.payments[k]);
    }
    forall h | h in w.hooks
      ensures HookInv(w.stripe, w.confirmed, payments, w.hooks[h])
    {
      assert HookInv(w.stripe, w.confirmed, w.shop.payments, w.hooks[h]);
    }
    CreateOwners(w, payments, e.id);
  }

  lemma CreateOwners(w: World, payments: map<nat, PaymentRow>, id: nat)
    requires Inv(w) && id !in w.shop.payments && id in payments && payments == w.shop.payments[id := payments[id]]
    ensures OwnersInv(w.shop.(payments := payments)) && ShownInv(payments, w.pinsShown, w.couponsShown)
  {
    OwnersStay(w.shop, payments);
    forall i | 0 <= i < |w.pinsShown|
      ensures RevealInv(payments, w.pinsShown[i])
    {
      assert RevealInv(w.shop.payments, w.pinsShown[i]);
    }
  }

  lemma StripeKeeps(w: World, e: Step)
    requires Inv(w) && e.CreateStripeCheckout? && Enabled(w, e)
    ensures Inv(Apply(w, e))
  {
    var stripe := w.stripe[e.checkout := e.id];
    forall k | k in w.shop.payments
      ensures RowInv(stripe, w.confirmed, w.shop, k, w.shop.payments[k])
    {
      assert RowInv(w.stripe, w.confirmed, w.shop, k, w.shop.payments[k]);
    }
    forall h | h in w.hooks
      ensures HookInv(stripe, w.confirmed, w.shop.payments, w.hooks[h])
    {
      assert HookInv(w.stripe, w.confirmed, w.shop.payments, w.hooks[h]);
    }
  }

  // ----- fulfilment -----

  /** A failed fulfilment leaves neither a session nor a coupon and does not move the payment; a successful one
      creates exactly one of the two, only for a paid payment, and moves that payment on. */
  lemma FailedProvisioningLeavesNothing(s: Scope, id: nat, now: int, forPoll: bool, f: Option<Fulfillment>)
    ensures var (s', o) := ResolveScope(s, id, now, forPoll, f);
            && (IsError(o) ==> s' == s)
            && (if s'.row.status == s.row.status then s'.sessions == s.sessions && s'.coupons == s.coupons
                else
                  && s.row.status.PaidUnprovisioned? && s'.row.status.Provisioned?
                  && f.Some? && OneBought(s, s', id, f.value))
  {
  }

  predicate OneBought(s: Scope, s': Scope, id: nat, f: Fulfillment) {
    if s.row.product.DirectSession?
    then
      && f.sessionCode !in s.sessions && s'.coupons == s.coupons
      && s'.sessions == s.sessions[f.sessionCode := SessionRecord(FromPayment(id), f.pin)]
    else
      && f.couponCode !in s.coupons && s'.sessions == s.sessions
      && s'.coupons == s.coupons[f.couponCode := CouponRow(COUPON_PACK_USES, 0, None, Some(id))]
  }

  /** New sessions and coupons do not disturb the rows that own others. */
  lemma RowsOutgrow(w: World, shop: Shop)
    requires RowsInv(w.stripe, w.confirmed, w.shop) && shop.payments == w.shop.payments
    requires forall c :: c in w.shop.sessions ==> c in shop.sessions && shop.sessions[c] == w.shop.sessions[c]
    requires forall c :: c in w.shop.coupons ==> c in shop.coupons && shop.coupons[c].source == w.shop.coupons[c].source
    ensures RowsInv(w.stripe, w.confirmed, shop)
  {
    forall k | k in shop.payments
      ensures RowInv(w.stripe, w.confirmed, shop, k, shop.payments[k])
    {
      assert RowInv(w.stripe, w.confirmed, w.shop, k, w.shop.payments[k]);
    }
  }

  lemma ProvisionedRow(w: World, id: nat, f: Option<Fulfillment>)
    requires Inv(w) && id in w.shop.payments && w.shop.payments[id].status.PaidUnprovisioned? && WellGenerated(f)
    requires Provision(ScopeOf(w, id), id, f).Some?
    ensures var s := Provision(ScopeOf(w, id), id, f).value;
            && RowAdvances(w.shop.payments[id], s.row) && s.row.status.Provisioned?
            && RowInv(w.stripe, w.confirmed, Shop(w.shop.payments, s.sessions, s.coupons), id, s.row)
            && OneBought(ScopeOf(w, id), s, id, f.value)
            && s.row.session == (if s.row.product.DirectSession? then Some(f.value.sessionCode) else None)
            && s.row.coupon == (if s.row.product.DirectSession? then None else Some(f.value.couponCode))
  {
    assert RowInv(w.stripe, w.confirmed, w.shop, id, w.shop.payments[id]);
  }

  lemma ProvisionKeeps(w: World, id: nat, f: Option<Fulfillment>)
    requires Inv(w) && id in w.shop.payments && w.shop.payments[id].status.PaidUnprovisioned? && WellGenerated(f)
    requires Provision(ScopeOf(w, id), id, f).Some?
    ensures Inv(Install(w, id, Provision(ScopeOf(w, id), id, f).value))
  {
    var s := Provision(ScopeOf(w, id), id, f).value;
    ProvisionedRow(w, id, f);
    HooksStay(w, id, s.row);
    ShownStays(w, id, s.row);
    ProvisionedShop(w, id, s, f.value);
  }

  lemma ProvisionedShop(w: World, id: nat, s: Scope, f: Fulfillment)
    requires Inv(w) && id in w.shop.payments && RowAdvances(w.shop.payments[id], s.row)
             && OneBought(ScopeOf(w, id), s, id, f)
    requires RowInv(w.stripe, w.confirmed, Shop(w.shop.payments, s.sessions, s.coupons), id, s.row)
    requires s.row.session == (if s.row.product.DirectSession? then Some(f.sessionCode) else None)
    requires s.row.coupon == (if s.row.product.DirectSession? then None else Some(f.couponCode))
    ensures RowsInv(w.stripe, w.confirmed, Shop(w.shop.payments[id := s.row], s.sessions, s.coupons))
    ensures OwnersInv(Shop(w.shop.payments[id := s.row], s.sessions, s.coupons))
  {
    var shop := Shop(w.shop.payments, s.sessions, s.coupons);
    RowsOutgrow(w, shop);
    RowReplaced(w.stripe, w.confirmed, shop, id, s.row);
    ProvisionedOwners(w, id, s, f);
  }

  lemma ProvisionedOwners(w: World, id: nat, s: Scope, f: Fulfillment)
    requires Inv(w) && id in w.shop.payments && RowAdvances(w.shop.payments[id], s.row)
    requires OneBought(ScopeOf(w, id), s, id, f)
    requires s.row.session == (if s.row.product.DirectSession? then Some(f.sessionCode) else None)
    requires s.row.coupon == (if s.row.product.DirectSession? then None else Some(f.couponCode))
    ensures OwnersInv(Shop(w.shop.payments[id := s.row], s.sessions, s.coupons))
  {
    OwnersStay(w.shop, w.shop.payments[id := s.row]);
  }

  lemma RowReplaced(stripe: map<string, nat>, confirmed: map<nat, Event>, shop: Shop, id: nat, row: PaymentRow)
    requires RowsInv(stripe, confirmed, shop) && RowInv(stripe, confirmed, shop, id, row)
    ensures RowsInv(stripe, confirmed, shop.(payments := shop.payments[id := row]))
  {
    var payments := shop.payments[id := row];
    forall k | k in payments
      ensures RowInv(stripe, confirmed, shop.(payments := payments), k, payments[k])
    {
      assert k != id ==> RowInv(stripe, confirmed, shop, k, shop.payments[k]);
    }
  }

  /** A reveal consumes the payment's one reveal. */
  lemma RevealKeeps(w: World, id: nat, now: int)
    requires Inv(w) && id in w.shop.payments && w.shop.payments[id].status.Provisioned?
    requires !IsError(PollResult(w.shop.payments[id], now).1)
    ensures var (row, o) := PollResult(w.shop.payments[id], now);
            Inv(Shown(WithRow(w, id, row), id, now, o))
  {
    var (row, o) := PollResult(w.shop.payments[id], now);
    assert RowInv(w.stripe, w.confirmed, w.shop, id, w.shop.payments[id]);
    RowChangeKeeps(w, id, row);
    RevealIsNew(w, id, now, row, o);
  }

  lemma RevealIsNew(w: World, id: nat, now: int, row: PaymentRow, o: Outcome)
    requires Inv(w) && id in w.shop.payments && (row, o) == PollResult(w.shop.payments[id], now) && !IsError(o)
    requires Inv(WithRow(w, id, row)) && RowInv(w.stripe, w.confirmed, w.shop, id, w.shop.payments[id])
    ensures ShownInv(w.shop.payments[id := row], Shown(w, id, now, o).pinsShown, Shown(w, id, now, o).couponsShown)
  {
    if o.RevealedPin? {
      forall i | 0 <= i < |w.pinsShown|
        ensures w.pinsShown[i].payment != id
      {
        assert RevealInv(w.shop.payments, w.pinsShown[i]);
      }
      assert RevealInv(w.shop.payments[id := row], Reveal(id, o.code, o.pin, now));
    }
  }

  /** A scope that was only read leaves the rows as they were. */
  lemma ReadOnlyScope(w: World, id: nat)
    requires Inv(w) && id in w.shop.payments
    ensures Inv(Install(w, id, ScopeOf(w, id))) && Install(w, id, ScopeOf(w, id)).shop == w.shop
  {
    assert w.shop.payments[id := w.shop.payments[id]] == w.shop.payments;
  }

  /** The part of a resolution before a poll is answered. */
  lemma ProvisionIfNeededKeeps(w: World, id: nat, f: Option<Fulfillment>) returns (s: Option<Scope>)
    requires Inv(w) && id in w.shop.payments && WellGenerated(f)
    requires w.shop.payments[id].status.PaidUnprovisioned? || w.shop.payments[id].status.Provisioned?
    ensures s == if w.shop.payments[id].status.PaidUnprovisioned? then Provision(ScopeOf(w, id), id, f)
            else Some(ScopeOf(w, id))
    ensures s.Some? ==> Inv(Install(w, id, s.value)) && s.value.row.status.Provisioned?
    ensures s.Some? ==> RowAdvances(w.shop.payments[id], s.value.row)
  {
    if w.shop.payments[id].status.PaidUnprovisioned? {
      s := Provision(ScopeOf(w, id), id, f);
      if s.Some? {
        ProvisionKeeps(w, id, f);
        ProvisionedRow(w, id, f);
      }
    } else {
      s := Some(ScopeOf(w, id));
      ReadOnlyScope(w, id);
    }
  }

  lemma ResolveKeeps(w: World, checkout: string, now: int, forPoll: bool, f: Option<Fulfillment>)
    requires Inv(w) && WellGenerated(f)
    ensures var (w', id, o) := Resolve(w, checkout, now, forPoll, f);
            && (id.None? ==> w' == w)
            && (id.Some? ==> id.value in w.shop.payments && Inv(if forPoll then Shown(w', id.value, now, o) else w')
                             && RowGoesOn(w.shop.payments, w'.shop.payments, id.value) && w'.hooks == w.hooks)
  {
    var found := ByCheckout(w.shop.payments, NullableText(checkout));
    if found.Some? {
      ResolveRowKeeps(w, found.value, now, forPoll, f);
    }
  }

  /** Only this row changed, and it went on. */
  predicate RowGoesOn(a: map<nat, PaymentRow>, b: map<nat, PaymentRow>, id: nat) {
    && id in a && id in b && b == a[id := b[id]]
    && RowAdvances(a[id], b[id]) && Rank(a[id].status) <= Rank(b[id].status)
  }

  function Rank(s: PaymentStatus): nat {
    match s case Pending => 0 case PaidUnprovisioned => 1 case Provisioned => 2 case Failed => 3
  }

  lemma PolledKeeps(w: World, id: nat, mid: Scope, now: int)
    requires id in w.shop.payments && Inv(Install(w, id, mid)) && mid.row.status.Provisioned?
    requires !IsError(PollResult(mid.row, now).1)
    ensures var (shown, o) := PollResult(mid.row, now);
            Inv(Shown(Install(w, id, mid.(row := shown)), id, now, o)) && RowAdvances(mid.row, shown)
            && shown.status == mid.row.status
  {
    var made := Install(w, id, mid);
    var shown := PollResult(mid.row, now).0;
    RevealKeeps(made, id, now);
    assert WithRow(made, id, shown) == Install(w, id, mid.(row := shown));
  }

  /** What one resolution leaves: the row untouched, provisioned, or provisioned and shown. */
  lemma ResolutionCases(scope: Scope, id: nat, now: int, forPoll: bool, f: Option<Fulfillment>, mid: Option<Scope>)
    requires scope.row.status.PaidUnprovisioned? || scope.row.status.Provisioned?
    requires mid == if scope.row.status.PaidUnprovisioned? then Provision(scope, id, f) else Some(scope)
    ensures var (s, o) := ResolveScope(scope, id, now, forPoll, f);
            if mid.None? then s == scope && IsError(o)
            else if !forPoll then s == mid.value
            else
              var (shown, answer) := PollResult(mid.value.row, now);
              o == answer && s == if IsError(o) then scope else mid.value.(row := shown)
  {
  }

  lemma ResolutionAdvances(scope: Scope, id: nat, now: int, forPoll: bool, f: Option<Fulfillment>)
    requires scope.row.status.PaidUnprovisioned? ==> !Bought(scope.row) && scope.row.revealConsumed.None?
    ensures var s := ResolveScope(scope, id, now, forPoll, f).0;
            RowAdvances(scope.row, s.row) && Rank(scope.row.status) <= Rank(s.row.status)
  {
  }

  /** A scope that was left as it was, and an answer that shows nothing. */
  lemma UntouchedKeeps(w: World, id: nat, now: int, o: Outcome)
    requires Inv(w) && id in w.shop.payments && !o.RevealedPin? && !o.RevealedCoupon?
    ensures Inv(Install(w, id, ScopeOf(w, id))) && Inv(Shown(Install(w, id, ScopeOf(w, id)), id, now, o))
  {
    ReadOnlyScope(w, id);
  }

  lemma ResolveInvKeeps(w: World, id: nat, now: int, forPoll: bool, f: Option<Fulfillment>)
    requires Inv(w) && id in w.shop.payments && WellGenerated(f)
    ensures var (s, o) := ResolveScope(ScopeOf(w, id), id, now, forPoll, f);
            Inv(if forPoll then Shown(Install(w, id, s), id, now, o) else Install(w, id, s))
  {
    var status := w.shop.payments[id].status;
    var (s, o) := ResolveScope(ScopeOf(w, id), id, now, forPoll, f);
    if status.PaidUnprovisioned? || status.Provisioned? {
      var mid := ProvisionIfNeededKeeps(w, id, f);
      ResolutionCases(ScopeOf(w, id), id, now, forPoll, f, mid);
      if mid.None? || (forPoll && IsError(o)) {
        UntouchedKeeps(w, id, now, o);
      } else if forPoll {
        PolledKeeps(w, id, mid.value, now);
      }
    } else {
      UntouchedKeeps(w, id, now, o);
    }
  }

  lemma ResolveRowKeeps(w: World, id: nat, now: int, forPoll: bool, f: Option<Fulfillment>)
    requires Inv(w) && id in w.shop.payments && WellGenerated(f)
    ensures var (s, o) := ResolveScope(ScopeOf(w, id), id, now, forPoll, f);
            && Inv(if forPoll then Shown(Install(w, id, s), id, now, o) else Install(w, id, s))
            && RowGoesOn(w.shop.payments, Install(w, id, s).shop.payments, id)
  {
    assert RowInv(w.stripe, w.confirmed, w.shop, id, w.shop.payments[id]);
    ResolutionAdvances(ScopeOf(w, id), id, now, forPoll, f);
    ResolveInvKeeps(w, id, now, forPoll, f);
  }

  // ----- coupons -----

  ghost predicate OpenTables(w: World, shop: Shop) {
    && shop.payments == w.shop.payments
    && (forall c :: c in w.shop.sessions ==> c in shop.sessions && shop.sessions[c] == w.shop.sessions[c])
    && (forall c :: c in w.shop.coupons ==> c in shop.coupons && shop.coupons[c].source == w.shop.coupons[c].source)
    && (forall c :: c in shop.sessions && c !in w.shop.sessions ==> !shop.sessions[c].origin.FromPayment?)
    && (forall c :: c in shop.coupons && c !in w.shop.coupons ==> shop.coupons[c].source.None?)
  }

  lemma OpenTablesKeep(w: World, shop: Shop)
    requires Inv(w) && OpenTables(w, shop)
    ensures RowsInv(w.stripe, w.confirmed, shop) && OwnersInv(shop)
  {
    RowsOutgrow(w, shop);
    forall c | c in shop.sessions
      ensures SessionOwned(shop.payments, c, shop.sessions[c])
    {
      if c in w.shop.sessions { assert SessionOwned(w.shop.payments, c, w.shop.sessions[c]); }
    }
    forall c | c in shop.coupons
      ensures CouponOwned(shop.payments, c, shop.coupons[c])
    {
      if c in w.shop.coupons { assert CouponOwned(w.shop.payments, c, w.shop.coupons[c]); }
    }
  }

  lemma CouponStepOpens(w: World, e: Step)
    requires IsCoupon(e) && Enabled(w, e)
    ensures OpenTables(w, ApplyCoupon(w, e).shop)
    ensures ApplyCoupon(w, e) == w.(shop := ApplyCoupon(w, e).shop, initialUses := ApplyCoupon(w, e).initialUses)
  {
  }

  /** Coupons issued by hand and sessions claimed with coupons do not touch payments. */
  lemma OtherRowsKeep(w: World, e: Step)
    requires Inv(w) && IsCoupon(e) && Enabled(w, e)
    ensures Inv(Apply(w, e)) && Apply(w, e).shop.payments == w.shop.payments
  {
    CouponStepOpens(w, e);
    OpenTablesKeep(w, ApplyCoupon(w, e).shop);
  }

  lemma FulfilmentStepKeeps(w: World, e: Step)
    requires Inv(w) && IsFulfilment(e) && Enabled(w, e)
    ensures Inv(Apply(w, e))
  {
    assert Apply(w, e) == ApplyFulfilment(w, e);
    ResolveKeeps(w, CheckoutOf(w, e), e.now, e.PollCheckout?, e.f);
    if e.ProvisionPaid? { HookMoveKeeps(Resolve(w, CheckoutOf(w, e), e.now, false, e.f).0, e.h, HookEnded); }
  }

  lemma HookStepKeeps(w: World, e: Step)
    requires Inv(w) && IsHook(e) && Enabled(w, e)
    ensures Inv(Apply(w, e))
  {
    assert Apply(w, e) == ApplyHook(w, e);
    match e {
      case Receive(_, _) => ReceiveKeeps(w, e);
      case FailMismatched(_) => FailMismatchedKeeps(w, e);
      case MarkPaid(_) => MarkPaidKeeps(w, e);
    }
  }

  lemma StepKeepsInv(w: World, e: Step)
    requires Inv(w) && Enabled(w, e)
    ensures Inv(Apply(w, e))
  {
    match e {
      case CreatePayment(_, _, _, _) => CreateKeeps(w, e);
      case CreateStripeCheckout(_, _) => StripeKeeps(w, e);
      case AttachCheckout(_) => AttachKeeps(w, e);
      case FailCheckout(_, _, _) => FailCheckoutKeeps(w, e);
      case NoteFailure(_, _) => NoteFailureKeeps(w, e);
      case ProvisionPaid(_, _, _) => FulfilmentStepKeeps(w, e);
      case PollCheckout(_, _, _) => FulfilmentStepKeeps(w, e);
      case IssueCoupon(_, _, _, _) => OtherRowsKeep(w, e);
      case ClaimCoupon(_, _, _, _) => OtherRowsKeep(w, e);
      case _ => HookStepKeeps(w, e);
    }
  }

  lemma {:induction false} RunKeepsInv(w: World, es: seq<Step>)
    requires Inv(w) && Runnable(w, es)
    ensures Inv(After(w, es))
    decreases |es|
  {
    if es != [] {
      RunKeepsInv(w, es[..|es| - 1]);
      StepKeepsInv(After(w, es[..|es| - 1]), es[|es| - 1]);
    }
  }
}
