/** Settlement of one subscription change order. Payment callbacks are sequences of database calls;
    Next performs one call (or one transaction) of one callback, so callbacks may interleave between
    any two calls. */
module Settlement {
  import opened Common

  datatype PaymentStatus = Pending | Failed | Paid

  /** The settlement proof stored with a verified payment. */
  datatype Proof = Proof(reference: string, amount: int, currency: string)

  datatype Payment = Payment(id: string, accountId: string, invoiceId: Option<string>, amount: int, currency: string,
                             provider: string, reference: string, status: PaymentStatus, proof: Option<Proof>)

  datatype Invoice = Invoice(paid: bool, amountPaid: int, balance: int)

  datatype OrderStatus = Quoted | CheckoutInitializing | PaymentPending | OrderPaid | Scheduled | Applied | Closed

  datatype Order = Order(id: string, accountId: string, toPlanId: string, billingCycle: string, changeType: string,
                         status: OrderStatus, paymentId: Option<string>, invoiceId: Option<string>,
                         amountDue: int, currency: string, newStart: int, newEnd: int)

  datatype Subscription = Subscription(planId: string, billingCycle: string, active: bool, start: int, end: int, entitlementVersion: nat)

  datatype Period = Period(planId: string, billingCycle: string, start: int, end: int, source: string, currency: string, amountPaid: int)

  datatype Db = Db(payment: Payment, invoice: Invoice, order: Order, subscription: Option<Subscription>, periods: map<string, Period>)

  /** What does not change during a run: whether the plan is student-priced, whether checkout for such
      plans is switched on, and what the payment provider answers for the stored reference. */
  datatype Environment = Environment(studentPriced: bool, checkoutEnabled: bool, providerConfirms: bool)

  datatype Failure = NoPayment | Unverified | NotPaid | NotLinked | WrongStatus | Mismatch

  /** A callback, named after the call it makes next. */
  datatype Handler =
    // charge.success and payment verification
    | SuccessFind(reference: string)
    | SuccessLoad
    | SuccessVerify
    | SuccessClaim(verified: bool)
    | SuccessReread(claimed: bool, verified: bool)
    | RestoreProof
    | ActivateLoad
    | ActivatePayment
    | ActivateInvoice
    | OrderFind
    | OrderPaymentCheck(seen: Order)
    | OrderPromote(seen: Order)
    | OrderRecheck
    | OrderApply(paymentId: Option<string>)
    | Settled
    | Broken(failure: Failure)
    // charge.failed
    | FailureFind(reference: string)
    | FailureLoad
    | FailureMark
    | FailureReread
    | Ignored

  predicate Finished(h: Handler) {
    h.Settled? || h.Broken? || h.Ignored?
  }

  // ---------------------------------------------------------------- checks

  function ProofOf(p: Payment): Proof {
    Proof(p.reference, p.amount, p.currency)
  }

  /** The order can be activated by this payment. */
  predicate Matches(p: Payment, o: Order) {
    p.status == Paid && p.accountId == o.accountId && p.invoiceId == o.invoiceId && p.amount == o.amountDue &&
    p.currency == o.currency
  }

  /** verifyStudentPaymentSettlement for a student-priced plan. */
  predicate StudentSettlementVerified(env: Environment, p: Payment, o: Order) {
    && env.checkoutEnabled && env.providerConfirms
    && p.provider == "paystack" && p.reference != "" && p.accountId == o.accountId && o.paymentId == Some(p.id)
    && p.invoiceId == o.invoiceId && p.amount == o.amountDue && p.currency == o.currency && o.amountDue > 0
    && o.status in {PaymentPending, OrderPaid, Applied}
  }

  /** The checks inside the applying transaction. */
  predicate Applicable(env: Environment, p: Payment, o: Order) {
    && o.status in {OrderPaid, Scheduled}
    && (o.status == Scheduled ==> !env.studentPriced)
    && (env.studentPriced ==> env.checkoutEnabled)
    && (o.amountDue > 0 ==>
          && o.paymentId == Some(p.id) && o.invoiceId.Some? && Matches(p, o)
          && (env.studentPriced ==> p.provider == "paystack" && p.reference != "" && p.proof == Some(ProofOf(p))))
    && (o.amountDue <= 0 ==> !env.studentPriced)
  }

  // ---------------------------------------------------------------- effects of the applying transaction

  function SubscriptionAfter(s: Option<Subscription>, o: Order): Subscription {
    Subscription(o.toPlanId, o.billingCycle, true, o.newStart, o.newEnd,
                 if s.Some? then s.value.entitlementVersion + 1 else 1)
  }

  function PeriodOf(o: Order): Period {
    Period(o.toPlanId, o.billingCycle, o.newStart, o.newEnd, o.changeType, o.currency, o.amountDue)
  }

  function PeriodsAfter(periods: map<string, Period>, o: Order): map<string, Period> {
    if o.id in periods then periods else periods[o.id := PeriodOf(o)]
  }

  // ---------------------------------------------------------------- one call

  function CallsLeft(h: Handler): nat {
    match h
    case SuccessFind(_) => 14
    case SuccessLoad => 13
    case SuccessVerify => 12
    case SuccessClaim(_) => 11
    case SuccessReread(_, _) => 10
    case RestoreProof => 9
    case ActivateLoad => 8
    case ActivatePayment => 7
    case ActivateInvoice => 6
    case OrderFind => 5
    case OrderPaymentCheck(_) => 4
    case OrderPromote(_) => 3
    case OrderRecheck => 2
    case OrderApply(_) => 1
    case FailureFind(_) => 4
    case FailureLoad => 3
    case FailureMark => 2
    case FailureReread => 1
    case _ => 0
  }

  predicate IsPaymentStage(h: Handler) {
    h.SuccessFind? || h.SuccessLoad? || h.SuccessVerify? || h.SuccessClaim? || h.SuccessReread? || h.RestoreProof?
  }

  predicate IsActivation(h: Handler) {
    h.ActivateLoad? || h.ActivatePayment? || h.ActivateInvoice?
  }

  predicate IsOrderStage(h: Handler) {
    h.OrderFind? || h.OrderPaymentCheck? || h.OrderPromote? || h.OrderRecheck? || h.OrderApply?
  }

  predicate IsFailure(h: Handler) {
    h.FailureFind? || h.FailureLoad? || h.FailureMark? || h.FailureReread?
  }

  /** handlePaystackWebhook and markPaymentPaid. */
  function PaymentCall(env: Environment, db: Db, h: Handler): (r: (Db, Handler))
    requires IsPaymentStage(h)
    ensures CallsLeft(r.1) < CallsLeft(h)
  {
    match h
    case SuccessFind(reference) => (db, if reference != "" && reference == db.payment.reference then SuccessLoad else Ignored)
    case SuccessLoad => (db, SuccessVerify)
    case SuccessVerify =>
      (db,
       if !env.studentPriced || db.order.paymentId != Some(db.payment.id) then SuccessClaim(false)
       else if StudentSettlementVerified(env, db.payment, db.order) then SuccessClaim(true)
       else Broken(Unverified))
    case SuccessClaim(verified) =>
      var claimed := db.payment.status != Paid;
      (if claimed then
         db.(payment := db.payment.(status := Paid, proof := if verified then Some(ProofOf(db.payment)) else db.payment.proof))
       else db,
       SuccessReread(claimed, verified))
    case SuccessReread(claimed, verified) =>
      (db,
       if db.payment.status != Paid then Broken(NotPaid)
       else if !claimed && verified && db.payment.proof != Some(ProofOf(db.payment)) then RestoreProof
       else ActivateLoad)
    case RestoreProof =>
      (if db.payment.status == Paid then db.(payment := db.payment.(proof := Some(ProofOf(db.payment)))) else db, ActivateLoad)
  }

  /** activateSubscriptionFromPayment for a payment that belongs to a change order. */
  function ActivationCall(db: Db, h: Handler): (r: (Db, Handler))
    requires IsActivation(h)
    ensures CallsLeft(r.1) < CallsLeft(h)
  {
    match h
    case ActivateLoad => (db, if db.order.paymentId == Some(db.payment.id) then ActivatePayment else Broken(NotLinked))
    case ActivatePayment =>
      (db.(payment := db.payment.(status := Paid)), if db.payment.invoiceId.Some? then ActivateInvoice else OrderFind)
    case ActivateInvoice => (db.(invoice := Invoice(true, db.payment.amount, 0)), OrderFind)
  }

  /** applyPaidChangeOrder and apply. */
  function OrderCall(env: Environment, db: Db, h: Handler): (r: (Db, Handler))
    requires IsOrderStage(h)
    ensures CallsLeft(r.1) < CallsLeft(h)
  {
    match h
    case OrderFind =>
      (db,
       if db.order.status == Applied then Settled
       else if db.order.status !in {OrderPaid, PaymentPending, Scheduled} then Broken(WrongStatus)
       else if db.order.amountDue > 0 then OrderPaymentCheck(db.order)
       else if db.order.status == PaymentPending then OrderPromote(db.order)
       else OrderApply(db.order.paymentId))
    case OrderPaymentCheck(seen) =>
      (db,
       if seen.paymentId != Some(db.payment.id) || seen.invoiceId.None? || !Matches(db.payment, seen) then Broken(Mismatch)
       else if seen.status == PaymentPending then OrderPromote(seen)
       else OrderApply(seen.paymentId))
    case OrderPromote(seen) =>
      if db.order.status == PaymentPending && db.order.paymentId == seen.paymentId then
        (db.(order := db.order.(status := OrderPaid)), OrderApply(seen.paymentId))
      else (db, OrderRecheck)
    case OrderRecheck =>
      (db,
       if db.order.status == Applied then Settled
       else if db.order.status != OrderPaid then Broken(WrongStatus)
       else OrderApply(db.order.paymentId))
    case OrderApply(paymentId) =>
      if db.order.status == Applied then (db, Settled)
      else if !Applicable(env, db.payment, db.order) then (db, Broken(Mismatch))
      else
        (db.(order := db.order.(status := Applied, paymentId := if paymentId.Some? then paymentId else db.order.paymentId),
             subscription := Some(SubscriptionAfter(db.subscription, db.order)),
             periods := PeriodsAfter(db.periods, db.order)),
         Settled)
  }

  /** markPaymentFailed: a settled payment is never overwritten. */
  function FailureCall(db: Db, h: Handler): (r: (Db, Handler))
    requires IsFailure(h)
    ensures CallsLeft(r.1) < CallsLeft(h)
  {
    match h
    case FailureFind(reference) =>
      (db, if reference == "" || reference != db.payment.reference || db.payment.status == Paid then Ignored else FailureLoad)
    case FailureLoad => (db, FailureMark)
    case FailureMark =>
      (if db.payment.status != Paid then db.(payment := db.payment.(status := Failed)) else db, FailureReread)
    case FailureReread => (db, Ignored)
  }

  function Next(env: Environment, db: Db, h: Handler): (r: (Db, Handler))
    requires !Finished(h)
    ensures CallsLeft(r.1) < CallsLeft(h)
  {
    if IsPaymentStage(h) then PaymentCall(env, db, h)
    else if IsActivation(h) then ActivationCall(db, h)
    else if IsOrderStage(h) then OrderCall(env, db, h)
    else FailureCall(db, h)
  }

  // ---------------------------------------------------------------- runs

  datatype Machine = Machine(db: Db, handlers: seq<Handler>)

  function Step(env: Environment, m: Machine, i: nat): Machine
    requires i < |m.handlers|
  {
    if Finished(m.handlers[i]) then m
    else var (db, h) := Next(env, m.db, m.handlers[i]); Machine(db, m.handlers[i := h])
  }

  /** An order in payment_pending with its matching, linked, unsettled payment, in an environment where
      the provider confirms the reference. */
  predicate Checkout(env: Environment, db: Db) {
    var p, o := db.payment, db.order;
    && p.status != Paid && p.reference != "" && p.proof == None
    && o.status == PaymentPending && o.paymentId == Some(p.id) && o.invoiceId.Some? && o.invoiceId == p.invoiceId
    && p.accountId == o.accountId && p.amount == o.amountDue && p.currency == o.currency && o.amountDue > 0
    && o.id !in db.periods
    && (env.studentPriced ==> env.checkoutEnabled && env.providerConfirms && p.provider == "paystack")
  }

  /** A success starts with the webhook's lookup or, from a verification or confirmation request that
      has found its payment, with the load of the payment. */
  predicate SuccessStart(db: Db, h: Handler) {
    h == SuccessFind(db.payment.reference) || h == SuccessLoad
  }

  predicate FailureStart(db: Db, h: Handler) {
    h == FailureFind(db.payment.reference) || h == FailureLoad
  }

  predicate Callback(db: Db, h: Handler) {
    SuccessStart(db, h) || FailureStart(db, h)
  }

  /** A run: any number of successes and failures for the stored reference, in any interleaving of
      their calls. */
  ghost predicate Run(env: Environment, machines: seq<Machine>, schedule: seq<nat>) {
    && |machines| == |schedule| + 1
    && Checkout(env, machines[0].db)
    && (forall i :: 0 <= i < |machines[0].handlers| ==> Callback(machines[0].db, machines[0].handlers[i]))
    && forall k {:trigger schedule[k]} :: 0 <= k < |schedule| ==>
         schedule[k] < |machines[k].handlers| && machines[k + 1] == Step(env, machines[k], schedule[k])
  }

  /** The store once the order has taken effect: payment and invoice paid, order applied, one more
      entitlement version and one period for the order. */
  function SettledStore(env: Environment, init: Db): Db {
    Db(init.payment.(status := Paid, proof := if env.studentPriced then Some(ProofOf(init.payment)) else None),
       Invoice(true, init.payment.amount, 0),
       init.order.(status := Applied),
       Some(SubscriptionAfter(init.subscription, init.order)),
       init.periods[init.order.id := PeriodOf(init.order)])
  }

  /** How far a store has got from init: the payment settles before the invoice, the invoice before
      the order moves, and subscription and period appear together with the applied order. */
  ghost predicate Progress(env: Environment, init: Db, db: Db) {
    var final := SettledStore(env, init);
    && (db.payment == final.payment || (db.payment.status != Paid && db.payment == init.payment.(status := db.payment.status)))
    && (db.invoice == init.invoice || db.invoice == final.invoice)
    && (db.invoice != init.invoice ==> db.payment == final.payment)
    && (db.order.status in {OrderPaid, Applied} ==> db.payment == final.payment && db.invoice == final.invoice)
    && if db.order.status == Applied then
         db.order == final.order && db.subscription == final.subscription && db.periods == final.periods
       else
         && db.order.status in {PaymentPending, OrderPaid} && db.order == init.order.(status := db.order.status)
         && db.subscription == init.subscription && db.periods == init.periods
  }

  /** What a callback in progress may rely on. */
  ghost predicate Reliable(env: Environment, init: Db, db: Db, h: Handler) {
    var final := SettledStore(env, init);
    match h
    case SuccessFind(reference) => reference == init.payment.reference
    case SuccessLoad => true
    case SuccessVerify => true
    case SuccessClaim(verified) => verified == env.studentPriced
    case SuccessReread(_, verified) => db.payment == final.payment && verified == env.studentPriced
    case RestoreProof => db.payment == final.payment && env.studentPriced
    case ActivateLoad => db.payment == final.payment
    case ActivatePayment => db.payment == final.payment
    case ActivateInvoice => db.payment == final.payment
    case OrderFind => db.payment == final.payment && db.invoice == final.invoice
    case OrderPaymentCheck(seen) =>
      db.payment == final.payment && db.invoice == final.invoice && seen == init.order.(status := seen.status) &&
      (seen.status == OrderPaid ==> db.order.status in {OrderPaid, Applied}) && seen.status in {PaymentPending, OrderPaid}
    case OrderPromote(seen) =>
      db.payment == final.payment && db.invoice == final.invoice && seen.paymentId == init.order.paymentId
    case OrderRecheck => db.order.status in {OrderPaid, Applied}
    case OrderApply(paymentId) => db.order.status in {OrderPaid, Applied} && paymentId == init.order.paymentId
    case Settled => db == final
    case Broken(_) => false
    case _ => true
  }

  ghost predicate MachineInv(env: Environment, init: Db, m: Machine) {
    Progress(env, init, m.db) && forall i :: 0 <= i < |m.handlers| ==> Reliable(env, init, m.db, m.handlers[i])
  }

  /** Progress never goes back, so what other callbacks rely on stays true. */
  ghost predicate Advances(env: Environment, init: Db, before: Db, after: Db) {
    var final := SettledStore(env, init);
    && (before.payment == final.payment ==> after.payment == final.payment)
    && (before.invoice == final.invoice ==> after.invoice == final.invoice)
    && (before.order.status in {OrderPaid, Applied} ==> after.order.status in {OrderPaid, Applied})
    && (before == final ==> after == final)
  }

  lemma NextAdvances(env: Environment, init: Db, db: Db, h: Handler)
    requires Checkout(env, init) && Progress(env, init, db) && Reliable(env, init, db, h) && !Finished(h)
    ensures var (after, next) := Next(env, db, h);
            Progress(env, init, after) && Reliable(env, init, after, next) && Advances(env, init, db, after)
  {
  }

  lemma StepKeepsInv(env: Environment, init: Db, m: Machine, i: nat)
    requires Checkout(env, init) && MachineInv(env, init, m) && i < |m.handlers|
    ensures MachineInv(env, init, Step(env, m, i)) && Advances(env, init, m.db, Step(env, m, i).db)
  {
    if !Finished(m.handlers[i]) {
      NextAdvances(env, init, m.db, m.handlers[i]);
      var after := Step(env, m, i);
      forall j | 0 <= j < |after.handlers| && j != i ensures Reliable(env, init, after.db, after.handlers[j]) {
        assert Reliable(env, init, m.db, m.handlers[j]);
      }
    }
  }

  lemma {:induction false} RunKeepsInv(env: Environment, machines: seq<Machine>, schedule: seq<nat>, k: nat)
    requires Run(env, machines, schedule) && k < |machines|
    ensures MachineInv(env, machines[0].db, machines[k]) && |machines[k].handlers| == |machines[0].handlers|
  {
    if k > 0 {
      RunKeepsInv(env, machines, schedule, k - 1);
      StepKeepsInv(env, machines[0].db, machines[k - 1], schedule[k - 1]);
    }
  }

  /** A callback keeps its kind: a success callback ends settled or broken, a failure callback ignored. */
  predicate SuccessKind(h: Handler) {
    IsPaymentStage(h) || IsActivation(h) || IsOrderStage(h) || h.Settled? || h.Broken?
  }

  lemma {:induction false} KindKept(env: Environment, machines: seq<Machine>, schedule: seq<nat>, k: nat, i: nat)
    requires Run(env, machines, schedule) && k < |machines|
    requires i < |machines[0].handlers| && SuccessStart(machines[0].db, machines[0].handlers[i])
    ensures i < |machines[k].handlers| && SuccessKind(machines[k].handlers[i])
  {
    if k > 0 {
      KindKept(env, machines, schedule, k - 1, i);
      RunKeepsInv(env, machines, schedule, k - 1);
      var m := machines[k - 1];
      assert machines[k] == Step(env, m, schedule[k - 1]);
      assert Reliable(env, machines[0].db, m.db, m.handlers[i]);
      assert m.db.payment.reference == machines[0].db.payment.reference;
    }
  }

  /** Exactly-once settlement. In any interleaving of repeated and reordered success and failure
      callbacks, no success callback ever fails; and once one of them has finished the store is, and
      stays, the one a single success leaves behind, whatever the other callbacks still do. */
  lemma SettlesExactlyOnce(env: Environment, machines: seq<Machine>, schedule: seq<nat>, k: nat, i: nat)
    requires Run(env, machines, schedule) && k < |machines|
    requires i < |machines[0].handlers| && SuccessStart(machines[0].db, machines[0].handlers[i])
    ensures i < |machines[k].handlers| && !machines[k].handlers[i].Broken?
    ensures Finished(machines[k].handlers[i]) ==> machines[k].db == SettledStore(env, machines[0].db)
  {
    RunKeepsInv(env, machines, schedule, k);
    KindKept(env, machines, schedule, k, i);
    assert Reliable(env, machines[0].db, machines[k].db, machines[k].handlers[i]);
  }

  // ---------------------------------------------------------------- one callback alone

  function RunAlone(env: Environment, db: Db, h: Handler): (r: (Db, Handler))
    ensures Finished(r.1)
    decreases CallsLeft(h)
  {
    if Finished(h) then (db, h) else var (db', h') := Next(env, db, h); RunAlone(env, db', h')
  }

  lemma SuccessCallKeepsKind(env: Environment, db: Db, h: Handler)
    requires !Finished(h) && SuccessKind(h) && (h.SuccessFind? ==> h.reference == db.payment.reference != "")
    ensures SuccessKind(Next(env, db, h).1) && !Next(env, db, h).1.SuccessFind?
  {
  }

  lemma {:induction false} AloneKeepsInv(env: Environment, init: Db, db: Db, h: Handler)
    requires Checkout(env, init) && Progress(env, init, db) && Reliable(env, init, db, h)
    ensures var (after, last) := RunAlone(env, db, h); Progress(env, init, after) && Reliable(env, init, after, last)
    ensures SuccessKind(h) ==> SuccessKind(RunAlone(env, db, h).1)
    decreases CallsLeft(h)
  {
    if !Finished(h) {
      NextAdvances(env, init, db, h);
      if SuccessKind(h) {
        SuccessCallKeepsKind(env, db, h);
      }
      AloneKeepsInv(env, init, Next(env, db, h).0, Next(env, db, h).1);
    }
  }

  /** One success callback that runs alone reaches exactly that store. */
  lemma SingleSuccess(env: Environment, init: Db)
    requires Checkout(env, init)
    ensures RunAlone(env, init, SuccessFind(init.payment.reference)) == (SettledStore(env, init), Settled)
  {
    AloneKeepsInv(env, init, init, SuccessFind(init.payment.reference));
  }

  /** The headline: once all callbacks of a run have finished, a success among them, the store is the
      one that a single success running alone leaves behind. */
  lemma AllFinishedIsOneSuccess(env: Environment, machines: seq<Machine>, schedule: seq<nat>, k: nat)
    requires Run(env, machines, schedule) && k < |machines|
    requires exists i :: 0 <= i < |machines[0].handlers| && SuccessStart(machines[0].db, machines[0].handlers[i])
    requires forall i :: 0 <= i < |machines[k].handlers| ==> Finished(machines[k].handlers[i])
    ensures var init := machines[0].db;
            machines[k].db == SettledStore(env, init) == RunAlone(env, init, SuccessFind(init.payment.reference)).0
  {
    var i :| 0 <= i < |machines[0].handlers| && SuccessStart(machines[0].db, machines[0].handlers[i]);
    SettlesExactlyOnce(env, machines, schedule, k, i);
    SingleSuccess(env, machines[0].db);
  }

  // Running a callback alone starts with its own next call.

  lemma OnePaymentCall(env: Environment, db: Db, h: Handler)
    requires IsPaymentStage(h)
    ensures RunAlone(env, db, h) == RunAlone(env, PaymentCall(env, db, h).0, PaymentCall(env, db, h).1)
  {
  }

  lemma OneActivationCall(env: Environment, db: Db, h: Handler)
    requires IsActivation(h)
    ensures RunAlone(env, db, h) == RunAlone(env, ActivationCall(db, h).0, ActivationCall(db, h).1)
  {
  }

  lemma OneOrderCall(env: Environment, db: Db, h: Handler)
    requires IsOrderStage(h)
    ensures RunAlone(env, db, h) == RunAlone(env, OrderCall(env, db, h).0, OrderCall(env, db, h).1)
  {
  }

  lemma OneFailureCall(env: Environment, db: Db, h: Handler)
    requires IsFailure(h)
    ensures RunAlone(env, db, h) == RunAlone(env, FailureCall(db, h).0, FailureCall(db, h).1)
  {
  }

  // ---------------------------------------------------------------- the effect, row by row

  /** What a settled order gives: the active subscription it names, one entitlement version on. */
  predicate Granted(o: Order, was: Option<Subscription>, now: Option<Subscription>) {
    && now.Some? && now.value.active
    && now.value.planId == o.toPlanId && now.value.billingCycle == o.billingCycle
    && now.value.start == o.newStart && now.value.end == o.newEnd
    && now.value.entitlementVersion == 1 + if was.Some? then was.value.entitlementVersion else 0
  }

  /** One period for the order, with the order's own terms, beside the earlier ones as they were. */
  predicate Recorded(o: Order, was: map<string, Period>, now: map<string, Period>) {
    && now.Keys == was.Keys + {o.id} && (forall id :: id in was ==> now[id] == was[id])
    && (o.id !in was ==>
          var p := now[o.id];
          && p.planId == o.toPlanId && p.billingCycle == o.billingCycle && p.start == o.newStart && p.end == o.newEnd
          && p.source == o.changeType && p.currency == o.currency && p.amountPaid == o.amountDue)
  }

  /** The payment is paid, keeps its terms and, for a student-priced plan, its settlement proof. */
  predicate Received(env: Environment, was: Payment, now: Payment) {
    && now.status == Paid && now == was.(status := Paid, proof := now.proof)
    && if env.studentPriced then now.proof == Some(Proof(was.reference, was.amount, was.currency)) else now.proof == was.proof
  }

  predicate InvoiceSettled(amount: int, now: Invoice) {
    now.paid && now.amountPaid == amount && now.balance == 0
  }

  /** The order with everything that its settlement changes. */
  predicate TookEffect(env: Environment, init: Db, db: Db) {
    && db.order == init.order.(status := Applied)
    && Received(env, init.payment, db.payment)
    && (if init.payment.invoiceId.Some? then InvoiceSettled(init.payment.amount, db.invoice) else db.invoice == init.invoice)
    && Granted(init.order, init.subscription, db.subscription)
    && Recorded(init.order, init.periods, db.periods)
  }

  /** Subscription, periods and the order's terms are as they were. */
  predicate NoEffectYet(init: Db, db: Db) {
    db.order == init.order.(status := db.order.status) && db.subscription == init.subscription && db.periods == init.periods
  }

  /** Between any two calls of a run the order has taken its whole effect, once, or none of it; and it
      has once a success has finished. */
  lemma EffectInRun(env: Environment, machines: seq<Machine>, schedule: seq<nat>, k: nat)
    requires Run(env, machines, schedule) && k < |machines|
    ensures var init, db := machines[0].db, machines[k].db;
            if db.order.status == Applied then TookEffect(env, init, db) else NoEffectYet(init, db)
    ensures forall i :: 0 <= i < |machines[0].handlers| && SuccessStart(machines[0].db, machines[0].handlers[i]) &&
                        i < |machines[k].handlers| && Finished(machines[k].handlers[i]) ==>
              TookEffect(env, machines[0].db, machines[k].db)
  {
    RunKeepsInv(env, machines, schedule, k);
    forall i | 0 <= i < |machines[0].handlers| && SuccessStart(machines[0].db, machines[0].handlers[i]) &&
               i < |machines[k].handlers| && Finished(machines[k].handlers[i])
      ensures machines[k].db == SettledStore(env, machines[0].db)
    {
      SettlesExactlyOnce(env, machines, schedule, k, i);
    }
  }

  /** What has to hold for a payment to apply its order. */
  predicate Payable(env: Environment, p: Payment, o: Order) {
    && o.paymentId == Some(p.id) && o.status in {PaymentPending, OrderPaid, Scheduled}
    && (o.amountDue > 0 ==>
          && o.invoiceId.Some? && p.invoiceId == o.invoiceId && p.accountId == o.accountId
          && p.amount == o.amountDue && p.currency == o.currency)
    && (env.studentPriced ==>
          && env.checkoutEnabled && env.providerConfirms && p.provider == "paystack" && p.reference != ""
          && o.amountDue > 0 && o.status != Scheduled)
  }

  /** What the stages after the payment's own leave of an order that is not applied yet. */
  ghost predicate AppliedIf(ok: bool, db: Db, after: Db, last: Handler) {
    if ok then
      && last == Settled && after.order == db.order.(status := Applied)
      && Granted(db.order, db.subscription, after.subscription) && Recorded(db.order, db.periods, after.periods)
    else last != Settled && after == db.(payment := after.payment, invoice := after.invoice)
  }

  lemma ApplyAlone(env: Environment, db: Db)
    requires db.order.status in {PaymentPending, OrderPaid, Scheduled} && db.payment.status == Paid
    requires db.order.paymentId == Some(db.payment.id)
    ensures var (after, last) := RunAlone(env, db, OrderApply(db.order.paymentId));
            && after.payment == db.payment && after.invoice == db.invoice
            && AppliedIf(Applicable(env, db.payment, db.order), db, after, last)
  {
    OneOrderCall(env, db, OrderApply(db.order.paymentId));
  }

  lemma PromotedAlone(env: Environment, db: Db)
    requires db.order.status == PaymentPending && db.payment.status == Paid && db.order.paymentId == Some(db.payment.id)
    requires Applicable(env, db.payment, db.order.(status := OrderPaid))
    ensures var (after, last) := RunAlone(env, db, OrderPromote(db.order));
            after.payment == db.payment && after.invoice == db.invoice && AppliedIf(true, db, after, last)
  {
    OneOrderCall(env, db, OrderPromote(db.order));
    ApplyAlone(env, db.(order := db.order.(status := OrderPaid)));
  }

  /** The student plan's proof is in place. */
  predicate Proven(env: Environment, db: Db) {
    env.studentPriced ==> StudentSettlementVerified(env, db.payment, db.order) && db.payment.proof == Some(ProofOf(db.payment))
  }

  lemma OrderAlone(env: Environment, db: Db)
    requires db.order.status != Applied && db.payment.status == Paid && db.order.paymentId == Some(db.payment.id) && Proven(env, db)
    ensures var (after, last) := RunAlone(env, db, OrderFind);
            && after.payment == db.payment && after.invoice == db.invoice
            && AppliedIf(Payable(env, db.payment, db.order), db, after, last)
  {
    var o := db.order;
    OneOrderCall(env, db, OrderFind);
    if o.status in {OrderPaid, PaymentPending, Scheduled} {
      if o.amountDue > 0 {
        OneOrderCall(env, db, OrderPaymentCheck(o));
      }
      if Payable(env, db.payment, o) {
        if o.status == PaymentPending {
          PromotedAlone(env, db);
        } else {
          ApplyAlone(env, db);
        }
      }
    }
  }

  lemma ActivateAlone(env: Environment, db: Db)
    requires db.order.status != Applied && db.payment.status == Paid
    requires db.order.paymentId == Some(db.payment.id) ==> Proven(env, db)
    ensures var (after, last) := RunAlone(env, db, ActivateLoad);
            && after.payment == db.payment && AppliedIf(Payable(env, db.payment, db.order), db, after, last)
            && (db.order.paymentId == Some(db.payment.id) ==>
                  if db.payment.invoiceId.Some? then InvoiceSettled(db.payment.amount, after.invoice) else after.invoice == db.invoice)
  {
    OneActivationCall(env, db, ActivateLoad);
    if db.order.paymentId == Some(db.payment.id) {
      OneActivationCall(env, db, ActivatePayment);
      var next := db;
      if db.payment.invoiceId.Some? {
        OneActivationCall(env, db, ActivateInvoice);
        next := db.(invoice := Invoice(true, db.payment.amount, 0));
      }
      OrderAlone(env, next);
    }
  }

  /** The payment's own stages: paid, with the proof of a verified payment, and on to the activation. */
  lemma PaidAlone(env: Environment, db: Db)
    requires var linked := env.studentPriced && db.order.paymentId == Some(db.payment.id);
             linked ==> StudentSettlementVerified(env, db.payment, db.order)
    ensures var linked := env.studentPriced && db.order.paymentId == Some(db.payment.id);
            var proof := if linked then Some(ProofOf(db.payment)) else db.payment.proof;
            RunAlone(env, db, SuccessLoad) ==
            RunAlone(env, db.(payment := db.payment.(status := Paid, proof := proof)), ActivateLoad)
  {
    var verified := env.studentPriced && db.order.paymentId == Some(db.payment.id);
    OnePaymentCall(env, db, SuccessLoad);
    OnePaymentCall(env, db, SuccessVerify);
    OnePaymentCall(env, db, SuccessClaim(verified));
    var (claimed, h) := PaymentCall(env, db, SuccessClaim(verified));
    OnePaymentCall(env, claimed, h);
    if PaymentCall(env, claimed, h).1 == RestoreProof {
      OnePaymentCall(env, claimed, RestoreProof);
    }
  }

  /** Exactly when a success that no other callback interrupts applies an order: when it names the
      payment and the payment is the one the order asks for. It then has its whole effect; otherwise
      order, subscription and periods stay as they were. */
  lemma SuccessAppliesExactly(env: Environment, db: Db, reference: string)
    requires db.order.status != Applied
    ensures var (after, last) := RunAlone(env, db, SuccessFind(reference));
            if reference == db.payment.reference != "" && Payable(env, db.payment, db.order)
            then last == Settled && TookEffect(env, db, after)
            else last != Settled && after == db.(payment := after.payment, invoice := after.invoice)
  {
    OnePaymentCall(env, db, SuccessFind(reference));
    var linked := env.studentPriced && db.order.paymentId == Some(db.payment.id);
    if reference == db.payment.reference != "" {
      if linked && !StudentSettlementVerified(env, db.payment, db.order) {
        OnePaymentCall(env, db, SuccessLoad);
        OnePaymentCall(env, db, SuccessVerify);
      } else {
        PaidAlone(env, db);
        var proof := if linked then Some(ProofOf(db.payment)) else db.payment.proof;
        ActivateAlone(env, db.(payment := db.payment.(status := Paid, proof := proof)));
      }
    }
  }

  /** The payment of a student-priced order that the provider confirms on the order's own terms. */
  predicate Confirmed(env: Environment, p: Payment, o: Order) {
    && env.checkoutEnabled && env.providerConfirms && p.provider == "paystack" && p.reference != ""
    && p.accountId == o.accountId && p.invoiceId == o.invoiceId && p.amount == o.amountDue && p.currency == o.currency
    && o.amountDue > 0 && o.status in {PaymentPending, OrderPaid, Applied}
  }

  /** Exactly when a success marks the payment paid: whenever it names the payment, except that the
      payment linked to a student-priced order has to be confirmed. A success that does not changes
      nothing. */
  lemma SuccessPaysExactly(env: Environment, db: Db, reference: string)
    ensures var after := RunAlone(env, db, SuccessFind(reference)).0;
            if && reference == db.payment.reference != ""
               && (env.studentPriced && db.order.paymentId == Some(db.payment.id) ==> Confirmed(env, db.payment, db.order))
            then after.payment == db.payment.(status := Paid, proof := after.payment.proof) else after == db
  {
    OnePaymentCall(env, db, SuccessFind(reference));
    var linked := env.studentPriced && db.order.paymentId == Some(db.payment.id);
    if reference == db.payment.reference != "" {
      if linked && !StudentSettlementVerified(env, db.payment, db.order) {
        OnePaymentCall(env, db, SuccessLoad);
        OnePaymentCall(env, db, SuccessVerify);
      } else {
        PaidAlone(env, db);
        var proof := if linked then Some(ProofOf(db.payment)) else db.payment.proof;
        PaidStays(env, db.(payment := db.payment.(status := Paid, proof := proof)), ActivateLoad);
      }
    }
  }

  /** From its activation on a success leaves a paid payment alone. */
  lemma {:induction false} PaidStays(env: Environment, db: Db, h: Handler)
    requires db.payment.status == Paid && (IsActivation(h) || IsOrderStage(h) || Finished(h))
    ensures RunAlone(env, db, h).0.payment == db.payment
    decreases CallsLeft(h)
  {
    if !Finished(h) {
      PaidStays(env, Next(env, db, h).0, Next(env, db, h).1);
    }
  }

  /** An activation is for the payment that its order names: it marks that payment and its invoice
      paid, and without one changes nothing. */
  lemma ActivationSettles(env: Environment, db: Db)
    ensures var (after, last) := RunAlone(env, db, ActivateLoad);
            if db.order.paymentId == Some(db.payment.id) then
              && after.payment == db.payment.(status := Paid)
              && if db.payment.invoiceId.Some? then InvoiceSettled(db.payment.amount, after.invoice) else after.invoice == db.invoice
            else (after, last) == (db, Broken(NotLinked))
  {
    OneActivationCall(env, db, ActivateLoad);
    if db.order.paymentId == Some(db.payment.id) {
      OneActivationCall(env, db, ActivatePayment);
      var next := db.(payment := db.payment.(status := Paid));
      if db.payment.invoiceId.Some? {
        OneActivationCall(env, next, ActivateInvoice);
        next := next.(invoice := Invoice(true, db.payment.amount, 0));
      }
      OrderLeavesPayment(env, next, OrderFind);
    }
  }

  lemma {:induction false} OrderLeavesPayment(env: Environment, db: Db, h: Handler)
    requires IsOrderStage(h) || Finished(h)
    ensures RunAlone(env, db, h).0.payment == db.payment && RunAlone(env, db, h).0.invoice == db.invoice
    decreases CallsLeft(h)
  {
    if !Finished(h) {
      OrderLeavesPayment(env, Next(env, db, h).0, Next(env, db, h).1);
    }
  }

  /** What the applying transaction asks of an order and its payment. */
  predicate MayApply(env: Environment, p: Payment, o: Order) {
    && o.status in {OrderPaid, Scheduled}
    && (o.amountDue > 0 ==>
          && p.status == Paid && o.paymentId == Some(p.id) && o.invoiceId.Some? && p.invoiceId == o.invoiceId
          && p.accountId == o.accountId && p.amount == o.amountDue && p.currency == o.currency)
    && (env.studentPriced ==>
          && o.status != Scheduled && env.checkoutEnabled && o.amountDue > 0 && p.provider == "paystack" && p.reference != ""
          && p.proof == Some(Proof(p.reference, p.amount, p.currency)))
  }

  /** Exactly when the transaction, called for any order, applies it. */
  lemma ApplyExactly(env: Environment, db: Db, paymentId: Option<string>)
    requires db.order.status != Applied
    ensures var (after, last) := RunAlone(env, db, OrderApply(paymentId));
            if MayApply(env, db.payment, db.order) then
              && last == Settled && after.payment == db.payment && after.invoice == db.invoice
              && after.order == db.order.(status := Applied, paymentId := if paymentId.Some? then paymentId else db.order.paymentId)
              && Granted(db.order, db.subscription, after.subscription) && Recorded(db.order, db.periods, after.periods)
            else (after, last) == (db, Broken(Mismatch))
  {
    OneOrderCall(env, db, OrderApply(paymentId));
  }

  /** A success for an order that is applied already gives nothing a second time. */
  lemma AppliedStays(env: Environment, db: Db, reference: string)
    requires db.order.status == Applied
    ensures var after := RunAlone(env, db, SuccessFind(reference)).0;
            after == db.(payment := after.payment, invoice := after.invoice)
  {
    OnePaymentCall(env, db, SuccessFind(reference));
    var linked := env.studentPriced && db.order.paymentId == Some(db.payment.id);
    if reference == db.payment.reference != "" {
      if linked && !StudentSettlementVerified(env, db.payment, db.order) {
        OnePaymentCall(env, db, SuccessLoad);
        OnePaymentCall(env, db, SuccessVerify);
      } else {
        PaidAlone(env, db);
        var proof := if linked then Some(ProofOf(db.payment)) else db.payment.proof;
        AppliedPassesBy(env, db.(payment := db.payment.(status := Paid, proof := proof)));
      }
    }
  }

  lemma AppliedPassesBy(env: Environment, db: Db)
    requires db.order.status == Applied && db.payment.status == Paid
    ensures RunAlone(env, db, ActivateLoad).0 == db.(invoice := RunAlone(env, db, ActivateLoad).0.invoice)
  {
    OneActivationCall(env, db, ActivateLoad);
    OneActivationCall(env, db, ActivatePayment);
    var next := db;
    if db.payment.invoiceId.Some? {
      OneActivationCall(env, db, ActivateInvoice);
      next := db.(invoice := Invoice(true, db.payment.amount, 0));
    }
    OneOrderCall(env, next, OrderFind);
  }

  /** A failed charge marks a payment failed unless it is paid already, and changes nothing else. */
  lemma FailureMarksUnlessPaid(env: Environment, db: Db, reference: string)
    ensures RunAlone(env, db, FailureFind(reference)) ==
            (if reference == db.payment.reference != "" && db.payment.status != Paid
             then db.(payment := db.payment.(status := Failed)) else db,
             Ignored)
  {
    OneFailureCall(env, db, FailureFind(reference));
    OneFailureCall(env, db, FailureLoad);
    OneFailureCall(env, db, FailureMark);
    OneFailureCall(env, FailureCall(db, FailureMark).0, FailureReread);
  }

  // ---------------------------------------------------------------- any payment, any order

  predicate Starts(h: Handler) {
    h.SuccessFind? || h.SuccessLoad? || h.FailureFind? || h.FailureLoad?
  }

  /** Callbacks over any rows at all, interleaved call by call. */
  ghost predicate AnyRun(env: Environment, machines: seq<Machine>, schedule: seq<nat>) {
    && |machines| == |schedule| + 1
    && (forall i :: 0 <= i < |machines[0].handlers| ==> Starts(machines[0].handlers[i]))
    && forall k {:trigger schedule[k]} :: 0 <= k < |schedule| ==>
         schedule[k] < |machines[k].handlers| && machines[k + 1] == Step(env, machines[k], schedule[k])
  }

  /** What an applied order says about the payment: a charge was paid with that payment, on its own
      terms, and a student-priced one through the provider while checkout was switched on. */
  predicate Deserved(env: Environment, p: Payment, o: Order) {
    && (o.amountDue > 0 ==>
          && p.status == Paid && o.paymentId == Some(p.id) && o.invoiceId.Some? && p.invoiceId == o.invoiceId
          && p.accountId == o.accountId && p.amount == o.amountDue && p.currency == o.currency)
    && (env.studentPriced ==>
          && env.checkoutEnabled && o.amountDue > 0 && p.provider == "paystack" && p.reference != ""
          && p.proof == Some(Proof(p.reference, p.amount, p.currency)))
  }

  /** The terms of payment and order stay, and the order's effect comes with a payment that deserves it. */
  predicate KeepsTerms(env: Environment, init: Db, db: Db) {
    && db.payment == init.payment.(status := db.payment.status, proof := db.payment.proof)
    && (init.payment.status == Paid ==> db.payment.status == Paid)
    && if db.order.status == Applied then
         && db.order == init.order.(status := Applied) && Deserved(env, db.payment, db.order)
         && Granted(init.order, init.subscription, db.subscription) && Recorded(init.order, init.periods, db.periods)
       else NoEffectYet(init, db)
  }

  predicate KnowsTerms(init: Db, h: Handler) {
    match h
    case OrderPaymentCheck(seen) => seen.paymentId == init.order.paymentId
    case OrderPromote(seen) => seen.paymentId == init.order.paymentId
    case OrderApply(paymentId) => paymentId == init.order.paymentId
    case _ => true
  }

  lemma NextKeepsTerms(env: Environment, init: Db, db: Db, h: Handler)
    requires KeepsTerms(env, init, db) && KnowsTerms(init, h) && !Finished(h)
    ensures KeepsTerms(env, init, Next(env, db, h).0) && KnowsTerms(init, Next(env, db, h).1)
  {
  }

  /** No interleaving of callbacks, whatever rows it starts from, applies an order that its payment
      does not pay for, or applies it twice. */
  lemma {:induction false} NeverAppliedUnpaid(env: Environment, machines: seq<Machine>, schedule: seq<nat>, k: nat)
    requires AnyRun(env, machines, schedule) && machines[0].db.order.status != Applied && k < |machines|
    ensures KeepsTerms(env, machines[0].db, machines[k].db)
    ensures forall i :: 0 <= i < |machines[k].handlers| ==> KnowsTerms(machines[0].db, machines[k].handlers[i])
  {
    if k > 0 {
      NeverAppliedUnpaid(env, machines, schedule, k - 1);
      var m, i := machines[k - 1], schedule[k - 1];
      if !Finished(m.handlers[i]) {
        NextKeepsTerms(env, machines[0].db, m.db, m.handlers[i]);
      }
    }
  }

  // ---------------------------------------------------------------- claiming the order

  /** markPaymentPending: links the order to its invoice and payment unless it is linked already. */
  function Claim(env: Environment, o: Order, invoiceId: string, paymentId: string): Option<Order> {
    var allowed := if env.studentPriced then CheckoutInitializing else Quoted;
    if o.status == allowed && o.invoiceId.None? && o.paymentId.None? then
      Some(o.(invoiceId := Some(invoiceId), paymentId := Some(paymentId), status := PaymentPending))
    else None
  }

  /** Of any number of checkouts for one order at most one wins the claim, before and after the order
      settles: the winner's payment is the one the settled order names. */
  lemma ClaimedOnce(env: Environment, o: Order, invoiceId: string, paymentId: string, init: Db, machines: seq<Machine>,
                    schedule: seq<nat>, k: nat, otherInvoice: string, otherPayment: string)
    requires Claim(env, o, invoiceId, paymentId) == Some(init.order)
    requires Run(env, machines, schedule) && machines[0].db == init && k < |machines|
    ensures machines[k].db.order.paymentId == Some(paymentId) && machines[k].db.order.invoiceId == Some(invoiceId)
    ensures Claim(env, machines[k].db.order, otherInvoice, otherPayment) == None
  {
    RunKeepsInv(env, machines, schedule, k);
  }

  // ---------------------------------------------------------------- the services

  /** The webhook events that the handler tells apart. */
  datatype Event = ChargeSuccess | ChargeFailed | DisputeCreate | OtherEvent

  /** The rows of one change order with the methods that settle it. Each does what its database calls
      do when no other callback comes between them. */
  class BillingService {
    const env: Environment
    var payment: Payment
    var invoice: Invoice
    var order: Order
    var subscription: Option<Subscription>
    var periods: map<string, Period>

    constructor (env: Environment, db: Db)
      ensures this.env == env && View() == db
    {
      this.env := env;
      payment, invoice, order, subscription, periods := db.payment, db.invoice, db.order, db.subscription, db.periods;
    }

    function View(): Db
      reads this
    {
      Db(payment, invoice, order, subscription, periods)
    }

    method MarkPaymentPending(invoiceId: string, paymentId: string) returns (claimed: bool)
      modifies this`order
      ensures claimed == Claim(env, old(order), invoiceId, paymentId).Some?
      ensures claimed <==> old(order).status == (if env.studentPriced then CheckoutInitializing else Quoted) &&
                           old(order).invoiceId == None && old(order).paymentId == None
      ensures order == if claimed then old(order).(invoiceId := Some(invoiceId), paymentId := Some(paymentId), status := PaymentPending)
                       else old(order)
    {
      var allowed := if env.studentPriced then CheckoutInitializing else Quoted;
      claimed := order.status == allowed && order.invoiceId.None? && order.paymentId.None?;
      if claimed {
        order := order.(invoiceId := Some(invoiceId), paymentId := Some(paymentId), status := PaymentPending);
      }
    }

    method Apply(paymentId: Option<string>) returns (answer: Handler)
      modifies this
      ensures (View(), answer) == RunAlone(env, old(View()), OrderApply(paymentId))
    {
      OneOrderCall(env, View(), OrderApply(paymentId));
      if order.status == Applied {
        return Settled;
      }
      if !Applicable(env, payment, order) {
        return Broken(Mismatch);
      }
      var o := order;
      order := o.(status := Applied, paymentId := if paymentId.Some? then paymentId else o.paymentId);
      subscription := Some(SubscriptionAfter(subscription, o));
      if o.id !in periods {
        periods := periods[o.id := PeriodOf(o)];
      }
      return Settled;
    }

    method ApplyPaidChangeOrder() returns (answer: Handler)
      modifies this
      ensures (View(), answer) == RunAlone(env, old(View()), OrderFind)
    {
      OneOrderCall(env, View(), OrderFind);
      if order.status == Applied {
        return Settled;
      }
      if order.status !in {OrderPaid, PaymentPending, Scheduled} {
        return Broken(WrongStatus);
      }
      var seen := order;
      if seen.amountDue > 0 {
        OneOrderCall(env, View(), OrderPaymentCheck(seen));
        if seen.paymentId != Some(payment.id) || seen.invoiceId.None? || !Matches(payment, seen) {
          return Broken(Mismatch);
        }
      }
      if seen.status == PaymentPending {
        OneOrderCall(env, View(), OrderPromote(seen));
        order := order.(status := OrderPaid);
      }
      answer := Apply(seen.paymentId);
    }

    method ActivateSubscriptionFromPayment() returns (answer: Handler)
      modifies this
      ensures (View(), answer) == RunAlone(env, old(View()), ActivateLoad)
    {
      OneActivationCall(env, View(), ActivateLoad);
      if order.paymentId != Some(payment.id) {
        return Broken(NotLinked);
      }
      OneActivationCall(env, View(), ActivatePayment);
      payment := payment.(status := Paid);
      if payment.invoiceId.Some? {
        OneActivationCall(env, View(), ActivateInvoice);
        invoice := Invoice(true, payment.amount, 0);
      }
      answer := ApplyPaidChangeOrder();
    }

    method MarkPaymentPaid() returns (answer: Handler)
      modifies this
      ensures (View(), answer) == RunAlone(env, old(View()), SuccessLoad)
    {
      OnePaymentCall(env, View(), SuccessLoad);
      OnePaymentCall(env, View(), SuccessVerify);
      var verified := env.studentPriced && order.paymentId == Some(payment.id);
      if verified && !StudentSettlementVerified(env, payment, order) {
        return Broken(Unverified);
      }
      OnePaymentCall(env, View(), SuccessClaim(verified));
      var claimed := payment.status != Paid;
      if claimed {
        payment := payment.(status := Paid, proof := if verified then Some(ProofOf(payment)) else payment.proof);
      }
      OnePaymentCall(env, View(), SuccessReread(claimed, verified));
      if !claimed && verified && payment.proof != Some(ProofOf(payment)) {
        OnePaymentCall(env, View(), RestoreProof);
        payment := payment.(proof := Some(ProofOf(payment)));
      }
      answer := ActivateSubscriptionFromPayment();
    }

    method MarkPaymentFailed()
      modifies this`payment
      ensures (View(), Ignored) == RunAlone(env, old(View()), FailureLoad)
    {
      OneFailureCall(env, View(), FailureLoad);
      OneFailureCall(env, View(), FailureMark);
      if payment.status != Paid {
        payment := payment.(status := Failed);
      }
      OneFailureCall(env, View(), FailureReread);
    }

    /** A webhook event for a reference. A dispute and any other event leave the rows as they are. */
    method HandlePaystackWebhook(event: Event, reference: string) returns (answer: Handler)
      modifies this
      ensures (View(), answer) ==
              match event
              case ChargeSuccess => RunAlone(env, old(View()), SuccessFind(reference))
              case ChargeFailed => RunAlone(env, old(View()), FailureFind(reference))
              case DisputeCreate => (old(View()), Ignored)
              case OtherEvent => (old(View()), Ignored)
    {
      if event == ChargeSuccess {
        OnePaymentCall(env, View(), SuccessFind(reference));
      } else if event == ChargeFailed {
        OneFailureCall(env, View(), FailureFind(reference));
      }
      if reference == "" || reference != payment.reference {
        return Ignored;
      }
      answer := Ignored;
      if event == ChargeSuccess {
        answer := MarkPaymentPaid();
      } else if event == ChargeFailed {
        if payment.status != Paid {
          MarkPaymentFailed();
        }
      }
    }
  }
}
