/** The payment hook of `hooks/useStripePayment.ts`: `handlePayment` checks
    its guards, charges the event's price through the payment processor,
    stores a payment record and then asks the participation ledger to add
    the event. The hook's React state is `PaymentHook`; every awaited call
    outside the app is a field of `External`, and what the flow asks of
    those services, in order, is its list of `Effect`s. */
module Payment {
  import opened Outcomes
  import Price
  import Events

  datatype PaymentHook = PaymentHook(paymentLoading: bool, hasPaid: bool)

  /** The fields of the event the flow reads. */
  datatype EventInfo = EventInfo(id: string, price: string, clubName: string)

  /** The payment-intent request: `fetch` or `json()` rejects, or the body
      arrives with an optional `error` (its message) and an optional
      `client_secret`. */
  datatype IntentReply = IntentThrew(message: string) | IntentResponse(error: Option<string>, clientSecret: Option<string>)

  /** `initPaymentSheet` / `presentPaymentSheet`: no error, an `error` in the
      result, or a rejection. */
  datatype SheetReply = SheetOk | SheetError(message: string) | SheetThrew(message: string)

  /** The `addParticipatedEvent` callback: it resolves to a boolean or
      rejects. */
  datatype ParticipationReply = Added(ok: bool) | AddThrew(message: string)

  /** Everything outside the app the flow depends on: the configured secret
      key, the answer of each awaited call, and the clock. */
  datatype External = External(
    secretKey: Option<string>,
    intent: IntentReply,
    init: SheetReply,
    present: SheetReply,
    record: Reply,
    participation: ParticipationReply,
    now: string)

  /** A `payments/{clientSecret}` document. */
  datatype PaymentRecord = PaymentRecord(
    paymentId: string, userId: string, eventId: string, amount: Price.Number,
    currency: string, status: string, timestamp: string)

  /** The payment details handed to `addParticipatedEvent`. */
  datatype PaymentDetails = PaymentDetails(paymentId: string, amount: Price.Number, currency: string, status: string)

  /** A request the flow makes of a service outside the app. */
  datatype Effect =
    | IntentRequested(amount: Price.Number, currency: string)
    | SheetInitialised(clientSecret: string)
    | SheetPresented
    | PaymentWrite(record: PaymentRecord)
    | ParticipationRequested(eventId: string, status: Events.Status, details: PaymentDetails)

  /** The guard that turned a call away before anything was requested. */
  datatype Guard = NoUser | AlreadyPaid | NoSecretKey

  /** The alert every path ends with; `Text` gives its title and message. */
  datatype Notice =
    | LoginRequired
    | PaidBefore
    | ConfigMissing
    | IntentFailed(reason: string)
    | NoClientSecret
    | InitFailed(reason: string)
    | SheetFailed(reason: string)
    | Joined
    | NotJoined(participateError: Option<string>)
    | ProcessFailed(reason: string)

  /** The outcome of one `handlePayment` call: its return value, the hook
      state after it, the requests it made, the `payments` collection after
      it, the guard that rejected it (if one did) and the alert it showed. */
  datatype Run = Run(
    returned: bool, hook: PaymentHook, effects: seq<Effect>,
    payments: map<string, PaymentRecord>, rejectedBy: Option<Guard>, notice: Notice)

  const Currency := "eur"
  const Succeeded := "succeeded"

  /** The `Alert.alert(title, message)` call for a notice. */
  function Text(n: Notice): (a: (string, string))
    ensures a.0 == "Erfolg" <==> n == Joined
    ensures n.NotJoined? && Truthy(n.participateError) ==> a.1 == n.participateError.value
  {
    match n
    case LoginRequired => ("Anmeldung erforderlich", "Bitte melden Sie sich an, um an Events teilzunehmen.")
    case PaidBefore => ("Fehler", "Du hast bereits für dieses Event bezahlt.")
    case ConfigMissing => ("Fehler", "Zahlungskonfiguration fehlt.")
    case IntentFailed(m) => ("Fehler", "Zahlungserstellung fehlgeschlagen: " + m)
    case NoClientSecret => ("Fehler", "Zahlung konnte nicht initialisiert werden.")
    case InitFailed(m) => ("Fehler", "Zahlung initialisieren fehlgeschlagen: " + m)
    case SheetFailed(m) => ("Fehler", "Zahlung fehlgeschlagen: " + m)
    case Joined => ("Erfolg", "Du nimmst jetzt an diesem Event teil! Es wurde zu deinem Kalender hinzugefügt.")
    case NotJoined(e) => ("Fehler", if Truthy(e) then e.value else "Teilnahme konnte nicht hinzugefügt werden.")
    case ProcessFailed(m) => ("Fehler", "Zahlungsprozess fehlgeschlagen: " + m)
  }

  /** The notice of each guard. */
  function GuardNotice(g: Guard): Notice {
    match g
    case NoUser => LoginRequired
    case AlreadyPaid => PaidBefore
    case NoSecretKey => ConfigMissing
  }

  /** The record stored for a successful charge of `amount` cents. */
  function RecordOf(secret: string, uid: string, eventId: string, amount: Price.Number, now: string): (rec: PaymentRecord)
    ensures rec.paymentId == secret && rec.userId == uid && rec.eventId == eventId
    ensures rec.amount == Price.Euros(amount)
    ensures rec.currency == "eur" && rec.status == "succeeded" && rec.timestamp == now
  {
    PaymentRecord(secret, uid, eventId, Price.Euros(amount), Currency, Succeeded, now)
  }

  function DetailsOf(secret: string, amount: Price.Number): PaymentDetails {
    PaymentDetails(secret, Price.Euros(amount), Currency, Succeeded)
  }

  /** The requests of a flow that got as far as presenting the sheet. */
  function Presented(amount: Price.Number, secret: string): seq<Effect> {
    [IntentRequested(amount, Currency), SheetInitialised(secret), SheetPresented]
  }

  /** A call the guards let through, ending in the `finally` block. */
  function Finished(hook: PaymentHook, success: bool, effects: seq<Effect>,
                    payments: map<string, PaymentRecord>, notice: Notice): Run {
    Run(success, PaymentHook(false, hook.hasPaid || success), effects, payments, None, notice)
  }

  /** Whether the processor's answer lets the flow go on with a client
      secret: no `error`, and a truthy `client_secret`. */
  predicate IntentUsable(intent: IntentReply) {
    intent.IntentResponse? && intent.error.None? && Truthy(intent.clientSecret)
  }

  /** Whether every service answered as a successful payment needs. */
  predicate AllSucceed(ext: External) {
    IntentUsable(ext.intent) && ext.init == SheetOk && ext.present == SheetOk
    && ext.record == Committed && ext.participation == Added(true)
  }

  /** The only payment record the requests write is the one for `secret`,
      and it comes fourth, after the charge, the sheet's initialisation and
      its presentation. */
  predicate WritesAfterSheet(effects: seq<Effect>, eventId: string, amount: Price.Number, uid: string, secret: string, now: string) {
    forall i :: 0 <= i < |effects| && effects[i].PaymentWrite? ==>
      i == 3 && effects[..3] == Presented(amount, secret) && effects[i].record == RecordOf(secret, uid, eventId, amount, now)
  }

  /** Whether the requests include asking the ledger for the participation. */
  predicate Joins(effects: seq<Effect>) {
    exists i :: 0 <= i < |effects| && effects[i].ParticipationRequested?
  }

  /** The only participation the requests ask for is an upcoming one for
      `eventId` with the payment's details, and it comes fifth, right after
      the record write. */
  predicate JoinsAfterRecord(effects: seq<Effect>, eventId: string, amount: Price.Number, uid: string, secret: string, now: string) {
    forall i :: 0 <= i < |effects| && effects[i].ParticipationRequested? ==>
      && i == 4
      && effects[..4] == Presented(amount, secret) + [PaymentWrite(RecordOf(secret, uid, eventId, amount, now))]
      && effects[i] == ParticipationRequested(eventId, Events.Upcoming, DetailsOf(secret, amount))
  }

  /** What happens once the sheet was presented without error: write the
      record under the client secret, then add the participation. */
  function AfterSheet(hook: PaymentHook, eventId: string, amount: Price.Number, uid: string, participateError: Option<string>,
                      payments: map<string, PaymentRecord>, ext: External, secret: string): (r: Run)
    ensures !r.hook.paymentLoading && r.rejectedBy.None?
    ensures r.returned <==> ext.record == Committed && ext.participation == Added(true)
    ensures r.hook.hasPaid <==> hook.hasPaid || r.returned
    ensures |r.effects| >= 4 && r.effects[..3] == Presented(amount, secret)
    ensures r.effects[3] == PaymentWrite(RecordOf(secret, uid, eventId, amount, ext.now))
    ensures WritesAfterSheet(r.effects, eventId, amount, uid, secret, ext.now)
    ensures ext.record.Committed? ==> r.payments == payments[secret := RecordOf(secret, uid, eventId, amount, ext.now)]
    ensures ext.record.Threw? ==> r.payments == payments && |r.effects| == 4
    ensures ext.record.Committed? ==>
              r.effects == Presented(amount, secret) + [PaymentWrite(RecordOf(secret, uid, eventId, amount, ext.now)),
                                                        ParticipationRequested(eventId, Events.Upcoming, DetailsOf(secret, amount))]
    ensures Joins(r.effects) <==> ext.record.Committed?
    ensures JoinsAfterRecord(r.effects, eventId, amount, uid, secret, ext.now)
    ensures r.notice == Joined <==> r.returned
  {
    var rec := RecordOf(secret, uid, eventId, amount, ext.now);
    var written := Presented(amount, secret) + [PaymentWrite(rec)];
    match ext.record
    case Threw(m) => Finished(hook, false, written, payments, ProcessFailed(m))
    case Committed =>
      var stored := payments[secret := rec];
      var effects := written + [ParticipationRequested(eventId, Events.Upcoming, DetailsOf(secret, amount))];
      assert effects[4].ParticipationRequested?;
      match ext.participation
      case AddThrew(m) => Finished(hook, false, effects, stored, ProcessFailed(m))
      case Added(ok) =>
        if ok then
          Finished(hook, true, effects, stored, Joined)
        else
          Finished(hook, false, effects, stored, NotJoined(participateError))
  }

  /** The sheet with the client secret `secret`: initialise it, present
      it, and on success go on to record the payment. */
  function WithSheet(hook: PaymentHook, eventId: string, amount: Price.Number, uid: string, participateError: Option<string>,
                     payments: map<string, PaymentRecord>, ext: External, secret: string): (r: Run)
    ensures !r.hook.paymentLoading && r.rejectedBy.None?
    ensures |r.effects| >= 2 && r.effects[..2] == [IntentRequested(amount, "eur"), SheetInitialised(secret)]
    // A failed step ends the requests.
    ensures ext.init != SheetOk ==> r.effects == [IntentRequested(amount, "eur"), SheetInitialised(secret)]
    ensures ext.init == SheetOk && ext.present != SheetOk ==> r.effects == Presented(amount, secret)
    ensures r.returned <==>
              ext.init == SheetOk && ext.present == SheetOk && ext.record == Committed && ext.participation == Added(true)
    ensures r.hook.hasPaid <==> hook.hasPaid || r.returned
    ensures WritesAfterSheet(r.effects, eventId, amount, uid, secret, ext.now)
    ensures (exists i :: 0 <= i < |r.effects| && r.effects[i].PaymentWrite?) ==> ext.init == SheetOk && ext.present == SheetOk
    ensures Joins(r.effects) <==> ext.init == SheetOk && ext.present == SheetOk && ext.record == Committed
    ensures JoinsAfterRecord(r.effects, eventId, amount, uid, secret, ext.now)
    ensures r.payments != payments ==>
              ext.init == SheetOk && ext.present == SheetOk && ext.record == Committed
              && r.payments == payments[secret := RecordOf(secret, uid, eventId, amount, ext.now)]
    ensures r.returned ==> r.payments == payments[secret := RecordOf(secret, uid, eventId, amount, ext.now)]
    ensures r.notice == Joined <==> r.returned
  {
    var initialised := [IntentRequested(amount, Currency), SheetInitialised(secret)];
    match ext.init
    case SheetThrew(m) => Finished(hook, false, initialised, payments, ProcessFailed(m))
    case SheetError(m) => Finished(hook, false, initialised, payments, InitFailed(m))
    case SheetOk =>
      var presented := initialised + [SheetPresented];
      assert presented == Presented(amount, secret);
      match ext.present
      case SheetThrew(m) => Finished(hook, false, presented, payments, ProcessFailed(m))
      case SheetError(m) => Finished(hook, false, presented, payments, SheetFailed(m))
      case SheetOk => AfterSheet(hook, eventId, amount, uid, participateError, payments, ext, secret)
  }

  /** The `try` block: ask for the charge, check the processor's answer,
      and go on to the sheet with its client secret. */
  function Charge(hook: PaymentHook, eventId: string, amount: Price.Number, uid: string, participateError: Option<string>,
                  payments: map<string, PaymentRecord>, ext: External): (r: Run)
    ensures !r.hook.paymentLoading && r.rejectedBy.None?
    ensures |r.effects| >= 1 && r.effects[0] == IntentRequested(amount, "eur")
    // A failed step ends the requests.
    ensures !IntentUsable(ext.intent) ==> r.effects == [IntentRequested(amount, "eur")]
    ensures IntentUsable(ext.intent) && ext.init != SheetOk ==>
              r.effects == [IntentRequested(amount, "eur"), SheetInitialised(ext.intent.clientSecret.value)]
    ensures IntentUsable(ext.intent) && ext.init == SheetOk && ext.present != SheetOk ==>
              r.effects == Presented(amount, ext.intent.clientSecret.value)
    ensures r.returned <==> AllSucceed(ext)
    ensures r.hook.hasPaid <==> hook.hasPaid || r.returned
    ensures (exists i :: 0 <= i < |r.effects| && r.effects[i].PaymentWrite?) ==>
              IntentUsable(ext.intent) && ext.init == SheetOk && ext.present == SheetOk
    ensures IntentUsable(ext.intent) ==> WritesAfterSheet(r.effects, eventId, amount, uid, ext.intent.clientSecret.value, ext.now)
    ensures Joins(r.effects) <==> IntentUsable(ext.intent) && ext.init == SheetOk && ext.present == SheetOk && ext.record == Committed
    ensures IntentUsable(ext.intent) ==> JoinsAfterRecord(r.effects, eventId, amount, uid, ext.intent.clientSecret.value, ext.now)
    ensures r.payments != payments ==>
              IntentUsable(ext.intent) && ext.init == SheetOk && ext.present == SheetOk && ext.record == Committed
              && r.payments == payments[ext.intent.clientSecret.value := RecordOf(ext.intent.clientSecret.value, uid, eventId, amount, ext.now)]
    ensures r.returned ==>
              r.payments == payments[ext.intent.clientSecret.value := RecordOf(ext.intent.clientSecret.value, uid, eventId, amount, ext.now)]
    ensures r.notice == Joined <==> r.returned
  {
    var requested := [IntentRequested(amount, Currency)];
    match ext.intent
    case IntentThrew(m) => Finished(hook, false, requested, payments, ProcessFailed(m))
    case IntentResponse(error, secret) =>
      if error.Some? then Finished(hook, false, requested, payments, IntentFailed(error.value))
      else if !Truthy(secret) then Finished(hook, false, requested, payments, NoClientSecret)
      else WithSheet(hook, eventId, amount, uid, participateError, payments, ext, secret.value)
  }

  /** `handlePayment(event, user, addParticipatedEvent, participateError)`. */
  function HandlePayment(hook: PaymentHook, event: EventInfo, user: Option<string>, participateError: Option<string>,
                         payments: map<string, PaymentRecord>, ext: External): (r: Run)
    // The guards, in the order they are checked.
    ensures user.None? ==> r.rejectedBy == Some(NoUser)
    ensures user.Some? && hook.hasPaid ==> r.rejectedBy == Some(AlreadyPaid)
    ensures user.Some? && !hook.hasPaid && !Truthy(ext.secretKey) ==> r.rejectedBy == Some(NoSecretKey)
    ensures r.rejectedBy.None? <==> user.Some? && !hook.hasPaid && Truthy(ext.secretKey)
    // A rejected call requests nothing and changes nothing.
    ensures r.rejectedBy.Some? ==>
              !r.returned && r.hook == hook && r.effects == [] && r.payments == payments
              && r.notice == GuardNotice(r.rejectedBy.value)
    // An accepted call first asks for the charge, and always ends not loading.
    ensures r.rejectedBy.None? ==>
              !r.hook.paymentLoading && |r.effects| >= 1 && r.effects[0] == IntentRequested(Price.AmountCents(event.price), "eur")
    // A failed step ends the requests: the sheet is initialised only with a
    // usable client secret, and presented only once initialised.
    ensures r.rejectedBy.None? && !IntentUsable(ext.intent) ==>
              r.effects == [IntentRequested(Price.AmountCents(event.price), "eur")]
    ensures r.rejectedBy.None? && IntentUsable(ext.intent) && ext.init != SheetOk ==>
              r.effects == [IntentRequested(Price.AmountCents(event.price), "eur"), SheetInitialised(ext.intent.clientSecret.value)]
    ensures r.rejectedBy.None? && IntentUsable(ext.intent) && ext.init == SheetOk && ext.present != SheetOk ==>
              r.effects == Presented(Price.AmountCents(event.price), ext.intent.clientSecret.value)
    ensures r.returned <==> r.rejectedBy.None? && AllSucceed(ext)
    ensures r.hook.hasPaid <==> hook.hasPaid || r.returned
    // A record is written only after the sheet was presented without error,
    // and under the client secret the processor returned.
    ensures (exists i :: 0 <= i < |r.effects| && r.effects[i].PaymentWrite?) ==>
              IntentUsable(ext.intent) && ext.init == SheetOk && ext.present == SheetOk
              && WritesAfterSheet(r.effects, event.id, Price.AmountCents(event.price), user.value, ext.intent.clientSecret.value, ext.now)
    // The ledger is asked only once the record has committed, right after
    // its write.
    ensures Joins(r.effects) <==>
              r.rejectedBy.None? && IntentUsable(ext.intent) && ext.init == SheetOk && ext.present == SheetOk && ext.record == Committed
    ensures Joins(r.effects) ==>
              JoinsAfterRecord(r.effects, event.id, Price.AmountCents(event.price), user.value, ext.intent.clientSecret.value, ext.now)
    ensures r.payments != payments ==>
              r.rejectedBy.None? && IntentUsable(ext.intent) && ext.init == SheetOk && ext.present == SheetOk && ext.record == Committed
              && r.payments == payments[ext.intent.clientSecret.value := RecordOf(ext.intent.clientSecret.value, user.value, event.id, Price.AmountCents(event.price), ext.now)]
    ensures r.returned ==>
              r.payments == payments[ext.intent.clientSecret.value := RecordOf(ext.intent.clientSecret.value, user.value, event.id, Price.AmountCents(event.price), ext.now)]
    ensures r.notice == Joined <==> r.returned
  {
    if user.None? then Run(false, hook, [], payments, Some(NoUser), GuardNotice(NoUser))
    else if hook.hasPaid then Run(false, hook, [], payments, Some(AlreadyPaid), GuardNotice(AlreadyPaid))
    else if !Truthy(ext.secretKey) then Run(false, hook, [], payments, Some(NoSecretKey), GuardNotice(NoSecretKey))
    else Charge(hook, event.id, Price.AmountCents(event.price), user.value, participateError, payments, ext)
  }

  /** When the record is stored but the participation is not added, the
      charge stays recorded while the call reports failure and `hasPaid`
      stays false: the payment is orphaned. */
  lemma OrphanedPayment(hook: PaymentHook, event: EventInfo, uid: string, participateError: Option<string>,
                        payments: map<string, PaymentRecord>, ext: External)
    requires !hook.hasPaid && Truthy(ext.secretKey)
    requires IntentUsable(ext.intent) && ext.init == SheetOk && ext.present == SheetOk && ext.record == Committed
    requires ext.participation != Added(true)
    ensures var r := HandlePayment(hook, event, Some(uid), participateError, payments, ext);
            && !r.returned && !r.hook.hasPaid
            && ext.intent.clientSecret.value in r.payments
            && r.payments[ext.intent.clientSecret.value].userId == uid
            && r.payments[ext.intent.clientSecret.value].eventId == event.id
  {
  }

  /** Once a call has succeeded, every later call on the same hook is
      turned away by a guard before it requests anything, whatever the
      event and whatever the services would answer. */
  lemma PaidOnce(hook: PaymentHook, event: EventInfo, user: Option<string>, participateError: Option<string>,
                 payments: map<string, PaymentRecord>, ext: External,
                 event2: EventInfo, user2: Option<string>, participateError2: Option<string>, ext2: External)
    requires HandlePayment(hook, event, user, participateError, payments, ext).returned
    ensures var r := HandlePayment(hook, event, user, participateError, payments, ext);
            var r2 := HandlePayment(r.hook, event2, user2, participateError2, r.payments, ext2);
            && r2.rejectedBy.Some? && r2.effects == [] && !r2.returned && r2.payments == r.payments
            && (user2.Some? ==> r2.rejectedBy == Some(AlreadyPaid))
  {
  }

  /** With the participation ledger's `addParticipatedEvent` as the callback,
      a successful payment leaves a participation entry for the event with
      status upcoming, and that entry holds no payment details: the
      payment id lives only in the payment record. */
  lemma PaymentAndLedger(hook: PaymentHook, event: EventInfo, uid: string, participateError: Option<string>,
                         payments: map<string, PaymentRecord>, ext: External,
                         ledgerHook: Events.HookState, participated: seq<Events.ParticipatedEvent>, ledgerReply: Reply)
    requires ext.participation
             == Added(Events.AddParticipatedEvent(Some(uid), ledgerHook, participated, event.id,
                                                  Some(Events.Upcoming), ext.now, ledgerReply).returned)
    requires !hook.hasPaid && Truthy(ext.secretKey) && AllSucceed(ext)
    ensures var c := Events.AddParticipatedEvent(Some(uid), ledgerHook, participated, event.id,
                                                 Some(Events.Upcoming), ext.now, ledgerReply);
            && HandlePayment(hook, event, Some(uid), participateError, payments, ext).returned
            && ledgerReply == Committed
            && Events.ParticipatedEvent(event.id, Events.Upcoming, ext.now) in c.stored
            && ext.intent.clientSecret.value in HandlePayment(hook, event, Some(uid), participateError, payments, ext).payments
  {
  }

  /** When every service succeeds, a payment for an event priced
      "12.50 €" asks the processor for 1250 cents, succeeds, and stores a
      record of 12.50 euros under the client secret. */
  lemma TwelveFiftyPayment(hook: PaymentHook, event: EventInfo, uid: string, participateError: Option<string>,
                           payments: map<string, PaymentRecord>, ext: External)
    requires event.price == "12.50 €"
    requires !hook.hasPaid && Truthy(ext.secretKey) && AllSucceed(ext)
    ensures var r := HandlePayment(hook, event, Some(uid), participateError, payments, ext);
            var secret := ext.intent.clientSecret.value;
            && r.returned
            && r.effects[0] == IntentRequested(Price.Decimal(1250, 0, 0), "eur")
            && secret in r.payments
            && r.payments[secret].amount == Price.Decimal(12, 50, 2)
            && r.payments[secret].eventId == event.id
  {
    Price.TwelveFifty(event.price);
  }
}
