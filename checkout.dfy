/**
 * The payment-state bookkeeping of the browser checkout (`PaymentApp`),
 * without the DOM: the state record, the polling interval and the browser's
 * table of live intervals, the status overlay, the 3DS challenge modal and
 * the submit button's loading flag. Replies from the backend and the
 * tokenization SDK's result are inputs.
 */
module Checkout {
  import opened Wrappers
  import opened PaymentTypes
  import opened PagsmileConstants
  import Server
  import FormValidation

  /** `PaymentState`; `None` stands for `null`. */
  datatype PaymentState = PaymentState(
    step: PaymentStep,
    prepayId: Option<string>,
    outTradeNo: Option<string>,
    tradeNo: Option<string>,
    status: Option<TradeStatus>,
    errorMessage: Option<string>,
    checkUrl: Option<string>)

  /** The record the app starts with and `resetForm` restores. */
  const InitialState: PaymentState := PaymentState(Idle, None, None, None, None, None, None)

  /** Which panel of the status overlay shows (`showStatus` / `hideStatus`). */
  datatype Overlay = Hidden | ShowingProcessing | ShowingSuccess(tradeNo: string) | ShowingError

  const RefusedMessage: string := "Pagamento recusado"
  const CancelledMessage: string := "Verificação 3DS cancelada"
  const SdkMissingMessage: string := "SDK não inicializado"
  const PaymentFailedMessage: string := "Erro ao processar pagamento"

  /** `!this.state.outTradeNo`: null and "" both stop a poll. */
  predicate NoTradeNo(s: PaymentState)
  {
    s.outTradeNo == None || s.outTradeNo == Some("")
  }

  /** What a poll does with a status body. */
  datatype Verdict = KeepPolling | Paid(tradeNo: string) | Declined(message: string)

  /**
   * The poll callback's decision on a status body: SUCCESS ends the flow in
   * success; any other terminal body ends it with the refusal detail, or
   * "Pagamento recusado" without one; anything else keeps polling.
   */
  function PollVerdict(body: Server.PaymentStatus): (v: Verdict)
    ensures v.Paid? <==> body.tradeStatus == Success
    ensures v.Paid? ==> v.tradeNo == body.tradeNo
    ensures v.Declined? <==> body.tradeStatus != Success && body.isTerminal
    ensures v.Declined? ==> v.message == (if body.refuseDetail.Some? then body.refuseDetail.value else RefusedMessage)
    ensures v.KeepPolling? <==> body.tradeStatus != Success && !body.isTerminal
  {
    if body.tradeStatus == Success then Paid(body.tradeNo)
    else if body.isTerminal then Declined(body.refuseDetail.GetOr(RefusedMessage))
    else KeepPolling
  }

  /**
   * Tied to the status route: for a query the gateway answered with code
   * "10000", polling goes on exactly while the trade is PROCESSING, succeeds
   * exactly on SUCCESS, and otherwise fails with the refusal detail.
   */
  lemma PollStopsExactlyOnTerminal(res: QueryResponse)
    requires res.code == SuccessCode
    ensures Server.StatusRoute(Server.Returned(res)).Ok()
    ensures var v := PollVerdict(Server.StatusRoute(Server.Returned(res)).body);
            (v.KeepPolling? <==> res.tradeStatus == Processing) &&
            (v.Paid? <==> res.tradeStatus == Success) &&
            (v.Paid? ==> v.tradeNo == res.tradeNo) &&
            (v.Declined? ==> v.message == res.refuseDetail.GetOr(RefusedMessage))
  {
    var r := Server.StatusRoute(Server.Returned(res));
    assert r.body.tradeStatus == res.tradeStatus && r.body.refuseDetail == res.refuseDetail;
  }

  /** Every other gateway status is one the poll keeps waiting on only if it is PROCESSING. */
  lemma FailedMeansTerminal(res: QueryResponse)
    requires res.code == SuccessCode
    requires PollVerdict(Server.StatusRoute(Server.Returned(res)).body).Declined?
    ensures res.tradeStatus in {Cancel, Expired, Refused, Chargeback, Refunded}
  {
    PollStopsExactlyOnTerminal(res);
  }

  /** What the tokenization SDK's `createOrder` resolves to. */
  datatype SdkStatus = SdkSuccess | SdkError
  datatype SdkResult = SdkResult(status: SdkStatus, query: bool, message: Option<string>)

  class PaymentApp {
    var state: PaymentState
    /** `pollInterval`: the handle of the interval started last, if not stopped. */
    var pollInterval: Option<nat>
    /** The browser's table of intervals that are still scheduled. */
    var liveIntervals: set<nat>
    /** The handle the next `setInterval` returns; handles are positive. */
    var nextHandle: nat
    var overlay: Overlay
    /** The 3DS modal is showing. */
    var challengeOpen: bool
    /** The submit button is disabled and spinning. */
    var loading: bool
    /** Status fetches the poll callback has started whose reply has not arrived yet. */
    var inFlight: nat

    /**
     * The app's invariant: `step` stays "idle" (nothing assigns it anything
     * else), and at most one interval is live, the one `pollInterval` holds.
     */
    ghost predicate Valid()
      reads this
    {
      state.step == Idle && 0 < nextHandle &&
      liveIntervals == (if pollInterval.Some? then {pollInterval.value} else {}) &&
      (forall h :: h in liveIntervals ==> 0 < h < nextHandle)
    }

    constructor()
      ensures Valid()
      ensures state == InitialState && pollInterval == None && liveIntervals == {}
      ensures overlay == Hidden && !challengeOpen && !loading && inFlight == 0
    {
      state := InitialState;
      pollInterval := None;
      liveIntervals := {};
      nextHandle := 1;
      overlay := Hidden;
      challengeOpen := false;
      loading := false;
      inFlight := 0;
    }

    /**
     * `stopPolling`: afterwards no interval is live. When none was, nothing
     * changes, so a second call is a no-op.
     */
    method StopPolling()
      requires Valid()
      modifies this
      ensures Valid()
      ensures pollInterval == None && liveIntervals == {}
      ensures old(pollInterval) == None ==> liveIntervals == old(liveIntervals)
      ensures state == old(state) && overlay == old(overlay) && nextHandle == old(nextHandle)
      ensures challengeOpen == old(challengeOpen) && loading == old(loading) && inFlight == old(inFlight)
    {
      if pollInterval.Some? {
        liveIntervals := liveIntervals - {pollInterval.value};
        pollInterval := None;
      }
    }

    /**
     * `startPolling`: clears the previous interval, if any, runs the poll
     * callback once and schedules a fresh interval, so exactly one is live
     * afterwards. The immediate run starts a fetch when there is a trade
     * number; its reply arrives later through `PollReply`.
     */
    method StartPolling()
      requires Valid()
      modifies this
      ensures Valid()
      ensures pollInterval == Some(old(nextHandle)) && liveIntervals == {old(nextHandle)}
      ensures old(pollInterval).Some? ==> old(pollInterval).value !in liveIntervals
      ensures inFlight == old(inFlight) + (if NoTradeNo(old(state)) then 0 else 1)
      ensures nextHandle == old(nextHandle) + 1
      ensures state == old(state) && overlay == old(overlay)
      ensures challengeOpen == old(challengeOpen) && loading == old(loading)
    {
      var fetched := PollTick();
      if pollInterval.Some? {
        liveIntervals := liveIntervals - {pollInterval.value};
      }
      var handle := nextHandle;
      nextHandle := nextHandle + 1;
      liveIntervals := liveIntervals + {handle};
      pollInterval := Some(handle);
    }

    /**
     * The poll callback up to its `fetch`, run once by `startPolling` and
     * then by the interval every three seconds: without a trade number it
     * returns; otherwise it starts `GET /api/payments/:id` for the current
     * trade number and returns that number.
     */
    method PollTick() returns (fetched: Option<string>)
      requires Valid()
      modifies this
      ensures Valid()
      ensures fetched.None? <==> NoTradeNo(state)
      ensures fetched.Some? ==> fetched == state.outTradeNo
      ensures inFlight == old(inFlight) + (if fetched.Some? then 1 else 0)
      ensures state == old(state) && pollInterval == old(pollInterval) && liveIntervals == old(liveIntervals)
      ensures nextHandle == old(nextHandle) && overlay == old(overlay)
      ensures challengeOpen == old(challengeOpen) && loading == old(loading)
    {
      if NoTradeNo(state) {
        return None;
      }
      inFlight := inFlight + 1;
      return state.outTradeNo;
    }

    /**
     * The poll callback once one of its fetches answers with `reply`. The
     * trade number is not looked at again, so a reply that arrives after
     * polling stopped or after `resetForm` is applied all the same. A reply
     * that is not ok changes nothing; otherwise status and trade number are
     * taken from the body, and `PollVerdict` decides whether polling stops
     * and how the overlay ends.
     */
    method PollReply(reply: Server.Reply<Server.PaymentStatus>)
      requires Valid() && inFlight > 0
      modifies this
      ensures Valid()
      ensures inFlight == old(inFlight) - 1 && nextHandle == old(nextHandle)
      ensures !reply.Ok() ==>
                state == old(state) && pollInterval == old(pollInterval) && liveIntervals == old(liveIntervals) &&
                overlay == old(overlay) && loading == old(loading)
      ensures reply.Ok() ==>
                var v := PollVerdict(reply.body);
                state == old(state).(status := Some(reply.body.tradeStatus), tradeNo := Some(reply.body.tradeNo),
                                     errorMessage := if v.Declined? then Some(v.message) else old(state).errorMessage) &&
                (v.KeepPolling? ==> pollInterval == old(pollInterval) && liveIntervals == old(liveIntervals) &&
                                    overlay == old(overlay) && loading == old(loading)) &&
                (!v.KeepPolling? ==> pollInterval == None && liveIntervals == {} && !loading) &&
                (v.Paid? ==> overlay == ShowingSuccess(v.tradeNo)) &&
                (v.Declined? ==> overlay == ShowingError)
      ensures challengeOpen == old(challengeOpen)
    {
      inFlight := inFlight - 1;
      if !reply.Ok() {
        return;
      }
      var result := reply.body;
      state := state.(status := Some(result.tradeStatus), tradeNo := Some(result.tradeNo));

      if result.tradeStatus == Success {
        StopPolling();
        overlay := ShowingSuccess(result.tradeNo);
        loading := false;
        return;
      }

      if result.isTerminal {
        StopPolling();
        state := state.(errorMessage := Some(result.refuseDetail.GetOr(RefusedMessage)));
        overlay := ShowingError;
        loading := false;
        return;
      }
    }

    /**
     * The 120-second guard scheduled by `startPolling`. It acts only when
     * `step` is "polling_status", which the invariant rules out, so it never
     * changes anything.
     */
    method PollingTimeout()
      requires Valid()
      ensures state == old(state) && pollInterval == old(pollInterval) && liveIntervals == old(liveIntervals)
    {
      if pollInterval.Some? && state.step == PollingStatus {
        assert false;
      }
    }

    /** `show3DSChallenge`: records the challenge URL and opens the modal. */
    method Show3DSChallenge(checkUrl: string)
      requires Valid()
      modifies this
      ensures Valid()
      ensures state == old(state).(checkUrl := Some(checkUrl)) && challengeOpen
      ensures pollInterval == old(pollInterval) && liveIntervals == old(liveIntervals)
      ensures overlay == old(overlay) && loading == old(loading) && inFlight == old(inFlight)
      ensures nextHandle == old(nextHandle)
    {
      state := state.(checkUrl := Some(checkUrl));
      challengeOpen := true;
    }

    /** `hide3DSChallenge`: closes the modal and forgets the challenge URL. */
    method Hide3DSChallenge()
      requires Valid()
      modifies this
      ensures Valid()
      ensures state == old(state).(checkUrl := None) && !challengeOpen
      ensures pollInterval == old(pollInterval) && liveIntervals == old(liveIntervals)
      ensures nextHandle == old(nextHandle) && overlay == old(overlay) && loading == old(loading)
      ensures inFlight == old(inFlight)
    {
      challengeOpen := false;
      state := state.(checkUrl := None);
    }

    /**
     * `cancel3DS`: no interval remains, the challenge URL is gone, and the
     * flow ends in error with "Verificação 3DS cancelada".
     */
    method Cancel3DS()
      requires Valid()
      modifies this
      ensures Valid()
      ensures state == old(state).(checkUrl := None, errorMessage := Some(CancelledMessage))
      ensures pollInterval == None && liveIntervals == {}
      ensures !challengeOpen && overlay == ShowingError && !loading && inFlight == old(inFlight)
      ensures nextHandle == old(nextHandle)
    {
      Hide3DSChallenge();
      StopPolling();
      state := state.(errorMessage := Some(CancelledMessage));
      overlay := ShowingError;
      loading := false;
    }

    /** `handle3DSMessage`: a "3ds-complete" message closes the challenge and (re)starts polling. */
    method Handle3DSMessage(complete: bool)
      requires Valid()
      modifies this
      ensures Valid()
      ensures !complete ==> state == old(state) && pollInterval == old(pollInterval) &&
                            liveIntervals == old(liveIntervals) && challengeOpen == old(challengeOpen)
      ensures complete ==> state == old(state).(checkUrl := None) && !challengeOpen &&
                           pollInterval == Some(old(nextHandle)) && liveIntervals == {old(nextHandle)} &&
                           inFlight == old(inFlight) + (if NoTradeNo(old(state)) then 0 else 1)
      ensures !complete ==> inFlight == old(inFlight) && nextHandle == old(nextHandle)
      ensures complete ==> nextHandle == old(nextHandle) + 1
      ensures overlay == old(overlay) && loading == old(loading)
    {
      if complete {
        Hide3DSChallenge();
        StartPolling();
      }
    }

    /**
     * `resetForm`: the initial record again, no live interval, nothing
     * showing. Fetches already in flight are not cancelled.
     */
    method ResetForm()
      requires Valid()
      modifies this
      ensures Valid()
      ensures state == InitialState && pollInterval == None && liveIntervals == {}
      ensures overlay == Hidden && !challengeOpen && !loading && inFlight == old(inFlight)
      ensures nextHandle == old(nextHandle)
    {
      overlay := Hidden;
      Hide3DSChallenge();
      StopPolling();
      state := InitialState;
      loading := false;
    }

    /**
     * The start of `handleSubmit`: `validateForm` runs, and an invalid form
     * or a missing configuration stops the submission with nothing changed;
     * otherwise the button spins and the processing panel shows.
     */
    method BeginSubmit(form: FormValidation.Form, configLoaded: bool) returns (proceed: bool)
      requires Valid()
      modifies this
      ensures Valid()
      ensures proceed <==> FormValidation.FormValid(form) && configLoaded
      ensures state == old(state) && pollInterval == old(pollInterval) && liveIntervals == old(liveIntervals)
      ensures challengeOpen == old(challengeOpen) && inFlight == old(inFlight) && nextHandle == old(nextHandle)
      ensures proceed ==> loading && overlay == ShowingProcessing
      ensures !proceed ==> loading == old(loading) && overlay == old(overlay)
    {
      var formValid, errors := FormValidation.ValidateForm(form);
      if !formValid || !configLoaded {
        return false;
      }
      loading := true;
      overlay := ShowingProcessing;
      return true;
    }

    /**
     * `createOrder`'s reply from `POST /api/orders` as `handleSubmit` uses
     * it: on an error reply the route's message is kept and the flow ends in
     * error; otherwise the trade number and prepay id are recorded.
     */
    method OrderReply(reply: Server.Reply<Server.OrderCreated>) returns (created: bool)
      requires Valid()
      modifies this
      ensures Valid()
      ensures created <==> reply.Ok()
      ensures !created ==> state == old(state).(errorMessage := Some(reply.error)) &&
                           overlay == ShowingError && !loading
      ensures created ==> state == old(state).(outTradeNo := Some(reply.body.outTradeNo),
                                               prepayId := Some(reply.body.prepayId)) &&
                          overlay == old(overlay) && loading == old(loading)
      ensures pollInterval == old(pollInterval) && liveIntervals == old(liveIntervals)
      ensures challengeOpen == old(challengeOpen) && inFlight == old(inFlight) && nextHandle == old(nextHandle)
    {
      if !reply.Ok() {
        state := state.(errorMessage := Some(reply.error));
        overlay := ShowingError;
        loading := false;
        return false;
      }
      state := state.(outTradeNo := Some(reply.body.outTradeNo), prepayId := Some(reply.body.prepayId));
      return true;
    }

    /**
     * `processPaymentWithSDK` given whether the SDK client exists and what
     * its `createOrder` resolved to: success with a query starts polling; an
     * error ends the flow with the SDK's message or "Erro ao processar
     * pagamento"; success without a query changes nothing.
     */
    method SdkOutcome(sdkReady: bool, result: SdkResult)
      requires Valid()
      modifies this
      ensures Valid()
      ensures !sdkReady ==> state == old(state).(errorMessage := Some(SdkMissingMessage)) &&
                            overlay == ShowingError && !loading &&
                            pollInterval == old(pollInterval) && liveIntervals == old(liveIntervals)
      ensures sdkReady && result.status == SdkSuccess && result.query ==>
                state == old(state) && pollInterval == Some(old(nextHandle)) && liveIntervals == {old(nextHandle)} &&
                overlay == old(overlay) && loading == old(loading) &&
                inFlight == old(inFlight) + (if NoTradeNo(old(state)) then 0 else 1)
      ensures !(sdkReady && result.status == SdkSuccess && result.query) ==>
                inFlight == old(inFlight) && nextHandle == old(nextHandle)
      ensures sdkReady && result.status == SdkSuccess && result.query ==> nextHandle == old(nextHandle) + 1
      ensures sdkReady && result.status == SdkError ==>
                state == old(state).(errorMessage := Some(result.message.GetOr(PaymentFailedMessage))) &&
                overlay == ShowingError && !loading &&
                pollInterval == old(pollInterval) && liveIntervals == old(liveIntervals)
      ensures sdkReady && result.status == SdkSuccess && !result.query ==>
                state == old(state) && pollInterval == old(pollInterval) && liveIntervals == old(liveIntervals) &&
                overlay == old(overlay) && loading == old(loading)
      ensures challengeOpen == old(challengeOpen)
    {
      if !sdkReady {
        state := state.(errorMessage := Some(SdkMissingMessage));
        overlay := ShowingError;
        loading := false;
        return;
      }
      if result.status == SdkSuccess && result.query {
        StartPolling();
      } else if result.status == SdkError {
        state := state.(errorMessage := Some(result.message.GetOr(PaymentFailedMessage)));
        overlay := ShowingError;
        loading := false;
      }
    }

    /**
     * `handleSubmit` end to end: the checks, the order reply, the SDK set-up
     * (which succeeds whenever the configuration is loaded) and the SDK's
     * result. Each way out leaves the state its last step sets, and polling
     * starts exactly when every step succeeds, for the order just created.
     */
    method HandleSubmit(form: FormValidation.Form, configLoaded: bool, order: Server.Reply<Server.OrderCreated>,
                        sdkReady: bool, result: SdkResult)
      requires Valid()
      modifies this
      ensures Valid()
      ensures challengeOpen == old(challengeOpen)
      ensures !(FormValidation.FormValid(form) && configLoaded) ==>
                state == old(state) && pollInterval == old(pollInterval) && liveIntervals == old(liveIntervals) &&
                overlay == old(overlay) && loading == old(loading) && inFlight == old(inFlight)
      ensures FormValidation.FormValid(form) && configLoaded && !order.Ok() ==>
                state == old(state).(errorMessage := Some(order.error)) && overlay == ShowingError && !loading &&
                pollInterval == old(pollInterval) && liveIntervals == old(liveIntervals) && inFlight == old(inFlight)
      ensures FormValidation.FormValid(form) && configLoaded && order.Ok() ==>
                var created := old(state).(outTradeNo := Some(order.body.outTradeNo), prepayId := Some(order.body.prepayId));
                (!sdkReady ==>
                   state == created.(errorMessage := Some(SdkMissingMessage)) && overlay == ShowingError && !loading &&
                   pollInterval == old(pollInterval) && liveIntervals == old(liveIntervals) && inFlight == old(inFlight)) &&
                (sdkReady && result.status == SdkSuccess && result.query ==>
                   state == created && overlay == ShowingProcessing && loading &&
                   pollInterval == Some(old(nextHandle)) && liveIntervals == {old(nextHandle)} &&
                   inFlight == old(inFlight) + (if NoTradeNo(created) then 0 else 1)) &&
                (sdkReady && result.status == SdkError ==>
                   state == created.(errorMessage := Some(result.message.GetOr(PaymentFailedMessage))) &&
                   overlay == ShowingError && !loading &&
                   pollInterval == old(pollInterval) && liveIntervals == old(liveIntervals) && inFlight == old(inFlight)) &&
                (sdkReady && result.status == SdkSuccess && !result.query ==>
                   state == created && overlay == ShowingProcessing && loading &&
                   pollInterval == old(pollInterval) && liveIntervals == old(liveIntervals) && inFlight == old(inFlight))
      ensures pollInterval != old(pollInterval) <==>
                FormValidation.FormValid(form) && configLoaded && order.Ok() && sdkReady &&
                result.status == SdkSuccess && result.query
      ensures nextHandle == old(nextHandle) + (if pollInterval != old(pollInterval) then 1 else 0)
      ensures pollInterval != old(pollInterval) ==>
                state.outTradeNo == Some(order.body.outTradeNo) && pollInterval.Some? && liveIntervals == {pollInterval.value}
    {
      var proceed := BeginSubmit(form, configLoaded);
      if !proceed {
        return;
      }
      var created := OrderReply(order);
      if !created {
        return;
      }
      SdkOutcome(sdkReady, result);
    }
  }

  /**
   * Two status fetches in flight: the first answers SUCCESS, the user starts
   * a new payment, and the second SUCCESS still shows the success panel and
   * writes its trade into the fresh record.
   */
  method ReplyAfterReset(app: PaymentApp, paid: Server.PaymentStatus)
    requires app.Valid() && !NoTradeNo(app.state) && paid.tradeStatus == Success
    modifies app
    ensures app.Valid()
    ensures app.state == InitialState.(status := Some(Success), tradeNo := Some(paid.tradeNo))
    ensures app.overlay == ShowingSuccess(paid.tradeNo) && app.pollInterval == None
  {
    app.StartPolling();
    var second := app.PollTick();
    app.PollReply(Server.SuccessReply(paid));
    app.ResetForm();
    app.PollReply(Server.SuccessReply(paid));
  }
}
