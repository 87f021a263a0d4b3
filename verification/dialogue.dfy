/** The conversation state machine of `on_message` and `on_photo`: the
    ordered chain of (step, text) guards, the purchase dialogue
    (amount, screenshot, UTR) and the lookup dialogue. */
module Dialogue {
  import opened Types
  import opened Text
  import Ledger
  import Payments
  import Stats

  // The reply-keyboard labels the handler compares the stripped text with.
  const BACK: string := "\U{2B05}\U{FE0F} Back to Menu"
  const CONFIRM_AMOUNT: string := "\U{2705} Confirm Amount"
  const CHANGE_AMOUNT: string := "\U{270F}\U{FE0F} Change Amount"
  const CONFIRM_SS: string := "\U{2705} Confirm Screenshot"
  const REUPLOAD_SS: string := "\U{1F4E4} Re-upload Screenshot"
  const CONFIRM_UTR: string := "\U{2705} Confirm UTR"
  /** Shown on the UTR keyboard, but no guard compares the text with it. */
  const CHANGE_UTR: string := "\U{270F}\U{FE0F} Change UTR"
  const LOOKUP: string := "\U{1F50D} Vehicle Lookup"
  const BUY: string := "\U{1F4B3} Buy Credits"
  const PAYMENT_DONE: string := "\U{2705} Payment Done"
  const BALANCE: string := "\U{1F4CA} My Balance"
  const PROFILE: string := "\U{1F464} Profile"
  const HELP: string := "\U{2139}\U{FE0F} Help"
  const ADMIN_PANEL: string := "\U{2699}\U{FE0F} Admin Panel"
  const PENDING_PAYMENTS: string := "\U{1F4EC} Pending Payments"
  const STATS: string := "\U{1F4C8} Stats"
  const GENERATE_CODES: string := "\U{1F3AB} Generate Codes"
  const VIEW_CODES: string := "\U{1F4CB} View Codes"

  /** The branch of `on_message` that handles a text. */
  datatype Rule =
    | Back
    | AmountEntry | ConfirmAmount | ChangeAmount
    | ScreenshotWait | ConfirmScreenshot | Reupload
    | UtrEntry | ConfirmUtr
    | RcQuery
    | StartLookup | BuyCredits | PaymentDone
    | ShowBalance | ShowProfile | ShowHelp
    | ShowAdminPanel | ListPending | ShowStats | CodesHelp | ListCodes
    | Fallback

  /** The guards of `on_message` after the blocked check, in source order; the
      first that holds picks the branch. "Back" wins everywhere, and the four
      free-text steps take every other text. */
  function Route(step: Step, text: string, isOwner: bool): (r: Rule)
    ensures r == Back <==> text == BACK
    ensures text != BACK && step == PayAmount ==> r == AmountEntry
    ensures text != BACK && step == PaySs ==> r == ScreenshotWait
    ensures text != BACK && step == PayUtr ==> r == UtrEntry
    ensures r == RcQuery <==> text != BACK && step == AwaitRc
    ensures r == UtrEntry <==> text != BACK && step == PayUtr
    ensures r == ConfirmAmount <==> text == CONFIRM_AMOUNT && step == PayAmountConfirm
    ensures r == ChangeAmount <==> text == CHANGE_AMOUNT && step in {PayAmountConfirm, PayUtrConfirm}
    ensures r == ConfirmScreenshot <==> text == CONFIRM_SS && step == PaySsConfirm
    ensures r == Reupload <==> text == REUPLOAD_SS && step == PaySsConfirm
    ensures r == ConfirmUtr <==> text == CONFIRM_UTR && step == PayUtrConfirm
    ensures r in {ShowAdminPanel, ListPending, ShowStats, CodesHelp, ListCodes} ==> isOwner
  {
    assert CONFIRM_AMOUNT[2] != BACK[2] && CONFIRM_AMOUNT[2] != CHANGE_AMOUNT[2];
    assert CHANGE_AMOUNT[0] != BACK[0] && CONFIRM_SS[0] != BACK[0] && REUPLOAD_SS[0] != BACK[0];
    assert REUPLOAD_SS[0] != CONFIRM_SS[0] && CONFIRM_UTR[0] != BACK[0] && CONFIRM_UTR[0] != CHANGE_AMOUNT[0];
    if text == BACK then Back
    else if step == PayAmount then AmountEntry
    else if text == CONFIRM_AMOUNT && step == PayAmountConfirm then ConfirmAmount
    else if text == CHANGE_AMOUNT && (step == PayAmountConfirm || step == PayUtrConfirm) then ChangeAmount
    else if step == PaySs then ScreenshotWait
    else if text == CONFIRM_SS && step == PaySsConfirm then ConfirmScreenshot
    else if text == REUPLOAD_SS && (step == PaySs || step == PaySsConfirm) then Reupload
    else if step == PayUtr then UtrEntry
    else if text == CONFIRM_UTR && step == PayUtrConfirm then ConfirmUtr
    else if step == AwaitRc then RcQuery
    else if text == LOOKUP then StartLookup
    else if text == BUY then BuyCredits
    else if text == PAYMENT_DONE then PaymentDone
    else if text == BALANCE then ShowBalance
    else if text == PROFILE then ShowProfile
    else if text == HELP then ShowHelp
    else if text == ADMIN_PANEL && isOwner then ShowAdminPanel
    else if text == PENDING_PAYMENTS && isOwner then ListPending
    else if text == STATS && isOwner then ShowStats
    else if text == GENERATE_CODES && isOwner then CodesHelp
    else if text == VIEW_CODES && isOwner then ListCodes
    else Fallback
  }

  // ---------------------------------------------------------------------
  // Amount entry
  // ---------------------------------------------------------------------

  /** `text.lower().replace("rs", "").replace("₹", "").strip()`. */
  function AmountText(text: string): string
  {
    Strip(RemoveAll(RemoveAll(Lower(text), "rs"), "\U{20B9}"))
  }

  /** `s.replace(".", "", 1).isdigit()`: digits with at most one dot, and at least one digit. */
  predicate IsNumeral(s: string)
  {
    var d := DropFirst(s, '.');
    |d| > 0 && forall i :: 0 <= i < |d| ==> IsDigit(d[i])
  }

  /** The value of a string of decimal digits. */
  function DigitsValue(d: string): (n: nat)
    requires forall i :: 0 <= i < |d| ==> IsDigit(d[i])
  {
    if d == [] then 0
    else DigitsValue(d[..|d| - 1]) * 10 + DigitOf(d[|d| - 1])
  }

  function DigitOf(c: char): (n: nat)
    requires IsDigit(c)
    ensures n <= 9
  {
    c as int - '0' as int
  }

  /** Digits after the first dot, if any. */
  function Scale(s: string): nat
  {
    if s == [] then 0 else if s[0] == '.' then |s| - 1 else Scale(s[1..])
  }

  function Pow10(n: nat): (p: nat)
    ensures p > 0
  {
    if n == 0 then 1 else 10 * Pow10(n - 1)
  }

  /** `float(s)` for a numeral, as an exact rational. */
  function DecimalValue(s: string): real
    requires IsNumeral(s)
  {
    DigitsValue(DropFirst(s, '.')) as real / Pow10(Scale(s)) as real
  }

  /** A digit string has a positive value exactly when one of its digits is not zero. */
  lemma {:induction false} DigitsValuePositive(d: string)
    requires forall i :: 0 <= i < |d| ==> IsDigit(d[i])
    ensures DigitsValue(d) > 0 <==> exists i :: 0 <= i < |d| && d[i] != '0'
  {
    if d != [] {
      var init := d[..|d| - 1];
      DigitsValuePositive(init);
      if exists i :: 0 <= i < |init| && init[i] != '0' {
        var i :| 0 <= i < |init| && init[i] != '0';
        assert d[i] != '0';
      }
      if exists i :: 0 <= i < |d| && d[i] != '0' {
        var i :| 0 <= i < |d| && d[i] != '0';
        if i < |d| - 1 {
          assert init[i] != '0';
        }
      }
    }
  }

  lemma QuotientPositive(x: real, p: real)
    requires x >= 0.0 && p > 0.0
    ensures x / p > 0.0 <==> x > 0.0
  {
    if x > 0.0 {
      assert (x / p) * p == x;
    }
  }

  /** The three outcomes of amount entry. */
  datatype AmountCheck = NotNumeric | NotPositive | Accepted(amount: string)

  /** The amount step of `on_message`: normalise, demand a numeral, demand a value above zero. */
  function ParseAmount(text: string): AmountCheck
  {
    var a := AmountText(text);
    if !IsNumeral(a) then NotNumeric
    else if DecimalValue(a) <= 0.0 then NotPositive
    else Accepted(a)
  }

  /** An amount is accepted exactly when, after lower-casing and removing "rs" and
      "₹" and white space, it is digits with at most one dot and some digit is
      not zero; what is kept is that normalised text, whose value is above zero. */
  lemma AmountAccepted(text: string)
    ensures var a := AmountText(text);
      var d := DropFirst(a, '.');
      ParseAmount(text).Accepted? <==> IsNumeral(a) && exists i :: 0 <= i < |d| && d[i] != '0'
    ensures ParseAmount(text).Accepted? ==>
      var a := ParseAmount(text).amount;
      a == AmountText(text) && IsNumeral(a) && DecimalValue(a) > 0.0
  {
    var a := AmountText(text);
    if IsNumeral(a) {
      var d := DropFirst(a, '.');
      DigitsValuePositive(d);
      QuotientPositive(DigitsValue(d) as real, Pow10(Scale(a)) as real);
    }
  }

  // ---------------------------------------------------------------------
  // The handlers
  // ---------------------------------------------------------------------

  /** Which reply `on_message` sends; the texts and keyboards are not modelled. */
  datatype Reply =
    | BlockedNotice
    | MainMenu
    | AmountNotNumeric | AmountNotPositive | ConfirmAmountPrompt(amount: string)
    | ScreenshotPrompt | NewAmountPrompt | ScreenshotAsPhoto | UtrPrompt | ScreenshotAgainPrompt
    | InvalidUtr | ConfirmUtrPrompt(utr: string) | PaymentSubmitted(payId: string)
    | InvalidRc | NotEnoughCredits | VehicleCard(rc: string) | LookupFailed(rc: string)
    | LowCreditsForLookup | RcPrompt | BuyInfo | AmountPrompt
    | Balance(credits: int) | Profile(uid: int, credits: int, searches: int) | HelpText
    | AdminPanel | NoPendingPayments | PendingPayments(records: seq<Payment>)
    | StatsReport(report: Stats.Report)
    | GenerateCodesHelp | NoCodes | CodesOverview
    | InvalidInput

  /** `rc = text.upper().replace(" ", "")`. */
  function RcOf(text: string): string
  {
    RemoveAll(Upper(text), " ")
  }

  /** What one branch does: the user's new conversation (None: left as it
      was), whether the lookup cost is charged, the payment record appended
      (if any), and the reply. */
  datatype Outcome = Outcome(conv: Option<Conv>, charge: bool, record: Option<Payment>, reply: Reply)

  /** Only the conversation changes. */
  function Talk(c: Conv, reply: Reply): Outcome
  {
    Outcome(Some(c), false, None, reply)
  }

  /** Nothing changes. */
  function Say(reply: Reply): Outcome
  {
    Outcome(None, false, None, reply)
  }

  /** The branch `rule` for user `uid` (already created, not blocked, entry
      `u`) whose conversation is `conv`; `w` is only read, by the admin's
      listings. */
  ghost function Respond(w: World, uid: int, u: User, conv: Conv, text: string, rule: Rule,
                         payId: string, now: int, fetchOk: bool): (o: Outcome)
    ensures o.reply != BlockedNotice
    ensures o.record.Some? <==> rule == ConfirmUtr
    ensures o.record.Some? ==> o.record.value == Payments.NewPayment(payId, uid, conv, now)
    ensures o.charge <==> rule == RcQuery && RcOf(text) != "" && u.credits >= CREDITS_PER_SEARCH && fetchOk
    ensures o.reply.PaymentSubmitted? <==> rule == ConfirmUtr
    ensures o.reply.VehicleCard? <==> o.charge
  {
    match rule
    case Back => Talk(Cleared, MainMenu)
    case AmountEntry =>
      (match ParseAmount(text)
       case NotNumeric => Say(AmountNotNumeric)
       case NotPositive => Say(AmountNotPositive)
       case Accepted(a) => Talk(conv.(amount := Some(a), step := PayAmountConfirm), ConfirmAmountPrompt(a)))
    case ConfirmAmount => Talk(conv.(step := PaySs), ScreenshotPrompt)
    case ChangeAmount => Talk(conv.(step := PayAmount), NewAmountPrompt)
    case ScreenshotWait => Say(ScreenshotAsPhoto)
    case ConfirmScreenshot => Talk(conv.(step := PayUtr), UtrPrompt)
    case Reupload => Talk(conv.(step := PaySs, ssFileId := None), ScreenshotAgainPrompt)
    case UtrEntry =>
      if text == "" || |text| < 4 then Say(InvalidUtr)
      else Talk(conv.(utr := Some(text), step := PayUtrConfirm), ConfirmUtrPrompt(text))
    case ConfirmUtr =>
      Outcome(Some(Cleared), false, Some(Payments.NewPayment(payId, uid, conv, now)), PaymentSubmitted(payId))
    case RcQuery =>
      var rc := RcOf(text);
      if rc == "" then Say(InvalidRc)
      else if u.credits < CREDITS_PER_SEARCH then Talk(Cleared, NotEnoughCredits)
      else if fetchOk then Outcome(Some(Cleared), true, None, VehicleCard(rc))
      else Talk(Cleared, LookupFailed(rc))
    case StartLookup =>
      if u.credits < CREDITS_PER_SEARCH then Say(LowCreditsForLookup)
      else Talk(Conv(AwaitRc, None, None, None), RcPrompt)
    case BuyCredits => Talk(Cleared, BuyInfo)
    case PaymentDone => Talk(Conv(PayAmount, None, None, None), AmountPrompt)
    case ShowBalance => Say(Balance(u.credits))
    case ShowProfile => Say(Profile(uid, u.credits, u.searches))
    case ShowHelp => Say(HelpText)
    case ShowAdminPanel => Say(AdminPanel)
    case ListPending =>
      if Payments.FilterPending(w.payments) == [] then Say(NoPendingPayments)
      else Say(PendingPayments(Payments.PendingList(w.payments)))
    case ShowStats => Say(StatsReport(Stats.StatsOf(w)))
    case CodesHelp => Say(GenerateCodesHelp)
    case ListCodes => if w.codes == map[] then Say(NoCodes) else Say(CodesOverview)
    case Fallback => Say(InvalidInput)
  }

  /** Carry out an outcome for `uid`. */
  function Apply(w: World, uid: int, o: Outcome): World
    requires uid in w.users
  {
    World(
      if o.charge then Ledger.Charge(w.users, uid) else w.users,
      if o.record.Some? then w.payments + [o.record.value] else w.payments,
      w.codes,
      if o.conv.Some? then w.dialogs[uid := o.conv.value] else w.dialogs)
  }

  /** Carrying out an outcome for `uid` touches no code, adds no user and
      changes neither another user nor another conversation. */
  lemma ApplyLocal(w: World, uid: int, o: Outcome, other: int)
    requires uid in w.users && other != uid
    ensures var r := Apply(w, uid, o);
      && r.codes == w.codes
      && r.users.Keys == w.users.Keys
      && (other in w.users ==> r.users[other] == w.users[other])
      && ConvOf(r, other) == ConvOf(w, other)
  {
  }

  /** Carrying out an outcome appends at most one payment record. */
  lemma ApplyAppendsOnly(w: World, uid: int, o: Outcome)
    requires uid in w.users
    ensures var ps := Apply(w, uid, o).payments;
      && |w.payments| <= |ps| <= |w.payments| + 1
      && ps[..|w.payments|] == w.payments
  {
  }

  /** `on_message` for user `uid` sending `raw`. `payId` and `now` stand for
      `new_payment_id()` and `time.time()`, `fetchOk` for whether
      `fetch_vehicle` would succeed; each is used only on the branch that
      calls it. */
  ghost function OnMessage(w: World, uid: int, raw: string, payId: string, now: int, fetchOk: bool): Effect<Reply>
  {
    var w1 := w.(users := Ledger.Touch(w.users, uid));
    var u := w1.users[uid];
    if u.blocked then Effect(w1, BlockedNotice)
    else
      var text := Strip(raw);
      var conv := ConvOf(w, uid);
      var o := Respond(w1, uid, u, conv, text, Route(conv.step, text, uid == OWNER_ID), payId, now, fetchOk);
      Effect(Apply(w1, uid, o), o.reply)
  }

  /** Which reply `on_photo` sends. */
  datatype PhotoReply = PhotoIgnored | ScreenshotReceived

  /** `on_photo`: a photo is taken only in the two screenshot steps, where it
      becomes the screenshot and the step moves to its confirmation. The
      blocked flag is not consulted and no user is created. */
  function OnPhoto(w: World, uid: int, fileId: string): (r: Effect<PhotoReply>)
    ensures r.world.users == w.users && r.world.payments == w.payments && r.world.codes == w.codes
    ensures r.reply == ScreenshotReceived <==> ConvOf(w, uid).step in {PaySs, PaySsConfirm}
    ensures r.reply == PhotoIgnored ==> r.world == w
    ensures r.reply == ScreenshotReceived ==>
      r.world == w.(dialogs := w.dialogs[uid := ConvOf(w, uid).(step := PaySsConfirm, ssFileId := Some(fileId))])
  {
    var conv := ConvOf(w, uid);
    if conv.step == PaySs || conv.step == PaySsConfirm then
      Effect(w.(dialogs := w.dialogs[uid := conv.(ssFileId := Some(fileId), step := PaySsConfirm)]), ScreenshotReceived)
    else Effect(w, PhotoIgnored)
  }

  /** What `/start` answers. */
  datatype StartReply = StartBlocked | Welcome

  /** `/start`: the caller is created if unknown; a blocked caller is told so
      and nothing else changes, anyone else starts over with a cleared
      conversation. */
  function Start(w: World, uid: int): (r: Effect<StartReply>)
    ensures r.world.users == Ledger.Touch(w.users, uid)
    ensures r.world.payments == w.payments && r.world.codes == w.codes
    ensures r.reply == StartBlocked <==> uid in w.users && w.users[uid].blocked
    ensures r.reply == StartBlocked ==> r.world.dialogs == w.dialogs
    ensures r.reply == Welcome ==> ConvOf(r.world, uid) == Cleared
    ensures forall v :: v != uid ==> ConvOf(r.world, v) == ConvOf(w, v)
  {
    var w1 := w.(users := Ledger.Touch(w.users, uid));
    if w1.users[uid].blocked then Effect(w1, StartBlocked)
    else Effect(w1.(dialogs := w1.dialogs[uid := Cleared]), Welcome)
  }

  // ---------------------------------------------------------------------
  // Properties of the handlers
  // ---------------------------------------------------------------------

  /** What each step guarantees to have been collected: an amount from the
      amount confirmation on, a screenshot from its confirmation on, and a
      UTR at the UTR confirmation. */
  predicate ConvOk(c: Conv)
  {
    && (c.step in {PayAmountConfirm, PaySs, PaySsConfirm, PayUtr, PayUtrConfirm} ==> c.amount.Some?)
    && (c.step in {PaySsConfirm, PayUtr, PayUtrConfirm} ==> c.ssFileId.Some?)
    && (c.step == PayUtrConfirm ==> c.utr.Some?)
  }

  ghost predicate DialogsOk(w: World)
  {
    forall uid :: uid in w.dialogs ==> ConvOk(w.dialogs[uid])
  }

  /** Carrying out an outcome whose new conversation is consistent keeps
      every conversation consistent. */
  lemma ApplyKeepsDialogsOk(w: World, uid: int, o: Outcome)
    requires uid in w.users && DialogsOk(w)
    requires o.conv.Some? ==> ConvOk(o.conv.value)
    ensures DialogsOk(Apply(w, uid, o))
  {
  }

  /** The touched state and the outcome of the branch a non-blocked user's text takes. */
  lemma OnMessageByRule(w: World, uid: int, raw: string, payId: string, now: int, fetchOk: bool, rule: Rule)
    requires uid !in w.users || !w.users[uid].blocked
    requires Route(ConvOf(w, uid).step, Strip(raw), uid == OWNER_ID) == rule
    ensures var w1 := w.(users := Ledger.Touch(w.users, uid));
      var o := Respond(w1, uid, w1.users[uid], ConvOf(w, uid), Strip(raw), rule, payId, now, fetchOk);
      OnMessage(w, uid, raw, payId, now, fetchOk) == Effect(Apply(w1, uid, o), o.reply)
  {
  }

  /** A blocked user is answered with the notice and nothing changes; an unknown
      user is never blocked. */
  lemma BlockedUserUnchanged(w: World, uid: int, raw: string, payId: string, now: int, fetchOk: bool)
    ensures var r := OnMessage(w, uid, raw, payId, now, fetchOk);
      (r.reply == BlockedNotice <==> uid in w.users && w.users[uid].blocked)
      && (r.reply == BlockedNotice ==> r.world == w)
  {
  }

  /** "Back to Menu" clears the conversation from every step and changes nothing else. */
  lemma BackClears(w: World, uid: int, raw: string, payId: string, now: int, fetchOk: bool)
    requires Strip(raw) == BACK
    requires uid !in w.users || !w.users[uid].blocked
    ensures var r := OnMessage(w, uid, raw, payId, now, fetchOk);
      && r.reply == MainMenu
      && r.world == w.(users := Ledger.Touch(w.users, uid), dialogs := w.dialogs[uid := Cleared])
  {
    OnMessageByRule(w, uid, raw, payId, now, fetchOk, Back);
  }

  /** While a screenshot is awaited, every text but "Back" (the re-upload
      button included, since its guard comes later) only re-prompts. */
  lemma ScreenshotStepIgnoresText(w: World, uid: int, raw: string, payId: string, now: int, fetchOk: bool)
    requires ConvOf(w, uid).step == PaySs
    requires Strip(raw) != BACK
    requires uid !in w.users || !w.users[uid].blocked
    ensures var r := OnMessage(w, uid, raw, payId, now, fetchOk);
      r.reply == ScreenshotAsPhoto && r.world == w.(users := Ledger.Touch(w.users, uid))
  {
    OnMessageByRule(w, uid, raw, payId, now, fetchOk, ScreenshotWait);
  }

  /** "Change Amount" at the UTR confirmation returns to amount entry but keeps
      the screenshot and UTR already collected. */
  lemma ChangeAmountKeepsSubmission(w: World, uid: int, raw: string, payId: string, now: int, fetchOk: bool)
    requires ConvOf(w, uid).step == PayUtrConfirm
    requires Strip(raw) == CHANGE_AMOUNT
    requires uid !in w.users || !w.users[uid].blocked
    ensures var r := OnMessage(w, uid, raw, payId, now, fetchOk);
      && r.reply == NewAmountPrompt
      && ConvOf(r.world, uid) == ConvOf(w, uid).(step := PayAmount)
  {
    assert CHANGE_AMOUNT[0] != BACK[0];
    OnMessageByRule(w, uid, raw, payId, now, fetchOk, ChangeAmount);
  }

  /** No guard matches the "Change UTR" label at the UTR confirmation. */
  lemma ChangeUtrUnrouted(isOwner: bool)
    ensures Route(PayUtrConfirm, CHANGE_UTR, isOwner) == Fallback
  {
    assert CHANGE_UTR[10] != CHANGE_AMOUNT[10];
  }

  /** "Change UTR" has no handler: at the UTR confirmation it falls through to
      the invalid-input reply and the step stays where it was. */
  lemma ChangeUtrFallsThrough(w: World, uid: int, raw: string, payId: string, now: int, fetchOk: bool)
    requires ConvOf(w, uid).step == PayUtrConfirm
    requires Strip(raw) == CHANGE_UTR
    requires uid !in w.users || !w.users[uid].blocked
    ensures var r := OnMessage(w, uid, raw, payId, now, fetchOk);
      r.reply == InvalidInput && r.world == w.(users := Ledger.Touch(w.users, uid))
  {
    ChangeUtrUnrouted(uid == OWNER_ID);
    OnMessageByRule(w, uid, raw, payId, now, fetchOk, Fallback);
  }

  /** At UTR entry a text shorter than four characters is refused and nothing
      but the user's creation happens; a longer one is kept as the UTR. */
  lemma UtrEntryChecksLength(w: World, uid: int, raw: string, payId: string, now: int, fetchOk: bool)
    requires ConvOf(w, uid).step == PayUtr
    requires Strip(raw) != BACK
    requires uid !in w.users || !w.users[uid].blocked
    ensures var r := OnMessage(w, uid, raw, payId, now, fetchOk);
      && (|Strip(raw)| < 4 ==> r.reply == InvalidUtr && r.world == w.(users := Ledger.Touch(w.users, uid)))
      && (|Strip(raw)| >= 4 ==>
            r.reply == ConfirmUtrPrompt(Strip(raw))
            && ConvOf(r.world, uid) == ConvOf(w, uid).(utr := Some(Strip(raw)), step := PayUtrConfirm))
  {
    OnMessageByRule(w, uid, raw, payId, now, fetchOk, UtrEntry);
  }

  /** Confirming the UTR appends exactly one pending record carrying what the
      conversation collected, and clears the conversation. */
  lemma ConfirmUtrAppendsOnePending(w: World, uid: int, raw: string, payId: string, now: int, fetchOk: bool)
    requires ConvOf(w, uid).step == PayUtrConfirm
    requires Strip(raw) == CONFIRM_UTR
    requires uid !in w.users || !w.users[uid].blocked
    ensures var r := OnMessage(w, uid, raw, payId, now, fetchOk);
      && r.reply == PaymentSubmitted(payId)
      && r.world.payments == w.payments + [Payments.NewPayment(payId, uid, ConvOf(w, uid), now)]
      && ConvOf(r.world, uid) == Cleared
      && r.world.users == Ledger.Touch(w.users, uid)
      && r.world.codes == w.codes
  {
    assert CONFIRM_UTR[0] != BACK[0] && CONFIRM_UTR[0] != CHANGE_AMOUNT[0];
    OnMessageByRule(w, uid, raw, payId, now, fetchOk, ConfirmUtr);
  }

  /** Conversely, a payment record is appended only by the "Confirm UTR"
      button, pressed at the UTR confirmation by a user who is not blocked. */
  lemma AppendOnlyOnConfirmUtr(w: World, uid: int, raw: string, payId: string, now: int, fetchOk: bool)
    requires |OnMessage(w, uid, raw, payId, now, fetchOk).world.payments| > |w.payments|
    ensures uid !in w.users || !w.users[uid].blocked
    ensures Strip(raw) == CONFIRM_UTR && ConvOf(w, uid).step == PayUtrConfirm
  {
    var w1 := w.(users := Ledger.Touch(w.users, uid));
    if !w1.users[uid].blocked {
      var text, conv := Strip(raw), ConvOf(w, uid);
      var rule := Route(conv.step, text, uid == OWNER_ID);
      OnMessageByRule(w, uid, raw, payId, now, fetchOk, rule);
      assert rule == ConfirmUtr;
    }
  }

  /** The message handler touches only its own user and conversation and never the codes. */
  lemma OnMessageLocal(w: World, uid: int, raw: string, payId: string, now: int, fetchOk: bool, other: int)
    requires other != uid
    ensures var r := OnMessage(w, uid, raw, payId, now, fetchOk);
      && r.world.codes == w.codes
      && r.world.users.Keys == w.users.Keys + {uid}
      && (other in w.users ==> r.world.users[other] == w.users[other])
      && ConvOf(r.world, other) == ConvOf(w, other)
  {
    var w1 := w.(users := Ledger.Touch(w.users, uid));
    if !w1.users[uid].blocked {
      var text, conv := Strip(raw), ConvOf(w, uid);
      var rule := Route(conv.step, text, uid == OWNER_ID);
      OnMessageByRule(w, uid, raw, payId, now, fetchOk, rule);
      ApplyLocal(w1, uid, Respond(w1, uid, w1.users[uid], conv, text, rule, payId, now, fetchOk), other);
    }
  }

  /** The message handler only ever appends to the payments, at most one record. */
  lemma OnMessageAppendsOnly(w: World, uid: int, raw: string, payId: string, now: int, fetchOk: bool)
    ensures var ps := OnMessage(w, uid, raw, payId, now, fetchOk).world.payments;
      && |w.payments| <= |ps| <= |w.payments| + 1
      && ps[..|w.payments|] == w.payments
  {
    var w1 := w.(users := Ledger.Touch(w.users, uid));
    if !w1.users[uid].blocked {
      var text, conv := Strip(raw), ConvOf(w, uid);
      var rule := Route(conv.step, text, uid == OWNER_ID);
      OnMessageByRule(w, uid, raw, payId, now, fetchOk, rule);
      ApplyAppendsOnly(w1, uid, Respond(w1, uid, w1.users[uid], conv, text, rule, payId, now, fetchOk));
    }
  }

  /** Credits leave a balance only through a successful lookup: the user is
      charged exactly the search cost, had at least that much, and was waiting
      for an RC number; every other message leaves the balances as `get_user`
      left them. */
  lemma LookupChargesOnlyOnSuccess(w: World, uid: int, raw: string, payId: string, now: int, fetchOk: bool)
    ensures var r := OnMessage(w, uid, raw, payId, now, fetchOk);
      var touched := Ledger.Touch(w.users, uid);
      && (!r.reply.VehicleCard? ==> r.world.users == touched)
      && (r.reply.VehicleCard? <==>
            && !touched[uid].blocked && fetchOk
            && ConvOf(w, uid).step == AwaitRc && Strip(raw) != BACK
            && RcOf(Strip(raw)) != "" && touched[uid].credits >= CREDITS_PER_SEARCH)
      && (r.reply.VehicleCard? ==> r.world.users == Ledger.Charge(touched, uid))
  {
  }

  /** Outside the four free-text steps the lookup button always starts a lookup. */
  lemma LookupRouted(step: Step, isOwner: bool)
    requires step !in {PayAmount, PaySs, PayUtr, AwaitRc}
    ensures Route(step, LOOKUP, isOwner) == StartLookup
  {
    assert LOOKUP[0] != BACK[0] && LOOKUP[0] != CONFIRM_AMOUNT[0] && LOOKUP[0] != CHANGE_AMOUNT[0];
    assert LOOKUP[0] != CONFIRM_SS[0] && LOOKUP[0] != REUPLOAD_SS[0] && LOOKUP[0] != CONFIRM_UTR[0];
  }

  /** Outside the four free-text steps the two payment buttons are always honoured. */
  lemma PaymentButtonsOutsideTextSteps(step: Step, isOwner: bool)
    requires step !in {PayAmount, PaySs, PayUtr, AwaitRc}
    ensures Route(step, BUY, isOwner) == BuyCredits
    ensures Route(step, PAYMENT_DONE, isOwner) == PaymentDone
  {
    assert PAYMENT_DONE[2] != CONFIRM_AMOUNT[2] && PAYMENT_DONE[2] != CONFIRM_SS[2] && PAYMENT_DONE[2] != CONFIRM_UTR[2];
  }

  /** Outside the four free-text steps the balance, profile and help buttons
      are always honoured. */
  lemma InfoButtonsOutsideTextSteps(step: Step, isOwner: bool)
    requires step !in {PayAmount, PaySs, PayUtr, AwaitRc}
    ensures Route(step, BALANCE, isOwner) == ShowBalance
    ensures Route(step, PROFILE, isOwner) == ShowProfile
    ensures Route(step, HELP, isOwner) == ShowHelp
  {
  }

  /** The lookup button never opens a lookup for a user who cannot pay for it. */
  lemma LookupButtonNeedsCredits(w: World, uid: int, raw: string, payId: string, now: int, fetchOk: bool)
    requires ConvOf(w, uid).step !in {PayAmount, PaySs, PayUtr, AwaitRc}
    requires Strip(raw) == LOOKUP
    requires uid !in w.users || !w.users[uid].blocked
    ensures var r := OnMessage(w, uid, raw, payId, now, fetchOk);
      var credits := Ledger.Touch(w.users, uid)[uid].credits;
      && (credits < CREDITS_PER_SEARCH ==> r.reply == LowCreditsForLookup && ConvOf(r.world, uid) == ConvOf(w, uid))
      && (credits >= CREDITS_PER_SEARCH ==> r.reply == RcPrompt && ConvOf(r.world, uid) == Conv(AwaitRc, None, None, None))
  {
    LookupRouted(ConvOf(w, uid).step, uid == OWNER_ID);
    OnMessageByRule(w, uid, raw, payId, now, fetchOk, StartLookup);
  }

  /** No message makes a balance negative that was not already. */
  lemma OnMessageKeepsNonNegative(w: World, uid: int, raw: string, payId: string, now: int, fetchOk: bool)
    requires Ledger.NonNegative(w.users)
    ensures Ledger.NonNegative(OnMessage(w, uid, raw, payId, now, fetchOk).world.users)
  {
    var touched := Ledger.Touch(w.users, uid);
    LookupChargesOnlyOnSuccess(w, uid, raw, payId, now, fetchOk);
    if OnMessage(w, uid, raw, payId, now, fetchOk).reply.VehicleCard? {
      Ledger.ChargeKeepsNonNegative(touched, uid);
    }
  }

  /** Each branch leaves a conversation consistent with its step. */
  lemma RespondKeepsConvOk(w: World, uid: int, u: User, conv: Conv, text: string, rule: Rule,
                           payId: string, now: int, fetchOk: bool)
    requires rule == Route(conv.step, text, uid == OWNER_ID)
    requires ConvOk(conv)
    ensures var o := Respond(w, uid, u, conv, text, rule, payId, now, fetchOk);
      o.conv.Some? ==> ConvOk(o.conv.value)
  {
    match rule
    case AmountEntry =>
    case ConfirmAmount => assert conv.step == PayAmountConfirm;
    case ConfirmScreenshot => assert conv.step == PaySsConfirm;
    case Reupload => assert conv.step == PaySsConfirm;
    case UtrEntry => assert conv.step == PayUtr;
    case _ =>
  }

  /** The message handler keeps every conversation consistent with its step. */
  lemma OnMessageKeepsDialogsOk(w: World, uid: int, raw: string, payId: string, now: int, fetchOk: bool)
    requires DialogsOk(w)
    ensures DialogsOk(OnMessage(w, uid, raw, payId, now, fetchOk).world)
  {
    var w1 := w.(users := Ledger.Touch(w.users, uid));
    var u := w1.users[uid];
    if !u.blocked {
      var conv := ConvOf(w, uid);
      var text := Strip(raw);
      var rule := Route(conv.step, text, uid == OWNER_ID);
      assert ConvOk(conv);
      OnMessageByRule(w, uid, raw, payId, now, fetchOk, rule);
      RespondKeepsConvOk(w1, uid, u, conv, text, rule, payId, now, fetchOk);
      ApplyKeepsDialogsOk(w1, uid, Respond(w1, uid, u, conv, text, rule, payId, now, fetchOk));
    }
  }

  /** So does the photo handler. */
  lemma OnPhotoKeepsDialogsOk(w: World, uid: int, fileId: string)
    requires DialogsOk(w)
    ensures DialogsOk(OnPhoto(w, uid, fileId).world)
  {
    assert ConvOk(ConvOf(w, uid));
  }

  /** So does `/start`. */
  lemma StartKeepsDialogsOk(w: World, uid: int)
    requires DialogsOk(w)
    ensures DialogsOk(Start(w, uid).world)
  {
  }

  /** In a consistent state, a record submitted through the dialogue carries an
      amount, a UTR and a screenshot. */
  lemma SubmittedRecordComplete(w: World, uid: int, raw: string, payId: string, now: int, fetchOk: bool)
    requires DialogsOk(w)
    requires OnMessage(w, uid, raw, payId, now, fetchOk).reply.PaymentSubmitted?
    ensures var ps := OnMessage(w, uid, raw, payId, now, fetchOk).world.payments;
      && |ps| == |w.payments| + 1
      && ps[|w.payments|].amount.Some? && ps[|w.payments|].utr.Some? && ps[|w.payments|].screenshot.Some?
  {
    var w1 := w.(users := Ledger.Touch(w.users, uid));
    var conv := ConvOf(w, uid);
    var rule := Route(conv.step, Strip(raw), uid == OWNER_ID);
    OnMessageByRule(w, uid, raw, payId, now, fetchOk, rule);
    assert rule == ConfirmUtr;
    assert ConvOk(conv);
  }
}
