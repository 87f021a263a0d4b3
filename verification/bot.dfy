/** The bot's in-memory state — the `users`, `payments` and `codes`
    collections and each user's conversation data — and the handlers that
    update it in place. Each handler is proved to leave the state, and to
    send the reply, that the matching function of Ledger, Payments, Codes
    or Dialogue describes. */
module Bot {
  import opened Types
  import opened Text
  import Ledger
  import Payments
  import Codes
  import Stats
  import Dialogue

  class Bot {
    var users: map<int, User>
    var payments: seq<Payment>
    var codes: map<string, Code>
    var dialogs: map<int, Conv>

    /** The state as one value. */
    function Snapshot(): World
      reads this
    {
      World(users, payments, codes, dialogs)
    }

    /** Start from the loaded collections; no conversation is in progress. */
    constructor (users0: map<int, User>, payments0: seq<Payment>, codes0: map<string, Code>)
      ensures Snapshot() == World(users0, payments0, codes0, map[])
    {
      users, payments, codes, dialogs := users0, payments0, codes0, map[];
    }

    /** `get_user`: create the entry on first contact and return it. */
    method GetUser(uid: int) returns (u: User)
      modifies this
      ensures users == Ledger.Touch(old(users), uid) && u == users[uid]
      ensures payments == old(payments) && codes == old(codes) && dialogs == old(dialogs)
    {
      if uid !in users {
        users := users[uid := NewUser];
      }
      u := users[uid];
    }

    /** `/start`: create the user, refuse a blocked one, clear the conversation. */
    method CmdStart(uid: int) returns (reply: Dialogue.StartReply)
      modifies this
      ensures Effect(Snapshot(), reply) == Dialogue.Start(old(Snapshot()), uid)
    {
      var u := GetUser(uid);
      if u.blocked {
        return Dialogue.StartBlocked;
      }
      dialogs := dialogs[uid := Cleared];
      reply := Dialogue.Welcome;
    }

    /** `/add <user_id> <credits>`. */
    method CmdAdd(caller: int, target: Option<int>, amount: Option<int>)
      modifies this
      ensures Snapshot() == Ledger.Add(old(Snapshot()), caller, target, amount)
    {
      if caller != OWNER_ID || target.None? || amount.None? {
        return;
      }
      var u := GetUser(target.value);
      users := users[target.value := u.(credits := u.credits + amount.value)];
    }

    /** `/block <user_id>`. */
    method CmdBlock(caller: int, target: Option<int>)
      modifies this
      ensures Snapshot() == Ledger.SetBlocked(old(Snapshot()), caller, target, true)
    {
      SetFlag(caller, target, true);
    }

    /** `/unblock <user_id>`. */
    method CmdUnblock(caller: int, target: Option<int>)
      modifies this
      ensures Snapshot() == Ledger.SetBlocked(old(Snapshot()), caller, target, false)
    {
      SetFlag(caller, target, false);
    }

    method SetFlag(caller: int, target: Option<int>, flag: bool)
      modifies this
      ensures Snapshot() == Ledger.SetBlocked(old(Snapshot()), caller, target, flag)
    {
      if caller != OWNER_ID || target.None? {
        return;
      }
      var u := GetUser(target.value);
      users := users[target.value := u.(blocked := flag)];
    }

    /** `/approve <payment_id> <credits>`: search the queue in order, then
        credit the user and mark the record. */
    method CmdApprove(caller: int, payId: Option<string>, credits: Option<int>, now: int)
      returns (reply: Payments.ApproveReply)
      modifies this
      ensures Effect(Snapshot(), reply) == Payments.Approve(old(Snapshot()), caller, payId, credits, now)
    {
      if caller != OWNER_ID {
        return Payments.ApproveIgnored;
      }
      if payId.None? || credits.None? {
        return Payments.ApproveUsage;
      }
      var found := Payments.FindPayment(payments, payId.value);
      if found.None? {
        return Payments.PaymentNotFound;
      }
      var k := found.value;
      var p := payments[k];
      if p.status != Pending {
        return Payments.AlreadyProcessed;
      }
      var u := GetUser(p.userId);
      users := Ledger.Credit(users, p.userId, credits.value);
      payments := payments[k := p.(status := Approved, approvedCredits := Some(credits.value), approvedTs := Some(now))];
      reply := Payments.PaymentApproved(p.userId, credits.value);
    }

    /** `/gen <count> <credits>`: for each code wanted, draw candidates until
        one is not taken. `draws` is the supply of random draws; the batch is
        committed once all of it has been drawn. */
    method CmdGen(caller: int, count: Option<int>, credits: Option<int>, now: int, draws: seq<seq<char>>)
      returns (reply: Codes.GenReply)
      requires forall i :: 0 <= i < |draws| ==> Codes.IsDraw(draws[i])
      modifies this
      ensures Effect(Snapshot(), reply) == Codes.Gen(old(Snapshot()), caller, count, credits, now, draws)
    {
      if caller != OWNER_ID {
        return Codes.GenIgnored;
      }
      if count.None? || credits.None? {
        return Codes.GenUsage;
      }
      if count.value <= 0 || credits.value <= 0 {
        return Codes.GenNotPositive;
      }
      if count.value > MAX_CODES_PER_BATCH {
        return Codes.GenTooMany;
      }
      var batch := DrawBatch(codes.Keys, draws, count.value);
      if batch.None? {
        return Codes.GenExhausted;
      }
      codes := codes + Codes.NewCodes(batch.value, credits.value, caller, now);
      reply := Codes.Generated(batch.value);
    }

    /** The drawing loop of `/gen`: for each code wanted, draw candidates
        until one is neither in `taken` nor already made; None when the
        supply of draws runs out first. */
    static method DrawBatch(taken: set<string>, draws: seq<seq<char>>, count: nat) returns (r: Option<seq<string>>)
      requires forall i :: 0 <= i < |draws| ==> Codes.IsDraw(draws[i])
      ensures r == Codes.DrawTokens(taken, draws, count)
    {
      ghost var target := Codes.DrawTokens(taken, draws, count);
      var made: seq<string> := [];
      var seen := taken;
      var next := 0;
      assert draws[next..] == draws;
      assert Codes.Then(made, target) == target by {
        if target.Some? {
          assert made + target.value == target.value;
        }
      }
      while |made| < count
        invariant 0 <= next <= |draws| && |made| <= count
        invariant Codes.Then(made, Codes.DrawTokens(seen, draws[next..], count - |made|)) == target
        decreases count - |made|
      {
        if next == |draws| {
          return None;
        }
        var code := Codes.GenerateCode(draws[next]);
        next := next + 1;
        while code in seen
          invariant 0 < next <= |draws|
          invariant code == Codes.GenerateCode(draws[next - 1])
          invariant Codes.Then(made, Codes.DrawTokens(seen, draws[next - 1..], count - |made|)) == target
          decreases |draws| - next
        {
          assert draws[next - 1..][1..] == draws[next..];
          if next == |draws| {
            return None;
          }
          code := Codes.GenerateCode(draws[next]);
          next := next + 1;
        }
        assert draws[next - 1..][1..] == draws[next..];
        ThenAppend(made, code, Codes.DrawTokens(seen + {code}, draws[next..], count - |made| - 1));
        made := made + [code];
        seen := seen + {code};
      }
      assert target == Some(made) by {
        assert made + [] == made;
      }
      return Some(made);
    }

    /** Keeping one more token moves it from the rest of the batch to what was made. */
    static lemma ThenAppend(made: seq<string>, t: string, rest: Option<seq<string>>)
      ensures Codes.Then(made, Codes.Then([t], rest)) == Codes.Then(made + [t], rest)
    {
      if rest.Some? {
        assert made + ([t] + rest.value) == (made + [t]) + rest.value;
      }
    }

    /** `/redeem <code>`. */
    method CmdRedeem(uid: int, arg: Option<string>, now: int) returns (reply: Codes.RedeemReply)
      modifies this
      ensures Effect(Snapshot(), reply) == Codes.Redeem(old(Snapshot()), uid, arg, now)
    {
      ghost var w := Snapshot();
      var u := GetUser(uid);
      ghost var w1 := Snapshot();
      if u.blocked {
        assert Codes.Redeem(w, uid, arg, now) == Effect(w1, Codes.RedeemBlocked);
        return Codes.RedeemBlocked;
      }
      if arg.None? {
        assert Codes.Redeem(w, uid, arg, now) == Effect(w1, Codes.RedeemUsage);
        return Codes.RedeemUsage;
      }
      var code := Codes.Normalize(arg.value);
      if !Codes.FormatOk(code) {
        assert Codes.Redeem(w, uid, arg, now) == Effect(w1, Codes.BadFormat);
        return Codes.BadFormat;
      }
      if code !in codes {
        assert Codes.Redeem(w, uid, arg, now) == Effect(w1, Codes.UnknownCode);
        return Codes.UnknownCode;
      }
      var c := codes[code];
      if c.redeemed {
        assert Codes.Redeem(w, uid, arg, now) == Effect(w1, Codes.AlreadyRedeemed);
        return Codes.AlreadyRedeemed;
      }
      users := Ledger.Credit(users, uid, c.credits);
      codes := codes[code := c.(redeemed := true, redeemedBy := Some(uid), redeemedTs := Some(now))];
      reply := Codes.Redeemed(code, c.credits);
      assert Codes.Redeem(w, uid, arg, now) == Effect(Snapshot(), reply);
    }

    /** `on_message`: create the user, refuse a blocked one, then take the
        first branch whose guard holds. */
    method OnMessage(uid: int, raw: string, payId: string, now: int, fetchOk: bool) returns (reply: Dialogue.Reply)
      modifies this
      ensures Effect(Snapshot(), reply) == Dialogue.OnMessage(old(Snapshot()), uid, raw, payId, now, fetchOk)
    {
      var conv := if uid in dialogs then dialogs[uid] else Cleared;
      var u := GetUser(uid);
      if u.blocked {
        return Dialogue.BlockedNotice;
      }
      var text := Strip(raw);
      var rule := Dialogue.Route(conv.step, text, uid == OWNER_ID);
      reply := Dispatch(uid, u, conv, text, rule, payId, now, fetchOk);
    }

    /** The body of the branch `rule` picked. */
    method Dispatch(uid: int, u: User, conv: Conv, text: string, rule: Dialogue.Rule,
                    payId: string, now: int, fetchOk: bool) returns (reply: Dialogue.Reply)
      requires uid in users
      modifies this
      ensures var o := Dialogue.Respond(old(Snapshot()), uid, u, conv, text, rule, payId, now, fetchOk);
        Snapshot() == Dialogue.Apply(old(Snapshot()), uid, o) && reply == o.reply
    {
      match rule
      case Back =>
        dialogs := dialogs[uid := Cleared];
        reply := Dialogue.MainMenu;
      case AmountEntry =>
        reply := AmountStep(uid, conv, text);
      case ConfirmAmount =>
        dialogs := dialogs[uid := conv.(step := PaySs)];
        reply := Dialogue.ScreenshotPrompt;
      case ChangeAmount =>
        dialogs := dialogs[uid := conv.(step := PayAmount)];
        reply := Dialogue.NewAmountPrompt;
      case ScreenshotWait =>
        reply := Dialogue.ScreenshotAsPhoto;
      case ConfirmScreenshot =>
        dialogs := dialogs[uid := conv.(step := PayUtr)];
        reply := Dialogue.UtrPrompt;
      case Reupload =>
        dialogs := dialogs[uid := conv.(step := PaySs, ssFileId := None)];
        reply := Dialogue.ScreenshotAgainPrompt;
      case UtrEntry =>
        if text == "" || |text| < 4 {
          reply := Dialogue.InvalidUtr;
        } else {
          dialogs := dialogs[uid := conv.(utr := Some(text), step := PayUtrConfirm)];
          reply := Dialogue.ConfirmUtrPrompt(text);
        }
      case ConfirmUtr =>
        payments := payments + [Payments.NewPayment(payId, uid, conv, now)];
        dialogs := dialogs[uid := Cleared];
        reply := Dialogue.PaymentSubmitted(payId);
      case RcQuery =>
        reply := LookupStep(uid, u, text, fetchOk);
      case StartLookup =>
        if u.credits < CREDITS_PER_SEARCH {
          reply := Dialogue.LowCreditsForLookup;
        } else {
          dialogs := dialogs[uid := Conv(AwaitRc, None, None, None)];
          reply := Dialogue.RcPrompt;
        }
      case BuyCredits =>
        dialogs := dialogs[uid := Cleared];
        reply := Dialogue.BuyInfo;
      case PaymentDone =>
        dialogs := dialogs[uid := Conv(PayAmount, None, None, None)];
        reply := Dialogue.AmountPrompt;
      case ShowBalance =>
        reply := Dialogue.Balance(u.credits);
      case ShowProfile =>
        reply := Dialogue.Profile(uid, u.credits, u.searches);
      case ShowHelp =>
        reply := Dialogue.HelpText;
      case ShowAdminPanel =>
        reply := Dialogue.AdminPanel;
      case ListPending =>
        if Payments.FilterPending(payments) == [] {
          reply := Dialogue.NoPendingPayments;
        } else {
          reply := Dialogue.PendingPayments(Payments.PendingList(payments));
        }
      case ShowStats =>
        var report := Stats.ComputeStats(Snapshot());
        reply := Dialogue.StatsReport(report);
      case CodesHelp =>
        reply := Dialogue.GenerateCodesHelp;
      case ListCodes =>
        if codes == map[] {
          reply := Dialogue.NoCodes;
        } else {
          reply := Dialogue.CodesOverview;
        }
      case Fallback =>
        reply := Dialogue.InvalidInput;
    }

    /** Amount entry: keep the amount and ask for confirmation, or re-prompt. */
    method AmountStep(uid: int, conv: Conv, text: string) returns (reply: Dialogue.Reply)
      modifies this
      ensures users == old(users) && payments == old(payments) && codes == old(codes)
      ensures match Dialogue.ParseAmount(text)
        case NotNumeric => dialogs == old(dialogs) && reply == Dialogue.AmountNotNumeric
        case NotPositive => dialogs == old(dialogs) && reply == Dialogue.AmountNotPositive
        case Accepted(a) =>
          dialogs == old(dialogs)[uid := conv.(amount := Some(a), step := PayAmountConfirm)]
          && reply == Dialogue.ConfirmAmountPrompt(a)
    {
      var a := Dialogue.AmountText(text);
      if !Dialogue.IsNumeral(a) {
        assert Dialogue.ParseAmount(text) == Dialogue.NotNumeric;
        return Dialogue.AmountNotNumeric;
      }
      if Dialogue.DecimalValue(a) <= 0.0 {
        assert Dialogue.ParseAmount(text) == Dialogue.NotPositive;
        return Dialogue.AmountNotPositive;
      }
      assert Dialogue.ParseAmount(text) == Dialogue.Accepted(a);
      dialogs := dialogs[uid := conv.(amount := Some(a), step := PayAmountConfirm)];
      reply := Dialogue.ConfirmAmountPrompt(a);
    }

    /** The RC number step: refuse an empty number, end the lookup when the
        balance is short, and charge only when the fetch succeeds. */
    method LookupStep(uid: int, u: User, text: string, fetchOk: bool) returns (reply: Dialogue.Reply)
      requires uid in users
      modifies this
      ensures payments == old(payments) && codes == old(codes)
      ensures var rc := Dialogue.RcOf(text);
        if rc == "" then
          users == old(users) && dialogs == old(dialogs) && reply == Dialogue.InvalidRc
        else if u.credits < CREDITS_PER_SEARCH then
          users == old(users) && dialogs == old(dialogs)[uid := Cleared] && reply == Dialogue.NotEnoughCredits
        else if fetchOk then
          users == Ledger.Charge(old(users), uid) && dialogs == old(dialogs)[uid := Cleared]
          && reply == Dialogue.VehicleCard(rc)
        else
          users == old(users) && dialogs == old(dialogs)[uid := Cleared] && reply == Dialogue.LookupFailed(rc)
    {
      var rc := Dialogue.RcOf(text);
      if rc == "" {
        return Dialogue.InvalidRc;
      }
      if u.credits < CREDITS_PER_SEARCH {
        dialogs := dialogs[uid := Cleared];
        return Dialogue.NotEnoughCredits;
      }
      if fetchOk {
        var v := users[uid];
        users := users[uid := v.(credits := v.credits - CREDITS_PER_SEARCH, searches := v.searches + 1)];
        reply := Dialogue.VehicleCard(rc);
      } else {
        reply := Dialogue.LookupFailed(rc);
      }
      dialogs := dialogs[uid := Cleared];
    }

    /** `on_photo`: only the screenshot steps take a photo. */
    method OnPhoto(uid: int, fileId: string) returns (reply: Dialogue.PhotoReply)
      modifies this
      ensures Effect(Snapshot(), reply) == Dialogue.OnPhoto(old(Snapshot()), uid, fileId)
    {
      var conv := if uid in dialogs then dialogs[uid] else Cleared;
      if conv.step != PaySs && conv.step != PaySsConfirm {
        return Dialogue.PhotoIgnored;
      }
      dialogs := dialogs[uid := conv.(ssFileId := Some(fileId), step := PaySsConfirm)];
      reply := Dialogue.ScreenshotReceived;
    }
  }
}
