/** The code registry: the XXX-XXX-XXX token format, batch generation with
    retry on collision (`/gen`) and single-use redemption (`/redeem`). */
module Codes {
  import opened Types
  import opened Text
  import Ledger

  /** The alphabet of `generate_code`: `string.ascii_uppercase + string.digits`. */
  predicate IsTokenChar(c: char)
  {
    'A' <= c <= 'Z' || '0' <= c <= '9'
  }

  /** What `random.choices` supplies for one token: nine characters of the alphabet. */
  predicate IsDraw(d: seq<char>)
  {
    |d| == 9 && forall i :: 0 <= i < 9 ==> IsTokenChar(d[i])
  }

  /** Three groups of three alphabet characters joined by dashes. */
  predicate WellFormedToken(t: string)
  {
    && |t| == 11 && t[3] == '-' && t[7] == '-'
    && forall i :: 0 <= i < 11 && i != 3 && i != 7 ==> IsTokenChar(t[i])
  }

  /** The nine random characters of a token, dashes taken out. */
  function DrawOf(t: string): (d: seq<char>)
    requires |t| == 11
    ensures |d| == 9
  {
    t[..3] + t[4..7] + t[8..]
  }

  /** `generate_code`, given the nine characters it draws: the token is well
      formed and its characters are exactly the draw. */
  function GenerateCode(d: seq<char>): (t: string)
    requires IsDraw(d)
    ensures WellFormedToken(t)
    ensures DrawOf(t) == d
  {
    d[..3] + "-" + d[3..6] + "-" + d[6..]
  }

  /** Conversely, every well-formed token is what `generate_code` makes of its own characters. */
  lemma TokenFromItsDraw(t: string)
    requires WellFormedToken(t)
    ensures IsDraw(DrawOf(t)) && GenerateCode(DrawOf(t)) == t
  {
    var d := DrawOf(t);
    assert forall i :: 0 <= i < 9 ==> d[i] == t[if i < 3 then i else if i < 6 then i + 1 else i + 2];
  }

  /** `/redeem`'s normalisation of its argument: `.upper().strip()`. */
  function Normalize(arg: string): string
  {
    Strip(Upper(arg))
  }

  /** `/redeem`'s format check: non-empty, eleven characters, two dashes. */
  predicate FormatOk(code: string)
  {
    code != "" && |code| == 11 && Count(code, '-') == 2
  }

  /** Every generated token passes `/redeem`'s normalisation unchanged and
      then its format check, so a token typed as issued reaches the registry lookup. */
  lemma WellFormedTokenRedeemable(t: string)
    requires WellFormedToken(t)
    ensures Normalize(t) == t
    ensures FormatOk(t)
  {
    var a, b, c := t[..3], t[4..7], t[8..];
    assert t == a + "-" + b + "-" + c;
    assert '-' !in a && '-' !in b && '-' !in c by {
      assert forall i :: 0 <= i < 3 ==> a[i] == t[i] && b[i] == t[i + 4] && c[i] == t[i + 8];
    }
    CountAppend(a, "-", '-');
    CountAppend(a + "-", b, '-');
    CountAppend(a + "-" + b, "-", '-');
    CountAppend(a + "-" + b + "-", c, '-');
    assert Upper(t) == t;
    assert forall i :: 0 <= i < |t| ==> !IsSpace(t[i]);
    StripSpec(t);
  }

  /** Some(made + rest) when the rest of the batch could be drawn. */
  function Then(made: seq<string>, rest: Option<seq<string>>): Option<seq<string>>
  {
    match rest
    case None => None
    case Some(ts) => Some(made + ts)
  }

  /** The tokens `/gen` keeps from a supply of draws: each draw becomes a
      candidate, a candidate already taken is drawn again, a new one is kept
      and taken; None when the supply ends before `count` tokens are kept. */
  function DrawTokens(taken: set<string>, draws: seq<seq<char>>, count: nat): Option<seq<string>>
    requires forall i :: 0 <= i < |draws| ==> IsDraw(draws[i])
    decreases |draws|
  {
    if count == 0 then Some([])
    else if draws == [] then None
    else
      var t := GenerateCode(draws[0]);
      if t in taken then DrawTokens(taken, draws[1..], count)
      else Then([t], DrawTokens(taken + {t}, draws[1..], count - 1))
  }

  /** A batch holds exactly `count` well-formed tokens, pairwise distinct and
      none of them taken before. */
  lemma {:induction false} DrawTokensSound(taken: set<string>, draws: seq<seq<char>>, count: nat)
    requires forall i :: 0 <= i < |draws| ==> IsDraw(draws[i])
    requires DrawTokens(taken, draws, count).Some?
    ensures var ts := DrawTokens(taken, draws, count).value;
      && |ts| == count
      && (forall i :: 0 <= i < |ts| ==> WellFormedToken(ts[i]) && ts[i] !in taken)
      && (forall i, j :: 0 <= i < j < |ts| ==> ts[i] != ts[j])
    decreases |draws|
  {
    if count > 0 {
      var t := GenerateCode(draws[0]);
      if t in taken {
        DrawTokensSound(taken, draws[1..], count);
      } else {
        DrawTokensSound(taken + {t}, draws[1..], count - 1);
        var rest := DrawTokens(taken + {t}, draws[1..], count - 1).value;
        assert DrawTokens(taken, draws, count).value == [t] + rest;
      }
    }
  }

  /** The registry entries of a new batch. */
  function NewCodes(ts: seq<string>, credits: int, creator: int, now: int): (m: map<string, Code>)
    ensures m.Keys == set t | t in ts
  {
    map t | t in ts :: Code(credits, creator, now, false, None, None)
  }

  /** What `/gen` answers. A non-owner gets no answer at all. */
  datatype GenReply =
    | GenIgnored
    | GenUsage
    | GenNotPositive
    | GenTooMany
    | GenExhausted
    | Generated(tokens: seq<string>)

  /** `/gen <count> <credits>`: the owner, with both arguments, 0 < count <= 50
      and credits > 0, gets `count` new tokens, all unredeemed and worth
      `credits`; in every other case, and when the draws run out, nothing changes. */
  function Gen(w: World, caller: int, count: Option<int>, credits: Option<int>, now: int, draws: seq<seq<char>>): (r: Effect<GenReply>)
    requires forall i :: 0 <= i < |draws| ==> IsDraw(draws[i])
    ensures r.world.users == w.users && r.world.payments == w.payments && r.world.dialogs == w.dialogs
    ensures !r.reply.Generated? ==> r.world == w
    ensures r.reply == GenIgnored <==> caller != OWNER_ID
    ensures r.reply.Generated? <==>
      && caller == OWNER_ID && count.Some? && credits.Some?
      && 0 < count.value <= MAX_CODES_PER_BATCH && credits.value > 0
      && DrawTokens(w.codes.Keys, draws, count.value).Some?
    ensures r.reply == GenExhausted <==>
      && caller == OWNER_ID && count.Some? && credits.Some?
      && 0 < count.value <= MAX_CODES_PER_BATCH && credits.value > 0
      && DrawTokens(w.codes.Keys, draws, count.value).None?
    ensures r.reply.Generated? ==>
      var ts := r.reply.tokens;
      && |ts| == count.value
      && (forall i :: 0 <= i < |ts| ==> WellFormedToken(ts[i]) && ts[i] !in w.codes)
      && (forall i, j :: 0 <= i < j < |ts| ==> ts[i] != ts[j])
      && r.world.codes.Keys == w.codes.Keys + (set t | t in ts)
      && (forall t :: t in ts ==> r.world.codes[t] == Code(credits.value, caller, now, false, None, None))
      && (forall k :: k in w.codes ==> r.world.codes[k] == w.codes[k])
  {
    if caller != OWNER_ID then Effect(w, GenIgnored)
    else if count.None? || credits.None? then Effect(w, GenUsage)
    else if count.value <= 0 || credits.value <= 0 then Effect(w, GenNotPositive)
    else if count.value > MAX_CODES_PER_BATCH then Effect(w, GenTooMany)
    else match DrawTokens(w.codes.Keys, draws, count.value)
      case None => Effect(w, GenExhausted)
      case Some(ts) =>
        DrawTokensSound(w.codes.Keys, draws, count.value);
        Effect(w.(codes := w.codes + NewCodes(ts, credits.value, caller, now)), Generated(ts))
  }

  /** Every code in the registry is worth a non-negative amount. */
  ghost predicate NonNegativeCodes(codes: map<string, Code>)
  {
    forall t :: t in codes ==> codes[t].credits >= 0
  }

  /** `/gen` only creates codes worth more than zero. */
  lemma GenKeepsNonNegativeCodes(w: World, caller: int, count: Option<int>, credits: Option<int>, now: int, draws: seq<seq<char>>)
    requires forall i :: 0 <= i < |draws| ==> IsDraw(draws[i])
    requires NonNegativeCodes(w.codes)
    ensures NonNegativeCodes(Gen(w, caller, count, credits, now, draws).world.codes)
  {
  }

  /** What `/redeem` answers. */
  datatype RedeemReply =
    | RedeemBlocked
    | RedeemUsage
    | BadFormat
    | UnknownCode
    | AlreadyRedeemed
    | Redeemed(token: string, credits: int)

  /** `w2` is `w` after `uid` redeemed `code` at `now`: the user (created if
      unknown) gains exactly the code's credits, the code is marked redeemed by
      `uid` at `now`, and nothing else changes. */
  ghost predicate RedeemedAt(w: World, w2: World, uid: int, code: string, now: int)
    requires code in w.codes
  {
    var before := Ledger.Touch(w.users, uid)[uid];
    var c := w.codes[code];
    && w2.users.Keys == w.users.Keys + {uid}
    && w2.users[uid] == before.(credits := before.credits + c.credits)
    && (forall u :: u in w.users && u != uid ==> w2.users[u] == w.users[u])
    && w2.codes.Keys == w.codes.Keys
    && w2.codes[code] == c.(redeemed := true, redeemedBy := Some(uid), redeemedTs := Some(now))
    && (forall t :: t in w.codes && t != code ==> w2.codes[t] == w.codes[t])
    && w2.payments == w.payments && w2.dialogs == w.dialogs
  }

  /** `/redeem <code>` by `uid` (None: no argument). The caller is created if
      unknown; a blocked caller, a missing argument, a malformed, unknown or
      already redeemed code change nothing else. */
  function Redeem(w: World, uid: int, arg: Option<string>, now: int): (r: Effect<RedeemReply>)
    ensures !r.reply.Redeemed? ==> r.world == w.(users := Ledger.Touch(w.users, uid))
    ensures r.reply.Redeemed? <==>
      && !Ledger.Touch(w.users, uid)[uid].blocked
      && arg.Some?
      && FormatOk(Normalize(arg.value))
      && Normalize(arg.value) in w.codes
      && !w.codes[Normalize(arg.value)].redeemed
    ensures r.reply.Redeemed? ==>
      var code := Normalize(arg.value);
      && code in w.codes
      && RedeemedAt(w, r.world, uid, code, now)
      && r.reply == Redeemed(code, w.codes[code].credits)
  {
    var users := Ledger.Touch(w.users, uid);
    var w1 := w.(users := users);
    if users[uid].blocked then Effect(w1, RedeemBlocked)
    else if arg.None? then Effect(w1, RedeemUsage)
    else
      var code := Normalize(arg.value);
      if !FormatOk(code) then Effect(w1, BadFormat)
      else if code !in w.codes then Effect(w1, UnknownCode)
      else if w.codes[code].redeemed then Effect(w1, AlreadyRedeemed)
      else
        var c := w.codes[code];
        Effect(w1.(users := Ledger.Credit(users, uid, c.credits),
                   codes := w.codes[code := c.(redeemed := true, redeemedBy := Some(uid), redeemedTs := Some(now))]),
               Redeemed(code, c.credits))
  }

  /** A code pays out once: after a successful redemption, redeeming the same
      argument again, by anyone and at any time, credits nobody and changes
      nothing but the lazy creation of the caller. */
  lemma RedeemAtMostOnce(w: World, uid: int, arg: string, now: int, uid2: int, now2: int)
    requires Redeem(w, uid, Some(arg), now).reply.Redeemed?
    ensures var w1 := Redeem(w, uid, Some(arg), now).world;
      var r2 := Redeem(w1, uid2, Some(arg), now2);
      && r2.world == w1.(users := Ledger.Touch(w1.users, uid2))
      && (!Ledger.Touch(w1.users, uid2)[uid2].blocked ==> r2.reply == AlreadyRedeemed)
  {
  }

  /** Redemption keeps every balance non-negative while every code is worth a
      non-negative amount. */
  lemma RedeemKeepsNonNegative(w: World, uid: int, arg: Option<string>, now: int)
    requires Ledger.NonNegative(w.users) && NonNegativeCodes(w.codes)
    ensures Ledger.NonNegative(Redeem(w, uid, arg, now).world.users)
    ensures NonNegativeCodes(Redeem(w, uid, arg, now).world.codes)
  {
  }
}
