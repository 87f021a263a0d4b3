/** The credit ledger: lazy user creation and the admin commands that
    change a user's entry (`/add`, `/block`, `/unblock`). */
module Ledger {
  import opened Types

  /** Every balance is non-negative. The source does not keep this for
      `/add` and `/approve`, which accept any integer. */
  ghost predicate NonNegative(users: map<int, User>)
  {
    forall k :: k in users ==> users[k].credits >= 0
  }

  /** `get_user`: a known uid keeps its entry; an unknown one gets exactly one
      fresh entry with 0 credits, not blocked, 0 searches; nobody else changes. */
  function Touch(users: map<int, User>, uid: int): (r: map<int, User>)
    ensures r.Keys == users.Keys + {uid}
    ensures uid in users ==> r == users
    ensures uid !in users ==> r[uid] == NewUser && |r| == |users| + 1
    ensures forall k :: k in users ==> r[k] == users[k]
  {
    if uid in users then users else users[uid := NewUser]
  }

  /** `u["credits"] += amount` on an existing entry. */
  function Credit(users: map<int, User>, uid: int, amount: int): (r: map<int, User>)
    requires uid in users
    ensures r.Keys == users.Keys
    ensures r[uid] == users[uid].(credits := users[uid].credits + amount)
    ensures forall k :: k in users && k != uid ==> r[k] == users[k]
  {
    users[uid := users[uid].(credits := users[uid].credits + amount)]
  }

  /** The debit of a successful lookup: the cost comes off, the search count goes up. */
  function Charge(users: map<int, User>, uid: int): (r: map<int, User>)
    requires uid in users
    ensures r.Keys == users.Keys
    ensures r[uid].credits == users[uid].credits - CREDITS_PER_SEARCH
    ensures r[uid].searches == users[uid].searches + 1
    ensures r[uid].blocked == users[uid].blocked
    ensures forall k :: k in users && k != uid ==> r[k] == users[k]
  {
    var u := users[uid];
    users[uid := u.(credits := u.credits - CREDITS_PER_SEARCH, searches := u.searches + 1)]
  }

  /** A lookup is charged only when the balance covers it, so a charge keeps every balance non-negative. */
  lemma ChargeKeepsNonNegative(users: map<int, User>, uid: int)
    requires uid in users && users[uid].credits >= CREDITS_PER_SEARCH
    requires NonNegative(users)
    ensures NonNegative(Charge(users, uid))
  {
  }

  /** `/add <user_id> <credits>` (arguments already parsed; None is a missing or
      non-integer argument). Only the owner changes anything; the target is
      created if unknown and gains exactly `amount`, whatever its sign. */
  function Add(w: World, caller: int, target: Option<int>, amount: Option<int>): (r: World)
    ensures r.payments == w.payments && r.codes == w.codes && r.dialogs == w.dialogs
    ensures caller != OWNER_ID || target.None? || amount.None? ==> r == w
    ensures caller == OWNER_ID && target.Some? && amount.Some? ==>
      var t := target.value;
      && r.users.Keys == w.users.Keys + {t}
      && r.users[t].credits == Touch(w.users, t)[t].credits + amount.value
      && r.users[t].blocked == Touch(w.users, t)[t].blocked
      && r.users[t].searches == Touch(w.users, t)[t].searches
      && forall k :: k in w.users && k != t ==> r.users[k] == w.users[k]
  {
    if caller != OWNER_ID || target.None? || amount.None? then w
    else
      var users := Touch(w.users, target.value);
      w.(users := Credit(users, target.value, amount.value))
  }

  /** `/block` (flag true) and `/unblock` (flag false): only the owner changes
      anything; the target is created if unknown and only its flag changes. */
  function SetBlocked(w: World, caller: int, target: Option<int>, flag: bool): (r: World)
    ensures r.payments == w.payments && r.codes == w.codes && r.dialogs == w.dialogs
    ensures caller != OWNER_ID || target.None? ==> r == w
    ensures caller == OWNER_ID && target.Some? ==>
      var t := target.value;
      && r.users.Keys == w.users.Keys + {t}
      && r.users[t] == Touch(w.users, t)[t].(blocked := flag)
      && forall k :: k in w.users && k != t ==> r.users[k] == w.users[k]
  {
    if caller != OWNER_ID || target.None? then w
    else
      var users := Touch(w.users, target.value);
      w.(users := users[target.value := users[target.value].(blocked := flag)])
  }

  /** `/add` does not check the sign of its amount: a new user given -5 ends at -5,
      so a non-negative balance is not an invariant of the ledger. */
  lemma AddCanOverdraw(w: World)
    requires w.users == map[]
    ensures Add(w, OWNER_ID, Some(7), Some(-5)).users[7].credits == -5
    ensures !NonNegative(Add(w, OWNER_ID, Some(7), Some(-5)).users)
  {
  }
}
