/** The records the bot keeps: users, payment records, codes and the
    per-user conversation state, with the bot's fixed constants. */
module Types {

  datatype Option<T> = None | Some(value: T)

  /** The administrator's Telegram user id (only this caller may run admin commands). */
  const OWNER_ID: int := 8120431402
  /** Credits charged for one successful vehicle lookup. */
  const CREDITS_PER_SEARCH: int := 10
  /** Largest batch `/gen` accepts. */
  const MAX_CODES_PER_BATCH: int := 50
  /** How many pending payments the admin listing shows. */
  const PENDING_LIST_LIMIT: nat := 12

  /** A user's ledger entry. The source does not check signs, so credits is an int. */
  datatype User = User(credits: int, blocked: bool, searches: int)

  /** The entry `get_user` creates on first contact. */
  const NewUser: User := User(0, false, 0)

  /** The source only ever writes "pending" and "approved". */
  datatype Status = Pending | Approved

  /** One purchase submission. Amount, UTR and screenshot are read from the
      conversation with `.get`, hence optional. */
  datatype Payment = Payment(
    id: string,
    userId: int,
    amount: Option<string>,
    utr: Option<string>,
    screenshot: Option<string>,
    status: Status,
    ts: int,
    approvedCredits: Option<int>,
    approvedTs: Option<int>)

  /** One redeemable code; the token is its key in the registry. */
  datatype Code = Code(
    credits: int,
    createdBy: int,
    createdTs: int,
    redeemed: bool,
    redeemedBy: Option<int>,
    redeemedTs: Option<int>)

  /** The `step` entry of a user's conversation; `Idle` is "no step". */
  datatype Step =
    | Idle
    | PayAmount | PayAmountConfirm
    | PaySs | PaySsConfirm
    | PayUtr | PayUtrConfirm
    | AwaitRc

  /** A user's conversation data: the step plus the transient fields. */
  datatype Conv = Conv(step: Step, amount: Option<string>, ssFileId: Option<string>, utr: Option<string>)

  /** The conversation after `ctx.user_data.clear()`. */
  const Cleared: Conv := Conv(Idle, None, None, None)

  /** Everything the handlers read and write. */
  datatype World = World(
    users: map<int, User>,
    payments: seq<Payment>,
    codes: map<string, Code>,
    dialogs: map<int, Conv>)

  /** A handler's outcome: the new state and which reply it sends. */
  datatype Effect<R> = Effect(world: World, reply: R)

  /** The conversation of `uid`; a user without one is idle. */
  function ConvOf(w: World, uid: int): Conv
  {
    if uid in w.dialogs then w.dialogs[uid] else Cleared
  }
}
