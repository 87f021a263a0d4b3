# Vehicle-lookup credit bot: a Dafny model

This project models the core of `bot3.py`. That file is a Telegram bot with three jobs:

- It sells vehicle-registration lookups for credits: one lookup costs 10 credits.
- Users buy credits through a guided payment dialogue (amount, screenshot, UTR), and the administrator approves each submission with `/approve`.
- The administrator can also mint single-use redemption codes (`/gen`), which users redeem with `/redeem`.

The bot keeps three collections: `users`, `payments` and `codes`. It also keeps one conversation record per user, holding the current step and the fields collected so far. Every handler reads and updates these in place.

The model has eight modules.

- `Types` holds the records (`User`, `Payment`, `Code`, `Conv`, `World`) and the constants of the source:
  - the owner id 8120431402;
  - 10 credits per search;
  - at most 50 codes per batch;
  - at most 12 pending payments listed.
- `Text` models Python's `strip`, `lower`, `upper`, `replace` and `count` as the handlers use them.
- The pure specifications:
  - `Ledger` covers `get_user`, `/add`, `/block` and `/unblock`.
  - `Payments` covers `/approve` and the pending-payments listing.
  - `Codes` covers the token format, `/gen` and `/redeem`.
  - `Stats` covers the admin report.
  - `Dialogue` covers `on_message` and `on_photo`. The ordered chain of guards is the function `Route`, and each branch is the function `Respond`.
- `Bot` is a class whose fields are the four collections and whose methods are the handlers. Each method updates the fields in place, with loops where the source loops. Each is proved to produce exactly the state and reply that the matching specification function describes.

On top of the specifications, the lemmas prove the properties the bot depends on:

- a payment is credited at most once;
- a code pays out at most once;
- only a successful lookup costs credits, and only when the balance covers it;
- a submitted payment record always carries an amount, a UTR and a screenshot;
- a message touches only its sender's entry and conversation;
- the pending listing is a newest-first selection of pending records;
- the stats report's code counts add up.

## Model

| member | source | states |
|---|---|---|
| Text.StripSpec | bot3.py:453 | `strip()` never lengthens the text, leaves no white space at either end, and leaves text without white space unchanged |
| Text.StripLeftSpec | bot3.py:453 | Leading strip removes exactly a prefix of white space and keeps the rest |
| Text.StripRightSpec | bot3.py:453 | Trailing strip removes exactly a suffix of white space and keeps the rest |
| Text.RemoveAll | bot3.py:470 | `replace(pat, "")` never lengthens the string |
| Text.RemoveAllAbsent | bot3.py:470 | A string in which the pattern does not occur is left as it is |
| Text.RemoveAllLeading | bot3.py:470 | An occurrence at the front is removed whole and scanning goes on after it |
| Text.RemoveAllKeepsChars | bot3.py:470 | Removal only takes characters away: the result's characters are a sub-multiset of the input's |
| Text.RemoveCharRemovesAll | bot3.py:573 | Removing one character everywhere leaves no occurrence of it; the other characters keep their order |
| Text.DropFirst | bot3.py:471 | `replace(".", "", 1)` removes exactly one character when a dot is present, otherwise nothing |
| Text.DropFirstRemovesFirst | bot3.py:471 | The character removed is the first dot; everything before and after it is kept in order |
| Text.Count | bot3.py:410 | `count(c)` is at most the length, and is zero exactly when `c` does not occur |
| Text.CountAppend | bot3.py:410 | Counting distributes over concatenation |
| Ledger.Touch | bot3.py:78-83 | `get_user` keeps a known entry; an unknown uid gets exactly one new entry (0 credits, not blocked, 0 searches); nobody else changes |
| Ledger.Credit | bot3.py:275-276 | Adding credits changes only that user's balance, by exactly the amount |
| Ledger.Charge | bot3.py:589-591 | A charged lookup takes exactly 10 credits and adds one search; nothing else changes |
| Ledger.ChargeKeepsNonNegative | bot3.py:578-591 | Because the balance is checked first, a charge never makes a balance negative |
| Ledger.Add | bot3.py:266-278 | Only the owner with both arguments changes anything; the target is created if unknown and gains exactly the amount; nothing else changes |
| Ledger.SetBlocked | bot3.py:280-304 | Only the owner with a target changes anything; only the target's flag changes |
| Ledger.AddCanOverdraw | bot3.py:275-276 | `/add` accepts negative amounts, so balances can become negative |
| Payments.IndexOfId | bot3.py:320-324 | The index found holds the id and no earlier record does; None exactly when no record has the id |
| Payments.FindPayment | bot3.py:320-324 | The in-order search loop stops at the first record with the id |
| Payments.SameIdsSameIndex | bot3.py:320-324 | Updating a record without changing any id leaves the first match the same |
| Payments.NewPayment | bot3.py:527-538 | A submitted record is pending, unapproved, stamped with the id, user and time, and carries the conversation's amount, UTR and screenshot |
| Payments.Approve | bot3.py:311-337 | Approval happens exactly when the owner gives both arguments and the first record with the id is pending. The record then becomes approved with the credits and time, its user gains exactly those credits, and nothing else changes. Every other case changes nothing, and "not found" means no record has the id |
| Payments.ApproveAtMostOnce | bot3.py:328-330 | After an approval, approving the same id again changes nothing, and when the owner gives both arguments the reply is "already processed" |
| Payments.FilterPending | bot3.py:665 | The filter is no longer than the queue and holds only pending records |
| Payments.FilterPendingCounts | bot3.py:665 | The filter keeps every pending record exactly as often as it occurs, and nothing else |
| Payments.InsertByTsAddsOne | bot3.py:669 | Inserting adds exactly one record |
| Payments.InsertByTsSorted | bot3.py:669 | Inserting into a newest-first sequence keeps it newest first |
| Payments.SortNewestFirstSound | bot3.py:669 | The sort is a newest-first permutation of its input |
| Payments.InsertByTsStable | bot3.py:669 | Inserting puts the record ahead of those stamped at its own time and keeps the order among the rest |
| Payments.SortNewestFirstStable | bot3.py:669 | The sort is stable: records with equal timestamps keep their input order, as with `sorted(..., reverse=True)` |
| Payments.PendingListSound | bot3.py:664-676 | The listing holds min(pending count, 12) records, all pending records of the queue, newest first. No record is shown more often than it is pending in the queue, and with 12 or fewer pending records the listing is a permutation of all of them |
| Payments.PendingListWithinPending | bot3.py:669 | The first 12 of the sorted pending records form a sub-multiset of the pending records |
| Payments.PendingListShowsPending | bot3.py:665-669 | Every record shown is a pending record of the queue |
| Payments.PendingListShowsNewest | bot3.py:669 | No pending record left out of the listing is newer than one shown |
| Codes.GenerateCode | bot3.py:88-94 | `generate_code` yields three groups of three letters or digits joined by dashes, made of exactly the nine drawn characters |
| Codes.TokenFromItsDraw | bot3.py:88-94 | Every well-formed token is what `generate_code` makes of its own characters |
| Codes.DrawOf | bot3.py:88-94 | Proof helper: the nine drawn characters of a token |
| Codes.WellFormedTokenRedeemable | bot3.py:404-412 | A generated token survives `/redeem`'s `upper().strip()` unchanged and passes its format check |
| Codes.DrawTokensSound | bot3.py:370-384 | A finished batch has exactly `count` well-formed tokens, pairwise distinct, none already in the registry |
| Codes.NewCodes | bot3.py:376-383 | The new registry entries are exactly the batch's tokens |
| Codes.Gen | bot3.py:349-391 | A batch is generated exactly when the owner gives two positive numbers, at most 50 codes are asked for, and the draws suffice. It adds exactly `count` fresh, distinct, well-formed tokens, each unredeemed and worth the given credits, and changes no other code. A non-owner is ignored, and every case without a batch changes nothing |
| Codes.GenKeepsNonNegativeCodes | bot3.py:361-363 | `/gen` only creates codes worth more than zero |
| Codes.Redeem | bot3.py:394-431 | Redemption happens exactly when the caller is not blocked and the normalised argument is well formed, known and unredeemed. The caller then gains exactly the code's credits, the code is marked redeemed by them at that time, and nothing else changes. Every other case only creates the caller |
| Codes.RedeemAtMostOnce | bot3.py:418-421 | After a redemption, redeeming the same text again, by anyone and at any time, credits nobody; a caller who is not blocked is told "already redeemed" |
| Codes.RedeemKeepsNonNegative | bot3.py:423-428 | Redemption keeps balances non-negative while codes are worth non-negative amounts |
| Stats.SumOfPick | bot3.py:680-681 | A sum over a map's values may take any entry first |
| Stats.SumOfFlagsBounded | bot3.py:683 | A sum of 0/1 flags over a map lies between 0 and its size |
| Stats.FilterPendingAppend | bot3.py:682 | Filtering pending records distributes over concatenation |
| Stats.UserTotals | bot3.py:680-681 | The loop over the users computes the total credits and total searches |
| Stats.CountPending | bot3.py:682 | The loop counts exactly the pending records |
| Stats.CountRedeemed | bot3.py:683 | The loop counts exactly the redeemed codes, a number between 0 and the registry size |
| Stats.ComputeStats | bot3.py:678-696 | The report equals its definition; the active and redeemed code counts are non-negative and add up to the number of codes |
| Stats.TotalAfterUpdate | bot3.py:680 | Changing one user's entry moves the credit total by exactly the change in that balance |
| Dialogue.Route | bot3.py:461-738 | Guard order: "Back" wins everywhere. At amount entry, screenshot wait, UTR entry and RC entry every other text goes to that step's branch. Each confirm, change or re-upload branch fires exactly when its button text arrives in its step; re-upload typed at the screenshot wait is swallowed by the earlier guard. The admin branches fire only for the owner |
| Dialogue.Pow10 | bot3.py:474 | Proof helper: scaling factors for the decimal value are positive |
| Dialogue.DigitOf | bot3.py:471 | Proof helper: a digit's value is at most 9 |
| Dialogue.DigitsValuePositive | bot3.py:475 | A digit string has a positive value exactly when some digit is not zero |
| Dialogue.QuotientPositive | bot3.py:475 | Proof helper: dividing by a positive scale keeps the sign |
| Dialogue.AmountAccepted | bot3.py:469-485 | An amount is accepted exactly when the normalised text (lower-cased, "rs" and "₹" removed, stripped) is digits with at most one dot and some digit is not zero. What is kept is that text, and its value is above zero |
| Dialogue.Respond | bot3.py:461-736 | No branch answers with the blocked notice. Only "Confirm UTR" appends a record, which carries the conversation's data. Only an RC query with a non-empty number, enough credits and a successful fetch charges, and exactly then a vehicle card is sent |
| Dialogue.ApplyLocal | bot3.py:448-738 | Carrying out a branch changes no code, adds no user, and changes no other user or conversation |
| Dialogue.ApplyAppendsOnly | bot3.py:539 | Carrying out a branch appends at most one payment record |
| Dialogue.ApplyKeepsDialogsOk | bot3.py:448-738 | Carrying out a branch with a consistent conversation keeps every conversation consistent |
| Dialogue.OnMessageByRule | bot3.py:448-458 | A non-blocked user's message creates the user if needed and then runs the branch the guards pick |
| Dialogue.Start | bot3.py:245-252 | `/start` creates the caller. A blocked caller is told so and nothing else changes; anyone else has their conversation cleared. No other conversation, payment or code changes |
| Dialogue.OnPhoto | bot3.py:741-753 | A photo is taken only at the two screenshot steps: it becomes the screenshot and the step moves to its confirmation. Otherwise nothing changes; users, payments and codes never change |
| Dialogue.BlockedUserUnchanged | bot3.py:455-458 | The blocked notice is sent exactly to blocked users, and then nothing changes |
| Dialogue.BackClears | bot3.py:461-464 | "Back to Menu" clears the conversation from every step and changes nothing else |
| Dialogue.ScreenshotStepIgnoresText | bot3.py:498-511 | While a screenshot is awaited, every text but "Back", the re-upload button included, only re-prompts |
| Dialogue.ChangeAmountKeepsSubmission | bot3.py:492-495 | "Change Amount" at the UTR confirmation returns to amount entry and keeps the screenshot and UTR |
| Dialogue.ChangeUtrUnrouted | bot3.py:134-141 | No guard matches the "Change UTR" button shown at the UTR confirmation |
| Dialogue.ChangeUtrFallsThrough | bot3.py:735-738 | "Change UTR" gets the invalid-input reply and the step stays where it was |
| Dialogue.UtrEntryChecksLength | bot3.py:514-521 | At UTR entry a text shorter than 4 characters is refused with no change; a longer one is kept and the step moves to its confirmation |
| Dialogue.ConfirmUtrAppendsOnePending | bot3.py:524-569 | "Confirm UTR" appends exactly one pending record with the collected data, clears the conversation, and changes no balance and no code |
| Dialogue.AppendOnlyOnConfirmUtr | bot3.py:524-539 | A payment record is appended only by the "Confirm UTR" button, pressed at the UTR confirmation by a user who is not blocked |
| Dialogue.OnMessageLocal | bot3.py:448-738 | A message changes no code, only adds its sender to the users, and changes no other user or conversation |
| Dialogue.OnMessageAppendsOnly | bot3.py:539 | A message only appends to the payments, at most one record |
| Dialogue.LookupChargesOnlyOnSuccess | bot3.py:572-600 | Credits leave a balance only through a successful lookup by a non-blocked user at the RC step, with a non-empty number and at least 10 credits, and then exactly 10 are charged |
| Dialogue.LookupRouted | bot3.py:603 | Outside the free-text steps the lookup button always reaches its handler |
| Dialogue.PaymentButtonsOutsideTextSteps | bot3.py:615-630 | Outside the free-text steps "Buy Credits" and "Payment Done" always reach their handlers |
| Dialogue.InfoButtonsOutsideTextSteps | bot3.py:632-648 | Outside the free-text steps "My Balance", "Profile" and "Help" always reach their handlers |
| Dialogue.LookupButtonNeedsCredits | bot3.py:603-613 | With fewer than 10 credits the lookup button only warns; otherwise it opens the RC step |
| Dialogue.OnMessageKeepsNonNegative | bot3.py:578-591 | No message makes a non-negative balance negative |
| Dialogue.RespondKeepsConvOk | bot3.py:469-569 | Each branch leaves a conversation that holds what its step needs: an amount from the amount confirmation on, a screenshot from the screenshot confirmation on, and a UTR at the UTR confirmation |
| Dialogue.OnMessageKeepsDialogsOk | bot3.py:448-738 | The message handler keeps every conversation consistent with its step |
| Dialogue.OnPhotoKeepsDialogsOk | bot3.py:741-753 | So does the photo handler |
| Dialogue.StartKeepsDialogsOk | bot3.py:245-252 | So does `/start` |
| Dialogue.SubmittedRecordComplete | bot3.py:524-538 | In a consistent state, a submitted record always carries an amount, a UTR and a screenshot |
| Bot.Bot.constructor | bot3.py:76 | The bot starts from the loaded collections with no conversation in progress |
| Bot.Bot.GetUser | bot3.py:78-83 | `get_user` creates the entry in place on first contact and returns it |
| Bot.Bot.CmdStart | bot3.py:245-252 | The in-place `/start` gives exactly the state and reply of `Dialogue.Start` |
| Bot.Bot.CmdAdd | bot3.py:266-278 | The in-place `/add` leaves exactly the state `Ledger.Add` describes |
| Bot.Bot.CmdBlock | bot3.py:280-291 | The in-place `/block` leaves exactly the state `Ledger.SetBlocked` describes, with the flag set |
| Bot.Bot.CmdUnblock | bot3.py:293-304 | The in-place `/unblock` leaves exactly the state `Ledger.SetBlocked` describes, with the flag cleared |
| Bot.Bot.SetFlag | bot3.py:280-304 | The shared block/unblock update |
| Bot.Bot.CmdApprove | bot3.py:311-337 | The search loop plus the in-place updates give exactly the state and reply of `Payments.Approve` |
| Bot.Bot.CmdGen | bot3.py:349-391 | The in-place `/gen` gives exactly the state and reply of `Codes.Gen` |
| Bot.Bot.DrawBatch | bot3.py:370-384 | The retry loops draw exactly the batch `Codes.DrawTokens` defines: a collision is redrawn, a new token is kept, and None means the supply ran out |
| Bot.Bot.ThenAppend | bot3.py:384 | Proof helper for the retry loop: keeping one more token moves it from the rest of the batch to what was made |
| Bot.Bot.CmdRedeem | bot3.py:394-431 | The in-place `/redeem` gives exactly the state and reply of `Codes.Redeem` |
| Bot.Bot.OnMessage | bot3.py:448-738 | The in-place `on_message` gives exactly the state and reply of `Dialogue.OnMessage` |
| Bot.Bot.Dispatch | bot3.py:461-738 | Each branch body updates the fields exactly as `Dialogue.Apply` of `Dialogue.Respond` says |
| Bot.Bot.AmountStep | bot3.py:469-485 | Amount entry re-prompts on a non-numeral or non-positive amount; otherwise it stores the amount and moves to its confirmation |
| Bot.Bot.LookupStep | bot3.py:572-600 | The RC step refuses an empty number and ends the lookup when credits are short. It charges only on a successful fetch, and every other outcome ends the lookup without a charge |
| Bot.Bot.OnPhoto | bot3.py:741-753 | The in-place `on_photo` gives exactly the state and reply of `Dialogue.OnPhoto` |

## Left out

- Telegram I/O is not modelled. Replies are named by a `Reply` constructor carrying the values they show; their texts and keyboards are left out.
- The notifications are not modelled: the owner's after a submission and after a redemption, and the payer's after an approval.
- `load_data` and `save_data` (JSON persistence) are not modelled. The class starts from the loaded collections.
- `fetch_vehicle`, which makes the network call, becomes the boolean parameter `fetchOk`.
- `render_vehicle_card` and `sanitize` are not modelled.
- If rendering the card fails after the charge, the source has already charged and replies with an error. The model does not capture that case.
- `time.time()` is the parameter `now`, and `new_payment_id()` is the parameter `payId`.
- `random.choices` becomes a finite sequence `draws` of nine-character draws. If the draws run out before the batch is full, `/gen` changes nothing and answers `GenExhausted`. The source would keep drawing.
- Bot.Bot.CmdGen: it reads the clock once per batch. It commits the batch after drawing it, not code by code. No state is observable between the two, so the final state is the same.
- Python `float` parsing and display of the amount are not modelled. The amount is stored as its validated text, and its value is the exact rational `DecimalValue`.
- Dialogue.AmountAccepted: digits are ASCII `0`-`9` only. Python's `isdigit` also accepts other Unicode digits. Some of them, such as fullwidth "１０", are then accepted by `float` and move to the amount confirmation; the model re-prompts for these. Others, such as superscript "²", make `float` raise and end the handler with no reply; the model answers `AmountNotNumeric`.
- Text.Lower, Text.Upper: case mapping is modelled on ASCII letters only. Python maps every Unicode letter.
- Command-argument parsing (`int(ctx.args[i])`) is done by the caller: a missing or non-integer argument arrives as `None`. For `/add`, `/block` and `/unblock` the source converts the target outside its `try`, so a bad target raises and stops the handler. In the model nothing changes either way.
- `cmd_help`, `cmd_users` and `main` only reply or wire up handlers, so they are not modelled. "Help" is modelled as the `HelpText` reply. `cmd_start` is modelled as `Dialogue.Start`, without its welcome text.
- Concurrent handlers are not modelled. Each handler runs to completion on one state.
- Messages without text (`msg.text or ""`) are not modelled separately: the caller passes `""`. Updates without a message are not modelled: both handlers return at their first lines, before `get_user`, so nothing changes.
- The "View Codes" listing is not modelled in detail. Only its two cases are kept: no codes, or an overview. Its content and its 10/5 truncation are left out.
- Non-negative balances: a non-negative balance is not an invariant of the whole bot. `/add` and `/approve` accept any integer, and the model follows the code, as `Ledger.AddCanOverdraw` shows. Lookups and redemptions are proved to keep balances non-negative.
