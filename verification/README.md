# Space factions contract, modelled in Dafny

This project models the `SpaceFactions` NEAR smart contract. The contract keeps
three global faction totals (square, circle, triangle). It keeps a per-account
support record for every account that has ever contributed. It also keeps a
"starting point" message log of at most 20 entries, which is overwritten in a
ring once full.

The contract becomes an immutable `State` datatype. Each `@call` entry point
is a pure transition function that takes the signing account as an explicit
`caller`. Each `@view` entry point is a function of the state that returns no
new state, so no view can change the state.

Modules:

- `Factions` (`factions.dfy`) holds the faction tags, the `Support` record, and
  the validation of a support request. Validation yields a structured
  `Outcome`: accepted for a faction, `InvalidFaction` or `InvalidSupportAmount`.
- `Ledger` (`ledger.dfy`) holds `Total`, the sum of one faction's counter over
  all stored records, and how that sum changes when one record is rewritten.
- `SpaceFactions` (`space_factions.dfy`) holds the state, the initial state,
  the six views, `AddSupport`, `AddMessageStart`, and `Run`, which folds a
  sequence of calls over a state.
- `Invariants` (`invariants.dfy`) holds the properties over call sequences.
  These are the ledger sums, the monotonicity of every counter, the view after
  a contribution, and the ring order of the message log.
- `Scenarios` (`scenarios.dfy`) holds the integration-test scenarios, stated
  on the model.

`Valid` is the invariant of every reachable state. It has two parts:

- Every total equals the sum of its counter over the stored records. Every
  record is filed under its own account, and no counter is negative.
- The log has at most 20 entries, and the cursor is in `[0, 20)`. The cursor
  is 0 while the log is still filling.

## Model

| member | source | states |
|---|---|---|
| Factions.Validate | src/contract.ts:66-70 | A request is refused as `InvalidFaction` exactly when the tag is outside 1..3. It is refused as `InvalidSupportAmount` exactly when the tag is valid but the amount is not in (0, 1000]. Otherwise it is accepted for the faction whose tag was given. The faction is checked before the amount. |
| Factions.Zero | src/contract.ts:74-79 | The record of an account that never contributed carries that account and has all three counters at 0. |
| Factions.Bump | src/contract.ts:89-106 | Crediting a record adds the amount to the counter of the chosen faction only. The other two counters and the account are unchanged. |
| Ledger.TotalUpdate | src/contract.ts:89-106 | Rewriting one account's record changes the faction's sum over all records by the new counter minus the old one. The old counter counts as 0 for an account that had no record. |
| SpaceFactions.Init | src/contract.ts:6-13 | The deployed state has all three totals at 0, no records, an empty log and cursor 0. It satisfies the reachable-state invariant. |
| SpaceFactions.GetSupportersSquare | src/contract.ts:15-18 | In a consistent ledger, the reported square total is the sum of the square counters over all records. |
| SpaceFactions.GetSupportersCircle | src/contract.ts:20-23 | In a consistent ledger, the reported circle total is the sum of the circle counters over all records. |
| SpaceFactions.GetSupportersTriangle | src/contract.ts:25-28 | In a consistent ledger, the reported triangle total is the sum of the triangle counters over all records. |
| SpaceFactions.GetSupportersData | src/contract.ts:30-33 | Returns exactly three numbers. Position `tag - 1` holds the total of the faction with that tag, so the order is square, circle, triangle. |
| SpaceFactions.GetMessagesStart | src/contract.ts:35-38 | Returns the stored log in slot order, which may not be arrival order after a wrap. It has at most 20 entries in a well-formed state. |
| SpaceFactions.GetUserSupportData | src/contract.ts:40-61 | The result always carries the queried account. Its counters are those of the stored record if there is one, and all zero otherwise. |
| SpaceFactions.AddToTotal | src/contract.ts:89-106 | Adds the amount to the chosen faction's global total only. The other totals, the records and the log are unchanged. |
| SpaceFactions.AddSupport | src/contract.ts:63-112 | A refused request leaves the whole state unchanged. An accepted one adds the amount to the matching total and to the caller's matching counter, starting from zero for a new caller. The other totals, the caller's other counters, every other account's record, the log and the cursor are unchanged. The caller's record is created if it was missing, and no record is removed. |
| SpaceFactions.AddMessageStart | src/contract.ts:114-128 | Below 20 entries, the message is appended and the cursor is unchanged. On a full log, only the slot at the cursor is overwritten, the length is unchanged, and the cursor advances to `(cursor + 1) mod length`. The ledger is unchanged. A well-formed log stays well formed. |
| SpaceFactions.Apply | src/contract.ts:63-128 | Dispatching either mutating call keeps the log within capacity and the cursor on a slot. |
| SpaceFactions.Run | src/contract.ts:114-128 | No sequence of calls from a well-formed state pushes the log past 20 entries or moves the cursor out of `[0, 20)`. |
| Invariants.AddSupportPreservesLedger | src/contract.ts:89-106 | After any `add_support`, each total still equals the sum of its counter over all records. Records stay filed under their own account and stay non-negative. |
| Invariants.TotalsNonNegative | src/contract.ts:89-106 | In a consistent ledger no faction total is negative, since each is a sum of non-negative counters. |
| Invariants.ApplyPreservesValid | src/contract.ts:63-128 | Each mutating call preserves the reachable-state invariant. |
| Invariants.RunPreservesValid | src/contract.ts:63-128 | Any sequence of mutating calls preserves the reachable-state invariant. |
| Invariants.ReachableStatesAreValid | src/contract.ts:6-13 | Every state reached from deployment has consistent ledger sums, a log of at most 20 entries and a cursor in `[0, 20)`. |
| Invariants.GrowsTransitive | src/contract.ts:89-106 | "Nothing decreased" composes across consecutive stretches of calls. |
| Invariants.ApplyGrows | src/contract.ts:63-128 | No single call lowers a total, removes a record, lowers any record's counter or shortens the log. |
| Invariants.RunGrows | src/contract.ts:63-128 | Across any sequence of calls, no total, stored counter or log length decreases, and no record disappears. |
| Invariants.AddSupportThenQuery | src/contract.ts:41-106 | After an accepted contribution, the caller's view is its previous view, zero-valued if it had no record, credited with the amount on the chosen faction. Every other account's view is unchanged. |
| Invariants.MessagesOfMessageCalls | src/contract.ts:114-128 | For a trace of `add_message_start` calls only, the messages that reach the log are exactly the calls' messages, in call order. |
| Invariants.RingStep | src/contract.ts:118-126 | One more message keeps the ring shape: message k sits in slot `k mod 20` until 20 later messages arrive, the length is `min(n, 20)`, and the cursor is the next slot to overwrite. |
| Invariants.RingOrder | src/contract.ts:63-128 | For any sequence of calls on an empty log, with `add_support` calls interleaved or not, let n be the number of messages. The length is `min(n, 20)`. The cursor is 0 before the first wrap and `n mod 20` after it. Each of the last `min(n, 20)` messages (message k) sits in slot `k mod 20`. |
| Scenarios.InitialViews | integration-tests/src/main.ava.ts:36-44 | A fresh contract reports 0 for every faction, an empty log and a zero record for any account. |
| Scenarios.SupportFromDifferentUsers | integration-tests/src/main.ava.ts:46-79 | Ali's 10 for square gives a square total of 10. Bob's 9999 for circle changes nothing. Bob's 50 for triangle and 15 for circle give the records (10,0,0) for Ali and (0,15,50) for Bob, and totals (10,15,50). |
| Scenarios.FirstMessage | integration-tests/src/main.ava.ts:81-90 | One message on an empty log gives a one-entry log holding that message. |
| Scenarios.ManyMessages | integration-tests/src/main.ava.ts:92-104 | After any calls from deployment carrying 22 messages, with support calls anywhere in between, the log has 20 entries. Slot 0 holds the 21st message and slot 1 the 22nd. |
| Scenarios.ManyMessageCalls | integration-tests/src/main.ava.ts:92-104 | After exactly 22 `add_message_start` calls from deployment, the log has 20 entries. Slot 0 holds the 21st call's message and slot 1 the 22nd's. |

## Left out

- Caller identity (`near.signerAccountId()`) is not resolved by the model. The signer is the explicit `caller` parameter. `AddMessageStart` takes it too, although the contract uses it only in its diagnostic log line.
- Diagnostic logging (`near.log`) is not modelled. It is a fire-and-forget side effect that never affects the state.
- The storage classes `LookupMap` and `Vector` are a Dafny `map` and `seq`. Their storage prefixes and serialization are not modelled, and neither are the `@NearBindgen`, `@view` and `@call` decorators. `./model` (the `Support` type) is not part of this model; the record's shape is taken from how the contract builds it.
- JavaScript `number` semantics are not modelled. Amounts and tags are unbounded integers. Non-integer tags (such as 1.5, which passes the range check but matches no branch) and loss of precision above 2^53 are not modelled.
- The view's branch where the account is present but the stored value is falsy is left out. It is unreachable with a consistent map, so the lookup is total.
- `Vector.replace` belongs to the near-sdk-js dependency, which is not part of this model. Its behaviour for an index outside the log is not modelled. Instead, `AddMessageStart` requires the cursor to name an existing slot when the log is full. No reachable state takes the out-of-range path (`Invariants.ReachableStatesAreValid`).
- The contract returns nothing from `add_support`, so a refusal is visible only in the log line. The model keeps this: `AddSupport` returns only the new state. The verdict is available separately as `Validate`.

## Notes

- The cursor wraps when it reaches the current log length (src/contract.ts:124), not a literal 20. The model follows the code. The two agree whenever the log is full, because the log never exceeds 20 entries.
