# MonoServer room state machine in Dafny

MonoServer keeps game rooms in memory for a multiplayer, bank-mediated money
game. Each room holds a roster of players, a transaction log and pending
requests to withdraw money from the bank, which other players vote on. This
project models the state changes behind the server's event handlers, with the
network layer stripped away:

- `Ledger` (ledger.dfy): the `Player`, `Transaction` and `BankRequest`
  records as values, the constants (the `"bank"` sentinel, the defaults 1500
  and 200, the vote threshold 2), the find-first player lookup every handler
  uses, and `TotalMoney`, the sum of all balances, with the lemmas that say
  how credits, appends and renames change it.
- `Rooms` (room.dfy): class `Room`, the `RoomData` record whose fields the
  handlers update in place. It has one method per handler body:
  `SetRoomData`, `StartGame`, `JoinGame`, `Pay`, `RequestFromBank` and
  `RespondToBankRequest`. Each method returns an `Outcome` in place of the
  events the handler emits: `Ok` with the notice sent besides the room
  snapshot, or `Err` with the error it reports. `Valid()` is the room
  invariant that every method keeps: at most one player per id, and every
  pending request stored under its own id, with fewer than two approvals and
  fewer than two rejections, for a beneficiary who is in the roster.
- `RoomRegistry` (registry.dfy): class `Registry`, the `rooms` table.
  Creation is first-writer-wins. `CheckRoom` is the availability check.
  `Find` is the guard every room event starts with: an empty or unknown room
  id yields `Missing(InvalidRoomId)`, which the handler reports. A handler
  is `Find` followed by the `Room` method on the room found.
- `Scenarios` (scenarios.dfy): client methods that follow a game round
  through these contracts. They cover a payment, a request approved by two
  votes and refused afterwards, a repeated voter, and start gating.

The model follows the code where it differs from the intended design:

- `pay` credits the recipient before it checks the payer. An unknown payer
  therefore leaves the recipient credited, with no debit and no transaction
  (main.py:241-251).
- Votes are not deduplicated. One voter approving twice resolves a request
  (main.py:332-337).
- A request approved while its beneficiary is absent is deleted without any
  credit, and only the room snapshot is sent (main.py:337-355). No handler
  as written removes a player or changes a player's id, so this branch is
  unreachable in the source. It is modelled because the code has it, and
  `Valid()` proves it unreachable: an approval always pays out.
- `setRoomData` is not gated on `started`. It reconfigures a running room
  too, and it sets `created` again (main.py:170-172).

## Model

| member | source | states |
|---|---|---|
| Ledger.FindPlayer | main.py:187-189 | the index of the first player with the given id, or none exactly when no player has it (the `next(...)` lookups at 188, 239, 242, 298 and 340) |
| Ledger.TotalMoneyCredit | main.py:247-254 | changing one balance by `delta` changes the sum of all balances by exactly `delta` |
| Ledger.TotalMoneyAppend | main.py:202-205 | appending a player adds that player's balance to the sum of all balances |
| Ledger.TotalMoneySameBalances | main.py:191-196 | a roster whose balances are unchanged position by position has the same total, whatever happens to names and flags |
| Rooms.Room.constructor | main.py:50-59 | a new room is not started and not configured, has amounts 1500 and 200, and has no players, transactions or pending requests |
| Rooms.Room.SetRoomData | main.py:160-173 | both amounts become the given values and `created` becomes true. `started`, players with their balances, transactions and pending requests are untouched, so the last call wins |
| Rooms.Room.StartGame | main.py:209-222 | succeeds exactly when the room is configured and not started, and then only `started` changes, to true. Otherwise it fails with `CannotStart` and nothing changes |
| Rooms.Room.JoinGame | main.py:176-206 | empty name or id: refused, no change. Known id: only that player's name and `joined` change, balances and total stay, even after the start. New id after the start: `GameAlreadyStarted`, no change. New id before the start: exactly one player is appended with the starting amount. Ids stay unique |
| Rooms.Room.Pay | main.py:225-284 | unknown non-bank recipient, or bank payment by an unknown payer: no change. Known recipient with an unknown payer: the recipient keeps the credit and the total rises. Success between players: credit then debit, total conserved, one transaction appended. Success to the bank: only the payer is debited, the total drops by the amount. In every case no other balance moves |
| Rooms.Room.RequestFromBank | main.py:287-311 | unknown player: error, no change. Otherwise exactly one request with no votes is stored under the given id for a player in the roster, and no balance changes |
| Rooms.Room.RespondToBankRequest | main.py:314-364 | an id that is not pending: error, no change. Otherwise the vote is appended to its side, duplicates included. At two approvals the request is deleted and its beneficiary, if present, is credited the amount with one transaction from the bank. Otherwise at two rejections it is deleted with no money change. Otherwise it stays pending with the vote added. Because every pending beneficiary is in the roster, an approval always pays out |
| RoomRegistry.Registry.constructor | main.py:15-16 | the process starts with no rooms |
| RoomRegistry.Registry.CreateRoom | main.py:71-82 | an id already present fails with `RoomAlreadyExists`, and the table and that room are unchanged. Otherwise exactly one fresh room in the default state is added, and every other entry stays |
| RoomRegistry.Registry.CheckRoom | main.py:85-89 | an id is reported available exactly when no room has it |
| RoomRegistry.Registry.Find | main.py:232-236 | `Missing(InvalidRoomId)` exactly when the id is empty or unknown. Otherwise the room stored under that id, which satisfies its invariant |

## Left out

- Flask, CORS and Socket.IO wiring, `emit`, `join_room`/`leave_room`, `print` and `socketio.run` (main.py:1-13, 367-368) are framework and I/O calls. Emitted events are modelled only as the returned `Outcome`. The room snapshot sent after every success is implied, and the point-to-point `paymentRecieved` event is not modelled separately from `PaymentSent`.
- `handle_join`, `handle_leave` and `handle_message` (main.py:93-133) change no room state. They only subscribe clients and relay chat.
- `handle_room_data` (main.py:136-157) is not modelled. As written it passes `creator=` (main.py:152), which is not a `RoomData` field, so it always raises before replacing a room.
- `to_dict` serialisation (main.py:26-27, 61-67) only formats snapshots for broadcast.
- `uuid.uuid4()` and `time.time()` are parameters: `txId`, `requestId` and `now`. The timestamp is an abstract integer. A `requestId` already pending is overwritten, as the dictionary assignment would do; nothing here assumes ids are fresh.
- Payload typing: `int(amount)` and the truthiness of `approved` are Python details, so `amount` is an `int` and `approved` is a `bool`. A missing payload field (`None`) is not modelled; ids and names are strings, and the empty string stands for a falsy value.
- Rooms.Room.JoinGame: reports an empty name or user id as `InvalidJoinPayload`, and a missing room goes through `Find` as `InvalidRoomId`. The source reports both with one combined message (main.py:182-184).
- Players are values in a sequence, not shared objects. The source only reaches a player through the room's list, so in-place updates become sequence updates. A payment to oneself applies the credit and then the debit to the same entry, as the source does.
- Concurrency and locking: the source has none, and each handler is one atomic sequential step here.
- Handler-level composition: no separate method wraps `Find` and a `Room` method per event. The room's contract applies to the room `Find` returns, and every other room is outside the method's `modifies` frame.
