/** One game room and the state changes its event handlers make to it: join
    or rejoin, configure, start, pay, request money from the bank and vote
    on such a request. Each handler returns an `Outcome` in place of the
    events it emits; an `Err` is what the handler reports to its caller. */
module Rooms {
  import opened Ledger

  datatype Error =
    | InvalidRoomId         // empty or unknown room id, for every room event
    | RoomAlreadyExists     // room creation with an id already present
    | InvalidJoinPayload    // joinGame with an empty player name or user id
    | GameAlreadyStarted    // joinGame for a new id after the start
    | CannotStart           // startGame before configuration or a second time
    | InvalidPlayerIds      // pay with an unknown recipient or an unknown payer
    | InvalidPlayerId       // requestFromBank for an unknown player
    | InvalidBankRequestId  // a vote on a request that is not pending

  /** The notification a successful handler sends besides the room snapshot. */
  datatype Notice =
    | RoomCreated
    | RoomData
    | PaymentSent(from: string, to: string, amount: int)
    | NewBankRequest(request: BankRequest)
    | BankRequestApproved(request: BankRequest)
    | BankRequestRejected(request: BankRequest)
    | BankRequestUpdated(request: BankRequest)

  datatype Outcome = Ok(notice: Notice) | Err(error: Error)

  /** The flags and configuration of a room, apart from its ledger. */
  datatype Config = Config(started: bool, created: bool, startingMoney: int, passGoMoney: int)

  class Room {
    const id: string
    var started: bool
    var created: bool
    var startingMoney: int
    var passGoMoney: int
    var players: seq<Player>
    var transactions: seq<Transaction>
    var bankRequests: map<string, BankRequest>

    /** At most one player per id, and every pending request is stored under
        its own id, is still short of the threshold on both sides and names
        a beneficiary who is in the roster. */
    ghost predicate Valid()
      reads this
    {
      UniqueIds(players) &&
      forall k :: k in bankRequests ==>
        bankRequests[k].id == k && Unresolved(bankRequests[k]) &&
        HasPlayer(players, bankRequests[k].playerId)
    }

    ghost function Settings(): Config
      reads this
    {
      Config(started, created, startingMoney, passGoMoney)
    }

    /** A new room: not started, not configured, default amounts, no
        players, no transactions, no pending requests. */
    constructor (id: string)
      ensures Valid()
      ensures this.id == id && !started && !created
      ensures startingMoney == DefaultStartingMoney && passGoMoney == DefaultPassGoMoney
      ensures players == [] && transactions == [] && bankRequests == map[]
    {
      this.id := id;
      started, created := false, false;
      startingMoney, passGoMoney := DefaultStartingMoney, DefaultPassGoMoney;
      players, transactions, bankRequests := [], [], map[];
    }

    /** setRoomData: overwrites both amounts and marks the room configured,
        before or after the start; the ledger is left alone. */
    method SetRoomData(newStartingMoney: int, newPassGoMoney: int) returns (o: Outcome)
      requires Valid()
      modifies this
      ensures Valid() && o == Ok(RoomData)
      ensures startingMoney == newStartingMoney && passGoMoney == newPassGoMoney && created
      ensures started == old(started)
      ensures players == old(players) && transactions == old(transactions)
      ensures bankRequests == old(bankRequests)
    {
      startingMoney := newStartingMoney;
      passGoMoney := newPassGoMoney;
      created := true;
      o := Ok(RoomData);
    }

    /** startGame: the one-way switch from not started to started, allowed
        only once the room has been configured. */
    method StartGame() returns (o: Outcome)
      requires Valid()
      modifies this
      ensures Valid()
      ensures o.Ok? <==> old(created && !started)
      ensures o.Ok? ==> o == Ok(RoomData) && started && created && Settings() == old(Settings()).(started := true)
      ensures o.Err? ==> o == Err(CannotStart) && Settings() == old(Settings())
      ensures players == old(players) && transactions == old(transactions)
      ensures bankRequests == old(bankRequests)
    {
      if !created || started {
        return Err(CannotStart);
      }
      started := true;
      o := Ok(RoomData);
    }

    /** joinGame: a known id rejoins (new name, `joined` set) at any time,
        balance untouched; an unknown id is appended with the starting
        amount, but only before the start. */
    method JoinGame(userId: string, playerName: string) returns (o: Outcome)
      requires Valid()
      modifies this
      ensures Valid() && Settings() == old(Settings())
      ensures transactions == old(transactions) && bankRequests == old(bankRequests)
      // an empty name or id is refused
      ensures userId == "" || playerName == "" ==> o == Err(InvalidJoinPayload) && players == old(players)
      // rejoin: only that player's name and flag change, even after the start
      ensures userId != "" && playerName != "" && old(FindPlayer(players, userId)).Some? ==>
        var k := old(FindPlayer(players, userId)).value;
        o == Ok(RoomData) &&
        players == old(players)[k := old(players)[k].(name := playerName, joined := true)] &&
        (forall j :: 0 <= j < |players| ==> players[j].money == old(players)[j].money) &&
        TotalMoney(players) == old(TotalMoney(players))
      // a new id after the start is refused
      ensures userId != "" && playerName != "" && old(FindPlayer(players, userId)).None? && old(started) ==>
        o == Err(GameAlreadyStarted) && players == old(players)
      // a new id before the start is appended, seeded with the starting amount
      ensures userId != "" && playerName != "" && old(FindPlayer(players, userId)).None? && !old(started) ==>
        o == Ok(RoomData) &&
        players == old(players) + [Player(playerName, startingMoney, true, userId)] &&
        TotalMoney(players) == old(TotalMoney(players)) + startingMoney
      // a successful join leaves an entry for the id, marked joined; Valid() makes it the only one
      ensures o.Ok? ==> exists j :: 0 <= j < |players| && players[j].id == userId && players[j].joined
    {
      if userId == "" || playerName == "" {
        return Err(InvalidJoinPayload);
      }
      var existing := FindPlayer(players, userId);
      if existing.Some? {
        var k := existing.value;
        var before := players;
        players := players[k := players[k].(name := playerName, joined := true)];
        TotalMoneySameBalances(players, before);
        RosterKeepsPlayers(before, players);
        assert players[k].id == userId && players[k].joined;
        return Ok(RoomData);
      }
      if started {
        return Err(GameAlreadyStarted);
      }
      var p := Player(playerName, startingMoney, true, userId);
      TotalMoneyAppend(players, p);
      ghost var before := players;
      players := players + [p];
      RosterKeepsPlayers(before, players);
      assert players[|players| - 1] == p;
      o := Ok(RoomData);
    }

    /** pay: the payer is looked up first but checked only after the
        recipient (unless it is the bank) has been found and credited, so a
        missing payer is reported with the credit already made, and it
        stays. On success the payer is debited, with no floor, and one
        transaction is logged. */
    method Pay(fromId: string, toId: string, amount: int, txId: string, now: int) returns (o: Outcome)
      requires Valid()
      modifies this
      ensures Valid() && Settings() == old(Settings()) && bankRequests == old(bankRequests)
      ensures o.Ok? <==> old(FindPlayer(players, fromId)).Some? && (toId == Bank || old(FindPlayer(players, toId)).Some?)
      ensures o.Err? ==> o == Err(InvalidPlayerIds) && transactions == old(transactions)
      // unknown recipient: nothing changes
      ensures toId != Bank && old(FindPlayer(players, toId)).None? ==> players == old(players)
      // payment to the bank with an unknown payer: nothing changes
      ensures toId == Bank && old(FindPlayer(players, fromId)).None? ==> players == old(players)
      // known recipient, unknown payer: the recipient keeps the credit
      ensures toId != Bank && old(FindPlayer(players, toId)).Some? && old(FindPlayer(players, fromId)).None? ==>
        players == Credit(old(players), old(FindPlayer(players, toId)).value, amount) &&
        TotalMoney(players) == old(TotalMoney(players)) + amount
      // success between two players: credit then debit, total conserved
      ensures o.Ok? && toId != Bank ==>
        var f, t := old(FindPlayer(players, fromId)).value, old(FindPlayer(players, toId)).value;
        players == Credit(Credit(old(players), t, amount), f, -amount) &&
        TotalMoney(players) == old(TotalMoney(players)) &&
        transactions == old(transactions) + [Transaction(txId, old(players)[f].name, old(players)[t].name, fromId, toId, amount, now)] &&
        o == Ok(PaymentSent(old(players)[f].name, old(players)[t].name, amount))
      // success to the bank: only the payer's balance drops
      ensures o.Ok? && toId == Bank ==>
        var f := old(FindPlayer(players, fromId)).value;
        players == Credit(old(players), f, -amount) &&
        TotalMoney(players) == old(TotalMoney(players)) - amount &&
        transactions == old(transactions) + [Transaction(txId, old(players)[f].name, BankName, fromId, Bank, amount, now)] &&
        o == Ok(PaymentSent(old(players)[f].name, BankName, amount))
      // no balance other than the payer's and the recipient's moves
      ensures |players| == |old(players)|
      ensures forall j :: 0 <= j < |players| && players[j].id != fromId && players[j].id != toId ==> players[j] == old(players)[j]
    {
      var from := FindPlayer(players, fromId);
      var toName := BankName;
      if toId != Bank {
        var to := FindPlayer(players, toId);
        if to.None? {
          return Err(InvalidPlayerIds);
        }
        TotalMoneyCredit(players, to.value, amount);
        RosterKeepsPlayers(players, Credit(players, to.value, amount));
        players := Credit(players, to.value, amount);
        toName := players[to.value].name;
      }
      if from.None? {
        return Err(InvalidPlayerIds);
      }
      TotalMoneyCredit(players, from.value, -amount);
      RosterKeepsPlayers(players, Credit(players, from.value, -amount));
      players := Credit(players, from.value, -amount);
      var fromName := players[from.value].name;
      transactions := transactions + [Transaction(txId, fromName, toName, fromId, toId, amount, now)];
      o := Ok(PaymentSent(fromName, toName, amount));
    }

    /** requestFromBank: a known player opens a pending request with no
        votes under the fresh id `requestId`; no balance changes. */
    method RequestFromBank(playerId: string, amount: int, requestId: string) returns (o: Outcome)
      requires Valid()
      modifies this
      ensures Valid() && Settings() == old(Settings())
      ensures players == old(players) && transactions == old(transactions)
      ensures old(FindPlayer(players, playerId)).None? ==>
        o == Err(InvalidPlayerId) && bankRequests == old(bankRequests)
      ensures old(FindPlayer(players, playerId)).Some? ==>
        var r := BankRequest(requestId, playerId, amount, [], []);
        o == Ok(NewBankRequest(r)) && bankRequests == old(bankRequests)[requestId := r]
    {
      if FindPlayer(players, playerId).None? {
        return Err(InvalidPlayerId);
      }
      var r := BankRequest(requestId, playerId, amount, [], []);
      bankRequests := bankRequests[requestId := r];
      o := Ok(NewBankRequest(r));
    }

    /** respondToBankRequest: records the vote, then resolves the request
        with approvals checked first. An approved request is deleted, and
        its beneficiary is credited and the credit logged as a transaction
        from the bank; a rejected one is deleted; otherwise it stays pending
        with the vote added. The branch for a beneficiary missing from the
        room is kept because the code has it, but `Valid()` shows that no
        handler can reach it. */
    method RespondToBankRequest(requestId: string, voterId: string, approved: bool, txId: string, now: int)
      returns (o: Outcome)
      requires Valid()
      modifies this
      ensures Valid() && Settings() == old(Settings())
      ensures requestId !in old(bankRequests) ==>
        o == Err(InvalidBankRequestId) && bankRequests == old(bankRequests) &&
        players == old(players) && transactions == old(transactions)
      // the beneficiary is always present, so an approval always pays out
      ensures requestId in old(bankRequests) ==>
        var r := Vote(old(bankRequests)[requestId], voterId, approved);
        |r.approvals| >= VoteThreshold ==> o == Ok(BankRequestApproved(r))
      ensures requestId in old(bankRequests) ==>
        var r := Vote(old(bankRequests)[requestId], voterId, approved);
        if |r.approvals| >= VoteThreshold then
          bankRequests == old(bankRequests) - {requestId} &&
          match old(FindPlayer(players, r.playerId))
          case Some(k) =>
            players == Credit(old(players), k, r.amount) &&
            TotalMoney(players) == old(TotalMoney(players)) + r.amount &&
            transactions == old(transactions) + [Transaction(txId, BankName, old(players)[k].name, Bank, r.playerId, r.amount, now)] &&
            o == Ok(BankRequestApproved(r))
          case None =>
            players == old(players) && transactions == old(transactions) && o == Ok(RoomData)
        else if |r.rejections| >= VoteThreshold then
          bankRequests == old(bankRequests) - {requestId} &&
          players == old(players) && transactions == old(transactions) &&
          o == Ok(BankRequestRejected(r))
        else
          bankRequests == old(bankRequests)[requestId := r] &&
          players == old(players) && transactions == old(transactions) &&
          o == Ok(BankRequestUpdated(r))
    {
      if requestId !in bankRequests {
        return Err(InvalidBankRequestId);
      }
      var r := Vote(bankRequests[requestId], voterId, approved);
      assert r.id == requestId && HasPlayer(players, r.playerId);
      if |r.approvals| >= VoteThreshold {
        var requester := FindPlayer(players, r.playerId);
        if requester.Some? {
          var k := requester.value;
          TotalMoneyCredit(players, k, r.amount);
          RosterKeepsPlayers(players, Credit(players, k, r.amount));
          players := Credit(players, k, r.amount);
          transactions := transactions + [Transaction(txId, BankName, players[k].name, Bank, players[k].id, r.amount, now)];
          o := Ok(BankRequestApproved(r));
        } else {
          o := Ok(RoomData);
        }
        bankRequests := bankRequests - {requestId};
      } else if |r.rejections| >= VoteThreshold {
        bankRequests := bankRequests - {requestId};
        o := Ok(BankRequestRejected(r));
      } else {
        bankRequests := bankRequests[requestId := r];
        o := Ok(BankRequestUpdated(r));
      }
    }
  }
}
