/** Clients of the registry and the room that follow one game round from
    room creation to an approved bank request, using only the contracts of
    the operations they call. */
module Scenarios {
  import opened Ledger
  import opened Rooms
  import opened RoomRegistry

  /** Room "R1" with the default starting amount: p1 and p2 join with 1500
      each, and p1 pays p2 300. */
  method WorkedPayment() {
    var reg := new Registry();
    var o := reg.CreateRoom("R1");
    assert o == Ok(RoomCreated);
    var found := reg.Find("R1");
    assert found.Found?;
    var room := found.room;
    var missing := reg.Find("R9");
    assert missing == Missing(InvalidRoomId);

    o := room.JoinGame("p1", "Ann");
    o := room.JoinGame("p2", "Bo");
    assert room.players == [Player("Ann", 1500, true, "p1"), Player("Bo", 1500, true, "p2")];

    o := room.Pay("p1", "p2", 300, "t1", 10);
    assert room.players[0].money == 1200 && room.players[1].money == 1800;
    assert room.transactions == [Transaction("t1", "Ann", "Bo", "p1", "p2", 300, 10)];
  }

  /** p1's request for 100 is approved by p2 and p3 and paid out exactly
      once: a vote arriving after the approval is refused. */
  method WorkedBankRequest() {
    var room := new Room("R1");
    var o := room.JoinGame("p1", "Ann");
    assert room.players == [Player("Ann", 1500, true, "p1")];

    o := room.RequestFromBank("p1", 100, "q1");
    o := room.RespondToBankRequest("q1", "p2", true, "t2", 20);
    assert [] + ["p2"] == ["p2"];
    assert o == Ok(BankRequestUpdated(BankRequest("q1", "p1", 100, ["p2"], [])));
    o := room.RespondToBankRequest("q1", "p3", true, "t3", 30);
    assert o.Ok? && o.notice.BankRequestApproved?;
    assert room.players == [Player("Ann", 1600, true, "p1")];
    assert room.transactions == [Transaction("t3", BankName, "Ann", Bank, "p1", 100, 30)];
    assert room.bankRequests == map[];

    o := room.RespondToBankRequest("q1", "p2", true, "t4", 40);
    assert o == Err(InvalidBankRequestId) && room.players[0].money == 1600;
  }

  /** One approval and one rejection leave a request pending; the same voter
      approving twice is counted twice and resolves it. */
  method RepeatedVoter() {
    var room := new Room("R2");
    var o := room.JoinGame("p1", "Ann");
    o := room.RequestFromBank("p1", 50, "q");
    o := room.RespondToBankRequest("q", "p2", true, "t1", 1);
    o := room.RespondToBankRequest("q", "p3", false, "t2", 2);
    assert "q" in room.bankRequests;
    o := room.RespondToBankRequest("q", "p2", true, "t3", 3);
    assert o.Ok? && o.notice.BankRequestApproved?;
    assert room.players[0].money == 1550 && "q" !in room.bankRequests;
  }

  /** Once started, a room refuses new players but still lets known ones
      back in, and cannot be started again. */
  method StartGating() {
    var room := new Room("R3");
    var o := room.StartGame();
    assert o == Err(CannotStart);
    o := room.JoinGame("p1", "Ann");
    o := room.SetRoomData(1000, 100);
    o := room.StartGame();
    assert o == Ok(RoomData) && room.started;
    o := room.JoinGame("p2", "Bo");
    assert o == Err(GameAlreadyStarted) && |room.players| == 1;
    o := room.JoinGame("p1", "Annie");
    assert o == Ok(RoomData) && room.players == [Player("Annie", 1500, true, "p1")];
    o := room.StartGame();
    assert o == Err(CannotStart) && room.started;
  }
}
