/** The values held by one game room: players, ledger entries and pending
    bank requests, together with the find-first player lookup that every
    handler uses and the total of all balances that payments move around. */
module Ledger {

  datatype Option<+T> = None | Some(value: T)

  /** Sentinel id of the bank: a payment to it destroys money, and an
      approved bank request is recorded as coming from it. */
  const Bank: string := "bank"
  /** Display name recorded for the bank in a transaction. */
  const BankName: string := "Bank"

  /** Defaults of a freshly created room. */
  const DefaultStartingMoney: int := 1500
  const DefaultPassGoMoney: int := 200

  /** Number of votes of one kind that resolves a bank request, whatever the
      size of the room. */
  const VoteThreshold: nat := 2

  /** A player's balance may go negative: nothing enforces a floor. */
  datatype Player = Player(name: string, money: int, joined: bool, id: string)

  /** One completed transfer. `timestamp` is an abstract clock reading. */
  datatype Transaction = Transaction(
    id: string,
    fromPlayer: string,
    toPlayer: string,
    fromPlayerId: string,
    toPlayerId: string,
    amount: int,
    timestamp: int)

  /** A pending withdrawal from the bank for `playerId`. The vote lists keep
      every vote cast, repeated voters included. */
  datatype BankRequest = BankRequest(
    id: string,
    playerId: string,
    amount: int,
    approvals: seq<string>,
    rejections: seq<string>)

  /** A request that has not reached the threshold on either side; only such
      requests are ever kept in a room. */
  predicate Unresolved(r: BankRequest) {
    |r.approvals| < VoteThreshold && |r.rejections| < VoteThreshold
  }

  /** The request with one more vote recorded on the side `approved` picks. */
  function Vote(r: BankRequest, voter: string, approved: bool): BankRequest {
    if approved then r.(approvals := r.approvals + [voter])
    else r.(rejections := r.rejections + [voter])
  }

  /** Index of the first player whose id is `id`, scanning from the front. */
  function FindPlayer(ps: seq<Player>, id: string): (r: Option<nat>)
    ensures r.Some? ==> r.value < |ps| && ps[r.value].id == id
    ensures r.Some? ==> forall j :: 0 <= j < r.value ==> ps[j].id != id
    ensures r.None? ==> forall j :: 0 <= j < |ps| ==> ps[j].id != id
  {
    if ps == [] then None
    else if ps[0].id == id then Some(0)
    else match FindPlayer(ps[1..], id)
      case None => None
      case Some(k) => Some(k + 1)
  }

  /** At most one player per id. */
  ghost predicate UniqueIds(ps: seq<Player>) {
    forall i, j :: 0 <= i < j < |ps| ==> ps[i].id != ps[j].id
  }

  /** Some player in the roster has id `id`. */
  ghost predicate HasPlayer(ps: seq<Player>, id: string) {
    exists j :: 0 <= j < |ps| && ps[j].id == id
  }

  /** A roster that keeps the ids of `ps` in place, and may add more after
      them, still has every player `ps` has. */
  lemma RosterKeepsPlayers(ps: seq<Player>, qs: seq<Player>)
    requires |ps| <= |qs|
    requires forall i :: 0 <= i < |ps| ==> ps[i].id == qs[i].id
    ensures forall id :: HasPlayer(ps, id) ==> HasPlayer(qs, id)
  {
    forall id | HasPlayer(ps, id) ensures HasPlayer(qs, id) {
      var j :| 0 <= j < |ps| && ps[j].id == id;
      assert qs[j].id == id;
    }
  }

  /** The sum of all balances. */
  function TotalMoney(ps: seq<Player>): int {
    if ps == [] then 0 else ps[0].money + TotalMoney(ps[1..])
  }

  /** The roster with `delta` added to the balance of player `i`. */
  function Credit(ps: seq<Player>, i: nat, delta: int): seq<Player>
    requires i < |ps|
  {
    ps[i := ps[i].(money := ps[i].money + delta)]
  }

  /** Changing one balance by `delta` changes the total by exactly `delta`. */
  lemma {:induction false} TotalMoneyCredit(ps: seq<Player>, i: nat, delta: int)
    requires i < |ps|
    ensures TotalMoney(Credit(ps, i, delta)) == TotalMoney(ps) + delta
  {
    if i == 0 {
      assert Credit(ps, i, delta)[1..] == ps[1..];
    } else {
      TotalMoneyCredit(ps[1..], i - 1, delta);
      assert Credit(ps, i, delta)[1..] == Credit(ps[1..], i - 1, delta);
    }
  }

  /** Adding a player adds that player's balance to the total. */
  lemma {:induction false} TotalMoneyAppend(ps: seq<Player>, p: Player)
    ensures TotalMoney(ps + [p]) == TotalMoney(ps) + p.money
  {
    if ps == [] {
      assert ([] + [p])[1..] == [];
    } else {
      assert (ps + [p])[1..] == ps[1..] + [p];
      TotalMoneyAppend(ps[1..], p);
    }
  }

  /** Two rosters with the same balances, position by position, have the
      same total whatever their names, flags and ids. */
  lemma {:induction false} TotalMoneySameBalances(ps: seq<Player>, qs: seq<Player>)
    requires |ps| == |qs|
    requires forall i :: 0 <= i < |ps| ==> ps[i].money == qs[i].money
    ensures TotalMoney(ps) == TotalMoney(qs)
  {
    if ps != [] {
      TotalMoneySameBalances(ps[1..], qs[1..]);
    }
  }
}
