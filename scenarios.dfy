/** Concrete runs of the handlers, as a user of the bot would see them. */
module Scenarios {
  import opened Types
  import opened Market
  import opened Economy
  import opened Leaderboard

  /** Mining twice ten seconds apart: the first succeeds and pays 1 to 10
      coins, the second reports 50 seconds left and pays nothing. */
  method MiningTwiceTenSecondsApart(id: UserId, t: int, coinsMined: int, experienceGained: int, found: bool)
    returns (first: GatherOutcome, second: GatherOutcome, coinsAfterFirst: int, coinsAfterSecond: int)
    requires 1 <= coinsMined <= 10 && 1 <= experienceGained <= 5
    ensures first.Mined? && 1 <= coinsAfterFirst <= 10
    ensures second == ActionCoolingDown(50000)
    ensures coinsAfterSecond == coinsAfterFirst
  {
    var bot := new Bot();
    bot.profiles := map[id := NewProfile(id, "miner", "0001")];
    first := bot.Mine(id, "miner", "0001", t, coinsMined, experienceGained, found);
    coinsAfterFirst := bot.profiles[id].coins;
    second := bot.Mine(id, "miner", "0001", t + 10000, 10, 5, true);
    coinsAfterSecond := bot.profiles[id].coins;
  }

  /** Selling five wood with no coins and no wood: nothing to sell, and the
      balance stays 0. */
  method SellingWoodWithoutWood(id: UserId) returns (o: SellOutcome, coins: int)
    ensures o == NothingToSell(Wood)
    ensures coins == 0
  {
    var bot := new Bot();
    bot.profiles := map[id := NewProfile(id, "seller", "0002")];
    o := bot.Sell(id, "wood", Parsed(Some(5)));
    coins := bot.profiles[id].coins;
  }

  /** Selling all of a holding empties the slot and pays the full value. */
  method SellingAllDiamonds(id: UserId, held: int) returns (o: SellOutcome, left: int, coins: int)
    requires held > 0
    ensures o == Sold(Diamond, held, held * 120)
    ensures left == 0 && coins == held * 120
  {
    var bot := new Bot();
    var p := NewProfile(id, "seller", "0003");
    bot.profiles := map[id := p.(inventory := p.inventory.Add(Diamond, held))];
    o := bot.Sell(id, "diamond", All);
    left := bot.profiles[id].inventory.Of(Diamond);
    coins := bot.profiles[id].coins;
  }

  /** Profiles at levels 3, 1 and 2 are listed as 3, 2, 1. */
  method ChattersByLevel() returns (rows: seq<ChatterRow>)
    ensures |rows| == 3
    ensures rows[0].level == 3 && rows[1].level == 2 && rows[2].level == 1
    ensures rows[0].rank == 1 && rows[1].rank == 2 && rows[2].rank == 3
  {
    var a := NewProfile("a", "a", "1").(level := 3, experience := 900);
    var b := NewProfile("b", "b", "2").(level := 1, experience := 40);
    var c := NewProfile("c", "c", "3").(level := 2, experience := 400);
    rows := TopChatters([a, b, c]);
    var r := Rank(Chatters, [a, b, c]);
    assert multiset(r) == multiset{a, b, c};
    assert a in r && b in r && c in r;
    assert r[0] == a && r[1] == c && r[2] == b by {
      var ia :| 0 <= ia < 3 && r[ia] == a;
      var ib :| 0 <= ib < 3 && r[ib] == b;
      var ic :| 0 <= ic < 3 && r[ic] == c;
      assert Outranks(Chatters, r[0], r[1]) && Outranks(Chatters, r[1], r[2]);
    }
  }

  /** Two profiles at the same level: the one with more experience is listed
      first, whatever order the documents come in. */
  method ChattersSameLevel() returns (rows: seq<ChatterRow>)
    ensures |rows| == 2
    ensures rows[0].username == "c" && rows[0].experience == 450
    ensures rows[1].username == "d" && rows[1].experience == 400
  {
    var c := NewProfile("c", "c", "3").(level := 2, experience := 450);
    var d := NewProfile("d", "d", "4").(level := 2, experience := 400);
    rows := TopChatters([d, c]);
    assert [d, c][1..] == [c];
    assert Rank(Chatters, [c]) == [c];
    assert Rank(Chatters, [d, c]) == Insert(Chatters, d, [c]) == [c, d];
  }

  /** A negative donation passes both checks of the transfer: the donor
      gains and the receiver's balance drops below zero. */
  method NegativeDonationOverdraws(donor: UserId, receiver: UserId) returns (o: DonateOutcome, donorCoins: int, receiverCoins: int)
    requires donor != receiver
    ensures o == Donated(-5)
    ensures donorCoins == 5 && receiverCoins == -5
  {
    var bot := new Bot();
    bot.profiles := map[donor := NewProfile(donor, "giver", "0004"), receiver := NewProfile(receiver, "taker", "0005")];
    o := bot.Donate(donor, Some(-5), Some(Mention(receiver, "taker", "0005")));
    donorCoins := bot.profiles[donor].coins;
    receiverCoins := bot.profiles[receiver].coins;
  }
}
