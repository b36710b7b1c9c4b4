/** The bot's mutable state and its state-changing handlers: the experience
    grant on every chat message, the daily claim, the three gated actions,
    the donation transfer, selling, and the inventory listing. The profile
    collection, the activity collection and the in-process map of last
    experience grants are fields of one object; each handler is one atomic
    step on them. Clock readings and random draws come in as parameters. */
module Economy {
  import opened Types
  import opened Progression
  import opened Timing
  import opened Market

  const DailyCoins := 50
  const DailyXp := 100

  /** A profile as the handlers keep it: experience never negative, level at
      least the default 1 and never above what its experience allows (unless
      it is still the default), no inventory slot below zero. */
  predicate WellFormed(p: Profile) {
    && p.experience >= 0
    && p.level >= 1
    && (p.level == 1 || p.level <= LevelFor(p.experience))
    && p.inventory.NonNegative()
  }

  /** The activity record the upsert of mine, chop and fish works on. */
  function ActivityOf(store: map<UserId, Activity>, id: UserId): Activity {
    if id in store then store[id] else NewActivity
  }

  /** The profile the message handler's upsert returns: the stored one with
      the current name and tag, or a fresh one. */
  function Refreshed(store: map<UserId, Profile>, id: UserId, username: string, discriminator: string): (p: Profile)
    ensures p.username == username && p.discriminator == discriminator && p.userId == (if id in store then store[id].userId else id)
    ensures id in store ==> p == store[id].(username := username, discriminator := discriminator)
    ensures id !in store ==> p == NewProfile(id, username, discriminator)
  {
    if id in store then store[id].(username := username, discriminator := discriminator)
    else NewProfile(id, username, discriminator)
  }

  /** Coins a store holds for a user, 0 when the user has no profile yet. */
  function CoinsOf(store: map<UserId, Profile>, id: UserId): int {
    if id in store then store[id].coins else 0
  }

  datatype XpOutcome = IgnoredBot | Throttled | Granted(levelUp: Option<int>)

  datatype DailyOutcome = DailyNoProfile | TooSoon(wait: Wait) | Claimed

  datatype GatherOutcome =
    | ActionCoolingDown(waitMs: int)
    | Mined(coins: int, experience: int, diamonds: int)
    | Chopped(wood: int, experience: int, apples: int)
    | Fished(fish: int, experience: int, puffers: int)

  datatype DonateOutcome = DonateUsage | DonorNoProfile | InsufficientCoins | Donated(amount: int)

  datatype SellOutcome =
    | NoItemGiven
    | SellerNoProfile
    | InvalidItem
    | NothingToSell(item: Item)
    | InvalidAmount(item: Item)
    | Sold(item: Item, quantity: int, earned: int)

  datatype BagLine = BagLine(item: Item, amount: int)

  datatype BagOutcome = BagNoProfile | EmptyBag | Listing(lines: seq<BagLine>)

  /** `lines` lists exactly the positive slots of `inv`, in schema order,
      each with its quantity. */
  ghost predicate ListsPositiveSlots(inv: Inventory, lines: seq<BagLine>) {
    && (forall k :: 0 <= k < |lines| ==> lines[k].amount == inv.Of(lines[k].item) > 0)
    && (forall k, l :: 0 <= k < l < |lines| ==> Index(lines[k].item) < Index(lines[l].item))
    && (forall it :: inv.Of(it) > 0 ==> exists k :: 0 <= k < |lines| && lines[k].item == it)
  }

  /** The lines the bag loop has produced after visiting the first `n`
      slots in schema order. */
  function BagLines(inv: Inventory, n: nat): seq<BagLine>
    requires n <= |AllItems|
  {
    if n == 0 then []
    else
      var it := AllItems[n - 1];
      BagLines(inv, n - 1) + (if inv.Of(it) > 0 then [BagLine(it, inv.Of(it))] else [])
  }

  /** After visiting the first `n` slots, every line holds a positive
      slot among them with its quantity, in schema order. */
  lemma {:induction false} BagLinesSound(inv: Inventory, n: nat)
    requires n <= |AllItems|
    ensures forall k :: 0 <= k < |BagLines(inv, n)| ==>
              BagLines(inv, n)[k].amount == inv.Of(BagLines(inv, n)[k].item) > 0
              && Index(BagLines(inv, n)[k].item) < n
    ensures forall k, l :: 0 <= k < l < |BagLines(inv, n)| ==>
              Index(BagLines(inv, n)[k].item) < Index(BagLines(inv, n)[l].item)
  {
    if n > 0 {
      BagLinesSound(inv, n - 1);
      assert Index(AllItems[n - 1]) == n - 1;
    }
  }

  /** After visiting the first `n` slots, every positive slot among them
      has a line. */
  lemma {:induction false} BagLinesComplete(inv: Inventory, n: nat, it: Item)
    requires n <= |AllItems|
    requires Index(it) < n && inv.Of(it) > 0
    ensures exists k :: 0 <= k < |BagLines(inv, n)| && BagLines(inv, n)[k].item == it
  {
    var prev, lines := BagLines(inv, n - 1), BagLines(inv, n);
    assert lines == prev + (if inv.Of(AllItems[n - 1]) > 0 then [BagLine(AllItems[n - 1], inv.Of(AllItems[n - 1]))] else []);
    if Index(it) == n - 1 {
      assert lines[|lines| - 1].item == it;
    } else {
      BagLinesComplete(inv, n - 1, it);
      var k :| 0 <= k < |prev| && prev[k].item == it;
      assert lines[k] == prev[k];
    }
  }

  class Bot {
    /** The `User` collection, by user id. */
    var profiles: map<UserId, Profile>
    /** The `Mining` collection, by user id. */
    var activities: map<UserId, Activity>
    /** The in-process map from user id to the time of the last experience grant. */
    var xpGrants: map<UserId, int>

    ghost predicate Valid()
      reads this
    {
      forall id :: id in profiles ==> profiles[id].userId == id && WellFormed(profiles[id])
    }

    /** No balance is below zero. */
    ghost predicate Solvent()
      reads this
    {
      forall id :: id in profiles ==> profiles[id].coins >= 0
    }

    constructor ()
      ensures Valid() && Solvent()
      ensures profiles == map[] && activities == map[] && xpGrants == map[]
    {
      profiles := map[];
      activities := map[];
      xpGrants := map[];
    }

    /** Experience for a chat message: ignored for bots and within a minute
        of the user's last grant; otherwise the profile is upserted with the
        current name and tag, gains 20 experience, its level is ratcheted,
        and the grant time is recorded. */
    method OnMessage(id: UserId, username: string, discriminator: string, isBot: bool, now: int)
      returns (o: XpOutcome)
      modifies this
      ensures activities == old(activities)
      ensures isBot ==> o == IgnoredBot && profiles == old(profiles) && xpGrants == old(xpGrants)
      ensures !isBot && XpCooling(old(xpGrants), id, now) ==>
                o == Throttled && profiles == old(profiles) && xpGrants == old(xpGrants)
      ensures !isBot && !XpCooling(old(xpGrants), id, now) ==>
                var before := Refreshed(old(profiles), id, username, discriminator);
                var xp := before.experience + XpPerMessage;
                && xpGrants == old(xpGrants)[id := now]
                && profiles == old(profiles)[id := before.(experience := xp, level := Ratchet(before.level, xp))]
                && o == Granted(if Ratchet(before.level, xp) > before.level then Some(Ratchet(before.level, xp)) else None)
      ensures !isBot && !XpCooling(old(xpGrants), id, now) && id in old(profiles) ==>
                && profiles[id].experience == old(profiles)[id].experience + 20
                && profiles[id].level >= old(profiles)[id].level
      ensures !isBot && !XpCooling(old(xpGrants), id, now) && old(Valid()) ==>
                profiles[id].level == Max(1, LevelFor(profiles[id].experience))
      ensures old(Valid()) ==> Valid()
      ensures old(Solvent()) ==> Solvent()
    {
      if isBot {
        return IgnoredBot;
      }
      if XpCooling(xpGrants, id, now) {
        return Throttled;
      }
      var user := Refreshed(profiles, id, username, discriminator);
      var before := user;
      user := user.(experience := user.experience + XpPerMessage);
      var level := Ratchet(user.level, user.experience);
      o := Granted(None);
      if level > user.level {
        user := user.(level := level);
        o := Granted(Some(level));
      }
      if old(Valid()) {
        assert WellFormed(before);
        RatchetSettles(before.level, before.experience, user.experience);
        LevelMonotone(before.experience, user.experience);
      }
      profiles := profiles[id := user];
      xpGrants := xpGrants[id := now];
    }

    /** The daily reward: nothing for a user without a profile or within 24
        hours of the last claim (then the wait is reported); otherwise 50
        coins and 100 experience, with the level left as it is. */
    method ClaimDaily(id: UserId, now: int) returns (o: DailyOutcome)
      modifies this
      ensures activities == old(activities) && xpGrants == old(xpGrants)
      ensures id !in old(profiles) ==> o == DailyNoProfile && profiles == old(profiles)
      ensures id in old(profiles) && DailyCooling(old(profiles)[id].lastDailyReward, now) ==>
                o == TooSoon(DailyWait(now - old(profiles)[id].lastDailyReward.value))
                && profiles == old(profiles)
      ensures id in old(profiles) && !DailyCooling(old(profiles)[id].lastDailyReward, now) ==>
                var p := old(profiles)[id];
                o == Claimed
                && profiles == old(profiles)[id := p.(coins := p.coins + DailyCoins,
                                                       experience := p.experience + DailyXp,
                                                       lastDailyReward := Some(now))]
      ensures old(Valid()) ==> Valid()
      ensures old(Solvent()) ==> Solvent()
    {
      if id !in profiles {
        return DailyNoProfile;
      }
      var user := profiles[id];
      if DailyCooling(user.lastDailyReward, now) {
        return TooSoon(DailyWait(now - user.lastDailyReward.value));
      }
      if user.experience >= 0 {
        LevelMonotone(user.experience, user.experience + DailyXp);
      }
      user := user.(coins := user.coins + DailyCoins, experience := user.experience + DailyXp);
      user := user.(lastDailyReward := Some(now));
      profiles := profiles[id := user];
      o := Claimed;
    }

    /** Mining: within a minute of the last mining only the wait is
        reported. Otherwise an existing profile gains the drawn coins (1 to
        10) and experience (1 to 5), a missing profile is created without
        them, a drop adds one diamond, and the mining time is recorded. */
    method Mine(id: UserId, username: string, discriminator: string, now: int,
                coinsMined: int, experienceGained: int, diamondFound: bool)
      returns (o: GatherOutcome)
      requires 1 <= coinsMined <= 10
      requires 1 <= experienceGained <= 5
      modifies this
      ensures xpGrants == old(xpGrants)
      ensures ActionCooling(ActivityOf(old(activities), id).lastMining, now) ==>
                o == ActionCoolingDown(ActionWaitMs(ActivityOf(old(activities), id).lastMining.value, now))
                && profiles == old(profiles) && activities == old(activities)
      ensures !ActionCooling(ActivityOf(old(activities), id).lastMining, now) ==>
                var act := ActivityOf(old(activities), id);
                var diamonds := if diamondFound then 1 else 0;
                && o == Mined(coinsMined, experienceGained, diamonds)
                && activities == old(activities)[id := act.(lastMining := Some(now))]
                && profiles == old(profiles)[id :=
                     if id in old(profiles) then
                       var p := old(profiles)[id];
                       p.(coins := p.coins + coinsMined,
                          experience := p.experience + experienceGained,
                          inventory := p.inventory.Add(Diamond, diamonds))
                     else
                       var p := NewProfile(id, username, discriminator);
                       p.(inventory := p.inventory.Add(Diamond, diamonds))]
      ensures old(Valid()) ==> Valid()
      ensures old(Solvent()) ==> Solvent()
    {
      var mining := ActivityOf(activities, id);
      if ActionCooling(mining.lastMining, now) {
        return ActionCoolingDown(ActionWaitMs(mining.lastMining.value, now));
      }
      var user;
      if id in profiles {
        user := profiles[id];
        if user.experience >= 0 {
          LevelMonotone(user.experience, user.experience + experienceGained);
        }
        user := user.(coins := user.coins + coinsMined, experience := user.experience + experienceGained);
      } else {
        user := NewProfile(id, username, discriminator);
      }
      var diamonds := 0;
      if diamondFound {
        diamonds := 1;
        user := user.(inventory := user.inventory.Add(Diamond, diamonds));
      }
      profiles := profiles[id := user];
      activities := activities[id := mining.(lastMining := Some(now))];
      o := Mined(coinsMined, experienceGained, diamonds);
    }

    /** Chopping: within a minute of the last chopping only the wait is
        reported. Otherwise an existing profile gains the drawn wood count w
        (1 to 4) as coins and the drawn experience (1 to 3), a missing profile
        is created without them, a drop adds 1 or 2 apples, w pieces of wood
        are added either way, and the chopping time is recorded. */
    method Chop(id: UserId, username: string, discriminator: string, now: int,
                woodChopped: int, experienceGained: int, appleFound: bool, applesDropped: int)
      returns (o: GatherOutcome)
      requires 1 <= woodChopped <= 4
      requires 1 <= experienceGained <= 3
      requires 1 <= applesDropped <= 2
      modifies this
      ensures xpGrants == old(xpGrants)
      ensures ActionCooling(ActivityOf(old(activities), id).lastChopping, now) ==>
                o == ActionCoolingDown(ActionWaitMs(ActivityOf(old(activities), id).lastChopping.value, now))
                && profiles == old(profiles) && activities == old(activities)
      ensures !ActionCooling(ActivityOf(old(activities), id).lastChopping, now) ==>
                var act := ActivityOf(old(activities), id);
                var apples := if appleFound then applesDropped else 0;
                && o == Chopped(woodChopped, experienceGained, apples)
                && activities == old(activities)[id := act.(lastChopping := Some(now))]
                && profiles == old(profiles)[id :=
                     if id in old(profiles) then
                       var p := old(profiles)[id];
                       p.(coins := p.coins + woodChopped,
                          experience := p.experience + experienceGained,
                          inventory := p.inventory.Add(Apple, apples).Add(Wood, woodChopped))
                     else
                       var p := NewProfile(id, username, discriminator);
                       p.(inventory := p.inventory.Add(Apple, apples).Add(Wood, woodChopped))]
      ensures old(Valid()) ==> Valid()
      ensures old(Solvent()) ==> Solvent()
    {
      var mining := ActivityOf(activities, id);
      if ActionCooling(mining.lastChopping, now) {
        return ActionCoolingDown(ActionWaitMs(mining.lastChopping.value, now));
      }
      var user;
      if id in profiles {
        user := profiles[id];
        if user.experience >= 0 {
          LevelMonotone(user.experience, user.experience + experienceGained);
        }
        user := user.(coins := user.coins + woodChopped, experience := user.experience + experienceGained);
      } else {
        user := NewProfile(id, username, discriminator);
      }
      var apples := 0;
      if appleFound {
        apples := applesDropped;
      }
      user := user.(inventory := user.inventory.Add(Apple, apples));
      user := user.(inventory := user.inventory.Add(Wood, woodChopped));
      profiles := profiles[id := user];
      activities := activities[id := mining.(lastChopping := Some(now))];
      o := Chopped(woodChopped, experienceGained, apples);
    }

    /** Fishing: within a minute of the last fishing only the wait is
        reported. Otherwise an existing profile gains the drawn experience
        (1 to 3) (the increment of an undeclared top-level `fish` path is
        dropped), a missing profile is created without it, a drop adds 1 or
        2 puffers, the drawn catch (1 to 4) is added to the fish slot either
        way, and the fishing time is recorded. */
    method Fish(id: UserId, username: string, discriminator: string, now: int,
                fishCaught: int, experienceGained: int, pufferFound: bool, puffersDropped: int)
      returns (o: GatherOutcome)
      requires 1 <= fishCaught <= 4
      requires 1 <= experienceGained <= 3
      requires 1 <= puffersDropped <= 2
      modifies this
      ensures xpGrants == old(xpGrants)
      ensures ActionCooling(ActivityOf(old(activities), id).lastFishing, now) ==>
                o == ActionCoolingDown(ActionWaitMs(ActivityOf(old(activities), id).lastFishing.value, now))
                && profiles == old(profiles) && activities == old(activities)
      ensures !ActionCooling(ActivityOf(old(activities), id).lastFishing, now) ==>
                var act := ActivityOf(old(activities), id);
                var puffers := if pufferFound then puffersDropped else 0;
                && o == Fished(fishCaught, experienceGained, puffers)
                && activities == old(activities)[id := act.(lastFishing := Some(now))]
                && profiles == old(profiles)[id :=
                     if id in old(profiles) then
                       var p := old(profiles)[id];
                       p.(experience := p.experience + experienceGained,
                          inventory := p.inventory.Add(Puffer, puffers).Add(Item.Fish, fishCaught))
                     else
                       var p := NewProfile(id, username, discriminator);
                       p.(inventory := p.inventory.Add(Puffer, puffers).Add(Item.Fish, fishCaught))]
      ensures old(Valid()) ==> Valid()
      ensures old(Solvent()) ==> Solvent()
    {
      var mining := ActivityOf(activities, id);
      if ActionCooling(mining.lastFishing, now) {
        return ActionCoolingDown(ActionWaitMs(mining.lastFishing.value, now));
      }
      var user;
      if id in profiles {
        user := profiles[id];
        if user.experience >= 0 {
          LevelMonotone(user.experience, user.experience + experienceGained);
        }
        user := user.(experience := user.experience + experienceGained);
      } else {
        user := NewProfile(id, username, discriminator);
      }
      var puffers := 0;
      if pufferFound {
        puffers := puffersDropped;
      }
      user := user.(inventory := user.inventory.Add(Puffer, puffers));
      user := user.(inventory := user.inventory.Add(Item.Fish, fishCaught));
      profiles := profiles[id := user];
      activities := activities[id := mining.(lastFishing := Some(now))];
      o := Fished(fishCaught, experienceGained, puffers);
    }

    /** The donation transfer. `amount` is what `parseInt` gave (None for
        NaN) and `target` the mentioned user. A zero or NaN amount, a missing
        mention, a donor without a profile, or a donor with fewer coins than
        the amount changes nothing. Otherwise the donor record is read, the
        receiver record is read (or made fresh), the donor is saved with the
        amount taken off, and then the receiver with the amount added. */
    method Donate(donorId: UserId, amount: Option<int>, target: Option<Mention>)
      returns (o: DonateOutcome)
      modifies this
      ensures activities == old(activities) && xpGrants == old(xpGrants)
      ensures amount.None? || amount == Some(0) || target.None? ==>
                o == DonateUsage && profiles == old(profiles)
      ensures amount.Some? && amount.value != 0 && target.Some? && donorId !in old(profiles) ==>
                o == DonorNoProfile && profiles == old(profiles)
      ensures amount.Some? && amount.value != 0 && target.Some? && donorId in old(profiles)
              && old(profiles)[donorId].coins < amount.value ==>
                o == InsufficientCoins && profiles == old(profiles)
      ensures amount.Some? && amount.value != 0 && target.Some? && donorId in old(profiles)
              && old(profiles)[donorId].coins >= amount.value ==>
                var n, t := amount.value, target.value.id;
                var d := old(profiles)[donorId];
                var r := if t in old(profiles) then old(profiles)[t]
                         else NewProfile(t, target.value.username, target.value.discriminator);
                && o == Donated(n)
                && profiles == old(profiles)[donorId := d.(coins := d.coins - n)][t := r.(coins := r.coins + n)]
                && (t != donorId ==>
                      profiles[donorId].coins + profiles[t].coins
                      == old(profiles)[donorId].coins + CoinsOf(old(profiles), t))
                && (t == donorId ==> profiles[donorId].coins == old(profiles)[donorId].coins + n)
      ensures old(Valid()) ==> Valid()
      ensures o.Donated? ==>
                profiles[target.value.id].coins == CoinsOf(old(profiles), target.value.id) + amount.value
      ensures old(Solvent()) && (amount.None? || amount.value >= 0) ==> Solvent()
    {
      if amount.None? || amount.value == 0 || target.None? {
        return DonateUsage;
      }
      var n := amount.value;
      var targetUser := target.value;
      if donorId !in profiles {
        return DonorNoProfile;
      }
      var donator := profiles[donorId];
      if donator.coins < n {
        return InsufficientCoins;
      }
      var receiver;
      if targetUser.id in profiles {
        receiver := profiles[targetUser.id];
      } else {
        receiver := NewProfile(targetUser.id, targetUser.username, targetUser.discriminator);
      }
      donator := donator.(coins := donator.coins - n);
      receiver := receiver.(coins := receiver.coins + n);
      profiles := profiles[donorId := donator];
      profiles := profiles[targetUser.id := receiver];
      o := Donated(n);
    }

    /** Selling. Checked in order: an item word is given, the seller has a
        profile, the item is one of the five, some of it is held, and the
        amount is `all` or a positive whole number not above the holding.
        Each failed check changes nothing. A sale takes the amount off the
        slot and pays amount times the unit price. */
    method Sell(id: UserId, itemName: string, amount: AmountArg) returns (o: SellOutcome)
      modifies this
      ensures activities == old(activities) && xpGrants == old(xpGrants)
      ensures itemName == [] ==> o == NoItemGiven && profiles == old(profiles)
      ensures itemName != [] && id !in old(profiles) ==> o == SellerNoProfile && profiles == old(profiles)
      ensures itemName != [] && id in old(profiles) && ItemNamed(itemName).None? ==>
                o == InvalidItem && profiles == old(profiles)
      ensures itemName != [] && id in old(profiles) && ItemNamed(itemName).Some? ==>
                var it := ItemNamed(itemName).value;
                var p := old(profiles)[id];
                var held := p.inventory.Of(it);
                if held <= 0 then
                  o == NothingToSell(it) && profiles == old(profiles)
                else if SellQuantity(held, amount).None? then
                  o == InvalidAmount(it) && profiles == old(profiles)
                else
                  var q := SellQuantity(held, amount).value;
                  && o == Sold(it, q, q * SalePrice(it))
                  && profiles == old(profiles)[id := p.(inventory := p.inventory.Add(it, -q),
                                                         coins := p.coins + q * SalePrice(it))]
      ensures o.Sold? && amount.All? ==>
                && profiles[id].inventory.Of(o.item) == 0
                && profiles[id].coins == old(profiles)[id].coins + old(profiles)[id].inventory.Of(o.item) * SalePrice(o.item)
      ensures old(Valid()) ==> Valid()
      ensures old(Solvent()) ==> Solvent()
    {
      if itemName == [] {
        return NoItemGiven;
      }
      if id !in profiles {
        return SellerNoProfile;
      }
      var user := profiles[id];
      var item := ItemNamed(itemName);
      if item.None? {
        return InvalidItem;
      }
      var it := item.value;
      var itemAmount := user.inventory.Of(it);
      if itemAmount <= 0 {
        return NothingToSell(it);
      }
      var quantity := SellQuantity(itemAmount, amount);
      if quantity.None? {
        return InvalidAmount(it);
      }
      var amountToSell := quantity.value;
      var coinsEarned := amountToSell * SalePrice(it);
      user := user.(inventory := user.inventory.Add(it, -amountToSell));
      user := user.(coins := user.coins + coinsEarned);
      profiles := profiles[id := user];
      o := Sold(it, amountToSell, coinsEarned);
    }

    /** The bag listing: the positive slots in schema order, or the empty
        notice when there are none. Reads the profile only. */
    method ListBag(id: UserId) returns (o: BagOutcome)
      ensures id !in profiles <==> o == BagNoProfile
      ensures id in profiles ==> (o == EmptyBag <==> forall it :: profiles[id].inventory.Of(it) <= 0)
      ensures o.Listing? ==> id in profiles && o.lines != [] && ListsPositiveSlots(profiles[id].inventory, o.lines)
    {
      if id !in profiles {
        return BagNoProfile;
      }
      var inv := profiles[id].inventory;
      var lines: seq<BagLine> := [];
      for i := 0 to |AllItems|
        invariant lines == BagLines(inv, i)
      {
        var item := AllItems[i];
        if inv.Of(item) > 0 {
          lines := lines + [BagLine(item, inv.Of(item))];
        }
      }
      BagLinesSound(inv, |AllItems|);
      forall it | inv.Of(it) > 0
        ensures exists k :: 0 <= k < |lines| && lines[k].item == it
      {
        BagLinesComplete(inv, |AllItems|, it);
      }
      if lines == [] {
        return EmptyBag;
      }
      assert inv.Of(lines[0].item) > 0;
      o := Listing(lines);
    }
  }
}
