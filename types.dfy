/** The records the bot keeps per participant: the profile document of the
    `User` collection and the activity document of the `Mining` collection,
    with the defaults a freshly created document carries. */
module Types {

  datatype Option<+T> = None | Some(value: T)

  /** Participant identity as the chat platform gives it. */
  type UserId = string

  /** The five inventory slots, in the order the profile schema declares them. */
  datatype Item = Wood | Apple | Diamond | Fish | Puffer

  /** Every item, in schema order. */
  const AllItems: seq<Item> := [Wood, Apple, Diamond, Fish, Puffer]

  /** Position of an item in schema order. */
  function Index(it: Item): (i: nat)
    ensures i < |AllItems| && AllItems[i] == it
  {
    match it
    case Wood => 0
    case Apple => 1
    case Diamond => 2
    case Fish => 3
    case Puffer => 4
  }

  datatype Inventory = Inventory(wood: int, apple: int, diamond: int, fish: int, puffer: int)
  {
    /** The quantity held in one slot. */
    function Of(it: Item): int {
      match it
      case Wood => wood
      case Apple => apple
      case Diamond => diamond
      case Fish => fish
      case Puffer => puffer
    }

    /** The inventory with `n` added to one slot (negative `n` removes). */
    function Add(it: Item, n: int): (r: Inventory)
      ensures r.Of(it) == Of(it) + n
      ensures forall other :: other != it ==> r.Of(other) == Of(other)
    {
      match it
      case Wood => this.(wood := wood + n)
      case Apple => this.(apple := apple + n)
      case Diamond => this.(diamond := diamond + n)
      case Fish => this.(fish := fish + n)
      case Puffer => this.(puffer := puffer + n)
    }

    predicate NonNegative() {
      wood >= 0 && apple >= 0 && diamond >= 0 && fish >= 0 && puffer >= 0
    }
  }

  /** The empty inventory every new profile starts with. */
  const EmptyInventory := Inventory(0, 0, 0, 0, 0)

  /** A `User` document; `lastDailyReward` is None until the first claim. */
  datatype Profile = Profile(
    userId: UserId,
    username: string,
    discriminator: string,
    level: int,
    experience: int,
    coins: int,
    inventory: Inventory,
    lastDailyReward: Option<int>)

  /** A freshly created profile: level 1, no experience, no coins, nothing held. */
  function NewProfile(id: UserId, username: string, discriminator: string): (p: Profile)
    ensures p.userId == id && p.level == 1 && p.experience == 0 && p.coins == 0
    ensures forall it :: p.inventory.Of(it) == 0
    ensures p.lastDailyReward.None?
  {
    Profile(id, username, discriminator, 1, 0, 0, EmptyInventory, None)
  }

  /** A `Mining` document: when each gated action was last performed. The
      three totals are declared by the schema and never written. */
  datatype Activity = Activity(
    lastMining: Option<int>,
    lastChopping: Option<int>,
    lastFishing: Option<int>,
    totalMined: int,
    totalChopped: int,
    totalFished: int)

  /** A freshly upserted activity record: no action performed yet. */
  const NewActivity := Activity(None, None, None, 0, 0, 0)

  /** The user the donate command mentions. */
  datatype Mention = Mention(id: UserId, username: string, discriminator: string)

  function Max(a: int, b: int): int { if a < b then b else a }
}
