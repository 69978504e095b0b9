/**
 * The wandering merchant between waves (components/Shop.tsx): five items,
 * each with a price in gold (the score), a condition that disables its
 * button, and an effect applied to a copy of the state whose score has
 * already been charged.
 */
module Shop {
  import opened Types
  import opened Constants

  datatype Item = RiceBall | SpiritHeart | ShurikenBundle | Incense | AncientScroll

  function Price(item: Item): int
  {
    match item
    case RiceBall => PRICE_HEAL
    case SpiritHeart => PRICE_MAX_HEALTH
    case ShurikenBundle => PRICE_SHURIKENS
    case Incense => PRICE_REFILL_CHAKRA
    case AncientScroll => PRICE_MAX_CHAKRA
  }

  /** JavaScript truthiness of an optional number: defined and not zero. */
  predicate Truthy(o: Option<real>)
  {
    o.Some? && o.value != 0.0
  }

  /** `maxChakra || 100`. */
  function ChakraCap(maxChakra: Option<real>): real
  {
    if Truthy(maxChakra) then maxChakra.value else 100.0
  }

  /**
   * Health within its maximum, and chakra within its maximum when both
   * are defined.
   */
  predicate Capped(p: Player)
  {
    p.health <= p.maxHealth &&
    (p.chakra.Some? && p.maxChakra.Some? ==> p.chakra.value <= p.maxChakra.value)
  }

  /**
   * Whether the item's button is disabled: the price is out of reach, or
   * the Rice Ball while health is full, or the Incense while a defined
   * chakra already reaches `maxChakra || 100`.
   */
  predicate Disabled(s: GameState, item: Item)
  {
    s.score < Price(item) ||
    (item == RiceBall && s.player.health >= s.player.maxHealth) ||
    (item == Incense && s.player.chakra.Some? && s.player.chakra.value >= ChakraCap(s.player.maxChakra))
  }

  /** The item's effect closure, applied to the already charged copy. */
  function Effect(s: GameState, item: Item): (r: GameState)
    ensures r == s.(shurikens := r.shurikens, player := r.player)
    ensures r.player == s.player.(health := r.player.health, maxHealth := r.player.maxHealth,
                                  chakra := r.player.chakra, maxChakra := r.player.maxChakra)
    ensures item != ShurikenBundle ==> r.shurikens == s.shurikens
    ensures item == RiceBall ==>
              r.player == s.player.(health := r.player.health) && r.player.health <= s.player.maxHealth &&
              (s.player.health < s.player.maxHealth ==> r.player.health == s.player.health + 1) &&
              (s.player.health >= s.player.maxHealth ==> r.player.health == s.player.maxHealth)
    ensures item == SpiritHeart ==>
              r.player == s.player.(health := r.player.health, maxHealth := r.player.maxHealth) &&
              r.player.maxHealth == s.player.maxHealth + 1 && r.player.health == r.player.maxHealth
    ensures item == ShurikenBundle ==> r == s.(shurikens := s.shurikens + 5)
    ensures item == Incense ==>
              (Truthy(s.player.maxChakra) ==> r.player == s.player.(chakra := s.player.maxChakra)) &&
              (!Truthy(s.player.maxChakra) ==> r == s)
    ensures item == AncientScroll ==>
              r.player == s.player.(chakra := r.player.maxChakra, maxChakra := r.player.maxChakra) &&
              r.player.maxChakra == (if Truthy(s.player.maxChakra) then Some(s.player.maxChakra.value + 20.0)
                                     else s.player.maxChakra)
    ensures Capped(s.player) ==> Capped(r.player)
  {
    var p := s.player;
    match item
    case RiceBall => s.(player := p.(health := MinInt(p.maxHealth, p.health + 1)))
    case SpiritHeart => s.(player := p.(maxHealth := p.maxHealth + 1, health := p.maxHealth + 1))
    case ShurikenBundle => s.(shurikens := s.shurikens + 5)
    case Incense => if Truthy(p.maxChakra) then s.(player := p.(chakra := p.maxChakra)) else s
    case AncientScroll =>
      var m := if Truthy(p.maxChakra) then Some(p.maxChakra.value + 20.0) else p.maxChakra;
      s.(player := p.(maxChakra := m, chakra := m))
  }

  /**
   * `buy(cost, effect)`: nothing at all when the score is below the cost;
   * otherwise the score is charged and the effect applied. The update is
   * what the shop hands to onUpdateState.
   */
  function Buy(s: GameState, item: Item): (r: Option<GameState>)
    ensures r.None? <==> s.score < Price(item)
    ensures !Disabled(s, item) ==> r.Some?
    ensures r.Some? ==> r.value.score == s.score - Price(item) && r.value.score >= 0
    ensures r.Some? ==> r.value == Effect(s.(score := s.score - Price(item)), item)
    ensures r.Some? ==> r.value.wave == s.wave && r.value.player.size == s.player.size
    ensures r.Some? && Capped(s.player) ==> Capped(r.value.player)
  {
    if s.score >= Price(item) then Some(Effect(s.(score := s.score - Price(item)), item)) else None
  }

  /**
   * An enabled Rice Ball heals exactly one point, and an enabled Incense
   * with a defined, nonzero maximum fills chakra; an Incense bought while
   * the maximum is undefined or zero only costs its price.
   */
  lemma EnabledPurchases(s: GameState)
    ensures !Disabled(s, RiceBall) ==> Buy(s, RiceBall).value.player.health == s.player.health + 1
    ensures !Disabled(s, Incense) && Truthy(s.player.maxChakra) ==>
              Buy(s, Incense).value.player.chakra == s.player.maxChakra
    ensures Buy(s, Incense).Some? && !Truthy(s.player.maxChakra) ==>
              Buy(s, Incense).value == s.(score := s.score - PRICE_REFILL_CHAKRA)
  {
  }

  /**
   * The buy handler as the source runs it: a copy of the state with the
   * score charged, whose player the effect closure then changes field by
   * field.
   */
  method Purchase(s: GameState, item: Item) returns (update: Option<GameState>)
    ensures update == Buy(s, item)
  {
    if s.score < Price(item) {
      return None;
    }
    var next := s.(score := s.score - Price(item));
    var p := next.player;
    match item {
      case RiceBall =>
        p := p.(health := MinInt(p.maxHealth, p.health + 1));
      case SpiritHeart =>
        p := p.(maxHealth := p.maxHealth + 1);
        p := p.(health := p.maxHealth);
      case ShurikenBundle =>
        next := next.(shurikens := next.shurikens + 5);
      case Incense =>
        if Truthy(p.maxChakra) {
          p := p.(chakra := p.maxChakra);
        }
      case AncientScroll =>
        if Truthy(p.maxChakra) {
          p := p.(maxChakra := Some(p.maxChakra.value + 20.0));
        }
        p := p.(chakra := p.maxChakra);
    }
    update := Some(next.(player := p));
  }
}
