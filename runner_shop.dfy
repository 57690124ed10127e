/** The runner's two shops, which spend the clicker's money: the skin shop
    (`selectSkin`, `unlockSkin`) and the multiplier shop
    (`buyMultiplierUpgrade`, `buyBoost`). Each purchase is a function on a
    value view of the shared state; the methods perform it in place. */
module RunnerShop {
  import opened Economy
  import RunnerEngine

  /** The skin records of the shared state, with the money. */
  datatype Skins = Skins(clicks: int, unlocked: seq<int>, current: int, nextCost: int)

  /** The multiplier records of the shared state, with the money. */
  datatype Shop = Shop(clicks: int, multiplier: real, level: int, cost: int)

  /** The skin shop's invariant: money is not negative, the next unlock costs
      something, and the equipped skin is an unlocked one. */
  predicate SkinsValid(s: Skins)
  {
    s.clicks >= 0 && s.nextCost >= 1 && s.current in s.unlocked
  }

  /** The multiplier shop's invariant: money is not negative, upgrades cost
      something, and the multiplier is at least 1 plus half a point per
      upgrade bought (boosts only add to it). */
  predicate ShopValid(s: Shop)
  {
    s.clicks >= 0 && s.cost >= 1 && s.level >= 0 && s.multiplier >= 1.0 + 0.5 * s.level as real
  }

  /** `selectSkin`: only an unlocked skin can be equipped. */
  function Select(s: Skins, index: int): (r: Skins)
    ensures index in s.unlocked ==> r == s.(current := index)
    ensures index !in s.unlocked ==> r == s
    ensures SkinsValid(s) ==> SkinsValid(r)
    ensures r.current in s.unlocked || r.current == s.current
  {
    if index in s.unlocked then s.(current := index) else s
  }

  /** `unlockSkin`: when the money covers the next skin's cost, pay it,
      unlock and equip the skin, and double the next cost. */
  function Unlock(s: Skins, index: int): (r: (bool, Skins))
    ensures (r.0, r.1.clicks) == Charge(s.clicks, s.nextCost)
    ensures r.0 ==> r.1.unlocked == s.unlocked + [index] && r.1.current == index &&
                    r.1.nextCost == 2 * s.nextCost
    ensures !r.0 ==> r.1 == s
    ensures SkinsValid(s) ==> SkinsValid(r.1)
  {
    if s.clicks < s.nextCost then (false, s)
    else (true, Skins(s.clicks - s.nextCost, s.unlocked + [index], index, s.nextCost * 2))
  }

  /** The skins `0, 1, ..., n - 1` in order: what the skin shop offers, since
      it shows the unlock button only on the skin right after the unlocked
      ones. */
  function Range(n: nat): (r: seq<int>)
    ensures |r| == n
    ensures forall k :: 0 <= k < n ==> r[k] == k
  {
    if n == 0 then [] else Range(n - 1) + [n - 1]
  }

  /** Unlocking through the shop, always the next skin: starting from the
      first skin alone at a given price, after n paid unlocks the unlocked
      skins are exactly the first n + 1, the last one is equipped, and the
      price has doubled n times. */
  function UnlockNext(s: Skins, n: nat): Skins
  {
    if n == 0 then s
    else
      var prev := UnlockNext(s, n - 1);
      Unlock(prev, |prev.unlocked|).1
  }

  lemma {:induction false} UnlockNextInOrder(cost: int, clicks: int, n: nat)
    requires cost >= 1 && clicks >= cost * (Pow2(n) - 1)
    ensures var r := UnlockNext(Skins(clicks, [0], 0, cost), n);
      && r.unlocked == Range(n + 1)
      && r.current == n
      && r.nextCost == cost * Pow2(n)
      && r.clicks == clicks - cost * (Pow2(n) - 1)
  {
    if n > 0 {
      UnlockNextInOrder(cost, clicks, n - 1);
      var prev := UnlockNext(Skins(clicks, [0], 0, cost), n - 1);
      var half := Pow2(n - 1);
      assert Pow2(n) == 2 * half;
      DoubleCost(cost, half);
      assert prev.clicks >= prev.nextCost;
    }
  }

  lemma DoubleCost(cost: int, half: int)
    requires half >= 1 && cost >= 1
    ensures cost * half * 2 == cost * (2 * half)
    ensures cost * (2 * half - 1) - cost * half == cost * half - cost
    ensures cost * (2 * half - 1) >= cost * (half - 1) + cost * half
  {
  }

  /** `Math.floor(cost * 1.5)`: the next upgrade's price. */
  function RaisedCost(cost: int): (c: int)
    ensures cost >= 0 ==> cost <= c
    ensures cost >= 2 ==> cost < c
    ensures c as real <= cost as real * 1.5 < c as real + 1.0
  {
    (cost as real * 1.5).Floor
  }

  /** `buyMultiplierUpgrade`: when the money covers the price, pay it, add
      half a point to the multiplier, count the level, and raise the price. */
  function Upgrade(s: Shop): (r: (bool, Shop))
    ensures (r.0, r.1.clicks) == Charge(s.clicks, s.cost)
    ensures r.0 ==> r.1.multiplier == s.multiplier + 0.5 && r.1.level == s.level + 1 &&
                    r.1.cost == RaisedCost(s.cost)
    ensures !r.0 ==> r.1 == s
    ensures ShopValid(s) ==> ShopValid(r.1)
  {
    if s.clicks < s.cost then (false, s)
    else (true, Shop(s.clicks - s.cost, s.multiplier + 0.5, s.level + 1, RaisedCost(s.cost)))
  }

  /** The four boosts on sale: +0.5x for 3000, +1x for 8000, +2x for 20000
      and +5x for 50000. */
  function Boosts(): (b: seq<(real, int)>)
    ensures |b| == 4
    ensures forall k :: 0 <= k < |b| ==> b[k].0 > 0.0 && b[k].1 > 0
    // Larger boosts are dearer: the price per point of multiplier never falls
    // down the list (6000, 8000, 10000, 10000).
    ensures forall j, k :: 0 <= j < k < |b| ==> b[j].1 as real / b[j].0 <= b[k].1 as real / b[k].0
  {
    [(0.5, 3000), (1.0, 8000), (2.0, 20000), (5.0, 50000)]
  }

  /** `buyBoost`: when the money covers the price, pay it and add the boost
      to the multiplier; the level and the upgrade price are untouched. */
  function Boost(s: Shop, amount: real, cost: int): (r: (bool, Shop))
    ensures (r.0, r.1.clicks) == Charge(s.clicks, cost)
    ensures r.0 ==> r.1 == s.(clicks := r.1.clicks, multiplier := s.multiplier + amount)
    ensures !r.0 ==> r.1 == s
    ensures ShopValid(s) && amount >= 0.0 ==> ShopValid(r.1)
  {
    if s.clicks < cost then (false, s)
    else (true, s.(clicks := s.clicks - cost, multiplier := s.multiplier + amount))
  }

  /** Buying never lowers what the runner's rewards pay: after any upgrade or
      boost of a non-negative amount, every non-negative reward is credited
      at least as much as before. */
  lemma PurchasesNeverLowerPayout(s: Shop, amount: real, cost: int, reward: int)
    requires s.multiplier >= 1.0 && amount >= 0.0 && reward >= 0
    ensures Credit(reward, s.multiplier) <= Credit(reward, Upgrade(s).1.multiplier)
    ensures Credit(reward, s.multiplier) <= Credit(reward, Boost(s, amount, cost).1.multiplier)
  {
    CreditAtLeastRequested(reward, s.multiplier, Upgrade(s).1.multiplier);
    CreditAtLeastRequested(reward, s.multiplier, Boost(s, amount, cost).1.multiplier);
  }

  function SkinsOf(st: GameState): Skins
    reads st
  {
    Skins(st.clicks, st.unlockedSkins, st.currentSkin, st.nextSkinCost)
  }

  function ShopOf(st: GameState): Shop
    reads st
  {
    Shop(st.clicks, st.moneyMultiplier, st.multiplierLevel, st.multiplierCost)
  }

  /** `selectSkin` in place: the shared state and the runner's player both
      take the skin, if it is unlocked. */
  method SelectSkin(st: GameState, player: RunnerEngine.Player, index: int)
    modifies st`currentSkin, player`skinIndex
    ensures SkinsOf(st) == Select(old(SkinsOf(st)), index)
    ensures index in st.unlockedSkins ==> player.skinIndex == index
    ensures index !in st.unlockedSkins ==> unchanged(player)
    ensures old(st.Valid()) ==> st.Valid()
  {
    if index !in st.unlockedSkins {
      return;
    }
    st.currentSkin := index;
    player.skinIndex := index;
  }

  /** `unlockSkin` in place. */
  method UnlockSkin(st: GameState, player: RunnerEngine.Player, index: int) returns (unlocked: bool)
    modifies st`clicks, st`unlockedSkins, st`currentSkin, st`nextSkinCost, player`skinIndex
    ensures (unlocked, SkinsOf(st)) == Unlock(old(SkinsOf(st)), index)
    ensures unlocked ==> player.skinIndex == index
    ensures !unlocked ==> unchanged(player)
    ensures old(st.Valid()) ==> st.Valid()
  {
    if st.clicks < st.nextSkinCost {
      return false;
    }
    st.clicks := st.clicks - st.nextSkinCost;
    st.unlockedSkins := st.unlockedSkins + [index];
    st.currentSkin := index;
    player.skinIndex := index;
    st.nextSkinCost := st.nextSkinCost * 2;
    unlocked := true;
  }

  /** `buyMultiplierUpgrade` in place. */
  method BuyMultiplierUpgrade(st: GameState) returns (bought: bool)
    modifies st`clicks, st`moneyMultiplier, st`multiplierLevel, st`multiplierCost
    ensures (bought, ShopOf(st)) == Upgrade(old(ShopOf(st)))
    ensures old(st.Valid()) ==> st.Valid()
  {
    if st.clicks < st.multiplierCost {
      return false;
    }
    st.clicks := st.clicks - st.multiplierCost;
    st.moneyMultiplier := st.moneyMultiplier + 0.5;
    st.multiplierLevel := st.multiplierLevel + 1;
    st.multiplierCost := (st.multiplierCost as real * 1.5).Floor;
    bought := true;
  }

  /** `buyBoost` in place. */
  method BuyBoost(st: GameState, amount: real, cost: int) returns (bought: bool)
    modifies st`clicks, st`moneyMultiplier
    ensures (bought, ShopOf(st)) == Boost(old(ShopOf(st)), amount, cost)
    ensures old(st.Valid()) && amount >= 0.0 ==> st.Valid()
  {
    if st.clicks < cost {
      return false;
    }
    st.clicks := st.clicks - cost;
    st.moneyMultiplier := st.moneyMultiplier + amount;
    bought := true;
  }
}
