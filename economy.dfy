/** The clicker economy: the shared `state` record (money, progression,
    drawing rewards, runner skins and runner shop), the clicker shop items,
    stage progression, the one-shot drawing rewards and the runner's money
    callback `addMoney`. */
module Economy {

  /** The number of animals in the roster; stages wrap around modulo it. */
  const AnimalCount: nat := 13

  /** `Math.floor(amount * multiplier)`: what the money callback credits. */
  function Credit(amount: int, multiplier: real): (c: int)
    ensures c as real <= amount as real * multiplier < c as real + 1.0
  {
    (amount as real * multiplier).Floor
  }

  /** With a multiplier of at least 1, a non-negative request is never credited
      less than asked, and a larger multiplier never credits less. */
  lemma CreditAtLeastRequested(amount: int, m: real, m': real)
    requires amount >= 0 && 1.0 <= m <= m'
    ensures amount <= Credit(amount, m) <= Credit(amount, m')
  {
    assert amount as real * 1.0 <= amount as real * m <= amount as real * m' by {
      assert amount as real * (m - 1.0) >= 0.0;
      assert amount as real * (m' - m) >= 0.0;
    }
  }

  /** A guarded purchase, as all shops here make them: it goes through exactly
      when the balance covers the cost, and then takes exactly the cost. */
  function Charge(balance: int, cost: int): (r: (bool, int))
    ensures r.0 <==> balance >= cost
    ensures r.0 ==> r.1 == balance - cost && r.1 >= 0
    ensures !r.0 ==> r.1 == balance
  {
    if balance >= cost then (true, balance - cost) else (false, balance)
  }

  function Sum(s: seq<int>): int
  {
    if s == [] then 0 else Sum(s[..|s| - 1]) + s[|s| - 1]
  }

  /** A run of purchase attempts: the final balance and the costs actually paid. */
  function Spend(balance: int, costs: seq<int>): (r: (int, seq<int>))
  {
    if costs == [] then (balance, [])
    else
      var prev := Spend(balance, costs[..|costs| - 1]);
      var (ok, after) := Charge(prev.0, costs[|costs| - 1]);
      (after, if ok then prev.1 + [costs[|costs| - 1]] else prev.1)
  }

  /** However many purchases are attempted, money never goes negative and the
      balance falls by exactly what was paid. */
  lemma {:induction false} SpendKeepsBalance(balance: int, costs: seq<int>)
    requires balance >= 0
    ensures Spend(balance, costs).0 >= 0
    ensures Spend(balance, costs).0 == balance - Sum(Spend(balance, costs).1)
    ensures |Spend(balance, costs).1| <= |costs|
  {
    if costs != [] {
      var init := costs[..|costs| - 1];
      SpendKeepsBalance(balance, init);
      var paid := Spend(balance, init).1;
      var c := costs[|costs| - 1];
      assert (paid + [c])[..|paid + [c]| - 1] == paid;
    }
  }

  /** The progression counters: the money target of the next unlock, the
      current interval, and the highest stage reached. */
  datatype Progress = Progress(target: int, interval: int, stage: nat)

  /** Doubling the interval and adding it to the target. */
  function RaiseTarget(p: Progress): (r: Progress)
    ensures r.stage == p.stage && r.interval == 2 * p.interval
    ensures r.target - p.target == r.interval
  {
    var interval := p.interval * 2;
    p.(interval := interval, target := p.target + interval)
  }

  /** `spawnNextStage`'s counters: the next stage (wrapping around the roster)
      and the raised target. */
  function NextStage(p: Progress): Progress
  {
    RaiseTarget(p).(stage := (p.stage + 1) % AnimalCount)
  }

  function Pow2(k: nat): (r: nat)
    ensures r >= 1
  {
    if k == 0 then 1 else 2 * Pow2(k - 1)
  }

  /** k stage advances in a row. */
  function Stages(p: Progress, k: nat): Progress
  {
    if k == 0 then p else NextStage(Stages(p, k - 1))
  }

  /** After k stages the interval has doubled k times, the target has grown by
      2 + 4 + ... + 2^k times the starting interval, and the stage has moved k
      places round the roster. */
  lemma {:induction false} StagesClosedForm(p: Progress, k: nat)
    requires p.stage < AnimalCount
    ensures Stages(p, k) == Progress(p.target + p.interval * (Pow2(k + 1) - 2),
                                     p.interval * Pow2(k),
                                     (p.stage + k) % AnimalCount)
  {
    if k > 0 {
      StagesClosedForm(p, k - 1);
      var half := Pow2(k - 1);
      assert Pow2(k) == 2 * half;
      assert Pow2(k + 1) == 4 * half;
      DoublingSteps(p.interval, half);
      StageWraps(p.stage + k - 1);
    }
  }

  lemma DoublingSteps(interval: int, half: int)
    ensures 2 * (interval * half) == interval * (2 * half)
    ensures interval * (2 * half - 2) + interval * (2 * half) == interval * (4 * half - 2)
  {
  }

  lemma StageWraps(n: nat)
    ensures ((n % AnimalCount) + 1) % AnimalCount == (n + 1) % AnimalCount
  {
  }

  /** With a positive starting interval the target grows strictly with every
      stage. */
  lemma {:induction false} TargetsStrictlyGrow(p: Progress, j: nat, k: nat)
    requires p.interval > 0 && j < k
    ensures Stages(p, j).target < Stages(p, k).target
    ensures Stages(p, k).interval > 0
    decreases k
  {
    if j < k - 1 {
      TargetsStrictlyGrow(p, j, k - 1);
    } else {
      IntervalStaysPositive(p, j);
    }
  }

  lemma {:induction false} IntervalStaysPositive(p: Progress, k: nat)
    requires p.interval > 0
    ensures Stages(p, k).interval > 0
  {
    if k > 0 {
      IntervalStaysPositive(p, k - 1);
    }
  }

  /** The money and claim flags the drawing gestures touch. */
  datatype Purse = Purse(clicks: int, plusClaimed: bool, minusClaimed: bool, questionClaimed: bool)

  /** `triggerPlusReward`'s state update: +100, once. */
  function PlusReward(p: Purse): (r: Purse)
    ensures r.plusClaimed && r.minusClaimed == p.minusClaimed && r.questionClaimed == p.questionClaimed
    ensures r.clicks == if p.plusClaimed then p.clicks else p.clicks + 100
  {
    if p.plusClaimed then p else p.(clicks := p.clicks + 100, plusClaimed := true)
  }

  /** `triggerMinusPenalty`'s state update: -100, or everything when there is
      less, once. */
  function MinusPenalty(p: Purse): (r: Purse)
    ensures r.minusClaimed && r.plusClaimed == p.plusClaimed && r.questionClaimed == p.questionClaimed
    ensures p.minusClaimed ==> r == p
    ensures !p.minusClaimed ==> p.clicks - r.clicks == (if p.clicks < 100 then p.clicks else 100)
    ensures p.clicks >= 0 ==> r.clicks >= 0
  {
    if p.minusClaimed then p
    else if p.clicks < 100 then p.(clicks := 0, minusClaimed := true)
    else p.(clicks := p.clicks - 100, minusClaimed := true)
  }

  /** `triggerQuestionReward`'s state update: +1000, once. */
  function QuestionReward(p: Purse): (r: Purse)
    ensures r.questionClaimed && r.plusClaimed == p.plusClaimed && r.minusClaimed == p.minusClaimed
    ensures r.clicks == if p.questionClaimed then p.clicks else p.clicks + 1000
  {
    if p.questionClaimed then p else p.(clicks := p.clicks + 1000, questionClaimed := true)
  }

  datatype Gesture = PlusSign | MinusSign | QuestionMark

  function ApplyGesture(p: Purse, g: Gesture): Purse
  {
    match g
    case PlusSign => PlusReward(p)
    case MinusSign => MinusPenalty(p)
    case QuestionMark => QuestionReward(p)
  }

  /** The purse after a run of recognised gestures, in order. */
  function Gestures(p: Purse, gs: seq<Gesture>): Purse
  {
    if gs == [] then p else ApplyGesture(Gestures(p, gs[..|gs| - 1]), gs[|gs| - 1])
  }

  /** The drawing rewards are one-shot: however often the gestures are drawn,
      a fresh purse gains at most 100 + 1000 and loses at most 100, never goes
      negative, and a claim flag is set exactly when its gesture was drawn. */
  lemma {:induction false} GesturesAreOneShot(p: Purse, gs: seq<Gesture>)
    requires p.clicks >= 0 && !p.plusClaimed && !p.minusClaimed && !p.questionClaimed
    ensures var r := Gestures(p, gs);
      && r.clicks >= 0
      && r.clicks <= p.clicks + (if PlusSign in gs then 100 else 0) + (if QuestionMark in gs then 1000 else 0)
      && r.clicks >= p.clicks - (if MinusSign in gs then 100 else 0)
      && (r.plusClaimed <==> PlusSign in gs)
      && (r.minusClaimed <==> MinusSign in gs)
      && (r.questionClaimed <==> QuestionMark in gs)
  {
    if gs != [] {
      var init := gs[..|gs| - 1];
      GesturesAreOneShot(p, init);
      assert gs == init + [gs[|gs| - 1]];
      assert forall g :: g in gs <==> g in init || g == gs[|gs| - 1];
    }
  }

  /** What an item's `action` does. */
  datatype Action =
    | AddClickPower      // clickPower += value; cost doubles
    | AddAutoPower       // autoClickPower += value; cost doubles
    | UnlockAutoClicker  // autoClickerActive, autoClickPower := value, bought

  datatype ItemType = Consumable | OneTime

  /** A shop item as declared: id, value, starting cost, type and action. */
  datatype ItemSpec = ItemSpec(id: string, value: int, cost: int, itemType: ItemType, action: Action)

  /** The clicker shop, in display order. */
  function Catalog(): (items: seq<ItemSpec>)
    ensures |items| == 9
    ensures forall i, j :: 0 <= i < j < |items| ==> items[i].id != items[j].id
    ensures forall i :: 0 <= i < |items| ==> items[i].cost > 0 && items[i].value > 0
    ensures forall i :: 0 <= i < |items| ==>
              (items[i].itemType == OneTime <==> items[i].action == UnlockAutoClicker)
    ensures forall i, j :: 0 <= i < j < |items| ==> items[i].cost <= items[j].cost
  {
    [ ItemSpec("upgrade_power_1", 1, 100, Consumable, AddClickPower),
      ItemSpec("upgrade_power_2", 2, 200, Consumable, AddClickPower),
      ItemSpec("unlock_auto", 5, 200, OneTime, UnlockAutoClicker),
      ItemSpec("upgrade_auto_5", 5, 300, Consumable, AddAutoPower),
      ItemSpec("upgrade_power_5", 5, 500, Consumable, AddClickPower),
      ItemSpec("upgrade_auto_10", 10, 600, Consumable, AddAutoPower),
      ItemSpec("upgrade_power_10", 10, 1000, Consumable, AddClickPower),
      ItemSpec("upgrade_auto_25", 25, 1500, Consumable, AddAutoPower),
      ItemSpec("upgrade_power_25", 25, 2500, Consumable, AddClickPower) ]
  }

  /** The number of purchases recorded for an id (absent means none). */
  function CountOf(counts: map<string, nat>, id: string): nat
  {
    if id in counts then counts[id] else 0
  }

  /** A shop item object; its cost (and, for the one-time item, its `bought`
      flag) is updated in place by its own action. */
  class ShopItem {
    const id: string
    const value: int
    var cost: int
    const itemType: ItemType
    const action: Action
    var bought: bool

    constructor (spec: ItemSpec)
      ensures id == spec.id && value == spec.value && cost == spec.cost
      ensures itemType == spec.itemType && action == spec.action && !bought
    {
      id, value, cost := spec.id, spec.value, spec.cost;
      itemType, action := spec.itemType, spec.action;
      bought := false;
    }

    /** The item's `action`, run on the shared state. */
    method Act(st: GameState)
      modifies this`cost, this`bought, st`clickPower, st`autoClickPower, st`autoClickerActive
      ensures action == AddClickPower ==>
                st.clickPower == old(st.clickPower) + value && cost == 2 * old(cost) &&
                unchanged(st`autoClickPower, st`autoClickerActive, this`bought)
      ensures action == AddAutoPower ==>
                st.autoClickPower == old(st.autoClickPower) + value && cost == 2 * old(cost) &&
                unchanged(st`clickPower, st`autoClickerActive, this`bought)
      ensures action == UnlockAutoClicker ==>
                st.autoClickerActive && st.autoClickPower == value && bought &&
                unchanged(st`clickPower, this`cost)
    {
      match action
      case AddClickPower =>
        st.clickPower := st.clickPower + value;
        cost := cost * 2;
      case AddAutoPower =>
        st.autoClickPower := st.autoClickPower + value;
        cost := cost * 2;
      case UnlockAutoClicker =>
        st.autoClickerActive := true;
        st.autoClickPower := value;
        bought := true;
    }
  }

  /** The shared `state` record. The nested `runnerSkins` and `runnerShop`
      records are flattened into it. */
  class GameState {
    var clicks: int
    var currentScale: real
    var animalIndex: int
    var hasAscended: bool
    var targetClicks: int
    var currentInterval: int
    var clickPower: int
    var autoClickerActive: bool
    var autoClickPower: int
    var highestStageIndex: nat
    var plusRewardClaimed: bool
    var minusRewardClaimed: bool
    var questionRewardClaimed: bool
    var purchaseCounts: map<string, nat>
    var firstStageCompleted: bool
    // runnerSkins
    var unlockedSkins: seq<int>
    var currentSkin: int
    var nextSkinCost: int
    // runnerShop
    var moneyMultiplier: real
    var multiplierLevel: int
    var multiplierCost: int

    /** The invariant every operation keeps: money is never negative, the
        progression counters are positive and in range, the multiplier is at
        least 1, and the equipped skin is an unlocked one. */
    predicate Valid()
      reads this
    {
      && clicks >= 0
      && targetClicks > 0 && currentInterval > 0
      && highestStageIndex < AnimalCount && 0 <= animalIndex < AnimalCount
      && moneyMultiplier >= 1.0 && multiplierCost >= 1 && multiplierLevel >= 0
      && nextSkinCost >= 1 && currentSkin in unlockedSkins
    }

    function Progression(): Progress
      reads this
    {
      Progress(targetClicks, currentInterval, highestStageIndex)
    }

    function Wallet(): Purse
      reads this
    {
      Purse(clicks, plusRewardClaimed, minusRewardClaimed, questionRewardClaimed)
    }

    /** The starting state of a session. */
    constructor ()
      ensures Valid()
      ensures clicks == 0 && currentScale == 1.0 && animalIndex == 0 && !hasAscended
      ensures targetClicks == 50 && currentInterval == 50 && clickPower == 1
      ensures !autoClickerActive && autoClickPower == 0 && highestStageIndex == 0
      ensures !plusRewardClaimed && !minusRewardClaimed && !questionRewardClaimed
      ensures purchaseCounts == map[] && !firstStageCompleted
      ensures unlockedSkins == [0] && currentSkin == 0 && nextSkinCost == 10000
      ensures moneyMultiplier == 1.0 && multiplierLevel == 0 && multiplierCost == 5000
    {
      clicks, currentScale, animalIndex, hasAscended := 0, 1.0, 0, false;
      targetClicks, currentInterval, clickPower := 50, 50, 1;
      autoClickerActive, autoClickPower, highestStageIndex := false, 0, 0;
      plusRewardClaimed, minusRewardClaimed, questionRewardClaimed := false, false, false;
      purchaseCounts, firstStageCompleted := map[], false;
      unlockedSkins, currentSkin, nextSkinCost := [0], 0, 10000;
      moneyMultiplier, multiplierLevel, multiplierCost := 1.0, 0, 5000;
    }

    /** `buyItem`: only when the money covers the cost; then the cost is taken,
        the item's action runs and its purchase count goes up by one. */
    method BuyItem(item: ShopItem) returns (bought: bool)
      modifies this`clicks, this`purchaseCounts, this`clickPower, this`autoClickPower,
               this`autoClickerActive, item`cost, item`bought
      ensures old(Valid()) ==> Valid()
      ensures bought <==> old(clicks) >= old(item.cost)
      ensures (bought, clicks) == Charge(old(clicks), old(item.cost))
      ensures bought ==> purchaseCounts == old(purchaseCounts)[item.id := CountOf(old(purchaseCounts), item.id) + 1]
      ensures bought && item.itemType == Consumable && item.action != UnlockAutoClicker ==>
                item.cost == 2 * old(item.cost)
      ensures bought && item.action == AddClickPower ==>
                clickPower == old(clickPower) + item.value &&
                unchanged(this`autoClickPower, this`autoClickerActive, item`bought)
      ensures bought && item.action == AddAutoPower ==>
                autoClickPower == old(autoClickPower) + item.value &&
                unchanged(this`clickPower, this`autoClickerActive, item`bought)
      ensures bought && item.action == UnlockAutoClicker ==>
                autoClickerActive && autoClickPower == item.value && item.bought &&
                unchanged(this`clickPower, item`cost)
      ensures !bought ==> unchanged(this) && unchanged(item)
    {
      bought := clicks >= item.cost;
      if bought {
        clicks := clicks - item.cost;
        item.Act(this);
        purchaseCounts := purchaseCounts[item.id := CountOf(purchaseCounts, item.id) + 1];
      }
    }

    /** `checkProgression`. Reaching the target for the first time at the
        starting stage only raises the target; after that, reaching it starts
        an ascension (returned as `ascending`), whose stage change comes later
        with `SpawnNextStage`. */
    method CheckProgression() returns (ascending: bool)
      modifies this`firstStageCompleted, this`currentInterval, this`targetClicks, this`hasAscended
      ensures old(Valid()) ==> Valid()
      ensures var due := old(clicks >= targetClicks && !hasAscended);
              var first := !old(firstStageCompleted) && old(highestStageIndex) == 0;
              && (ascending <==> due && !first)
              && (due && first ==> firstStageCompleted && !hasAscended &&
                                   Progression() == RaiseTarget(old(Progression())))
              && (ascending ==> hasAscended && Progression() == old(Progression()) &&
                                firstStageCompleted == old(firstStageCompleted))
              && (!due ==> unchanged(this))
      ensures ascending ==> old(!hasAscended)
    {
      ascending := false;
      if clicks >= targetClicks && !hasAscended {
        if !firstStageCompleted && highestStageIndex == 0 {
          firstStageCompleted := true;
          currentInterval := currentInterval * 2;
          targetClicks := targetClicks + currentInterval;
          return;
        }
        // triggerAscension: the flag is set at once; the stage change follows
        // the shelf animation.
        hasAscended := true;
        ascending := true;
      }
    }

    /** `spawnNextStage`'s counter updates: the next stage round the roster
        becomes the avatar, the target is raised and a new ascension is allowed. */
    method SpawnNextStage()
      modifies this`highestStageIndex, this`animalIndex, this`currentScale, this`hasAscended,
               this`currentInterval, this`targetClicks
      ensures old(Valid()) ==> Valid()
      ensures Progression() == NextStage(old(Progression()))
      ensures animalIndex == highestStageIndex && currentScale == 1.0 && !hasAscended
      ensures old(currentInterval) > 0 ==> targetClicks > old(targetClicks)
    {
      highestStageIndex := (highestStageIndex + 1) % AnimalCount;
      animalIndex := highestStageIndex;
      currentScale := 1.0;
      hasAscended := false;
      currentInterval := currentInterval * 2;
      targetClicks := targetClicks + currentInterval;
    }

    /** `window.addMoney`: credits `floor(amount * moneyMultiplier)` and returns
        that same amount. */
    method AddMoney(amount: int) returns (finalAmount: int)
      modifies this`clicks
      ensures finalAmount == Credit(amount, moneyMultiplier)
      ensures clicks == old(clicks) + finalAmount
      ensures moneyMultiplier >= 1.0 && amount >= 0 ==> finalAmount >= amount
      ensures old(Valid()) && amount >= 0 ==> Valid()
    {
      finalAmount := (amount as real * moneyMultiplier).Floor;
      if amount >= 0 && moneyMultiplier >= 1.0 {
        CreditAtLeastRequested(amount, moneyMultiplier, moneyMultiplier);
      }
      clicks := clicks + finalAmount;
    }
  }
}
