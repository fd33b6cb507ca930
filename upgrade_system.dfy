/** The upgrade gamble (`UpgradeSystem`): the player stakes an inventory skin
    against a market skin. The chance grows with the share of the combined value
    that the stake carries, and the "upgrade percentage" slider scales that
    value. The stake's full price is always debited. A win credits the target's
    price only in "get" mode. */
module UpgradeSystem {
  import opened Optional

  /** Lower and upper clamp of the chance, in percent. */
  const MinChance: real := 5.0
  const MaxChance: real := 95.0
  /** The chance shown while either side is unselected. */
  const EvenChance: real := 50.0
  const DefaultSlider: int := 50

  datatype Rarity = Common | Rare | Epic | Legendary

  datatype Item = Item(id: int, name: string, price: int, rarity: Rarity, category: string)

  /** The skins on the market side (the upgrade targets). */
  const MarketItems: seq<Item> := [
    Item(1, "StatTrak™ Glock-18", 361218, Legendary, "MW"),
    Item(2, "StatTrak™ Butterfly Knife", 390038, Legendary, "MW"),
    Item(3, "StatTrak™ Karambit", 370998, Legendary, "FN"),
    Item(4, "AWP Fire Prince", 364040, Epic, "FT"),
    Item(5, "Karambit Fade", 349878, Legendary, "MW"),
    Item(6, "M4A4 Howl", 344500, Legendary, "MW"),
    Item(7, "AK-47 Fire Serpent", 318000, Epic, "FN"),
    Item(8, "Desert Eagle Blaze", 308000, Rare, "FN")
  ]

  /** The player's own skins (the stakes). */
  const InventoryItems: seq<Item> := [
    Item(101, "AK-47 Redline", 50000, Rare, "FT"),
    Item(102, "M4A1-S Hyper Beast", 45000, Rare, "MW"),
    Item(103, "AWP Asiimov", 80000, Epic, "FT")
  ]

  /** Every catalogued skin has a positive price. */
  lemma CataloguePricesPositive()
    ensures forall i :: 0 <= i < |MarketItems| ==> MarketItems[i].price > 0
    ensures forall i :: 0 <= i < |InventoryItems| ==> InventoryItems[i].price > 0
  {
  }

  // ---------------------------------------------------------------- chance

  /** An optional selection whose price, if any, is positive. */
  predicate Priced(item: Option<Item>)
  {
    item.Some? ==> item.value.price > 0
  }

  /** The stake's share of the combined value, in percent:
      `leftValue / (leftValue + rightValue) * 100`. */
  function RawChance(stake: real, target: real): (r: real)
    requires stake >= 0.0 && target > 0.0
    ensures 0.0 <= r < 100.0
    ensures r * (stake + target) == stake * 100.0
  {
    var share := stake / (stake + target);
    assert share < 1.0 by {
      var rest := target / (stake + target);
      assert rest > 0.0;
      assert share + rest == (stake + target) / (stake + target) == 1.0;
    }
    share * 100.0
  }

  /** `Math.min(Math.max(chance, 5), 95)`. */
  function Clamp(x: real): (r: real)
    ensures MinChance <= r <= MaxChance
    ensures MinChance <= x <= MaxChance ==> r == x
    ensures x < MinChance ==> r == MinChance
    ensures x > MaxChance ==> r == MaxChance
  {
    if x < MinChance then MinChance else if x > MaxChance then MaxChance else x
  }

  /** The stake's value as scaled by the slider (`price * (slider / 100)`). */
  function StakeValue(left: Item, slider: int): real
  {
    left.price as real * (slider as real / 100.0)
  }

  /** `calculateChance`: 50 while either side is unselected, otherwise the
      stake's share of the combined value, clamped to [5, 95]. */
  function CalculateChance(left: Option<Item>, right: Option<Item>, slider: int): (r: real)
    requires Priced(left) && Priced(right) && 0 <= slider <= 100
    ensures MinChance <= r <= MaxChance
    ensures left.None? || right.None? ==> r == EvenChance
    ensures left.Some? && right.Some? ==>
      var stake := StakeValue(left.value, slider);
      var target := right.value.price as real;
      && (MinChance < r < MaxChance ==> r * (stake + target) == stake * 100.0)
      && (r == MinChance ==> stake * 100.0 <= MinChance * (stake + target))
      && (r == MaxChance ==> stake * 100.0 >= MaxChance * (stake + target))
  {
    if left.None? || right.None? then EvenChance
    else
      var stake := StakeValue(left.value, slider);
      StakeValueMonotone(left.value, left.value, slider, slider);
      ClampedShareBounds(stake, right.value.price as real);
      Clamp(RawChance(stake, right.value.price as real))
  }

  /** Where the clamp leaves the share alone it is the exact share; where it
      raises it to 5 or lowers it to 95, the share was beyond that bound. */
  lemma ClampedShareBounds(stake: real, target: real)
    requires stake >= 0.0 && target > 0.0
    ensures var c := Clamp(RawChance(stake, target));
      && (MinChance < c < MaxChance ==> c * (stake + target) == stake * 100.0)
      && (c == MinChance ==> stake * 100.0 <= MinChance * (stake + target))
      && (c == MaxChance ==> stake * 100.0 >= MaxChance * (stake + target))
  {
    var raw := RawChance(stake, target);
    var k := stake + target;
    if raw <= MinChance {
      ScaleMonotone(k, raw, MinChance);
    }
    if raw >= MaxChance {
      ScaleMonotone(k, MaxChance, raw);
    }
  }

  /** Equal prices at a full slider give an even chance. */
  lemma EqualPricesEven(left: Item, right: Item)
    requires left.price > 0 && right.price == left.price
    ensures CalculateChance(Some(left), Some(right), 100) == EvenChance
  {
    var p := left.price as real;
    assert StakeValue(left, 100) == p;
    assert RawChance(p, p) * (p + p) == p * 100.0;
  }

  /** An empty slider stakes nothing, so the chance is the floor of 5%. */
  lemma EmptySliderFloor(left: Item, right: Item)
    requires left.price > 0 && right.price > 0
    ensures CalculateChance(Some(left), Some(right), 0) == MinChance
  {
    assert StakeValue(left, 0) == 0.0;
  }

  /** Cross-multiplication: `a / b <= c / d` for positive `b`, `d` when
      `a * d <= c * b`. */
  lemma QuotientLe(a: real, b: real, c: real, d: real)
    requires b > 0.0 && d > 0.0 && a * d <= c * b
    ensures a / b <= c / d
  {
    var x, y := a / b, c / d;
    assert a == x * b && c == y * d;
    assert x * (b * d) <= y * (b * d) by {
      assert x * (b * d) == (x * b) * d == a * d;
      assert y * (b * d) == (y * d) * b == c * b;
    }
  }

  /** The share grows with the stake's value. */
  lemma RawChanceGrowsWithStake(s1: real, s2: real, target: real)
    requires 0.0 <= s1 <= s2 && target > 0.0
    ensures RawChance(s1, target) <= RawChance(s2, target)
  {
    assert s1 * (s2 + target) <= s2 * (s1 + target) by {
      assert s1 * target <= s2 * target;
    }
    QuotientLe(s1, s1 + target, s2, s2 + target);
  }

  /** The share shrinks as the target gets dearer. */
  lemma RawChanceShrinksWithTarget(stake: real, t1: real, t2: real)
    requires stake >= 0.0 && 0.0 < t1 <= t2
    ensures RawChance(stake, t2) <= RawChance(stake, t1)
  {
    assert stake * (stake + t1) <= stake * (stake + t2) by {
      assert stake * t1 <= stake * t2;
    }
    QuotientLe(stake, stake + t2, stake, stake + t1);
  }

  /** Scaling by a non-negative factor keeps the order. */
  lemma ScaleMonotone(k: real, a: real, b: real)
    requires k >= 0.0 && a <= b
    ensures k * a <= k * b
  {
    assert k * b - k * a == k * (b - a);
  }

  lemma ClampMonotone(x: real, y: real)
    requires x <= y
    ensures Clamp(x) <= Clamp(y)
  {
  }

  /** The stake's value grows with its price and with the slider. */
  lemma StakeValueMonotone(l1: Item, l2: Item, s1: int, s2: int)
    requires 0 <= l1.price <= l2.price && 0 <= s1 <= s2
    ensures 0.0 <= StakeValue(l1, s1) <= StakeValue(l2, s2)
  {
    var p1, p2 := l1.price as real, l2.price as real;
    var f1, f2 := s1 as real / 100.0, s2 as real / 100.0;
    assert 0.0 <= f1 <= f2;
    ScaleMonotone(p1, 0.0, f1);
    ScaleMonotone(p1, f1, f2);
    ScaleMonotone(f2, p1, p2);
  }

  /** The slider stakes a fraction of the item: nothing at 0, the full price at
      100, and in between never more than the price. */
  lemma StakeValueRange(left: Item, slider: int)
    requires 0 <= left.price && 0 <= slider <= 100
    ensures 0.0 <= StakeValue(left, slider) <= left.price as real
    ensures slider == 0 ==> StakeValue(left, slider) == 0.0
    ensures slider == 100 ==> StakeValue(left, slider) == left.price as real
  {
    StakeValueMonotone(left, left, slider, 100);
    assert StakeValue(left, 100) == left.price as real;
  }

  /** The clamped share grows with the stake's value. */
  lemma ClampedShareGrows(a: real, b: real, target: real)
    requires 0.0 <= a <= b && target > 0.0
    ensures Clamp(RawChance(a, target)) <= Clamp(RawChance(b, target))
  {
    RawChanceGrowsWithStake(a, b, target);
    ClampMonotone(RawChance(a, target), RawChance(b, target));
  }

  /** Raising the slider never lowers the chance. */
  lemma ChanceGrowsWithSlider(left: Item, right: Item, s1: int, s2: int)
    requires left.price > 0 && right.price > 0 && 0 <= s1 <= s2 <= 100
    ensures CalculateChance(Some(left), Some(right), s1) <= CalculateChance(Some(left), Some(right), s2)
  {
    StakeValueMonotone(left, left, s1, s2);
    ClampedShareGrows(StakeValue(left, s1), StakeValue(left, s2), right.price as real);
  }

  /** Staking a dearer skin never lowers the chance. */
  lemma ChanceGrowsWithStakePrice(l1: Item, l2: Item, right: Item, slider: int)
    requires 0 < l1.price <= l2.price && right.price > 0 && 0 <= slider <= 100
    ensures CalculateChance(Some(l1), Some(right), slider) <= CalculateChance(Some(l2), Some(right), slider)
  {
    StakeValueMonotone(l1, l2, slider, slider);
    ClampedShareGrows(StakeValue(l1, slider), StakeValue(l2, slider), right.price as real);
  }

  /** Aiming at a dearer skin never raises the chance. */
  lemma ChanceShrinksWithTargetPrice(left: Item, r1: Item, r2: Item, slider: int)
    requires left.price > 0 && 0 < r1.price <= r2.price && 0 <= slider <= 100
    ensures CalculateChance(Some(left), Some(r2), slider) <= CalculateChance(Some(left), Some(r1), slider)
  {
    var stake := StakeValue(left, slider);
    StakeValueMonotone(left, left, slider, slider);
    RawChanceShrinksWithTarget(stake, r1.price as real, r2.price as real);
    ClampMonotone(RawChance(stake, r2.price as real), RawChance(stake, r1.price as real));
  }

  /** No pairing of the catalogues gives better than a 21% chance, whatever
      the slider: the dearest stake (80000) against the cheapest target
      (308000) at a full slider is 80000 / 388000, about 20.6%. */
  lemma CatalogueChanceCap(i: int, j: int, slider: int)
    requires 0 <= i < |InventoryItems| && 0 <= j < |MarketItems| && 0 <= slider <= 100
    ensures Priced(Some(InventoryItems[i])) && Priced(Some(MarketItems[j]))
    ensures CalculateChance(Some(InventoryItems[i]), Some(MarketItems[j]), slider) < 21.0
  {
    CataloguePricesPositive();
    var left, right := InventoryItems[i], MarketItems[j];
    var dearest, cheapest := InventoryItems[2], MarketItems[7];
    assert left.price <= dearest.price;
    assert cheapest.price <= right.price;
    ChanceGrowsWithSlider(left, right, slider, 100);
    ChanceGrowsWithStakePrice(left, dearest, right, 100);
    ChanceShrinksWithTargetPrice(dearest, cheapest, right, 100);
    assert StakeValue(dearest, 100) == 80000.0;
    assert RawChance(80000.0, 308000.0) * 388000.0 == 8000000.0;
  }

  // ----------------------------------------------------------------- round

  datatype Mode = Improve | Get

  /** The pending `setTimeout`: the three-second roll carries what its closure
      captured at the click (the balance after the debit, the chance, the mode
      and the target's price); the second three-second timer clears the bench. */
  datatype Timer =
    | NoTimer
    | RollTimer(base: int, chance: real, mode: Mode, prize: int)
    | ClearTimer

  datatype Bench = Bench(
    balance: int,
    left: Option<Item>,
    right: Option<Item>,
    slider: int,
    mode: Mode,
    upgrading: bool,
    result: Option<bool>,
    timer: Timer)

  /** What every reachable state satisfies. */
  predicate ValidBench(s: Bench)
  {
    && s.balance >= 0
    && Priced(s.left) && Priced(s.right)
    && 0 <= s.slider <= 100
    && (s.upgrading <==> s.timer != NoTimer)
    && (s.upgrading ==> s.left.Some? && s.right.Some?)
    && (s.timer.RollTimer? ==>
          && s.result.None?
          && s.balance == s.timer.base
          && MinChance <= s.timer.chance <= MaxChance
          && s.timer.prize > 0)
    && (s.timer == ClearTimer ==> s.result.Some?)
    && (s.timer == NoTimer ==> s.result.None?)
  }

  /** The state on mount: the given balance, nothing selected, the slider at
      50, "improve" mode, no result and no timer. */
  function Initial(balance: int): (r: Bench)
    requires balance >= 0
    ensures ValidBench(r) && !r.upgrading && r.left.None? && r.right.None?
    ensures r.balance == balance && r.slider == DefaultSlider && r.mode == Improve
    ensures r.result.None? && r.timer == NoTimer
  {
    Bench(balance, None, None, DefaultSlider, Improve, false, None, NoTimer)
  }

  /** A click on an inventory skin: ignored while upgrading. */
  function SelectLeftStep(s: Bench, item: Item): (r: Bench)
    requires ValidBench(s) && item.price > 0
    ensures ValidBench(r)
    ensures s.upgrading ==> r == s
    ensures !s.upgrading ==> r == s.(left := Some(item))
  {
    if s.upgrading then s else s.(left := Some(item))
  }

  /** A click on a market skin: ignored while upgrading. */
  function SelectRightStep(s: Bench, item: Item): (r: Bench)
    requires ValidBench(s) && item.price > 0
    ensures ValidBench(r)
    ensures s.upgrading ==> r == s
    ensures !s.upgrading ==> r == s.(right := Some(item))
  {
    if s.upgrading then s else s.(right := Some(item))
  }

  /** `startUpgrade`: rejected when either side is unselected or the stake's
      price exceeds the balance; otherwise the full price is debited, whatever
      the slider says, and the roll is armed with the chance of the moment. */
  function StartUpgradeStep(s: Bench): (r: Bench)
    requires ValidBench(s) && !s.upgrading
    ensures ValidBench(r)
    ensures s.left.None? || s.right.None? ==> r == s
    ensures s.left.Some? && s.left.value.price > s.balance ==> r == s
    ensures s.left.Some? && s.right.Some? && s.left.value.price <= s.balance ==>
      && r.balance == s.balance - s.left.value.price
      && r.upgrading && r.result.None?
      && r.timer == RollTimer(r.balance, CalculateChance(s.left, s.right, s.slider), s.mode, s.right.value.price)
      && r == s.(balance := r.balance, upgrading := true, result := None, timer := r.timer)
  {
    if s.left.None? || s.right.None? then s
    else if s.left.value.price > s.balance then s
    else
      var base := s.balance - s.left.value.price;
      s.(balance := base, upgrading := true, result := None,
         timer := RollTimer(base, CalculateChance(s.left, s.right, s.slider), s.mode, s.right.value.price))
  }

  /** Whether a roll of `draw` (`Math.random()`) wins against `chance`. */
  predicate Succeeds(draw: real, chance: real)
  {
    draw * 100.0 < chance
  }

  /** `chance` is a percentage: a draw in [0, 1) wins exactly when it falls
      below `chance / 100`, so a chance of 0 never wins, a chance of 100 always
      does, and a larger chance wins on every draw a smaller one wins on. */
  lemma SucceedsBelowChance(draw: real, chance: real, more: real)
    requires 0.0 <= draw < 1.0 && chance <= more
    ensures Succeeds(draw, chance) <==> draw < chance / 100.0
    ensures chance <= 0.0 ==> !Succeeds(draw, chance)
    ensures 100.0 <= chance ==> Succeeds(draw, chance)
    ensures Succeeds(draw, chance) ==> Succeeds(draw, more)
  {
  }

  /** The first timer: records the outcome and, on a win in "get" mode, sets the
      balance to the captured post-debit balance plus the target's price. */
  function RollStep(s: Bench, draw: real): (r: Bench)
    requires ValidBench(s) && 0.0 <= draw < 1.0
    ensures ValidBench(r)
    ensures !s.timer.RollTimer? ==> r == s
    ensures s.timer.RollTimer? ==>
      var t := s.timer;
      && r.result == Some(Succeeds(draw, t.chance))
      && r.balance == (if Succeeds(draw, t.chance) && t.mode == Get then t.base + t.prize else t.base)
      && r.timer == ClearTimer
      && r == s.(balance := r.balance, result := r.result, timer := ClearTimer)
  {
    if !s.timer.RollTimer? then s
    else
      var t := s.timer;
      var success := Succeeds(draw, t.chance);
      s.(result := Some(success),
         balance := if success && t.mode == Get then t.base + t.prize else s.balance,
         timer := ClearTimer)
  }

  /** The second timer: the bench is emptied and unlocked. */
  function ClearStep(s: Bench): (r: Bench)
    requires ValidBench(s)
    ensures ValidBench(r)
    ensures s.timer != ClearTimer ==> r == s
    ensures s.timer == ClearTimer ==>
      r == s.(upgrading := false, result := None, left := None, right := None, timer := NoTimer)
  {
    if s.timer != ClearTimer then s
    else s.(upgrading := false, result := None, left := None, right := None, timer := NoTimer)
  }

  /** A whole upgrade, from the click to the cleared bench: the stake's price
      leaves the balance and the target's price comes back exactly when the
      roll wins in "get" mode; the chance is that of the moment of the click. */
  lemma UpgradeLedger(s: Bench, draw: real)
    requires ValidBench(s) && !s.upgrading && 0.0 <= draw < 1.0
    requires s.left.Some? && s.right.Some? && s.left.value.price <= s.balance
    ensures var e := ClearStep(RollStep(StartUpgradeStep(s), draw));
      var win := Succeeds(draw, CalculateChance(s.left, s.right, s.slider));
      && e.balance == s.balance - s.left.value.price + (if win && s.mode == Get then s.right.value.price else 0)
      && !e.upgrading && e.left.None? && e.right.None? && e.result.None?
      && e.slider == s.slider && e.mode == s.mode
  {
  }

  /** A rejected click changes nothing, and neither timer then fires. */
  lemma RejectedUpgradeIsInert(s: Bench, draw: real)
    requires ValidBench(s) && !s.upgrading && 0.0 <= draw < 1.0
    requires s.left.None? || s.right.None? || s.left.value.price > s.balance
    ensures ClearStep(RollStep(StartUpgradeStep(s), draw)) == s
  {
  }

  /** Staking the AK-47 Redline (50000) for an equally priced skin at a full
      slider is an even bet; a roll of 0.4 wins and, in "get" mode, a balance of
      60000 ends at 60000. */
  lemma EvenUpgradeScenario()
    ensures var target := Item(9, "Twin", 50000, Rare, "FT");
      var s0 := Initial(60000).(left := Some(InventoryItems[0]), right := Some(target),
                                slider := 100, mode := Get);
      var s1 := StartUpgradeStep(s0);
      var s2 := RollStep(s1, 0.4);
      && s1.balance == 10000
      && s2.result == Some(true)
      && s2.balance == 60000
  {
    var target := Item(9, "Twin", 50000, Rare, "FT");
    EqualPricesEven(InventoryItems[0], target);
  }

  // --------------------------------------------------------------- search

  /** ASCII `toLowerCase`. */
  function LowerChar(ch: char): char
  {
    if 'A' <= ch <= 'Z' then (ch as int - 'A' as int + 'a' as int) as char else ch
  }

  function Lower(s: string): (r: string)
    ensures |r| == |s|
    ensures forall i :: 0 <= i < |s| ==> r[i] == LowerChar(s[i])
  {
    if s == [] then [] else [LowerChar(s[0])] + Lower(s[1..])
  }

  /** Lower-casing twice is lower-casing once. */
  lemma LowerIdempotent(s: string)
    ensures Lower(Lower(s)) == Lower(s)
  {
  }

  /** `q` occurs in `s` starting at position `i`. */
  predicate OccursAt(s: string, q: string, i: int)
  {
    0 <= i && i + |q| <= |s| && s[i..i + |q|] == q
  }

  /** `s.includes(q)`: `q` occurs in `s` at some position. */
  function Contains(s: string, q: string): (r: bool)
    ensures r <==> exists i :: OccursAt(s, q, i)
    decreases |s|
  {
    if |q| > |s| then false
    else if s[..|q|] == q then assert OccursAt(s, q, 0); true
    else
      var r := Contains(s[1..], q);
      assert r ==> exists i :: OccursAt(s, q, i) by {
        if r {
          var i :| OccursAt(s[1..], q, i);
          assert s[1..][i..i + |q|] == s[i + 1..i + 1 + |q|];
          assert OccursAt(s, q, i + 1);
        }
      }
      assert (exists i :: OccursAt(s, q, i)) ==> r by {
        if exists i :: OccursAt(s, q, i) {
          var i :| OccursAt(s, q, i);
          assert i != 0;
          assert s[1..][i - 1..i - 1 + |q|] == s[i..i + |q|];
          assert OccursAt(s[1..], q, i - 1);
        }
      }
      r
  }

  /** The search test: the lower-cased name includes the lower-cased query. */
  predicate Matches(item: Item, query: string)
  {
    Contains(Lower(item.name), Lower(query))
  }

  /** `items.filter(item => item.name.toLowerCase().includes(query.toLowerCase()))`. */
  function Filter(items: seq<Item>, query: string): (r: seq<Item>)
    ensures |r| <= |items|
    ensures forall x :: x in r <==> x in items && Matches(x, query)
  {
    if items == [] then []
    else if Matches(items[0], query) then [items[0]] + Filter(items[1..], query)
    else Filter(items[1..], query)
  }

  /** Filtering works piece by piece, so the kept skins stay in catalogue order. */
  lemma {:induction false} FilterAppend(a: seq<Item>, b: seq<Item>, query: string)
    ensures Filter(a + b, query) == Filter(a, query) + Filter(b, query)
    decreases |a|
  {
    if a == [] {
      assert a + b == b;
    } else {
      assert (a + b)[0] == a[0] && (a + b)[1..] == a[1..] + b;
      FilterAppend(a[1..], b, query);
    }
  }

  /** An empty search keeps the whole list. */
  lemma {:induction false} EmptyQueryKeepsAll(items: seq<Item>)
    ensures Filter(items, "") == items
    decreases |items|
  {
    if items != [] {
      assert Contains(Lower(items[0].name), Lower("")) by {
        assert OccursAt(Lower(items[0].name), Lower(""), 0);
      }
      EmptyQueryKeepsAll(items[1..]);
    }
  }

  /** The search ignores the case of the query. */
  lemma {:induction false} QueryCaseIgnored(items: seq<Item>, query: string)
    ensures Filter(items, Lower(query)) == Filter(items, query)
    decreases |items|
  {
    LowerIdempotent(query);
    if items != [] {
      QueryCaseIgnored(items[1..], query);
    }
  }

  /** `filteredInventory`. */
  function FilteredInventory(query: string): (r: seq<Item>)
    ensures forall x :: x in r <==> x in InventoryItems && Matches(x, query)
  {
    Filter(InventoryItems, query)
  }

  /** `filteredMarket`. */
  function FilteredMarket(query: string): (r: seq<Item>)
    ensures forall x :: x in r <==> x in MarketItems && Matches(x, query)
  {
    Filter(MarketItems, query)
  }

  // ------------------------------------------------------------ component

  /** The component's state and its balance prop, updated in place. */
  class Upgrader {
    var balance: int
    var selectedLeft: Option<Item>
    var selectedRight: Option<Item>
    var slider: int
    var activeMode: Mode
    var isUpgrading: bool
    var upgradeResult: Option<bool>
    /** The pending `setTimeout`. */
    var timer: Timer

    function State(): Bench
      reads this
    {
      Bench(balance, selectedLeft, selectedRight, slider, activeMode, isUpgrading, upgradeResult, timer)
    }

    ghost predicate Valid()
      reads this
    {
      ValidBench(State())
    }

    constructor (initialBalance: int)
      requires initialBalance >= 0
      ensures Valid() && State() == Initial(initialBalance)
    {
      balance := initialBalance;
      selectedLeft := None;
      selectedRight := None;
      slider := DefaultSlider;
      activeMode := Improve;
      isUpgrading := false;
      upgradeResult := None;
      timer := NoTimer;
    }

    /** A click on an inventory skin. */
    method SelectLeft(item: Item)
      requires Valid() && item.price > 0
      modifies this
      ensures Valid()
      ensures State() == SelectLeftStep(old(State()), item)
    {
      if !isUpgrading {
        selectedLeft := Some(item);
      }
    }

    /** A click on a market skin. */
    method SelectRight(item: Item)
      requires Valid() && item.price > 0
      modifies this
      ensures Valid()
      ensures State() == SelectRightStep(old(State()), item)
    {
      if !isUpgrading {
        selectedRight := Some(item);
      }
    }

    /** The range input (0 to 100), shown in "improve" mode and disabled while
        upgrading. */
    method SetSlider(value: int)
      requires Valid() && !isUpgrading && activeMode == Improve && 0 <= value <= 100
      modifies this`slider
      ensures Valid()
      ensures State() == old(State()).(slider := value)
    {
      slider := value;
    }

    /** The "improve" / "get" tabs; a roll already armed keeps its mode. */
    method SetMode(mode: Mode)
      requires Valid()
      modifies this`activeMode
      ensures Valid()
      ensures State() == old(State()).(mode := mode)
    {
      activeMode := mode;
    }

    /** The upgrade button, disabled while upgrading. */
    method StartUpgrade()
      requires Valid() && !isUpgrading
      modifies this
      ensures Valid()
      ensures State() == StartUpgradeStep(old(State()))
    {
      if selectedLeft.None? || selectedRight.None? {
        return;
      }
      var cost := selectedLeft.value.price;
      if cost > balance {
        return;
      }
      isUpgrading := true;
      upgradeResult := None;
      balance := balance - cost;
      var chance := CalculateChance(selectedLeft, selectedRight, slider);
      timer := RollTimer(balance, chance, activeMode, selectedRight.value.price);
    }

    /** The first timer, with the roll `draw`. */
    method Roll(draw: real)
      requires Valid() && 0.0 <= draw < 1.0
      modifies this
      ensures Valid()
      ensures State() == RollStep(old(State()), draw)
    {
      if !timer.RollTimer? {
        return;
      }
      var success := Succeeds(draw, timer.chance);
      upgradeResult := Some(success);
      if success && timer.mode == Get {
        balance := timer.base + timer.prize;
      }
      timer := ClearTimer;
    }

    /** The second timer. */
    method Clear()
      requires Valid()
      modifies this
      ensures Valid()
      ensures State() == ClearStep(old(State()))
    {
      if timer != ClearTimer {
        return;
      }
      isUpgrading := false;
      upgradeResult := None;
      selectedLeft := None;
      selectedRight := None;
      timer := NoTimer;
    }
  }
}
