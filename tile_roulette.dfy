/** The tile wheel of src/components/TileRoulette.tsx.

    Bets are placed per colour and debited at once; a 7-second countdown then
    leads to the spin, which picks a colour group from one draw in [0, 100)
    (orange below 5, blue below 52.5, mint otherwise) and a tile of that group
    from a second, uniform draw. Five seconds later the bet on the winning
    colour is paid `amount * multiplier` and the tile joins the history; three
    seconds after that the bets are cleared.

    The timers become explicit steps (`Tick`, `Settle`, `Reset`), the armed
    timer a field, and `Math.random()` the draws passed to `Tick`. Wheel
    rotation is animation and is not modelled. */
module TileRoulette {
  import opened Optional
  import opened Stakes
  import History

  /** How many winning tiles the history keeps. */
  const HistoryCap: nat := 20

  /** The seconds counted down before a spin. */
  const CountdownStart: nat := 7

  /** The group boundaries of the first draw, in percent. */
  const OrangeBelow: real := 5.0
  const BlueBelow: real := 52.5

  datatype Colour = Blue | Mint | Orange

  datatype Tile = Tile(id: int, multiplier: int, colour: Colour)

  datatype Bet = Bet(colour: Colour, amount: int)

  /** The fifteen tiles of the wheel, in wheel order (the icons are left out). */
  const Tiles: seq<Tile> := [
    Tile(1, 2, Blue), Tile(2, 14, Orange), Tile(3, 2, Mint), Tile(4, 2, Blue),
    Tile(5, 2, Mint), Tile(6, 2, Blue), Tile(7, 2, Mint), Tile(8, 2, Blue),
    Tile(9, 2, Mint), Tile(10, 2, Blue), Tile(11, 2, Mint), Tile(12, 2, Blue),
    Tile(13, 2, Mint), Tile(14, 2, Blue), Tile(15, 2, Mint)]

  /** Orange tiles pay 14 times the stake, the others twice. */
  lemma CatalogueMultipliers()
    ensures |Tiles| == 15
    ensures forall t :: t in Tiles ==> t.multiplier == (if t.colour == Orange then 14 else 2)
  {
  }

  /** `tiles.filter(t => t.type === colour)`. */
  function OfColour(tiles: seq<Tile>, c: Colour): (r: seq<Tile>)
    ensures |r| <= |tiles|
    ensures forall t :: t in r <==> t in tiles && t.colour == c
  {
    if tiles == [] then []
    else if tiles[0].colour == c then [tiles[0]] + OfColour(tiles[1..], c)
    else OfColour(tiles[1..], c)
  }

  /** The within-group index `Math.floor(u * length)`: in range for every
      `u` in [0, 1). */
  function PickIndex(u: real, length: nat): (i: nat)
    requires 0.0 <= u < 1.0 && length > 0
    ensures i < length
    ensures i as real <= u * length as real < i as real + 1.0
  {
    assert u * length as real < length as real by {
      assert (1.0 - u) * length as real > 0.0;
    }
    (u * length as real).Floor
  }

  /** Every tile of a group is picked by some draw: `u = i / length` picks tile `i`. */
  lemma PickIndexReachesAll(i: nat, length: nat)
    requires i < length
    ensures 0.0 <= i as real / length as real < 1.0
    ensures PickIndex(i as real / length as real, length) == i
  {
    var u := i as real / length as real;
    assert u * length as real == i as real;
  }

  /** The colour group chosen by the first draw. */
  function GroupOf(r: real): (c: Colour)
  {
    if r < OrangeBelow then Orange else if r < BlueBelow then Blue else Mint
  }

  /** `tiles` holds at least one tile of colour `c`. */
  predicate HasColour(tiles: seq<Tile>, c: Colour)
  {
    exists i :: 0 <= i < |tiles| && tiles[i].colour == c
  }

  lemma OfColourNonEmpty(tiles: seq<Tile>, c: Colour)
    requires HasColour(tiles, c)
    ensures |OfColour(tiles, c)| > 0
  {
    var i :| 0 <= i < |tiles| && tiles[i].colour == c;
    assert tiles[i] in OfColour(tiles, c);
  }

  /** `performSpin`'s choice over the tile list `tiles`: the group from `r` in
      [0, 100) (the second tile below 5, a blue tile below 52.5, a mint tile
      otherwise), then the tile within the group from `u` in [0, 1). */
  function SpinChoice(tiles: seq<Tile>, r: real, u: real): (t: Tile)
    requires 0.0 <= r < 100.0 && 0.0 <= u < 1.0
    requires |tiles| > 1 && HasColour(tiles, Blue) && HasColour(tiles, Mint)
    ensures t in tiles
    ensures r < OrangeBelow ==> t == tiles[1]
    ensures OrangeBelow <= r < BlueBelow ==> t.colour == Blue
    ensures BlueBelow <= r ==> t.colour == Mint
  {
    if r < OrangeBelow then tiles[1]
    else if r < BlueBelow then
      var blue := OfColour(tiles, Blue);
      OfColourNonEmpty(tiles, Blue);
      var t := blue[PickIndex(u, |blue|)];
      assert t in blue;
      t
    else
      var mint := OfColour(tiles, Mint);
      OfColourNonEmpty(tiles, Mint);
      var t := mint[PickIndex(u, |mint|)];
      assert t in mint;
      t
  }

  /** Every wheel tile pays what its colour pays. */
  lemma WheelTilePays(t: Tile)
    requires t in Tiles
    ensures t.multiplier == (if t.colour == Orange then 14 else 2)
  {
    CatalogueMultipliers();
  }

  /** The spin on the wheel: below 5 the orange tile (x14), below 52.5 a blue
      tile (x2), otherwise a mint tile (x2). */
  function SelectTile(r: real, u: real): (t: Tile)
    requires 0.0 <= r < 100.0 && 0.0 <= u < 1.0
    ensures t in Tiles
    ensures r < OrangeBelow ==> t == Tiles[1] && t.colour == Orange && t.multiplier == 14
    ensures OrangeBelow <= r < BlueBelow ==> t.colour == Blue && t.multiplier == 2
    ensures BlueBelow <= r ==> t.colour == Mint && t.multiplier == 2
  {
    assert Tiles[0].colour == Blue && Tiles[2].colour == Mint && Tiles[1].colour == Orange;
    var t := SpinChoice(Tiles, r, u);
    WheelTilePays(t);
    t
  }

  /** The first draw splits [0, 100) into the three groups (orange below 5,
      blue below 52.5, mint from there on), and the spun tile has the colour of
      the group the first draw chose. */
  lemma SelectTileFollowsGroup(r: real, u: real)
    requires 0.0 <= r < 100.0 && 0.0 <= u < 1.0
    ensures GroupOf(r) == Orange <==> r < OrangeBelow
    ensures GroupOf(r) == Blue <==> OrangeBelow <= r < BlueBelow
    ensures GroupOf(r) == Mint <==> BlueBelow <= r
    ensures SelectTile(r, u).colour == GroupOf(r)
  {
  }

  /** Uniform within the group, on any tile list: for a first draw that picks
      the blue or the mint group, tile `i` of the group's `n` tiles is chosen by
      the second draw `i / n`. */
  lemma SpinChoiceReachesGroup(tiles: seq<Tile>, r: real, t: Tile)
    requires OrangeBelow <= r < 100.0
    requires |tiles| > 1 && HasColour(tiles, Blue) && HasColour(tiles, Mint)
    requires t in OfColour(tiles, GroupOf(r))
    ensures exists u :: 0.0 <= u < 1.0 && SpinChoice(tiles, r, u) == t
  {
    var group := OfColour(tiles, GroupOf(r));
    var i :| 0 <= i < |group| && group[i] == t;
    PickIndexReachesAll(i, |group|);
    var u := i as real / |group| as real;
    assert SpinChoice(tiles, r, u) == group[PickIndex(u, |group|)];
  }

  /** On the wheel: every blue or mint tile is picked by some second draw. */
  lemma GroupFullyReachable(r: real, t: Tile)
    requires OrangeBelow <= r < 100.0
    requires t in OfColour(Tiles, GroupOf(r))
    ensures exists u :: 0.0 <= u < 1.0 && SelectTile(r, u) == t
  {
    assert Tiles[0].colour == Blue && Tiles[2].colour == Mint;
    SpinChoiceReachesGroup(Tiles, r, t);
    var u :| 0.0 <= u < 1.0 && SpinChoice(Tiles, r, u) == t;
    assert SelectTile(r, u) == t;
  }

  /** `bets.find(b => b.type === colour)`. */
  function FindBet(bets: seq<Bet>, c: Colour): (r: Option<Bet>)
    ensures r.Some? ==> r.value in bets && r.value.colour == c
    ensures r.None? <==> forall b :: b in bets ==> b.colour != c
  {
    if bets == [] then None
    else if bets[0].colour == c then Some(bets[0])
    else FindBet(bets[1..], c)
  }

  /** `getBetAmount`: the stake on a colour, 0 when there is none. */
  function GetBetAmount(bets: seq<Bet>, c: Colour): (r: int)
    ensures (forall b :: b in bets ==> b.colour != c) ==> r == 0
    ensures (exists b :: b in bets && b.colour == c) ==> exists b :: b in bets && b.colour == c && r == b.amount
  {
    match FindBet(bets, c)
    case Some(b) => b.amount
    case None => 0
  }

  /** `getTotalBet`: the sum of all stakes. */
  function GetTotalBet(bets: seq<Bet>): (r: int)
    ensures (forall b :: b in bets ==> b.amount > 0) ==> r >= 0
    ensures (forall b :: b in bets ==> b.amount > 0) && bets != [] ==> r > 0
  {
    if bets == [] then 0 else bets[0].amount + GetTotalBet(bets[1..])
  }

  /** At most one bet per colour. */
  predicate OneBetPerColour(bets: seq<Bet>)
  {
    forall i, j :: 0 <= i < j < |bets| ==> bets[i].colour != bets[j].colour
  }

  /** `bets.map(b => b.type === colour ? {...b, amount: b.amount + stake} : b)`. */
  function AddToBet(bets: seq<Bet>, c: Colour, stake: int): (r: seq<Bet>)
    ensures |r| == |bets|
    ensures forall i :: 0 <= i < |bets| ==> r[i].colour == bets[i].colour
    ensures forall i :: 0 <= i < |bets| ==>
      r[i].amount == (if bets[i].colour == c then bets[i].amount + stake else bets[i].amount)
  {
    if bets == [] then []
    else
      var b := bets[0];
      [if b.colour == c then b.(amount := b.amount + stake) else b] + AddToBet(bets[1..], c, stake)
  }

  /** The merge-or-append of `placeBet`. */
  function MergeBet(bets: seq<Bet>, c: Colour, stake: int): (r: seq<Bet>)
  {
    if FindBet(bets, c).Some? then AddToBet(bets, c, stake) else bets + [Bet(c, stake)]
  }

  lemma {:induction false} TotalAfterAdd(bets: seq<Bet>, c: Colour, stake: int)
    requires OneBetPerColour(bets) && FindBet(bets, c).Some?
    ensures GetTotalBet(AddToBet(bets, c, stake)) == GetTotalBet(bets) + stake
    decreases |bets|
  {
    if bets[0].colour != c {
      assert OneBetPerColour(bets[1..]) by {
        forall i, j | 0 <= i < j < |bets[1..]| ensures bets[1..][i].colour != bets[1..][j].colour {
          assert bets[1..][i] == bets[i + 1] && bets[1..][j] == bets[j + 1];
        }
      }
      TotalAfterAdd(bets[1..], c, stake);
    } else {
      NoOtherBet(bets, c);
      AddToAbsent(bets[1..], c, stake);
    }
  }

  /** With one bet per colour, the head's colour appears nowhere else. */
  lemma NoOtherBet(bets: seq<Bet>, c: Colour)
    requires OneBetPerColour(bets) && bets != [] && bets[0].colour == c
    ensures FindBet(bets[1..], c).None?
  {
    forall b | b in bets[1..] ensures b.colour != c {
      var j :| 0 <= j < |bets[1..]| && bets[1..][j] == b;
      assert bets[j + 1] == b;
    }
  }

  /** Adding to a colour nobody bet on changes nothing. */
  lemma {:induction false} AddToAbsent(bets: seq<Bet>, c: Colour, stake: int)
    requires FindBet(bets, c).None?
    ensures AddToBet(bets, c, stake) == bets
    decreases |bets|
  {
    if bets != [] {
      AddToAbsent(bets[1..], c, stake);
    }
  }

  lemma {:induction false} TotalAppend(bets: seq<Bet>, extra: Bet)
    ensures GetTotalBet(bets + [extra]) == GetTotalBet(bets) + extra.amount
    decreases |bets|
  {
    if bets != [] {
      assert (bets + [extra])[1..] == bets[1..] + [extra];
      TotalAppend(bets[1..], extra);
    }
  }

  /** Merging a stake into the bets keeps one bet per colour, raises that
      colour's stake and the total by exactly the stake, and leaves the other
      colours' stakes alone. */
  lemma MergeBetSpec(bets: seq<Bet>, c: Colour, stake: int, other: Colour)
    requires OneBetPerColour(bets) && other != c
    ensures OneBetPerColour(MergeBet(bets, c, stake))
    ensures GetTotalBet(MergeBet(bets, c, stake)) == GetTotalBet(bets) + stake
    ensures GetBetAmount(MergeBet(bets, c, stake), c) == GetBetAmount(bets, c) + stake
    ensures GetBetAmount(MergeBet(bets, c, stake), other) == GetBetAmount(bets, other)
  {
    var m := MergeBet(bets, c, stake);
    if FindBet(bets, c).Some? {
      TotalAfterAdd(bets, c, stake);
      AddFindsSame(bets, c, stake, c);
      AddFindsSame(bets, c, stake, other);
    } else {
      TotalAppend(bets, Bet(c, stake));
      AppendFinds(bets, Bet(c, stake), c);
      AppendFinds(bets, Bet(c, stake), other);
    }
  }

  /** Merging a positive stake into positive stakes leaves every stake positive. */
  lemma MergeKeepsStakesPositive(bets: seq<Bet>, c: Colour, stake: int)
    requires stake > 0 && forall b :: b in bets ==> b.amount > 0
    ensures forall b :: b in MergeBet(bets, c, stake) ==> b.amount > 0
  {
    var m := MergeBet(bets, c, stake);
    if FindBet(bets, c).Some? {
      forall b | b in m ensures b.amount > 0 {
        var i :| 0 <= i < |m| && m[i] == b;
        assert bets[i] in bets;
      }
    }
  }

  /** Adding to a colour leaves the positions of all bets as they were, so a
      search by colour finds the same position, with the new amount. */
  lemma {:induction false} AddFindsSame(bets: seq<Bet>, c: Colour, stake: int, d: Colour)
    ensures FindBet(AddToBet(bets, c, stake), d).Some? == FindBet(bets, d).Some?
    ensures FindBet(bets, d).Some? ==>
      FindBet(AddToBet(bets, c, stake), d).value.amount
        == FindBet(bets, d).value.amount + (if d == c then stake else 0)
    decreases |bets|
  {
    if bets != [] && bets[0].colour != d {
      AddFindsSame(bets[1..], c, stake, d);
    }
  }

  lemma {:induction false} AppendFinds(bets: seq<Bet>, extra: Bet, d: Colour)
    requires FindBet(bets, extra.colour).None?
    ensures FindBet(bets + [extra], d) == if d == extra.colour then Some(extra) else FindBet(bets, d)
    decreases |bets|
  {
    if bets != [] {
      assert (bets + [extra])[1..] == bets[1..] + [extra];
      AppendFinds(bets[1..], extra, d);
    }
  }

  /** Which timer is armed: none, the one-second countdown interval, the
      five-second spin timer holding the chosen tile, or the three-second
      timer that clears the table. */
  datatype Timer = NoTimer | Countdown | SpinTimer(tile: Tile) | ResetTimer

  datatype Table = Table(
    balance: int,
    bet: int,
    bets: seq<Bet>,
    spinning: bool,
    winningTile: Option<Tile>,
    countdown: int,
    history: seq<Tile>,
    timer: Timer)

  /** What every reachable state satisfies. */
  predicate ValidTable(s: Table)
  {
    && s.balance >= 0
    && s.bet >= 0
    && OneBetPerColour(s.bets)
    && (forall b :: b in s.bets ==> b.amount > 0)
    && |s.history| <= HistoryCap
    && (s.timer == NoTimer <==> !s.spinning)
    && (s.spinning ==> s.bets != [])
    && (s.timer == Countdown ==> 1 <= s.countdown <= CountdownStart)
    && (s.timer != Countdown ==> s.countdown == 0)
    && (s.timer.SpinTimer? ==> s.timer.tile in Tiles)
  }

  /** The state on mount: the given balance, a stake of 100, no bets, no
      countdown, no winning tile and an empty history. */
  function Initial(balance: int): (r: Table)
    requires balance >= 0
    ensures ValidTable(r) && r.bets == [] && !r.spinning && r.timer == NoTimer
    ensures r.balance == balance && r.bet == DefaultBet
    ensures r.countdown == 0 && r.winningTile == None && r.history == []
  {
    Table(balance, DefaultBet, [], false, None, 0, [], NoTimer)
  }

  /** `placeBet(colour)`: rejected while spinning or when the stake is not
      positive or not covered; otherwise the stake is debited and merged into
      the bets. */
  function PlaceBetStep(s: Table, c: Colour): (r: Table)
    requires ValidTable(s)
    ensures ValidTable(r)
    ensures s.bet > s.balance || s.bet <= 0 || s.spinning ==> r == s
    ensures !(s.bet > s.balance || s.bet <= 0 || s.spinning) ==>
      && r.balance == s.balance - s.bet
      && GetBetAmount(r.bets, c) == GetBetAmount(s.bets, c) + s.bet
      && GetTotalBet(r.bets) == GetTotalBet(s.bets) + s.bet
      && (forall d :: d != c ==> GetBetAmount(r.bets, d) == GetBetAmount(s.bets, d))
      && r == s.(balance := r.balance, bets := r.bets)
  {
    if s.bet > s.balance || s.bet <= 0 || s.spinning then s
    else
      var bets := MergeBet(s.bets, c, s.bet);
      var other := if c == Blue then Mint else Blue;
      MergeBetSpec(s.bets, c, s.bet, other);
      MergeKeepsStakesPositive(s.bets, c, s.bet);
      forall d | d != c ensures GetBetAmount(bets, d) == GetBetAmount(s.bets, d) {
        MergeBetSpec(s.bets, c, s.bet, d);
      }
      s.(bets := bets, balance := s.balance - s.bet)
  }

  /** An accepted bet is merged into the table and debited. */
  lemma PlaceBetMerges(s: Table, c: Colour)
    requires ValidTable(s) && !(s.bet > s.balance || s.bet <= 0 || s.spinning)
    ensures PlaceBetStep(s, c) == s.(bets := MergeBet(s.bets, c, s.bet), balance := s.balance - s.bet)
  {
  }

  /** Placing a bet moves money from the balance onto the table: the balance
      plus the total stake stays the same, accepted or not. */
  lemma PlaceBetConserves(s: Table, c: Colour)
    requires ValidTable(s)
    ensures var r := PlaceBetStep(s, c);
      r.balance + GetTotalBet(r.bets) == s.balance + GetTotalBet(s.bets)
  {
  }

  /** `startSpin`: rejected with no bets or while spinning; otherwise arms the
      countdown at 7. */
  function StartSpinStep(s: Table): (r: Table)
    requires ValidTable(s)
    ensures ValidTable(r)
    ensures s.bets == [] || s.spinning ==> r == s
    ensures s.bets != [] && !s.spinning ==>
      && r.spinning && r.timer == Countdown && r.countdown == CountdownStart
      && r.winningTile == None
      && r.balance == s.balance && r.bets == s.bets && r.history == s.history
  {
    if s.bets == [] || s.spinning then s
    else s.(spinning := true, winningTile := None, countdown := CountdownStart, timer := Countdown)
  }

  /** One second of the countdown interval. From 1 it stops the interval, sets
      the countdown to 0 and spins (`performSpin`), which picks the tile with
      the draws `r` and `u` and arms the five-second timer. */
  function TickStep(s: Table, r: real, u: real): (t: Table)
    requires ValidTable(s) && 0.0 <= r < 100.0 && 0.0 <= u < 1.0
    ensures ValidTable(t)
    ensures s.timer != Countdown ==> t == s
    ensures s.timer == Countdown && s.countdown > 1 ==>
      t == s.(countdown := s.countdown - 1)
    ensures s.timer == Countdown && s.countdown <= 1 ==>
      t == s.(countdown := 0, timer := SpinTimer(SelectTile(r, u)))
  {
    if s.timer != Countdown then s
    else if s.countdown <= 1 then s.(countdown := 0, timer := SpinTimer(SelectTile(r, u)))
    else s.(countdown := s.countdown - 1)
  }

  /** `n` seconds of the countdown with the same draws. */
  function Ticks(s: Table, n: nat, r: real, u: real): (t: Table)
    requires ValidTable(s) && 0.0 <= r < 100.0 && 0.0 <= u < 1.0
    ensures ValidTable(t)
    decreases n
  {
    if n == 0 then s else Ticks(TickStep(s, r, u), n - 1, r, u)
  }

  /** The countdown takes exactly its starting value in seconds: before that
      it is still counting, down by one each second, and the spin happens on
      the tick that would take it from 1 to 0. */
  lemma {:induction false} CountdownRuns(s: Table, k: nat, r: real, u: real)
    requires ValidTable(s) && s.timer == Countdown && 0.0 <= r < 100.0 && 0.0 <= u < 1.0
    requires k <= s.countdown
    ensures k < s.countdown ==> Ticks(s, k, r, u) == s.(countdown := s.countdown - k)
    ensures k == s.countdown ==>
      Ticks(s, k, r, u) == s.(countdown := 0, timer := SpinTimer(SelectTile(r, u)))
    decreases k
  {
    if k > 0 {
      var s1 := TickStep(s, r, u);
      assert Ticks(s, k, r, u) == Ticks(s1, k - 1, r, u);
      if s.countdown > 1 {
        assert s1 == s.(countdown := s.countdown - 1);
        CountdownRuns(s1, k - 1, r, u);
      } else {
        assert k == 1 && Ticks(s1, 0, r, u) == s1;
      }
    }
  }

  /** After `startSpin` the spin comes on the seventh tick, not before. */
  lemma SpinAfterSevenTicks(s: Table, r: real, u: real)
    requires ValidTable(s) && s.bets != [] && !s.spinning
    requires 0.0 <= r < 100.0 && 0.0 <= u < 1.0
    ensures Ticks(StartSpinStep(s), 6, r, u).timer == Countdown
    ensures Ticks(StartSpinStep(s), 6, r, u).countdown == 1
    ensures Ticks(StartSpinStep(s), 7, r, u).timer == SpinTimer(SelectTile(r, u))
  {
    CountdownRuns(StartSpinStep(s), 6, r, u);
    CountdownRuns(StartSpinStep(s), 7, r, u);
  }

  /** What the bets on the table win when `tile` comes up: the stake on its
      colour times its multiplier; stakes on other colours are lost. */
  function Winnings(bets: seq<Bet>, tile: Tile): (w: int)
    ensures FindBet(bets, tile.colour).None? ==> w == 0
    ensures FindBet(bets, tile.colour).Some? ==> w == FindBet(bets, tile.colour).value.amount * tile.multiplier
  {
    GetBetAmount(bets, tile.colour) * tile.multiplier
  }

  /** The five-second timer: shows the tile, records it, and credits the bet
      on its colour, if any. */
  function SettleStep(s: Table): (t: Table)
    requires ValidTable(s)
    ensures ValidTable(t)
    ensures !s.timer.SpinTimer? ==> t == s
    ensures s.timer.SpinTimer? ==>
      && t.winningTile == Some(s.timer.tile)
      && t.history == History.Prepend(s.timer.tile, s.history, HistoryCap)
      && t.balance == s.balance + Winnings(s.bets, s.timer.tile)
      && t.timer == ResetTimer
      && t.bets == s.bets && t.spinning
  {
    if !s.timer.SpinTimer? then s
    else
      var tile := s.timer.tile;
      WheelTilePays(tile);
      var credit := match FindBet(s.bets, tile.colour)
        case Some(b) => b.amount * tile.multiplier
        case None => 0;
      assert credit >= 0;
      s.(winningTile := Some(tile),
         history := History.Prepend(tile, s.history, HistoryCap),
         balance := s.balance + credit,
         timer := ResetTimer)
  }

  /** The three-second timer: stops spinning and clears the bets. */
  function ResetStep(s: Table): (t: Table)
    requires ValidTable(s)
    ensures ValidTable(t)
    ensures s.timer != ResetTimer ==> t == s
    ensures s.timer == ResetTimer ==>
      t.bets == [] && !t.spinning && t.timer == NoTimer
      && t.balance == s.balance && t.history == s.history
  {
    if s.timer != ResetTimer then s
    else s.(spinning := false, bets := [], timer := NoTimer)
  }

  /** A click on a colour with the stake set to `stake` beforehand. */
  datatype Placement = Placement(stake: nat, colour: Colour)

  /** The bets placed before a spin, one placement after the other. */
  function PlaceAll(s: Table, ps: seq<Placement>): (r: Table)
    requires ValidTable(s)
    ensures ValidTable(r)
    ensures r.balance + GetTotalBet(r.bets) == s.balance + GetTotalBet(s.bets)
    ensures r.spinning == s.spinning && r.timer == s.timer && r.countdown == s.countdown
    ensures r.history == s.history && r.winningTile == s.winningTile
    decreases |ps|
  {
    if ps == [] then s
    else
      var t := s.(bet := ps[0].stake);
      PlaceBetConserves(t, ps[0].colour);
      PlaceAll(PlaceBetStep(t, ps[0].colour), ps[1..])
  }

  /** A whole round, from an idle table through the placements, the seven
      countdown ticks, the settle timer and the reset timer, ends at the
      balance before the first bet, minus every stake, plus the winning
      colour's stake times the tile's multiplier. Stakes on other colours are
      never returned. With no bet on the table the spin is refused. */
  lemma RoundLedger(s: Table, ps: seq<Placement>, r: real, u: real)
    requires ValidTable(s) && s.bets == [] && !s.spinning
    requires 0.0 <= r < 100.0 && 0.0 <= u < 1.0
    ensures var p := PlaceAll(s, ps);
      p.bets == [] ==> StartSpinStep(p) == p
    ensures var p := PlaceAll(s, ps);
      var t := ResetStep(SettleStep(Ticks(StartSpinStep(p), CountdownStart, r, u)));
      p.bets != [] ==>
        && t.balance == s.balance - GetTotalBet(p.bets) + Winnings(p.bets, SelectTile(r, u))
        && t.bets == [] && !t.spinning && t.timer == NoTimer
        && t.history == History.Prepend(SelectTile(r, u), s.history, HistoryCap)
  {
    var p := PlaceAll(s, ps);
    if p.bets != [] {
      CountdownRuns(StartSpinStep(p), CountdownStart, r, u);
    }
  }

  /** Balance 1500; 100 on blue and 50 on orange; orange comes up: 700 is
      credited, the blue stake is lost, and the balance ends at 2050. */
  lemma OrangeScenario()
    ensures var s0 := Initial(1500);
      var s1 := PlaceBetStep(s0, Blue);
      var s2 := PlaceBetStep(s1.(bet := 50), Orange);
      var s3 := StartSpinStep(s2);
      var s4 := Ticks(s3, 7, 2.0, 0.5);
      var s5 := SettleStep(s4);
      var s6 := ResetStep(s5);
      && s2.balance == 1350
      && s4.timer == SpinTimer(Tiles[1])
      && s5.balance == 2050 && s6.balance == 2050 && s6.bets == []
  {
    var s0 := Initial(1500);
    var s1 := PlaceBetStep(s0, Blue);
    var s2 := PlaceBetStep(s1.(bet := 50), Orange);
    assert s2.bets == [Bet(Blue, 100), Bet(Orange, 50)];
    SpinAfterSevenTicks(s2, 2.0, 0.5);
  }

  /** The component: its state hooks as fields, its handlers and timers as
      methods. */
  class Roulette {
    var balance: int
    var bet: int
    var bets: seq<Bet>
    var isSpinning: bool
    var winningTile: Option<Tile>
    var countdown: int
    var history: seq<Tile>
    /** The armed `countdownRef` interval or `setTimeout`. */
    var timer: Timer

    function State(): Table
      reads this
    {
      Table(balance, bet, bets, isSpinning, winningTile, countdown, history, timer)
    }

    ghost predicate Valid()
      reads this
    {
      ValidTable(State())
    }

    constructor (initialBalance: int)
      requires initialBalance >= 0
      ensures Valid() && State() == Initial(initialBalance)
    {
      balance := initialBalance;
      bet := DefaultBet;
      bets := [];
      isSpinning := false;
      winningTile := None;
      countdown := 0;
      history := [];
      timer := NoTimer;
    }

    method PlaceBet(c: Colour)
      requires Valid()
      modifies this
      ensures Valid()
      ensures State() == PlaceBetStep(old(State()), c)
    {
      ghost var next := PlaceBetStep(State(), c);
      if bet > balance || bet <= 0 || isSpinning {
        return;
      }
      PlaceBetMerges(State(), c);
      bets := MergeBet(bets, c, bet);
      balance := balance - bet;
      assert State() == next;
      assert ValidTable(next);
    }

    method StartSpin()
      requires Valid()
      modifies this
      ensures Valid()
      ensures State() == StartSpinStep(old(State()))
    {
      if |bets| == 0 || isSpinning {
        return;
      }
      isSpinning := true;
      winningTile := None;
      countdown := CountdownStart;
      timer := Countdown;
    }

    /** One firing of the countdown interval; `r` and `u` are the draws
        `performSpin` uses when the countdown ends. */
    method Tick(r: real, u: real)
      requires Valid() && 0.0 <= r < 100.0 && 0.0 <= u < 1.0
      modifies this
      ensures Valid()
      ensures State() == TickStep(old(State()), r, u)
    {
      if timer != Countdown {
        return;
      }
      if countdown <= 1 {
        countdown := 0;
        PerformSpin(r, u);
      } else {
        countdown := countdown - 1;
      }
    }

    /** `performSpin`: picks the tile and arms the five-second timer. */
    method PerformSpin(r: real, u: real)
      requires 0.0 <= r < 100.0 && 0.0 <= u < 1.0
      modifies this
      ensures State() == old(State()).(timer := SpinTimer(SelectTile(r, u)))
    {
      var selected := SelectTile(r, u);
      timer := SpinTimer(selected);
    }

    /** The five-second timer armed by `performSpin`. */
    method Settle()
      requires Valid()
      modifies this
      ensures Valid()
      ensures State() == SettleStep(old(State()))
    {
      if !timer.SpinTimer? {
        return;
      }
      ghost var before := State();
      var tile := timer.tile;
      winningTile := Some(tile);
      history := History.Prepend(tile, history, HistoryCap);
      var winningBet := FindBet(bets, tile.colour);
      if winningBet.Some? {
        balance := balance + winningBet.value.amount * tile.multiplier;
      }
      timer := ResetTimer;
      assert State() == SettleStep(before);
    }

    /** The three-second timer armed by `Settle`. */
    method Reset()
      requires Valid()
      modifies this
      ensures Valid()
      ensures State() == ResetStep(old(State()))
    {
      if timer != ResetTimer {
        return;
      }
      isSpinning := false;
      bets := [];
      timer := NoTimer;
    }

    /** The stake input, disabled while spinning. */
    method EnterBet(entered: int)
      requires Valid() && !isSpinning
      modifies this`bet
      ensures Valid()
      ensures State() == old(State()).(bet := TypedBet(entered))
    {
      bet := TypedBet(entered);
    }

    /** The "x2" button, disabled while spinning. */
    method DoubleBet()
      requires Valid() && !isSpinning
      modifies this`bet
      ensures Valid()
      ensures State() == old(State()).(bet := DoubledBet(old(bet), balance))
    {
      bet := DoubledBet(bet, balance);
    }

    /** A quick-stake button, disabled while spinning. */
    method QuickBet(amount: int)
      requires Valid() && !isSpinning && amount in QuickAmounts
      modifies this`bet
      ensures Valid()
      ensures State() == old(State()).(bet := amount)
    {
      bet := amount;
    }
  }
}
