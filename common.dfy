/** Small building blocks shared by the three wagering components. */
module Optional {

  /** A value that may be absent (the components' `null` / `undefined`). */
  datatype Option<+T> = None | Some(value: T)
}

/** The bet-amount controls next to the stake input: RunnerGame and TileRoulette
    both offer a typed amount, a doubling button and the quick amounts; only
    RunnerGame has a halving button. */
module Stakes {

  /** The stake both games start with. */
  const DefaultBet: int := 100

  /** The amounts of the quick-stake buttons. */
  const QuickAmounts: seq<int> := [50, 100, 500, 1000]

  /** The typed stake: a negative entry is raised to 0 (`Math.max(0, value)`). */
  function TypedBet(entered: int): (r: int)
    ensures r >= 0 && r >= entered
    ensures entered >= 0 ==> r == entered
    ensures entered < 0 ==> r == 0
  {
    if entered < 0 then 0 else entered
  }

  /** The "x2" button: twice the stake, but never more than the balance
      (`Math.min(bet * 2, balance)`). */
  function DoubledBet(bet: int, balance: int): (r: int)
    ensures r <= balance && r <= 2 * bet
    ensures r == balance || r == 2 * bet
    ensures bet >= 0 && balance >= 0 ==> r >= 0
  {
    if 2 * bet <= balance then 2 * bet else balance
  }

  /** The "/2" button: half the stake, rounded down (`Math.floor(bet / 2)`).
      For a positive divisor Dafny's Euclidean `/` is exactly floor division,
      so negative stakes round down as in the component. */
  function HalvedBet(bet: int): (r: int)
    ensures 2 * r <= bet < 2 * r + 2
    ensures bet >= 0 ==> 0 <= r <= bet
  {
    bet / 2
  }
}

/** The history feeds: newest entry first, older entries evicted beyond a cap
    (`[entry, ...prev.slice(0, cap - 1)]`). */
module History {

  function Prepend<T>(entry: T, feed: seq<T>, cap: nat): (r: seq<T>)
    requires cap >= 1
    ensures 1 <= |r| <= cap
    ensures r[0] == entry
    ensures r[1..] <= feed
    ensures |feed| < cap ==> r == [entry] + feed
    ensures |feed| >= cap ==> |r| == cap
  {
    if |feed| < cap - 1 then [entry] + feed else [entry] + feed[..cap - 1]
  }
}
