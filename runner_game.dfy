/** The crash ("runner") round of src/components/RunnerGame.tsx.

    A round debits the stake, then a 100 ms interval raises the multiplier by
    0.01 until it reaches the crash point sampled at the start (the stake is
    lost) or the player cashes out (manually, or automatically at the selected
    multiplier) for floor(stake * multiplier).

    The interval becomes an explicit `Tick`, `Math.random()` becomes the `draw`
    parameter of the start operations, and the multiplier is an exact real
    (Dafny's reals are rationals), so 1.00 + k * 0.01 carries no float drift.

    The component reads `balance`, `multiplier` and `cashedOut` from the closure
    of the render in which the round was started. The model keeps one balance
    and the values as they are when a step runs; where the component's stale
    reads give a different result, a comment at that step says so. */
module RunnerGame {
  import opened Stakes
  import History

  /** How many terminal multipliers the history strip keeps. */
  const HistoryCap: nat := 13

  /** The auto cash-out thresholds the component offers. */
  const MultiplierOptions: seq<real> := [1.1, 1.2, 1.5, 2.0]

  /** The growth of the multiplier per tick. */
  const Step: real := 0.01

  /** The lowest crash point. */
  const MinCrashPoint: real := 1.01

  /** The crash point sampled from a draw `r` in [0, 1): `max(1.01, r * 10)`. */
  function CrashPoint(draw: real): (r: real)
    requires 0.0 <= draw < 1.0
    ensures MinCrashPoint <= r < 10.0
    ensures r >= draw * 10.0
    ensures r == MinCrashPoint || r == draw * 10.0
  {
    if draw * 10.0 < MinCrashPoint then MinCrashPoint else draw * 10.0
  }

  /** What a cash-out pays: `Math.floor(bet * multiplier)`. */
  function Payout(bet: int, multiplier: real): (r: int)
    ensures r as real <= bet as real * multiplier < r as real + 1.0
  {
    (bet as real * multiplier).Floor
  }

  /** A cash-out at a multiplier of at least 1.00 returns at least the stake. */
  lemma PayoutCoversStake(bet: int, multiplier: real)
    requires bet >= 0 && multiplier >= 1.0
    ensures bet <= Payout(bet, multiplier)
  {
    assert bet as real * (multiplier - 1.0) >= 0.0;
  }

  /** Which body the armed interval runs: the plain one of `startGame`, or the
      one of `autoBet`, which also cashes out at the threshold chosen when the
      round was started. */
  datatype Mode = Manual | Auto(target: real)

  /** The component's state; `crashPoint` is `crashPointRef`, `mode` the armed
      interval. */
  datatype Round = Round(
    balance: int,
    bet: int,
    multiplier: real,
    running: bool,
    crashed: bool,
    cashedOut: bool,
    winAmount: int,
    selected: real,
    crashPoint: real,
    mode: Mode,
    history: seq<real>)

  /** What every reachable state satisfies. A running round is below its crash
      point (which lies in [1.01, 10)) and below its auto cash-out threshold,
      and has not been resolved yet. */
  predicate ValidRound(s: Round)
  {
    && FieldsInRange(s)
    && (s.running ==>
          && MinCrashPoint <= s.crashPoint < 10.0
          && s.multiplier < s.crashPoint
          && s.bet > 0
          && !s.crashed
          && !s.cashedOut
          && (s.mode.Auto? ==> s.mode.target in MultiplierOptions && s.multiplier < s.mode.target))
  }

  /** The part of the invariant that does not depend on a round running; it
      also holds in the middle of a step, while the round is being stopped. */
  predicate FieldsInRange(s: Round)
  {
    && s.balance >= 0
    && s.bet >= 0
    && s.multiplier >= 1.0
    && s.selected in MultiplierOptions
    && |s.history| <= HistoryCap
  }

  /** The terminal multipliers the history strip shows on mount. */
  const SampleHistory: seq<real> :=
    [1.12, 3.04, 11.40, 1.01, 15.19, 2.47, 1.35, 2.69, 6.74, 1.18, 7.11, 3.49, 1.00]

  /** The state on mount, with the component's sample history. */
  function Initial(balance: int): (r: Round)
    requires balance >= 0
    ensures ValidRound(r) && !r.running
    ensures r.balance == balance && r.bet == DefaultBet && r.multiplier == 1.0
    ensures r.selected == 2.0 && r.history == SampleHistory && !r.cashedOut && !r.crashed
  {
    Round(balance, DefaultBet, 1.0, false, false, false, 0, 2.0, 0.0, Manual, SampleHistory)
  }

  /** The guard of `startGame` and `autoBet`. */
  predicate CanStart(s: Round)
  {
    0 < s.bet <= s.balance
  }

  /** `startGame` (`auto` false) and `autoBet` (`auto` true). The start
      buttons are only shown while no round is running. */
  function StartStep(s: Round, draw: real, auto: bool): (r: Round)
    requires ValidRound(s) && !s.running && 0.0 <= draw < 1.0
    ensures ValidRound(r)
    ensures !CanStart(s) ==> r == s
    ensures CanStart(s) ==>
      && r.balance == s.balance - s.bet
      && r.multiplier == 1.0
      && r.running && !r.crashed && !r.cashedOut
      && r.crashPoint == CrashPoint(draw)
      && MinCrashPoint <= r.crashPoint < 10.0
      && r.mode == (if auto then Auto(s.selected) else Manual)
      && r.bet == s.bet && r.selected == s.selected
      && r.winAmount == s.winAmount && r.history == s.history
  {
    if !CanStart(s) then s
    else
      s.(running := true, crashed := false, cashedOut := false, multiplier := 1.0,
         balance := s.balance - s.bet,
         crashPoint := CrashPoint(draw),
         mode := if auto then Auto(s.selected) else Manual)
  }

  /** `stopGame(crashed)`: stops the round, pays `floor(bet * multiplier)` when
      it did not crash and was not paid yet, and records the multiplier.
      The component records the multiplier of the render that started the
      round (a stale closure), not the terminal one; the model records the
      terminal one, which is what the history strip is meant to show. */
  function StopGameStep(s: Round, crashed: bool): (r: Round)
    requires FieldsInRange(s)
    ensures ValidRound(r) && !r.running && r.crashed == crashed
    ensures r.multiplier == s.multiplier && r.bet == s.bet && r.selected == s.selected
    ensures r.history == History.Prepend(s.multiplier, s.history, HistoryCap)
    ensures !crashed && !s.cashedOut ==>
      && r.balance == s.balance + Payout(s.bet, s.multiplier)
      && r.winAmount == Payout(s.bet, s.multiplier)
      && r.cashedOut
    ensures crashed || s.cashedOut ==>
      r.balance == s.balance && r.winAmount == s.winAmount && r.cashedOut == s.cashedOut
  {
    var credit := !crashed && !s.cashedOut;
    var win := Payout(s.bet, s.multiplier);
    s.(running := false,
       crashed := crashed,
       winAmount := if credit then win else s.winAmount,
       balance := if credit then s.balance + win else s.balance,
       cashedOut := s.cashedOut || credit,
       history := History.Prepend(s.multiplier, s.history, HistoryCap))
  }

  /** One firing of the 100 ms interval. The crash check comes first; in auto
      mode the threshold is checked next. A resolved round has no interval, so
      a tick changes nothing. */
  function TickStep(s: Round): (r: Round)
    requires ValidRound(s)
    ensures ValidRound(r)
    ensures r.multiplier >= s.multiplier
    ensures r.bet == s.bet
    ensures !s.running ==> r == s
    ensures s.running && s.multiplier + Step >= s.crashPoint ==>
      && r.crashed && !r.running && !r.cashedOut
      && r.multiplier == s.crashPoint
      && r.balance == s.balance
      && r.history == History.Prepend(s.crashPoint, s.history, HistoryCap)
    ensures s.running && s.multiplier + Step < s.crashPoint && s.mode.Auto?
            && s.multiplier + Step >= s.mode.target ==>
      && r.cashedOut && !r.crashed && !r.running
      && r.multiplier == s.mode.target
      && r.balance == s.balance + Payout(s.bet, s.mode.target)
      && r.history == History.Prepend(s.mode.target, s.history, HistoryCap)
    ensures s.running && s.multiplier + Step < s.crashPoint
            && (s.mode.Auto? ==> s.multiplier + Step < s.mode.target) ==>
      r == s.(multiplier := s.multiplier + Step)
  {
    if !s.running then s
    else
      var next := s.multiplier + Step;
      if next >= s.crashPoint then
        StopGameStep(s.(multiplier := s.crashPoint), true)
      else if s.mode.Auto? && next >= s.mode.target then
        // The intended single credit: cashedOut is set first and stopGame
        // pays nothing more. `StaleTickStep` below is the component as written.
        var win := Payout(s.bet, s.mode.target);
        StopGameStep(s.(winAmount := win, balance := s.balance + win, cashedOut := true,
                    multiplier := s.mode.target), false)
      else
        s.(multiplier := next)
  }

  /** `cashOut`: ignored unless a round is running and not yet cashed out;
      otherwise pays `floor(bet * multiplier)` once and ends the round. */
  function CashOutStep(s: Round): (r: Round)
    requires ValidRound(s)
    ensures ValidRound(r)
    ensures !s.running || s.cashedOut ==> r == s
    ensures s.running && !s.cashedOut ==>
      && r.balance == s.balance + Payout(s.bet, s.multiplier)
      && r.winAmount == Payout(s.bet, s.multiplier)
      && r.cashedOut && !r.running && !r.crashed
      && r.multiplier == s.multiplier
      && r.history == History.Prepend(s.multiplier, s.history, HistoryCap)
  {
    if !s.running || s.cashedOut then s else StopGameStep(s, false)
  }

  /** A second cash-out never pays again. */
  lemma CashOutOnce(s: Round)
    requires ValidRound(s)
    ensures CashOutStep(CashOutStep(s)) == CashOutStep(s)
  {
  }

  /** What can happen to a running round: the interval fires, or the player
      presses the cash-out button. */
  datatype Event = TickEvent | CashOutEvent

  function Apply(s: Round, e: Event): (r: Round)
    requires ValidRound(s)
    ensures ValidRound(r)
  {
    match e
    case TickEvent => TickStep(s)
    case CashOutEvent => CashOutStep(s)
  }

  /** The state after a sequence of events. */
  function Run(s: Round, events: seq<Event>): (r: Round)
    requires ValidRound(s)
    ensures ValidRound(r)
    decreases |events|
  {
    if events == [] then s else Run(Apply(s, events[0]), events[1..])
  }

  /** The state after `n` ticks and no cash-out. */
  function Ticks(s: Round, n: nat): (r: Round)
    requires ValidRound(s)
    ensures ValidRound(r)
    decreases n
  {
    if n == 0 then s else Ticks(TickStep(s), n - 1)
  }

  /** Once a round is resolved, nothing that can happen to it changes the state. */
  lemma {:induction false} ResolvedIsFinal(s: Round, events: seq<Event>)
    requires ValidRound(s) && !s.running
    ensures Run(s, events) == s
    decreases |events|
  {
    if events != [] {
      ResolvedIsFinal(Apply(s, events[0]), events[1..]);
    }
  }

  /** Single credit: whatever ticks and cash-outs follow, a running round pays
      at most once, exactly `floor(bet * terminal multiplier)` and only if it
      was cashed out, and it adds exactly one history entry when it ends. */
  lemma {:induction false} RoundPaysOnce(s: Round, events: seq<Event>)
    requires ValidRound(s) && s.running
    ensures var t := Run(s, events);
      && t.bet == s.bet
      && t.balance == s.balance + (if t.cashedOut then Payout(s.bet, t.multiplier) else 0)
      && (t.cashedOut ==> !t.crashed)
      && (t.running ==> t.history == s.history)
      && (!t.running ==> t.history == History.Prepend(t.multiplier, s.history, HistoryCap))
    decreases |events|
  {
    if events != [] {
      var s1 := Apply(s, events[0]);
      if s1.running {
        RoundPaysOnce(s1, events[1..]);
      } else {
        ResolvedIsFinal(s1, events[1..]);
      }
    }
  }

  /** A whole round from an idle state: the balance ends at the old balance
      minus the stake, plus the payout if the round was cashed out. */
  lemma RoundLedger(s: Round, draw: real, auto: bool, events: seq<Event>)
    requires ValidRound(s) && !s.running && CanStart(s) && 0.0 <= draw < 1.0
    ensures var t := Run(StartStep(s, draw, auto), events);
      t.balance == s.balance - s.bet + (if t.cashedOut then Payout(s.bet, t.multiplier) else 0)
  {
    RoundPaysOnce(StartStep(s, draw, auto), events);
  }

  /** Below the crash point and the auto threshold, the multiplier runs
      1.00, 1.01, 1.02, ... : after `k` ticks it has grown by exactly k * 0.01
      and nothing else has changed. */
  lemma {:induction false} MultiplierClimbs(s: Round, k: nat)
    requires ValidRound(s) && s.running
    requires s.multiplier + k as real * Step < s.crashPoint
    requires s.mode.Auto? ==> s.multiplier + k as real * Step < s.mode.target
    ensures Ticks(s, k) == s.(multiplier := s.multiplier + k as real * Step)
    decreases k
  {
    if k > 0 {
      var s1 := TickStep(s);
      assert s1 == s.(multiplier := s.multiplier + Step);
      MultiplierClimbs(s1, k - 1);
    }
  }

  /** A running round ends within (10 - multiplier) * 100 ticks, because the
      crash point is below 10. */
  lemma {:induction false} RoundEnds(s: Round, n: nat)
    requires ValidRound(s) && s.running
    requires n as real >= (10.0 - s.multiplier) * 100.0
    ensures !Ticks(s, n).running
    decreases n
  {
    var s1 := TickStep(s);
    if !s1.running {
      ResolvedTicks(s1, n - 1);
    } else {
      RoundEnds(s1, n - 1);
    }
  }

  lemma {:induction false} ResolvedTicks(s: Round, n: nat)
    requires ValidRound(s) && !s.running
    ensures Ticks(s, n) == s
    decreases n
  {
    if n > 0 {
      ResolvedTicks(TickStep(s), n - 1);
    }
  }

  /** Every started round is over after at most 900 ticks (90 seconds). */
  lemma StartedRoundEnds(s: Round, draw: real, auto: bool)
    requires ValidRound(s) && !s.running && CanStart(s) && 0.0 <= draw < 1.0
    ensures !Ticks(StartStep(s, draw, auto), 900).running
  {
    RoundEnds(StartStep(s, draw, auto), 900);
  }

  /** Balance 1500, stake 100, crash point 2.50: cashing out at 2.00 pays 200
      and leaves 1600. */
  lemma ManualCashOutScenario()
    ensures var s0 := Initial(1500);
      var s1 := StartStep(s0, 0.25, false);
      var s2 := Ticks(s1, 100);
      var s3 := CashOutStep(s2);
      && s1.crashPoint == 2.5 && s1.balance == 1400
      && s2.multiplier == 2.0 && s2.running
      && s3.winAmount == 200 && s3.balance == 1600
  {
    var s1 := StartStep(Initial(1500), 0.25, false);
    MultiplierClimbs(s1, 100);
  }

  // ------------------------------------------------------------ as written

  /** `stopGame(crashed)` as the interval calls it. The interval's callback
      belongs to the render in which the round was started (`click`), so its
      `stopGame` reads that render's `balance`, `bet`, `multiplier` and
      `cashedOut`; only the functional `setHistory` update sees the current
      history. */
  function StaleStopGameStep(click: Round, s: Round, crashed: bool): (r: Round)
    ensures r.history == History.Prepend(click.multiplier, s.history, HistoryCap)
    ensures !crashed && !click.cashedOut ==>
      r.balance == click.balance + Payout(click.bet, click.multiplier)
    ensures crashed || click.cashedOut ==> r.balance == s.balance
  {
    var credit := !crashed && !click.cashedOut;
    var win := Payout(click.bet, click.multiplier);
    s.(running := false,
       crashed := crashed,
       winAmount := if credit then win else s.winAmount,
       balance := if credit then click.balance + win else s.balance,
       cashedOut := s.cashedOut || credit,
       history := History.Prepend(click.multiplier, s.history, HistoryCap))
  }

  /** One firing of the interval as written: the auto branch sets the balance
      to the click render's `balance - bet + win` and then calls the stale
      `stopGame(false)`, which sets it again when that render's `cashedOut`
      was false. */
  function StaleTickStep(click: Round, s: Round): (r: Round)
    requires ValidRound(s)
    ensures !s.running ==> r == s
    ensures s.running && s.multiplier + Step >= s.crashPoint ==>
      && r.balance == s.balance && r.crashed
      && r.history == History.Prepend(click.multiplier, s.history, HistoryCap)
    ensures s.running && s.multiplier + Step < s.crashPoint && s.mode.Auto?
            && s.multiplier + Step >= s.mode.target ==>
      && r.balance == (if click.cashedOut then click.balance - click.bet + Payout(click.bet, s.mode.target)
                       else click.balance + Payout(click.bet, click.multiplier))
      && r.history == History.Prepend(click.multiplier, s.history, HistoryCap)
  {
    if !s.running then s
    else
      var next := s.multiplier + Step;
      if next >= s.crashPoint then
        StaleStopGameStep(click, s.(multiplier := s.crashPoint), true)
      else if s.mode.Auto? && next >= s.mode.target then
        var win := Payout(click.bet, s.mode.target);
        StaleStopGameStep(click, s.(winAmount := win, balance := click.balance - click.bet + win,
                          cashedOut := true, multiplier := s.mode.target), false)
      else
        s.(multiplier := next)
  }

  /** Balance 1500, stake 100, auto cash-out at 1.10 right after mount (the
      render's multiplier is 1.00 and its `cashedOut` false): the round should
      leave 1500 - 100 + 110 = 1510, but the stale `stopGame(false)` sets
      1500 + floor(100 * 1.00) = 1600, and the history records 1.00 rather
      than 1.10. */
  lemma StaleAutoCashOutScenario()
    ensures var click := Initial(1500).(selected := 1.1);
      var s := Ticks(StartStep(click, 0.5, true), 9);
      && s.running && s.multiplier == 1.09
      && TickStep(s).balance == 1510 && TickStep(s).history[0] == 1.1
      && StaleTickStep(click, s).balance == 1600 && StaleTickStep(click, s).history[0] == 1.0
  {
    var click := Initial(1500).(selected := 1.1);
    MultiplierClimbs(StartStep(click, 0.5, true), 9);
  }

  /** After a round that crashed at 7.50 (the render's multiplier is 7.50 and
      its `cashedOut` false), a balance of 1400 staking 100 with auto cash-out
      at 1.10 should end at 1410, but the stale `stopGame(false)` sets
      1400 + floor(100 * 7.50) = 2150. */
  lemma StaleAfterCrashScenario()
    ensures var click := Initial(1400).(selected := 1.1, multiplier := 7.5, crashed := true);
      var s := Ticks(StartStep(click, 0.5, true), 9);
      && s.running
      && TickStep(s).balance == 1410
      && StaleTickStep(click, s).balance == 2150
  {
    var click := Initial(1400).(selected := 1.1, multiplier := 7.5, crashed := true);
    MultiplierClimbs(StartStep(click, 0.5, true), 9);
  }

  /** A round that crashes on its first tick right after mount is recorded in
      the history as 1.00 instead of its crash point 1.01. */
  lemma StaleCrashScenario()
    ensures var click := Initial(1500);
      var s := StartStep(click, 0.0, false);
      && TickStep(s).history[0] == 1.01
      && StaleTickStep(click, s).history[0] == 1.0
      && StaleTickStep(click, s).balance == TickStep(s).balance == 1400
  {
  }

  /** The component itself: its state hooks as fields, its handlers as methods. */
  class Game {
    var balance: int
    var bet: int
    var multiplier: real
    var isRunning: bool
    var isCrashed: bool
    var cashedOut: bool
    var winAmount: int
    var selectedMultiplier: real
    var history: seq<real>
    /** `crashPointRef.current` */
    var crashPoint: real
    /** The body of the interval in `intervalRef` while a round runs. */
    var interval: Mode

    function State(): Round
      reads this
    {
      Round(balance, bet, multiplier, isRunning, isCrashed, cashedOut, winAmount,
            selectedMultiplier, crashPoint, interval, history)
    }

    ghost predicate Valid()
      reads this
    {
      ValidRound(State())
    }

    constructor (initialBalance: int)
      requires initialBalance >= 0
      ensures Valid() && State() == Initial(initialBalance)
    {
      balance := initialBalance;
      bet := DefaultBet;
      multiplier := 1.0;
      isRunning, isCrashed, cashedOut := false, false, false;
      winAmount := 0;
      selectedMultiplier := 2.0;
      history := SampleHistory;
      crashPoint := 0.0;
      interval := Manual;
    }

    /** The shared body of `startGame` and `autoBet`. */
    method Launch(draw: real, mode: Mode)
      requires Valid() && !isRunning && 0.0 <= draw < 1.0
      requires mode == Manual || mode == Auto(selectedMultiplier)
      modifies this
      ensures Valid()
      ensures State() == StartStep(old(State()), draw, mode.Auto?)
    {
      if bet > balance || bet <= 0 {
        return;
      }
      isRunning := true;
      isCrashed := false;
      cashedOut := false;
      multiplier := 1.0;
      balance := balance - bet;
      crashPoint := CrashPoint(draw);
      interval := mode;
    }

    method StartGame(draw: real)
      requires Valid() && !isRunning && 0.0 <= draw < 1.0
      modifies this
      ensures Valid()
      ensures State() == StartStep(old(State()), draw, false)
    {
      Launch(draw, Manual);
    }

    method AutoBet(draw: real)
      requires Valid() && !isRunning && 0.0 <= draw < 1.0
      modifies this
      ensures Valid()
      ensures State() == StartStep(old(State()), draw, true)
    {
      Launch(draw, Auto(selectedMultiplier));
    }

    method StopGame(crashed: bool)
      requires FieldsInRange(State())
      modifies this
      ensures Valid()
      ensures State() == StopGameStep(old(State()), crashed)
    {
      isRunning := false;
      isCrashed := crashed;
      if !crashed && !cashedOut {
        var win := Payout(bet, multiplier);
        winAmount := win;
        balance := balance + win;
        cashedOut := true;
      }
      history := History.Prepend(multiplier, history, HistoryCap);
    }

    method Tick()
      requires Valid()
      modifies this
      ensures Valid()
      ensures State() == TickStep(old(State()))
    {
      if !isRunning {
        return;
      }
      var next := multiplier + Step;
      if next >= crashPoint {
        multiplier := crashPoint;
        StopGame(true);
      } else if interval.Auto? && next >= interval.target {
        var win := Payout(bet, interval.target);
        winAmount := win;
        balance := balance + win;
        cashedOut := true;
        multiplier := interval.target;
        StopGame(false);
      } else {
        multiplier := next;
      }
    }

    method CashOut()
      requires Valid()
      modifies this
      ensures Valid()
      ensures State() == CashOutStep(old(State()))
    {
      if !isRunning || cashedOut {
        return;
      }
      StopGame(false);
    }

    /** The stake input, disabled while a round runs. */
    method EnterBet(entered: int)
      requires Valid() && !isRunning
      modifies this`bet
      ensures Valid()
      ensures State() == old(State()).(bet := TypedBet(entered))
    {
      bet := TypedBet(entered);
    }

    /** The "x2" button, disabled while a round runs. */
    method DoubleBet()
      requires Valid() && !isRunning
      modifies this`bet
      ensures Valid()
      ensures State() == old(State()).(bet := DoubledBet(old(bet), balance))
    {
      bet := DoubledBet(bet, balance);
    }

    /** The "/2" button, disabled while a round runs. */
    method HalveBet()
      requires Valid() && !isRunning
      modifies this`bet
      ensures Valid()
      ensures State() == old(State()).(bet := HalvedBet(old(bet)))
    {
      bet := HalvedBet(bet);
    }

    /** A quick-stake button, disabled while a round runs. */
    method QuickBet(amount: int)
      requires Valid() && !isRunning && amount in QuickAmounts
      modifies this`bet
      ensures Valid()
      ensures State() == old(State()).(bet := amount)
    {
      bet := amount;
    }

    /** The auto cash-out buttons; a running auto round keeps the threshold it
        started with. */
    method SelectMultiplier(m: real)
      requires Valid() && m in MultiplierOptions
      modifies this`selectedMultiplier
      ensures Valid()
      ensures State() == old(State()).(selected := m)
    {
      selectedMultiplier := m;
    }
  }
}
