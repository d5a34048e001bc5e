/**
 * The round controller: the four pieces of screen state the application
 * shell holds (screen, score, next planet, win banner) and the handlers that
 * change them. The canvas reaches this state only through the same
 * callbacks, so every change is an `Event`.
 */
module App {
  import opened Types
  import opened Constants

  /** The shell's state: `gameState`, `score`, `nextPlanetIndex`, `gameWon`. */
  datatype Round = Round(gameState: GameState, score: nat, nextPlanetIndex: nat, gameWon: bool)

  /** The state on first render. */
  const INITIAL: Round := Round(MENU, 0, 0, false)

  /**
   * Everything that can change the shell's state. `roll` stands for the
   * `Math.random()` draw a handler makes; `WinBannerTimeout` is the 5 s timer
   * set by the win handler firing; `AddScore` is the canvas's
   * `setScore(s => s + points)`; `SetNextPlanetIndex` its `setNextPlanetIndex`.
   */
  datatype Event =
    | Start(roll: real)
    | Restart(roll: real)
    | GameOver
    | GameWin
    | WinBannerTimeout
    | AddScore(points: nat)
    | SetNextPlanetIndex(index: nat)

  /** A random draw lies in [0, 1). */
  predicate WellFormed(e: Event) {
    (e.Start? || e.Restart?) ==> 0.0 <= e.roll < 1.0
  }

  predicate AllWellFormed(es: seq<Event>) {
    forall i :: 0 <= i < |es| ==> WellFormed(es[i])
  }

  /** `Math.floor(Math.random() * 3)`: the first planet of a round. */
  function FirstPlanetIndex(roll: real): (k: nat)
    requires 0.0 <= roll < 1.0
    ensures k < 3
  {
    (roll * 3.0).Floor
  }

  /** Each of the three lowest ranks can open a round. */
  lemma EveryFirstIndexPossible(k: nat)
    requires k < 3
    ensures exists roll: real :: 0.0 <= roll < 1.0 && FirstPlanetIndex(roll) == k
  {
    var roll := k as real / 3.0;
    assert roll * 3.0 == k as real;
    assert FirstPlanetIndex(roll) == k;
  }

  /** The effect of one event on the shell's state. */
  function Apply(s: Round, e: Event): (r: Round)
    requires WellFormed(e)
    ensures r.gameState == MENU ==> s.gameState == MENU
    ensures IsReset(e) ==> r.gameState == PLAYING && r.score == 0 && !r.gameWon && r.nextPlanetIndex < 3
    ensures !IsReset(e) ==> r.score >= s.score
  {
    match e
    case Start(roll) => Round(PLAYING, 0, FirstPlanetIndex(roll), false)
    case Restart(roll) => Round(PLAYING, 0, FirstPlanetIndex(roll), false)
    case GameOver => s.(gameState := GAME_OVER)
    case GameWin => s.(gameWon := true)
    case WinBannerTimeout => s.(gameWon := false)
    case AddScore(points) => s.(score := s.score + points)
    case SetNextPlanetIndex(k) => s.(nextPlanetIndex := k)
  }

  /** The effect of a sequence of events, in order. */
  function Run(s: Round, es: seq<Event>): Round
    requires AllWellFormed(es)
    decreases |es|
  {
    if es == [] then s else Run(Apply(s, es[0]), es[1..])
  }

  /**
   * The overlay offers the Start button only on the menu screen and the
   * Restart click only on the game-over screen; other events are not UI
   * triggers.
   */
  predicate Offered(s: Round, e: Event)
    ensures Offered(s, e) && IsReset(e) ==> s.gameState != PLAYING
  {
    match e
    case Start(_) => s.gameState == MENU
    case Restart(_) => s.gameState == GAME_OVER
    case _ => true
  }

  predicate IsReset(e: Event) {
    e.Start? || e.Restart?
  }

  /** Total points the `AddScore` events of es carry. */
  function PointsOf(es: seq<Event>): nat
    decreases |es|
  {
    if es == [] then 0
    else (if es[0].AddScore? then es[0].points else 0) + PointsOf(es[1..])
  }

  /** How many times es signals a win. */
  function WinsOf(es: seq<Event>): nat
    decreases |es|
  {
    if es == [] then 0 else (if es[0].GameWin? then 1 else 0) + WinsOf(es[1..])
  }

  lemma {:induction false} PointsOfAppend(a: seq<Event>, b: seq<Event>)
    ensures PointsOf(a + b) == PointsOf(a) + PointsOf(b)
    ensures WinsOf(a + b) == WinsOf(a) + WinsOf(b)
    decreases |a|
  {
    if a != [] {
      assert (a + b)[0] == a[0] && (a + b)[1..] == a[1..] + b;
      PointsOfAppend(a[1..], b);
    } else {
      assert a + b == b;
    }
  }

  /**
   * The callbacks the canvas makes during play (score additions and win
   * signals) add exactly their points to the score, show the win banner if
   * any of them is a win, and change nothing else.
   */
  lemma {:induction false} CanvasEventsEffect(s: Round, es: seq<Event>)
    requires forall i :: 0 <= i < |es| ==> es[i].AddScore? || es[i].GameWin?
    ensures AllWellFormed(es)
    ensures Run(s, es) == s.(score := s.score + PointsOf(es), gameWon := s.gameWon || WinsOf(es) > 0)
    decreases |es|
  {
    if es != [] {
      CanvasEventsEffect(Apply(s, es[0]), es[1..]);
    }
  }

  /**
   * Start and restart have the same effect, whatever state they leave:
   * playing, score zero, banner hidden, and a first planet among the three
   * lowest ranks.
   */
  lemma StartMatchesRestart(s: Round, t: Round, roll: real)
    requires 0.0 <= roll < 1.0
    ensures Apply(s, Start(roll)) == Apply(t, Restart(roll))
    ensures var r := Apply(s, Start(roll));
      r.gameState == PLAYING && r.score == 0 && !r.gameWon && r.nextPlanetIndex <= 2
  {
  }

  /**
   * Only start and restart touch the score downwards: with no reset among
   * them, a run of events adds exactly the points its `AddScore` events carry
   * and never lowers the score.
   */
  lemma {:induction false} ScoreOnlyGrows(s: Round, es: seq<Event>)
    requires AllWellFormed(es)
    requires forall i :: 0 <= i < |es| ==> !IsReset(es[i])
    ensures Run(s, es).score == s.score + PointsOf(es)
    ensures Run(s, es).score >= s.score
    decreases |es|
  {
    if es != [] {
      ScoreOnlyGrows(Apply(s, es[0]), es[1..]);
    }
  }

  /**
   * The screen changes only through start, restart and game over; a win,
   * score or next-planet event leaves it as it is, so play continues after a
   * win.
   */
  lemma {:induction false} ScreenKeptWithoutTransitions(s: Round, es: seq<Event>)
    requires AllWellFormed(es)
    requires forall i :: 0 <= i < |es| ==> !IsReset(es[i]) && !es[i].GameOver?
    ensures Run(s, es).gameState == s.gameState
    ensures Run(s, es).nextPlanetIndex == s.nextPlanetIndex || exists i :: 0 <= i < |es| && es[i] == SetNextPlanetIndex(Run(s, es).nextPlanetIndex)
    decreases |es|
  {
    if es != [] {
      ScreenKeptWithoutTransitions(Apply(s, es[0]), es[1..]);
      var r := Run(s, es);
      if r.nextPlanetIndex != Apply(s, es[0]).nextPlanetIndex {
        var i :| 0 <= i < |es[1..]| && es[1..][i] == SetNextPlanetIndex(r.nextPlanetIndex);
        assert es[i + 1] == SetNextPlanetIndex(r.nextPlanetIndex);
      }
    }
  }

  /**
   * Once the menu is left it is never shown again: no handler of the shell
   * sets the menu screen.
   */
  lemma {:induction false} MenuNeverReentered(s: Round, es: seq<Event>)
    requires AllWellFormed(es)
    requires s.gameState != MENU
    ensures Run(s, es).gameState != MENU
    decreases |es|
  {
    if es != [] {
      MenuNeverReentered(Apply(s, es[0]), es[1..]);
    }
  }

  /**
   * With the overlay's guards in force the Start button is accepted at most
   * once: it is offered only on the menu, and no handler returns to the menu.
   */
  lemma {:induction false} StartAcceptedOnce(s: Round, es: seq<Event>, i: nat, j: nat)
    requires AllWellFormed(es)
    requires forall k :: 0 <= k < |es| ==> Offered(Run(s, es[..k]), es[k])
    requires i < j < |es| && es[i].Start?
    ensures !es[j].Start?
  {
    assert es[..j] == es[..i] + [es[i]] + es[i + 1..j];
    RunSplit(s, es[..i] + [es[i]], es[i + 1..j]);
    RunSplit(s, es[..i], [es[i]]);
    assert [es[i]][1..] == [];
    var afterStart := Run(s, es[..i] + [es[i]]);
    assert afterStart.gameState == PLAYING;
    MenuNeverReentered(afterStart, es[i + 1..j]);
  }

  lemma {:induction false} RunSplit(s: Round, a: seq<Event>, b: seq<Event>)
    requires AllWellFormed(a) && AllWellFormed(b)
    ensures AllWellFormed(a + b)
    ensures Run(s, a + b) == Run(Run(s, a), b)
    decreases |a|
  {
    if a != [] {
      assert (a + b)[0] == a[0] && (a + b)[1..] == a[1..] + b;
      RunSplit(Apply(s, a[0]), a[1..], b);
    } else {
      assert a + b == b;
    }
  }

  /**
   * The next planet stays among the spawnable ranks as long as every
   * next-planet event the canvas sends picks one of them.
   */
  lemma {:induction false} NextPlanetStaysSpawnable(s: Round, es: seq<Event>)
    requires AllWellFormed(es)
    requires s.nextPlanetIndex <= MAX_SPAWN_INDEX
    requires forall i :: 0 <= i < |es| && es[i].SetNextPlanetIndex? ==> es[i].index <= MAX_SPAWN_INDEX
    ensures Run(s, es).nextPlanetIndex <= MAX_SPAWN_INDEX
    decreases |es|
  {
    if es != [] {
      NextPlanetStaysSpawnable(Apply(s, es[0]), es[1..]);
    }
  }

  /**
   * The shell's state as an object whose handlers assign its fields; each
   * handler is the event of the same name.
   */
  class AppState {
    var gameState: GameState
    var score: nat
    var nextPlanetIndex: nat
    var gameWon: bool

    function State(): Round
      reads this
    {
      Round(gameState, score, nextPlanetIndex, gameWon)
    }

    constructor ()
      ensures State() == INITIAL
    {
      gameState, score, nextPlanetIndex, gameWon := MENU, 0, 0, false;
    }

    method StartGame(roll: real)
      requires 0.0 <= roll < 1.0
      modifies this
      ensures State() == Apply(old(State()), Start(roll))
    {
      score := 0;
      gameState := PLAYING;
      nextPlanetIndex := FirstPlanetIndex(roll);
      gameWon := false;
    }

    method RestartGame(roll: real)
      requires 0.0 <= roll < 1.0
      modifies this
      ensures State() == Apply(old(State()), Restart(roll))
    {
      score := 0;
      gameState := PLAYING;
      nextPlanetIndex := FirstPlanetIndex(roll);
      gameWon := false;
    }

    method HandleGameOver()
      modifies this
      ensures State() == Apply(old(State()), GameOver)
    {
      gameState := GAME_OVER;
    }

    /** Shows the win banner; the banner timer is `HideWinBanner`. */
    method HandleGameWin()
      modifies this
      ensures State() == Apply(old(State()), GameWin)
    {
      gameWon := true;
    }

    /** The 5000 ms timer set by `HandleGameWin` firing: the banner is hidden again. */
    method HideWinBanner()
      modifies this
      ensures State() == Apply(old(State()), WinBannerTimeout)
    {
      gameWon := false;
    }

    /** `setScore(s => s + points)`, as the canvas calls it. */
    method AddToScore(points: nat)
      modifies this
      ensures State() == Apply(old(State()), AddScore(points))
    {
      score := score + points;
    }

    method SetNextPlanet(index: nat)
      modifies this
      ensures State() == Apply(old(State()), SetNextPlanetIndex(index))
    {
      nextPlanetIndex := index;
    }

    /** Delivers a sequence of callbacks in order. */
    method Dispatch(es: seq<Event>)
      requires AllWellFormed(es)
      modifies this
      ensures State() == Run(old(State()), es)
    {
      var i := 0;
      while i < |es|
        invariant 0 <= i <= |es|
        invariant Run(old(State()), es) == Run(State(), es[i..])
      {
        assert es[i..][0] == es[i] && es[i..][1..] == es[i + 1..];
        match es[i] {
          case Start(roll) => StartGame(roll);
          case Restart(roll) => RestartGame(roll);
          case GameOver => HandleGameOver();
          case GameWin => HandleGameWin();
          case WinBannerTimeout => HideWinBanner();
          case AddScore(points) => AddToScore(points);
          case SetNextPlanetIndex(k) => SetNextPlanet(k);
        }
        i := i + 1;
      }
    }
  }
}
