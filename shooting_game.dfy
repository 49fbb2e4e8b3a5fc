/**
 * The progress state of the portfolio shooting game: one `gameState` record
 * that target hits, the start and reset buttons and the mouse-move listener
 * replace. The 3D scene itself is not modelled; what remains is the score,
 * the set of revealed sections, the HUD's victory banner and the bottom dots.
 */
module ShootingGame {
  import opened Storage

  datatype Point = Point(x: int, y: int)

  datatype GameState = GameState(
    score: int,
    sectionsRevealed: set<string>,
    currentTarget: Option<string>,
    gameStarted: bool,
    crosshairPosition: Point)

  /** The `sectionId`s of the five targets in the scene. */
  const SectionIds: set<string> := {"about", "skills", "experience", "projects", "contact"}

  /** The HUD's `totalSections`. */
  const TotalSections: nat := 5

  const PointsPerHit: int := 100

  /** The state the component starts in, and the one `handleResetGame` writes. */
  const InitialState: GameState := GameState(0, {}, None, false, Point(0, 0))

  // ---------------------------------------------------------------------
  // Transitions
  // ---------------------------------------------------------------------

  /** `handleHit(sectionId)`. */
  function Hit(s: GameState, sectionId: string): GameState
  {
    s.(score := s.score + PointsPerHit, sectionsRevealed := s.sectionsRevealed + {sectionId})
  }

  /** `handleStartGame`. */
  function Start(s: GameState): GameState
  {
    s.(gameStarted := true)
  }

  /** `handleResetGame`: the literal initial record, whatever the state was. */
  function Reset(s: GameState): GameState
  {
    InitialState
  }

  /** A mouse move: the listener is installed only while the game is started. */
  function MouseMove(s: GameState, clientX: int, clientY: int): GameState
  {
    if s.gameStarted then s.(crosshairPosition := Point(clientX, clientY)) else s
  }

  /** `TargetSection.handleClick`: a revealed target ignores clicks. */
  function TargetClick(s: GameState, sectionId: string): GameState
  {
    if sectionId in s.sectionsRevealed then s else Hit(s, sectionId)
  }

  /**
   * What the player can do. The HUD renders only one of its two buttons, Start
   * before the game starts and Reset afterwards, so a click on the other one
   * cannot happen and changes nothing. The targets are clickable in either state.
   */
  datatype Event = Click(sectionId: string) | StartGame | ResetGame | Move(x: int, y: int)

  function Step(s: GameState, e: Event): GameState
  {
    match e
    case Click(id) => TargetClick(s, id)
    case StartGame => if ShowsStartButton(s) then Start(s) else s
    case ResetGame => if ShowsStartButton(s) then s else Reset(s)
    case Move(x, y) => MouseMove(s, x, y)
  }

  function Run(s: GameState, events: seq<Event>): GameState
    decreases |events|
  {
    if events == [] then s else Run(Step(s, events[0]), events[1..])
  }

  /** Every click in `events` is on one of the five targets. */
  predicate ClicksOnTargets(events: seq<Event>)
  {
    forall k :: 0 <= k < |events| && events[k].Click? ==> events[k].sectionId in SectionIds
  }

  // ---------------------------------------------------------------------
  // What the HUD shows
  // ---------------------------------------------------------------------

  /** The victory banner (`sectionsRevealed.size === totalSections`). */
  predicate ShowsVictory(s: GameState)
  {
    |s.sectionsRevealed| == TotalSections
  }

  /** Bottom status dot `i` is green. */
  predicate DotLit(s: GameState, i: nat)
  {
    |s.sectionsRevealed| > i
  }

  /** The HUD offers Start before the game starts and Reset afterwards. */
  predicate ShowsStartButton(s: GameState)
  {
    !s.gameStarted
  }

  /** The lit bottom dots. */
  function LitDots(s: GameState): set<nat>
  {
    set i: nat | i < TotalSections && DotLit(s, i)
  }

  /** The custom crosshair replaces the cursor while the game is started. */
  predicate ShowsCrosshair(s: GameState)
  {
    s.gameStarted
  }

  /** What every reachable state satisfies. */
  predicate Consistent(s: GameState)
  {
    && s.currentTarget == None
    && s.sectionsRevealed <= SectionIds
    && s.score == PointsPerHit * |s.sectionsRevealed|
  }

  class ShootingGamePortfolio {
    var gameState: GameState

    ghost predicate Valid()
      reads this
    {
      Consistent(gameState)
    }

    constructor ()
      ensures Valid()
      ensures gameState == InitialState
    {
      gameState := InitialState;
    }

    /** `handleHit`: may be called for any id; only target clicks keep `Valid`. */
    method HandleHit(sectionId: string)
      modifies this
      ensures gameState == Hit(old(gameState), sectionId)
    {
      gameState := gameState.(score := gameState.score + PointsPerHit,
                              sectionsRevealed := gameState.sectionsRevealed + {sectionId});
    }

    method HandleStartGame()
      requires Valid()
      modifies this
      ensures Valid()
      ensures gameState == Start(old(gameState))
    {
      gameState := gameState.(gameStarted := true);
    }

    method HandleResetGame()
      modifies this
      ensures Valid()
      ensures gameState == Reset(old(gameState))
    {
      gameState := InitialState;
    }

    method HandleMouseMove(clientX: int, clientY: int)
      requires Valid()
      modifies this
      ensures Valid()
      ensures gameState == MouseMove(old(gameState), clientX, clientY)
    {
      if gameState.gameStarted {
        gameState := gameState.(crosshairPosition := Point(clientX, clientY));
      }
    }

    /** A click on the target whose `sectionId` is given. */
    method HandleTargetClick(sectionId: string)
      requires Valid() && sectionId in SectionIds
      modifies this
      ensures Valid()
      ensures gameState == TargetClick(old(gameState), sectionId)
    {
      if sectionId !in gameState.sectionsRevealed {
        HandleHit(sectionId);
      }
      StepConsistent(old(gameState), Click(sectionId));
    }
  }

  // ---------------------------------------------------------------------
  // Properties
  // ---------------------------------------------------------------------

  /** A hit adds exactly 100 points and reveals its section; nothing else changes. */
  lemma HitEffect(s: GameState, sectionId: string)
    ensures Hit(s, sectionId).score == s.score + PointsPerHit
    ensures Hit(s, sectionId).sectionsRevealed == s.sectionsRevealed + {sectionId}
    ensures Hit(s, sectionId).currentTarget == s.currentTarget
    ensures Hit(s, sectionId).gameStarted == s.gameStarted
    ensures Hit(s, sectionId).crosshairPosition == s.crosshairPosition
  {
  }

  /** Clicking a revealed target changes nothing; clicking another one is a hit. */
  lemma TargetClickGuard(s: GameState, sectionId: string)
    ensures sectionId in s.sectionsRevealed ==> TargetClick(s, sectionId) == s
    ensures sectionId !in s.sectionsRevealed ==> TargetClick(s, sectionId) == Hit(s, sectionId)
  {
  }

  /**
   * Start sets `gameStarted` and nothing else, swapping the Start button for
   * Reset and showing the crosshair; reset from anywhere gives the initial state.
   */
  lemma StartAndReset(s: GameState)
    ensures Start(s).gameStarted
    ensures !ShowsStartButton(Start(s)) && ShowsCrosshair(Start(s))
    ensures ShowsStartButton(Reset(s)) && !ShowsCrosshair(Reset(s))
    ensures Start(s).(gameStarted := s.gameStarted) == s
    ensures Reset(s) == InitialState
    ensures Reset(s).score == 0 && Reset(s).sectionsRevealed == {} && Reset(s).currentTarget == None
    ensures !Reset(s).gameStarted && Reset(s).crosshairPosition == Point(0, 0)
  {
  }

  /** A mouse move replaces the crosshair position only, and only while the game runs. */
  lemma MouseMoveEffect(s: GameState, x: int, y: int)
    ensures MouseMove(s, x, y).(crosshairPosition := s.crosshairPosition) == s
    ensures s.gameStarted ==> MouseMove(s, x, y).crosshairPosition == Point(x, y)
    ensures !s.gameStarted ==> MouseMove(s, x, y) == s
  {
  }

  /** The five section ids are distinct, so there are five of them. */
  lemma SectionIdsCount()
    ensures |SectionIds| == TotalSections
  {
  }

  /** A subset is no larger than its superset, and as large only when equal. */
  lemma {:induction false} SubsetCardinality<T>(a: set<T>, b: set<T>)
    requires a <= b
    ensures |a| <= |b|
    ensures |a| == |b| ==> a == b
    decreases b
  {
    if b != {} {
      var x :| x in b;
      SubsetCardinality(a - {x}, b - {x});
      if x in a {
        assert a == (a - {x}) + {x};
      } else {
        assert a - {x} == a;
      }
    }
  }

  /** A subset of the five section ids has at most five elements, and exactly five only if it is all of them. */
  lemma RevealedBound(revealed: set<string>)
    requires revealed <= SectionIds
    ensures |revealed| <= TotalSections
    ensures |revealed| == TotalSections <==> revealed == SectionIds
  {
    SectionIdsCount();
    SubsetCardinality(revealed, SectionIds);
  }

  lemma StepConsistent(s: GameState, e: Event)
    requires Consistent(s)
    requires e.Click? ==> e.sectionId in SectionIds
    ensures Consistent(Step(s, e))
  {
  }

  /**
   * When hits arrive only from target clicks, every reachable state has
   * score == 100 * |sectionsRevealed|, no current target, and ids from the scene.
   */
  lemma {:induction false} RunConsistent(s: GameState, events: seq<Event>)
    requires Consistent(s) && ClicksOnTargets(events)
    ensures Consistent(Run(s, events))
    decreases |events|
  {
    if events != [] {
      StepConsistent(s, events[0]);
      assert ClicksOnTargets(events[1..]) by {
        forall k | 0 <= k < |events[1..]| && events[1..][k].Click?
          ensures events[1..][k].sectionId in SectionIds
        {
          assert events[1..][k] == events[k + 1];
        }
      }
      RunConsistent(Step(s, events[0]), events[1..]);
    }
  }

  /** In every reachable state at most five sections are revealed and the score is at most 500. */
  lemma ReachableBounds(events: seq<Event>)
    requires ClicksOnTargets(events)
    ensures |Run(InitialState, events).sectionsRevealed| <= TotalSections
    ensures 0 <= Run(InitialState, events).score <= PointsPerHit * TotalSections
    ensures Run(InitialState, events).currentTarget == None
  {
    RunConsistent(InitialState, events);
    RevealedBound(Run(InitialState, events).sectionsRevealed);
  }

  /**
   * In a consistent state the victory banner shows exactly when all five
   * sections are revealed, that is when the score is 500, and then all five dots are lit.
   */
  lemma VictoryCondition(s: GameState)
    requires Consistent(s)
    ensures ShowsVictory(s) <==> s.sectionsRevealed == SectionIds
    ensures ShowsVictory(s) <==> s.score == PointsPerHit * TotalSections
    ensures ShowsVictory(s) <==> forall i :: 0 <= i < TotalSections ==> DotLit(s, i)
  {
    RevealedBound(s.sectionsRevealed);
    if !ShowsVictory(s) {
      assert !DotLit(s, TotalSections - 1);
    }
  }

  /**
   * In a consistent state the lit bottom dots are exactly the first
   * `|sectionsRevealed|` of the five, so their number is the number of revealed sections.
   */
  lemma LitDotCount(s: GameState)
    requires Consistent(s)
    ensures LitDots(s) == Range(|s.sectionsRevealed|)
    ensures |LitDots(s)| == |s.sectionsRevealed|
  {
    RevealedBound(s.sectionsRevealed);
  }

  /** `{0, ..., n - 1}`. */
  function Range(n: nat): (r: set<nat>)
    ensures forall i: nat :: i in r <==> i < n
    ensures |r| == n
  {
    if n == 0 then {} else Range(n - 1) + {n - 1}
  }

  /** The HUD's buttons: Start only acts before the game starts, Reset only after. */
  lemma HudButtons(s: GameState)
    ensures s.gameStarted ==> Step(s, StartGame) == s
    ensures !s.gameStarted ==> Step(s, StartGame) == Start(s)
    ensures !s.gameStarted ==> Step(s, ResetGame) == s
    ensures s.gameStarted ==> Step(s, ResetGame) == InitialState
  {
  }
}
