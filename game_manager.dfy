/**
 * The decisions of `class GameManager` in game.js, with rendering, feedback
 * messages and modal styling removed: which screen is shown, which stage is
 * being played, and what an answer does to the stage and the character.
 * Delayed transitions happen at once; random draws are parameters.
 */
module Manager {
  import opened Options
  import opened EquipmentTable
  import opened Characters
  import opened Stages

  const StageCount := 9
  const ExpPerCorrectAnswer := 20
  const DamagePerWrongAnswer := 15

  /** The screen on top: Victory and Defeat are the modals shown over the game screen. */
  datatype Screen = Start | StageSelect | InStage | Victory | Defeat

  /** The answer box on submission: Blank when it is empty after trimming, else parseInt's reading (None for NaN). */
  datatype Entry = Blank | Typed(parsed: Option<int>)

  /**
   * What one scored answer does to the character's progress: a right answer
   * settles 20 more experience (hit points unchanged) and `unlocked` is what
   * that appended; a wrong answer only takes 15 hit points, not below 0.
   */
  ghost predicate AnswerEffect(right: bool, before: Snapshot, after: Snapshot, unlocked: seq<Equipment>)
  {
    if right then
      && Settled(before.level, before.exp + ExpPerCorrectAnswer, after.level, after.exp)
      && unlocked == UnlocksBetween(before.level, after.level)
      && after.equipment == before.equipment + unlocked
      && after.currentHP == before.currentHP
    else
      && after.currentHP == Max(0, before.currentHP - DamagePerWrongAnswer)
      && after.level == before.level
      && after.exp == before.exp
      && after.equipment == before.equipment
      && unlocked == []
  }

  class GameManager {
    const character: Character
    var currentStage: Stage?
    var screen: Screen

    /**
     * The character and the stage keep their own invariants, a stage is one
     * of 1..9, the game screen and its modals always have a stage, the
     * victory modal only shows over a complete stage and the defeat modal
     * only at zero hit points.
     */
    ghost predicate Valid()
      reads this, character, currentStage
    {
      && character.Valid()
      && (currentStage != null ==> currentStage.Valid() && 1 <= currentStage.number <= StageCount)
      && (screen.InStage? || screen.Victory? || screen.Defeat? ==> currentStage != null)
      && (screen.Victory? ==> currentStage.IsComplete())
      && (screen.Defeat? ==> character.currentHP == 0)
    }

    /** The state right after entering stage `n` with first draw `draw`. */
    ghost predicate InFreshStage(n: int, draw: int)
      reads this, character, currentStage
    {
      && screen == InStage
      && currentStage != null
      && currentStage.number == n
      && currentStage.currentQuestion == 0
      && currentStage.correctAnswers == 0
      && currentStage.question == Question(n, draw, n * draw)
      && character.currentHP == character.maxHP
    }

    /** A new game: a fresh character, no stage, the start screen. */
    constructor ()
      ensures Valid() && fresh(character)
      ensures screen == Start && currentStage == null
      ensures character.level == 1 && character.exp == 0 && character.equipment == []
      ensures character.currentHP == FullHP
    {
      character := new Character();
      currentStage := null;
      screen := Start;
    }

    /** showStart */
    method ShowStart()
      modifies this`screen
      ensures screen == Start
      ensures old(Valid()) ==> Valid()
    {
      screen := Start;
    }

    /** showStageSelect: changes the screen only; the stage object is kept. */
    method ShowStageSelect()
      modifies this`screen
      ensures screen == StageSelect
      ensures old(Valid()) ==> Valid()
    {
      screen := StageSelect;
    }

    /**
     * showGame: a stage number outside 1..9 is ignored; otherwise hit points
     * are refilled and a fresh stage of that number is entered. Level,
     * experience and equipment are untouched.
     */
    method ShowGame(stageNumber: int, draw: int)
      requires Valid() && 1 <= draw <= 9
      modifies this`currentStage, this`screen, character`currentHP
      ensures Valid()
      ensures !(1 <= stageNumber <= StageCount) ==>
                currentStage == old(currentStage) && screen == old(screen) && character.currentHP == old(character.currentHP)
      ensures 1 <= stageNumber <= StageCount ==> fresh(currentStage) && InFreshStage(stageNumber, draw)
    {
      if stageNumber < 1 || stageNumber > StageCount {
        return;
      }
      character.ResetHP();
      currentStage := new Stage(stageNumber, draw);
      screen := InStage;
    }

    /** exitGame: abandons the stage and goes back to stage selection. */
    method ExitGame()
      requires Valid()
      modifies this`currentStage, this`screen
      ensures Valid()
      ensures currentStage == null && screen == StageSelect
    {
      currentStage := null;
      ShowStageSelect();
    }

    /**
     * submitAnswer. Without a stage, or with a blank entry, nothing changes.
     * Otherwise the stage scores the answer; a right one earns 20 experience
     * (returning what that unlocked), a wrong one costs 15 hit points. A wrong
     * answer that empties the hit points ends on the defeat modal without
     * looking at completion; in every other case a complete stage ends on the
     * victory modal and an incomplete one moves on to the question of `draw`.
     */
    method SubmitAnswer(entry: Entry, draw: int) returns (unlocked: seq<Equipment>)
      requires Valid() && 1 <= draw <= 9
      modifies this`screen, character, currentStage
      ensures Valid()
      ensures currentStage == old(currentStage)
      ensures currentStage == null || entry.Blank? ==>
                screen == old(screen) && unlocked == [] && unchanged(character) &&
                (currentStage != null ==> unchanged(currentStage))
      ensures currentStage != null && entry.Typed? ==>
                var right := entry.parsed == Some(old(currentStage.question.answer));
                && currentStage.currentQuestion == old(currentStage.currentQuestion) + 1
                && currentStage.correctAnswers == old(currentStage.correctAnswers) + (if right then 1 else 0)
                && AnswerEffect(right, old(character.Snap()), character.Snap(), unlocked)
                && (!right && character.currentHP == 0 ==>
                      screen == Defeat && currentStage.question == old(currentStage.question))
                && (right || character.currentHP > 0 ==>
                      if currentStage.IsComplete()
                      then screen == Victory && currentStage.question == old(currentStage.question)
                      else screen == old(screen) && currentStage.question == Question(currentStage.number, draw, currentStage.number * draw))
    {
      unlocked := [];
      if currentStage == null {
        return;
      }
      if entry.Blank? {
        return;
      }
      var isCorrect := currentStage.CheckAnswer(entry.parsed);
      var isDead;
      unlocked, isDead := ApplyAnswer(isCorrect);
      if isDead {
        screen := Defeat;
        return;
      }
      if currentStage.IsComplete() {
        screen := Victory;
      } else {
        currentStage.GenerateQuestion(draw);
      }
    }

    /** The character's side of submitAnswer: addExp(20) for a right answer, takeDamage(15) for a wrong one. */
    method ApplyAnswer(right: bool) returns (unlocked: seq<Equipment>, dead: bool)
      requires character.Valid()
      modifies character
      ensures character.Valid()
      ensures AnswerEffect(right, old(character.Snap()), character.Snap(), unlocked)
      ensures dead <==> !right && character.currentHP == 0
    {
      dead := false;
      if right {
        unlocked := character.AddExp(ExpPerCorrectAnswer);
      } else {
        unlocked := [];
        dead := character.TakeDamage(DamagePerWrongAnswer);
      }
    }

    /** nextStage: enters the following stage after stages 1..8, otherwise returns to stage selection. */
    method NextStage(draw: int)
      requires Valid() && 1 <= draw <= 9
      modifies this`currentStage, this`screen, character`currentHP
      ensures Valid()
      ensures old(currentStage) != null && old(currentStage.number) < StageCount ==>
                fresh(currentStage) && InFreshStage(old(currentStage.number) + 1, draw)
      ensures !(old(currentStage) != null && old(currentStage.number) < StageCount) ==>
                screen == StageSelect && currentStage == old(currentStage) && character.currentHP == old(character.currentHP)
    {
      if currentStage != null && currentStage.number < StageCount {
        ShowGame(currentStage.number + 1, draw);
      } else {
        ShowStageSelect();
      }
    }

    /** retryStage: enters a fresh copy of the same stage; without a stage nothing changes. */
    method RetryStage(draw: int)
      requires Valid() && 1 <= draw <= 9
      modifies this`currentStage, this`screen, character`currentHP
      ensures Valid()
      ensures old(currentStage) != null ==> fresh(currentStage) && InFreshStage(old(currentStage.number), draw)
      ensures old(currentStage) == null ==>
                currentStage == null && screen == old(screen) && character.currentHP == old(character.currentHP)
    {
      if currentStage != null {
        ShowGame(currentStage.number, draw);
      }
    }
  }

  /**
   * Stage 9 from full health, answered wrong seven times in a row: the game
   * stays on the stage for the first six answers and goes to defeat on the
   * seventh, with only seven of the ten questions asked.
   */
  method DefeatOnSeventhWrongAnswer(draws: seq<int>) returns (screens: seq<Screen>)
    requires |draws| == 7
    requires forall i :: 0 <= i < |draws| ==> 1 <= draws[i] <= 9
    ensures |screens| == 7
    ensures forall i :: 0 <= i < |screens| ==> screens[i] == (if i < 6 then InStage else Defeat)
  {
    var game := new GameManager();
    game.ShowGame(9, draws[0]);
    var stage := game.currentStage;
    screens := [];
    while |screens| < 6
      invariant game.Valid() && game.currentStage == stage && stage != null && stage.number == 9
      invariant |screens| <= 6
      invariant game.screen == InStage
      invariant stage.currentQuestion == |screens|
      invariant game.character.currentHP == FullHP - DamagePerWrongAnswer * |screens|
      invariant forall i :: 0 <= i < |screens| ==> screens[i] == InStage
    {
      var _ := game.SubmitAnswer(Typed(Some(0)), draws[|screens| + 1]);
      screens := screens + [game.screen];
    }
    var _ := game.SubmitAnswer(Typed(Some(0)), draws[0]);
    screens := screens + [game.screen];
  }

  /**
   * A new game, stage 1, ten right answers: the stage ends on the victory
   * modal, and the 200 experience earned take the character to level 2 with
   * 100 left over and the level-2 entry (the wooden sword) as its only equipment.
   */
  method VictoryWithTenRightAnswers(draws: seq<int>) returns (screen: Screen, level: int, exp: int, equipment: seq<Equipment>)
    requires |draws| == QuestionsPerStage
    requires forall i :: 0 <= i < |draws| ==> 1 <= draws[i] <= 9
    ensures screen == Victory
    ensures level == 2 && exp == 100
    ensures equipment == [EntryFor(2).value]
  {
    var game := new GameManager();
    game.ShowGame(1, draws[0]);
    var stage := game.currentStage;
    var c := game.character;
    var answered := 0;
    while answered < QuestionsPerStage
      invariant game.Valid() && game.currentStage == stage && stage != null && stage.number == 1
      invariant 0 <= answered <= QuestionsPerStage
      invariant stage.currentQuestion == answered
      invariant answered < QuestionsPerStage ==> game.screen == InStage && stage.question.b == draws[answered]
      invariant answered == QuestionsPerStage ==> game.screen == Victory
      invariant Settled(1, ExpPerCorrectAnswer * answered, c.level, c.exp)
    {
      ghost var level0, exp0 := c.level, c.exp;
      var next := if answered + 1 < QuestionsPerStage then draws[answered + 1] else 1;
      var _ := game.SubmitAnswer(Typed(Some(stage.question.answer)), next);
      SettledCompose(1, ExpPerCorrectAnswer * answered, level0, exp0, ExpPerCorrectAnswer, c.level, c.exp);
      answered := answered + 1;
    }
    SettledUnique(1, 200, c.level, c.exp, 2, 100);
    screen, level, exp, equipment := game.screen, c.level, c.exp, c.equipment;
  }
}
