/** The progression of one calendar Day of a Game: rolling its challenge
    modifier (and, for a modifier that has options, one of its options),
    rerolling either at a token cost, and completing its two puzzle parts in
    order.

    Ids are natural numbers and 0 stands for "not set": the controller tests
    ids for JavaScript truthiness, so a null id and an id of 0 behave alike.

    Each of the five operations is specified by a relation between the Day's
    state before the call, its state after the call and the outcome. The
    relations are written in the order the code runs its checks and writes, so
    a write that happens before a later failure is part of the relation. The
    random picks are choices the relations leave open: the picked entry is
    only known to be one of the candidates. */
module DayProgression {
  import opened Wrappers

  datatype ChallengeModifier = ChallengeModifier(id: nat, hasOptions: bool)

  datatype ModifierOption = ModifierOption(id: nat, challengeModifierId: nat)

  /** The Game the Day belongs to; the controller only reads it. */
  datatype Game = Game(currentDay: int, currentRerollTokens: int)

  datatype DayError =
    | DayNotCurrent          // the day check fails
    | AlreadyRolled          // "Challenge modifier already rolled"
    | NotRolledYet           // "Roll initial challenge modifier first"
    | InsufficientTokens     // "Not enough reroll tokens"
    | NoOptionToReroll       // "No modifier option to reroll"
    | MissingGame            // `game!` read when no game was passed
    | EmptyCatalog           // a roll over an empty list of candidates
    | Part1AlreadyCompleted  // "Part 1 already completed"
    | Part1NotCompleted      // "Part 1 not yet completed"
    | Part2AlreadyCompleted  // "Part 2 already completed"

  /** How a call ends: it returns the Day, or it throws. */
  datatype Outcome = Pass | Fail(error: DayError)

  /** The fields of a Day the controller reads or writes. */
  datatype DayState = DayState(
    number: int,
    challengeModifierId: nat,
    modifierOptionId: nat,
    challengeModifierRerollsUsed: nat,
    modifierOptionRerollsUsed: nat,
    part1Completed: bool,
    part2Completed: bool)
  {
    /** Part 2 is never completed before part 1. */
    predicate PartsInOrder() { part2Completed ==> part1Completed }
  }

  /** `modifierOptions.filter(option => option.challengeModifierId === id)`. */
  function OptionsFor(options: seq<ModifierOption>, modifierId: nat): (r: seq<ModifierOption>)
    ensures forall o :: o in r <==> o in options && o.challengeModifierId == modifierId
  {
    if options == [] then []
    else if options[0].challengeModifierId == modifierId then [options[0]] + OptionsFor(options[1..], modifierId)
    else OptionsFor(options[1..], modifierId)
  }

  // ---------------------------------------------------------------------
  // The five operations, as relations between the state before and after

  /** The tail of `rerollModifierOption` once its checks have passed: count the
      reroll, then draw an option from `options`. */
  ghost predicate OptionRedrawn(s: DayState, options: seq<ModifierOption>, s': DayState, r: Outcome)
  {
    var counted := s.(modifierOptionRerollsUsed := s.modifierOptionRerollsUsed + 1);
    if options == [] then r == Fail(EmptyCatalog) && s' == counted
    else r == Pass && exists o :: o in options && s' == counted.(modifierOptionId := o.id)
  }

  /** `rerollModifierOption(currentDay, options, gratis, game?)`. */
  ghost predicate RerollOptionStep(s: DayState, currentDay: int, options: seq<ModifierOption>,
                                   gratis: bool, game: Option<Game>, s': DayState, r: Outcome)
  {
    if s.number != currentDay then r == Fail(DayNotCurrent) && s' == s
    else if s.challengeModifierId == 0 then r == Fail(NotRolledYet) && s' == s
    else if s.modifierOptionId == 0 then r == Fail(NoOptionToReroll) && s' == s
    else if !gratis && game.None? then r == Fail(MissingGame) && s' == s
    else if !gratis && game.value.currentRerollTokens < 1 then r == Fail(InsufficientTokens) && s' == s
    else OptionRedrawn(s, options, s', r)
  }

  /** `rollInitialChallengeModifier(game, challengeModifiers, modifierOptions)`.
      The modifier id is written before the option is drawn, so a modifier
      with options but none in the catalog leaves the id written. */
  ghost predicate RollInitialStep(s: DayState, game: Game, modifiers: seq<ChallengeModifier>,
                                  options: seq<ModifierOption>, s': DayState, r: Outcome)
  {
    if s.number != game.currentDay then r == Fail(DayNotCurrent) && s' == s
    else if s.challengeModifierId != 0 then r == Fail(AlreadyRolled) && s' == s
    else if modifiers == [] then r == Fail(EmptyCatalog) && s' == s
    else exists cm :: cm in modifiers && RolledOnto(s, cm, options, s', r)
  }

  /** The initial roll once `cm` has been picked. */
  ghost predicate RolledOnto(s: DayState, cm: ChallengeModifier, options: seq<ModifierOption>, s': DayState, r: Outcome)
  {
    var written := s.(challengeModifierId := cm.id);
    if !cm.hasOptions then r == Pass && s' == written
    else
      var candidates := OptionsFor(options, cm.id);
      if candidates == [] then r == Fail(EmptyCatalog) && s' == written
      else r == Pass && exists o :: o in candidates && s' == written.(modifierOptionId := o.id)
  }

  /** `rerollChallengeModifier(game, challengeModifiers, modifierOptions)`.
      The reroll is counted before the new modifier is drawn; a new modifier
      with options is followed by a gratis `rerollModifierOption` over its
      options, whose own checks run after the writes. */
  ghost predicate RerollModifierStep(s: DayState, game: Game, modifiers: seq<ChallengeModifier>,
                                     options: seq<ModifierOption>, s': DayState, r: Outcome)
  {
    if s.number != game.currentDay then r == Fail(DayNotCurrent) && s' == s
    else if s.challengeModifierId == 0 then r == Fail(NotRolledYet) && s' == s
    else if game.currentRerollTokens < 2 then r == Fail(InsufficientTokens) && s' == s
    else
      var counted := s.(challengeModifierRerollsUsed := s.challengeModifierRerollsUsed + 1);
      if modifiers == [] then r == Fail(EmptyCatalog) && s' == counted
      else exists cm :: cm in modifiers && RerolledOnto(counted, game, cm, options, s', r)
  }

  /** The modifier reroll once `cm` has been picked. */
  ghost predicate RerolledOnto(s: DayState, game: Game, cm: ChallengeModifier, options: seq<ModifierOption>,
                               s': DayState, r: Outcome)
  {
    var written := s.(challengeModifierId := cm.id);
    if !cm.hasOptions then r == Pass && s' == written
    else RerollOptionStep(written, game.currentDay, OptionsFor(options, cm.id), true, None, s', r)
  }

  /** `completePart1(currentDay)`. */
  ghost predicate CompletePart1Step(s: DayState, currentDay: int, s': DayState, r: Outcome)
  {
    if s.number != currentDay then r == Fail(DayNotCurrent) && s' == s
    else if s.part1Completed then r == Fail(Part1AlreadyCompleted) && s' == s
    else r == Pass && s' == s.(part1Completed := true)
  }

  /** `completePart2(currentDay)`. */
  ghost predicate CompletePart2Step(s: DayState, currentDay: int, s': DayState, r: Outcome)
  {
    if s.number != currentDay then r == Fail(DayNotCurrent) && s' == s
    else if !s.part1Completed then r == Fail(Part1NotCompleted) && s' == s
    else if s.part2Completed then r == Fail(Part2AlreadyCompleted) && s' == s
    else r == Pass && s' == s.(part2Completed := true)
  }

  /** A call of one of the five operations, with its arguments. */
  datatype Call =
    | RollInitial(game: Game, modifiers: seq<ChallengeModifier>, options: seq<ModifierOption>)
    | RerollModifier(game: Game, modifiers: seq<ChallengeModifier>, options: seq<ModifierOption>)
    | RerollOption(currentDay: int, options: seq<ModifierOption>, gratis: bool, gameArg: Option<Game>)
    | CompletePart1(currentDay: int)
    | CompletePart2(currentDay: int)
  {
    /** The day number the call's day check compares with. */
    function CheckedDay(): int
    {
      match this
      case RollInitial(g, _, _) => g.currentDay
      case RerollModifier(g, _, _) => g.currentDay
      case RerollOption(d, _, _, _) => d
      case CompletePart1(d) => d
      case CompletePart2(d) => d
    }
  }

  ghost predicate Step(s: DayState, c: Call, s': DayState, r: Outcome)
  {
    match c
    case RollInitial(g, ms, os) => RollInitialStep(s, g, ms, os, s', r)
    case RerollModifier(g, ms, os) => RerollModifierStep(s, g, ms, os, s', r)
    case RerollOption(d, os, gratis, g) => RerollOptionStep(s, d, os, gratis, g, s', r)
    case CompletePart1(d) => CompletePart1Step(s, d, s', r)
    case CompletePart2(d) => CompletePart2Step(s, d, s', r)
  }

  /** What every call keeps: the day number, counters that never go down and
      completion flags that never go back to false. */
  ghost predicate Evolves(s: DayState, s': DayState)
  {
    && s'.number == s.number
    && s'.challengeModifierRerollsUsed >= s.challengeModifierRerollsUsed
    && s'.modifierOptionRerollsUsed >= s.modifierOptionRerollsUsed
    && (s.part1Completed ==> s'.part1Completed)
    && (s.part2Completed ==> s'.part2Completed)
  }

  // ---------------------------------------------------------------------
  // Random picks

  /** `rollChallengeModifier` and `rollModifierOption`: one of the candidates,
      by a choice the model leaves open. Over no candidates the operation that
      asked for the pick throws. */
  method Pick<T>(candidates: seq<T>) returns (r: Option<T>)
    ensures r.None? <==> |candidates| == 0
    ensures r.Some? ==> r.value in candidates
  {
    if |candidates| == 0 {
      return None;
    }
    var i :| 0 <= i < |candidates|;
    r := Some(candidates[i]);
  }

  // ---------------------------------------------------------------------
  // The mutable record and its controller

  /** A Day record as loaded from the database. */
  class Day {
    var number: int
    var challengeModifierId: nat
    var modifierOptionId: nat
    var challengeModifierRerollsUsed: nat
    var modifierOptionRerollsUsed: nat
    var part1Completed: bool
    var part2Completed: bool

    constructor (s: DayState)
      ensures State() == s
    {
      number := s.number;
      challengeModifierId := s.challengeModifierId;
      modifierOptionId := s.modifierOptionId;
      challengeModifierRerollsUsed := s.challengeModifierRerollsUsed;
      modifierOptionRerollsUsed := s.modifierOptionRerollsUsed;
      part1Completed := s.part1Completed;
      part2Completed := s.part2Completed;
    }

    function State(): DayState
      reads this
    {
      DayState(number, challengeModifierId, modifierOptionId, challengeModifierRerollsUsed,
               modifierOptionRerollsUsed, part1Completed, part2Completed)
    }
  }

  /** `DayController(day)`: the five operations over one shared Day, which
      they update in place. Each returns that same Day on success, so the
      outcome alone is returned here. */
  class DayController {
    const day: Day

    constructor (day: Day)
      ensures this.day == day
    {
      this.day := day;
    }

    method RollInitialChallengeModifier(game: Game, challengeModifiers: seq<ChallengeModifier>,
                                        modifierOptions: seq<ModifierOption>) returns (r: Outcome)
      modifies day
      ensures RollInitialStep(old(day.State()), game, challengeModifiers, modifierOptions, day.State(), r)
    {
      ghost var s := day.State();
      if day.number != game.currentDay {
        return Fail(DayNotCurrent);
      }
      if day.challengeModifierId != 0 {
        return Fail(AlreadyRolled);
      }
      var picked := Pick(challengeModifiers);
      if picked.None? {
        return Fail(EmptyCatalog);
      }
      var cm := picked.value;
      day.challengeModifierId := cm.id;
      r := Pass;
      if cm.hasOptions {
        var option := Pick(OptionsFor(modifierOptions, cm.id));
        if option.None? {
          r := Fail(EmptyCatalog);
        } else {
          day.modifierOptionId := option.value.id;
        }
      }
      assert RolledOnto(s, cm, modifierOptions, day.State(), r);
    }

    method RerollChallengeModifier(game: Game, challengeModifiers: seq<ChallengeModifier>,
                                   modifierOptions: seq<ModifierOption>) returns (r: Outcome)
      modifies day
      ensures RerollModifierStep(old(day.State()), game, challengeModifiers, modifierOptions, day.State(), r)
    {
      if day.number != game.currentDay {
        return Fail(DayNotCurrent);
      }
      if day.challengeModifierId == 0 {
        return Fail(NotRolledYet);
      }
      if game.currentRerollTokens < 2 {
        return Fail(InsufficientTokens);
      }
      day.challengeModifierRerollsUsed := day.challengeModifierRerollsUsed + 1;
      ghost var counted := day.State();
      var picked := Pick(challengeModifiers);
      if picked.None? {
        return Fail(EmptyCatalog);
      }
      var cm := picked.value;
      day.challengeModifierId := cm.id;
      r := Pass;
      if cm.hasOptions {
        // The nested call hands back the same Day it updated.
        r := RerollModifierOption(game.currentDay, OptionsFor(modifierOptions, cm.id), true, None);
      }
      assert RerolledOnto(counted, game, cm, modifierOptions, day.State(), r);
    }

    method RerollModifierOption(currentDay: int, modifierOptions: seq<ModifierOption>, gratis: bool,
                                game: Option<Game>) returns (r: Outcome)
      modifies day
      ensures RerollOptionStep(old(day.State()), currentDay, modifierOptions, gratis, game, day.State(), r)
    {
      if day.number != currentDay {
        return Fail(DayNotCurrent);
      }
      if day.challengeModifierId == 0 {
        return Fail(NotRolledYet);
      }
      if day.modifierOptionId == 0 {
        return Fail(NoOptionToReroll);
      }
      if !gratis {
        if game.None? {
          return Fail(MissingGame);
        }
        if game.value.currentRerollTokens < 1 {
          return Fail(InsufficientTokens);
        }
      }
      day.modifierOptionRerollsUsed := day.modifierOptionRerollsUsed + 1;
      var picked := Pick(modifierOptions);
      if picked.None? {
        return Fail(EmptyCatalog);
      }
      day.modifierOptionId := picked.value.id;
      r := Pass;
    }

    method CompletePart1(currentDay: int) returns (r: Outcome)
      modifies day
      ensures CompletePart1Step(old(day.State()), currentDay, day.State(), r)
    {
      if day.number != currentDay {
        return Fail(DayNotCurrent);
      }
      if day.part1Completed {
        return Fail(Part1AlreadyCompleted);
      }
      day.part1Completed := true;
      r := Pass;
    }

    method CompletePart2(currentDay: int) returns (r: Outcome)
      modifies day
      ensures CompletePart2Step(old(day.State()), currentDay, day.State(), r)
    {
      if day.number != currentDay {
        return Fail(DayNotCurrent);
      }
      if !day.part1Completed {
        return Fail(Part1NotCompleted);
      }
      if day.part2Completed {
        return Fail(Part2AlreadyCompleted);
      }
      day.part2Completed := true;
      r := Pass;
    }
  }

  // ---------------------------------------------------------------------
  // Properties of the operations

  /** The errors a call raises from its own checks, before any write. */
  predicate IsGuardError(e: DayError)
  {
    e in {DayNotCurrent, AlreadyRolled, InsufficientTokens, MissingGame,
          Part1AlreadyCompleted, Part1NotCompleted, Part2AlreadyCompleted}
  }

  /** A call on a day that is not the game's current day fails the day check
      and changes nothing. */
  lemma StaleDayIsRejected(s: DayState, c: Call, s': DayState, r: Outcome)
    requires Step(s, c, s', r)
    requires s.number != c.CheckedDay()
    ensures r == Fail(DayNotCurrent) && s' == s
  {
  }

  /** A call that fails one of its own checks writes nothing. A modifier
      reroll on a day without a modifier fails before its writes; one that
      fails in the nested option reroll fails after them. The other four
      operations write nothing on those errors either. */
  lemma RejectedCallWritesNothing(s: DayState, c: Call, s': DayState, r: Outcome)
    requires Step(s, c, s', r)
    requires r.Fail?
    requires || IsGuardError(r.error)
             || (!c.RerollModifier? && r.error in {NotRolledYet, NoOptionToReroll})
             || (c.RerollModifier? && s.challengeModifierId == 0)
    ensures s' == s
  {
  }

  /** Every call keeps the day number, never lowers a counter, never clears a
      completion flag and keeps part 2 from being completed before part 1. */
  lemma StepEvolves(s: DayState, c: Call, s': DayState, r: Outcome)
    requires Step(s, c, s', r)
    ensures Evolves(s, s')
    ensures s.PartsInOrder() ==> s'.PartsInOrder()
  {
  }

  /** Over any sequence of calls, whatever each of them picked and however
      each of them ended, the day keeps its number, its counters only grow,
      its flags only get set, and part 2 stays behind part 1. */
  lemma {:induction false} RunEvolves(states: seq<DayState>, calls: seq<Call>, outcomes: seq<Outcome>)
    requires |states| == |calls| + 1 && |outcomes| == |calls|
    requires forall i :: 0 <= i < |calls| ==> Step(states[i], calls[i], states[i + 1], outcomes[i])
    requires states[0].PartsInOrder()
    ensures forall i :: 0 <= i < |states| ==> Evolves(states[0], states[i]) && states[i].PartsInOrder()
  {
    if calls != [] {
      var n := |calls|;
      RunEvolves(states[..n], calls[..n - 1], outcomes[..n - 1]);
      StepEvolves(states[n - 1], calls[n - 1], states[n], outcomes[n - 1]);
    }
  }

  /** A successful initial roll: the day had no modifier; it now has one from
      the catalog and, when that modifier has options, one of its options;
      a modifier without options leaves the option id as it was. Nothing else
      changes. */
  lemma InitialRollResult(s: DayState, g: Game, ms: seq<ChallengeModifier>, os: seq<ModifierOption>,
                          s': DayState)
    requires RollInitialStep(s, g, ms, os, s', Pass)
    ensures s.number == g.currentDay && s.challengeModifierId == 0
    ensures s'.(challengeModifierId := s.challengeModifierId, modifierOptionId := s.modifierOptionId) == s
    ensures exists cm :: cm in ms && cm.id == s'.challengeModifierId &&
              (if cm.hasOptions then exists o :: o in os && o.challengeModifierId == cm.id && o.id == s'.modifierOptionId
               else s'.modifierOptionId == s.modifierOptionId)
  {
  }

  /** Once a first roll on the current day got past its checks, with a
      catalog of positive ids, a second roll fails as already rolled and
      writes nothing, even when the first one failed drawing the option. */
  lemma {:induction false} SecondRollFails(s: DayState, g: Game, ms: seq<ChallengeModifier>, os: seq<ModifierOption>,
                                           s1: DayState, r1: Outcome, s2: DayState, r2: Outcome)
    requires s.number == g.currentDay && s.challengeModifierId == 0 && ms != []
    requires forall cm :: cm in ms ==> cm.id > 0
    requires RollInitialStep(s, g, ms, os, s1, r1)
    requires RollInitialStep(s1, g, ms, os, s2, r2)
    ensures r2 == Fail(AlreadyRolled) && s2 == s1
  {
  }

  /** A successful modifier reroll: the day had a modifier and the game two
      tokens; the reroll is counted once; the new modifier is from the
      catalog; a new modifier with options got one of its options through a
      gratis option reroll, counted once; a new modifier without options
      leaves the option id and its counter as they were. */
  lemma ModifierRerollResult(s: DayState, g: Game, ms: seq<ChallengeModifier>, os: seq<ModifierOption>,
                             s': DayState)
    requires RerollModifierStep(s, g, ms, os, s', Pass)
    ensures s.number == g.currentDay && s.challengeModifierId != 0 && g.currentRerollTokens >= 2
    ensures s'.challengeModifierRerollsUsed == s.challengeModifierRerollsUsed + 1
    ensures s'.part1Completed == s.part1Completed && s'.part2Completed == s.part2Completed
    ensures exists cm :: cm in ms && cm.id == s'.challengeModifierId &&
              (if cm.hasOptions then
                 && s'.modifierOptionRerollsUsed == s.modifierOptionRerollsUsed + 1
                 && exists o :: o in os && o.challengeModifierId == cm.id && o.id == s'.modifierOptionId
               else
                 s'.modifierOptionId == s.modifierOptionId && s'.modifierOptionRerollsUsed == s.modifierOptionRerollsUsed)
  {
  }

  /** Rerolling onto modifiers without options never touches the option: a
      stale option id stays in place. */
  lemma StaleOptionSurvivesReroll(s: DayState, g: Game, ms: seq<ChallengeModifier>, os: seq<ModifierOption>,
                                  s': DayState, r: Outcome)
    requires forall cm :: cm in ms ==> !cm.hasOptions
    requires RerollModifierStep(s, g, ms, os, s', r)
    ensures s'.modifierOptionId == s.modifierOptionId
    ensures s'.modifierOptionRerollsUsed == s.modifierOptionRerollsUsed
  {
  }

  /** A successful option reroll: the day had a modifier and an option, the
      reroll was gratis or the game had a token; the reroll is counted once
      and the option is one of the candidates. Nothing else changes. */
  lemma OptionRerollResult(s: DayState, d: int, os: seq<ModifierOption>, gratis: bool, g: Option<Game>,
                           s': DayState)
    requires RerollOptionStep(s, d, os, gratis, g, s', Pass)
    ensures s.number == d && s.challengeModifierId != 0 && s.modifierOptionId != 0
    ensures gratis || (g.Some? && g.value.currentRerollTokens >= 1)
    ensures exists o :: o in os &&
              (s' == s.(modifierOptionRerollsUsed := s.modifierOptionRerollsUsed + 1, modifierOptionId := o.id))
  {
  }

  /** A gratis option reroll asks nothing of the token balance, and needs no
      game at all. */
  lemma GratisRerollIgnoresTokens(s: DayState, d: int, os: seq<ModifierOption>, g: Option<Game>,
                                  s': DayState, r: Outcome)
    requires s.number == d && s.challengeModifierId != 0 && s.modifierOptionId != 0 && os != []
    requires RerollOptionStep(s, d, os, true, g, s', r)
    ensures r == Pass
  {
  }

  /** Part 2 is only ever completed on a day whose part 1 is. */
  lemma Part2NeedsPart1(s: DayState, d: int, s': DayState)
    requires CompletePart2Step(s, d, s', Pass)
    ensures s.part1Completed && !s.part2Completed && s'.part2Completed
  {
  }

  /** Completing part 1 a second time fails and changes nothing. */
  lemma Part1TwiceFails(s: DayState, d: int, s1: DayState, s2: DayState, r2: Outcome)
    requires CompletePart1Step(s, d, s1, Pass) && CompletePart1Step(s1, d, s2, r2)
    ensures r2 == Fail(Part1AlreadyCompleted) && s2 == s1
  {
  }

  /** Completing part 2 a second time fails and changes nothing. */
  lemma Part2TwiceFails(s: DayState, d: int, s1: DayState, s2: DayState, r2: Outcome)
    requires CompletePart2Step(s, d, s1, Pass) && CompletePart2Step(s1, d, s2, r2)
    ensures r2 == Fail(Part2AlreadyCompleted) && s2 == s1
  {
  }

  // ---------------------------------------------------------------------
  // The gratis reroll after a modifier reroll, as written and as intended

  /** As written, rerolling from a modifier without options (so no option id)
      onto modifiers that have options always fails in the nested option
      reroll, and by then the modifier reroll has been counted and the new
      modifier id written. */
  lemma RerollOntoOptionsFromNoOptionFails(s: DayState, g: Game, ms: seq<ChallengeModifier>,
                                           os: seq<ModifierOption>, s': DayState, r: Outcome)
    requires s.number == g.currentDay && s.challengeModifierId != 0 && g.currentRerollTokens >= 2
    requires s.modifierOptionId == 0
    requires ms != [] && forall cm :: cm in ms ==> cm.hasOptions && cm.id > 0
    requires RerollModifierStep(s, g, ms, os, s', r)
    ensures r == Fail(NoOptionToReroll)
    ensures s'.challengeModifierRerollsUsed == s.challengeModifierRerollsUsed + 1
    ensures exists cm :: cm in ms && s'.challengeModifierId == cm.id
    ensures s'.modifierOptionId == 0 && s'.modifierOptionRerollsUsed == s.modifierOptionRerollsUsed
    ensures s' != s
  {
  }

  /** The evident intent of the gratis reroll: once a modifier with options
      has been drawn, draw one of its options, whether or not the day had an
      option before. */
  ghost predicate RerollModifierIntendedStep(s: DayState, g: Game, ms: seq<ChallengeModifier>,
                                             os: seq<ModifierOption>, s': DayState, r: Outcome)
  {
    if s.number != g.currentDay then r == Fail(DayNotCurrent) && s' == s
    else if s.challengeModifierId == 0 then r == Fail(NotRolledYet) && s' == s
    else if g.currentRerollTokens < 2 then r == Fail(InsufficientTokens) && s' == s
    else
      var counted := s.(challengeModifierRerollsUsed := s.challengeModifierRerollsUsed + 1);
      if ms == [] then r == Fail(EmptyCatalog) && s' == counted
      else exists cm :: cm in ms && IntendedRerolledOnto(counted, cm, os, s', r)
  }

  /** The intended modifier reroll once `cm` has been picked. */
  ghost predicate IntendedRerolledOnto(s: DayState, cm: ChallengeModifier, os: seq<ModifierOption>,
                                       s': DayState, r: Outcome)
  {
    var written := s.(challengeModifierId := cm.id);
    if !cm.hasOptions then r == Pass && s' == written
    else OptionRedrawn(written, OptionsFor(os, cm.id), s', r)
  }

  /** Every modifier with options has at least one option in the catalog. */
  ghost predicate OptionsCovered(ms: seq<ChallengeModifier>, os: seq<ModifierOption>)
  {
    forall cm :: cm in ms && cm.hasOptions ==> exists o :: o in os && o.challengeModifierId == cm.id
  }

  /** With the intended gratis reroll, a modifier reroll on the current day,
      with a modifier set, two tokens and a catalog whose modifiers with
      options all have options, always succeeds; and a new modifier with
      options always comes with one of its own options. */
  lemma IntendedRerollAssignsOption(s: DayState, g: Game, ms: seq<ChallengeModifier>,
                                    os: seq<ModifierOption>, s': DayState, r: Outcome)
    requires s.number == g.currentDay && s.challengeModifierId != 0 && g.currentRerollTokens >= 2
    requires ms != [] && OptionsCovered(ms, os)
    requires RerollModifierIntendedStep(s, g, ms, os, s', r)
    ensures r == Pass
    ensures s'.challengeModifierRerollsUsed == s.challengeModifierRerollsUsed + 1
    ensures exists cm :: cm in ms && cm.id == s'.challengeModifierId &&
              (cm.hasOptions ==> exists o :: o in os && o.challengeModifierId == cm.id && o.id == s'.modifierOptionId)
  {
  }

  // ---------------------------------------------------------------------
  // Callers

  /** Completing part 1, then part 2, then part 2 again, on the current day
      of a fresh day: two successes, then "Part 2 already completed". */
  method CompletionScenario(dayNumber: int) returns (first: Outcome, second: Outcome, third: Outcome, last: DayState)
    ensures first == Pass && second == Pass && third == Fail(Part2AlreadyCompleted)
    ensures last.part1Completed && last.part2Completed
  {
    var day := new Day(DayState(dayNumber, 7, 0, 0, 0, false, false));
    var controller := new DayController(day);
    first := controller.CompletePart1(dayNumber);
    second := controller.CompletePart2(dayNumber);
    third := controller.CompletePart2(dayNumber);
    last := day.State();
  }

  /** Rolling the initial modifier twice on a fresh current day: whatever the
      first roll picked, the second fails as already rolled and leaves the
      day as the first roll left it. */
  method RollTwiceScenario(game: Game, modifiers: seq<ChallengeModifier>, options: seq<ModifierOption>)
    returns (second: Outcome, unchangedBySecond: bool)
    requires modifiers != [] && forall cm :: cm in modifiers ==> cm.id > 0
    ensures second == Fail(AlreadyRolled) && unchangedBySecond
  {
    var day := new Day(DayState(game.currentDay, 0, 0, 0, 0, false, false));
    var controller := new DayController(day);
    ghost var s0 := day.State();
    var first := controller.RollInitialChallengeModifier(game, modifiers, options);
    var s1 := day.State();
    second := controller.RollInitialChallengeModifier(game, modifiers, options);
    SecondRollFails(s0, game, modifiers, options, s1, first, day.State(), second);
    unchangedBySecond := day.State() == s1;
  }
}
