/**
 * The top-level component of App.tsx: which screen is shown, which buddy is
 * active, the sticker counter, each buddy's level and the parental overlay flag,
 * stepped by the component's event handlers. Each handler is one atomic step.
 */
module LucasApp {
  import opened Wrappers
  import AudioService

  datatype View = Welcome | Selection | Game | Rewards

  /** The seven buddies of the catalogue, one per mini-game. */
  datatype Buddy = Toby | Lila | Payasin | Gogo | Pipo | Maya | Bruno

  /** A level read before the increment at or above this sends the player to the rewards screen (App.tsx:84). */
  const MasteryLevel: int := 10

  /** The component state (App.tsx:54-60). */
  datatype Screen = Screen(
    view: View,
    activeBuddy: Option<Buddy>,
    showParental: bool,
    stickers: int,
    levels: map<Buddy, int>)

  /** What a handler asks of the audio service, in the order it asks. */
  datatype Effect =
    | InitAudio
    | PlaySound(sound: AudioService.SoundEffect)
    | Speak(text: string)
    | SpeakBuddyIntro(buddy: Buddy)   // "¡Vamos! <name> te enseñará.", the name coming from the catalogue

  const Greeting := "¡Hola! Soy Lucas. ¿Con quién quieres jugar hoy?"

  /** The events the component reacts to; `LevelUp` is a mini-game's `onComplete`. */
  datatype Action =
    | Start                 // handleStart
    | SelectBuddy(buddy: Buddy)  // startBuddyAventure
    | LevelUp               // handleLevelUp
    | Home                  // the home button
    | Settings              // the settings button
    | CloseOverlay          // ParentalControl's onClose

  /** The state on first render. */
  function InitialScreen(): (s: Screen)
    ensures s.view == Welcome && s.activeBuddy == None && !s.showParental && s.stickers == 0
    ensures forall b: Buddy :: b in s.levels && s.levels[b] == 1
  {
    InitialLevelsCoverCatalogue();
    Screen(Welcome, None, false, 0, InitialLevels)
  }

  /** `{ toby: 1, lila: 1, payasin: 1, gogo: 1, pipo: 1, maya: 1, bruno: 1 }`. */
  const InitialLevels: map<Buddy, int> :=
    map[Toby := 1, Lila := 1, Payasin := 1, Gogo := 1, Pipo := 1, Maya := 1, Bruno := 1]

  lemma InitialLevelsCoverCatalogue()
    ensures forall b: Buddy :: b in InitialLevels && InitialLevels[b] == 1
  {
    forall b: Buddy
      ensures b in InitialLevels && InitialLevels[b] == 1
    {
      match b
      case Toby => case Lila => case Payasin => case Gogo => case Pipo => case Maya => case Bruno =>
    }
  }

  /** `buddyLevels[b]` as the threshold test reads it: a missing entry (`undefined`) counts as 0. */
  function StoredLevel(levels: map<Buddy, int>, b: Buddy): int
  {
    if b in levels then levels[b] else 0
  }

  /** `prev[b] || 1`: a missing or zero entry counts as level 1. */
  function LevelOrOne(levels: map<Buddy, int>, b: Buddy): (l: int)
    ensures l != 0
    ensures StoredLevel(levels, b) != 0 ==> l == StoredLevel(levels, b)
    ensures StoredLevel(levels, b) == 0 ==> l == 1
  {
    var stored := StoredLevel(levels, b);
    if stored == 0 then 1 else stored
  }

  /** The state after one handler run. */
  function Step(s: Screen, a: Action): (r: Screen)
    ensures r.stickers == s.stickers + |Credit(s, a)|
    ensures r.view == Welcome ==> s.view == Welcome
    ensures r.view == Rewards ==> s.view == Rewards || a.LevelUp?
    ensures r.levels.Keys == s.levels.Keys + (set b | b in Credit(s, a))
  {
    match a
    case Start => s.(view := Selection)
    case SelectBuddy(b) => s.(activeBuddy := Some(b), view := Game)
    case LevelUp =>
      if s.activeBuddy.None? then s
      else
        var b := s.activeBuddy.value;
        s.(levels := s.levels[b := LevelOrOne(s.levels, b) + 1],
           stickers := s.stickers + 1,
           view := if StoredLevel(s.levels, b) >= MasteryLevel then Rewards else s.view)
    case Home => s.(view := Selection)
    case Settings => s.(showParental := true)
    case CloseOverlay => s.(showParental := false)
  }

  /** The audio-service calls a handler makes (App.tsx:63-65, 70-73, 99, 107). */
  function EffectsOf(a: Action): (effects: seq<Effect>)
    ensures effects == [] <==> a.LevelUp? || a.CloseOverlay?
    ensures effects != [] ==> effects[0] == InitAudio && InitAudio !in effects[1..]
    ensures Speak(Greeting) in effects <==> a.Start?
  {
    match a
    case Start => [InitAudio, PlaySound(AudioService.Pop), Speak(Greeting)]
    case SelectBuddy(b) => [InitAudio, PlaySound(AudioService.Correct), SpeakBuddyIntro(b)]
    case LevelUp => []
    case Home => [InitAudio, PlaySound(AudioService.Pop)]
    case Settings => [InitAudio]
    case CloseOverlay => []
  }

  /** The buddy a step credits with a completed round, if any. */
  function Credit(s: Screen, a: Action): seq<Buddy>
  {
    if a.LevelUp? && s.activeBuddy.Some? then [s.activeBuddy.value] else []
  }

  /** The state after a sequence of handler runs. */
  function Run(s: Screen, actions: seq<Action>): Screen
    decreases |actions|
  {
    if actions == [] then s else Run(Step(s, actions[0]), actions[1..])
  }

  /** The buddies credited, in order, along a sequence of handler runs. */
  function Credits(s: Screen, actions: seq<Action>): seq<Buddy>
    decreases |actions|
  {
    if actions == [] then [] else Credit(s, actions[0]) + Credits(Step(s, actions[0]), actions[1..])
  }

  /** How often `b` occurs in `bs`. */
  function Count(bs: seq<Buddy>, b: Buddy): nat
  {
    if bs == [] then 0 else (if bs[0] == b then 1 else 0) + Count(bs[1..], b)
  }

  lemma {:induction false} CountAppend(bs: seq<Buddy>, cs: seq<Buddy>, b: Buddy)
    ensures Count(bs + cs, b) == Count(bs, b) + Count(cs, b)
    decreases |bs|
  {
    if bs == [] {
      assert bs + cs == cs;
    } else {
      assert (bs + cs)[1..] == bs[1..] + cs;
      CountAppend(bs[1..], cs, b);
    }
  }

  /**
   * The state agrees with the rounds completed so far: one sticker per credited
   * round and every buddy one level above its starting 1 per round credited to it.
   */
  ghost predicate Consistent(s: Screen, credited: seq<Buddy>)
  {
    && s.stickers == |credited|
    && forall b: Buddy :: b in s.levels && s.levels[b] == 1 + Count(credited, b)
  }

  /** Every handler keeps the state consistent with the credited rounds. */
  lemma {:induction false} StepKeepsConsistent(s: Screen, credited: seq<Buddy>, a: Action)
    requires Consistent(s, credited)
    ensures Consistent(Step(s, a), credited + Credit(s, a))
  {
    if a.LevelUp? && s.activeBuddy.Some? {
      var b := s.activeBuddy.value;
      forall c: Buddy
        ensures Count(credited + [b], c) == Count(credited, c) + (if c == b then 1 else 0)
      {
        CountAppend(credited, [b], c);
        assert Count([b], c) == (if c == b then 1 else 0) by {
          assert [b][1..] == [];
        }
      }
    } else {
      assert credited + Credit(s, a) == credited;
    }
  }

  /** Along any sequence of handler runs, stickers and levels count exactly the credited rounds. */
  lemma {:induction false} RunKeepsConsistent(s: Screen, credited: seq<Buddy>, actions: seq<Action>)
    requires Consistent(s, credited)
    ensures Consistent(Run(s, actions), credited + Credits(s, actions))
    decreases |actions|
  {
    if actions == [] {
      assert credited + Credits(s, actions) == credited;
    } else {
      var a := actions[0];
      StepKeepsConsistent(s, credited, a);
      RunKeepsConsistent(Step(s, a), credited + Credit(s, a), actions[1..]);
      assert credited + Credit(s, a) + Credits(Step(s, a), actions[1..]) == credited + Credits(s, actions);
    }
  }

  /** From the first render on: every level is at least 1 and stickers equal the level-ups taken with a buddy. */
  lemma {:induction false} ReachableInvariants(actions: seq<Action>)
    ensures var r := Run(InitialScreen(), actions);
      var credited := Credits(InitialScreen(), actions);
      && r.stickers == |credited|
      && forall b: Buddy :: b in r.levels && r.levels[b] == 1 + Count(credited, b) && r.levels[b] >= 1
  {
    assert Consistent(InitialScreen(), []);
    RunKeepsConsistent(InitialScreen(), [], actions);
    assert [] + Credits(InitialScreen(), actions) == Credits(InitialScreen(), actions);
  }

  /** The parental flag moves only with the settings and close actions, and those move nothing else. */
  lemma ParentalIsolated(s: Screen, a: Action)
    ensures !a.Settings? && !a.CloseOverlay? ==> Step(s, a).showParental == s.showParental
    ensures a.Settings? || a.CloseOverlay? ==> Step(s, a) == s.(showParental := a.Settings?)
  {
  }

  /** `n` level-ups in a row. */
  function LevelUps(s: Screen, n: nat): Screen
  {
    if n == 0 then s else Step(LevelUps(s, n - 1), LevelUp)
  }

  /**
   * From level `l` (not 0) in a game, after `n` completed rounds the buddy is at
   * level `l + n`, the stickers have grown by `n`, and the rewards screen shows
   * iff some round started from a level of 10 or more, i.e. iff `n > 0 && l + n - 1 >= 10`.
   */
  lemma {:induction false} RoundsFromLevel(s: Screen, b: Buddy, n: nat)
    requires s.activeBuddy == Some(b) && s.view == Game && b in s.levels && s.levels[b] >= 1
    ensures var r := LevelUps(s, n);
      && r.activeBuddy == Some(b)
      && b in r.levels && r.levels[b] == s.levels[b] + n
      && r.stickers == s.stickers + n
      && (forall c: Buddy :: c != b && c in s.levels ==> c in r.levels && r.levels[c] == s.levels[c])
      && r.view == (if n > 0 && s.levels[b] + n - 1 >= MasteryLevel then Rewards else Game)
  {
    if n > 0 {
      RoundsFromLevel(s, b, n - 1);
    }
  }

  /** A fresh buddy reaches the rewards screen on its 10th completed round, at level 11, not on its 9th. */
  lemma FreshBuddyRewards(s: Screen, b: Buddy)
    requires s.activeBuddy == Some(b) && s.view == Game && b in s.levels && s.levels[b] == 1
    ensures b in LevelUps(s, 9).levels && LevelUps(s, 9).levels[b] == 10 && LevelUps(s, 9).view == Game
    ensures b in LevelUps(s, 10).levels && LevelUps(s, 10).levels[b] == 11 && LevelUps(s, 10).view == Rewards
  {
    RoundsFromLevel(s, b, 9);
    RoundsFromLevel(s, b, 10);
  }

  /** Start, pick Toby, win rounds: the game shows until the 10th round, which shows the rewards. */
  lemma TobyScenario()
    ensures var picked := Run(InitialScreen(), [Start, SelectBuddy(Toby)]);
      && picked.view == Game && picked.activeBuddy == Some(Toby) && picked.levels[Toby] == 1
      && LevelUps(picked, 1).levels[Toby] == 2 && LevelUps(picked, 1).stickers == 1
      && LevelUps(picked, 1).view == Game
      && LevelUps(picked, 9).view == Game
      && LevelUps(picked, 10).view == Rewards && LevelUps(picked, 10).stickers == 10
  {
  }

  // ---------------------------------------------------------------------------
  // The component

  class App {
    var view: View
    var activeBuddy: Option<Buddy>
    var showParental: bool
    var stickers: int
    var buddyLevels: map<Buddy, int>
    /** The buddies credited with a completed round so far, in order. */
    ghost var credited: seq<Buddy>

    function Current(): Screen
      reads this
    {
      Screen(view, activeBuddy, showParental, stickers, buddyLevels)
    }

    ghost predicate Valid()
      reads this
    {
      Consistent(Current(), credited)
    }

    /** The `useState` initial values (App.tsx:54-60). */
    constructor()
      ensures Valid() && Current() == InitialScreen() && credited == []
    {
      view := Welcome;
      activeBuddy := None;
      showParental := false;
      stickers := 0;
      buddyLevels := InitialLevels;
      InitialLevelsCoverCatalogue();
      credited := [];
    }

    /** `handleStart` (App.tsx:62-67): unlock audio, pop, greet, show the buddy selection. */
    method HandleStart() returns (effects: seq<Effect>)
      requires Valid()
      modifies this
      ensures Valid() && credited == old(credited)
      ensures Current() == Step(old(Current()), Start) && effects == EffectsOf(Start)
      ensures view == Selection
      ensures activeBuddy == old(activeBuddy) && stickers == old(stickers) && buddyLevels == old(buddyLevels)
      ensures showParental == old(showParental)
    {
      effects := [InitAudio, PlaySound(AudioService.Pop), Speak(Greeting)];
      view := Selection;
      StepKeepsConsistent(old(Current()), credited, Start);
    }

    /** `startBuddyAventure` (App.tsx:69-75): make `b` the active buddy and show its game. */
    method StartBuddyAdventure(b: Buddy) returns (effects: seq<Effect>)
      requires Valid()
      modifies this
      ensures Valid() && credited == old(credited)
      ensures Current() == Step(old(Current()), SelectBuddy(b)) && effects == EffectsOf(SelectBuddy(b))
      ensures activeBuddy == Some(b) && view == Game
      ensures stickers == old(stickers) && buddyLevels == old(buddyLevels) && showParental == old(showParental)
    {
      effects := [InitAudio, PlaySound(AudioService.Correct)];
      activeBuddy := Some(b);
      effects := effects + [SpeakBuddyIntro(b)];
      view := Game;
      StepKeepsConsistent(old(Current()), credited, SelectBuddy(b));
    }

    /**
     * `handleLevelUp` (App.tsx:77-88): with an active buddy, raise its level and the
     * stickers by one; show the rewards when the level read BEFORE the raise is 10 or more.
     */
    method HandleLevelUp()
      requires Valid()
      modifies this
      ensures Valid() && credited == old(credited) + Credit(old(Current()), LevelUp)
      ensures Current() == Step(old(Current()), LevelUp)
      ensures old(activeBuddy).None? ==> Current() == old(Current())
      ensures old(activeBuddy).Some? ==>
        var b := old(activeBuddy).value;
        && buddyLevels == old(buddyLevels)[b := old(buddyLevels)[b] + 1]
        && stickers == old(stickers) + 1
        && view == (if old(buddyLevels)[b] >= MasteryLevel then Rewards else old(view))
      ensures activeBuddy == old(activeBuddy) && showParental == old(showParental)
    {
      StepKeepsConsistent(Current(), credited, LevelUp);
      if activeBuddy.Some? {
        var b := activeBuddy.value;
        var before := StoredLevel(buddyLevels, b);
        buddyLevels := buddyLevels[b := LevelOrOne(buddyLevels, b) + 1];
        stickers := stickers + 1;
        if before >= MasteryLevel {
          view := Rewards;
        }
        credited := credited + [b];
      }
    }

    /** The home button (App.tsx:99): unlock audio, pop, back to the buddy selection from any screen. */
    method PressHome() returns (effects: seq<Effect>)
      requires Valid()
      modifies this
      ensures Valid() && credited == old(credited)
      ensures Current() == Step(old(Current()), Home) && effects == EffectsOf(Home)
      ensures view == Selection
      ensures activeBuddy == old(activeBuddy) && stickers == old(stickers) && buddyLevels == old(buddyLevels)
      ensures showParental == old(showParental)
    {
      effects := [InitAudio, PlaySound(AudioService.Pop)];
      view := Selection;
      StepKeepsConsistent(old(Current()), credited, Home);
    }

    /** The settings button (App.tsx:107): unlock audio and open the parental overlay; the view stays. */
    method PressSettings() returns (effects: seq<Effect>)
      requires Valid()
      modifies this
      ensures Valid() && credited == old(credited)
      ensures Current() == Step(old(Current()), Settings) && effects == EffectsOf(Settings)
      ensures showParental
      ensures view == old(view) && activeBuddy == old(activeBuddy)
      ensures stickers == old(stickers) && buddyLevels == old(buddyLevels)
    {
      effects := [InitAudio];
      showParental := true;
      StepKeepsConsistent(old(Current()), credited, Settings);
    }

    /** The overlay's `onClose` (App.tsx:157): hide the parental overlay; nothing else moves. */
    method CloseParental()
      requires Valid()
      modifies this
      ensures Valid() && credited == old(credited)
      ensures Current() == Step(old(Current()), CloseOverlay)
      ensures !showParental
      ensures view == old(view) && activeBuddy == old(activeBuddy)
      ensures stickers == old(stickers) && buddyLevels == old(buddyLevels)
    {
      showParental := false;
      StepKeepsConsistent(old(Current()), credited, CloseOverlay);
    }
  }
}
