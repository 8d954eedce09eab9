/** The scene sequencer: the fixed list of scenes (script.js:283-314), the
    cursor `sceneIndex` into it (script.js:315), forward and backward
    navigation, the two skip buttons, the retry button of the result screen,
    and the one-shot wait for a key or a click that paces the dialogs. */
module Scenes {
  import opened Common

  datatype Scene =
    | StartScene
    | PrologueScene
    | DialogScene(bg: string, left: string, right: string, lines: nat)
    | BattleScene(stage: nat, bg: string, enemy: string, bpm: real, duration: real)
    | Prologue2Scene
    | EndingScene

  /** `DUR.s1` and `DUR.s2` (script.js:245), in seconds. */
  const STAGE1_DURATION: real := 135.0
  const STAGE2_DURATION: real := 151.0

  /** SCENES (script.js:283-314); a dialog is kept as its number of lines. */
  function AllScenes(): (scenes: seq<Scene>)
    ensures |scenes| == 8
  {
    [ StartScene,
      PrologueScene,
      DialogScene("lab", "AIRA", "FIX", 11),
      BattleScene(1, "lab", "FIX", 133.0, STAGE1_DURATION),
      Prologue2Scene,
      DialogScene("arcade", "AIRA", "GL!TCH", 11),
      BattleScene(2, "arcade", "GL!TCH", 149.0, STAGE2_DURATION),
      EndingScene ]
  }

  /** What a navigation step starts: nothing, the start screen, or the
      handler of the scene at an index. */
  datatype Dispatch = NoDispatch | StartScreen | Show(index: nat)

  /** `SCENES[i]` is defined. */
  predicate InRange(scenes: seq<Scene>, i: int)
  {
    0 <= i < |scenes|
  }

  /** The scan `let i=from; while(i<SCENES.length && SCENES[i].type!=='battle'){i++}`:
      the first battle at or after `from`, or the list's length when there
      is none. */
  function NextBattle(scenes: seq<Scene>, from: nat): (i: nat)
    requires from <= |scenes|
    ensures from <= i <= |scenes|
    ensures i < |scenes| ==> scenes[i].BattleScene?
    ensures forall j :: from <= j < i ==> !scenes[j].BattleScene?
    decreases |scenes| - from
  {
    if from == |scenes| || scenes[from].BattleScene? then from
    else NextBattle(scenes, from + 1)
  }

  /** The cursor and what runs after a step of the sequencer. */
  datatype Nav = Nav(index: int, run: Dispatch)

  /** nextScene (script.js:1354-1365): the cursor always advances; the scene
      under it is shown when there is one, and nothing runs past the end. */
  function NextScene(scenes: seq<Scene>, index: int): (r: Nav)
    ensures r.index == index + 1
    ensures InRange(scenes, index + 1) <==> r.run.Show?
    ensures r.run.Show? ==> r.run.index == index + 1
    ensures !InRange(scenes, index + 1) <==> r.run == NoDispatch
  {
    if InRange(scenes, index + 1) then Nav(index + 1, Show(index + 1))
    else Nav(index + 1, NoDispatch)
  }

  /** prevScene (script.js:1366): the cursor steps back but not below -1; with
      no scene under it the start screen runs; a dialog, a battle or the
      ending is shown again, and the start and prologue scenes start
      nothing. */
  function PrevScene(scenes: seq<Scene>, index: int): (r: Nav)
    ensures r.index == (if index <= 0 then -1 else index - 1)
    ensures r.run == StartScreen <==> !InRange(scenes, r.index)
    ensures r.run.Show? <==> InRange(scenes, r.index) && !scenes[r.index].StartScene?
                             && !scenes[r.index].PrologueScene? && !scenes[r.index].Prologue2Scene?
    ensures r.run.Show? ==> r.run.index == r.index
  {
    var j := Max(-1, index - 1);
    if !InRange(scenes, j) then Nav(j, StartScreen)
    else if scenes[j].DialogScene? || scenes[j].BattleScene? || scenes[j].EndingScene? then Nav(j, Show(j))
    else Nav(j, NoDispatch)
  }

  /** The dialog's skip button (script.js:515-527): with a battle after the
      cursor, the cursor is set just before it and nextScene starts it;
      otherwise this is a plain nextScene. */
  function DialogSkip(scenes: seq<Scene>, index: int): (r: Nav)
    requires -1 <= index < |scenes|
    ensures r.index > index
    ensures NextBattle(scenes, index + 1) < |scenes| ==>
              0 <= r.index < |scenes| && r.run == Show(r.index) && scenes[r.index].BattleScene?
    ensures NextBattle(scenes, index + 1) == |scenes| ==> r.index == index + 1
  {
    var i := NextBattle(scenes, index + 1);
    if i < |scenes| then NextScene(scenes, i - 1) else NextScene(scenes, index)
  }

  /** The prologue comic's skip button (script.js:1340-1342) and the
      prologue's continuation (script.js:540, script.js:555): the index of
      the next battle is stored in `window.__skipToBattleIndex` when there is
      one, the comic resolves and the prologue calls nextScene. The stored
      index is never read. */
  datatype PrologueSkipResult = PrologueSkipResult(nav: Nav, stored: Option<nat>)

  function PrologueSkip(scenes: seq<Scene>, index: int, stored: Option<nat>): (r: PrologueSkipResult)
    requires -1 <= index < |scenes|
    ensures r.nav.index == index + 1
    ensures r.nav.run.Show? <==> index + 1 < |scenes|
    ensures NextBattle(scenes, index + 1) < |scenes| ==>
              && r.stored.Some? && index < r.stored.value < |scenes|
              && scenes[r.stored.value].BattleScene?
    ensures NextBattle(scenes, index + 1) == |scenes| ==> r.stored == stored
  {
    var i := NextBattle(scenes, index + 1);
    PrologueSkipResult(NextScene(scenes, index), if i < |scenes| then Some(i) else stored)
  }

  /** The result screen's retry button (script.js:1268): on a battle it
      starts that battle again without moving the cursor; anywhere else the
      `findLast` fallback finds no battle at the cursor either and the
      sequencer moves on with nextScene. */
  function Retry(scenes: seq<Scene>, index: int): (r: Nav)
    ensures InRange(scenes, index) && scenes[index].BattleScene? ==> r == Nav(index, Show(index))
    ensures !(InRange(scenes, index) && scenes[index].BattleScene?) ==> r.index == index + 1
    ensures !(InRange(scenes, index) && scenes[index].BattleScene?) ==>
              (r.run.Show? <==> InRange(scenes, index + 1))
    ensures !(InRange(scenes, index) && scenes[index].BattleScene?) ==> r == NextScene(scenes, index)
  {
    if InRange(scenes, index) && scenes[index].BattleScene? then Nav(index, Show(index))
    else NextScene(scenes, index)
  }

  /** Both battles of the game have a positive tempo and length, so each can
      generate its chart, and they are stages 1 and 2 at 133 and 149 BPM. */
  lemma BattleScenesPlayable()
    ensures forall i :: 0 <= i < |AllScenes()| && AllScenes()[i].BattleScene? ==>
              AllScenes()[i].bpm > 0.0 && AllScenes()[i].duration > 0.0
    ensures AllScenes()[3] == BattleScene(1, "lab", "FIX", 133.0, 135.0)
    ensures AllScenes()[6] == BattleScene(2, "arcade", "GL!TCH", 149.0, 151.0)
    ensures forall i :: 0 <= i < |AllScenes()| && AllScenes()[i].BattleScene? ==> i == 3 || i == 6
  {
  }

  /** Going forward and then back returns to the same cursor, and so does
      going back and then forward from a scene of the list. */
  lemma NextThenPrev(scenes: seq<Scene>, index: int)
    requires index >= -1
    ensures PrevScene(scenes, NextScene(scenes, index).index).index == index
    ensures index >= 0 ==> NextScene(scenes, PrevScene(scenes, index).index).index == index
  {
  }

  /** The dialog skip starts the first battle after the cursor, whatever
      lies between, and leaves the cursor on it; with no battle ahead it is
      nextScene. */
  lemma {:induction false} DialogSkipStartsNextBattle(scenes: seq<Scene>, index: int, b: nat)
    requires -1 <= index < b < |scenes| && scenes[b].BattleScene?
    requires forall j :: index < j < b ==> !scenes[j].BattleScene?
    ensures DialogSkip(scenes, index) == Nav(b, Show(b))
  {
    var i := NextBattle(scenes, index + 1);
    assert i <= b;
    assert i >= b;
  }

  /** In the game's own list the dialog before each battle skips straight
      to it, and the ending has no battle to skip to. */
  lemma DialogSkipInGame()
    ensures DialogSkip(AllScenes(), 2) == Nav(3, Show(3))
    ensures DialogSkip(AllScenes(), 5) == Nav(6, Show(6))
    ensures DialogSkip(AllScenes(), 7) == Nav(8, NoDispatch)
  {
    DialogSkipStartsNextBattle(AllScenes(), 2, 3);
    DialogSkipStartsNextBattle(AllScenes(), 5, 6);
  }

  /** The prologue skip moves on exactly as nextScene does, whatever was
      stored before, so from each prologue it starts the dialog after it and
      not the battle whose index it stores. */
  lemma PrologueSkipIsNextScene(scenes: seq<Scene>, index: int, stored: Option<nat>)
    requires -1 <= index < |scenes|
    ensures PrologueSkip(scenes, index, stored).nav == NextScene(scenes, index)
    ensures PrologueSkip(scenes, index, stored).nav == PrologueSkip(scenes, index, None).nav
    ensures PrologueSkip(scenes, index, stored).stored.Some? <==> stored.Some? || NextBattle(scenes, index + 1) < |scenes|
  {
  }

  lemma PrologueSkipInGame(stored: Option<nat>)
    ensures PrologueSkip(AllScenes(), 1, stored) == PrologueSkipResult(Nav(2, Show(2)), Some(3))
    ensures PrologueSkip(AllScenes(), 4, stored) == PrologueSkipResult(Nav(5, Show(5)), Some(6))
    ensures AllScenes()[2].DialogScene? && AllScenes()[5].DialogScene?
  {
    assert NextBattle(AllScenes(), 2) == 3;
    assert NextBattle(AllScenes(), 5) == 6;
  }

  /** One key press or click while waitKeyOrClick (script.js:557) listens:
      the time it happens and the suppression deadline in force then. */
  datatype Press = Press(now: real, suppressUntil: real)

  /** How many presses of a sequence resolve the wait when it starts
      unresolved (or already resolved). */
  function Resolutions(resolved: bool, presses: seq<Press>): nat
    decreases |presses|
  {
    if presses == [] then 0
    else
      var fires := !resolved && presses[0].now >= presses[0].suppressUntil;
      (if fires then 1 else 0) + Resolutions(resolved || fires, presses[1..])
  }

  /** The wait resolves at most once, and it resolves exactly when some
      press comes at or after the suppression deadline in force then. */
  lemma {:induction false} ResolvesAtMostOnce(resolved: bool, presses: seq<Press>)
    ensures Resolutions(resolved, presses) <= 1
    ensures resolved ==> Resolutions(resolved, presses) == 0
    ensures !resolved ==> (Resolutions(resolved, presses) == 1 <==>
              exists k :: 0 <= k < |presses| && presses[k].now >= presses[k].suppressUntil)
    decreases |presses|
  {
    if presses != [] {
      var fires := !resolved && presses[0].now >= presses[0].suppressUntil;
      ResolvesAtMostOnce(resolved || fires, presses[1..]);
      if !resolved && !fires {
        assert forall k :: 1 <= k < |presses| ==> presses[k] == presses[1..][k - 1];
      }
    }
  }

  /** The listener pair of one waitKeyOrClick call. */
  class KeyOrClickWait {
    var resolved: bool

    constructor ()
      ensures !resolved
    {
      resolved := false;
    }

    /** A keydown or click: ignored while input is suppressed; otherwise the
        first one resolves the wait and later ones do nothing. */
    method Input(p: Press) returns (fired: bool)
      modifies this
      ensures fired <==> !old(resolved) && p.now >= p.suppressUntil
      ensures resolved == (old(resolved) || fired)
      ensures (if fired then 1 else 0) == Resolutions(old(resolved), [p])
    {
      if p.now < p.suppressUntil {
        return false;
      }
      if resolved {
        return false;
      }
      resolved := true;
      fired := true;
    }
  }
}

/** The sequencer as the page runs it: the cursor and the stored skip
    target are variables that the navigation handlers update in place. */
module Navigation {
  import opened Common
  import opened Scenes

  /** The sequencer's state: `sceneIndex` and `window.__skipToBattleIndex`. */
  class Sequencer {
    var sceneIndex: int
    var skipToBattle: Option<nat>
    const scenes: seq<Scene>

    /** `sceneIndex=-1` before init calls nextScene. */
    constructor ()
      ensures scenes == AllScenes() && sceneIndex == -1 && skipToBattle == None
    {
      scenes := AllScenes();
      sceneIndex := -1;
      skipToBattle := None;
    }

    method NextScene() returns (run: Dispatch)
      modifies this
      ensures Nav(sceneIndex, run) == Scenes.NextScene(scenes, old(sceneIndex))
      ensures skipToBattle == old(skipToBattle)
    {
      sceneIndex := sceneIndex + 1;
      if !(0 <= sceneIndex < |scenes|) {
        return NoDispatch;
      }
      run := Show(sceneIndex);
    }

    method PrevScene() returns (run: Dispatch)
      modifies this
      ensures Nav(sceneIndex, run) == Scenes.PrevScene(scenes, old(sceneIndex))
      ensures skipToBattle == old(skipToBattle)
    {
      sceneIndex := Max(-1, sceneIndex - 1);
      if !(0 <= sceneIndex < |scenes|) {
        return StartScreen;
      }
      var s := scenes[sceneIndex];
      if s.DialogScene? || s.BattleScene? || s.EndingScene? {
        return Show(sceneIndex);
      }
      run := NoDispatch;
    }

    /** The scan for the next battle, as the loop the source runs. */
    method FindBattle(from: nat) returns (i: nat)
      requires from <= |scenes|
      ensures i == NextBattle(scenes, from)
    {
      i := from;
      while i < |scenes| && !scenes[i].BattleScene?
        invariant from <= i <= |scenes|
        invariant NextBattle(scenes, i) == NextBattle(scenes, from)
        decreases |scenes| - i
      {
        i := i + 1;
      }
    }

    method DialogSkip() returns (run: Dispatch)
      requires -1 <= sceneIndex < |scenes|
      modifies this
      ensures Nav(sceneIndex, run) == Scenes.DialogSkip(scenes, old(sceneIndex))
      ensures skipToBattle == old(skipToBattle)
    {
      var i := FindBattle(sceneIndex + 1);
      if i < |scenes| {
        sceneIndex := i - 1;
      }
      run := NextScene();
    }

    method PrologueSkip() returns (run: Dispatch)
      requires -1 <= sceneIndex < |scenes|
      modifies this
      ensures PrologueSkipResult(Nav(sceneIndex, run), skipToBattle)
              == Scenes.PrologueSkip(scenes, old(sceneIndex), old(skipToBattle))
    {
      var i := FindBattle(sceneIndex + 1);
      if i < |scenes| {
        skipToBattle := Some(i);
      }
      run := NextScene();
    }

    method Retry() returns (run: Dispatch)
      modifies this
      ensures Nav(sceneIndex, run) == Scenes.Retry(scenes, old(sceneIndex))
      ensures skipToBattle == old(skipToBattle)
    {
      if 0 <= sceneIndex < |scenes| && scenes[sceneIndex].BattleScene? {
        return Show(sceneIndex);
      }
      run := NextScene();
    }
  }
}
