/** One battle as a sequence of events: startBattle's reset, then key
    presses, animation frames, the countdown timer, the song's end, the
    skip button and the end of the countdown, each a pure step on the game
    record. The point of the module is that endBattle's body runs at most
    once per battle, whichever event reaches it first. */
module Session {
  import opened Common
  import opened Economy
  import opened Judgment
  import opened Pattern

  lemma AtLeastOnce(d: int, m: int)
    requires d >= 1 && m > 0
    ensures d * m >= m
  {
    assert d * m == (d - 1) * m + m;
    assert (d - 1) * m >= 0;
  }

  /** A multiple of `m` leaves no Euclidean remainder. */
  lemma MultipleMod(k: int, m: int)
    requires m > 0
    ensures (k * m) % m == 0
  {
    var q := (k * m) / m;
    var r := (k * m) % m;
    assert (k - q) * m == r by {
      assert k * m == q * m + r;
      assert (k - q) * m == k * m - q * m;
    }
    if k - q >= 1 {
      AtLeastOnce(k - q, m);
    } else if q - k >= 1 {
      assert (q - k) * m == -((k - q) * m);
      AtLeastOnce(q - k, m);
    }
  }

  /** JavaScript's `%`, which truncates toward zero: the remainder differs
      from the dividend by a multiple of the divisor and takes the
      dividend's sign. */
  function JsRem(a: int, m: int): (r: int)
    requires m > 0
    ensures (a - r) % m == 0
    ensures a >= 0 ==> 0 <= r < m
    ensures a < 0 ==> -m < r <= 0
  {
    var b := if a >= 0 then a else -a;
    var q := b / m;
    assert b == q * m + b % m;
    if a >= 0 then
      MultipleMod(q, m);
      a % m
    else
      assert a + b % m == (-q) * m;
      MultipleMod(-q, m);
      -(b % m)
  }

  /** `{t: n.t, lane: n.lane % 4, enemy: false, sp: !!n.sp}` (script.js:667). */
  function ToNote(p: PatternNote): (n: Note)
    ensures n.t == p.t && Pending(n) && !n.sp && !n.removed && !n.hasEl
    ensures p.lane >= 0 ==> 0 <= n.lane < 4 && n.lane % 4 == p.lane % 4
    ensures 0 <= p.lane < 4 ==> n.lane == p.lane
  {
    Note(p.t, JsRem(p.lane, 4), false, false, false, false, false)
  }

  /** startBattle's reset (script.js:646, script.js:663-667): the end guard is
      re-armed, counters, bars and gauge start over, the song's tempo and
      length are taken from the scene and the generated chart becomes the
      note list. `_consecMiss` and `skipPressed` are not reset. */
  function StartBattle(s: GameState, bpm: real, duration: real, chart: seq<PatternNote>): (r: GameState)
    ensures !r.status.started && !r.status.finished && !r.status.ending && r.status.outcome == None
    ensures !r.status.lastNoteHit && r.status.skipPressed == s.status.skipPressed
    ensures r.bars == Bars(50, 50)
    ensures r.tally == Tally(0, 0, 0, 0, 0, 0, 0, s.tally.consecMiss)
    ensures r.gauge == Gauge(0, false, 0, 0)
    ensures r.bpm == bpm && r.duration == duration
    ensures |r.notes| == |chart|
    ensures forall i :: 0 <= i < |chart| ==>
              && r.notes[i].t == chart[i].t && Pending(r.notes[i]) && !r.notes[i].sp
              && !r.notes[i].removed && !r.notes[i].hasEl
              && (0 <= chart[i].lane < 4 ==> r.notes[i].lane == chart[i].lane)
  {
    GameState(Status(false, false, false, None, false, s.status.skipPressed), Bars(50, 50),
              Tally(0, 0, 0, 0, 0, 0, 0, s.tally.consecMiss), Gauge(0, false, 0, 0),
              bpm, duration, seq(|chart|, i requires 0 <= i < |chart| => ToNote(chart[i])))
  }

  /** A battle started from any record, with a chart whose lanes are not
      negative (as every generated chart is), satisfies the invariant. */
  lemma StartBattleInv(s: GameState, bpm: real, duration: real, chart: seq<PatternNote>)
    requires 0 <= s.tally.consecMiss < 5
    requires forall i :: 0 <= i < |chart| ==> chart[i].lane >= 0
    ensures Inv(StartBattle(s, bpm, duration, chart))
  {
  }

  datatype Event =
    | KeyDown(key: Key, t: real, laneH: real, spDraw: real)  // onKey, with the draw it may use
    | Frame(t: real, laneH: real)                            // one call of loop()
    | TimerExpired                                           // updateTimer reaching 0
    | SongEnded                                              // the audio's onended
    | SkipClicked                                            // the battle's skip button
    | CountdownDone                                          // the countdown's last timeout

  predicate EventOk(e: Event)
  {
    e.KeyDown? ==> 0.0 <= e.spDraw < 1.0
  }

  /** The handlers: onKey (script.js:1037), loop (script.js:1156), the timer
      (script.js:706-707), the song end (script.js:673), the skip button
      (script.js:1367) and the start of play (script.js:761). */
  function Step(s: GameState, e: Event): (r: GameState)
    requires EventOk(e)
    ensures e.TimerExpired? ==> r.status.ending
    ensures e.SongEnded? && !s.status.finished ==> r.status.finished && r.status.ending
    ensures e.SkipClicked? && s.status.started && !s.status.finished ==>
              r.status.finished && r.status.ending && r.status.skipPressed && !r.status.lastNoteHit
    ensures e.SkipClicked? && s.status.started && !s.status.finished && !s.status.ending ==>
              r.status.outcome == Some(false)
    ensures e.CountdownDone? ==> r.status.started && r.notes == s.notes
    ensures e.Frame? && !s.status.started ==> r == s
  {
    match e
    case KeyDown(key, t, laneH, spDraw) => OnKeySpec(s, key, t, laneH, spDraw)
    case Frame(t, laneH) => if s.status.started then UpdateNotesSpec(s, t, laneH) else s
    case TimerExpired => DetermineWinner(s)
    case SongEnded =>
      if s.status.finished then s else DetermineWinner(s.(status := s.status.(finished := true)))
    case SkipClicked =>
      if s.status.started && !s.status.finished
      then EndBattle(s.(status := s.status.(finished := true, lastNoteHit := false, skipPressed := true)), false)
      else s
    case CountdownDone => s.(status := s.status.(started := true))
  }

  lemma OnKeyKeepsEnding(s: GameState, key: Key, t: real, laneH: real, spDraw: real)
    requires 0.0 <= spDraw < 1.0
    ensures var r := OnKeySpec(s, key, t, laneH, spDraw);
      s.status.ending ==> r.status.ending && r.status.outcome == s.status.outcome
  {
    if s.status.started && key.code != "Space" && LaneOf(key.keyCode) >= 0 {
      DecideNearest(s.notes, LaneOf(key.keyCode), t, laneH);
    }
  }

  /** Once `_ending` is set, no event clears it or changes the outcome the
      post-battle sequence was handed. */
  lemma StepKeepsEnding(s: GameState, e: Event)
    requires EventOk(e)
    ensures s.status.ending ==> Step(s, e).status.ending && Step(s, e).status.outcome == s.status.outcome
  {
    match e
    case KeyDown(key, t, laneH, spDraw) => OnKeyKeepsEnding(s, key, t, laneH, spDraw);
    case Frame(t, laneH) =>
      if s.status.started {
        var s1 := s.(notes := Sweep(s.notes, t, laneH));
        var s2 := if !s1.status.finished && t > s1.duration + 1.5
                  then DetermineWinner(s1.(status := s1.status.(finished := true)))
                  else s1;
        ApplyMissesStatus(s2, MissTags(s.notes, t));
      }
    case TimerExpired =>
    case SongEnded =>
    case SkipClicked =>
    case CountdownDone =>
  }

  /** Every event keeps the battle invariant. */
  lemma StepInv(s: GameState, e: Event)
    requires Inv(s) && EventOk(e)
    ensures Inv(Step(s, e))
  {
    match e
    case KeyDown(key, t, laneH, spDraw) => OnKeyInv(s, key, t, laneH, spDraw);
    case Frame(t, laneH) => if s.status.started { UpdateNotesEffects(s, t, laneH); }
    case TimerExpired =>
    case SongEnded =>
    case SkipClicked =>
    case CountdownDone =>
  }

  predicate EventsOk(es: seq<Event>)
  {
    forall i :: 0 <= i < |es| ==> EventOk(es[i])
  }

  function Run(s: GameState, es: seq<Event>): GameState
    requires EventsOk(es)
    decreases |es|
  {
    if es == [] then s else Run(Step(s, es[0]), es[1..])
  }

  /** How many events of the run executed endBattle's body (found `_ending`
      clear and left it set). */
  function Fires(s: GameState, es: seq<Event>): nat
    requires EventsOk(es)
    decreases |es|
  {
    if es == [] then 0
    else
      var s1 := Step(s, es[0]);
      (if !s.status.ending && s1.status.ending then 1 else 0) + Fires(s1, es[1..])
  }

  /** endBattle's body runs at most once in any run of events after
      startBattle, never once `_ending` is set, and the outcome it hands on
      is the one the run ends with. */
  lemma {:induction false} EndFiresAtMostOnce(s: GameState, es: seq<Event>)
    requires EventsOk(es)
    ensures Fires(s, es) <= 1
    ensures s.status.ending ==> Fires(s, es) == 0 && Run(s, es).status.outcome == s.status.outcome
    ensures s.status.ending ==> Run(s, es).status.ending
    decreases |es|
  {
    if es != [] {
      var s1 := Step(s, es[0]);
      StepKeepsEnding(s, es[0]);
      EndFiresAtMostOnce(s1, es[1..]);
    }
  }

  /** A run from a fresh battle never leaves the battle invariant. */
  lemma {:induction false} RunInv(s: GameState, es: seq<Event>)
    requires Inv(s) && EventsOk(es)
    ensures Inv(Run(s, es))
    decreases |es|
  {
    if es != [] {
      StepInv(s, es[0]);
      RunInv(Step(s, es[0]), es[1..]);
    }
  }

  /** The skip button ends the battle as a loss even when the player leads,
      and the timer reaching 0 afterwards cannot turn it into a win. */
  lemma SkipThenTimerStaysLost(s: GameState)
    requires s.status.started && !s.status.finished && !s.status.ending
    ensures Run(s, [SkipClicked, TimerExpired]).status.outcome == Some(false)
    ensures Run(s, [SkipClicked, TimerExpired]).status.skipPressed
  {
    var s1 := Step(s, SkipClicked);
    assert s1.status.outcome == Some(false) && s1.status.ending;
    assert [SkipClicked, TimerExpired][1..] == [TimerExpired];
    assert [TimerExpired][1..] == [];
  }
}
