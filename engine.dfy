/** The global `game` record (script.js:316) as an object whose handlers
    update its fields in place, in the source's order. Each method is proved
    to leave the record exactly as the matching function of modules Economy,
    Judgment and Session describes, so every lemma proved there holds of the
    object. */
module Engine {
  import opened Common
  import opened Economy
  import opened Judgment
  import opened Pattern
  import opened Session

  /** The record's fields, grouped as in module Economy: the status flags,
      the two bars, the tallies and the special gauge are each one field that
      the handlers update in place. */
  class Game {
    var status: Status
    var bars: Bars
    var tally: Tally
    var gauge: Gauge
    var bpm: real
    var duration: real
    var notes: seq<Note>

    function State(): GameState
      reads this
    {
      GameState(status, bars, tally, gauge, bpm, duration, notes)
    }

    /** The record as the page loads it. */
    constructor ()
      ensures State() == InitialGame()
    {
      status := Status(false, false, false, None, false, false);
      bars := Bars(50, 50);
      tally := Tally(0, 0, 0, 0, 0, 0, 0, 0);
      gauge := Gauge(0, false, 0, 0);
      bpm, duration, notes := 133.0, 120.0, [];
    }

    /** damageEnemy (script.js:1031). */
    method DamageEnemy(amount: nat)
      modifies this
      ensures State() == Economy.DamageEnemy(old(State()), amount)
    {
      bars := Bars(Min(100, bars.hpSelf + amount), Max(0, bars.hpEnemy - amount));
    }

    /** endBattle's guard (script.js:771-775). */
    method EndBattle(win: bool)
      modifies this
      ensures State() == Economy.EndBattle(old(State()), win)
    {
      if status.ending {
        return;
      }
      status := status.(ending := true, started := false, outcome := Some(win));
    }

    /** determineWinner (script.js:967-976). */
    method DetermineWinner()
      modifies this
      ensures State() == Economy.DetermineWinner(old(State()))
    {
      if bars.hpSelf == bars.hpEnemy {
        EndBattle(true);
      } else {
        var win := bars.hpSelf > bars.hpEnemy;
        EndBattle(win);
      }
    }

    /** damageSelf (script.js:977-1022). */
    method DamageSelf(amount: nat, tag: MissLabel)
      modifies this
      ensures State() == Economy.DamageSelf(old(State()), amount, tag)
    {
      tally := tally.(combo := 0, missCount := tally.missCount + 1);
      bars := Bars(Max(0, bars.hpSelf - amount), Min(100, bars.hpEnemy + amount));
      if bars.hpSelf <= 0 {
        status := status.(finished := true);
        EndBattle(false);
        return;
      }
      if tag == MissSp {
        gauge := gauge.(sp := Max(0, gauge.sp - 40), queued := false);
      } else {
        gauge := gauge.(sp := Max(0, gauge.sp - 20));
      }
      tally := tally.(consecMiss := tally.consecMiss + 1);
      if tally.consecMiss >= 5 {
        bars := Bars(Max(0, bars.hpSelf - amount * 2), Min(100, bars.hpEnemy + amount * 2));
        tally := tally.(consecMiss := 0);
      }
    }

    /** The nearest-note search of onKey (script.js:1068), as a loop over the
        note list that only reads it. */
    method FindNearest(lane: int, t: real, laneH: real) returns (best: Option<nat>, bestYDist: real, bestTimeDelta: real)
      ensures Pick(best, bestYDist, bestTimeDelta) == Scan(notes, lane, t, laneH, |notes|)
    {
      best, bestYDist, bestTimeDelta := None, FAR, FAR;
      var i := 0;
      while i < |notes|
        invariant 0 <= i <= |notes|
        invariant Pick(best, bestYDist, bestTimeDelta) == Scan(notes, lane, t, laneH, i)
      {
        var n := notes[i];
        if Pending(n) && n.lane == lane {
          var yDist := YDist(n, t, laneH);
          if yDist < bestYDist {
            best, bestYDist, bestTimeDelta := Some(i), yDist, Abs(t - n.t);
          }
        }
        i := i + 1;
      }
    }

    /** Marking the hit note, the combo and the displayed tier
        (script.js:1075-1112). */
    method MarkHit(i: nat, t: real)
      requires i < |notes|
      modifies this
      ensures State() == Judgment.MarkHit(old(State()), i, t)
    {
      var n := notes[i];
      notes := notes[i := n.(hit := true, removed := true)];
      tally := tally.(combo := tally.combo + 1);
      var delta := Abs(t - n.t);
      tally := tally.(consecMiss := 0);
      if delta <= 0.05 {
        tally := tally.(perfect := tally.perfect + 1);
      } else if delta <= 0.1 {
        tally := tally.(great := tally.great + 1);
      } else {
        tally := tally.(good := tally.good + 1);
      }
    }

    /** The special gauge after a hit on `n` (script.js:1116-1132). */
    method GainSp(n: Note, t: real, spDraw: real)
      requires 0.0 <= spDraw < 1.0
      modifies this
      ensures State() == Judgment.GainSp(old(State()), n, t, spDraw)
    {
      if n.sp {
        gauge := gauge.(specialAttempts := gauge.specialAttempts + 1);
        gauge := gauge.(specialCount := gauge.specialCount + 1);
        gauge := gauge.(sp := 0, queued := false);
      } else {
        var prev := gauge.sp;
        gauge := gauge.(sp := Min(100, gauge.sp + 10));
        if prev < 100 && gauge.sp == 100 && !gauge.queued {
          notes := notes + [SpecialNote(t, spDraw)];
          gauge := gauge.(queued := true);
          notes := SortByTime(notes);
        }
      }
    }

    /** The second tier count, the best combo, the score and the damage
        (script.js:1133-1143). */
    method ScoreHit(delta: real)
      modifies this
      ensures State() == Judgment.ScoreHit(old(State()), ScoreTier(delta))
    {
      if delta <= 0.03 {
        tally := tally.(perfect := tally.perfect + 1);
      } else if delta <= 0.06 {
        tally := tally.(great := tally.great + 1);
      } else {
        tally := tally.(good := tally.good + 1);
      }
      if tally.combo > tally.maxCombo {
        tally := tally.(maxCombo := tally.combo);
      }
      status := status.(lastNoteHit := true);
      if delta <= 0.03 {
        tally := tally.(score := tally.score + 1000);
        DamageEnemy(3);
      } else if delta <= 0.06 {
        tally := tally.(score := tally.score + 700);
        DamageEnemy(2);
      } else {
        tally := tally.(score := tally.score + 450);
      }
    }

    /** The accept branch of onKey (script.js:1074-1143) for note `i`, with
        the special's deferred damageEnemy(12) applied last. */
    method Accept(i: nat, t: real, spDraw: real)
      requires i < |notes| && 0.0 <= spDraw < 1.0
      modifies this
      ensures State() == Judgment.AcceptHit(old(State()), i, t, spDraw)
    {
      var n := notes[i];
      MarkHit(i, t);
      GainSp(n, t, spDraw);
      ScoreHit(Abs(t - n.t));
      if n.sp {
        DamageEnemy(12);
      }
    }

    /** onKey (script.js:1037-1152). */
    method OnKey(key: Key, t: real, laneH: real, spDraw: real)
      requires 0.0 <= spDraw < 1.0
      modifies this
      ensures State() == OnKeySpec(old(State()), key, t, laneH, spDraw)
    {
      if !status.started {
        return;
      }
      var lane := LaneOf(key.keyCode);
      if key.code == "Space" {
        DamageEnemy(8);
        return;
      }
      if lane < 0 {
        return;
      }
      var winPx := WinPx(laneH);
      var best, bestYDist, bestTimeDelta := FindNearest(lane, t, laneH);
      if best.None? || bestYDist > winPx * 1.2 || !notes[best.value].hasEl {
        return;
      }
      var i := best.value;
      if bestYDist <= winPx / 2.0 {
        Accept(i, t, spDraw);
      } else {
        Reject(i);
      }
    }

    /** The reject branch of onKey (script.js:1144-1151). */
    method Reject(i: nat)
      requires i < |notes|
      modifies this
      ensures State() == RejectPress(old(State()), i)
    {
      DamageSelf(3, if notes[i].sp then MissSp else Miss);
      status := status.(lastNoteHit := false);
    }

    /** The sweep loop of updateNotes (script.js:935-954): each note is
        updated in place and each time-out schedules a damageSelf(6), whose
        tag is returned in note order. */
    method SweepNotes(t: real, laneH: real) returns (tags: seq<MissLabel>)
      modifies this
      ensures State() == old(State()).(notes := Sweep(old(notes), t, laneH))
      ensures tags == MissTags(old(notes), t)
    {
      var before := notes;
      tags := [];
      var i := 0;
      while i < |notes|
        invariant 0 <= i <= |notes| == |before|
        invariant State() == old(State()).(notes := notes)
        invariant forall j :: 0 <= j < i ==> notes[j] == SweepNote(before[j], t, laneH)
        invariant forall j :: i <= j < |notes| ==> notes[j] == before[j]
        invariant tags == MissTags(before[..i], t)
      {
        var n := notes[i];
        assert before[..i + 1][..i] == before[..i];
        if !n.removed {
          var m := n.(hasEl := true);
          var y := NoteY(n, t, laneH);
          if t > n.t + HIT_WINDOW && !n.hit && !n.missed {
            m := m.(missed := true, removed := true);
            tags := tags + [TagOf(n)];
          }
          if y > laneH + 40.0 {
            m := m.(removed := true);
          }
          notes := notes[i := m];
        }
        i := i + 1;
      }
      assert before[..i] == before;
    }

    /** The scheduled damageSelf(6) calls, run one after another. */
    method RunScheduledMisses(tags: seq<MissLabel>)
      modifies this
      ensures State() == ApplyMisses(old(State()), tags)
    {
      var k := 0;
      while k < |tags|
        invariant 0 <= k <= |tags|
        invariant ApplyMisses(State(), tags[k..]) == ApplyMisses(old(State()), tags)
      {
        assert tags[k..][1..] == tags[k + 1..];
        DamageSelf(6, tags[k]);
        k := k + 1;
      }
      assert tags[k..] == [];
    }

    /** updateNotes (script.js:928-966): the sweep over the notes, the
        song-end check, and then the damageSelf(6) calls the sweep scheduled. */
    method UpdateNotes(t: real, laneH: real)
      modifies this
      ensures State() == UpdateNotesSpec(old(State()), t, laneH)
    {
      var tags := SweepNotes(t, laneH);
      if !status.finished && t > duration + 1.5 {
        status := status.(finished := true);
        DetermineWinner();
      }
      RunScheduledMisses(tags);
    }

    /** loop() (script.js:1156): one frame of the battle while it runs. */
    method Frame(t: real, laneH: real)
      modifies this
      ensures State() == Step(old(State()), Session.Frame(t, laneH))
    {
      if !status.started {
        return;
      }
      UpdateNotes(t, laneH);
    }

    /** The countdown timer reaching 0 (script.js:706-707). */
    method TimerExpired()
      modifies this
      ensures State() == Step(old(State()), Session.TimerExpired)
    {
      DetermineWinner();
    }

    /** The audio's `onended` handler (script.js:673). */
    method SongEnded()
      modifies this
      ensures State() == Step(old(State()), Session.SongEnded)
    {
      if !status.finished {
        status := status.(finished := true);
        DetermineWinner();
      }
    }

    /** The battle's skip button (script.js:1367). */
    method SkipClicked()
      modifies this
      ensures State() == Step(old(State()), Session.SkipClicked)
    {
      if status.started && !status.finished {
        status := status.(finished := true, lastNoteHit := false, skipPressed := true);
        EndBattle(false);
      }
    }

    /** The end of the countdown, when play starts (script.js:761). */
    method CountdownDone()
      modifies this
      ensures State() == Step(old(State()), Session.CountdownDone)
    {
      status := status.(started := true);
    }

    /** startBattle's reset (script.js:646, script.js:663-667), with the chart
        generated for the scene's tempo and length. */
    method StartBattle(sceneBpm: real, sceneDuration: real, rand: nat -> real) returns (ghost chart: seq<PatternNote>)
      requires sceneBpm > 0.0 && sceneDuration > 0.0
      requires forall i :: 0.0 <= rand(i) < 1.0
      requires 0 <= tally.consecMiss < 5
      modifies this
      ensures forall k :: 0 <= k < |chart| ==> 0 <= chart[k].lane < 4
      ensures State() == Session.StartBattle(old(State()), sceneBpm, sceneDuration, chart)
      ensures Inv(State())
    {
      ghost var s := State();
      status := status.(ending := false);
      status := status.(started := false, finished := false, lastNoteHit := false, outcome := None);
      tally := Tally(0, 0, 0, 0, 0, 0, 0, tally.consecMiss);
      bars := Bars(50, 50);
      gauge := Gauge(0, false, 0, 0);
      bpm, duration := sceneBpm, sceneDuration;
      var generated, groups := GeneratePattern(sceneBpm, sceneDuration, rand);
      chart := generated;
      notes := seq(|generated|, k requires 0 <= k < |generated| => ToNote(generated[k]));
      assert State() == Session.StartBattle(s, sceneBpm, sceneDuration, chart);
      StartBattleInv(s, sceneBpm, sceneDuration, chart);
    }
  }
}
