/** The battle economy: the fields of the global `game` record that the
    rhythm battle reads and writes (script.js:316), the two damage
    operations, the end-of-battle guard, the winner decision and the grade.
    Everything here is a pure function of a state value; the class in
    module Engine performs the same steps in place and is proved equal to
    these functions. The record's fields are grouped into small records
    (status flags, health bars, judgment tallies, special gauge). */
module Economy {
  import opened Common

  /** One note of the battle. `t` is its scheduled time in seconds, `sp` marks
      the golden special note, `hit` and `missed` are the two judgments,
      `removed` says its element left the play field and `hasEl` says the
      tick loop has created its element (a press ignores a note without one). */
  datatype Note = Note(t: real, lane: int, sp: bool,
                       hit: bool, missed: bool, removed: bool, hasEl: bool)

  predicate Pending(n: Note) { !n.hit && !n.missed }

  /** The tag handed to damageSelf: "MISS_SP" for the special note, "MISS" otherwise. */
  datatype MissLabel = Miss | MissSp

  /** `started`, `finished`, `_ending`, `lastNoteHit` and `skipPressed` of the
      record; `outcome` is the win flag that endBattle's body hands to the
      post-battle sequence (None until that body has run in this battle). */
  datatype Status = Status(started: bool, finished: bool, ending: bool,
                           outcome: Option<bool>, lastNoteHit: bool, skipPressed: bool)

  /** `hpSelf` and `hpEnemy`. */
  datatype Bars = Bars(hpSelf: int, hpEnemy: int)

  /** The judgment tallies: `combo`, `maxCombo`, `score`, `missCount`,
      `perfectCount`, `greatCount`, `goodCount` and `_consecMiss`. */
  datatype Tally = Tally(combo: int, maxCombo: int, score: int, missCount: int,
                         perfect: int, great: int, good: int, consecMiss: int)

  /** The special gauge `sp`, `_spQueued`, `specialCount` and `specialAttempts`. */
  datatype Gauge = Gauge(sp: int, queued: bool, specialCount: int, specialAttempts: int)

  datatype GameState = GameState(status: Status, bars: Bars, tally: Tally, gauge: Gauge,
                                 bpm: real, duration: real, notes: seq<Note>)

  /** The record as the page loads it (script.js:316); the fields the source
      leaves undefined until first use (`_spQueued`, `_consecMiss`, `_ending`,
      `skipPressed`) read as false or 0. It satisfies the battle invariant,
      holds no notes and has no battle running or ended. */
  function InitialGame(): (r: GameState)
    ensures Inv(r) && r.notes == []
    ensures !r.status.started && !r.status.finished && !r.status.ending
  {
    GameState(Status(false, false, false, None, false, false), Bars(50, 50),
              Tally(0, 0, 0, 0, 0, 0, 0, 0), Gauge(0, false, 0, 0), 133.0, 120.0, [])
  }

  predicate HpInRange(b: Bars)
  {
    0 <= b.hpSelf <= 100 && 0 <= b.hpEnemy <= 100
  }

  /** Every tally is a count, so never negative; the best combo is at least
      the current one; fewer than five consecutive misses are pending. */
  predicate TallyOk(c: Tally)
  {
    && 0 <= c.combo <= c.maxCombo && c.score >= 0 && c.missCount >= 0
    && c.perfect >= 0 && c.great >= 0 && c.good >= 0
    && 0 <= c.consecMiss < 5
  }

  predicate GaugeOk(g: Gauge)
  {
    0 <= g.sp <= 100 && g.specialCount >= 0 && g.specialAttempts >= 0
  }

  predicate NotesWellFormed(notes: seq<Note>)
  {
    forall i :: 0 <= i < |notes| ==> 0 <= notes[i].lane < 4 && !(notes[i].hit && notes[i].missed)
  }

  /** What holds between any two events of a battle: both health bars and the
      special gauge stay in [0,100], the tallies are sane, the ending flag is
      set exactly when the post-battle sequence has been handed an outcome,
      and every note is in a lane 0..3 and not both hit and missed. */
  predicate Inv(s: GameState)
  {
    && HpInRange(s.bars)
    && TallyOk(s.tally)
    && GaugeOk(s.gauge)
    && (s.status.ending <==> s.status.outcome.Some?)
    && NotesWellFormed(s.notes)
  }

  /** damageEnemy (script.js:1031): a mirrored transfer of `amount` from the
      enemy's bar to the player's, each side clamped on its own. */
  function DamageEnemy(s: GameState, amount: nat): (r: GameState)
    ensures r == s.(bars := r.bars)
    ensures HpInRange(s.bars) ==> HpInRange(r.bars)
    ensures HpInRange(s.bars) ==> r.bars.hpSelf >= s.bars.hpSelf && r.bars.hpEnemy <= s.bars.hpEnemy
    ensures s.bars.hpSelf + amount <= 100 ==> r.bars.hpSelf == s.bars.hpSelf + amount
    ensures amount <= s.bars.hpEnemy ==> r.bars.hpEnemy == s.bars.hpEnemy - amount
    ensures s.bars.hpSelf + amount >= 100 ==> r.bars.hpSelf == 100
    ensures amount >= s.bars.hpEnemy ==> r.bars.hpEnemy == 0
  {
    s.(bars := Bars(Min(100, s.bars.hpSelf + amount), Max(0, s.bars.hpEnemy - amount)))
  }

  /** endBattle's guard (script.js:771-775): the body runs only while
      `_ending` is clear; it sets the flag, stops the battle and hands `win`
      to the post-battle sequence. */
  function EndBattle(s: GameState, win: bool): (r: GameState)
    ensures r.status.ending
    ensures s.status.ending ==> r == s
    ensures !s.status.ending ==> r.status.outcome == Some(win) && !r.status.started
    ensures !s.status.ending ==>
              r == s.(status := s.status.(ending := true, started := false, outcome := Some(win)))
    ensures r.bars == s.bars && r.tally == s.tally && r.gauge == s.gauge && r.notes == s.notes
    ensures r.status.finished == s.status.finished && r.status.lastNoteHit == s.status.lastNoteHit
    ensures r.status.skipPressed == s.status.skipPressed && r.bpm == s.bpm && r.duration == s.duration
  {
    if s.status.ending then s
    else s.(status := s.status.(ending := true, started := false, outcome := Some(win)))
  }

  /** The decision inside determineWinner (script.js:967-976): a tie goes to
      the player, otherwise the side with more health wins. */
  function Winner(hpSelf: int, hpEnemy: int): (win: bool)
    ensures win <==> hpSelf >= hpEnemy
  {
    if hpSelf == hpEnemy then true else hpSelf > hpEnemy
  }

  function DetermineWinner(s: GameState): (r: GameState)
    ensures s.status.ending ==> r == s
    ensures !s.status.ending ==> r.status.outcome == Some(s.bars.hpSelf >= s.bars.hpEnemy)
    ensures r.status.ending
    ensures r == EndBattle(s, s.bars.hpSelf >= s.bars.hpEnemy)
  {
    EndBattle(s, Winner(s.bars.hpSelf, s.bars.hpEnemy))
  }

  function SpPenalty(tag: MissLabel): int
  {
    if tag == MissSp then 40 else 20
  }

  /** damageSelf (script.js:977-1022), in the source's order: reset the combo,
      count the miss, transfer `amount` from the player to the enemy; if the
      player is at 0 end the battle as a loss and return; otherwise apply the
      special-gauge penalty and count the consecutive miss, and on the fifth
      one apply the critical (twice `amount` more each way, without checking
      the player's health again) and restart the count. */
  function DamageSelf(s: GameState, amount: nat, tag: MissLabel): (r: GameState)
    ensures r.tally.combo == 0 && r.tally.missCount == s.tally.missCount + 1
    ensures HpInRange(s.bars) ==> HpInRange(r.bars)
    ensures r.notes == s.notes && r.tally.score == s.tally.score && r.tally.maxCombo == s.tally.maxCombo
    ensures r.tally.perfect == s.tally.perfect && r.tally.great == s.tally.great && r.tally.good == s.tally.good
  {
    var s1 := s.(tally := s.tally.(combo := 0, missCount := s.tally.missCount + 1),
                 bars := Bars(Max(0, s.bars.hpSelf - amount), Min(100, s.bars.hpEnemy + amount)));
    if s1.bars.hpSelf <= 0 then
      EndBattle(s1.(status := s1.status.(finished := true)), false)
    else
      var s2 := if tag == MissSp then s1.(gauge := s1.gauge.(sp := Max(0, s1.gauge.sp - 40), queued := false))
                else s1.(gauge := s1.gauge.(sp := Max(0, s1.gauge.sp - 20)));
      var c := s2.tally.consecMiss + 1;
      if c >= 5 then
        s2.(bars := Bars(Max(0, s2.bars.hpSelf - amount * 2), Min(100, s2.bars.hpEnemy + amount * 2)),
            tally := s2.tally.(consecMiss := 0))
      else
        s2.(tally := s2.tally.(consecMiss := c))
  }

  /** The effects of damageSelf case by case: the fast-fail path when the
      player's bar reaches 0 (no gauge or consecutive-miss change), otherwise
      the gauge penalty floored at 0, and on the fifth consecutive miss the
      critical, which moves three times `amount` in all and restarts the count. */
  lemma DamageSelfEffects(s: GameState, amount: nat, tag: MissLabel)
    requires HpInRange(s.bars)
    ensures var r := DamageSelf(s, amount, tag);
      && (s.bars.hpSelf <= amount ==>
            && r.bars == Bars(0, Min(100, s.bars.hpEnemy + amount))
            && r.status.finished && r.status.ending
            && r.status.outcome == (if s.status.ending then s.status.outcome else Some(false))
            && r.gauge == s.gauge && r.tally.consecMiss == s.tally.consecMiss)
      && (s.bars.hpSelf > amount ==>
            && r.status == s.status
            && r.gauge.sp == Max(0, s.gauge.sp - SpPenalty(tag))
            && r.gauge.queued == (s.gauge.queued && tag == Miss)
            && r.gauge.specialCount == s.gauge.specialCount
            && r.gauge.specialAttempts == s.gauge.specialAttempts)
      && (s.bars.hpSelf > amount && s.tally.consecMiss + 1 < 5 ==>
            && r.tally.consecMiss == s.tally.consecMiss + 1
            && r.bars == Bars(s.bars.hpSelf - amount, Min(100, s.bars.hpEnemy + amount)))
      && (s.bars.hpSelf > amount && s.tally.consecMiss + 1 >= 5 ==>
            && r.tally.consecMiss == 0
            && r.bars == Bars(Max(0, s.bars.hpSelf - 3 * amount), Min(100, s.bars.hpEnemy + 3 * amount)))
  {
  }

  /** damageSelf keeps the invariant of a battle between events. */
  lemma DamageSelfInv(s: GameState, amount: nat, tag: MissLabel)
    requires Inv(s)
    ensures Inv(DamageSelf(s, amount, tag))
  {
  }

  lemma DamageEnemyInv(s: GameState, amount: nat)
    requires Inv(s)
    ensures Inv(DamageEnemy(s, amount))
  {
  }

  datatype Grade = A | B | C | D | F

  /** calculateGrade (script.js:418-429), reading `game.hpSelf` and
      `game.missCount`. */
  function CalculateGrade(win: bool, hpSelf: int, missCount: int): (g: Grade)
    ensures g == F <==> !win || hpSelf < 50
    ensures g == A <==> win && hpSelf >= 50 && missCount <= 10
    ensures g == B <==> win && hpSelf >= 50 && 10 < missCount <= 20
    ensures g == C <==> win && hpSelf >= 50 && 20 < missCount <= 30
    ensures g == D <==> win && hpSelf >= 50 && 30 < missCount
  {
    if !win then F
    else if hpSelf < 50 then F
    else if missCount <= 10 then A
    else if missCount <= 20 then B
    else if missCount <= 30 then C
    else D
  }

  function Rank(g: Grade): nat
  {
    match g
    case A => 4
    case B => 3
    case C => 2
    case D => 1
    case F => 0
  }

  /** More misses never give a better grade, more health never a worse one,
      and a loss is never better than a win. */
  lemma GradeMonotone(win: bool, hp1: int, hp2: int, m1: int, m2: int)
    requires hp1 <= hp2 && m1 <= m2
    ensures Rank(CalculateGrade(win, hp2, m1)) >= Rank(CalculateGrade(win, hp1, m2))
    ensures Rank(CalculateGrade(true, hp1, m1)) >= Rank(CalculateGrade(false, hp1, m1))
  {
  }
}
