/** The judgment engine: what a key press (onKey, script.js:1037-1152) and one
    tick of the note sweep (updateNotes, script.js:928-966) do to the game
    record, as functions of the record, the clock reading `t` and the lane
    height `laneH` in pixels that the source reads from the page layout. */
module Judgment {
  import opened Common
  import opened Economy

  /** `game.travelTime` and `game.hitWindow` (script.js:316), and the spawn
      line of a note (script.js:930). */
  const TRAVEL_TIME: real := 1.35
  const HIT_WINDOW: real := 0.24
  const SPAWN_Y: real := -40.0
  /** The initial best distance of the nearest-note search (1e9). */
  const FAR: real := 1000000000.0

  function HitY(laneH: real): real { laneH - 120.0 }

  /** Pixels a note travels per second. */
  function Speed(laneH: real): real { (HitY(laneH) - SPAWN_Y) / TRAVEL_TIME }

  /** The on-screen position of note `n` at time `t` (script.js:937). */
  function NoteY(n: Note, t: real, laneH: real): (y: real)
    ensures t == n.t - TRAVEL_TIME ==> y == SPAWN_Y
    ensures t == n.t ==> y == HitY(laneH)
  {
    SPAWN_Y + ((t - (n.t - TRAVEL_TIME)) / TRAVEL_TIME) * (HitY(laneH) - SPAWN_Y)
  }

  /** The distance of note `n` to the hit line that the press search minimises. */
  function YDist(n: Note, t: real, laneH: real): real
  {
    Abs(NoteY(n, t, laneH) - HitY(laneH))
  }

  lemma AbsMul(x: real, y: real)
    ensures Abs(x * y) == Abs(x) * Abs(y)
  {
    if x < 0.0 && y >= 0.0 { assert x * y <= 0.0; }
    if x >= 0.0 && y < 0.0 { assert x * y <= 0.0; }
    if x < 0.0 && y < 0.0 { assert x * y > 0.0; }
  }

  /** The screen position reduces to time: the note is on the hit line exactly
      at its time, and its distance to the line is the time distance scaled
      by the speed. */
  lemma YDistIsTimeDistance(n: Note, t: real, laneH: real)
    ensures NoteY(n, t, laneH) - HitY(laneH) == (t - n.t) * Speed(laneH)
    ensures YDist(n, t, laneH) == Scaled(Abs(t - n.t), Abs(Speed(laneH)))
  {
    var d := HitY(laneH) - SPAWN_Y;
    var u := t - (n.t - TRAVEL_TIME);
    assert u / TRAVEL_TIME == (t - n.t) / TRAVEL_TIME + 1.0;
    assert (u / TRAVEL_TIME) * d == ((t - n.t) / TRAVEL_TIME) * d + d;
    assert ((t - n.t) / TRAVEL_TIME) * d == (t - n.t) * (d / TRAVEL_TIME);
    AbsMul(t - n.t, Speed(laneH));
  }

  function Scaled(x: real, k: real): real { x * k }

  lemma ScaleStrict(x: real, y: real, k: real)
    requires k > 0.0 && x >= 0.0 && y >= 0.0
    ensures x < y <==> Scaled(x, k) < Scaled(y, k)
  {
    if x < y { assert (y - x) * k > 0.0; }
    if y <= x { assert (x - y) * k >= 0.0; }
  }

  /** Whenever notes move at all, nearer on screen is nearer in time, so the
      press search picks the note nearest in time. */
  lemma NearerOnScreenIsNearerInTime(a: Note, b: Note, t: real, laneH: real)
    requires Speed(laneH) != 0.0
    ensures YDist(a, t, laneH) < YDist(b, t, laneH) <==> Abs(t - a.t) < Abs(t - b.t)
  {
    YDistIsTimeDistance(a, t, laneH);
    YDistIsTimeDistance(b, t, laneH);
    ScaleStrict(Abs(t - a.t), Abs(t - b.t), Abs(Speed(laneH)));
  }

  /** The pixel window `winPx` (script.js:1040). */
  function WinPx(laneH: real): (w: real)
    ensures 40.0 <= w <= 200.0
    ensures 40.0 <= HIT_WINDOW * 2.0 * (HitY(laneH) - SPAWN_Y) / TRAVEL_TIME <= 200.0 ==>
              w == HIT_WINDOW * 2.0 * (HitY(laneH) - SPAWN_Y) / TRAVEL_TIME
  {
    MaxReal(40.0, MinReal(200.0, HIT_WINDOW * 2.0 * (HitY(laneH) - SPAWN_Y) / TRAVEL_TIME))
  }

  /** A note the press search considers for lane `lane`. */
  predicate Candidate(n: Note, lane: int)
  {
    Pending(n) && n.lane == lane
  }

  /** The search variables `best`, `bestYDist` and `bestTimeDelta`. */
  datatype Pick = Pick(best: Option<nat>, dist: real, delta: real)

  /** The press search of script.js:1068 after it has looked at the first `m`
      notes. */
  function Scan(notes: seq<Note>, lane: int, t: real, laneH: real, m: nat): (p: Pick)
    requires m <= |notes|
    ensures p.best.Some? ==> p.best.value < m
    decreases m
  {
    if m == 0 then Pick(None, FAR, FAR)
    else
      var p := Scan(notes, lane, t, laneH, m - 1);
      var n := notes[m - 1];
      if Candidate(n, lane) && YDist(n, t, laneH) < p.dist
      then Pick(Some(m - 1), YDist(n, t, laneH), Abs(t - n.t))
      else p
  }

  /** The search finds a candidate at minimal distance, the earliest one among
      those at that distance, and finds none only when every candidate is at
      least 1e9 pixels away. */
  lemma {:induction false} ScanNearest(notes: seq<Note>, lane: int, t: real, laneH: real, m: nat)
    requires m <= |notes|
    ensures var p := Scan(notes, lane, t, laneH, m);
      && p.dist <= FAR
      && (p.best.None? ==> p.dist == FAR)
      && (p.best.Some? ==> Candidate(notes[p.best.value], lane)
                           && p.dist == YDist(notes[p.best.value], t, laneH)
                           && p.delta == Abs(t - notes[p.best.value].t))
      && (forall j :: 0 <= j < m && Candidate(notes[j], lane) ==> p.dist <= YDist(notes[j], t, laneH))
      && (p.best.Some? ==> forall j :: 0 <= j < p.best.value && Candidate(notes[j], lane) ==>
                             p.dist < YDist(notes[j], t, laneH))
    decreases m
  {
    if m > 0 {
      ScanNearest(notes, lane, t, laneH, m - 1);
    }
  }

  /** What the press decides about the nearest candidate: nothing to judge,
      a hit (inside half the window) or a miss (inside 1.2 windows). */
  datatype Decision = NoTarget | InWindow(i: nat) | OutOfWindow(i: nat)

  function Decide(notes: seq<Note>, lane: int, t: real, laneH: real): (d: Decision)
    ensures !d.NoTarget? ==> d.i < |notes| && Candidate(notes[d.i], lane) && notes[d.i].hasEl
  {
    ScanNearest(notes, lane, t, laneH, |notes|);
    var p := Scan(notes, lane, t, laneH, |notes|);
    if p.best.None? || p.dist > WinPx(laneH) * 1.2 || !notes[p.best.value].hasEl then NoTarget
    else if p.dist <= WinPx(laneH) / 2.0 then InWindow(p.best.value)
    else OutOfWindow(p.best.value)
  }

  /** The judged note is the pending same-lane note nearest the hit line
      (earliest in list order on ties), it has an element and is within 1.2
      windows, and the press is a hit exactly when it is within half a window.
      A press with every candidate farther than 1.2 windows judges nothing. */
  lemma DecideNearest(notes: seq<Note>, lane: int, t: real, laneH: real)
    ensures var d := Decide(notes, lane, t, laneH);
      && (!d.NoTarget? ==>
            && d.i < |notes| && Candidate(notes[d.i], lane) && notes[d.i].hasEl
            && YDist(notes[d.i], t, laneH) <= WinPx(laneH) * 1.2
            && (forall j :: 0 <= j < |notes| && Candidate(notes[j], lane) ==>
                  YDist(notes[d.i], t, laneH) <= YDist(notes[j], t, laneH))
            && (forall j :: 0 <= j < d.i && Candidate(notes[j], lane) ==>
                  YDist(notes[d.i], t, laneH) < YDist(notes[j], t, laneH))
            && (d.InWindow? <==> YDist(notes[d.i], t, laneH) <= WinPx(laneH) / 2.0))
      && ((forall j :: 0 <= j < |notes| && Candidate(notes[j], lane) ==>
             YDist(notes[j], t, laneH) > WinPx(laneH) * 1.2) ==> d.NoTarget?)
  {
    ScanNearest(notes, lane, t, laneH, |notes|);
  }

  /** Conversely, the nearest candidate is judged: a pending note of the
      lane with an element, nearer than 1e9 px and within 1.2 windows, at
      minimal distance and strictly nearer than every earlier candidate, is
      accepted when it is within half a window and rejected otherwise. */
  lemma DecideJudgesNearest(notes: seq<Note>, lane: int, t: real, laneH: real, i: nat)
    requires i < |notes| && Candidate(notes[i], lane) && notes[i].hasEl
    requires YDist(notes[i], t, laneH) < FAR && YDist(notes[i], t, laneH) <= WinPx(laneH) * 1.2
    requires forall j :: 0 <= j < |notes| && Candidate(notes[j], lane) ==>
               YDist(notes[i], t, laneH) <= YDist(notes[j], t, laneH)
    requires forall j :: 0 <= j < i && Candidate(notes[j], lane) ==>
               YDist(notes[i], t, laneH) < YDist(notes[j], t, laneH)
    ensures Decide(notes, lane, t, laneH) ==
              if YDist(notes[i], t, laneH) <= WinPx(laneH) / 2.0 then InWindow(i) else OutOfWindow(i)
  {
    ScanNearest(notes, lane, t, laneH, |notes|);
    var p := Scan(notes, lane, t, laneH, |notes|);
    if p.best.None? {
      assert false;
    }
    var b := p.best.value;
    if b < i {
      assert false;
    }
    if b > i {
      assert false;
    }
  }

  /** A key as the handler sees it: `e.keyCode` and `e.code`. */
  datatype Key = Key(keyCode: int, code: string)

  /** KEYS (script.js:178): D, F, J and K drive lanes 0 to 3; any other key
      reads as lane -1. */
  function LaneOf(keyCode: int): (lane: int)
    ensures -1 <= lane < 4
    ensures lane >= 0 <==> keyCode in {68, 70, 74, 75}
    ensures keyCode == 68 ==> lane == 0
    ensures keyCode == 70 ==> lane == 1
    ensures keyCode == 74 ==> lane == 2
    ensures keyCode == 75 ==> lane == 3
  {
    if keyCode == 68 then 0
    else if keyCode == 70 then 1
    else if keyCode == 74 then 2
    else if keyCode == 75 then 3
    else -1
  }

  datatype Tier = Perfect | Great | Good

  /** The tier shown and counted first (script.js:1084-1093, counted at
      script.js:1106-1112). */
  function DisplayTier(delta: real): (k: Tier)
    ensures k == Perfect <==> delta <= 0.05
    ensures k == Great <==> 0.05 < delta <= 0.1
    ensures k == Good <==> delta > 0.1
  {
    if delta <= 0.05 then Perfect else if delta <= 0.1 then Great else Good
  }

  /** The tier counted a second time and used for score and damage
      (script.js:1134-1137, script.js:1143). */
  function ScoreTier(delta: real): (k: Tier)
    ensures k == Perfect <==> delta <= 0.03
    ensures k == Great <==> 0.03 < delta <= 0.06
    ensures k == Good <==> delta > 0.06
  {
    if delta <= 0.03 then Perfect else if delta <= 0.06 then Great else Good
  }

  function Points(k: Tier): int
  {
    match k
    case Perfect => 1000
    case Great => 700
    case Good => 450
  }

  function HitDamage(k: Tier): nat
  {
    match k
    case Perfect => 3
    case Great => 2
    case Good => 0
  }

  /** The score tier is the stricter one: a score PERFECT is always a
      displayed PERFECT, a displayed GOOD always a score GOOD. */
  lemma TiersNested(delta: real)
    ensures ScoreTier(delta) == Perfect ==> DisplayTier(delta) == Perfect
    ensures DisplayTier(delta) == Good ==> ScoreTier(delta) == Good
    ensures Points(ScoreTier(delta)) >= 450
  {
  }

  function CountTier(c: Tally, k: Tier): Tally
  {
    match k
    case Perfect => c.(perfect := c.perfect + 1)
    case Great => c.(great := c.great + 1)
    case Good => c.(good := c.good + 1)
  }

  /** Whether a hit on `n` fills the gauge and queues the golden special note
      (script.js:1126). */
  predicate SpecialDue(g: Gauge, n: Note)
  {
    !n.sp && g.sp < 100 && Min(100, g.sp + 10) == 100 && !g.queued
  }

  /** The special note pushed 0.8 s ahead in the lane chosen by the draw
      `spDraw`, standing for Math.random() (script.js:1127-1129). */
  function SpecialNote(t: real, spDraw: real): (n: Note)
    requires 0.0 <= spDraw < 1.0
    ensures 0 <= n.lane < 4 && n.sp && Pending(n) && !n.removed && !n.hasEl
    ensures n.t == t + 0.8
  {
    assert 0.0 <= spDraw * 4.0 < 4.0;
    Note(t + 0.8, (spDraw * 4.0).Floor, true, false, false, false, false)
  }

  predicate SortedByTime(s: seq<Note>)
  {
    forall i, j :: 0 <= i < j < |s| ==> s[i].t <= s[j].t
  }

  /** The notes of `s` scheduled at time `x`, in their order in `s`. */
  function AtTime(s: seq<Note>, x: real): seq<Note>
    decreases |s|
  {
    if s == [] then [] else (if s[0].t == x then [s[0]] else []) + AtTime(s[1..], x)
  }

  /** Insert `n` into a time-sorted sequence after every note earlier than
      it and before every note at the same time. */
  function InsertByTime(n: Note, s: seq<Note>): (r: seq<Note>)
    requires SortedByTime(s)
    ensures SortedByTime(r)
    ensures multiset(r) == multiset(s) + multiset{n}
    decreases |s|
  {
    if s == [] then [n]
    else if s[0].t < n.t then
      var rest := InsertByTime(n, s[1..]);
      InsertBehindHead(s, n, rest);
      [s[0]] + rest
    else [n] + s
  }

  /** The recursive case of InsertByTime: the head of a sorted list, put
      back in front of the insertion into its tail, keeps the list sorted. */
  lemma InsertBehindHead(s: seq<Note>, n: Note, rest: seq<Note>)
    requires s != [] && SortedByTime(s) && s[0].t <= n.t
    requires SortedByTime(rest) && multiset(rest) == multiset(s[1..]) + multiset{n}
    ensures SortedByTime([s[0]] + rest)
    ensures multiset([s[0]] + rest) == multiset(s) + multiset{n}
  {
    assert s == [s[0]] + s[1..];
    forall k | 0 <= k < |rest|
      ensures s[0].t <= rest[k].t
    {
      assert rest[k] in multiset(rest);
      if rest[k] != n {
        assert rest[k] in s[1..];
      }
    }
  }

  /** The inserted note comes first among the notes at its time; the notes
      at any other time keep their order. */
  lemma {:induction false} InsertByTimeStable(n: Note, s: seq<Note>, x: real)
    requires SortedByTime(s)
    ensures AtTime(InsertByTime(n, s), x) == (if n.t == x then [n] else []) + AtTime(s, x)
    decreases |s|
  {
    if s == [] {
      AtTimeCons(n, [], x);
    } else if s[0].t < n.t {
      var rest := InsertByTime(n, s[1..]);
      assert InsertByTime(n, s) == [s[0]] + rest;
      InsertByTimeStable(n, s[1..], x);
      AtTimeCons(s[0], rest, x);
      AtTimeUncons(s, x);
      SwapExclusive(if s[0].t == x then [s[0]] else [], if n.t == x then [n] else [], AtTime(s[1..], x));
    } else {
      assert InsertByTime(n, s) == [n] + s;
      AtTimeCons(n, s, x);
    }
  }

  lemma AtTimeUncons(s: seq<Note>, x: real)
    requires s != []
    ensures AtTime(s, x) == (if s[0].t == x then [s[0]] else []) + AtTime(s[1..], x)
  {
  }

  /** Two sequences of which at least one is empty can be put in either order. */
  lemma SwapExclusive(a: seq<Note>, b: seq<Note>, c: seq<Note>)
    requires a == [] || b == []
    ensures a + (b + c) == b + (a + c)
  {
  }

  lemma AtTimeCons(h: Note, s: seq<Note>, x: real)
    ensures AtTime([h] + s, x) == (if h.t == x then [h] else []) + AtTime(s, x)
  {
    assert ([h] + s)[1..] == s;
  }

  /** `notes.sort((a,b)=>a.t-b.t)` (script.js:1131): a sorted permutation,
      and stable as JavaScript's sort is: the notes at any one time keep
      their order. */
  function SortByTime(s: seq<Note>): (r: seq<Note>)
    ensures SortedByTime(r)
    ensures multiset(r) == multiset(s)
    ensures forall x :: AtTime(r, x) == AtTime(s, x)
    decreases |s|
  {
    if s == [] then []
    else
      assert s == [s[0]] + s[1..];
      var rest := SortByTime(s[1..]);
      InsertAllStable(s[0], rest);
      InsertByTime(s[0], rest)
  }

  lemma InsertAllStable(n: Note, s: seq<Note>)
    requires SortedByTime(s)
    ensures forall x :: AtTime(InsertByTime(n, s), x) == (if n.t == x then [n] else []) + AtTime(s, x)
  {
    forall x {
      InsertByTimeStable(n, s, x);
    }
  }

  /** Of two notes at the same time, the one earlier in the input stays
      earlier in the sorted list, ahead of every later note at that time. */
  lemma SortKeepsTieOrder(a: Note, b: Note, s: seq<Note>)
    requires a.t == b.t
    ensures AtTime(SortByTime([a, b] + s), a.t) == [a, b] + AtTime(s, a.t)
  {
    AtTimeCons(a, [b] + s, a.t);
    AtTimeCons(b, s, a.t);
    assert [a, b] + s == [a] + ([b] + s);
  }

  lemma {:induction false} AtTimeAppend(s: seq<Note>, n: Note, x: real)
    ensures AtTime(s + [n], x) == AtTime(s, x) + (if n.t == x then [n] else [])
    decreases |s|
  {
    if s == [] {
      AtTimeCons(n, [], x);
      assert [] + [n] == [n] + [];
    } else {
      AtTimeAppend(s[1..], n, x);
      assert s + [n] == [s[0]] + (s[1..] + [n]);
      AtTimeCons(s[0], s[1..] + [n], x);
      AtTimeCons(s[0], s[1..], x);
      assert s == [s[0]] + s[1..];
    }
  }

  lemma SortKeepsNotes(s: seq<Note>)
    ensures |SortByTime(s)| == |s|
    ensures forall i :: 0 <= i < |SortByTime(s)| ==> SortByTime(s)[i] in s
  {
    var r := SortByTime(s);
    assert |multiset(r)| == |multiset(s)|;
    forall i | 0 <= i < |r| ensures r[i] in s {
      assert r[i] in multiset(r);
    }
  }

  /** The first part of the accept branch (script.js:1075-1112): the note is
      marked hit and removed, the combo grows, the consecutive-miss count
      restarts and the displayed tier is counted. */
  function MarkHit(s: GameState, i: nat, t: real): (r: GameState)
    requires i < |s.notes|
    ensures |r.notes| == |s.notes| && r.notes[i] == s.notes[i].(hit := true, removed := true)
    ensures forall j :: 0 <= j < |s.notes| && j != i ==> r.notes[j] == s.notes[j]
    ensures r.tally.combo == s.tally.combo + 1 && r.tally.consecMiss == 0
    ensures r.tally.perfect == s.tally.perfect + (if Abs(t - s.notes[i].t) <= 0.05 then 1 else 0)
    ensures r.tally.great == s.tally.great + (if 0.05 < Abs(t - s.notes[i].t) <= 0.1 then 1 else 0)
    ensures r.tally.good == s.tally.good + (if Abs(t - s.notes[i].t) > 0.1 then 1 else 0)
    ensures r.bars == s.bars && r.gauge == s.gauge && r.status == s.status
  {
    var n := s.notes[i];
    s.(notes := s.notes[i := n.(hit := true, removed := true)],
       tally := CountTier(s.tally.(combo := s.tally.combo + 1, consecMiss := 0), DisplayTier(Abs(t - n.t))))
  }

  /** The gauge part (script.js:1116-1132) for a hit on `n`: the special note
      empties the gauge; any other note adds 10 and may push the special
      note, after which the list is sorted by time. */
  function GainSp(s: GameState, n: Note, t: real, spDraw: real): (r: GameState)
    requires 0.0 <= spDraw < 1.0
    ensures r.bars == s.bars && r.tally == s.tally && r.status == s.status
    ensures n.sp ==> r.gauge.sp == 0 && !r.gauge.queued && r.notes == s.notes
    ensures !n.sp ==> r.gauge.sp == Min(100, s.gauge.sp + 10)
    ensures !SpecialDue(s.gauge, n) ==> r.notes == s.notes
    ensures SpecialDue(s.gauge, n) ==>
              && r.gauge.queued && SortedByTime(r.notes)
              && multiset(r.notes) == multiset(s.notes) + multiset{SpecialNote(t, spDraw)}
  {
    if n.sp then s.(gauge := Gauge(0, false, s.gauge.specialCount + 1, s.gauge.specialAttempts + 1))
    else
      var g := s.gauge.(sp := Min(100, s.gauge.sp + 10));
      if SpecialDue(s.gauge, n)
      then s.(gauge := g.(queued := true), notes := SortByTime(s.notes + [SpecialNote(t, spDraw)]))
      else s.(gauge := g)
  }

  /** The scoring part (script.js:1133-1143) for score tier `k`. */
  function ScoreHit(s: GameState, k: Tier): (r: GameState)
    ensures r.notes == s.notes && r.gauge == s.gauge && r.status == s.status.(lastNoteHit := true)
    ensures r.tally.score == s.tally.score + Points(k) && r.tally.combo == s.tally.combo
    ensures r.tally.perfect == s.tally.perfect + (if k == Perfect then 1 else 0)
    ensures r.tally.great == s.tally.great + (if k == Great then 1 else 0)
    ensures r.tally.good == s.tally.good + (if k == Good then 1 else 0)
    ensures r.tally.maxCombo == Max(s.tally.maxCombo, s.tally.combo)
    ensures k == Good ==> r.bars == s.bars
    ensures HpInRange(s.bars) ==> HpInRange(r.bars)
  {
    var c := CountTier(s.tally, k);
    var s1 := s.(tally := c.(maxCombo := Max(c.maxCombo, c.combo), score := c.score + Points(k)),
                 status := s.status.(lastNoteHit := true));
    if k == Good then s1 else DamageEnemy(s1, HitDamage(k))
  }

  /** The accept branch of onKey (script.js:1074-1143) for note `i` at time
      `t`. The special's deferred damageEnemy(12) is applied last; the clamped
      transfers commute, so the bars are the same in either order. */
  function AcceptHit(s: GameState, i: nat, t: real, spDraw: real): (r: GameState)
    requires i < |s.notes| && 0.0 <= spDraw < 1.0
    ensures r.tally.combo == s.tally.combo + 1 && r.tally.consecMiss == 0
    ensures r.tally.missCount == s.tally.missCount && r.status == s.status.(lastNoteHit := true)
    ensures |r.notes| >= |s.notes|
    ensures HpInRange(s.bars) ==> HpInRange(r.bars)
  {
    var n := s.notes[i];
    var s3 := ScoreHit(GainSp(MarkHit(s, i, t), n, t, spDraw), ScoreTier(Abs(t - n.t)));
    if n.sp then DamageEnemy(s3, 12) else s3
  }

  function TagOf(n: Note): MissLabel
  {
    if n.sp then MissSp else Miss
  }

  /** The reject branch of onKey (script.js:1144-1151): damageSelf(3) and the
      tie-break flag; the note itself is not touched. */
  function RejectPress(s: GameState, i: nat): (r: GameState)
    requires i < |s.notes|
    ensures r.notes == s.notes && !r.status.lastNoteHit
    ensures r.tally.combo == 0 && r.tally.missCount == s.tally.missCount + 1
  {
    var r := DamageSelf(s, 3, TagOf(s.notes[i]));
    r.(status := r.status.(lastNoteHit := false))
  }

  /** onKey (script.js:1037-1152). Space is the debug special (damageEnemy(8));
      keys outside KEYS do nothing; otherwise the nearest candidate is judged.
      A press either counts no miss or is the rejected press, which counts
      one, breaks the combo and leaves every note as it was. */
  function OnKeySpec(s: GameState, key: Key, t: real, laneH: real, spDraw: real): (r: GameState)
    requires 0.0 <= spDraw < 1.0
    ensures !s.status.started ==> r == s
    ensures s.status.started && key.code == "Space" ==> r == DamageEnemy(s, 8)
    ensures key.code != "Space" && !(key.keyCode in {68, 70, 74, 75}) ==> r == s
    ensures r.tally.missCount == s.tally.missCount
            || (r.tally.missCount == s.tally.missCount + 1 && r.tally.combo == 0 && r.notes == s.notes)
  {
    if !s.status.started then s
    else if key.code == "Space" then DamageEnemy(s, 8)
    else if LaneOf(key.keyCode) < 0 then s
    else
      DecideNearest(s.notes, LaneOf(key.keyCode), t, laneH);
      match Decide(s.notes, LaneOf(key.keyCode), t, laneH)
      case NoTarget => s
      case InWindow(i) => AcceptHit(s, i, t, spDraw)
      case OutOfWindow(i) => RejectPress(s, i)
  }

  /** An accepted hit: the combo grows by one, the consecutive-miss count
      restarts, the best combo covers the new combo, the score grows by
      1000/700/450 by the stricter tier, the three tier counters grow by two
      in all, the bars move by 3/2 (plus 12 for the special note) and a GOOD
      hit on an ordinary note leaves them untouched. */
  lemma AcceptHitTally(s: GameState, i: nat, t: real, spDraw: real)
    requires i < |s.notes| && 0.0 <= spDraw < 1.0
    ensures var r := AcceptHit(s, i, t, spDraw);
      var n := s.notes[i];
      var k := ScoreTier(Abs(t - n.t));
      var dmg := HitDamage(k) + (if n.sp then 12 else 0);
      && r.tally.combo == s.tally.combo + 1
      && r.tally.consecMiss == 0
      && r.tally.maxCombo == Max(s.tally.maxCombo, s.tally.combo + 1)
      && r.tally.score == s.tally.score + Points(k)
      && r.tally.perfect + r.tally.great + r.tally.good == s.tally.perfect + s.tally.great + s.tally.good + 2
      && r.tally.perfect == s.tally.perfect + (if Abs(t - n.t) <= 0.05 then 1 else 0)
                                            + (if Abs(t - n.t) <= 0.03 then 1 else 0)
      && r.tally.great == s.tally.great + (if 0.05 < Abs(t - n.t) <= 0.1 then 1 else 0)
                                        + (if 0.03 < Abs(t - n.t) <= 0.06 then 1 else 0)
      && r.tally.good == s.tally.good + (if Abs(t - n.t) > 0.1 then 1 else 0)
                                      + (if Abs(t - n.t) > 0.06 then 1 else 0)
      && r.tally.missCount == s.tally.missCount
      && r.bars == (if dmg == 0 then s.bars else Bars(Min(100, s.bars.hpSelf + dmg), Max(0, s.bars.hpEnemy - dmg)))
      && r.status == s.status.(lastNoteHit := true)
  {
  }

  /** The gauge and the note list after a hit. A hit on the special note
      empties the gauge and clears the queued flag; any other hit adds 10 to
      the gauge capped at 100, and the special note is pushed exactly when
      that fills the gauge from below 100 while none is queued, after which
      the list is the sorted marked list plus the new note. */
  lemma AcceptHitGauge(s: GameState, i: nat, t: real, spDraw: real)
    requires i < |s.notes| && 0.0 <= spDraw < 1.0
    ensures var r := AcceptHit(s, i, t, spDraw);
      var n := s.notes[i];
      var marked := s.notes[i := n.(hit := true, removed := true)];
      && (n.sp ==> r.gauge.sp == 0 && !r.gauge.queued
                   && r.gauge.specialCount == s.gauge.specialCount + 1
                   && r.gauge.specialAttempts == s.gauge.specialAttempts + 1)
      && (!n.sp ==> r.gauge.sp == Min(100, s.gauge.sp + 10)
                    && r.gauge.specialCount == s.gauge.specialCount
                    && r.gauge.specialAttempts == s.gauge.specialAttempts)
      && (|r.notes| == |s.notes| + 1 <==> !n.sp && s.gauge.sp < 100 && s.gauge.sp + 10 >= 100 && !s.gauge.queued)
      && (!SpecialDue(s.gauge, n) ==> r.notes == marked && r.gauge.queued == (s.gauge.queued && !n.sp))
      && (SpecialDue(s.gauge, n) ==> r.gauge.queued && SortedByTime(r.notes)
                                      && multiset(r.notes) == multiset(marked) + multiset{SpecialNote(t, spDraw)})
  {
    var marked := s.notes[i := s.notes[i].(hit := true, removed := true)];
    if SpecialDue(s.gauge, s.notes[i]) {
      SortKeepsNotes(marked + [SpecialNote(t, spDraw)]);
    }
  }

  /** When a hit queues the golden note, the stable sort puts it after every
      note already scheduled at the same time, so a press picks such a note
      before the golden one. */
  lemma GoldenNoteAfterTies(s: GameState, i: nat, t: real, spDraw: real)
    requires i < |s.notes| && 0.0 <= spDraw < 1.0 && SpecialDue(s.gauge, s.notes[i])
    ensures var marked := s.notes[i := s.notes[i].(hit := true, removed := true)];
      AtTime(AcceptHit(s, i, t, spDraw).notes, t + 0.8) == AtTime(marked, t + 0.8) + [SpecialNote(t, spDraw)]
  {
    var marked := s.notes[i := s.notes[i].(hit := true, removed := true)];
    AtTimeAppend(marked, SpecialNote(t, spDraw), t + 0.8);
    assert AcceptHit(s, i, t, spDraw).notes == SortByTime(marked + [SpecialNote(t, spDraw)]);
  }

  /** A rejected press costs 3 health through damageSelf, clears the combo,
      counts a miss and leaves every note as it was, so the note stays
      pending and can still be hit. */
  lemma RejectPressEffects(s: GameState, i: nat)
    requires i < |s.notes| && HpInRange(s.bars)
    ensures var r := RejectPress(s, i);
      && r.notes == s.notes
      && r.tally.combo == 0 && r.tally.missCount == s.tally.missCount + 1
      && !r.status.lastNoteHit
      && r.bars.hpSelf == Max(0, s.bars.hpSelf - 3) - (if s.bars.hpSelf > 3 && s.tally.consecMiss + 1 >= 5 then Min(s.bars.hpSelf - 3, 6) else 0)
  {
    DamageSelfEffects(s, 3, TagOf(s.notes[i]));
  }

  /** A rejected press on a pending golden note clears `_spQueued` through
      damageSelf's MISS_SP penalty while the note stays pending and can
      still be hit, so a further hit that fills the gauge queues a second
      golden note beside it. */
  lemma RejectedGoldenNoteStaysPending(s: GameState, i: nat)
    requires HpInRange(s.bars) && i < |s.notes| && s.notes[i].sp && Pending(s.notes[i])
    requires s.bars.hpSelf > 3
    ensures var r := RejectPress(s, i);
      && !r.gauge.queued && Pending(r.notes[i]) && r.notes[i].sp
  {
    DamageSelfEffects(s, 3, MissSp);
  }

  lemma WellFormedAfterHit(s: GameState, i: nat, t: real, spDraw: real)
    requires NotesWellFormed(s.notes) && i < |s.notes| && Pending(s.notes[i]) && 0.0 <= spDraw < 1.0
    ensures NotesWellFormed(AcceptHit(s, i, t, spDraw).notes)
  {
    var marked := s.notes[i := s.notes[i].(hit := true, removed := true)];
    if SpecialDue(s.gauge, s.notes[i]) {
      var all := marked + [SpecialNote(t, spDraw)];
      assert NotesWellFormed(all);
      SortKeepsNotes(all);
    }
  }

  lemma {:induction false} AcceptHitInv(s: GameState, i: nat, t: real, spDraw: real)
    requires Inv(s) && i < |s.notes| && Pending(s.notes[i]) && 0.0 <= spDraw < 1.0
    ensures Inv(AcceptHit(s, i, t, spDraw))
  {
    WellFormedAfterHit(s, i, t, spDraw);
  }

  /** A key press keeps the battle invariant: the note it marks hit was
      pending, so no note ends up both hit and missed. */
  lemma OnKeyInv(s: GameState, key: Key, t: real, laneH: real, spDraw: real)
    requires Inv(s) && 0.0 <= spDraw < 1.0
    ensures Inv(OnKeySpec(s, key, t, laneH, spDraw))
  {
    if s.status.started && key.code != "Space" && LaneOf(key.keyCode) >= 0 {
      var lane := LaneOf(key.keyCode);
      DecideNearest(s.notes, lane, t, laneH);
      match Decide(s.notes, lane, t, laneH)
      case NoTarget =>
      case InWindow(i) => AcceptHitInv(s, i, t, spDraw);
      case OutOfWindow(i) => DamageSelfInv(s, 3, TagOf(s.notes[i]));
    }
  }

  /** One note in the sweep of updateNotes (script.js:935-954): a removed note
      is skipped; otherwise it gets its element, is marked missed and removed
      once its hit window has passed while it is still pending, and is
      removed once it has scrolled 40 px past the lane. */
  function SweepNote(n: Note, t: real, laneH: real): (r: Note)
    ensures r.t == n.t && r.lane == n.lane && r.sp == n.sp && r.hit == n.hit
    ensures r.missed <==> n.missed || TimesOut(n, t)
    ensures r.removed <==> n.removed || TimesOut(n, t) || NoteY(n, t, laneH) > laneH + 40.0
    ensures r.hasEl <==> n.hasEl || !n.removed
  {
    if n.removed then n
    else
      var n1 := n.(hasEl := true);
      var n2 := if t > n.t + HIT_WINDOW && Pending(n) then n1.(missed := true, removed := true) else n1;
      if NoteY(n, t, laneH) > laneH + 40.0 then n2.(removed := true) else n2
  }

  /** Whether the sweep at time `t` times `n` out. */
  predicate TimesOut(n: Note, t: real)
  {
    !n.removed && t > n.t + HIT_WINDOW && Pending(n)
  }

  function Sweep(notes: seq<Note>, t: real, laneH: real): (r: seq<Note>)
    ensures |r| == |notes|
  {
    seq(|notes|, i requires 0 <= i < |notes| => SweepNote(notes[i], t, laneH))
  }

  /** The damageSelf(6) calls the sweep schedules, in note order. */
  function MissTags(notes: seq<Note>, t: real): (tags: seq<MissLabel>)
    ensures |tags| <= |notes|
    decreases |notes|
  {
    if notes == [] then []
    else
      var last := notes[|notes| - 1];
      MissTags(notes[..|notes| - 1], t) + (if TimesOut(last, t) then [TagOf(last)] else [])
  }

  function ApplyMisses(s: GameState, tags: seq<MissLabel>): (r: GameState)
    ensures r.notes == s.notes && r.tally.missCount == s.tally.missCount + |tags|
    ensures tags != [] ==> r.tally.combo == 0
    decreases |tags|
  {
    if tags == [] then s else ApplyMisses(DamageSelf(s, 6, tags[0]), tags[1..])
  }

  /** updateNotes (script.js:928-966): the sweep, then the song-end
      resolution 1.5 s after the song's duration, then the scheduled
      damageSelf(6) calls, which run only after the frame returns. */
  function UpdateNotesSpec(s: GameState, t: real, laneH: real): (r: GameState)
    ensures |r.notes| == |s.notes|
    ensures r.tally.missCount == s.tally.missCount + |MissTags(s.notes, t)|
  {
    var s1 := s.(notes := Sweep(s.notes, t, laneH));
    var s2 := if !s1.status.finished && t > s1.duration + 1.5
              then DetermineWinner(s1.(status := s1.status.(finished := true)))
              else s1;
    ApplyMisses(s2, MissTags(s.notes, t))
  }

  /** The sweep never clears or sets `hit`, never clears `missed` or
      `removed`, sets `missed` exactly on the notes it times out, removes
      exactly the notes it times out or that have scrolled 40 px past the
      lane, and gives every note it visits its element. */
  lemma SweepFlags(notes: seq<Note>, t: real, laneH: real, i: nat)
    requires i < |notes|
    ensures var m := Sweep(notes, t, laneH)[i];
      && m.t == notes[i].t && m.lane == notes[i].lane && m.sp == notes[i].sp
      && m.hit == notes[i].hit
      && (m.missed <==> notes[i].missed || TimesOut(notes[i], t))
      && (notes[i].removed ==> m.removed)
      && (TimesOut(notes[i], t) ==> Pending(notes[i]) && m.removed)
      && (m.removed <==> notes[i].removed || TimesOut(notes[i], t) || NoteY(notes[i], t, laneH) > laneH + 40.0)
      && (m.hasEl <==> notes[i].hasEl || !notes[i].removed)
  {
  }

  /** One scheduled call for each note the sweep times out. */
  lemma {:induction false} MissTagsCount(notes: seq<Note>, t: real)
    ensures |MissTags(notes, t)| == |set i | 0 <= i < |notes| && TimesOut(notes[i], t)|
    decreases |notes|
  {
    if notes != [] {
      var init := notes[..|notes| - 1];
      MissTagsCount(init, t);
      var before := set i | 0 <= i < |init| && TimesOut(init[i], t);
      var all := set i | 0 <= i < |notes| && TimesOut(notes[i], t);
      assert before == set i | 0 <= i < |notes| - 1 && TimesOut(notes[i], t);
      if TimesOut(notes[|notes| - 1], t) {
        assert all == before + {|notes| - 1};
      } else {
        assert all == before;
      }
    }
  }

  /** The scheduled damage counts one miss per timed-out note and never
      touches the notes; the combo is broken by any of them. */
  lemma {:induction false} ApplyMissesCounts(s: GameState, tags: seq<MissLabel>)
    requires HpInRange(s.bars)
    ensures var r := ApplyMisses(s, tags);
      && r.tally.missCount == s.tally.missCount + |tags|
      && r.notes == s.notes
      && r.tally.score == s.tally.score && r.tally.maxCombo == s.tally.maxCombo
      && (tags != [] ==> r.tally.combo == 0)
      && (tags == [] ==> r == s)
      && HpInRange(r.bars)
    decreases |tags|
  {
    if tags != [] {
      ApplyMissesCounts(DamageSelf(s, 6, tags[0]), tags[1..]);
    }
  }

  lemma {:induction false} ApplyMissesInv(s: GameState, tags: seq<MissLabel>)
    requires Inv(s)
    ensures Inv(ApplyMisses(s, tags))
    decreases |tags|
  {
    if tags != [] {
      DamageSelfInv(s, 6, tags[0]);
      ApplyMissesInv(DamageSelf(s, 6, tags[0]), tags[1..]);
    }
  }

  /** A tick keeps the invariant; it counts one miss for each note it times
      out; and past the song's end plus 1.5 s an unfinished battle is
      finished and, unless it had already ended, handed the outcome of
      determineWinner on the bars as the frame found them: the deferred
      misses run after the decision and cannot change it. */
  lemma UpdateNotesEffects(s: GameState, t: real, laneH: real)
    requires Inv(s)
    ensures var r := UpdateNotesSpec(s, t, laneH);
      && Inv(r)
      && r.tally.missCount == s.tally.missCount + |set i | 0 <= i < |s.notes| && TimesOut(s.notes[i], t)|
      && |r.notes| == |s.notes|
      && (!s.status.finished && t > s.duration + 1.5 ==> r.status.finished && r.status.ending)
      && (!s.status.finished && !s.status.ending && t > s.duration + 1.5 ==>
            r.status.outcome == Some(s.bars.hpSelf >= s.bars.hpEnemy))
  {
    var s1 := s.(notes := Sweep(s.notes, t, laneH));
    forall i | 0 <= i < |s1.notes|
      ensures 0 <= s1.notes[i].lane < 4 && !(s1.notes[i].hit && s1.notes[i].missed)
    {
      SweepFlags(s.notes, t, laneH, i);
    }
    assert Inv(s1);
    var s2 := if !s1.status.finished && t > s1.duration + 1.5
              then DetermineWinner(s1.(status := s1.status.(finished := true)))
              else s1;
    assert Inv(s2);
    ApplyMissesInv(s2, MissTags(s.notes, t));
    ApplyMissesCounts(s2, MissTags(s.notes, t));
    MissTagsCount(s.notes, t);
    ApplyMissesStatus(s2, MissTags(s.notes, t));
  }

  /** damageSelf only ever sets `finished` and `_ending`, never clears them. */
  lemma {:induction false} ApplyMissesStatus(s: GameState, tags: seq<MissLabel>)
    ensures var r := ApplyMisses(s, tags);
      && (s.status.finished ==> r.status.finished)
      && (s.status.ending ==> r.status.ending && r.status.outcome == s.status.outcome)
    decreases |tags|
  {
    if tags != [] {
      ApplyMissesStatus(DamageSelf(s, 6, tags[0]), tags[1..]);
    }
  }

  /** The sweep checks the time-out before the off-screen test, but on a
      lane taller than 980 px a pending note passes 40 px below the lane
      before the hit window closes: the frame at 0.23 s after a note's time
      on a 1080 px lane removes it unjudged, and no later frame looks at it
      again, so it never counts as a miss. */
  lemma TallLaneDropsNote(t: real, laneH: real)
    ensures var m := SweepNote(Note(0.0, 0, false, false, false, false, true), 0.23, 1080.0);
      && m.removed && Pending(m)
      && SweepNote(m, t, laneH) == m && !TimesOut(m, t)
  {
    var n := Note(0.0, 0, false, false, false, false, true);
    assert !TimesOut(n, 0.23);
    assert NoteY(n, 0.23, 1080.0) > 1120.0;
  }
}
