/** The note chart generator generatePattern (script.js:563-613): a loop
    that steps through the song one beat at a time and either inserts the
    one-off climax run, skips the beat, or emits a tap (possibly a two- or
    three-lane chord) with an optional quick follow-up note. Math.random()
    is the parameter `rand`, read at successive indices in the order the
    source draws. */
module Pattern {

  /** A generated note before startBattle turns it into a battle note. */
  datatype PatternNote = PatternNote(t: real, lane: int)

  /** What one step of the loop emitted: the climax run starting at `start`,
      or a tap at `t` in lane `base` plus the chord lanes `extra`, followed
      half a beat later by a note in the next lane when `follow` is set. */
  datatype Group =
    | Climax(start: real, lane: int)
    | Tap(t: real, base: int, extra: seq<int>, follow: bool)

  function Start(g: Group): real
  {
    match g
    case Climax(s, _) => s
    case Tap(t, _, _, _) => t
  }

  function Lanes(g: Group): seq<int>
    requires g.Tap?
  {
    [g.base] + g.extra
  }

  /** The ten climax notes: one lane, 0.3 beat apart (script.js:575-577). */
  function ClimaxNotes(start: real, lane: int, beat: real): (r: seq<PatternNote>)
    ensures |r| == 10 && r[0].t == start
    ensures forall i :: 0 <= i < 10 ==> r[i].lane == lane
    ensures forall i :: 0 < i < 10 ==> r[i].t == r[i - 1].t + 0.3 * beat
  {
    seq(10, i requires 0 <= i < 10 => PatternNote(start + (i as real) * 0.3 * beat, lane))
  }

  /** The notes one step emits: the climax run, or the tap's lanes at its
      time and the optional follow-up; the first is always at the step's
      start. */
  function Expand(g: Group, beat: real): (r: seq<PatternNote>)
    ensures |r| == (if g.Climax? then 10 else 1 + |g.extra| + (if g.follow then 1 else 0))
    ensures g.Climax? ==> r[0] == PatternNote(g.start, g.lane)
    ensures g.Tap? ==> r[0] == PatternNote(g.t, g.base)
  {
    match g
    case Climax(s, l) => ClimaxNotes(s, l, beat)
    case Tap(t, base, extra, follow) =>
      seq(1 + |extra|, i requires 0 <= i < 1 + |extra| => PatternNote(t, ([base] + extra)[i]))
      + (if follow then [PatternNote(t + 0.5 * beat, (base + 1) % 4)] else [])
  }

  /** A tap step's notes: the base lane and the chord lanes all at the
      step's time, then the quick follow-up half a beat later in the lane
      after the base lane (script.js:601-609). */
  lemma TapNotes(t: real, base: int, extra: seq<int>, follow: bool, beat: real)
    ensures var e := Expand(Tap(t, base, extra, follow), beat);
      && |e| == 1 + |extra| + (if follow then 1 else 0)
      && e[0] == PatternNote(t, base)
      && (forall i :: 0 <= i < |extra| ==> e[i + 1] == PatternNote(t, extra[i]))
      && (follow ==> e[|e| - 1] == PatternNote(t + 0.5 * beat, (base + 1) % 4))
  {
    var taps := seq(1 + |extra|, i requires 0 <= i < 1 + |extra| => PatternNote(t, ([base] + extra)[i]));
    var e := Expand(Tap(t, base, extra, follow), beat);
    assert e == taps + (if follow then [PatternNote(t + 0.5 * beat, (base + 1) % 4)] else []);
    forall i | 0 <= i < |extra|
      ensures e[i + 1] == PatternNote(t, extra[i])
    {
      assert ([base] + extra)[i + 1] == extra[i];
    }
  }

  /** The emitted notes, group after group. */
  function Flatten(gs: seq<Group>, beat: real): seq<PatternNote>
    decreases |gs|
  {
    if gs == [] then [] else Flatten(gs[..|gs| - 1], beat) + Expand(gs[|gs| - 1], beat)
  }

  predicate Distinct(s: seq<int>)
  {
    forall i, j :: 0 <= i < j < |s| ==> s[i] != s[j]
  }

  /** A group as the loop can emit it within a song of length `duration`:
      every lane in 0..3, chord lanes pairwise distinct and at most three,
      and the step starts at least two beats in and at least three beats
      before the end. */
  predicate GroupOk(g: Group, beat: real, duration: real)
  {
    && 2.0 * beat <= Start(g) <= duration - 3.0 * beat
    && match g
       case Climax(_, l) => 0 <= l < 4
       case Tap(_, base, extra, _) =>
         |extra| <= 2 && Distinct([base] + extra)
         && forall i :: 0 <= i < |[base] + extra| ==> 0 <= ([base] + extra)[i] < 4
  }

  predicate AtMostOneClimax(gs: seq<Group>)
  {
    forall i, j :: 0 <= i < |gs| && 0 <= j < |gs| && gs[i].Climax? && gs[j].Climax? ==> i == j
  }

  predicate StrictlyOrdered(gs: seq<Group>)
  {
    forall i, j :: 0 <= i < j < |gs| ==> Start(gs[i]) < Start(gs[j])
  }

  /** What the loop keeps of the groups emitted before the step at time `t`. */
  predicate Chart(gs: seq<Group>, beat: real, duration: real, t: real)
  {
    && (forall i :: 0 <= i < |gs| ==> GroupOk(gs[i], beat, duration))
    && (forall i :: 0 <= i < |gs| ==> Start(gs[i]) < t)
    && StrictlyOrdered(gs)
    && AtMostOneClimax(gs)
  }

  lemma ChartAppend(gs: seq<Group>, g: Group, beat: real, duration: real, t: real, t': real)
    requires Chart(gs, beat, duration, t) && GroupOk(g, beat, duration) && Start(g) == t && t < t'
    requires g.Climax? ==> forall i :: 0 <= i < |gs| ==> !gs[i].Climax?
    ensures Chart(gs + [g], beat, duration, t')
  {
  }

  /** `lanes.filter(l => l !== x)`. */
  function Without(s: seq<int>, x: int): (r: seq<int>)
    ensures forall y :: y in r <==> y in s && y != x
    ensures Distinct(s) ==> Distinct(r)
    ensures Distinct(s) && x in s ==> |r| == |s| - 1
    ensures x !in s ==> |r| == |s|
    decreases |s|
  {
    if s == [] then []
    else
      var rest := Without(s[1..], x);
      assert forall y :: y in s <==> y == s[0] || y in s[1..];
      assert Distinct(s) ==> Distinct(s[1..]) && s[0] !in s[1..];
      if s[0] == x then rest else [s[0]] + rest
  }

  /** `avail.splice(j, 1)`: the sequence without its `j`-th element. */
  function RemoveAt(s: seq<int>, j: nat): (r: seq<int>)
    requires j < |s|
    ensures |r| == |s| - 1
    ensures Distinct(s) ==> Distinct(r) && forall y :: y in r ==> y in s && y != s[j]
  {
    s[..j] + s[j + 1..]
  }

  /** `Math.floor(r * n)` for a draw `r` in [0,1): an index below `n`. */
  function RandomIndex(r: real, n: nat): (i: nat)
    requires 0.0 <= r < 1.0 && n > 0
    ensures i < n
  {
    assert r * (n as real) <= 1.0 * (n as real) - (1.0 - r) * (n as real);
    assert (1.0 - r) * (n as real) > 0.0;
    (r * (n as real)).Floor
  }

  /** The loop's clock: step `b` happens at `(b+2)·beat`. */
  function BeatTime(b: int, beat: real): real
  {
    (b as real + 2.0) * beat
  }

  lemma BeatTimeStep(b: int, beat: real)
    ensures BeatTime(b + 1, beat) == BeatTime(b, beat) + beat
    ensures BeatTime(b + 2, beat) == BeatTime(b, beat) + 2.0 * beat
  {
  }

  /** The song position `songProgress` (script.js:567) as a fraction. */
  function Progress(t: real, duration: real): real
    requires duration > 0.0
  {
    t / duration
  }

  /** The last step the loop takes starts at least three beats before the end:
      with `b < Math.floor(duration/beat) - 4`, `(b+2)·beat <= duration - 3·beat`. */
  lemma StepBeforeEnd(b: int, beat: real, duration: real)
    requires beat > 0.0 && b < (duration / beat).Floor - 4
    ensures BeatTime(b, beat) <= duration - 3.0 * beat
  {
    var f := (duration / beat).Floor;
    assert (b + 2) as real <= (f - 3) as real;
    assert (f as real) <= duration / beat;
    assert (f as real) * beat <= (duration / beat) * beat;
    assert (b as real + 2.0) * beat <= (f as real - 3.0) * beat;
  }

  lemma FlattenAppend(gs: seq<Group>, g: Group, beat: real)
    ensures Flatten(gs + [g], beat) == Flatten(gs, beat) + Expand(g, beat)
  {
    assert (gs + [g])[..|gs|] == gs;
  }

  /** Every emitted note lies in lane 0..3 and inside the song: at or after
      two beats and before `duration`. */
  lemma {:induction false} FlattenInSong(gs: seq<Group>, beat: real, duration: real)
    requires beat > 0.0
    requires forall i :: 0 <= i < |gs| ==> GroupOk(gs[i], beat, duration)
    ensures forall k :: 0 <= k < |Flatten(gs, beat)| ==>
              && 0 <= Flatten(gs, beat)[k].lane < 4
              && 2.0 * beat <= Flatten(gs, beat)[k].t < duration
    decreases |gs|
  {
    if gs != [] {
      var init := gs[..|gs| - 1];
      var g := gs[|gs| - 1];
      FlattenInSong(init, beat, duration);
      var e := Expand(g, beat);
      assert GroupOk(g, beat, duration);
      forall k | 0 <= k < |e| ensures 0 <= e[k].lane < 4 && 2.0 * beat <= e[k].t < duration {
        match g
        case Climax(s, l) =>
          assert e[k].t == s + (k as real) * 0.3 * beat;
          assert 0.0 <= (k as real) * 0.3 * beat <= 2.7 * beat;
        case Tap(t, base, extra, follow) =>
          if k < 1 + |extra| {
            assert e[k] == PatternNote(t, ([base] + extra)[k]);
          } else {
            assert e[k] == PatternNote(t + 0.5 * beat, (base + 1) % 4);
          }
      }
    }
  }

  /** `lanes.filter(l => l !== baseLane)` on `[0,1,2,3]`: the three other
      lanes, all distinct. */
  lemma OtherLanes(base: int)
    requires 0 <= base < 4
    ensures var avail := Without([0, 1, 2, 3], base);
      |avail| == 3 && Distinct(avail) && forall y :: y in avail ==> 0 <= y < 4 && y != base
  {
    assert Distinct([0, 1, 2, 3]) && base in [0, 1, 2, 3];
  }

  /** Lanes in 0..3 that differ pairwise make a chord of distinct lanes. */
  lemma ChordDistinct(base: int, extra: seq<int>)
    requires 0 <= base < 4 && 1 <= |extra| <= 2
    requires forall i :: 0 <= i < |extra| ==> 0 <= extra[i] < 4 && extra[i] != base
    requires |extra| == 2 ==> extra[0] != extra[1]
    ensures Distinct([base] + extra)
  {
  }

  /** The chord lanes (script.js:602-606): the lanes other than `base`, one
      of them taken out at random, and for a triple a second one drawn from
      those left. */
  method DrawChord(base: int, isTriple: bool, rand: nat -> real, k0: nat) returns (extra: seq<int>, k: nat)
    requires 0 <= base < 4
    requires forall i :: 0.0 <= rand(i) < 1.0
    ensures |extra| == (if isTriple then 2 else 1)
    ensures Distinct([base] + extra)
    ensures forall i :: 0 <= i < |extra| ==> 0 <= extra[i] < 4
    ensures k > k0
  {
    k := k0;
    var avail := Without([0, 1, 2, 3], base);
    OtherLanes(base);
    var j := RandomIndex(rand(k), |avail|);
    k := k + 1;
    var l2 := avail[j];
    var rest := RemoveAt(avail, j);
    extra := [l2];
    if isTriple {
      var l3 := rest[RandomIndex(rand(k), |rest|)];
      assert l3 in rest;
      k := k + 1;
      extra := [l2, l3];
    }
    ChordDistinct(base, extra);
  }

  /** The tap step (script.js:593-609): a base lane, a chord of two or three
      distinct lanes with probability 0.28 (three with a further 0.15), and
      a quick follow-up note with probability 0.25. Returns the group and
      the index of the next unread draw. */
  method DrawTap(t: real, rand: nat -> real, k0: nat) returns (g: Group, k: nat)
    requires forall i :: 0.0 <= rand(i) < 1.0
    ensures g.Tap? && g.t == t && |g.extra| <= 2 && Distinct(Lanes(g))
    ensures forall i :: 0 <= i < |Lanes(g)| ==> 0 <= Lanes(g)[i] < 4
    ensures k > k0
  {
    k := k0;
    var base := RandomIndex(rand(k), 4);
    var isChord := rand(k + 1) < 0.28;
    k := k + 2;
    var isTriple := false;
    if isChord {
      isTriple := rand(k) < 0.15;
      k := k + 1;
    }
    var extra: seq<int> := [];
    if isChord {
      extra, k := DrawChord(base, isTriple, rand, k);
    }
    var follow := rand(k) < 0.25;
    k := k + 1;
    g := Tap(t, base, extra, follow);
  }

  /** generatePattern (script.js:563-613). */
  method GeneratePattern(bpm: real, duration: real, rand: nat -> real)
    returns (notes: seq<PatternNote>, ghost groups: seq<Group>)
    requires bpm > 0.0 && duration > 0.0
    requires forall i :: 0.0 <= rand(i) < 1.0
    ensures notes == Flatten(groups, 60.0 / bpm)
    ensures forall i :: 0 <= i < |groups| ==> GroupOk(groups[i], 60.0 / bpm, duration)
    ensures AtMostOneClimax(groups)
    ensures StrictlyOrdered(groups)
    ensures forall k :: 0 <= k < |notes| ==> 0 <= notes[k].lane < 4
    ensures forall k :: 0 <= k < |notes| ==> 2.0 * (60.0 / bpm) <= notes[k].t < duration
  {
    var beat := 60.0 / bpm;
    var totalBeats := (duration / beat).Floor - 4;
    notes, groups := [], [];
    var t := 2.0 * beat;
    var b := 0;
    var climaxAdded := false;
    var k: nat := 0;
    while b < totalBeats
      invariant b >= 0 && t == BeatTime(b, beat) && t >= 2.0 * beat
      invariant notes == Flatten(groups, beat)
      invariant Chart(groups, beat, duration, t)
      invariant !climaxAdded ==> forall i :: 0 <= i < |groups| ==> !groups[i].Climax?
      decreases totalBeats - b
    {
      StepBeforeEnd(b, beat, duration);
      BeatTimeStep(b, beat);
      var progress := Progress(t, duration);
      var climax := false;
      if !climaxAdded && progress >= 0.5 && progress <= 0.7 {
        climax := rand(k) < 0.3;
        k := k + 1;
      }
      if climax {
        var lane := RandomIndex(rand(k), 4);
        k := k + 1;
        var g := Climax(t, lane);
        FlattenAppend(groups, g, beat);
        ChartAppend(groups, g, beat, duration, t, t + 2.0 * beat);
        notes := notes + ClimaxNotes(t, lane, beat);
        groups := groups + [g];
        t := t + 2.0 * beat;
        b := b + 2;
        climaxAdded := true;
      } else {
        var skip := if progress >= Progress(duration - 5.0, duration) then rand(k) < 0.7 else rand(k) < 0.35;
        k := k + 1;
        if skip {
          b := b + 1;
          t := t + beat;
        } else {
          var g;
          g, k := DrawTap(t, rand, k);
          FlattenAppend(groups, g, beat);
          ChartAppend(groups, g, beat, duration, t, t + beat);
          notes := notes + Expand(g, beat);
          groups := groups + [g];
          b := b + 1;
          t := t + beat;
        }
      }
    }
    FlattenInSong(groups, beat, duration);
  }
}
