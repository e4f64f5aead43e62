/** The breathing-exercise screen: a five-phase session driven by a fixed
    100 ms tick. Time is counted in whole deciseconds (one tick each). */
module Breathing {

  datatype Phase = Ready | Inhale | Hold | Exhale | Complete

  /** A catalog entry; the three durations are in seconds. */
  datatype Pattern = Pattern(name: string, inhale: nat, hold: nat, exhale: nat, cycles: nat)

  /** The fixed catalog the screen offers. */
  const Patterns: seq<Pattern> := [
    Pattern("4-7-8 Technique", 4, 7, 8, 4),
    Pattern("Box Breathing", 4, 4, 4, 4),
    Pattern("Equal Breathing", 4, 0, 4, 6),
    Pattern("Calming Breath", 4, 2, 6, 5)
  ]

  /** What every catalog pattern satisfies and the timer relies on. */
  predicate WellFormed(p: Pattern) {
    p.inhale > 0 && p.exhale > 0 && p.cycles > 0
  }

  lemma CatalogWellFormed()
    ensures forall p :: p in Patterns ==> WellFormed(p)
  {
  }

  /** The session fields the screen keeps: `phaseTime` and `totalTime` in
      deciseconds, `progress` as a percentage of the current phase. */
  datatype Session = Session(phase: Phase, cycle: nat, phaseTime: nat, progress: real,
                             totalTime: nat, active: bool)

  /** The state before any start and after every reset. */
  const Idle := Session(Ready, 0, 0, 0.0, 0, false)

  /** `getCurrentPhaseDuration`: seconds the phase lasts. */
  function PhaseSeconds(p: Pattern, ph: Phase): (d: nat)
    ensures ph == Ready || ph == Complete ==> d == 0
  {
    match ph
    case Inhale => p.inhale
    case Hold => p.hold
    case Exhale => p.exhale
    case _ => 0
  }

  /** The same duration in ticks. */
  function PhaseTicks(p: Pattern, ph: Phase): nat {
    10 * PhaseSeconds(p, ph)
  }

  /** `totalDuration`: seconds in one inhale-hold-exhale cycle, as ticks. */
  function CycleTicks(p: Pattern): nat {
    10 * (p.inhale + p.hold + p.exhale)
  }

  predicate Breathing(ph: Phase) {
    ph == Inhale || ph == Hold || ph == Exhale
  }

  /** `moveToNextPhase`: clears the phase clock and the progress, then follows the
      transition table; the exhale of the last cycle completes the session. */
  function NextPhase(p: Pattern, s: Session): (t: Session)
    ensures t.phaseTime == 0 && t.progress == 0.0 && t.totalTime == s.totalTime
    ensures s.phase == Ready ==> t.phase == Inhale
    ensures s.phase == Inhale ==> t.phase == (if p.hold > 0 then Hold else Exhale)
    ensures s.phase == Hold ==> t.phase == Exhale
    ensures s.phase == Exhale ==> t.cycle == s.cycle + 1
    ensures s.phase == Exhale ==> (t.phase == Complete <==> s.cycle + 1 >= p.cycles)
    ensures s.phase == Exhale && s.cycle + 1 < p.cycles ==> t.phase == Inhale && t.active == s.active
    ensures s.phase == Complete ==> t.phase == Complete
    ensures t.phase == Complete && s.phase != Complete ==> !t.active
    ensures s.phase != Exhale ==> t.cycle == s.cycle && t.active == s.active
  {
    var cleared := s.(phaseTime := 0, progress := 0.0);
    match s.phase
    case Ready => cleared.(phase := Inhale)
    case Inhale => cleared.(phase := if p.hold > 0 then Hold else Exhale)
    case Hold => cleared.(phase := Exhale)
    case Exhale =>
      if s.cycle + 1 >= p.cycles then cleared.(cycle := s.cycle + 1, phase := Complete, active := false)
      else cleared.(cycle := s.cycle + 1, phase := Inhale)
    case Complete => cleared
  }

  /** The interval callback: one 100 ms tick. The interval only exists while the
      session is active, so a tick of an inactive session changes nothing. */
  function Ticked(p: Pattern, s: Session): (t: Session)
    ensures !s.active ==> t == s
    ensures s.active ==> t.totalTime == s.totalTime + 1
    ensures s.active && s.phaseTime + 1 >= PhaseTicks(p, s.phase) ==>
              t == NextPhase(p, s.(totalTime := s.totalTime + 1))
    ensures s.active && s.phaseTime + 1 < PhaseTicks(p, s.phase) ==>
              t.phase == s.phase && t.cycle == s.cycle && t.active && t.phaseTime == s.phaseTime + 1
  {
    if !s.active then s
    else
      var newPhaseTime := s.phaseTime + 1;
      var s' := s.(totalTime := s.totalTime + 1);
      if newPhaseTime >= PhaseTicks(p, s.phase) then NextPhase(p, s')
      else s'.(phaseTime := newPhaseTime,
               progress := (newPhaseTime * 10) as real / PhaseSeconds(p, s.phase) as real)
  }

  /** `n` consecutive ticks. */
  function Ticks(p: Pattern, s: Session, n: nat): Session
    decreases n
  {
    if n == 0 then s else Ticks(p, Ticked(p, s), n - 1)
  }

  /** `startExercise`. */
  const Started := Session(Inhale, 0, 0, 0.0, 0, true)

  /** `pauseExercise`: only `isActive` changes. */
  function Paused(s: Session): (t: Session)
    ensures !t.active
    ensures t.(active := s.active) == s
  {
    s.(active := false)
  }

  /** The Resume button, offered only while a session is under way. */
  function Resumed(s: Session): (t: Session)
    ensures t.(active := s.active) == s
    ensures t.active <==> s.active || Breathing(s.phase)
  {
    if s.phase != Ready && s.phase != Complete then s.(active := true) else s
  }

  /** The session invariant: the phase clock is below the phase duration (or at 0
      in a phase of no length), only a breathing phase runs, the cycle counter is
      below `cycles` while breathing and equals it once complete. */
  predicate Inv(p: Pattern, s: Session) {
    (s.phaseTime == 0 || s.phaseTime < PhaseTicks(p, s.phase))
    && 0.0 <= s.progress < 100.0
    && (s.active ==> Breathing(s.phase))
    && (s.phase == Ready ==> s.cycle == 0 && s.phaseTime == 0)
    && (s.phase == Hold ==> p.hold > 0)
    && (Breathing(s.phase) ==> s.cycle < p.cycles)
    && (s.phase == Complete ==> s.cycle == p.cycles && s.phaseTime == 0)
  }

  lemma {:induction false} InvInitial(p: Pattern)
    requires WellFormed(p)
    ensures Inv(p, Idle) && Inv(p, Started)
  {
  }

  lemma {:induction false} NextPhaseKeepsInv(p: Pattern, s: Session)
    requires WellFormed(p) && Inv(p, s)
    ensures Inv(p, NextPhase(p, s))
  {
  }

  lemma {:induction false} TickKeepsInv(p: Pattern, s: Session)
    requires WellFormed(p) && Inv(p, s)
    ensures Inv(p, Ticked(p, s))
  {
    if s.active && s.phaseTime + 1 >= PhaseTicks(p, s.phase) {
      NextPhaseKeepsInv(p, s.(totalTime := s.totalTime + 1));
    } else if s.active {
      ProgressBelowFull(s.phaseTime + 1, PhaseSeconds(p, s.phase));
    }
  }

  /** A phase clock below the phase duration shows less than 100 percent. */
  lemma ProgressBelowFull(ticks: nat, seconds: nat)
    requires ticks < 10 * seconds
    ensures 0.0 <= (ticks * 10) as real / seconds as real < 100.0
  {
    var x, d := (ticks * 10) as real, seconds as real;
    assert x < 100.0 * d;
    var q := x / d;
    assert q * d == x;
    assert q >= 100.0 ==> q * d >= 100.0 * d;
    assert q < 0.0 ==> q * d < 0.0;
  }

  lemma {:induction false} PauseResumeKeepInv(p: Pattern, s: Session)
    requires Inv(p, s)
    ensures Inv(p, Paused(s)) && Inv(p, Resumed(s))
  {
  }

  /** Ticks that stay inside one phase only advance the two clocks. */
  lemma {:induction false} TicksWithinPhase(p: Pattern, s: Session, n: nat)
    requires s.active && Breathing(s.phase)
    requires s.phaseTime + n < PhaseTicks(p, s.phase)
    ensures var t := Ticks(p, s, n);
      t.phase == s.phase && t.cycle == s.cycle && t.active
      && t.phaseTime == s.phaseTime + n && t.totalTime == s.totalTime + n
    decreases n
  {
    if n > 0 {
      TicksWithinPhase(p, Ticked(p, s), n - 1);
    }
  }

  lemma {:induction false} TicksAdd(p: Pattern, s: Session, a: nat, b: nat)
    ensures Ticks(p, s, a + b) == Ticks(p, Ticks(p, s, a), b)
    decreases a
  {
    if a > 0 {
      TicksAdd(p, Ticked(p, s), a - 1, b);
    }
  }

  /** A breathing phase entered with a clear clock ends after exactly its
      duration in ticks, whatever the progress display showed. */
  lemma {:induction false} PhaseRunsItsDuration(p: Pattern, s: Session)
    requires s.active && Breathing(s.phase) && s.phaseTime == 0
    requires PhaseTicks(p, s.phase) > 0
    ensures Ticks(p, s, PhaseTicks(p, s.phase))
            == NextPhase(p, s.(totalTime := s.totalTime + PhaseTicks(p, s.phase)))
  {
    var d := PhaseTicks(p, s.phase);
    TicksWithinPhase(p, s, d - 1);
    TicksAdd(p, s, d - 1, 1);
  }

  /** One full cycle: starting an inhale, after `inhale + hold + exhale` seconds
      the next cycle's inhale begins, or the session is complete after the last. */
  lemma {:induction false} OneCycle(p: Pattern, s: Session)
    requires WellFormed(p)
    requires s.active && s.phase == Inhale && s.phaseTime == 0 && s.cycle < p.cycles
    ensures var t := Ticks(p, s, CycleTicks(p));
      t.cycle == s.cycle + 1 && t.phaseTime == 0 && t.progress == 0.0
      && t.totalTime == s.totalTime + CycleTicks(p)
      && (if s.cycle + 1 < p.cycles then t.phase == Inhale && t.active
          else t.phase == Complete && !t.active)
  {
    var i, h, e := 10 * p.inhale, 10 * p.hold, 10 * p.exhale;
    PhaseRunsItsDuration(p, s);
    var s1 := Ticks(p, s, i);
    var s2 := s1;
    if h > 0 {
      PhaseRunsItsDuration(p, s1);
      s2 := Ticks(p, s1, h);
      TicksAdd(p, s, i, h);
    } else {
      assert Ticks(p, s, i + h) == s1;
    }
    assert s2 == Ticks(p, s, i + h) && s2.phase == Exhale && s2.phaseTime == 0;
    assert s2.totalTime == s.totalTime + i + h && s2.cycle == s.cycle && s2.active;
    PhaseRunsItsDuration(p, s2);
    TicksAdd(p, s, i + h, e);
    assert CycleTicks(p) == i + h + e;
  }

  /** The whole session: from Start, after `cycles` full cycles the exercise is
      complete with the cycle counter equal to `cycles`, and not one tick earlier
      than `cycles * (inhale + hold + exhale)` seconds. */
  lemma {:induction false} SessionCompletes(p: Pattern)
    requires WellFormed(p)
    ensures var t := Ticks(p, Started, p.cycles * CycleTicks(p));
      t.phase == Complete && !t.active && t.cycle == p.cycles
      && t.totalTime == p.cycles * CycleTicks(p)
  {
    AfterCycles(p, p.cycles);
  }

  lemma {:induction false} AfterCycles(p: Pattern, k: nat)
    requires WellFormed(p) && 0 < k <= p.cycles
    ensures var t := Ticks(p, Started, k * CycleTicks(p));
      t.cycle == k && t.phaseTime == 0 && t.totalTime == k * CycleTicks(p)
      && (if k < p.cycles then t.phase == Inhale && t.active else t.phase == Complete && !t.active)
    decreases k
  {
    if k == 1 {
      OneCycle(p, Started);
    } else {
      AfterCycles(p, k - 1);
      var s := Ticks(p, Started, (k - 1) * CycleTicks(p));
      OneCycle(p, s);
      TicksAdd(p, Started, (k - 1) * CycleTicks(p), CycleTicks(p));
      assert (k - 1) * CycleTicks(p) + CycleTicks(p) == k * CycleTicks(p);
    }
  }

  /** The 4-7-8 technique: 19 seconds after Start the second cycle's inhale begins. */
  lemma FourSevenEightFirstCycle()
    ensures var t := Ticks(Patterns[0], Started, 190);
      t.phase == Inhale && t.cycle == 1 && t.phaseTime == 0 && t.totalTime == 190 && t.active
  {
    OneCycle(Patterns[0], Started);
  }

  /** Equal breathing has no hold: 4 seconds of inhale lead straight to exhale. */
  lemma EqualBreathingSkipsHold()
    ensures var t := Ticks(Patterns[2], Started, 40);
      t.phase == Exhale && t.cycle == 0 && t.phaseTime == 0 && t.active
  {
    PhaseRunsItsDuration(Patterns[2], Started);
  }

  /** The screen's state, updated in place by the button handlers and the tick. */
  class BreathingExercise {
    var selectedPattern: Pattern
    var currentPhase: Phase
    var currentCycle: nat
    var phaseTime: nat
    var progress: real
    var totalTime: nat
    var isActive: bool

    function Snapshot(): Session
      reads this
    {
      Session(currentPhase, currentCycle, phaseTime, progress, totalTime, isActive)
    }

    ghost predicate Valid()
      reads this
    {
      WellFormed(selectedPattern) && Inv(selectedPattern, Snapshot())
    }

    constructor ()
      ensures Valid() && selectedPattern == Patterns[0] && Snapshot() == Idle
    {
      selectedPattern := Patterns[0];
      currentPhase, currentCycle, phaseTime, progress, totalTime, isActive := Ready, 0, 0, 0.0, 0, false;
    }

    method MoveToNextPhase()
      requires Valid()
      modifies this
      ensures Valid() && selectedPattern == old(selectedPattern)
      ensures Snapshot() == NextPhase(selectedPattern, old(Snapshot()))
    {
      NextPhaseKeepsInv(selectedPattern, Snapshot());
      phaseTime := 0;
      progress := 0.0;
      match currentPhase {
        case Ready =>
          currentPhase := Inhale;
        case Inhale =>
          if selectedPattern.hold > 0 {
            currentPhase := Hold;
          } else {
            currentPhase := Exhale;
          }
        case Hold =>
          currentPhase := Exhale;
        case Exhale =>
          var newCycle := currentCycle + 1;
          if newCycle >= selectedPattern.cycles {
            currentPhase := Complete;
            isActive := false;
          } else {
            currentPhase := Inhale;
          }
          currentCycle := newCycle;
        case Complete =>
      }
    }

    method Tick()
      requires Valid()
      modifies this
      ensures Valid() && selectedPattern == old(selectedPattern)
      ensures Snapshot() == Ticked(selectedPattern, old(Snapshot()))
    {
      if !isActive {
        return;
      }
      TickKeepsInv(selectedPattern, Snapshot());
      totalTime := totalTime + 1;
      var newPhaseTime := phaseTime + 1;
      var duration := PhaseSeconds(selectedPattern, currentPhase);
      if newPhaseTime >= 10 * duration {
        MoveToNextPhase();
      } else {
        progress := (newPhaseTime * 10) as real / duration as real;
        phaseTime := newPhaseTime;
      }
    }

    method StartExercise()
      requires Valid()
      modifies this
      ensures Valid() && selectedPattern == old(selectedPattern) && Snapshot() == Started
    {
      isActive := true;
      currentPhase := Inhale;
      currentCycle := 0;
      phaseTime := 0;
      progress := 0.0;
      totalTime := 0;
    }

    method PauseExercise()
      requires Valid()
      modifies this
      ensures Valid() && selectedPattern == old(selectedPattern)
      ensures Snapshot() == Paused(old(Snapshot()))
    {
      isActive := false;
    }

    method ResumeExercise()
      requires Valid()
      modifies this
      ensures Valid() && selectedPattern == old(selectedPattern)
      ensures Snapshot() == Resumed(old(Snapshot()))
    {
      if currentPhase != Ready && currentPhase != Complete {
        isActive := true;
      }
    }

    method ResetExercise()
      requires WellFormed(selectedPattern)
      modifies this
      ensures Valid() && selectedPattern == old(selectedPattern) && Snapshot() == Idle
    {
      isActive := false;
      currentPhase := Ready;
      currentCycle := 0;
      phaseTime := 0;
      progress := 0.0;
      totalTime := 0;
    }

    /** Choosing a pattern always resets the session. */
    method SelectPattern(p: Pattern)
      requires Valid() && p in Patterns
      modifies this
      ensures Valid() && selectedPattern == p && Snapshot() == Idle
    {
      CatalogWellFormed();
      selectedPattern := p;
      ResetExercise();
    }
  }
}
