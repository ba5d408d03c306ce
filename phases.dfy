/** The animation phase machine, `'hero' -> 'transition' -> 'generator'`, as a
    pure transition function over the phase and the transition start time. */
module Phases {
  import opened SpawnSchedule

  datatype Phase = Hero | Transition | Generator

  /** Position of a phase in the one-way progression. */
  function Rank(p: Phase): nat
  {
    match p
    case Hero => 0
    case Transition => 1
    case Generator => 2
  }

  /** The phase together with the time the transition was started. */
  datatype PhaseState = PhaseState(phase: Phase, transitionStart: int)

  /** `startTransition` at time `now`: only the hero phase reacts. */
  function OnStart(s: PhaseState, now: int): (t: PhaseState)
    ensures t.phase != Hero
    ensures s.phase == Hero ==> t.phase == Transition && t.transitionStart == now
    ensures s.phase != Hero ==> t == s
  {
    if s.phase == Hero then PhaseState(Transition, now) else s
  }

  /** The phase change a `draw` frame at time `now` makes. */
  function OnFrame(s: PhaseState, now: int): (t: PhaseState)
    ensures t.transitionStart == s.transitionStart
    ensures t.phase == Generator <==>
              s.phase == Generator || (s.phase == Transition && now - s.transitionStart > TransitionDuration)
    ensures t.phase == Hero <==> s.phase == Hero
  {
    if s.phase == Transition && now - s.transitionStart > TransitionDuration
    then s.(phase := Generator) else s
  }

  /** The inputs that drive the machine: a click on the start button, or an animation frame. */
  datatype Event = Click(at: int) | Tick(at: int)

  function Step(s: PhaseState, e: Event): PhaseState
  {
    match e
    case Click(now) => OnStart(s, now)
    case Tick(now) => OnFrame(s, now)
  }

  function Run(s: PhaseState, es: seq<Event>): PhaseState
    decreases |es|
  {
    if es == [] then s else Run(Step(s, es[0]), es[1..])
  }

  /** How many events of `es` move the machine into the transition phase. */
  function Entries(s: PhaseState, es: seq<Event>): nat
    decreases |es|
  {
    if es == [] then 0
    else (if s.phase == Hero && Step(s, es[0]).phase == Transition then 1 else 0) + Entries(Step(s, es[0]), es[1..])
  }

  /** No sequence of events moves the machine backwards. */
  lemma {:induction false} RunNeverGoesBack(s: PhaseState, es: seq<Event>)
    ensures Rank(s.phase) <= Rank(Run(s, es).phase)
    ensures Run(s, es).phase == Hero ==> s.phase == Hero
    decreases |es|
  {
    if es != [] {
      RunNeverGoesBack(Step(s, es[0]), es[1..]);
    }
  }

  /** The generator phase is terminal: nothing changes once it is reached. */
  lemma {:induction false} GeneratorIsTerminal(s: PhaseState, es: seq<Event>)
    requires s.phase == Generator
    ensures Run(s, es) == s
    decreases |es|
  {
    if es != [] {
      GeneratorIsTerminal(Step(s, es[0]), es[1..]);
    }
  }

  /** However often the start button is clicked, the transition is entered at
      most once, and never from a machine that has left the hero phase. */
  lemma {:induction false} TransitionEnteredAtMostOnce(s: PhaseState, es: seq<Event>)
    ensures Entries(s, es) <= 1
    ensures s.phase != Hero ==> Entries(s, es) == 0
    decreases |es|
  {
    if es != [] {
      var s' := Step(s, es[0]);
      TransitionEnteredAtMostOnce(s', es[1..]);
      if s.phase == Hero && s'.phase == Transition {
        assert s'.phase != Hero;
      }
    }
  }

  /** Once started, the transition start time is fixed for the rest of the run. */
  lemma {:induction false} StartTimeFixed(s: PhaseState, es: seq<Event>)
    requires s.phase != Hero
    ensures Run(s, es).transitionStart == s.transitionStart
    decreases |es|
  {
    if es != [] {
      StartTimeFixed(Step(s, es[0]), es[1..]);
    }
  }
}
