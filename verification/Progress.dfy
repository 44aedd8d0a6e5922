/**
 The module progression of `src/App.tsx`: which module is shown, which are
 unlocked and which have been completed, driven by the complete, next and
 select handlers. Each handler is one transition; React's batching of two
 handlers fired by the same click is not modelled.
 */
module Progress {

  /** The persisted progress record (`types/module.ts`). */
  datatype UserProgress = UserProgress(completedModules: seq<int>, currentModule: int, unlockedModules: seq<int>)

  /** The app's two pieces of state: the progress record and the module on screen. */
  datatype AppState = AppState(userProgress: UserProgress, currentModule: int)

  /** A user action reaching one of the three handlers. */
  datatype Event = Complete | Next | Select(moduleId: int)

  /** Module 0 shown, only module 0 unlocked, nothing completed. */
  function Initial(): (s: AppState)
    ensures Invariant(s)
    ensures forall m :: m in s.userProgress.unlockedModules <==> m == 0
    ensures |s.userProgress.completedModules| == 0 && s.currentModule == 0
  {
    AppState(UserProgress([], 0, [0]), 0)
  }

  /** `handleModuleComplete`: record the current module and unlock the one after it. */
  function HandleModuleComplete(s: AppState): (t: AppState)
    ensures t.currentModule == s.currentModule
    ensures t.userProgress.currentModule == s.userProgress.currentModule
    ensures t.userProgress.completedModules == s.userProgress.completedModules + [s.currentModule]
    ensures s.userProgress.unlockedModules <= t.userProgress.unlockedModules
    ensures forall m :: m in t.userProgress.unlockedModules <==>
      m in s.userProgress.unlockedModules || m == s.currentModule + 1
    ensures |t.userProgress.unlockedModules| <= |s.userProgress.unlockedModules| + 1
    ensures s.currentModule + 1 in s.userProgress.unlockedModules ==>
      t.userProgress.unlockedModules == s.userProgress.unlockedModules
  {
    var p := s.userProgress;
    var unlocked := if s.currentModule + 1 in p.unlockedModules then p.unlockedModules
                    else p.unlockedModules + [s.currentModule + 1];
    s.(userProgress := p.(completedModules := p.completedModules + [s.currentModule], unlockedModules := unlocked))
  }

  /** The module "next" leads to: 0 after the last module (1), otherwise the following one. */
  function NextTarget(current: int): int {
    if current == 1 then 0 else current + 1
  }

  /** `handleNextModule`: move to the next module only if it is unlocked. */
  function HandleNextModule(s: AppState): (t: AppState)
    ensures t.userProgress == s.userProgress
    ensures NextTarget(s.currentModule) in s.userProgress.unlockedModules ==> t.currentModule == NextTarget(s.currentModule)
    ensures NextTarget(s.currentModule) !in s.userProgress.unlockedModules ==> t == s
  {
    var target := NextTarget(s.currentModule);
    if target in s.userProgress.unlockedModules then s.(currentModule := target) else s
  }

  /** `handleModuleSelect`: jump to `moduleId` only if it is unlocked. */
  function HandleModuleSelect(s: AppState, moduleId: int): (t: AppState)
    ensures t.userProgress == s.userProgress
    ensures moduleId in s.userProgress.unlockedModules ==> t.currentModule == moduleId
    ensures moduleId !in s.userProgress.unlockedModules ==> t == s
  {
    if moduleId in s.userProgress.unlockedModules then s.(currentModule := moduleId) else s
  }

  function Step(s: AppState, e: Event): AppState {
    match e
    case Complete => HandleModuleComplete(s)
    case Next => HandleNextModule(s)
    case Select(m) => HandleModuleSelect(s, m)
  }

  /** The state after the events of `es`, handled one after another. */
  function Run(s: AppState, es: seq<Event>): AppState
    decreases |es|
  {
    if |es| == 0 then s else Run(Step(s, es[0]), es[1..])
  }

  predicate NoDuplicates(xs: seq<int>) {
    forall i, j :: 0 <= i < j < |xs| ==> xs[i] != xs[j]
  }

  /**
   What every reachable state satisfies: the module on screen is unlocked,
   module 0 stays unlocked, the unlocked list has no repeats, every completed
   module is unlocked, every unlocked module other than 0 follows a completed
   one, and the progress record's own `currentModule` is never written.
   */
  ghost predicate Invariant(s: AppState) {
    && s.currentModule in s.userProgress.unlockedModules
    && 0 in s.userProgress.unlockedModules
    && NoDuplicates(s.userProgress.unlockedModules)
    && (forall m :: m in s.userProgress.completedModules ==> m in s.userProgress.unlockedModules)
    && (forall m :: m in s.userProgress.unlockedModules && m != 0 ==> m - 1 in s.userProgress.completedModules)
    && s.userProgress.currentModule == 0
  }

  /** Every handler preserves the invariant. */
  lemma StepPreservesInvariant(s: AppState, e: Event)
    requires Invariant(s)
    ensures Invariant(Step(s, e))
  {
    if e.Complete? {
      var t := Step(s, e);
      var u := s.userProgress.unlockedModules;
      var c := s.currentModule + 1;
      if c !in u {
        assert t.userProgress.unlockedModules == u + [c];
        forall i, j | 0 <= i < j < |u + [c]|
          ensures (u + [c])[i] != (u + [c])[j]
        {
          if j == |u| {
            assert (u + [c])[i] == u[i];
          }
        }
      }
    }
  }

  /** The invariant holds after any sequence of transitions from a state satisfying it. */
  lemma {:induction false} RunPreservesInvariant(s: AppState, es: seq<Event>)
    requires Invariant(s)
    ensures Invariant(Run(s, es))
    decreases |es|
  {
    if |es| > 0 {
      StepPreservesInvariant(s, es[0]);
      RunPreservesInvariant(Step(s, es[0]), es[1..]);
    }
  }

  /** From the initial state, the module on screen is always an unlocked one. */
  lemma ReachableStatesShowUnlockedModules(es: seq<Event>)
    ensures Run(Initial(), es).currentModule in Run(Initial(), es).userProgress.unlockedModules
    ensures NoDuplicates(Run(Initial(), es).userProgress.unlockedModules)
  {
    RunPreservesInvariant(Initial(), es);
  }

  /** The unlocked list only grows: the old list is always a prefix of the new one. */
  lemma {:induction false} UnlockedOnlyGrows(s: AppState, es: seq<Event>)
    ensures s.userProgress.unlockedModules <= Run(s, es).userProgress.unlockedModules
    ensures s.userProgress.completedModules <= Run(s, es).userProgress.completedModules
    decreases |es|
  {
    if |es| > 0 {
      UnlockedOnlyGrows(Step(s, es[0]), es[1..]);
    }
  }

  /** Completing the same module twice records it twice. */
  lemma CompletionsAreNotDeduplicated()
    ensures Run(Initial(), [Complete, Complete]).userProgress.completedModules == [0, 0]
    ensures Run(Initial(), [Complete, Complete]).userProgress.unlockedModules == [0, 1]
  {
  }

  /** Completing module 0 and then, as a separate transition, pressing next shows module 1; next again wraps to 0. */
  lemma CompleteThenNextAdvances()
    ensures Run(Initial(), [Complete, Next]).currentModule == 1
    ensures Run(Initial(), [Complete, Next, Next]).currentModule == 0
  {
  }
}
