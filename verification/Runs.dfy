/** Runs of a step machine, seen as the worlds they pass through. */
module Runs {
  function Front<T>(s: seq<T>): seq<T>
    requires s != []
  {
    s[..|s| - 1]
  }

  function Last<T>(s: seq<T>): T
    requires s != []
  {
    s[|s| - 1]
  }

  // Named, so that a run is only taken apart where a proof asks for one of its steps.
  function At<T>(s: seq<T>, i: nat): T
    requires i < |s|
  {
    s[i]
  }

  /** `next` relates a world and a step to the world after it. */
  ghost predicate Passes<W, S>(start: W, next: (W, S, W) -> bool, steps: seq<S>, worlds: seq<W>) {
    && |worlds| == |steps| + 1
    && worlds[0] == start
    && forall i: nat {:trigger At(steps, i)} :: i < |steps| ==> next(worlds[i], At(steps, i), worlds[i + 1])
  }

  lemma PassesOn<W, S>(start: W, next: (W, S, W) -> bool, steps: seq<S>, worlds: seq<W>, step: S, world: W)
    requires Passes(start, next, steps, worlds) && next(Last(worlds), step, world)
    ensures Passes(start, next, steps + [step], worlds + [world])
  {
    forall i: nat | i < |steps| + 1
      ensures next((worlds + [world])[i], At(steps + [step], i), (worlds + [world])[i + 1])
    {
      if i < |steps| {
        assert At(steps + [step], i) == At(steps, i);
      }
    }
  }

  lemma PassesBefore<W, S>(start: W, next: (W, S, W) -> bool, steps: seq<S>, worlds: seq<W>)
    requires Passes(start, next, steps, worlds) && steps != []
    ensures Passes(start, next, Front(steps), Front(worlds))
    ensures next(Last(Front(worlds)), Last(steps), Last(worlds))
  {
    assert At(steps, |steps| - 1) == Last(steps);
    forall i: nat | i < |steps| - 1 ensures next(Front(worlds)[i], At(Front(steps), i), Front(worlds)[i + 1]) {
      assert At(Front(steps), i) == At(steps, i);
    }
  }
}
