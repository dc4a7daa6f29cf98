/**
  How a stop cascade ends: it always ends, nothing that requires a fallen service keeps running, and nothing else
  is touched.
  */
module CascadeOutcome {
  import opened ServiceActor
  import opened ActorRuns
  import opened ActorHistory
  import opened Overlord
  import opened Supervision
  import opened SnapshotTracking
  import opened RequiresCascade

  /** Nothing is left to do: all events are heard, all commands answered, all stopped processes gone. */
  ghost predicate AtRest(s: System) {
    && AtLoopHead(s) && s.queue == []
    && forall n :: n in s.actors ==> Idle(s, n) && s.actors[n].state != Stopping
  }

  lemma {:induction false} CascadeKept(s0: System, roots: set<Name>, s: System, steps: seq<Step>)
    requires Falling(s0, roots) && Cascading(s0, roots, s) && CanCascade(s, steps)
    ensures Cascading(s0, roots, AfterCascade(s, steps))
    decreases |steps|
  {
    hide Falling, Cascading, CanStep, TakeStep, CascadeStep;
    if steps != [] {
      StepKeepsCascading(s0, roots, s, steps[0]);
      CascadeKept(s0, roots, TakeStep(s, steps[0]), steps[1..]);
    }
  }

  // ---------------------------------------------------------------------
  // The outcome
  // ---------------------------------------------------------------------

  /** At rest the supervisor's view is the truth, and a service that fell is down for good. */
  lemma RestingSnapshot(s0: System, roots: set<Name>, s: System, n: Name)
    requires Falling(s0, roots) && Cascading(s0, roots, s) && AtRest(s) && n in s.actors
    ensures s.boss.snaps.vals[n] == s.actors[n].state
    ensures || Terminal(s.actors[n].state) || s.actors[n].state == Active
            || (s.actors[n].state == ServiceState.Backoff && n !in roots && s.actors[n] == s0.actors[n])
  {
    hide Reached, StopsReached, DependentsToldToStop, NotRetired, DownFrom, Clean, StateAfter;
    FallingShape(s0, roots);
    assert Winds(s0, roots, s, n);
    assert Follows(s, n);
    assert Idle(s, n);
    assert Project(s.queue, n) == [];
    FollowsMeans(s, n);
  }

  /** Down the chain: each link has fallen. */
  lemma {:induction false} ChainIsDown(s0: System, roots: set<Name>, s: System, path: seq<Name>, k: nat)
    requires Falling(s0, roots) && Cascading(s0, roots, s) && AtRest(s)
    requires Chain(s0, roots, path) && k < |path|
    ensures path[k] in s.actors && path[k] in s0.actors && Terminal(s.actors[path[k]].state)
    ensures Fallen(s0, roots, s, path[k])
    decreases k
  {
    hide Falling, WellFormed, AllFollow, StopsReached, Winds, Requires, Terminal;
    var n := path[k];
    FallingShape(s0, roots);
    if k > 0 {
      ChainIsDown(s0, roots, s, path, k - 1);
      assert Requires(s0.boss.plan, path[k], path[k - 1]) && WasActive(s0, path[k]);
      RestingSnapshot(s0, roots, s, path[k - 1]);
      assert s.actors[n].state == Active ==> (n, Stop) in s.outbox;
    }
    RestingSnapshot(s0, roots, s, n);
    NotRunning(s0, roots, s, n);
  }

  lemma NotRunning(s0: System, roots: set<Name>, s: System, n: Name)
    requires Falling(s0, roots) && Cascading(s0, roots, s) && n in s.actors
    ensures n in s0.actors
    ensures n in roots ==> s.actors[n].state !in {Active, ServiceState.Backoff}
    ensures n !in roots && s.actors[n] != s0.actors[n] ==>
              WasActive(s0, n) && Reached(s0, roots, n) && s.actors[n].state in {Stopping, Inactive}
  {
    hide Orderly, Reached, StopsReached, DependentsToldToStop, DownFrom, AllFollow;
    FallingShape(s0, roots);
    assert Winds(s0, roots, s, n);
  }

  /**
    When the cascade has come to rest, a service runs exactly if it ran before and does not require a fallen one
    through running services; every other service is untouched, and only reached services were sent anything,
    always a Stop.
    */
  lemma CascadeOutcome(s0: System, roots: set<Name>, steps: seq<Step>)
    requires Falling(s0, roots) && CanCascade(s0, steps) && AtRest(AfterCascade(s0, steps))
    ensures var s := AfterCascade(s0, steps);
            && s.actors.Keys == s0.actors.Keys
            && (forall n :: n in s.actors ==>
                  (s.actors[n].state == Active <==> WasActive(s0, n) && !Reached(s0, roots, n)))
            && (forall n :: n in s.actors && !Reached(s0, roots, n) ==> s.actors[n] == s0.actors[n])
            && (forall n :: n in s.actors && n !in roots && Reached(s0, roots, n) ==> s.actors[n].state == Inactive)
            && s0.log <= s.log
            && (forall i :: |s0.log| <= i < |s.log| ==> s.log[i].command == Stop && Reached(s0, roots, s.log[i].name))
  {
    hide Falling, WellFormed, Cascading, AllFollow, DependentsToldToStop, Winds, Reached, CanCascade, AfterCascade,
         AtRest;
    var s := AfterCascade(s0, steps);
    StartsCascading(s0, roots);
    CascadeKept(s0, roots, s0, steps);
    CascadeParts(s0, roots, s);
    forall n | n in s.actors
      ensures s.actors[n].state == Active <==> WasActive(s0, n) && !Reached(s0, roots, n)
      ensures !Reached(s0, roots, n) ==> s.actors[n] == s0.actors[n]
      ensures n !in roots && Reached(s0, roots, n) ==> s.actors[n].state == Inactive
    {
      NotRunning(s0, roots, s, n);
      if Reached(s0, roots, n) {
        ReachedIsDown(s0, roots, s, n);
      } else if n in roots {
        RootsReached(s0, roots, n);
      }
    }
  }

  lemma CascadeParts(s0: System, roots: set<Name>, s: System)
    requires Falling(s0, roots) && Cascading(s0, roots, s)
    ensures WellFormed(s) && WellFormed(s0) && s.actors.Keys == s0.actors.Keys && StopsReached(s0, roots, s)
  {
    hide WellFormed, StopsReached, DependentsToldToStop, AllFollow, Follows, Winds, Orderly;
  }

  lemma ReachedIsDown(s0: System, roots: set<Name>, s: System, n: Name)
    requires Falling(s0, roots) && Cascading(s0, roots, s) && AtRest(s) && Reached(s0, roots, n)
    ensures n in s.actors && Terminal(s.actors[n].state) && (n !in roots ==> s.actors[n].state == Inactive)
  {
    hide Falling, Cascading, AtRest, Requires, WasActive;
    var path :| Chain(s0, roots, path) && path[|path| - 1] == n;
    ChainIsDown(s0, roots, s, path, |path| - 1);
    NotRunning(s0, roots, s, n);
  }
}
