/** A connected client owns the edge: Control's runs and the Edge's runs taken together. */
module EdgeOwnership {
  import opened Base
  import opened RelayApi
  import Control
  import opened ControlProofs
  import opened ControlSystem
  import opened SystemTheorems
  import opened EdgePin

  ghost predicate SameOwners(s: Control.ControlState, s': Control.ControlState) {
    s.edges.Keys == s'.edges.Keys && forall d | d in s.edges :: s'.edges[d].owner == s.edges[d].owner
  }

  /** Control's state after the first `k` steps of a run. */
  ghost function At(c: Sys, steps: seq<ControlSystem.Step>, k: nat): Control.ControlState
    requires k <= |steps|
  {
    ControlSystem.Execute(c, steps[..k]).control
  }

  /** Only a change that advances the revision can change who owns an edge; renewals and sweeps do neither. */
  lemma CommitMovesOwnersOpenly(s: Control.ControlState, m: Control.Mutation, clock: int)
    requires Control.Guard(s, m, clock) && Performed(s, m, clock).revision == s.revision
    ensures SameOwners(s, Performed(s, m, clock))
  {
    TombsAfter(s, m, clock);
    EdgesAfter(s, m, clock);
  }

  /** The revision never falls, and while it stands no edge changes hands. */
  ghost predicate Follows(a: Control.ControlState, b: Control.ControlState) {
    a.revision <= b.revision && (a.revision == b.revision ==> SameOwners(a, b))
  }

  lemma FollowsIsTransitive(a: Control.ControlState, b: Control.ControlState, c: Control.ControlState)
    requires Follows(a, b) && Follows(b, c)
    ensures Follows(a, c)
  {}

  lemma StepFollows(z: Sys, step: ControlSystem.Step)
    ensures Follows(z.control, ControlSystem.Next(z, step).control)
  {
    StepAdvances(z, step);
    OnlyCommitsTouchControl(z, step);
    if step.Serve? && step.commits && Effective(z, step.request).Some? {
      var m := Effective(z, step.request).value;
      if Performed(z.control, m, z.clock).revision == z.control.revision {
        CommitMovesOwnersOpenly(z.control, m, z.clock);
      }
    }
  }

  lemma {:induction false} ChainFollows(states: seq<Control.ControlState>, j: nat, k: nat)
    requires j <= k < |states| && forall i | 0 <= i < |states| - 1 :: Follows(states[i], states[i + 1])
    ensures Follows(states[j], states[k])
    decreases k - j
  {
    if j < k {
      ChainFollows(states, j, k - 1);
      assert Follows(states[k - 1], states[k - 1 + 1]);
      FollowsIsTransitive(states[j], states[k - 1], states[k]);
    }
  }

  lemma NextAt(c: Sys, steps: seq<ControlSystem.Step>, k: nat)
    requires k < |steps|
    ensures Follows(At(c, steps, k), At(c, steps, k + 1))
  {
    assert steps[..k + 1][..k] == steps[..k];
    StepFollows(ControlSystem.Execute(c, steps[..k]), steps[k]);
  }

  /** The states of one run that carry the same revision agree on who owns what. */
  lemma RevisionFixesOwners(c: Sys, steps: seq<ControlSystem.Step>, j: nat, k: nat)
    requires j <= k <= |steps|
    ensures At(c, steps, j).revision <= At(c, steps, k).revision
    ensures At(c, steps, j).revision == At(c, steps, k).revision ==> SameOwners(At(c, steps, j), At(c, steps, k))
  {
    var states := seq(|steps| + 1, i requires 0 <= i <= |steps| => At(c, steps, i));
    forall i | 0 <= i < |steps| ensures Follows(states[i], states[i + 1]) { NextAt(c, steps, i); }
    ChainFollows(states, j, k);
  }

  /** A map Control signed for this endpoint at some point of its run. */
  ghost predicate Genuine(c: Sys, steps: seq<ControlSystem.Step>, endpoint: Id, m: Control.NodeMap) {
    exists k :: 0 <= k <= |steps| && Control.MapFor(At(c, steps, k), c.controlId, endpoint) == Some(m)
  }

  lemma AllowedOwns(s: Control.ControlState, controlId: Id, endpoint: Id, m: Control.NodeMap, id: Id)
    requires Control.MapFor(s, controlId, endpoint) == Some(m) && id in AllowedIds(m)
    ensures s.revision == m.revision && endpoint in s.edges && s.edges[endpoint].owner == id
  {}

  /** Whom a genuine map allows owns the edge in every state of the run that carries the map's revision. */
  lemma AllowedIsOwner(c: Sys, steps: seq<ControlSystem.Step>, endpoint: Id, m: Control.NodeMap, id: Id, k: nat)
    requires Genuine(c, steps, endpoint, m) && id in AllowedIds(m)
    requires k <= |steps| && At(c, steps, k).revision == m.revision
    ensures endpoint in At(c, steps, k).edges && At(c, steps, k).edges[endpoint].owner == id
  {
    var j :| 0 <= j <= |steps| && Control.MapFor(At(c, steps, j), c.controlId, endpoint) == Some(m);
    AllowedOwns(At(c, steps, j), c.controlId, endpoint, m, id);
    if j <= k { RevisionFixesOwners(c, steps, j, k); } else { RevisionFixesOwners(c, steps, k, j); }
  }

  lemma {:induction false} ProfileIsGenuine(
    profile: Control.NodeMap, events: seq<Event>, c: Sys, steps: seq<ControlSystem.Step>, endpoint: Id)
    requires Genuine(c, steps, endpoint, profile)
    requires forall k | 0 <= k < |events| && events[k].Offered? && events[k].bound ::
               Genuine(c, steps, endpoint, events[k].next)
    ensures Genuine(c, steps, endpoint, EdgePin.Execute(Started(profile), events).profile)
  {
    if events != [] {
      var init := events[..|events| - 1];
      assert forall k | 0 <= k < |init| :: init[k] == events[k];
      ProfileIsGenuine(profile, init, c, steps, endpoint);
    }
  }

  /**
   * If every map that verifies is one Control signed during its run, renewals included, then whoever is
   * connected to the edge owns it in Control, in every state of that run at the revision the edge has applied.
   */
  lemma ConnectedClientOwnsTheEdge(
    profile: Control.NodeMap, events: seq<Event>, c: Sys, steps: seq<ControlSystem.Step>, endpoint: Id, id: Id, k: nat)
    requires Genuine(c, steps, endpoint, profile)
    requires forall j | 0 <= j < |events| && events[j].Offered? && events[j].bound ::
               Genuine(c, steps, endpoint, events[j].next)
    requires id in EdgePin.Execute(Started(profile), events).pin.connections
    requires k <= |steps| && At(c, steps, k).revision == EdgePin.Execute(Started(profile), events).profile.revision
    ensures endpoint in At(c, steps, k).edges && At(c, steps, k).edges[endpoint].owner == id
  {
    var e := EdgePin.Execute(Started(profile), events);
    OwnershipIsEnforced(profile, events);
    ProfileIsGenuine(profile, events, c, steps, endpoint);
    AllowedIsOwner(c, steps, endpoint, e.profile, id, k);
  }
}
