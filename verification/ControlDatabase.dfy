/** Control with its database: the database decides whether a request commits, in every run. */
module ControlDatabase {
  import opened Base
  import opened RelayApi
  import Auth = Authorization
  import opened Control
  import opened ControlProofs
  import Sys = ControlSystem
  import SysTheorems = SystemTheorems
  import opened Database
  import opened Schema
  import opened Commits
  import Store

  datatype Backed = Backed(sys: Sys.Sys, tables: Tables)

  /** A restart leaves tables that the startup sweep produced; everything else about Control is a request. */
  datatype Step =
    | Ask(request: Request)
    | Restart(stale: seq<string>, expired: seq<Id>, after: Tables)
    | Elsewhere(step: Sys.Step)

  /** The database's verdict on what a request would commit. */
  ghost predicate Accepts(b: Backed, q: Request) {
    && Sys.Effective(b.sys, q).Some?
    && Database.Commits(b.tables, DeltaOf(b.sys.control, Sys.Effective(b.sys, q).value, b.sys.clock))
  }

  ghost function Swept(c: Sys.Sys, stale: seq<string>, expired: seq<Id>): Sys.Sys {
    Sys.Next(c, Sys.Serve(CleanUp(stale, expired), true))
  }

  /** What `Store.Memory.Recover` promises of a startup that succeeds. */
  ghost predicate Restarts(b: Backed, stale: seq<string>, expired: seq<Id>, after: Tables) {
    && Enumerates(stale, StaleInvites(b.sys.control, b.sys.clock))
    && Enumerates(expired, ExpiredTombs(b.sys.control, b.sys.clock))
    && Load(after) == Store.Swept(b.sys.control, b.sys.clock) && Constraints(after)
  }

  /** The step of Control this amounts to. */
  ghost function Served(b: Backed, step: Step): Sys.Step {
    var idle := Sys.Elsewhere(Auth.Tick(b.sys.clock));
    match step
    case Ask(q) => Sys.Serve(q, Accepts(b, q))
    case Restart(stale, expired, after) =>
      if Restarts(b, stale, expired, after) then Sys.Serve(CleanUp(stale, expired), true) else idle
    case Elsewhere(s) => if s.Serve? then idle else s
  }

  ghost function Next(b: Backed, step: Step): Backed {
    Backed(Sys.Next(b.sys, Served(b, step)),
           match step
           case Ask(q) =>
             if Accepts(b, q)
             then AfterCommit(b.tables, DeltaOf(b.sys.control, Sys.Effective(b.sys, q).value, b.sys.clock))
             else b.tables
           case Restart(stale, expired, after) => if Restarts(b, stale, expired, after) then after else b.tables
           case Elsewhere(_) => b.tables)
  }

  ghost function Execute(b: Backed, steps: seq<Step>): Backed {
    if steps == [] then b else Next(Execute(b, steps[..|steps| - 1]), steps[|steps| - 1])
  }

  ghost function AllServed(b: Backed, steps: seq<Step>): seq<Sys.Step> {
    if steps == [] then []
    else AllServed(b, steps[..|steps| - 1]) + [Served(Execute(b, steps[..|steps| - 1]), steps[|steps| - 1])]
  }

  /** Memory and tables agree, and the tables meet the schema. */
  ghost predicate InStep(b: Backed) {
    Load(b.tables) == b.sys.control && Constraints(b.tables) && b.sys.control.relayRevision > 0
  }

  ghost predicate Initial(b: Backed) { Sys.Initial(b.sys) && Load(b.tables) == b.sys.control && Constraints(b.tables) }

  lemma NothingToSweep(s: ControlState, stale: seq<string>, expired: seq<Id>, now: int)
    requires Enumerates(stale, StaleInvites(s, now)) && Enumerates(expired, ExpiredTombs(s, now))
    requires stale == [] && expired == []
    ensures Store.Swept(s, now) == s
  {
    assert StaleInvites(s, now) == {} && ExpiredTombs(s, now) == {};
    assert s.invites - {} == s.invites && s.tombs - {} == s.tombs;
  }

  lemma CleanUpIsServed(c: Sys.Sys, stale: seq<string>, expired: seq<Id>)
    requires Enumerates(stale, StaleInvites(c.control, c.clock))
    requires Enumerates(expired, ExpiredTombs(c.control, c.clock))
    ensures Sys.Effective(c, CleanUp(stale, expired)) ==
            if stale == [] && expired == [] then None else Some(Sweep(stale, expired))
  {}

  /** The startup sweep is one clean-up request. */
  lemma StartupIsCleanUp(c: Sys.Sys, stale: seq<string>, expired: seq<Id>)
    requires Enumerates(stale, StaleInvites(c.control, c.clock))
    requires Enumerates(expired, ExpiredTombs(c.control, c.clock))
    ensures Swept(c, stale, expired).control == Store.Swept(c.control, c.clock)
  {
    CleanUpIsServed(c, stale, expired);
    Sys.OnlyCommitsTouchControl(c, Sys.Serve(CleanUp(stale, expired), true));
    if stale == [] && expired == [] {
      NothingToSweep(c.control, stale, expired, c.clock);
    } else {
      SweepEffect(c.control, stale, expired, c.clock);
    }
  }

  lemma OthersLeaveControl(c: Sys.Sys, step: Sys.Step)
    requires !step.Serve? || !step.commits || Sys.Effective(c, step.request).None?
    ensures Sys.Next(c, step).control == c.control
  {
    Sys.OnlyCommitsTouchControl(c, step);
  }

  lemma AskKeepsInStep(b: Backed, q: Request)
    requires InStep(b)
    ensures InStep(Next(b, Ask(q)))
  {
    var step := Sys.Serve(q, Accepts(b, q));
    SysTheorems.StepAdvances(b.sys, step);
    if Accepts(b, q) {
      var m := Sys.Effective(b.sys, q).value;
      Sys.OnlyCommitsTouchControl(b.sys, step);
      CommitLoads(b.tables, DeltaOf(b.sys.control, m, b.sys.clock));
      CommitKeepsConstraints(b.tables, DeltaOf(b.sys.control, m, b.sys.clock));
    } else {
      OthersLeaveControl(b.sys, step);
    }
  }

  lemma StepKeepsInStep(b: Backed, step: Step)
    requires InStep(b)
    ensures InStep(Next(b, step))
  {
    match step
    case Ask(q) => AskKeepsInStep(b, q);
    case Restart(stale, expired, after) =>
      SysTheorems.StepAdvances(b.sys, Served(b, step));
      if Restarts(b, stale, expired, after) {
        StartupIsCleanUp(b.sys, stale, expired);
      } else {
        OthersLeaveControl(b.sys, Served(b, step));
      }
    case Elsewhere(_) => OthersLeaveControl(b.sys, Served(b, step));
  }

  /**
   * In every run, whatever is asked and however often Control restarts, the tables load to Control's state
   * and meet the schema; and the run is one of Control's own, so that all that is proved of those holds.
   */
  lemma {:induction false} TablesFollowControl(b: Backed, steps: seq<Step>)
    requires Initial(b)
    ensures InStep(Execute(b, steps))
    ensures Execute(b, steps).sys == Sys.Execute(b.sys, AllServed(b, steps))
  {
    if steps != [] {
      var init := steps[..|steps| - 1];
      TablesFollowControl(b, init);
      StepKeepsInStep(Execute(b, init), steps[|steps| - 1]);
      assert AllServed(b, steps)[..|AllServed(b, steps)| - 1] == AllServed(b, init);
    }
  }

  /** What a request must be like for the handlers to decide on it here and now. */
  ghost predicate Decided(b: Backed, q: Request) {
    && RequestOk(b.sys.control, q, b.sys.clock) && PortFits(q) && (Invites(q) ==> q.freshId !in b.sys.used)
    && Plan(b.sys.control, b.sys.controlId, q, b.sys.clock).Do?
    && b.sys.control.revision < I64_MAX && b.sys.control.relayRevision < I64_MAX && b.sys.clock < I64_MAX
  }

  lemma AcceptsExactly(b: Backed, q: Request)
    requires InStep(b) && Decided(b, q)
    ensures Sys.Effective(b.sys, q) == Some(Plan(b.sys.control, b.sys.controlId, q, b.sys.clock).mutation)
    ensures Accepts(b, q) <==> !Orphaned(b.sys.control, q) && !Collides(b.sys.control, q)
  {
    RefusedExactly(b.tables, b.sys.controlId, q, b.sys.clock);
  }

  /**
   * In every reachable state, a request the handlers decide to carry out is committed if and only if it
   * writes no orphaned edge invitation and no request id that is already on record.
   */
  lemma RequestsCommitExactly(b: Backed, steps: seq<Step>, q: Request)
    requires Initial(b) && Decided(Execute(b, steps), q)
    ensures var z := Execute(b, steps);
            Accepts(z, q) <==> !Orphaned(z.sys.control, q) && !Collides(z.sys.control, q)
  {
    TablesFollowControl(b, steps);
    AcceptsExactly(Execute(b, steps), q);
  }
}
