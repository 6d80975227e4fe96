/** Configurations reached by some run, and how a step leads from one to the next: what the
    concrete runs are built from. */
module Reaching {
  import opened RaftTypes
  import opened RaftSteps
  import opened Cluster

  ghost predicate Reachable(n: nat, c: Config) {
    exists trace, steps :: Run(n, trace, steps) && trace[|steps|] == c
  }

  ghost predicate CleanlyReachable(n: nat, c: Config) {
    exists trace, steps :: CleanRun(n, trace, steps) && trace[|steps|] == c
  }

  lemma StartIsReachable(n: nat)
    ensures Reachable(n, Init(n)) && CleanlyReachable(n, Init(n)) && CleanConfig(Init(n))
  {
    assert Run(n, [Init(n)], []) && CleanRun(n, [Init(n)], []);
  }

  /** A run that goes on by one step. */
  lemma LongerRun(n: nat, trace: seq<Config>, steps: seq<Step>, st: Step)
    requires Run(n, trace, steps) && Enabled(trace[|steps|], st)
    ensures Run(n, trace + [Next(trace[|steps|], st)], steps + [st])
  {
    var longer, more := trace + [Next(trace[|steps|], st)], steps + [st];
    forall k | 0 <= k < |more|
      ensures Enabled(longer[k], more[k]) && longer[k + 1] == Next(longer[k], more[k])
    {
      if k < |steps| {
        assert longer[k] == trace[k] && longer[k + 1] == trace[k + 1] && more[k] == steps[k];
      }
    }
  }

  lemma LongerCleanRun(n: nat, trace: seq<Config>, steps: seq<Step>, st: Step)
    requires CleanRun(n, trace, steps) && Enabled(trace[|steps|], st)
    requires CleanStep(trace[|steps|], st) && CleanConfig(Next(trace[|steps|], st))
    ensures CleanRun(n, trace + [Next(trace[|steps|], st)], steps + [st])
  {
    LongerRun(n, trace, steps, st);
    var longer, more := trace + [Next(trace[|steps|], st)], steps + [st];
    forall k | 0 <= k < |longer|
      ensures CleanConfig(longer[k]) && (k < |more| ==> CleanStep(longer[k], more[k]))
    {
      assert k < |trace| ==> longer[k] == trace[k];
      assert k < |steps| ==> more[k] == steps[k];
    }
  }

  lemma OneStepOn(n: nat, c: Config, st: Step)
    requires Reachable(n, c) && Enabled(c, st)
    ensures Reachable(n, Next(c, st))
  {
    var trace, steps :| Run(n, trace, steps) && trace[|steps|] == c;
    LongerRun(n, trace, steps, st);
    assert (trace + [Next(c, st)])[|steps + [st]|] == Next(c, st);
  }

  lemma OneCleanStepOn(n: nat, c: Config, st: Step)
    requires CleanlyReachable(n, c) && Enabled(c, st) && CleanStep(c, st) && CleanConfig(Next(c, st))
    ensures CleanlyReachable(n, Next(c, st))
  {
    var trace, steps :| CleanRun(n, trace, steps) && trace[|steps|] == c;
    LongerCleanRun(n, trace, steps, st);
    assert (trace + [Next(c, st)])[|steps + [st]|] == Next(c, st);
  }

  /** A step, and what it does to servers and network. */
  lemma Take(n: nat, c: Config, st: Step, t: Server) returns (d: Config)
    requires Reachable(n, c) && Enabled(c, st) && t == Handle(c.servers[st.at], st.at, st.event)
    ensures d == Next(c, st) && Reachable(n, d)
    ensures d.servers == c.servers[st.at := t] && d.net == c.net + Sends(c, st)
  {
    d := Next(c, st);
    OneStepOn(n, c, st);
  }

  /** A clean step, and what it does to the parts of the configuration the runs look at. */
  lemma TakeClean(n: nat, c: Config, st: Step, t: Server) returns (d: Config)
    requires CleanlyReachable(n, c) && CleanConfig(c) && Enabled(c, st) && CleanStep(c, st)
    requires t == Handle(c.servers[st.at], st.at, st.event)
    requires t.isLeader ==> Win(t.currentTerm, st.at) in c.wins || (Winning(c, st) && st.event.term == t.currentTerm)
    ensures d == Next(c, st) && CleanlyReachable(n, d) && CleanConfig(d)
    ensures d.servers == c.servers[st.at := t] && d.net == c.net + Sends(c, st)
    ensures d.wins == if Winning(c, st) then c.wins + {Win(st.event.term, st.at)} else c.wins
  {
    d := Next(c, st);
    OneCleanStepOn(n, c, st);
  }
}
