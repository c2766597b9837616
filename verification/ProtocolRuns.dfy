/** Putting runs of the protocol together. */
module ProtocolRuns {
  import opened Basics
  import opened Protocol
  import opened ProtocolInvariant
  import opened ProtocolTheorems

  ghost predicate Goes(s: System, t: System) {
    exists steps :: Run(s, steps, t)
  }

  lemma Stays(s: System)
    ensures Goes(s, s)
  {
    PathNone(StepTo, s, []);
    assert Run(s, [], s);
  }

  lemma Onward(s: System, t: System, u: System)
    requires Goes(s, t) && Goes(t, u)
    ensures Goes(s, u)
  {
    var a :| Run(s, a, t);
    var b :| Run(t, b, u);
    PathAppend(StepTo, s, a, t, b, u);
    assert Run(s, a + b, u);
  }

  lemma Take1(s: System, step: Step) returns (t: System)
    requires Inv(s) && Enabled(s, step)
    ensures t == Next(s, step) && Goes(s, t) && Inv(t)
  {
    t := Next(s, step);
    PathOne(StepTo, s, step, t);
    assert Run(s, [step], t);
    StepKeeps(s, step);
  }

  /** Another step after a run. */
  lemma Then(s: System, t: System, step: Step) returns (u: System)
    requires Inv(t) && Goes(s, t) && Enabled(t, step)
    ensures u == Next(t, step) && Goes(s, u) && Inv(u)
  {
    u := Take1(t, step);
    Onward(s, t, u);
  }

  lemma EndsRemoving(s: System) returns (t: System)
    requires Inv(s) && s.pc.Removing? && s.pc.endpoints == []
    ensures Goes(s, t) && Inv(t) && t.pool == s.pool && t.connections == s.connections
    ensures t.pc == (match s.pc.joining case None => Idle case Some(order) => Connecting(order))
    ensures t.failed == s.failed && t.seen == s.seen
  {
    t := Take1(s, RemoveNext);
  }
}
