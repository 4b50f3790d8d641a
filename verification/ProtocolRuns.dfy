/** The invariant of every reachable state, and how runs compose. */
module ProtocolRuns {
  import opened Common
  import opened Protocol
  import opened ProtocolLife
  import opened ProtocolLock
  import opened ProtocolFlow
  import opened ProtocolShape
  import opened ProtocolCount
  import opened ProtocolOpening

  ghost predicate Inv(c: Config, s: State) {
    LifeInv(s) && LockInv(s) && FlowInv(c, s) && ShapeInv(s) && CountInv(c, s) && OpeningInv(s)
  }

  lemma InitInv(c: Config)
    ensures Inv(c, INIT)
  {
    hide LifeInv, FlowInv, CountInv;
    InitCounts(c);
    InitLife();
    InitFlow(c);
    assert forall x: Sender :: IoOf(INIT, x) == Rest;
  }

  lemma InitLife()
    ensures LifeInv(INIT)
  {
  }

  lemma InitFlow(c: Config)
    ensures FlowInv(c, INIT)
  {
  }

  lemma InitCounts(c: Config)
    ensures CountInv(c, INIT)
  {
    assert forall x: Sender :: Claimed(INIT, x) == 0;
  }

  lemma StepInv(c: Config, s: State, a: Action)
    requires Inv(c, s) && Can(c, s, a)
    ensures Inv(c, Do(c, s, a))
  {
    assert s.core.stream.Some? ==> s.core.stream.value < |s.wire|;
    hide LifeInv, LockInv, FlowInv, ShapeInv, CountInv, OpeningInv;
    LifeKept(c, s, a);
    LockKept(c, s, a);
    FlowKept(c, s, a);
    ShapeKept(c, s, a);
    CountKept(c, s, a);
    OpeningKept(c, s, a);
  }

  lemma {:induction false} RunInv(c: Config, s: State, acts: seq<Action>, t: State)
    requires Inv(c, s) && Runs(c, s, acts, t)
    ensures Inv(c, t)
    decreases |acts|
  {
    hide Inv;
    if acts != [] {
      StepInv(c, s, acts[0]);
      RunInv(c, Do(c, s, acts[0]), acts[1..], t);
    }
  }

  lemma ReachableInv(c: Config, s: State)
    requires Reachable(c, s)
    ensures Inv(c, s)
  {
    hide Inv, Can, Do;
    var acts :| Runs(c, INIT, acts, s);
    InitInv(c);
    RunInv(c, INIT, acts, s);
  }

  /** One more step at the end of a run. */
  lemma {:induction false} RunPush(c: Config, s: State, acts: seq<Action>, t: State, a: Action)
    requires Runs(c, s, acts, t) && Can(c, t, a)
    ensures Runs(c, s, acts + [a], Do(c, t, a))
    decreases |acts|
  {
    hide Can, Do;
    if acts == [] {
      assert [a][1..] == [];
      assert acts + [a] == [a];
    } else {
      assert (acts + [a])[1..] == acts[1..] + [a];
      RunPush(c, Do(c, s, acts[0]), acts[1..], t, a);
    }
  }

  // ----- short runs

  lemma RunTwo(c: Config, s: State, a: Action, s1: State, a1: Action, t: State)
    requires Can(c, s, a) && s1 == Do(c, s, a) && Can(c, s1, a1) && t == Do(c, s1, a1)
    ensures Runs(c, s, [a], s1) && Runs(c, s, [a, a1], t)
  {
    hide Can, Do;
    assert [a][1..] == [] && [a1][1..] == [] && [a, a1][1..] == [a1];
    assert Runs(c, s1, [], s1) && Runs(c, t, [], t);
    assert Runs(c, s1, [a1], t);
  }

  lemma RunThree(c: Config, s: State, a: Action, s1: State, a1: Action, s2: State, a2: Action, t: State)
    requires Can(c, s, a) && s1 == Do(c, s, a) && Can(c, s1, a1) && s2 == Do(c, s1, a1)
    requires Can(c, s2, a2) && t == Do(c, s2, a2)
    ensures Runs(c, s, [a, a1, a2], t)
  {
    hide Can, Do;
    RunTwo(c, s1, a1, s2, a2, t);
    assert [a, a1, a2][1..] == [a1, a2];
  }

  /** A run continued by another. */
  lemma {:induction false} RunsJoin(c: Config, s: State, acts: seq<Action>, t: State, acts': seq<Action>, u: State)
    requires Runs(c, s, acts, t) && Runs(c, t, acts', u)
    ensures Runs(c, s, acts + acts', u)
    decreases |acts|
  {
    hide Can, Do;
    if acts == [] {
      assert acts + acts' == acts';
    } else {
      assert (acts + acts')[1..] == acts[1..] + acts';
      RunsJoin(c, Do(c, s, acts[0]), acts[1..], t, acts', u);
    }
  }
}
