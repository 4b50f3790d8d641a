/** The refresh, blocklist and session parts of the invariant, and the invariant along runs. */
module AuthInvariants {
  import opened Common
  import opened Keys
  import opened RedisDb
  import opened Stores
  import opened Tokens
  import opened AuthSystem

  // ----- refresh tokens

  lemma SaveKeepsRefresh(cfg: Params, s: State, p: nat)
    requires RefreshInv(cfg, s) && Can(cfg, s, SavePair(p))
    ensures RefreshInv(cfg, Do(cfg, s, SavePair(p)))
  {
    hide Render;
    var t := Do(cfg, s, SavePair(p));
    var x := s.pairs[p];
    OneKey(cfg, s, SavePair(p));
    forall q | 0 <= q < |t.pairs| ensures RefreshKey(cfg, t.db, t.pairs[q]) {
      assert RefreshKey(cfg, s.db, s.pairs[q]);
    }
    forall id: string | Render(Refresh(id)) in t.db ensures exists q :: 0 <= q < |t.pairs| && t.pairs[q].refreshId == id {
      if id == x.refreshId {
        assert t.pairs[p].refreshId == id;
      } else {
        var q :| 0 <= q < |s.pairs| && s.pairs[q].refreshId == id;
        assert t.pairs[q].refreshId == id;
      }
    }
    PairsKeepRecords(cfg, s, t, p);
  }

  /** Checks and redemptions stay good when one pair changes only by being saved, taken or blocked. */
  lemma PairsKeepRecords(cfg: Params, s: State, t: State, p: nat)
    requires RefreshInv(cfg, s) && p < |s.pairs| && |t.pairs| == |s.pairs| && s.now <= t.now
    requires t.pairs == s.pairs[p := s.pairs[p].(saved := t.pairs[p].saved, taken := t.pairs[p].taken,
                                                 blocked := t.pairs[p].blocked)]
    requires s.pairs[p].taken ==> t.pairs[p].taken
    requires s.pairs[p].saved.Some? ==> t.pairs[p].saved == s.pairs[p].saved
    ensures forall k :: 0 <= k < |s.checks| ==> CheckOk(cfg, t, s.checks[k])
    ensures forall r :: 0 <= r < |s.redeemed| ==> RedemptionOk(cfg, t, s.redeemed[r])
  {
    forall k | 0 <= k < |s.checks| ensures CheckOk(cfg, t, s.checks[k]) {
      assert CheckOk(cfg, s, s.checks[k]);
    }
    forall r | 0 <= r < |s.redeemed| ensures RedemptionOk(cfg, t, s.redeemed[r]) {
      assert RedemptionOk(cfg, s, s.redeemed[r]);
    }
  }

  /** The key is there: it is removed, its metadata agrees with the claims, and the pair is redeemed. */
  lemma HitIsRedeemed(cfg: Params, s: State, k: nat)
    requires RefreshInv(cfg, s) && Can(cfg, s, TakeRefresh(k))
    requires Lookup(s.db, s.now, Render(Refresh(s.pairs[s.checks[k].pair].refreshId))).Some?
    ensures var p := s.checks[k].pair;
            && s.pairs[p].saved.Some? && !s.pairs[p].taken && s.now < s.pairs[p].saved.value + cfg.refreshTtl
            && Do(cfg, s, TakeRefresh(k)) ==
               s.(checks := s.checks[k := s.checks[k].(open := false)],
                  db := Del(s.db, Render(Refresh(s.pairs[p].refreshId))),
                  pairs := s.pairs[p := s.pairs[p].(taken := true)],
                  redeemed := s.redeemed + [Redemption(p, s.checks[k].at, s.now)])
  {
    hide Render;
    assert RefreshKey(cfg, s.db, s.pairs[s.checks[k].pair]);
  }

  /** The key of a taken pair is gone, and the others' are as they were. */
  lemma TakenKeepsKeys(cfg: Params, s: State, p: nat, db: Db, t: State)
    requires RefreshInv(cfg, s) && p < |s.pairs| && s.pairs[p].saved.Some?
    requires ElsewhereSame(s.db, db, Refresh(s.pairs[p].refreshId)) && Render(Refresh(s.pairs[p].refreshId)) !in db
    requires t.db == db && t.pairs == s.pairs[p := s.pairs[p].(taken := true)]
    ensures forall q {:trigger t.pairs[q]} :: 0 <= q < |t.pairs| ==> RefreshKey(cfg, t.db, t.pairs[q])
    ensures forall id: string {:trigger Render(Refresh(id))} :: Render(Refresh(id)) in t.db ==>
              exists q :: 0 <= q < |t.pairs| && t.pairs[q].refreshId == id
  {
    hide Render;
    forall q | 0 <= q < |t.pairs| ensures RefreshKey(cfg, t.db, t.pairs[q]) {
      assert RefreshKey(cfg, s.db, s.pairs[q]);
    }
    forall id: string | Render(Refresh(id)) in t.db ensures exists q :: 0 <= q < |t.pairs| && t.pairs[q].refreshId == id {
      assert Render(Refresh(id)) in s.db;
      var q :| 0 <= q < |s.pairs| && s.pairs[q].refreshId == id;
      assert t.pairs[q].refreshId == id;
    }
  }

  lemma RedeemKeepsRefresh(cfg: Params, s: State, k: nat, p: nat, db: Db, t: State)
    requires RefreshInv(cfg, s) && k < |s.checks| && p == s.checks[k].pair && p < |s.pairs|
    requires s.pairs[p].saved.Some? && !s.pairs[p].taken && s.now < s.pairs[p].saved.value + cfg.refreshTtl
    requires ElsewhereSame(s.db, db, Refresh(s.pairs[p].refreshId)) && Render(Refresh(s.pairs[p].refreshId)) !in db
    requires t == s.(checks := s.checks[k := s.checks[k].(open := false)], db := db,
                     pairs := s.pairs[p := s.pairs[p].(taken := true)],
                     redeemed := s.redeemed + [Redemption(p, s.checks[k].at, s.now)])
    ensures RefreshInv(cfg, t)
  {
    hide Render;
    PairsKeepRecords(cfg, s, t, p);
    TakenKeepsKeys(cfg, s, p, db, t);
    assert CheckOk(cfg, s, s.checks[k]);
    forall r | 0 <= r < |s.redeemed| ensures RedemptionOk(cfg, s, s.redeemed[r]) {
    }
    hide RefreshKey;
  }

  lemma TakeKeepsRefresh(cfg: Params, s: State, k: nat)
    requires RefreshInv(cfg, s) && Can(cfg, s, TakeRefresh(k))
    ensures RefreshInv(cfg, Do(cfg, s, TakeRefresh(k)))
  {
    hide Render;
    if Lookup(s.db, s.now, Render(Refresh(s.pairs[s.checks[k].pair].refreshId))).Some? {
      HitIsRedeemed(cfg, s, k);
      OneKey(cfg, s, TakeRefresh(k));
      RedeemKeepsRefresh(cfg, s, k, s.checks[k].pair, Do(cfg, s, TakeRefresh(k)).db, Do(cfg, s, TakeRefresh(k)));
    } else {
      var t := Do(cfg, s, TakeRefresh(k));
      forall i | 0 <= i < |t.checks| ensures CheckOk(cfg, t, t.checks[i]) {
        assert CheckOk(cfg, s, s.checks[i]);
      }
      forall r | 0 <= r < |t.redeemed| ensures RedemptionOk(cfg, t, t.redeemed[r]) {
        assert RedemptionOk(cfg, s, s.redeemed[r]);
      }
    }
  }

  lemma IssueKeepsRefresh(cfg: Params, s: State, a: Action)
    requires RefreshInv(cfg, s) && Can(cfg, s, a) && a.Issue?
    ensures RefreshInv(cfg, Do(cfg, s, a))
  {
    var t := Do(cfg, s, a);
    forall q | 0 <= q < |t.pairs| ensures RefreshKey(cfg, t.db, t.pairs[q]) {
      if q < |s.pairs| {
        assert RefreshKey(cfg, s.db, s.pairs[q]);
      } else {
        assert Render(Refresh(a.refreshId)) !in s.db;
      }
    }
    forall id: string | Render(Refresh(id)) in t.db ensures exists q :: 0 <= q < |t.pairs| && t.pairs[q].refreshId == id {
      var q :| 0 <= q < |s.pairs| && s.pairs[q].refreshId == id;
      assert t.pairs[q].refreshId == id;
    }
    forall k | 0 <= k < |t.checks| ensures CheckOk(cfg, t, t.checks[k]) {
      assert CheckOk(cfg, s, s.checks[k]);
    }
    forall r | 0 <= r < |t.redeemed| ensures RedemptionOk(cfg, t, t.redeemed[r]) {
      assert RedemptionOk(cfg, s, s.redeemed[r]);
    }
  }

  lemma CheckKeepsRefresh(cfg: Params, s: State, p: nat)
    requires RefreshInv(cfg, s) && Can(cfg, s, CheckRefresh(p))
    ensures RefreshInv(cfg, Do(cfg, s, CheckRefresh(p)))
  {
    var t := Do(cfg, s, CheckRefresh(p));
    forall k | 0 <= k < |t.checks| ensures CheckOk(cfg, t, t.checks[k]) {
      if k < |s.checks| {
        assert CheckOk(cfg, s, s.checks[k]);
      }
    }
    forall r | 0 <= r < |t.redeemed| ensures RedemptionOk(cfg, t, t.redeemed[r]) {
      assert RedemptionOk(cfg, s, s.redeemed[r]);
    }
  }

  /** A step elsewhere: refresh keys and the pairs' refresh fields are untouched. */
  lemma OthersKeepRefresh(cfg: Params, s: State, t: State, k: StoreKey)
    requires RefreshInv(cfg, s) && ElsewhereSame(s.db, t.db, k) && (k.Refresh? ==> t.db == s.db)
    requires t.checks == s.checks && t.redeemed == s.redeemed && t.mismatches == s.mismatches && s.now <= t.now
    requires |t.pairs| == |s.pairs|
    requires forall p {:trigger t.pairs[p]} :: 0 <= p < |s.pairs| ==>
               t.pairs[p] == s.pairs[p].(blocked := t.pairs[p].blocked)
    ensures RefreshInv(cfg, t)
  {
    forall q | 0 <= q < |t.pairs| ensures RefreshKey(cfg, t.db, t.pairs[q]) {
      assert RefreshKey(cfg, s.db, s.pairs[q]);
    }
    forall id: string | Render(Refresh(id)) in t.db ensures exists q :: 0 <= q < |t.pairs| && t.pairs[q].refreshId == id {
      assert Render(Refresh(id)) in s.db;
      var q :| 0 <= q < |s.pairs| && s.pairs[q].refreshId == id;
      assert t.pairs[q].refreshId == id;
    }
    forall i | 0 <= i < |t.checks| ensures CheckOk(cfg, t, t.checks[i]) {
      assert CheckOk(cfg, s, s.checks[i]);
    }
    forall r | 0 <= r < |t.redeemed| ensures RedemptionOk(cfg, t, t.redeemed[r]) {
      assert RedemptionOk(cfg, s, s.redeemed[r]);
    }
  }

  lemma RefreshKept(cfg: Params, s: State, a: Action)
    requires RefreshInv(cfg, s) && Can(cfg, s, a)
    ensures RefreshInv(cfg, Do(cfg, s, a))
  {
    if a.SavePair? {
      SaveKeepsRefresh(cfg, s, a.pair);
    } else if a.TakeRefresh? {
      TakeKeepsRefresh(cfg, s, a.check);
    } else if a.Issue? {
      IssueKeepsRefresh(cfg, s, a);
    } else if a.CheckRefresh? {
      CheckKeepsRefresh(cfg, s, a.pair);
    } else {
      OneKey(cfg, s, a);
      OthersKeepRefresh(cfg, s, Do(cfg, s, a), KeyOf(s, a));
    }
  }

  // ----- revocations

  lemma WriteKeepsBlock(cfg: Params, s: State, m: nat)
    requires BlockInv(s) && Can(cfg, s, WriteRevoke(m))
    ensures BlockInv(Do(cfg, s, WriteRevoke(m)))
  {
    var t := Do(cfg, s, WriteRevoke(m));
    var p := s.measures[m].pair;
    OneKey(cfg, s, WriteRevoke(m));
    assert MeasureOk(s, s.measures[m]);
    forall q | 0 <= q < |t.pairs| ensures BlockKey(t.db, t.pairs[q]) {
      assert BlockKey(s.db, s.pairs[q]);
    }
    forall id: string | Render(Block(id)) in t.db ensures exists q :: 0 <= q < |t.pairs| && t.pairs[q].accessId == id {
      if id == s.pairs[p].accessId {
        assert t.pairs[p].accessId == id;
      } else {
        var q :| 0 <= q < |s.pairs| && s.pairs[q].accessId == id;
        assert t.pairs[q].accessId == id;
      }
    }
    forall i | 0 <= i < |t.measures| ensures MeasureOk(t, t.measures[i]) {
      assert MeasureOk(s, s.measures[i]);
    }
  }

  lemma IssueKeepsBlock(cfg: Params, s: State, a: Action)
    requires BlockInv(s) && Can(cfg, s, a) && a.Issue?
    ensures BlockInv(Do(cfg, s, a))
  {
    var t := Do(cfg, s, a);
    forall q | 0 <= q < |t.pairs| ensures BlockKey(t.db, t.pairs[q]) {
      if q < |s.pairs| {
        assert BlockKey(s.db, s.pairs[q]);
      } else {
        assert Render(Block(a.accessId)) !in s.db;
      }
    }
    forall id: string | Render(Block(id)) in t.db ensures exists q :: 0 <= q < |t.pairs| && t.pairs[q].accessId == id {
      var q :| 0 <= q < |s.pairs| && s.pairs[q].accessId == id;
      assert t.pairs[q].accessId == id;
    }
    forall i | 0 <= i < |t.measures| ensures MeasureOk(t, t.measures[i]) {
      assert MeasureOk(s, s.measures[i]);
    }
  }

  /** The pairs' blocklist ids, expiries and revocations are as they were. */
  predicate SameBlocks(s: State, t: State) {
    && s.now <= t.now && |t.pairs| == |s.pairs|
    && forall p {:trigger t.pairs[p]} :: 0 <= p < |s.pairs| ==>
         && t.pairs[p].accessId == s.pairs[p].accessId && t.pairs[p].accessExp == s.pairs[p].accessExp
         && t.pairs[p].blocked == s.pairs[p].blocked
  }

  lemma OthersSameBlocks(cfg: Params, s: State, a: Action)
    requires Can(cfg, s, a) && !a.WriteRevoke? && !a.Issue?
    ensures var t := Do(cfg, s, a);
            && SameBlocks(s, t)
            && if a.MeasureRevoke? then |t.measures| == |s.measures| + 1 && t.measures[..|s.measures|] == s.measures
                                        && MeasureOk(s, t.measures[|s.measures|])
               else t.measures == s.measures
  {
    hide Render, Lookup, Set, Del, Incremented, Incr, Next;
  }

  lemma SameBlocksKeep(s: State, t: State, k: StoreKey)
    requires BlockInv(s) && SameBlocks(s, t) && ElsewhereSame(s.db, t.db, k) && !k.Block?
    requires forall i :: 0 <= i < |t.measures| ==> MeasureOk(s, t.measures[i])
    ensures BlockInv(t)
  {
    hide Render;
    forall q | 0 <= q < |t.pairs| ensures BlockKey(t.db, t.pairs[q]) && t.pairs[q].accessId == s.pairs[q].accessId {
      assert BlockKey(s.db, s.pairs[q]);
    }
    forall id: string | Render(Block(id)) in t.db ensures exists q :: 0 <= q < |t.pairs| && t.pairs[q].accessId == id {
      assert Render(Block(id)) in s.db;
      var q :| 0 <= q < |s.pairs| && s.pairs[q].accessId == id;
      assert t.pairs[q].accessId == id;
    }
    forall i | 0 <= i < |t.measures| ensures MeasureOk(t, t.measures[i]) {
      assert MeasureOk(s, t.measures[i]);
    }
  }

  lemma OthersKeepBlock(cfg: Params, s: State, a: Action)
    requires BlockInv(s) && Can(cfg, s, a) && !a.WriteRevoke? && !a.Issue?
    ensures BlockInv(Do(cfg, s, a))
  {
    var t := Do(cfg, s, a);
    OneKey(cfg, s, a);
    OthersSameBlocks(cfg, s, a);
    assert !KeyOf(s, a).Block?;
    hide Render, Do, Can, KeyOf, SameBlocks, ElsewhereSame, MeasureOk, BlockKey;
    forall i | 0 <= i < |t.measures| ensures MeasureOk(s, t.measures[i]) {
      if i < |s.measures| {
        assert t.measures[i] == s.measures[i];
      }
    }
    SameBlocksKeep(s, t, KeyOf(s, a));
  }

  lemma BlockKept(cfg: Params, s: State, a: Action)
    requires BlockInv(s) && Can(cfg, s, a)
    ensures BlockInv(Do(cfg, s, a))
  {
    if a.WriteRevoke? {
      WriteKeepsBlock(cfg, s, a.measure);
    } else if a.Issue? {
      IssueKeepsBlock(cfg, s, a);
    } else {
      OthersKeepBlock(cfg, s, a);
    }
  }

  // ----- session versions

  lemma SessionKept(cfg: Params, s: State, a: Action)
    requires SessionInv(s) && Can(cfg, s, a)
    ensures SessionInv(Do(cfg, s, a))
  {
    OneKey(cfg, s, a);
    forall u: int ensures SessionKey(Do(cfg, s, a).db, u) {
      assert SessionKey(s.db, u);
      if a.BumpSession? {
        KeysApart(Session(u), Session(a.userId));
      }
    }
  }

  // ----- runs

  lemma InitInv(cfg: Params, t: int)
    ensures Inv(cfg, Init(t))
  {
    hide Render;
    forall u: int ensures VersionKey(cfg, Init(t).db, Init(t).bumps, u) && SessionKey(Init(t).db, u) {
    }
  }

  lemma StepInv(cfg: Params, s: State, a: Action)
    requires Inv(cfg, s) && Can(cfg, s, a)
    ensures Inv(cfg, Do(cfg, s, a))
  {
    hide SimpleInv, RefreshInv, BlockInv, SessionInv, Can, Do;
    SimpleKept(cfg, s, a);
    RefreshKept(cfg, s, a);
    BlockKept(cfg, s, a);
    SessionKept(cfg, s, a);
  }

  lemma {:induction false} RunInv(cfg: Params, s: State, acts: seq<Action>, t: State)
    requires Inv(cfg, s) && Runs(cfg, s, acts, t)
    ensures Inv(cfg, t)
    decreases |acts|
  {
    hide Inv, Can, Do;
    if acts != [] {
      StepInv(cfg, s, acts[0]);
      RunInv(cfg, Do(cfg, s, acts[0]), acts[1..], t);
    }
  }

  lemma ReachableInv(cfg: Params, s: State)
    requires Reachable(cfg, s)
    ensures Inv(cfg, s)
  {
    hide Inv, Can, Do;
    var t: int, acts :| Runs(cfg, Init(t), acts, s);
    InitInv(cfg, t);
    RunInv(cfg, Init(t), acts, s);
  }

  lemma {:induction false} RunPush(cfg: Params, s: State, acts: seq<Action>, t: State, a: Action)
    requires Runs(cfg, s, acts, t) && Can(cfg, t, a)
    ensures Runs(cfg, s, acts + [a], Do(cfg, t, a))
    decreases |acts|
  {
    hide Can, Do;
    if acts == [] {
      assert acts + [a] == [a] && [a][1..] == [];
    } else {
      assert (acts + [a])[1..] == acts[1..] + [a];
      RunPush(cfg, Do(cfg, s, acts[0]), acts[1..], t, a);
    }
  }

  lemma Extend(cfg: Params, s: State, a: Action)
    requires Reachable(cfg, s) && Can(cfg, s, a)
    ensures Reachable(cfg, Do(cfg, s, a))
  {
    hide Can, Do;
    var t: int, acts :| Runs(cfg, Init(t), acts, s);
    RunPush(cfg, Init(t), acts, s, a);
  }

  // ----- what a run keeps of the past

  /** Time, logins and pairs only move forward, and a session counter never goes back. */
  ghost predicate Later(s: State, t: State) {
    && s.now <= t.now
    && |s.bumps| <= |t.bumps|
    && (forall i {:trigger t.bumps[i]} :: 0 <= i < |s.bumps| ==>
          t.bumps[i] == s.bumps[i].(token := t.bumps[i].token) && (s.bumps[i].token.Some? ==> t.bumps[i] == s.bumps[i]))
    && |s.pairs| <= |t.pairs|
    && (forall p {:trigger t.pairs[p]} :: 0 <= p < |s.pairs| ==>
          && t.pairs[p] == s.pairs[p].(saved := t.pairs[p].saved, taken := t.pairs[p].taken,
                                       blocked := t.pairs[p].blocked)
          && (s.pairs[p].blocked ==> t.pairs[p].blocked))
    && (forall u: int {:trigger Render(Session(u))} :: Render(Session(u)) in s.db ==>
          && Render(Session(u)) in t.db
          && SessionNumber(s.db, u) <= SessionNumber(t.db, u))
  }

  function SessionNumber(db: Db, u: int): int {
    if Render(Session(u)) in db && db[Render(Session(u))].value.Number? then db[Render(Session(u))].value.n else 0
  }

  /** Session counters only grow. */
  lemma SessionGrows(cfg: Params, s: State, a: Action, u: int)
    requires SessionInv(s) && Can(cfg, s, a) && Render(Session(u)) in s.db
    ensures Render(Session(u)) in Do(cfg, s, a).db && SessionNumber(s.db, u) <= SessionNumber(Do(cfg, s, a).db, u)
  {
    hide Render;
    OneKey(cfg, s, a);
    assert SessionKey(s.db, u);
    if a.BumpSession? {
      KeysApart(Session(u), Session(a.userId));
    }
  }

  lemma StepLater(cfg: Params, s: State, a: Action)
    requires SessionInv(s) && Can(cfg, s, a)
    ensures Later(s, Do(cfg, s, a))
  {
    hide Render, SessionNumber, Lookup, Set, Del, Incremented, Incr, Next, MetaCheck;
    forall u: int | Render(Session(u)) in s.db
      ensures Render(Session(u)) in Do(cfg, s, a).db && SessionNumber(s.db, u) <= SessionNumber(Do(cfg, s, a).db, u)
    {
      SessionGrows(cfg, s, a, u);
    }
  }

  lemma {:induction false} RunLater(cfg: Params, s: State, acts: seq<Action>, t: State)
    requires Inv(cfg, s) && Runs(cfg, s, acts, t)
    ensures Inv(cfg, t) && Later(s, t)
    decreases |acts|
  {
    hide SimpleInv, RefreshInv, BlockInv, SessionInv, Can, Do;
    if acts != [] {
      var s' := Do(cfg, s, acts[0]);
      StepInv(cfg, s, acts[0]);
      StepLater(cfg, s, acts[0]);
      RunLater(cfg, s', acts[1..], t);
    }
  }
}
