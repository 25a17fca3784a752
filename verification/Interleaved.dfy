/** Progress of cluster passes whose own calls succeed, whatever everyone else does between those calls. */
module Interleaved {
  import opened Options
  import opened Clouds
  import opened Protocol
  import opened Invariant
  import opened AllRuns
  import opened Convergence
  import opened Schedule
  import CS = ClusterSteps
  import MS = MachineSteps
  import T = Theorems
  import H = Holdup

  /** The calls of the pass itself succeed; nothing is said about the others. */
  ghost predicate GoodCalls(script: Script) {
    forall i :: script(i).o == Good && script(i).addr != ""
  }

  // ----- what the others leave as it is -----

  /** Others may only mark the cluster as deleted, and no machine joins a cluster that is. */
  ghost predicate OthersKeep(s: State, t: State, k: CKey) {
    && t.conf == s.conf && t.cw == s.cw
    && k in s.clusters && k in t.clusters
    && t.clusters[k] == s.clusters[k].(deleting := t.clusters[k].deleting)
    && (s.clusters[k].deleting ==> t.clusters[k].deleting)
    && (s.clusters[k].deleting && NoOwner(s.owners, k) ==> NoOwner(t.owners, k))
  }

  lemma EventKeepsCluster(s: State, e: Event, k: CKey)
    requires Shape(s) && Enabled(s, e) && !Own(OfClusters, e) && k in s.clusters
    ensures OthersKeep(s, Apply(s, e), k)
  {
  }

  lemma {:induction false} OthersKeepCluster(s: State, es: seq<Event>, k: CKey)
    requires Shape(s) && k in s.clusters
    ensures OthersKeep(s, Meanwhile(OfClusters, s, es), k)
    decreases |es|
  {
    if es != [] {
      if Own(OfClusters, es[0]) || !Enabled(s, es[0]) {
        OthersKeepCluster(s, es[1..], k);
      } else {
        EventKeepsCluster(s, es[0], k);
        OthersKeepCluster(Apply(s, es[0]), es[1..], k);
      }
    }
  }

  // ----- one turn -----

  /** The state after the others have acted and the pass has made its call. */
  ghost function AfterTurn(s: State, turn: Turn): State
    requires Shape(s) && s.cw.CBusy?
  {
    ClusterStep(Meanwhile(OfClusters, s, turn.others), turn.o, turn.addr)
  }

  lemma TurnUnfolds(s: State, script: Script, i: nat)
    requires Shape(s) && s.cw.CBusy?
    ensures Shape(AfterTurn(s, script(i)))
    ensures ClusterPass(s, script, i) == ClusterPass(AfterTurn(s, script(i)), script, i + 1)
    ensures !s.cw.pc.CPatch? ==>
              AfterTurn(s, script(i)).cw.CBusy? && CallsLeft(AfterTurn(s, script(i)).cw.pc) < CallsLeft(s.cw.pc)
  {
    var u := Meanwhile(OfClusters, s, script(i).others);
    PassEnds(u, script(i).o, script(i).addr);
  }

  /** The last turn stores the copy, unless the object is gone. */
  lemma PatchTurn(s: State, script: Script, i: nat)
    requires Shape(s) && s.cw.CBusy? && s.cw.pc.CPatch? && GoodCalls(script)
    ensures var t := ClusterPass(s, script, i);
            var r := t.clusters[s.cw.k];
            && s.cw.k in t.clusters
            && (s.clusters[s.cw.k].deleting ==> r.deleting)
            && (s.clusters[s.cw.k].finalizer ==> r == s.cw.rec.(deleting := r.deleting))
            && (r.deleting || r == s.cw.rec.(deleting := r.deleting))
  {
    var u := Meanwhile(OfClusters, s, script(i).others);
    assert script(i).o == Good;
    OthersKeepCluster(s, script(i).others, s.cw.k);
    TurnUnfolds(s, script, i);
    CS.StepByPc(u, Good, script(i).addr);
  }

  // ----- creating -----

  lemma {:induction false} CreatingEndsReady(s: State, script: Script, i: nat)
    requires Shape(s) && s.cw.CBusy? && GoodCalls(script) && s.clusters[s.cw.k].finalizer
    requires (Creating(s.cw.pc) && HoldsAll(s.cw)) || (s.cw.pc.CPatch? && s.cw.rec.ready)
    ensures ClusterPass(s, script, i).clusters[s.cw.k].ready
    decreases CallsLeft(s.cw.pc)
  {
    if s.cw.pc.CPatch? {
      PatchTurn(s, script, i);
    } else {
      TurnUnfolds(s, script, i);
      CreatingTurn(s, script, i);
      CreatingEndsReady(AfterTurn(s, script(i)), script, i + 1);
    }
  }

  lemma CreatingTurn(s: State, script: Script, i: nat)
    requires Shape(s) && s.cw.CBusy? && GoodCalls(script) && s.clusters[s.cw.k].finalizer
    requires Creating(s.cw.pc) && HoldsAll(s.cw)
    ensures var t := AfterTurn(s, script(i));
            && t.cw.CBusy? && t.cw.k == s.cw.k && t.clusters[s.cw.k].finalizer
            && ((Creating(t.cw.pc) && HoldsAll(t.cw)) || (t.cw.pc.CPatch? && t.cw.rec.ready))
  {
    var u := Meanwhile(OfClusters, s, script(i).others);
    assert script(i).o == Good;
    OthersKeepCluster(s, script(i).others, s.cw.k);
    if s.cw.pc.CRecord? { RecordsAll(u, script(i).addr); } else { GoodStepHoldsAll(u, script(i).addr); }
  }

  lemma RecordsAll(s: State, addr: string)
    requires Shape(s) && s.cw.CBusy? && s.cw.pc.CRecord? && HoldsAll(s.cw)
    ensures ClusterStep(s, Good, addr).cw.pc.CPatch? && ClusterStep(s, Good, addr).cw.rec.ready
  {
    CS.PlainSteps(s, Good, addr);
    assert At(s.cw.found, IpSetKind).Some? && At(s.cw.found, PoolKind).Some?;
  }

  // ----- the way to the first lookup -----

  /** A pass over an undeleted cluster that has not looked anything up yet. */
  ghost predicate Opening(s: State)
    requires Shape(s)
  {
    && s.cw.CBusy? && Complete(s.conf[s.cw.k]) && !s.cw.rec.deleting
    && (s.cw.pc.CFinalizer? || s.cw.pc.CConnect? || s.cw.pc.CEndpoint?)
    && (!s.cw.pc.CFinalizer? ==> s.cw.rec.finalizer)
    && s.clusters[s.cw.k].finalizer == s.cw.rec.finalizer
    && s.cw.found == NO_REFS
  }

  lemma OpeningStep(s: State, addr: string)
    requires Shape(s) && Opening(s) && addr != ""
    ensures var t := ClusterStep(s, Good, addr);
            var w := t.cw;
            && t.clusters == s.clusters && w.CBusy? && w.k == s.cw.k
            && (|| (w.rec == s.cw.rec && Opening(t))
                || (w.rec == s.cw.rec && w.pc == CLook(IpSetKind) && w.rec.finalizer && w.rec.endpoint.host != "")
                || (w.pc.CPatch? && !w.rec.deleting && Rank(w.rec) < Rank(s.cw.rec) && Rank(s.cw.rec) >= 2))
  {
  }

  /** What the pass has stored at its end: a rank lower than the copy's, unless the cluster was deleted meanwhile. */
  lemma {:induction false} OpeningLowersRank(s: State, script: Script, i: nat)
    requires Shape(s) && Opening(s) && GoodCalls(script)
    ensures var r := ClusterPass(s, script, i).clusters[s.cw.k];
            r.ready || r.deleting || Rank(r) < Rank(s.cw.rec)
    ensures Rank(s.cw.rec) <= 1 ==> ClusterPass(s, script, i).clusters[s.cw.k].ready
    decreases CallsLeft(s.cw.pc)
  {
    var u := Meanwhile(OfClusters, s, script(i).others);
    var t := AfterTurn(s, script(i));
    assert script(i).o == Good && script(i).addr != "";
    OthersKeepCluster(s, script(i).others, s.cw.k);
    TurnUnfolds(s, script, i);
    OpeningStep(u, script(i).addr);
    if t.cw.pc.CPatch? {
      PatchTurn(t, script, i + 1);
    } else if t.cw.pc.CLook? {
      CreatingEndsReady(t, script, i + 1);
    } else {
      OpeningLowersRank(t, script, i + 1);
    }
  }

  /**
    A pass over an undeleted complete cluster whose own calls succeed lowers its rank, or the cluster is deleted
    meanwhile; with finalizer and endpoint stored it makes the cluster ready even then.
  */
  lemma InterleavedPassMakesProgress(s: State, k: CKey, script: Script, i: nat)
    requires Shape(s) && s.cw.CIdle? && k in s.clusters && Complete(s.conf[k]) && !s.clusters[k].deleting
    requires GoodCalls(script)
    ensures var r := ClusterPass(ClusterBegun(s, k), script, i).clusters[k];
            r.ready || r.deleting || Rank(r) < Rank(s.clusters[k])
    ensures Rank(s.clusters[k]) <= 1 ==> ClusterPass(ClusterBegun(s, k), script, i).clusters[k].ready
  {
    OpeningLowersRank(ClusterBegun(s, k), script, i);
  }

  lemma RankNeverRises(s: State, es: seq<Event>, t: State, k: CKey)
    requires Reachable(s) && Runs(s, es, t) && k in s.clusters
    ensures k in t.clusters && (t.clusters[k].deleting || Rank(t.clusters[k]) <= Rank(s.clusters[k]))
    ensures (s.clusters[k].ready ==> t.clusters[k].ready) && (s.clusters[k].deleting ==> t.clusters[k].deleting)
  {
    ReachableInv(s);
    T.StoredFactsStay(s, es, t);
  }

  lemma InterleavedPassIsReachable(s: State, k: CKey, script: Script, i: nat)
    requires Reachable(s) && s.cw.CIdle? && k in s.clusters && !s.clusters[k].Gone() && GoodCalls(script)
    ensures Reachable(ClusterPass(ClusterBegun(s, k), script, i))
  {
    var a := ClusterBegun(s, k);
    assert Reachable(a) by { ReachableNext(s, ClusterBegin(k)); }
    var es := ClusterPassIsRun(a, script, i);
    ReachableGoesOn(a, es, ClusterPass(a, script, i));
  }

  /** From `s` a pass with good calls, and from its end any run whatever up to `t`. */
  ghost predicate PassThenRun(s: State, k: CKey, script: Script, es: seq<Event>, t: State) {
    && Shape(s) && s.cw.CIdle? && k in s.clusters && !s.clusters[k].deleting
    && Complete(s.conf[k]) && GoodCalls(script)
    && Runs(ClusterPass(ClusterBegun(s, k), script, 0), es, t)
  }

  lemma PassThenRunLowers(s: State, k: CKey, script: Script, es: seq<Event>, t: State)
    requires Reachable(s) && PassThenRun(s, k, script, es, t)
    ensures Reachable(t) && k in t.clusters
    ensures t.clusters[k].ready || t.clusters[k].deleting || Rank(t.clusters[k]) < Rank(s.clusters[k])
    ensures Rank(s.clusters[k]) <= 1 || s.clusters[k].ready ==> t.clusters[k].ready
  {
    if s.clusters[k].ready { ReadyStays(s, k, script, es, t); }
    var u := ClusterPass(ClusterBegun(s, k), script, 0);
    assert Reachable(u) by { InterleavedPassIsReachable(s, k, script, 0); }
    InterleavedPassMakesProgress(s, k, script, 0);
    RankNeverRises(u, es, t, k);
    ReachableGoesOn(u, es, t);
  }

  /** A pass with its script, and what happens up to the next pass. */
  datatype Round = Round(script: Script, after: seq<Event>)

  ghost predicate Rounds(s: State, k: CKey, rounds: seq<Round>, t: State)
    decreases |rounds|
  {
    if rounds == [] then s == t && k in s.clusters
    else exists u :: PassThenRun(s, k, rounds[0].script, rounds[0].after, u) && Rounds(u, k, rounds[1..], t)
  }

  /**
    From any reachable state, as many passes whose own calls succeed as the cluster's rank, three at most, make a
    complete cluster ready, whatever anyone does during them and between them, as long as the cluster is not deleted
    before the last of them begins.
  */
  lemma {:induction false} InterleavedPassesReachReady(s: State, k: CKey, rounds: seq<Round>, t: State)
    requires Reachable(s) && k in s.clusters && Rounds(s, k, rounds, t)
    requires s.clusters[k].ready || Rank(s.clusters[k]) <= |rounds|
    ensures Reachable(t) && k in t.clusters && t.clusters[k].ready
    decreases |rounds|
  {
    if rounds != [] {
      var u :| PassThenRun(s, k, rounds[0].script, rounds[0].after, u) && Rounds(u, k, rounds[1..], t);
      PassThenRunLowers(s, k, rounds[0].script, rounds[0].after, u);
      InterleavedPassesReachReady(u, k, rounds[1..], t);
    }
  }

  lemma ReadyStays(s: State, k: CKey, script: Script, es: seq<Event>, t: State)
    requires Reachable(s) && PassThenRun(s, k, script, es, t) && s.clusters[k].ready
    ensures k in t.clusters && t.clusters[k].ready
  {
    var a := ClusterBegun(s, k);
    var u := ClusterPass(a, script, 0);
    assert Reachable(a) by { ReachableNext(s, ClusterBegin(k)); }
    var before := ClusterPassIsRun(a, script, 0);
    RankNeverRises(a, before, u, k);
    assert Reachable(u) by { InterleavedPassIsReachable(s, k, script, 0); }
    RankNeverRises(u, es, t, k);
  }

  // ----- deleting -----

  lemma MachineKeepsSetEmpty(s: State, o: Outcome, nics: Option<seq<string>>)
    requires Shape(s) && TearingDown(s) && CS.Context(s) && MS.Context(s)
    requires !s.cw.pc.CPatch?
    ensures IpSetEmpty(MachineStep(s, o, nics).cloud, s.cw.rec.refs)
  {
    var ref := At(s.cw.rec.refs, IpSetKind);
    var d := MachineStep(s, o, nics).cloud;
    if ref.Some? && ref.value in d.objs && d.objs[ref.value].Group? {
      var g := ref.value;
      H.GroupWasThere(s, o, nics, g);
      assert RefOk(s.conf, s.cloud, s.cw.k, IpSetKind, ref, Kept(s.clusters, s.owners, s.cw, s.cw.k));
      if s.mw.pc.MJoin? || s.mw.pc.XLeave? { H.WriterIsElsewhere(s, s.cw.k, g); }
      H.GroupUntouched(s, o, nics, g);
    }
  }

  lemma EventKeepsTearingDown(s: State, e: Event)
    requires Inv(s) && Enabled(s, e) && !Own(OfClusters, e) && TearingDown(s)
    ensures TearingDown(Apply(s, e)) && Apply(s, e).cw == s.cw
  {
    EventKeepsCluster(s, e, s.cw.k);
    if e.MachineAct? {
      MS.ContextHolds(s);
      MachineKeepsSetEmpty(s, e.o, e.nics);
    }
  }

  lemma {:induction false} OthersKeepTearingDown(s: State, es: seq<Event>)
    requires Inv(s) && TearingDown(s)
    ensures var t := Meanwhile(OfClusters, s, es); Inv(t) && TearingDown(t) && t.cw == s.cw
    decreases |es|
  {
    if es != [] {
      if Own(OfClusters, es[0]) || !Enabled(s, es[0]) {
        OthersKeepTearingDown(s, es[1..]);
      } else {
        EventKeepsTearingDown(s, es[0]);
        EventKeeps(s, es[0]);
        OthersKeepTearingDown(Apply(s, es[0]), es[1..]);
      }
    }
  }

  lemma {:induction false} TeardownEnds(s: State, script: Script, i: nat)
    requires Inv(s) && TearingDown(s) && GoodCalls(script)
    ensures ClusterPass(s, script, i).clusters[s.cw.k].Gone()
    decreases CallsLeft(s.cw.pc)
  {
    var u := Meanwhile(OfClusters, s, script(i).others);
    var t := AfterTurn(s, script(i));
    assert script(i).o == Good && script(i).addr != "";
    assert Inv(u) && TearingDown(u) && u.cw == s.cw by { OthersKeepTearingDown(s, script(i).others); }
    TurnUnfolds(s, script, i);
    if s.cw.pc.DRelease? {
      ReleaseTurn(u, script(i).addr);
      ReleasedIsGone(t, script, i + 1);
    } else {
      assert TearingDown(t) && t.cw.k == s.cw.k by { TeardownGoesOn(u, script(i).addr); }
      assert Inv(t) by { CS.ClusterStepKeeps(u, Good, script(i).addr); }
      TeardownEnds(t, script, i + 1);
    }
  }

  lemma ReleasedIsGone(s: State, script: Script, i: nat)
    requires Shape(s) && s.cw.CBusy? && s.cw.pc.CPatch? && !s.cw.rec.finalizer && GoodCalls(script)
    requires s.clusters[s.cw.k].deleting && s.clusters[s.cw.k].finalizer
    ensures ClusterPass(s, script, i).clusters[s.cw.k].Gone()
  {
    PatchTurn(s, script, i);
  }

  lemma ReleaseTurn(s: State, addr: string)
    requires Shape(s) && s.cw.CBusy? && s.cw.pc.DRelease?
    ensures ClusterStep(s, Good, addr) == s.(cw := s.cw.(rec := s.cw.rec.(finalizer := false), pc := CPatch))
  {
  }

  /**
    From any prefix of an interrupted teardown, without machines and with an empty IP set, one pass whose own calls
    succeed removes the finalizer and every recorded object, whatever anyone else does meanwhile.
  */
  lemma InterleavedPassDeletes(s: State, k: CKey, script: Script, i: nat)
    requires Reachable(s) && s.cw.CIdle? && k in s.clusters && GoodCalls(script)
    requires s.conf[k].owner && s.conf[k].identity
    requires s.clusters[k].deleting && s.clusters[k].finalizer && NoOwner(s.owners, k)
    requires IpSetEmpty(s.cloud, s.clusters[k].refs)
    ensures var t := ClusterPass(ClusterBegun(s, k), script, i);
            Reachable(t) && t.clusters[k].Gone() && Cleared(t.conf, t.cloud, k, t.clusters[k].refs, 4)
  {
    var t := ClusterPass(ClusterBegun(s, k), script, i);
    assert Inv(ClusterBegun(s, k)) by {
      ReachableInv(s);
      CS.BeginStep(s, k);
    }
    TeardownEnds(ClusterBegun(s, k), script, i);
    InterleavedPassIsReachable(s, k, script, i);
    ReachableInv(t);
    GoneIsCleared(t, k);
  }
}
