/** What happens around one pass: how each of its calls ends, and what everyone else does before it. */
module Schedule {
  import opened Options
  import opened Protocol
  import opened AllRuns
  import C = Convergence
  import M = MachineProgress

  datatype Turn = Turn(others: seq<Event>, o: Outcome, addr: string, nics: Option<seq<string>>)

  type Script = nat -> Turn

  datatype Controller = OfClusters | OfMachines

  predicate Own(c: Controller, e: Event) {
    match c
    case OfClusters => e.ClusterBegin? || e.ClusterAct? || e.ClusterCrash?
    case OfMachines => e.MachineBegin? || e.MachineAct? || e.MachineCrash?
  }

  /** The others' events, as far as they are possible. */
  function Meanwhile(c: Controller, s: State, es: seq<Event>): (t: State)
    requires Shape(s)
    ensures Shape(t) && t.conf == s.conf
    ensures c.OfClusters? ==> t.cw == s.cw
    ensures c.OfMachines? ==> t.mw == s.mw
    decreases |es|
  {
    if es == [] then s
    else if Own(c, es[0]) || !Enabled(s, es[0]) then Meanwhile(c, s, es[1..])
    else Meanwhile(c, Apply(s, es[0]), es[1..])
  }

  lemma {:induction false} MeanwhileIsRun(c: Controller, s: State, es: seq<Event>) returns (run: seq<Event>)
    requires Shape(s)
    ensures Runs(s, run, Meanwhile(c, s, es))
    decreases |es|
  {
    if es == [] {
      run := [];
    } else if Own(c, es[0]) || !Enabled(s, es[0]) {
      run := MeanwhileIsRun(c, s, es[1..]);
    } else {
      var rest := MeanwhileIsRun(c, Apply(s, es[0]), es[1..]);
      RunCons(s, es[0], rest, Meanwhile(c, s, es));
      run := [es[0]] + rest;
    }
  }

  /** And every run without the controller's own events is one of these. */
  lemma {:induction false} OthersRunIsMeanwhile(c: Controller, s: State, es: seq<Event>, t: State)
    requires Runs(s, es, t) && forall e | e in es :: !Own(c, e)
    ensures Meanwhile(c, s, es) == t
    decreases |es|
  {
    if es != [] {
      assert es[0] in es && forall e | e in es[1..] :: e in es;
      OthersRunIsMeanwhile(c, Apply(s, es[0]), es[1..], t);
    }
  }

  // ----- the cluster controller's pass, under a script -----

  ghost function ClusterPass(s: State, script: Script, i: nat): (t: State)
    requires Shape(s)
    ensures Shape(t) && t.cw.CIdle? && t.conf == s.conf
    decreases if s.cw.CIdle? then 0 else 1 + C.CallsLeft(s.cw.pc)
  {
    if s.cw.CIdle? then s
    else
      var u := Meanwhile(OfClusters, s, script(i).others);
      C.PassEnds(u, script(i).o, script(i).addr);
      ClusterPass(ClusterStep(u, script(i).o, script(i).addr), script, i + 1)
  }

  lemma {:induction false} ClusterPassIsRun(s: State, script: Script, i: nat) returns (es: seq<Event>)
    requires Shape(s) && forall j :: script(j).addr != ""
    ensures Runs(s, es, ClusterPass(s, script, i))
    decreases if s.cw.CIdle? then 0 else 1 + C.CallsLeft(s.cw.pc)
  {
    if s.cw.CIdle? {
      es := [];
    } else {
      var turn := script(i);
      assert turn.addr != "";
      var u := Meanwhile(OfClusters, s, turn.others);
      C.PassEnds(u, turn.o, turn.addr);
      var before := MeanwhileIsRun(OfClusters, s, turn.others);
      var rest := ClusterPassIsRun(ClusterStep(u, turn.o, turn.addr), script, i + 1);
      RunCons(u, ClusterAct(turn.o, turn.addr), rest, ClusterPass(s, script, i));
      es := before + ([ClusterAct(turn.o, turn.addr)] + rest);
      RunsCompose(s, before, u, [ClusterAct(turn.o, turn.addr)] + rest, ClusterPass(s, script, i));
    }
  }

  ghost predicate Quiet(script: Script) {
    forall j, j' {:trigger script(j), script(j')} ::
      && script(j).others == [] && script(j).o == Good
      && script(j).addr == script(j').addr && script(j).nics == script(j').nics
  }

  /** With nobody else around and every call successful it is the pass the convergence results speak of. */
  lemma {:induction false} QuietClusterPass(s: State, script: Script, i: nat)
    requires Shape(s) && Quiet(script)
    ensures ClusterPass(s, script, i) == C.Finish(s, script(0).addr)
    decreases if s.cw.CIdle? then 0 else 1 + C.CallsLeft(s.cw.pc)
  {
    if s.cw.CBusy? {
      assert script(i).others == [] && script(i).o == Good && script(i).addr == script(0).addr;
      C.PassEnds(s, Good, script(0).addr);
      QuietClusterPass(ClusterStep(s, Good, script(0).addr), script, i + 1);
    }
  }

  // ----- the machine controller's pass, under a script -----

  ghost function MachinePass(s: State, script: Script, i: nat): (t: State)
    requires Shape(s)
    ensures Shape(t) && t.mw.MIdle? && t.conf == s.conf
    decreases if s.mw.MIdle? then 0 else 1 + M.CallsLeft(s.mw.pc)
  {
    if s.mw.MIdle? then s
    else
      var u := Meanwhile(OfMachines, s, script(i).others);
      M.PassEnds(u, script(i).o, script(i).nics);
      MachinePass(MachineStep(u, script(i).o, script(i).nics), script, i + 1)
  }

  lemma {:induction false} MachinePassIsRun(s: State, script: Script, i: nat) returns (es: seq<Event>)
    requires Shape(s)
    ensures Runs(s, es, MachinePass(s, script, i))
    decreases if s.mw.MIdle? then 0 else 1 + M.CallsLeft(s.mw.pc)
  {
    if s.mw.MIdle? {
      es := [];
    } else {
      var turn := script(i);
      var u := Meanwhile(OfMachines, s, turn.others);
      M.PassEnds(u, turn.o, turn.nics);
      var before := MeanwhileIsRun(OfMachines, s, turn.others);
      var rest := MachinePassIsRun(MachineStep(u, turn.o, turn.nics), script, i + 1);
      RunCons(u, MachineAct(turn.o, turn.nics), rest, MachinePass(s, script, i));
      es := before + ([MachineAct(turn.o, turn.nics)] + rest);
      RunsCompose(s, before, u, [MachineAct(turn.o, turn.nics)] + rest, MachinePass(s, script, i));
    }
  }

  lemma {:induction false} QuietMachinePass(s: State, script: Script, i: nat)
    requires Shape(s) && Quiet(script)
    ensures MachinePass(s, script, i) == M.Finish(s, script(0).nics)
    decreases if s.mw.MIdle? then 0 else 1 + M.CallsLeft(s.mw.pc)
  {
    if s.mw.MBusy? {
      assert script(i).others == [] && script(i).o == Good && script(i).nics == script(0).nics;
      M.PassEnds(s, Good, script(0).nics);
      QuietMachinePass(MachineStep(s, Good, script(0).nics), script, i + 1);
    }
  }
}
