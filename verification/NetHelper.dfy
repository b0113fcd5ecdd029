/** The helper as it runs: one object whose machine and committed mode change command by command.
    Each method is tied to the functions of NetTransition, about which NetSafety proves the
    guarantees. */
module NetHelper {
  import opened Types
  import opened NetPlans
  import opened NetTransition
  import opened NetSafety

  /** After the first `i` commands the run so far is `done`; what remains is a run of the rest. */
  ghost predicate Progress(plan: seq<Command>, m0: Machine, tape0: seq<Event>, allow: bool, ignore: bool,
                           i: nat, done: seq<Machine>, m: Machine, tape: seq<Event>)
  {
    i <= |plan| && RunPlan(plan, m0, tape0, allow, ignore)
                   == Join(Exec(done, tape, Completed), RunPlan(plan[i..], m, tape, allow, ignore))
  }

  lemma PlanStep(plan: seq<Command>, m0: Machine, tape0: seq<Event>, allow: bool, ignore: bool,
                 i: nat, done: seq<Machine>, m: Machine, tape: seq<Event>)
    requires i < |plan| && tape != []
    requires Progress(plan, m0, tape0, allow, ignore, i, done, m, tape)
    ensures var (next, s) := Perform(plan[i], m, tape[0]);
            if Continues(plan[i], s, allow, ignore) then
              Progress(plan, m0, tape0, allow, ignore, i + 1, done + [next], next, tape[1..])
            else
              RunPlan(plan, m0, tape0, allow, ignore)
              == Exec(done + [next], tape[1..], if s.Aborted? then Cancelled else Errored)
  {
    hide RunPlan, Perform;
    assert plan[i..][1..] == plan[i + 1..];
    RunPlanUnfolds(plan[i..], m, tape, allow, ignore);
    var next := Perform(plan[i], m, tape[0]).0;
    var rest := RunPlan(plan[i + 1..], next, tape[1..], allow, ignore);
    assert done + ([next] + rest.visited) == (done + [next]) + rest.visited;
  }

  lemma OutOfTape(plan: seq<Command>, m0: Machine, tape0: seq<Event>, allow: bool, ignore: bool,
                  i: nat, done: seq<Machine>, m: Machine)
    requires i < |plan|
    requires Progress(plan, m0, tape0, allow, ignore, i, done, m, [])
    ensures RunPlan(plan, m0, tape0, allow, ignore) == Exec(done, [], Cancelled)
  {
    assert done + [] == done;
  }

  /** An attempt is its kill-switch, then the transition proper, then a recovery if that erred. */
  lemma AttemptParts(cfg: NetworkConfig, mode: EgressMode, host: HostFiles, m: Machine, tape: seq<Event>)
    ensures var run, kill := Attempt(cfg, mode, host, m, tape), RunPlan(KillSwitchPlan(cfg), m, tape, true, false);
            if !kill.end.Completed? then run == kill
            else
              var held := Final(m, kill.visited);
              var inner := TransitionInner(cfg, mode, host, held, kill.rest);
              if !inner.end.Errored? then run == Exec(kill.visited + inner.visited, inner.rest, inner.end)
              else
                var recovery := Recover(cfg, Final(held, inner.visited), inner.rest);
                run == Exec(kill.visited + inner.visited + recovery.visited, recovery.rest, recovery.end)
  {
    hide RunPlan, TransitionInner, Recover;
    var kill := KillSwitch(cfg, m, tape);
    FinalOfJoin(m, kill.visited, TransitionInner(cfg, mode, host, Final(m, kill.visited), kill.rest).visited);
  }

  class Helper {
    const cfg: NetworkConfig
    var machine: Machine
    var activeMode: Option<EgressMode>
    /** What the environment will decide next. */
    var tape: seq<Event>
    ghost var visited: seq<Machine>

    constructor (cfg: NetworkConfig, machine: Machine, tape: seq<Event>)
      ensures this.cfg == cfg && this.machine == machine && this.tape == tape
      ensures activeMode == None && visited == []
    {
      this.cfg := cfg;
      this.machine := machine;
      this.tape := tape;
      activeMode := None;
      visited := [];
    }

    twostate predicate Ran(run: Exec, end: End)
      reads this
    {
      && end == run.end && tape == run.rest
      && visited == old(visited) + run.visited
      && machine == Final(old(machine), run.visited)
    }

    method RunCommands(plan: seq<Command>, allowExistingTable: bool, ignoreFailures: bool) returns (end: End)
      modifies this
      ensures Ran(RunPlan(plan, old(machine), old(tape), allowExistingTable, ignoreFailures), end)
      ensures activeMode == old(activeMode)
    {
      ghost var m0, tape0, v0 := machine, tape, visited;
      ghost var done: seq<Machine> := [];
      for i := 0 to |plan|
        invariant activeMode == old(activeMode)
        invariant visited == v0 + done && machine == Final(m0, done)
        invariant Progress(plan, m0, tape0, allowExistingTable, ignoreFailures, i, done, machine, tape)
      {
        if tape == [] {
          OutOfTape(plan, m0, tape0, allowExistingTable, ignoreFailures, i, done, machine);
          return Cancelled;
        }
        PlanStep(plan, m0, tape0, allowExistingTable, ignoreFailures, i, done, machine, tape);
        var (next, status) := Perform(plan[i], machine, tape[0]);
        machine, tape := next, tape[1..];
        visited := visited + [next];
        done := done + [next];
        if !Continues(plan[i], status, allowExistingTable, ignoreFailures) {
          return if status.Aborted? then Cancelled else Errored;
        }
      }
      assert plan[|plan|..] == [] && done + [] == done;
      return Completed;
    }

    method PolicyRuleRemains(v6: bool) returns (end: End)
      modifies this`tape
      ensures Exec([], tape, end) == InspectRules(Routing(v6, machine), old(tape))
    {
      if tape == [] {
        return Cancelled;
      }
      var event := tape[0];
      tape := tape[1..];
      if event.Killed? {
        return Cancelled;
      }
      end := if event.Exited? && event.ok && |Routing(v6, machine)| == 0 then Completed else Errored;
    }

    method TeardownWireguard() returns (end: End)
      modifies this
      ensures Ran(Teardown(cfg, old(machine), old(tape)), end)
      ensures activeMode == old(activeMode)
    {
      end := RunCommands(WireguardTeardownPlan(cfg), false, true);
      if !end.Completed? {
        return;
      }
      if machine.wg0 {
        return Errored;
      }
      end := PolicyRuleRemains(false);
      if end.Completed? {
        end := PolicyRuleRemains(true);
      }
    }

    method ProbeProxy() returns (end: End)
      modifies this`tape
      ensures Exec([], tape, end) == Probe(old(tape))
    {
      if tape == [] {
        return Cancelled;
      }
      var event := tape[0];
      tape := tape[1..];
      end := if event.Killed? then Cancelled else if event.Exited? && event.ok then Completed else Errored;
    }

    method PrepareMode(mode: EgressMode, host: HostFiles) returns (end: End)
      modifies this
      ensures Ran(Prepare(cfg, mode, host, old(machine), old(tape)), end)
      ensures activeMode == old(activeMode)
    {
      if ResolveEndpoint(cfg, mode, host).None? {
        return Errored;
      }
      end := Completed;
      if mode.WireGuard? {
        if !host.wireguardValid {
          return Errored;
        }
        end := RunCommands(WireguardSetupPlan(cfg), false, false);
      } else if UsesProxy(mode) {
        end := ProbeProxy();
      }
    }

    method ApplyPolicy(mode: EgressMode, host: HostFiles) returns (end: End)
      modifies this
      ensures Ran(TransitionInner(cfg, mode, host, old(machine), old(tape)), end)
      ensures activeMode == old(activeMode)
    {
      hide RunPlan, Perform, Teardown, Prepare;
      ghost var m0 := machine;
      end := TeardownWireguard();
      if end.Completed? {
        end := PrepareMode(mode, host);
        if end.Completed? {
          ghost var down := Teardown(cfg, m0, old(tape));
          FinalOfJoin(m0, down.visited, Prepare(cfg, mode, host, Final(m0, down.visited), down.rest).visited);
          var plan := ActivePolicyPlan(cfg, mode, ModeEndpoint(cfg, mode));
          if plan.None? {
            return Errored;
          }
          end := RunCommands(plan.value, false, false);
        }
      }
    }

    method RestoreKillSwitch() returns (end: End)
      modifies this
      ensures Ran(Recover(cfg, old(machine), old(tape)), end) && !end.Completed?
      ensures activeMode == old(activeMode)
    {
      hide RunPlan, Teardown;
      end := TeardownWireguard();
      if !end.Cancelled? {
        end := RunCommands(KillSwitchPlan(cfg), true, false);
        if !end.Cancelled? {
          end := Errored;
        }
      }
    }

    /** On success the reported mode is the enforced one; on any failure nothing is reported. */
    method ChangeMode(mode: EgressMode, host: HostFiles) returns (end: End)
      modifies this
      ensures Ran(Attempt(cfg, mode, host, old(machine), old(tape)), end)
      ensures activeMode == if end.Completed? then Some(mode) else None
    {
      hide RunPlan, TransitionInner, Recover, KillSwitchPlan, Attempt;
      ghost var m0 := machine;
      ghost var kill := RunPlan(KillSwitchPlan(cfg), m0, tape, true, false);
      AttemptParts(cfg, mode, host, m0, tape);
      activeMode := None;
      end := RunCommands(KillSwitchPlan(cfg), true, false);
      if end.Completed? {
        ghost var inner := TransitionInner(cfg, mode, host, machine, tape);
        end := ApplyPolicy(mode, host);
        FinalOfJoin(m0, kill.visited, inner.visited);
        if end.Completed? {
          activeMode := Some(mode);
        } else if end.Errored? {
          ghost var recovery := Recover(cfg, machine, tape);
          end := RestoreKillSwitch();
          FinalOfJoin(m0, kill.visited + inner.visited, recovery.visited);
        }
      }
    }

    method Handle(command: EgressCommand, host: HostFiles) returns (reply: Reply)
      modifies this
      ensures (Net(machine, activeMode), reply)
          == Serve(cfg, command, host, Net(old(machine), old(activeMode)), old(tape))
      ensures old(NetInv(cfg, Net(machine, activeMode))) ==>
                NetInv(cfg, Net(machine, activeMode)) && (reply.ok ==> Enforces(cfg, reply.mode, machine))
    {
      if NetInv(cfg, Net(machine, activeMode)) {
        ServeFacts(cfg, command, host, Net(machine, activeMode), tape);
      }
      match command {
        case StatusQuery =>
          reply := StatusResponse(Net(machine, activeMode));
        case Apply(mode) =>
          var end := ChangeMode(mode, host);
          reply := if end.Completed? then Reply(true, mode) else Reply(false, Direct);
        case Reset =>
          var end := ChangeMode(Direct, host);
          reply := Reply(end.Completed?, Direct);
      }
    }
  }
}
