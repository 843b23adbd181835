/** The runs of an accepted session's tunnel beside its BindRemotes (server/server_handler.go), and
    which sessions can end the process. */
module TunnelRaces {
  import opened Common
  import T = ServerTunnel
  import TE = TunnelEnd
  import G = ConnectionGate

  /** A new tunnel. Without reversed remotes its second goroutine has nothing to do, and there is
      no proxy to ask for the connection. */
  function Accepted(reversed: seq<string>, waits: nat): T.State {
    if reversed == [] then T.Init(0).(remotes := T.Returned(false)) else T.Init(waits)
  }

  /** A run of the tunnel in which BindRemotes fails as given, up to the return of both goroutines
      or the end of the process. */
  ghost predicate IsRace(start: T.State, failed: bool, race: seq<T.Action>) {
    var run := Run(T.Step, start, race);
    && run.Some? && run.value.remotes != T.Returned(!failed)
    && (run.value.alive ==> run.value.remotes == T.Returned(failed) && run.value.gate.binders == [G.Returned])
  }

  predicate EndsProcess(start: T.State, race: seq<T.Action>) {
    var run := Run(T.Step, start, race);
    run.Some? && !run.value.alive
  }

  lemma AcceptedInv(reversed: seq<string>, waits: nat)
    ensures T.Inv(Accepted(reversed, waits)) && Accepted(reversed, waits).alive
  {
    T.InitInv(waits);
    T.InitInv(0);
    if reversed == [] { T.StepKeepsInv(T.Init(0), T.RemotesReturn(false)); }
  }

  /** An accepted session can end the process, whatever its client, if and only if it has reversed
      remotes and BindRemotes fails or a getSSH call is made. */
  lemma RaceCanEnd(reversed: seq<string>, waits: nat, failed: bool)
    ensures (exists race :: IsRace(Accepted(reversed, waits), failed, race) && EndsProcess(Accepted(reversed, waits), race))
            <==> reversed != [] && (failed || waits > 0)
  {
    var start := Accepted(reversed, waits);
    AcceptedInv(reversed, waits);
    if reversed != [] && failed {
      var race := FailureCanEnd(start);
    } else if reversed != [] && waits > 0 {
      var race := TE.WaiterCanReuse(waits);
      TE.RemotesUntouched(start, race);
      assert IsRace(start, failed, race) && EndsProcess(start, race);
    } else {
      forall race | IsRace(start, failed, race) ensures Run(T.Step, start, race).value.alive {
        NobodyEnds(start, failed, race);
      }
    }
  }

  lemma FailureCanEnd(start: T.State) returns (race: seq<T.Action>)
    requires T.Inv(start) && start.alive && TE.Exposed(start)
    ensures IsRace(start, true, race) && EndsProcess(start, race)
  {
    race := TE.ExposedCanUnderflow(start);
    TE.UnderflowIsDead(start, race);
  }

  lemma NobodyEnds(start: T.State, failed: bool, race: seq<T.Action>)
    requires T.Inv(start) && start.alive && start.helpers == [] && start.remotes != T.Returned(true) && IsRace(start, failed, race)
    requires failed ==> start.remotes == T.Returned(false)
    ensures Run(T.Step, start, race).value.alive
  {
    TE.RunKeepsInv(start, race);
    TE.HelpersStay(start, race);
    if failed { TE.ReturnedRemotes(start, race); }
  }
}
