/** The Integrator: the object composing the venue registry, the streaming
    lifecycle and the arbitrage flag. Its collaborators (robot, exchange
    connectors) are reached only through Issue, which records every call in
    the ghost `trace` and applies its effect to the ghost collaborator state;
    which calls return an error is an oracle argument, `fails`, of each
    operation. */
module Orchestrator {
  import opened Wrappers
  import opened Venues
  import opened Calls
  import opened Registry
  import opened ControlPlane

  /** The arbitrage loop as seen through its one-shot finish channel. */
  datatype ArbitrageState = NotStarted | Running | Stopped

  /** The `error` values the integrator returns. */
  datatype Error =
    | CannotStartStreaming(cause: StreamingFailure)
    | CannotStartArbitrage
    | CannotCreateExchange(name: string)

  class Integrator {
    var exchanges: seq<Venue>
    var arbitrage: ArbitrageState
    var server: Server
    ghost var created: set<Key>
    ghost var streaming: set<Key>
    ghost var arbitrageCreated: bool
    ghost var trace: seq<Call>

    ghost predicate Valid()
      reads this
    {
      DistinctNames(exchanges)
    }

    /** The collaborators' state. */
    ghost function Collaborators(): World
      reads this
    {
      World(created, streaming, arbitrageCreated)
    }

    /** The struct built by NewIntegrator: an empty exchanges map and a fresh
        finish channel. */
    constructor ()
      ensures Valid()
      ensures exchanges == [] && arbitrage == NotStarted && server == NoServer
      ensures created == {} && streaming == {} && !arbitrageCreated && trace == []
    {
      exchanges := [];
      arbitrage := NotStarted;
      server := NoServer;
      created, streaming, arbitrageCreated := {}, {}, false;
      trace := [];
    }

    /** One call to a collaborator: recorded, and effective unless it fails. */
    method Issue(c: Call, fails: set<Call>) returns (ok: bool)
      modifies this`created, this`streaming, this`arbitrageCreated, this`trace
      ensures ok == (c !in fails)
      ensures trace == old(trace) + [c]
      ensures Collaborators() == Step(old(Collaborators()), c, fails)
    {
      ok := c !in fails;
      trace := trace + [c];
      ghost var w := Step(Collaborators(), c, fails);
      created, streaming, arbitrageCreated := w.created, w.streaming, w.arbitrage;
    }

    /** streamingCallback: forwards the update to the context's trade
        algorithms and returns nil even when that update fails. */
    method StreamingCallback(k: Key, fails: set<Call>) returns (err: Option<Error>)
      modifies this`created, this`streaming, this`arbitrageCreated, this`trace
      ensures err == None
      ensures trace == old(trace) + [OnContext(UpdateAlgorithms, k)]
      ensures Collaborators() == old(Collaborators())
    {
      var ok := Issue(OnContext(UpdateAlgorithms, k), fails);
      // a failed update is only logged
      err := None;
    }

    /** One pass of stopStreaming's loop: stop the context's stream, then
        destroy its trade algorithms, each error only logged. */
    method StopContext(k: Key, fails: set<Call>)
      modifies this`created, this`streaming, this`arbitrageCreated, this`trace
      ensures trace == old(trace) + [OnContext(StopStream, k), OnContext(DestroyAlgorithms, k)]
      ensures Collaborators() ==
        Step(Step(old(Collaborators()), OnContext(StopStream, k), fails), OnContext(DestroyAlgorithms, k), fails)
    {
      var ok := Issue(OnContext(StopStream, k), fails);
      // a failed stop is only logged
      ok := Issue(OnContext(DestroyAlgorithms, k), fails);
      // a failed destroy is only logged
    }

    /** stopStreaming: stop, then destroy, every context of every venue,
        carrying on past every error; it always returns nil. */
    method StopStreaming(fails: set<Call>) returns (err: Option<Error>)
      modifies this`created, this`streaming, this`arbitrageCreated, this`trace
      ensures err == None
      ensures trace == old(trace) + StopCalls(exchanges)
      ensures Collaborators() == Run(old(Collaborators()), StopCalls(exchanges), fails)
    {
      ghost var w0, t0 := Collaborators(), trace;
      ghost var done: seq<Call> := [];
      for vi := 0 to |exchanges|
        invariant done == Pairs(Walk(exchanges[..vi]), StopStream, DestroyAlgorithms)
        invariant trace == t0 + done
        invariant Collaborators() == Run(w0, done, fails)
      {
        VisitedWholeVenue(exchanges, vi);
        for ci := 0 to |exchanges[vi].contexts|
          invariant done == Pairs(Visited(exchanges, vi, ci), StopStream, DestroyAlgorithms)
          invariant trace == t0 + done
          invariant Collaborators() == Run(w0, done, fails)
        {
          var k := Key(vi, ci);
          StopContext(k, fails);
          RunSnoc2(w0, done, OnContext(StopStream, k), OnContext(DestroyAlgorithms, k), fails);
          VisitNext(exchanges, vi, ci, StopStream, DestroyAlgorithms);
          done := done + [OnContext(StopStream, k), OnContext(DestroyAlgorithms, k)];
        }
      }
      assert exchanges[..|exchanges|] == exchanges;
      err := None;
    }

    /** One pass of startStreaming's loop: create the context's trade
        algorithms and, if that succeeded, start its stream. `createdOk` and
        `started` are the two outcomes; the calls made are Attempted(k, createdOk). */
    method StartContext(k: Key, fails: set<Call>) returns (createdOk: bool, started: bool)
      modifies this`created, this`streaming, this`arbitrageCreated, this`trace
      ensures createdOk == (OnContext(CreateAlgorithms, k) !in fails)
      ensures started == (createdOk && OnContext(StartStream, k) !in fails)
      ensures trace == old(trace) + Attempted(k, createdOk)
      ensures Collaborators() == Run(old(Collaborators()), Attempted(k, createdOk), fails)
    {
      ghost var w0 := Collaborators();
      createdOk := Issue(OnContext(CreateAlgorithms, k), fails);
      started := false;
      if createdOk {
        started := Issue(OnContext(StartStream, k), fails);
        assert [OnContext(CreateAlgorithms, k)] + [OnContext(StartStream, k)] == Attempted(k, true);
      }
      RunAttempted(w0, k, createdOk, fails);
    }

    /** startStreaming: create the trade algorithms and then start the stream
        of every context of every venue; on the first error roll everything
        back with stopStreaming and return that error, attempting nothing
        further. */
    method StartStreaming(fails: set<Call>) returns (err: Option<StreamingFailure>)
      modifies this`created, this`streaming, this`arbitrageCreated, this`trace
      ensures err == StartStreamingError(exchanges, fails)
      ensures trace == old(trace) + StartStreamingCalls(exchanges, fails)
      ensures Collaborators() == Run(old(Collaborators()), StartStreamingCalls(exchanges, fails), fails)
    {
      ghost var w0, t0 := Collaborators(), trace;
      ghost var done: seq<Call> := [];
      for vi := 0 to |exchanges|
        invariant done == Pairs(Walk(exchanges[..vi]), CreateAlgorithms, StartStream)
        invariant trace == t0 + done
        invariant Collaborators() == Run(w0, done, fails)
        invariant forall c :: c in done ==> c !in fails
      {
        VisitedWholeVenue(exchanges, vi);
        for ci := 0 to |exchanges[vi].contexts|
          invariant done == Pairs(Visited(exchanges, vi, ci), CreateAlgorithms, StartStream)
          invariant trace == t0 + done
          invariant Collaborators() == Run(w0, done, fails)
          invariant forall c :: c in done ==> c !in fails
        {
          var k := Key(vi, ci);
          var createdOk, started := StartContext(k, fails);
          ghost var issued := Attempted(k, createdOk);
          ConcatAssoc(t0, done, issued);
          RunConcat(w0, done, issued, fails);
          if !started {
            StartFailsAt(exchanges, fails, vi, ci, createdOk);
            ghost var stops := StopCalls(exchanges);
            var _ := StopStreaming(fails);
            RunConcat(w0, done + issued, stops, fails);
            ConcatAssoc(t0, done + issued, stops);
            return Some(StreamingFailure(exchanges[vi].name, if createdOk then StartStream else CreateAlgorithms));
          }
          VisitNext(exchanges, vi, ci, CreateAlgorithms, StartStream);
          done := done + issued;
        }
      }
      assert exchanges[..|exchanges|] == exchanges;
      ghost var sc := StartCalls(exchanges);
      assert forall j :: 0 <= j < |sc| ==> sc[j] !in fails by {
        forall j | 0 <= j < |sc| ensures sc[j] !in fails {
          assert sc[j] in sc;
        }
      }
      err := None;
    }

    /** startArbitrage: create the arbitrage algorithm; on error return it and
        launch no loop. A launched loop runs until the finish channel is
        closed, so after Stop it exits at once and the state stays Stopped. */
    method StartArbitrage(fails: set<Call>) returns (err: Option<Error>)
      modifies this`arbitrage, this`created, this`streaming, this`arbitrageCreated, this`trace
      ensures err == if CreateArbitrage in fails then Some(CannotStartArbitrage) else None
      ensures arbitrage == if err.Some? || old(arbitrage) == Stopped then old(arbitrage) else Running
      ensures trace == old(trace) + [CreateArbitrage]
      ensures Collaborators() == Step(old(Collaborators()), CreateArbitrage, fails)
    {
      var ok := Issue(CreateArbitrage, fails);
      if !ok {
        return Some(CannotStartArbitrage);
      }
      // go ArbitrageLoop()
      if arbitrage != Stopped {
        arbitrage := Running;
      }
      err := None;
    }

    /** stopArbitrageTrade: close the finish channel, then destroy the
        arbitrage algorithm (an error is only logged); always nil. Closing the
        channel a second time would panic, hence the precondition. */
    method StopArbitrageTrade(fails: set<Call>) returns (err: Option<Error>)
      requires arbitrage != Stopped
      modifies this`arbitrage, this`created, this`streaming, this`arbitrageCreated, this`trace
      ensures err == None
      ensures arbitrage == Stopped
      ensures trace == old(trace) + [DestroyArbitrage]
      ensures Collaborators() == Step(old(Collaborators()), DestroyArbitrage, fails)
    {
      arbitrage := Stopped;
      var ok := Issue(DestroyArbitrage, fails);
      err := None;
    }

    /** Start: startStreaming, then startArbitrage. A streaming error is
        returned and arbitrage is never attempted; an arbitrage error is
        returned with every stream left open. */
    method Start(fails: set<Call>) returns (err: Option<Error>)
      modifies this`arbitrage, this`created, this`streaming, this`arbitrageCreated, this`trace
      ensures StartStreamingError(exchanges, fails).Some? ==>
        err == Some(CannotStartStreaming(StartStreamingError(exchanges, fails).value)) &&
        arbitrage == old(arbitrage) &&
        trace == old(trace) + StartStreamingCalls(exchanges, fails) &&
        Collaborators() == Run(old(Collaborators()), StartStreamingCalls(exchanges, fails), fails)
      ensures StartStreamingError(exchanges, fails).None? ==>
        err == (if CreateArbitrage in fails then Some(CannotStartArbitrage) else None) &&
        arbitrage == (if err.Some? || old(arbitrage) == Stopped then old(arbitrage) else Running) &&
        trace == old(trace) + StartCalls(exchanges) + [CreateArbitrage] &&
        Collaborators() == Run(old(Collaborators()), StartCalls(exchanges) + [CreateArbitrage], fails)
      // every context is created and streaming afterwards, whatever startArbitrage returned
      ensures StartStreamingError(exchanges, fails).None? ==>
        forall k :: ValidKey(exchanges, k) ==> k in created && k in streaming
      // a failed start leaves no trade algorithms behind, given that only walked
      // contexts had any before and no destroy fails
      ensures (StartStreamingError(exchanges, fails).Some? &&
               (forall k :: k in old(created) ==> ValidKey(exchanges, k)) &&
               (forall k :: ValidKey(exchanges, k) ==> OnContext(DestroyAlgorithms, k) !in fails)) ==>
        created == {}
    {
      ghost var w0 := Collaborators();
      var e := StartStreaming(fails);
      if e.Some? {
        RollbackClearsEverything(exchanges, fails, w0);
        return Some(CannotStartStreaming(e.value));
      }
      SuccessfulStartOpensEverything(exchanges, fails, w0);
      ghost var w1 := Collaborators();
      err := StartArbitrage(fails);
      RunSnoc(w0, StartCalls(exchanges), CreateArbitrage, fails);
    }

    /** Stop: stopArbitrageTrade, then stopStreaming; errors are only logged
        and Stop always returns nil. */
    method Stop(fails: set<Call>) returns (err: Option<Error>)
      requires arbitrage != Stopped
      modifies this`arbitrage, this`created, this`streaming, this`arbitrageCreated, this`trace
      ensures err == None
      ensures arbitrage == Stopped
      ensures trace == old(trace) + [DestroyArbitrage] + StopCalls(exchanges)
      ensures Collaborators() == Run(old(Collaborators()), [DestroyArbitrage] + StopCalls(exchanges), fails)
      ensures !arbitrageCreated <==> DestroyArbitrage !in fails || !old(arbitrageCreated)
    {
      ghost var w0 := Collaborators();
      var e := StopArbitrageTrade(fails);
      ghost var w1 := Collaborators();
      e := StopStreaming(fails);
      RunConcat(w0, [DestroyArbitrage], StopCalls(exchanges), fails);
      StopStreamingEffect(exchanges, fails, w1);
      err := None;
    }

    /** initHttpServer: nothing for an empty address; otherwise the graceful
        server is made and an error is returned if its bind fails within the
        wait window (`bindFails`). */
    method InitHttpServer(addrPort: string, bindFails: bool) returns (err: bool)
      modifies this`server
      ensures server == ServerAfterInit(old(server), addrPort)
      ensures err <==> addrPort != "" && bindFails
    {
      if addrPort == "" {
        return false;
      }
      server := Opened;
      err := bindFails;
    }

    /** Finalize, corrected: closes the server if there is one. */
    method Finalize() returns (err: Option<Error>)
      modifies this`server
      ensures server == FinalizeServer(old(server))
      ensures err == None
    {
      if server != NoServer {
        server := Closed;
      }
      err := None;
    }

    /** Initialize: bring up the HTTP server (its error is formatted and
        dropped, so the loop runs regardless), then build and record every
        eligible venue; the first failed construction calls Finalize and is
        returned, leaving earlier entries in place. */
    method Initialize(addrPort: string, bindFails: bool, registrations: seq<Registration>, configured: set<string>)
      returns (err: Option<Error>)
      requires Valid()
      modifies this`exchanges, this`server
      ensures Valid()
      ensures exchanges == Register(old(exchanges), registrations, configured).venues
      ensures err == match Register(old(exchanges), registrations, configured).failed
        case None => None
        case Some(name) => Some(CannotCreateExchange(name))
      ensures server == if err.Some? then FinalizeServer(ServerAfterInit(old(server), addrPort))
                        else ServerAfterInit(old(server), addrPort)
    {
      var httpErr := InitHttpServer(addrPort, bindFails);
      // the source builds an error value for httpErr and discards it
      for r := 0 to |registrations|
        invariant Valid()
        invariant Register(old(exchanges), registrations, configured) == Register(exchanges, registrations[r..], configured)
        invariant server == ServerAfterInit(old(server), addrPort)
      {
        var g := registrations[r];
        assert registrations[r..][0] == g && registrations[r..][1..] == registrations[r + 1..];
        if g.name in configured && g.hasConstructor {
          match g.built
          case None =>
            var _ := Finalize();
            return Some(CannotCreateExchange(g.name));
          case Some(contexts) =>
            // ex.Initialize(streamingCallback): the connector keeps the callback
            exchanges := Put(exchanges, Venue(g.name, contexts));
        }
      }
      err := None;
    }
  }
}
