/** The calls the integrator makes to its collaborators (the robot, which
    owns the trade and arbitrage algorithms, and the exchange connectors,
    which own the streams), what those calls do to the collaborators'
    state, and the call sequences of startStreaming and stopStreaming. */
module Calls {
  import opened Wrappers
  import opened Venues

  datatype Op =
    | CreateAlgorithms   // robot.CreateTradeAlgorithms
    | StartStream        // exchange.StartStreaming
    | StopStream         // exchange.StopStreaming
    | DestroyAlgorithms  // robot.DestroyTradeAlgorithms
    | UpdateAlgorithms   // robot.UpdateTradeAlgorithms

  datatype Call =
    | OnContext(op: Op, key: Key)
    | CreateArbitrage    // robot.CreateArbitrageTradeAlgorithms
    | DestroyArbitrage   // robot.DestroyArbitrageTradeAlgorithms

  /** What the collaborators hold: the contexts with trade algorithms, the
      contexts with an open stream, and whether the arbitrage algorithm exists. */
  datatype World = World(created: set<Key>, streaming: set<Key>, arbitrage: bool)

  /** The effect of one call. A call in `fails` returns an error and changes
      nothing; removing what is absent is a no-op. */
  function Step(w: World, c: Call, fails: set<Call>): World {
    if c in fails then w
    else match c
      case OnContext(CreateAlgorithms, k) => w.(created := w.created + {k})
      case OnContext(StartStream, k) => w.(streaming := w.streaming + {k})
      case OnContext(StopStream, k) => w.(streaming := w.streaming - {k})
      case OnContext(DestroyAlgorithms, k) => w.(created := w.created - {k})
      case OnContext(UpdateAlgorithms, _) => w
      case CreateArbitrage => w.(arbitrage := true)
      case DestroyArbitrage => w.(arbitrage := false)
  }

  function Run(w: World, cs: seq<Call>, fails: set<Call>): World
    decreases cs
  {
    if cs == [] then w else Run(Step(w, cs[0], fails), cs[1..], fails)
  }

  /** For each key in order, the call `first` on it and then the call `second`. */
  function Pairs(ks: seq<Key>, first: Op, second: Op): (cs: seq<Call>)
    ensures |cs| == 2 * |ks|
  {
    if ks == [] then []
    else [OnContext(first, ks[0]), OnContext(second, ks[0])] + Pairs(ks[1..], first, second)
  }

  /** The calls of a fault-free startStreaming: create, then start, per context. */
  function StartCalls(venues: seq<Venue>): seq<Call> {
    Pairs(Walk(venues), CreateAlgorithms, StartStream)
  }

  /** The calls of stopStreaming, whatever their outcome: stop, then destroy, per context. */
  function StopCalls(venues: seq<Venue>): seq<Call> {
    Pairs(Walk(venues), StopStream, DestroyAlgorithms)
  }

  /** The index of the first call of `cs` that fails, if any. */
  function FirstFailure(cs: seq<Call>, fails: set<Call>): (r: Option<nat>)
    ensures r.None? <==> forall j :: 0 <= j < |cs| ==> cs[j] !in fails
    ensures r.Some? ==> r.value < |cs| && cs[r.value] in fails
    ensures r.Some? ==> forall j :: 0 <= j < r.value ==> cs[j] !in fails
  {
    if cs == [] then None
    else if cs[0] in fails then Some(0)
    else match FirstFailure(cs[1..], fails)
      case None => None
      case Some(i) => Some(i + 1)
  }

  /** The calls startStreaming issues: all of StartCalls, or those up to
      and including the first that fails followed by the whole of stopStreaming. */
  function StartStreamingCalls(venues: seq<Venue>, fails: set<Call>): seq<Call> {
    var sc := StartCalls(venues);
    match FirstFailure(sc, fails)
    case None => sc
    case Some(i) => sc[..i + 1] + StopCalls(venues)
  }

  /** The error startStreaming returns: the venue and the step that failed. */
  datatype StreamingFailure = StreamingFailure(venue: string, op: Op)

  function StartStreamingError(venues: seq<Venue>, fails: set<Call>): Option<StreamingFailure> {
    match FirstFailure(StartCalls(venues), fails)
    case None => None
    case Some(i) =>
      var k := Walk(venues)[i / 2];
      assert k in Walk(venues);
      Some(StreamingFailure(venues[k.venue].name, if i % 2 == 0 then CreateAlgorithms else StartStream))
  }

  /** The number of context calls of kind `op` in `cs`. */
  function CountOp(cs: seq<Call>, op: Op): nat {
    if cs == [] then 0
    else (if cs[0].OnContext? && cs[0].op == op then 1 else 0) + CountOp(cs[1..], op)
  }

  // ---------------------------------------------------------------------
  // Helper facts about Run and Pairs

  lemma {:induction false} RunConcat(w: World, a: seq<Call>, b: seq<Call>, fails: set<Call>)
    ensures Run(w, a + b, fails) == Run(Run(w, a, fails), b, fails)
    decreases a
  {
    if a == [] {
      assert a + b == b;
    } else {
      assert (a + b)[0] == a[0] && (a + b)[1..] == a[1..] + b;
      RunConcat(Step(w, a[0], fails), a[1..], b, fails);
    }
  }

  lemma ConcatAssoc(a: seq<Call>, b: seq<Call>, c: seq<Call>)
    ensures (a + b) + c == a + (b + c)
  {
  }

  lemma RunSnoc(w: World, a: seq<Call>, c: Call, fails: set<Call>)
    ensures Run(w, a + [c], fails) == Step(Run(w, a, fails), c, fails)
  {
    RunConcat(w, a, [c], fails);
  }

  lemma {:induction false} PairsConcat(a: seq<Key>, b: seq<Key>, first: Op, second: Op)
    ensures Pairs(a + b, first, second) == Pairs(a, first, second) + Pairs(b, first, second)
    decreases a
  {
    if a == [] {
      assert a + b == b;
    } else {
      assert (a + b)[0] == a[0] && (a + b)[1..] == a[1..] + b;
      PairsConcat(a[1..], b, first, second);
    }
  }

  lemma PairsSnoc(a: seq<Key>, k: Key, first: Op, second: Op)
    ensures Pairs(a + [k], first, second) == Pairs(a, first, second) + [OnContext(first, k), OnContext(second, k)]
  {
    PairsConcat(a, [k], first, second);
  }

  /** Calls 2j and 2j + 1 of Pairs(ks) are `first` and `second` on key j. */
  lemma {:induction false} PairsAt(ks: seq<Key>, first: Op, second: Op, j: nat)
    requires j < |ks|
    ensures Pairs(ks, first, second)[2 * j] == OnContext(first, ks[j])
    ensures Pairs(ks, first, second)[2 * j + 1] == OnContext(second, ks[j])
  {
    if j > 0 {
      PairsAt(ks[1..], first, second, j - 1);
    }
  }

  /** Call i of Pairs(ks) is on key i / 2; even calls are `first`, odd ones `second`. */
  lemma PairsKeyAt(ks: seq<Key>, first: Op, second: Op, i: nat)
    requires i < 2 * |ks|
    ensures Pairs(ks, first, second)[i] == OnContext(if i % 2 == 0 then first else second, ks[i / 2])
  {
    var j := i / 2;
    PairsAt(ks, first, second, j);
    assert i == 2 * j || i == 2 * j + 1;
  }

  lemma PairsPrefix(ks: seq<Key>, n: nat, first: Op, second: Op)
    requires n <= |ks|
    ensures Pairs(ks[..n], first, second) == Pairs(ks, first, second)[..2 * n]
  {
    assert ks == ks[..n] + ks[n..];
    PairsConcat(ks[..n], ks[n..], first, second);
  }

  /** Every call of Pairs(ks) is `first` or `second` on a key of `ks`. */
  lemma {:induction false} PairsMembers(ks: seq<Key>, first: Op, second: Op)
    ensures forall c :: c in Pairs(ks, first, second) ==>
      c.OnContext? && (c.op == first || c.op == second) && c.key in ks
  {
    if ks != [] {
      PairsMembers(ks[1..], first, second);
    }
  }

  lemma CountTwo<T>(a: T, b: T, rest: seq<T>, y: T)
    ensures multiset([a, b] + rest)[y] == (if a == y then 1 else 0) + (if b == y then 1 else 0) + multiset(rest)[y]
  {
    assert [a, b] + rest == [a] + ([b] + rest);
  }

  lemma CountCons<T>(s: seq<T>, y: T)
    requires s != []
    ensures multiset(s)[y] == (if s[0] == y then 1 else 0) + multiset(s[1..])[y]
  {
    assert s == [s[0]] + s[1..];
  }

  lemma {:induction false} PairsCount(ks: seq<Key>, first: Op, second: Op, op: Op, k: Key)
    requires op == first || op == second
    requires first != second
    ensures multiset(Pairs(ks, first, second))[OnContext(op, k)] == multiset(ks)[k]
  {
    if ks != [] {
      PairsCount(ks[1..], first, second, op, k);
      CountTwo(OnContext(first, ks[0]), OnContext(second, ks[0]), Pairs(ks[1..], first, second), OnContext(op, k));
      CountCons(ks, k);
    }
  }

  lemma {:induction false} PairsCountOp(ks: seq<Key>, first: Op, second: Op)
    requires first != second
    ensures CountOp(Pairs(ks, first, second), first) == |ks|
    ensures CountOp(Pairs(ks, first, second), second) == |ks|
  {
    if ks != [] {
      var rest := Pairs(ks[1..], first, second);
      var cs := Pairs(ks, first, second);
      PairsCountOp(ks[1..], first, second);
      assert cs[1..][1..] == rest;
    }
  }

  /** Pairs walks every context of every venue exactly once, the two calls
      on one context adjacent and in order. */
  lemma PairsVisitEachOnce(venues: seq<Venue>, first: Op, second: Op, k: Key)
    requires first != second
    ensures multiset(Pairs(Walk(venues), first, second))[OnContext(first, k)] == if ValidKey(venues, k) then 1 else 0
    ensures multiset(Pairs(Walk(venues), first, second))[OnContext(second, k)] == if ValidKey(venues, k) then 1 else 0
    ensures var cs := Pairs(Walk(venues), first, second);
      ValidKey(venues, k) ==>
        exists i :: 0 <= i < |cs| - 1 && cs[i] == OnContext(first, k) && cs[i + 1] == OnContext(second, k)
  {
    var ks := Walk(venues);
    var cs := Pairs(ks, first, second);
    PairsCount(ks, first, second, first, k);
    PairsCount(ks, first, second, second, k);
    WalkCount(venues, k);
    if ValidKey(venues, k) {
      assert k in ks;
      var j :| 0 <= j < |ks| && ks[j] == k;
      PairsAt(ks, first, second, j);
      assert cs[2 * j] == OnContext(first, k) && cs[2 * j + 1] == OnContext(second, k);
    }
  }

  // ---------------------------------------------------------------------
  // startStreaming

  /** A fault-free startStreaming creates the trade algorithms of every
      context exactly once and starts its stream exactly once, the creation
      immediately before the start; it calls nothing for any other key. */
  lemma StartVisitsEachContextOnce(venues: seq<Venue>, k: Key)
    ensures multiset(StartCalls(venues))[OnContext(CreateAlgorithms, k)] == (if ValidKey(venues, k) then 1 else 0)
    ensures multiset(StartCalls(venues))[OnContext(StartStream, k)] == (if ValidKey(venues, k) then 1 else 0)
    ensures ValidKey(venues, k) ==>
      exists i :: 0 <= i < |StartCalls(venues)| - 1 &&
        StartCalls(venues)[i] == OnContext(CreateAlgorithms, k) &&
        StartCalls(venues)[i + 1] == OnContext(StartStream, k)
    ensures forall c :: c in StartCalls(venues) ==>
      c.OnContext? && ValidKey(venues, c.key) && c.op in {CreateAlgorithms, StartStream}
  {
    PairsVisitEachOnce(venues, CreateAlgorithms, StartStream, k);
    PairsMembers(Walk(venues), CreateAlgorithms, StartStream);
  }

  /** Running Pairs(ks, create, start) with no failing call adds every key of
      `ks` to both sets. */
  lemma {:induction false} RunStartPairs(w: World, ks: seq<Key>, fails: set<Call>)
    requires forall c :: c in Pairs(ks, CreateAlgorithms, StartStream) ==> c !in fails
    ensures var r := Run(w, Pairs(ks, CreateAlgorithms, StartStream), fails);
      r.arbitrage == w.arbitrage &&
      (forall k :: k in r.created <==> k in w.created || k in ks) &&
      (forall k :: k in r.streaming <==> k in w.streaming || k in ks)
    decreases ks
  {
    if ks != [] {
      var cs := Pairs(ks, CreateAlgorithms, StartStream);
      var k := ks[0];
      var w1 := Step(Step(w, OnContext(CreateAlgorithms, k), fails), OnContext(StartStream, k), fails);
      assert cs == [OnContext(CreateAlgorithms, k), OnContext(StartStream, k)] + Pairs(ks[1..], CreateAlgorithms, StartStream);
      RunConcat(w, [OnContext(CreateAlgorithms, k), OnContext(StartStream, k)], Pairs(ks[1..], CreateAlgorithms, StartStream), fails);
      RunStartPairs(w1, ks[1..], fails);
      assert forall x :: x in ks <==> x == k || x in ks[1..];
    }
  }

  /** When no create or start fails, startStreaming leaves every context of
      every venue with trade algorithms and an open stream, adds nothing else
      and leaves the arbitrage algorithm alone. */
  lemma SuccessfulStartOpensEverything(venues: seq<Venue>, fails: set<Call>, w: World)
    requires FirstFailure(StartCalls(venues), fails).None?
    ensures StartStreamingCalls(venues, fails) == StartCalls(venues)
    ensures var r := Run(w, StartStreamingCalls(venues, fails), fails);
      r.arbitrage == w.arbitrage &&
      (forall k :: k in r.created <==> k in w.created || ValidKey(venues, k)) &&
      (forall k :: k in r.streaming <==> k in w.streaming || ValidKey(venues, k))
  {
    var sc := StartCalls(venues);
    forall c | c in sc ensures c !in fails {
      var j :| 0 <= j < |sc| && sc[j] == c;
    }
    RunStartPairs(w, Walk(venues), fails);
  }

  /** When a create or start fails, startStreaming attempts no create and no
      start on any later context of that venue or any later venue, and when
      the create failed it does not start that context's stream either. */
  lemma FailedStartAttemptsNothingLater(venues: seq<Venue>, fails: set<Call>)
    requires FirstFailure(StartCalls(venues), fails).Some?
    ensures var i := FirstFailure(StartCalls(venues), fails).value;
      var failed := Walk(venues)[i / 2];
      var t := StartStreamingCalls(venues, fails);
      (forall k :: KeyBefore(failed, k) ==>
         OnContext(CreateAlgorithms, k) !in t && OnContext(StartStream, k) !in t) &&
      (i % 2 == 0 ==> OnContext(StartStream, failed) !in t)
  {
    var ks := Walk(venues);
    var sc := StartCalls(venues);
    var i := FirstFailure(sc, fails).value;
    var failed := ks[i / 2];
    var t := StartStreamingCalls(venues, fails);
    assert t == sc[..i + 1] + StopCalls(venues);
    WalkSorted(venues);
    PairsMembers(ks, StopStream, DestroyAlgorithms);
    forall c | c in sc[..i + 1] && c.OnContext? && c.op in {CreateAlgorithms, StartStream}
      ensures !KeyBefore(failed, c.key)
      ensures i % 2 == 0 ==> c != OnContext(StartStream, failed)
    {
      var j :| 0 <= j < i + 1 && sc[..i + 1][j] == c;
      PairsKeyAt(ks, CreateAlgorithms, StartStream, j);
    }
  }

  /** Running Pairs(ks, stop, destroy) removes every key of `ks` whose call
      succeeds, from the matching set. */
  lemma {:induction false} RunStopPairs(w: World, ks: seq<Key>, fails: set<Call>)
    ensures var r := Run(w, Pairs(ks, StopStream, DestroyAlgorithms), fails);
      r.arbitrage == w.arbitrage &&
      (forall k :: k in r.created <==>
         k in w.created && !(k in ks && OnContext(DestroyAlgorithms, k) !in fails)) &&
      (forall k :: k in r.streaming <==>
         k in w.streaming && !(k in ks && OnContext(StopStream, k) !in fails))
    decreases ks
  {
    if ks != [] {
      var k := ks[0];
      var two := [OnContext(StopStream, k), OnContext(DestroyAlgorithms, k)];
      var w1 := Step(Step(w, two[0], fails), two[1], fails);
      assert Pairs(ks, StopStream, DestroyAlgorithms) == two + Pairs(ks[1..], StopStream, DestroyAlgorithms);
      RunConcat(w, two, Pairs(ks[1..], StopStream, DestroyAlgorithms), fails);
      RunStopPairs(w1, ks[1..], fails);
      assert forall x :: x in ks <==> x == k || x in ks[1..];
    }
  }

  // ---------------------------------------------------------------------
  // stopStreaming

  /** stopStreaming stops and then destroys every context of every venue
      exactly once, whatever fails, and calls nothing for any other key. */
  lemma StopVisitsEveryContext(venues: seq<Venue>, k: Key)
    ensures multiset(StopCalls(venues))[OnContext(StopStream, k)] == (if ValidKey(venues, k) then 1 else 0)
    ensures multiset(StopCalls(venues))[OnContext(DestroyAlgorithms, k)] == (if ValidKey(venues, k) then 1 else 0)
    ensures ValidKey(venues, k) ==>
      exists i :: 0 <= i < |StopCalls(venues)| - 1 &&
        StopCalls(venues)[i] == OnContext(StopStream, k) &&
        StopCalls(venues)[i + 1] == OnContext(DestroyAlgorithms, k)
    ensures forall c :: c in StopCalls(venues) ==>
      c.OnContext? && ValidKey(venues, c.key) && c.op in {StopStream, DestroyAlgorithms}
  {
    PairsVisitEachOnce(venues, StopStream, DestroyAlgorithms, k);
    PairsMembers(Walk(venues), StopStream, DestroyAlgorithms);
  }

  /** After stopStreaming a context keeps its trade algorithms only if it is
      not one of the walked contexts or its destroy failed; likewise its stream. */
  lemma StopStreamingEffect(venues: seq<Venue>, fails: set<Call>, w: World)
    ensures var r := Run(w, StopCalls(venues), fails);
      r.arbitrage == w.arbitrage &&
      (forall k :: k in r.created <==>
         k in w.created && !(ValidKey(venues, k) && OnContext(DestroyAlgorithms, k) !in fails)) &&
      (forall k :: k in r.streaming <==>
         k in w.streaming && !(ValidKey(venues, k) && OnContext(StopStream, k) !in fails))
  {
    RunStopPairs(w, Walk(venues), fails);
  }

  /** A context the calls `cs` do not create gains no trade algorithms, and one
      they do not start gains no stream. */
  lemma {:induction false} RunAddsOnlyCalled(w: World, cs: seq<Call>, fails: set<Call>)
    ensures forall k :: k in Run(w, cs, fails).created ==> k in w.created || OnContext(CreateAlgorithms, k) in cs
    ensures forall k :: k in Run(w, cs, fails).streaming ==> k in w.streaming || OnContext(StartStream, k) in cs
    decreases cs
  {
    if cs != [] {
      RunAddsOnlyCalled(Step(w, cs[0], fails), cs[1..], fails);
    }
  }

  /** Rollback: after a failed startStreaming, the only trade algorithms left
      are those of contexts outside the walk that existed before, and those
      whose destroy failed; likewise the streams. So when every context held
      before was a walked one and no destroy (stop) fails, none remain. */
  lemma RollbackClearsEverything(venues: seq<Venue>, fails: set<Call>, w: World)
    requires FirstFailure(StartCalls(venues), fails).Some?
    ensures var r := Run(w, StartStreamingCalls(venues, fails), fails);
      r.arbitrage == w.arbitrage &&
      (forall k :: k in r.created ==>
         (k in w.created && !ValidKey(venues, k)) || OnContext(DestroyAlgorithms, k) in fails) &&
      (forall k :: k in r.streaming ==>
         (k in w.streaming && !ValidKey(venues, k)) || OnContext(StopStream, k) in fails)
    ensures ((forall k :: k in w.created ==> ValidKey(venues, k)) &&
             (forall k :: ValidKey(venues, k) ==> OnContext(DestroyAlgorithms, k) !in fails)) ==>
      Run(w, StartStreamingCalls(venues, fails), fails).created == {}
    ensures ((forall k :: k in w.streaming ==> ValidKey(venues, k)) &&
             (forall k :: ValidKey(venues, k) ==> OnContext(StopStream, k) !in fails)) ==>
      Run(w, StartStreamingCalls(venues, fails), fails).streaming == {}
  {
    var sc := StartCalls(venues);
    var i := FirstFailure(sc, fails).value;
    var prefix := sc[..i + 1];
    var mid := Run(w, prefix, fails);
    RunConcat(w, prefix, StopCalls(venues), fails);
    RunAddsOnlyCalled(w, prefix, fails);
    StopStreamingEffect(venues, fails, mid);
    PairsMembers(Walk(venues), CreateAlgorithms, StartStream);
    assert forall c :: c in prefix ==> c in sc;
    RunArbitrageUntouched(w, prefix, fails);
    var r := Run(w, StartStreamingCalls(venues, fails), fails);
    if (forall k :: k in w.created ==> ValidKey(venues, k)) &&
       (forall k :: ValidKey(venues, k) ==> OnContext(DestroyAlgorithms, k) !in fails) {
      forall k | k in r.created ensures false {
      }
    }
    if (forall k :: k in w.streaming ==> ValidKey(venues, k)) &&
       (forall k :: ValidKey(venues, k) ==> OnContext(StopStream, k) !in fails) {
      forall k | k in r.streaming ensures false {
      }
    }
  }

  lemma {:induction false} RunArbitrageUntouched(w: World, cs: seq<Call>, fails: set<Call>)
    requires forall c :: c in cs ==> c.OnContext?
    ensures Run(w, cs, fails).arbitrage == w.arbitrage
    decreases cs
  {
    if cs != [] {
      RunArbitrageUntouched(Step(w, cs[0], fails), cs[1..], fails);
    }
  }

  /** Moving from context ci to ci + 1 of venue vi adds the two calls on (vi, ci). */
  lemma VisitNext(venues: seq<Venue>, vi: nat, ci: nat, first: Op, second: Op)
    requires vi < |venues| && ci < |venues[vi].contexts|
    ensures Pairs(Visited(venues, vi, ci + 1), first, second) ==
      Pairs(Visited(venues, vi, ci), first, second) + [OnContext(first, Key(vi, ci)), OnContext(second, Key(vi, ci))]
  {
    assert Visited(venues, vi, ci + 1) == Visited(venues, vi, ci) + [Key(vi, ci)];
    PairsSnoc(Visited(venues, vi, ci), Key(vi, ci), first, second);
  }

  /** Running two more calls. */
  lemma RunSnoc2(w: World, a: seq<Call>, c: Call, d: Call, fails: set<Call>)
    ensures Run(w, a + [c, d], fails) == Step(Step(Run(w, a, fails), c, fails), d, fails)
  {
    RunSnoc(w, a, c, fails);
    RunSnoc(w, a + [c], d, fails);
    assert a + [c] + [d] == a + [c, d];
  }

  /** startStreaming (without failures) and stopStreaming each make exactly one
      call of each of their two kinds per context: with venues of 3 and 0
      contexts, in either order, 3 creates, 3 starts, 3 stops and 3 destroys. */
  lemma CallCounts(venues: seq<Venue>)
    ensures CountOp(StartCalls(venues), CreateAlgorithms) == TotalContexts(venues)
    ensures CountOp(StartCalls(venues), StartStream) == TotalContexts(venues)
    ensures CountOp(StopCalls(venues), StopStream) == TotalContexts(venues)
    ensures CountOp(StopCalls(venues), DestroyAlgorithms) == TotalContexts(venues)
  {
    var k := Key(0, 0);
    WalkCount(venues, k);
    PairsCountOp(Walk(venues), CreateAlgorithms, StartStream);
    PairsCountOp(Walk(venues), StopStream, DestroyAlgorithms);
  }

  // ---------------------------------------------------------------------
  // The steps by which the startStreaming loop establishes its contract

  /** The calls startStreaming makes on the context where it stops: the
      failed create alone, or the create and then the failed start. */
  function Attempted(k: Key, atStart: bool): (cs: seq<Call>)
    ensures |cs| == if atStart then 2 else 1
    ensures cs[0] == OnContext(CreateAlgorithms, k)
  {
    if atStart then [OnContext(CreateAlgorithms, k), OnContext(StartStream, k)]
    else [OnContext(CreateAlgorithms, k)]
  }

  lemma RunAttempted(w: World, k: Key, atStart: bool, fails: set<Call>)
    ensures Run(w, Attempted(k, atStart), fails) ==
      var w1 := Step(w, OnContext(CreateAlgorithms, k), fails);
      if atStart then Step(w1, OnContext(StartStream, k), fails) else w1
  {
    var a := Attempted(k, atStart);
    var w1 := Step(w, a[0], fails);
    assert Run(w, a, fails) == Run(w1, a[1..], fails);
    if atStart {
      assert a[1..][1..] == [];
      assert Run(w1, a[1..], fails) == Run(Step(w1, a[1], fails), [], fails);
    } else {
      assert a[1..] == [];
    }
  }

  /** If every call before context (vi, ci) succeeded and its create fails
      (`atStart` false) or its create succeeds and its start fails (`atStart`
      true), startStreaming reports that venue and step, and its calls are
      those before the context, those attempted on it, and stopStreaming's. */
  lemma StartFailsAt(venues: seq<Venue>, fails: set<Call>, vi: nat, ci: nat, atStart: bool)
    requires vi < |venues| && ci < |venues[vi].contexts|
    requires forall c :: c in Pairs(Visited(venues, vi, ci), CreateAlgorithms, StartStream) ==> c !in fails
    requires atStart ==> OnContext(CreateAlgorithms, Key(vi, ci)) !in fails
    requires OnContext(if atStart then StartStream else CreateAlgorithms, Key(vi, ci)) in fails
    ensures StartStreamingError(venues, fails) ==
      Some(StreamingFailure(venues[vi].name, if atStart then StartStream else CreateAlgorithms))
    ensures StartStreamingCalls(venues, fails) ==
      Pairs(Visited(venues, vi, ci), CreateAlgorithms, StartStream) + Attempted(Key(vi, ci), atStart) +
      StopCalls(venues)
  {
    StartFailsFirst(venues, fails, vi, ci, atStart);
    var m := FirstFailure(StartCalls(venues), fails).value;
    StartFailsError(venues, fails, vi, ci, atStart, m);
    StartFailsCalls(venues, fails, vi, ci, atStart, m);
  }

  lemma StartFailsError(venues: seq<Venue>, fails: set<Call>, vi: nat, ci: nat, atStart: bool, m: nat)
    requires vi < |venues| && ci < |venues[vi].contexts|
    requires m == 2 * |Visited(venues, vi, ci)| + (if atStart then 1 else 0)
    requires FirstFailure(StartCalls(venues), fails) == Some(m)
    ensures StartStreamingError(venues, fails) ==
      Some(StreamingFailure(venues[vi].name, if atStart then StartStream else CreateAlgorithms))
  {
    var n := |Visited(venues, vi, ci)|;
    WalkAt(venues, vi, ci);
    assert m / 2 == n && (m % 2 == 0 <==> !atStart);
  }

  lemma StartFailsCalls(venues: seq<Venue>, fails: set<Call>, vi: nat, ci: nat, atStart: bool, m: nat)
    requires vi < |venues| && ci < |venues[vi].contexts|
    requires m == 2 * |Visited(venues, vi, ci)| + (if atStart then 1 else 0)
    requires FirstFailure(StartCalls(venues), fails) == Some(m)
    ensures StartStreamingCalls(venues, fails) ==
      Pairs(Visited(venues, vi, ci), CreateAlgorithms, StartStream) + Attempted(Key(vi, ci), atStart) +
      StopCalls(venues)
  {
    var sc := StartCalls(venues);
    assert StartStreamingCalls(venues, fails) == sc[..m + 1] + StopCalls(venues);
    StartFailsPrefix(venues, vi, ci, atStart);
    var before := Pairs(Visited(venues, vi, ci), CreateAlgorithms, StartStream);
    assert sc[..m + 1] == before + Attempted(Key(vi, ci), atStart);
  }

  /** The index of the first failing call in that case. */
  lemma StartFailsFirst(venues: seq<Venue>, fails: set<Call>, vi: nat, ci: nat, atStart: bool)
    requires vi < |venues| && ci < |venues[vi].contexts|
    requires forall c :: c in Pairs(Visited(venues, vi, ci), CreateAlgorithms, StartStream) ==> c !in fails
    requires atStart ==> OnContext(CreateAlgorithms, Key(vi, ci)) !in fails
    requires OnContext(if atStart then StartStream else CreateAlgorithms, Key(vi, ci)) in fails
    ensures FirstFailure(StartCalls(venues), fails) ==
      Some(2 * |Visited(venues, vi, ci)| + (if atStart then 1 else 0))
  {
    var sc := StartCalls(venues);
    var n := |Visited(venues, vi, ci)|;
    var m := 2 * n + (if atStart then 1 else 0);
    StartCallsAt(venues, vi, ci);
    forall j | 0 <= j < m ensures sc[j] !in fails {
      if j < 2 * n {
        assert sc[j] == sc[..2 * n][j];
      }
    }
    var r := FirstFailure(sc, fails);
    assert !(r.value < m) && !(r.value > m);
  }

  /** The calls of StartCalls up to and including the one that fails on (vi, ci). */
  lemma StartFailsPrefix(venues: seq<Venue>, vi: nat, ci: nat, atStart: bool)
    requires vi < |venues| && ci < |venues[vi].contexts|
    ensures var n := |Visited(venues, vi, ci)|;
      2 * n + 1 < |StartCalls(venues)| &&
      Walk(venues)[n] == Key(vi, ci) &&
      StartCalls(venues)[..2 * n + (if atStart then 1 else 0) + 1] ==
        Pairs(Visited(venues, vi, ci), CreateAlgorithms, StartStream) + Attempted(Key(vi, ci), atStart)
  {
    var sc := StartCalls(venues);
    var n := |Visited(venues, vi, ci)|;
    StartCallsAt(venues, vi, ci);
    if atStart {
      TakeTwo(sc, 2 * n);
    } else {
      TakeOne(sc, 2 * n);
    }
  }

  lemma TakeOne<T>(s: seq<T>, n: nat)
    requires n < |s|
    ensures s[..n + 1] == s[..n] + [s[n]]
  {
  }

  lemma TakeTwo<T>(s: seq<T>, n: nat)
    requires n + 1 < |s|
    ensures s[..n + 2] == s[..n] + [s[n], s[n + 1]]
  {
    assert s[..n + 2] == s[..n + 1] + [s[n + 1]];
    TakeOne(s, n);
  }

  /** Where the calls on context (vi, ci) sit in StartCalls. */
  lemma StartCallsAt(venues: seq<Venue>, vi: nat, ci: nat)
    requires vi < |venues| && ci < |venues[vi].contexts|
    ensures var n := |Visited(venues, vi, ci)|;
      2 * n + 1 < |StartCalls(venues)| &&
      Walk(venues)[n] == Key(vi, ci) &&
      StartCalls(venues)[..2 * n] == Pairs(Visited(venues, vi, ci), CreateAlgorithms, StartStream) &&
      StartCalls(venues)[2 * n] == OnContext(CreateAlgorithms, Key(vi, ci)) &&
      StartCalls(venues)[2 * n + 1] == OnContext(StartStream, Key(vi, ci))
  {
    var ks := Walk(venues);
    var n := |Visited(venues, vi, ci)|;
    WalkAt(venues, vi, ci);
    PairsPrefix(ks, n, CreateAlgorithms, StartStream);
    PairsAt(ks, CreateAlgorithms, StartStream, n);
  }
}
