/** Venues (the exchanges map of the integrator), their trade contexts, and
    the order in which startStreaming and stopStreaming walk them. */
module Venues {

  /** A tradable instrument of a venue; `id` keys its trade algorithms. */
  datatype TradeContext = TradeContext(id: string)

  /** A connected venue: its name and what its trade-context cursor yields.
      The cursor is finite and restartable, so every walk yields this same
      sequence. */
  datatype Venue = Venue(name: string, contexts: seq<TradeContext>)

  /** The position of one trade context: the venue's place in the (fixed,
      arbitrary) iteration order of the exchanges map, and the context's
      place in that venue's cursor. */
  datatype Key = Key(venue: nat, ctx: nat)

  predicate ValidKey(venues: seq<Venue>, k: Key) {
    k.venue < |venues| && k.ctx < |venues[k.venue].contexts|
  }

  /** Walk order: `b` lies in a later venue, or later in the same venue. */
  predicate KeyBefore(a: Key, b: Key) {
    a.venue < b.venue || (a.venue == b.venue && a.ctx < b.ctx)
  }

  /** The keys of the first `n` contexts of venue `v`. */
  function VenueKeys(v: nat, n: nat): (ks: seq<Key>)
    ensures |ks| == n
  {
    if n == 0 then [] else VenueKeys(v, n - 1) + [Key(v, n - 1)]
  }

  /** Key j of venue v's keys is context j. */
  lemma {:induction false} VenueKeysAt(v: nat, n: nat)
    ensures forall j :: 0 <= j < n ==> VenueKeys(v, n)[j] == Key(v, j)
  {
    if n > 0 {
      VenueKeysAt(v, n - 1);
    }
  }

  /** The keys visited by the nested venue/cursor loops, in visiting order:
      exactly the contexts of the venues, each once, in walk order. */
  function Walk(venues: seq<Venue>): (ks: seq<Key>)
    ensures forall k :: k in ks <==> ValidKey(venues, k)
  {
    if venues == [] then []
    else
      var n := |venues| - 1;
      var front, last := Walk(venues[..n]), VenueKeys(n, |venues[n].contexts|);
      assert forall k: Key :: k in last <==> k.venue == n && k.ctx < |venues[n].contexts| by {
        VenueKeysAt(n, |venues[n].contexts|);
        forall k: Key | k.venue == n && k.ctx < |venues[n].contexts| ensures k in last {
          assert last[k.ctx] == k;
        }
      }
      front + last
  }

  /** The keys visited before context `ci` of venue `vi`. */
  function Visited(venues: seq<Venue>, vi: nat, ci: nat): seq<Key>
    requires vi <= |venues|
  {
    Walk(venues[..vi]) + VenueKeys(vi, ci)
  }

  /** The total number of contexts over all venues. */
  function TotalContexts(venues: seq<Venue>): nat {
    if venues == [] then 0
    else TotalContexts(venues[..|venues| - 1]) + |venues[|venues| - 1].contexts|
  }

  /** Every walk visits its keys in strictly increasing walk order. */
  lemma {:induction false} WalkSorted(venues: seq<Venue>)
    ensures forall a, b :: 0 <= a < b < |Walk(venues)| ==> KeyBefore(Walk(venues)[a], Walk(venues)[b])
  {
    if venues != [] {
      var n := |venues| - 1;
      var front, last := Walk(venues[..n]), VenueKeys(n, |venues[n].contexts|);
      WalkSorted(venues[..n]);
      VenueKeysAt(n, |venues[n].contexts|);
      forall a, b | 0 <= a < b < |front + last|
        ensures KeyBefore((front + last)[a], (front + last)[b])
      {
        if b >= |front| {
          if a < |front| {
            assert front[a] in front;
          }
        }
      }
    }
  }

  /** Finishing venue `vi` is the same as having walked the first `vi + 1` venues. */
  lemma VisitedWholeVenue(venues: seq<Venue>, vi: nat)
    requires vi < |venues|
    ensures Visited(venues, vi, 0) == Walk(venues[..vi])
    ensures Visited(venues, vi, |venues[vi].contexts|) == Walk(venues[..vi + 1])
    ensures Visited(venues, vi + 1, 0) == Walk(venues[..vi + 1])
  {
    assert venues[..vi + 1][..vi] == venues[..vi];
    assert Walk(venues[..vi]) + [] == Walk(venues[..vi]);
  }

  /** Walking a prefix of the venues yields a prefix of the whole walk. */
  lemma {:induction false} WalkOfPrefix(venues: seq<Venue>, n: nat)
    requires n <= |venues|
    ensures Walk(venues[..n]) <= Walk(venues)
    decreases |venues|
  {
    if n < |venues| {
      var m := |venues| - 1;
      assert venues[..m][..n] == venues[..n];
      WalkOfPrefix(venues[..m], n);
    } else {
      assert venues[..n] == venues;
    }
  }

  /** Context `ci` of venue `vi` is visited right after Visited(venues, vi, ci). */
  lemma WalkAt(venues: seq<Venue>, vi: nat, ci: nat)
    requires vi < |venues| && ci < |venues[vi].contexts|
    ensures |Visited(venues, vi, ci)| < |Walk(venues)|
    ensures Walk(venues)[..|Visited(venues, vi, ci)|] == Visited(venues, vi, ci)
    ensures Walk(venues)[|Visited(venues, vi, ci)|] == Key(vi, ci)
  {
    var front := Walk(venues[..vi]);
    var all := VenueKeys(vi, |venues[vi].contexts|);
    var whole := Walk(venues[..vi + 1]);
    VisitedWholeVenue(venues, vi);
    assert whole == front + all;
    WalkOfPrefix(venues, vi + 1);
    VenueKeysAt(vi, ci);
    VenueKeysAt(vi, |venues[vi].contexts|);
    assert VenueKeys(vi, ci) == all[..ci];
    ConcatAt(front, all, ci);
    PrefixAt(whole, Walk(venues), |front| + ci);
  }

  lemma ConcatAt<T>(a: seq<T>, b: seq<T>, j: nat)
    requires j < |b|
    ensures (a + b)[..|a| + j] == a + b[..j]
    ensures (a + b)[|a| + j] == b[j]
  {
  }

  lemma PrefixAt<T>(p: seq<T>, s: seq<T>, i: nat)
    requires p <= s && i < |p|
    ensures s[..i] == p[..i] && s[i] == p[i]
  {
  }

  /** There are as many visited keys as contexts, and each context is visited once. */
  lemma {:induction false} WalkCount(venues: seq<Venue>, k: Key)
    ensures |Walk(venues)| == TotalContexts(venues)
    ensures multiset(Walk(venues))[k] == if ValidKey(venues, k) then 1 else 0
  {
    if venues != [] {
      var n := |venues| - 1;
      WalkCount(venues[..n], k);
      VenueKeysCount(n, |venues[n].contexts|, k);
    }
  }

  lemma {:induction false} VenueKeysCount(v: nat, n: nat, k: Key)
    ensures multiset(VenueKeys(v, n))[k] == if k.venue == v && k.ctx < n then 1 else 0
  {
    if n > 0 {
      var ks := VenueKeys(v, n - 1);
      var x := Key(v, n - 1);
      VenueKeysCount(v, n - 1, k);
      assert multiset(ks + [x]) == multiset(ks) + multiset{x};
      if k == x {
        assert multiset(ks + [x])[k] == multiset(ks)[k] + 1;
      } else {
        assert multiset(ks + [x])[k] == multiset(ks)[k];
      }
    }
  }
}
