/** The venue-registration loop of Initialize: for every registered connector
    whose configuration is present and whose constructor is non-nil, build
    the connector and record it in the exchanges map under its name. */
module Registry {
  import opened Wrappers
  import opened Venues

  /** One entry of the connector registry: the venue name, whether its
      constructor is non-nil, and what the constructor returns for that
      venue's configuration (None stands for an error). */
  datatype Registration = Registration(name: string, hasConstructor: bool, built: Option<seq<TradeContext>>)

  /** The name has a configuration section and a constructor: it is built. */
  predicate Eligible(g: Registration, configured: set<string>) {
    g.name in configured && g.hasConstructor
  }

  /** The exchanges map holds one entry per name. */
  ghost predicate DistinctNames(vs: seq<Venue>) {
    forall a, b :: 0 <= a < b < |vs| ==> vs[a].name != vs[b].name
  }

  /** `exchanges[v.name] = v` on the map, kept as a sequence in iteration
      order: an entry of the same name is replaced where it stands, otherwise
      `v` is appended; every other entry keeps its place. */
  function Put(vs: seq<Venue>, v: Venue): (r: seq<Venue>)
    requires DistinctNames(vs)
    ensures DistinctNames(r)
    ensures v in r
    ensures forall u :: u in r ==> u == v || (u in vs && u.name != v.name)
    ensures forall j :: 0 <= j < |vs| && vs[j].name != v.name ==> j < |r| && r[j] == vs[j]
    ensures |vs| <= |r| <= |vs| + 1
  {
    if vs == [] then [v]
    else if vs[0].name == v.name then
      assert forall u :: u in vs[1..] ==> u.name != v.name by {
        forall u | u in vs[1..] ensures u.name != v.name {
          var j :| 0 <= j < |vs[1..]| && vs[1..][j] == u;
          assert vs[j + 1] == u;
        }
      }
      [v] + vs[1..]
    else
      var rest := Put(vs[1..], v);
      assert forall u :: u in rest ==> u.name != vs[0].name by {
        forall u | u in rest ensures u.name != vs[0].name {
          if u != v {
            var j :| 0 <= j < |vs[1..]| && vs[1..][j] == u;
            assert vs[j + 1] == u;
          }
        }
      }
      var r := [vs[0]] + rest;
      assert forall j :: 1 <= j < |r| ==> r[j] in rest;
      r
  }

  /** What the loop leaves: the exchanges map, and the name whose
      construction failed, if any. */
  datatype Outcome = Outcome(venues: seq<Venue>, failed: Option<string>)

  function Register(vs: seq<Venue>, regs: seq<Registration>, configured: set<string>): Outcome
    requires DistinctNames(vs)
    decreases regs
  {
    if regs == [] then Outcome(vs, None)
    else
      var g := regs[0];
      if !Eligible(g, configured) then Register(vs, regs[1..], configured)
      else match g.built
        case None => Outcome(vs, Some(g.name))
        case Some(contexts) => Register(Put(vs, Venue(g.name, contexts)), regs[1..], configured)
  }

  /** Only eligible registrations are constructed: every entry afterwards was
      there before or is the result of an eligible registration's
      constructor, and names stay distinct. */
  lemma {:induction false} RegisterOnlyEligible(vs: seq<Venue>, regs: seq<Registration>, configured: set<string>)
    requires DistinctNames(vs)
    ensures DistinctNames(Register(vs, regs, configured).venues)
    ensures forall u :: u in Register(vs, regs, configured).venues ==>
      u in vs ||
      exists g :: g in regs && Eligible(g, configured) && g.name == u.name && g.built == Some(u.contexts)
    decreases regs
  {
    if regs != [] {
      var g := regs[0];
      if !Eligible(g, configured) {
        RegisterOnlyEligible(vs, regs[1..], configured);
      } else if g.built.Some? {
        RegisterOnlyEligible(Put(vs, Venue(g.name, g.built.value)), regs[1..], configured);
      }
    }
  }

  /** The registry names are distinct (they are the keys of a map). */
  ghost predicate DistinctRegistrations(regs: seq<Registration>) {
    forall a, b :: 0 <= a < b < |regs| ==> regs[a].name != regs[b].name
  }

  /** When no eligible construction fails, no error is returned, every
      eligible registration's venue is in the map under its name, and every
      earlier entry of another name is kept. */
  lemma {:induction false} RegisterAddsEach(vs: seq<Venue>, regs: seq<Registration>, configured: set<string>)
    requires DistinctNames(vs) && DistinctRegistrations(regs)
    requires forall g :: g in regs && Eligible(g, configured) ==> g.built.Some?
    ensures Register(vs, regs, configured).failed == None
    ensures forall g :: g in regs && Eligible(g, configured) ==>
      Venue(g.name, g.built.value) in Register(vs, regs, configured).venues
    ensures forall u :: u in vs && (forall g :: g in regs && Eligible(g, configured) ==> g.name != u.name) ==>
      u in Register(vs, regs, configured).venues
    decreases regs
  {
    if regs != [] {
      var g := regs[0];
      var rest := regs[1..];
      assert forall h :: h in rest ==> h.name != g.name by {
        forall h | h in rest ensures h.name != g.name {
          var j :| 0 <= j < |rest| && rest[j] == h;
          assert regs[j + 1] == h;
        }
      }
      assert DistinctRegistrations(rest) by {
        forall a, b | 0 <= a < b < |rest| ensures rest[a].name != rest[b].name {
          assert rest[a] == regs[a + 1] && rest[b] == regs[b + 1];
        }
      }
      assert forall h :: h in regs <==> h == g || h in rest;
      if !Eligible(g, configured) {
        RegisterAddsEach(vs, rest, configured);
      } else {
        var put := Put(vs, Venue(g.name, g.built.value));
        RegisterAddsEach(put, rest, configured);
      }
    }
  }

  /** The first eligible registration whose construction fails ends the loop:
      its name is returned as the error and the map keeps exactly what the
      earlier registrations put there. */
  lemma {:induction false} RegisterStopsAtFailure(vs: seq<Venue>, regs: seq<Registration>, configured: set<string>, i: nat)
    requires DistinctNames(vs)
    requires i < |regs| && Eligible(regs[i], configured) && regs[i].built.None?
    requires forall j :: 0 <= j < i && Eligible(regs[j], configured) ==> regs[j].built.Some?
    ensures Register(vs, regs[..i], configured).failed == None
    ensures Register(vs, regs, configured) ==
      Outcome(Register(vs, regs[..i], configured).venues, Some(regs[i].name))
    decreases regs
  {
    var g := regs[0];
    if i > 0 {
      assert regs[..i][0] == g && regs[..i][1..] == regs[1..][..i - 1];
      if !Eligible(g, configured) {
        RegisterStopsAtFailure(vs, regs[1..], configured, i - 1);
      } else {
        RegisterStopsAtFailure(Put(vs, Venue(g.name, g.built.value)), regs[1..], configured, i - 1);
      }
    }
  }
}
