/** Turning a client-facing model alias into ordered tiers of candidates. */
module Router {
  import opened Wrappers

  datatype Provider = Provider(name: string, priority: int, weight: int)

  datatype Candidate = Candidate(provider: string, model: string, weight: int)

  type Tier = seq<Candidate>

  type Models = map<string, string>

  // Entries that share a name agree; configuration validation does not check it.
  ghost predicate Consistent(ps: seq<Provider>) {
    forall i, j | 0 <= i < |ps| && 0 <= j < |ps| && ps[i].name == ps[j].name :: ps[i] == ps[j]
  }

  ghost predicate Sorted(ps: seq<Provider>) {
    forall i, j | 0 <= i < j < |ps| :: ps[i].priority <= ps[j].priority
  }

  // The candidates an alias offers at one priority, in configuration order.
  function CandidatesAt(ps: seq<Provider>, models: Models, priority: int): Tier {
    if ps == [] then []
    else
      var p := ps[|ps| - 1];
      CandidatesAt(ps[..|ps| - 1], models, priority)
      + if p.priority == priority && p.name in models then [Candidate(p.name, models[p.name], p.weight)] else []
  }

  // The ordering sort.SliceStable produces, by insertion.
  function Insert(ps: seq<Provider>, p: Provider): seq<Provider> {
    if ps == [] || ps[|ps| - 1].priority <= p.priority then ps + [p]
    else Insert(ps[..|ps| - 1], p) + [ps[|ps| - 1]]
  }

  function StableByPriority(ps: seq<Provider>): seq<Provider> {
    if ps == [] then [] else Insert(StableByPriority(ps[..|ps| - 1]), ps[|ps| - 1])
  }

  lemma {:induction false} InsertAdds(ps: seq<Provider>, p: Provider)
    ensures multiset(Insert(ps, p)) == multiset(ps) + multiset{p}
  {
    if ps != [] && ps[|ps| - 1].priority > p.priority {
      InsertAdds(ps[..|ps| - 1], p);
      assert ps == ps[..|ps| - 1] + [ps[|ps| - 1]];
    }
  }

  lemma SortedWith(ps: seq<Provider>, last: Provider)
    requires Sorted(ps) && forall q | q in ps :: q.priority <= last.priority
    ensures Sorted(ps + [last])
  {
  }

  lemma {:induction false} InsertSorts(ps: seq<Provider>, p: Provider)
    requires Sorted(ps)
    ensures Sorted(Insert(ps, p))
  {
    if ps != [] && ps[|ps| - 1].priority > p.priority {
      var front, last := ps[..|ps| - 1], ps[|ps| - 1];
      InsertSorts(front, p);
      InsertAdds(front, p);
      forall q | q in Insert(front, p) ensures q.priority <= last.priority {
        assert q in multiset(front) + multiset{p};
      }
      SortedWith(Insert(front, p), last);
    }
  }

  // What one provider adds to the candidates at a priority.
  function Offers(p: Provider, models: Models, priority: int): Tier {
    if p.priority == priority && p.name in models then [Candidate(p.name, models[p.name], p.weight)] else []
  }

  lemma CandidatesOneMore(ps: seq<Provider>, p: Provider, models: Models, priority: int)
    ensures CandidatesAt(ps + [p], models, priority) == CandidatesAt(ps, models, priority) + Offers(p, models, priority)
  {
    assert (ps + [p])[..|ps|] == ps;
  }

  // Providers of different priorities can change places.
  lemma OffersCommute(cs: Tier, p: Provider, q: Provider, models: Models, priority: int)
    requires p.priority != q.priority
    ensures (cs + Offers(p, models, priority)) + Offers(q, models, priority)
         == (cs + Offers(q, models, priority)) + Offers(p, models, priority)
  {
  }

  lemma FrontAndLast(ps: seq<Provider>)
    requires ps != []
    ensures ps[..|ps| - 1] + [ps[|ps| - 1]] == ps
  {
  }

  lemma {:induction false} InsertIsStable(ps: seq<Provider>, p: Provider, models: Models, priority: int)
    ensures CandidatesAt(Insert(ps, p), models, priority) == CandidatesAt(ps + [p], models, priority)
  {
    if ps != [] && ps[|ps| - 1].priority > p.priority {
      var front, last := ps[..|ps| - 1], ps[|ps| - 1];
      InsertIsStable(front, p, models, priority);
      CandidatesOneMore(Insert(front, p), last, models, priority);
      CandidatesOneMore(front, p, models, priority);
      CandidatesOneMore(ps, p, models, priority);
      FrontAndLast(ps);
      CandidatesOneMore(front, last, models, priority);
      OffersCommute(CandidatesAt(front, models, priority), p, last, models, priority);
    }
  }

  lemma {:induction false} SortKeeps(ps: seq<Provider>)
    ensures Sorted(StableByPriority(ps)) && multiset(StableByPriority(ps)) == multiset(ps)
  {
    if ps != [] {
      SortKeeps(ps[..|ps| - 1]);
      InsertSorts(StableByPriority(ps[..|ps| - 1]), ps[|ps| - 1]);
      InsertAdds(StableByPriority(ps[..|ps| - 1]), ps[|ps| - 1]);
      assert ps == ps[..|ps| - 1] + [ps[|ps| - 1]];
    }
  }

  /** Sorting by priority never reorders two candidates of the same priority. */
  lemma {:induction false} SortIsStable(ps: seq<Provider>, models: Models, priority: int)
    ensures CandidatesAt(StableByPriority(ps), models, priority) == CandidatesAt(ps, models, priority)
  {
    if ps != [] {
      var front, last := ps[..|ps| - 1], ps[|ps| - 1];
      SortIsStable(front, models, priority);
      InsertIsStable(StableByPriority(front), last, models, priority);
      assert (StableByPriority(front) + [last])[..|StableByPriority(front)|] == StableByPriority(front);
    }
  }

  lemma {:induction false} NoCandidates(ps: seq<Provider>, models: Models, priority: int)
    requires forall i | 0 <= i < |ps| && ps[i].name in models :: ps[i].priority != priority
    ensures CandidatesAt(ps, models, priority) == []
  {
    if ps != [] {
      NoCandidates(ps[..|ps| - 1], models, priority);
    }
  }

  ghost predicate Increasing(s: seq<int>) {
    forall i, j | 0 <= i < j < |s| :: s[i] < s[j]
  }

  // The tiers are the alias's candidates grouped by exactly the priorities it uses.
  ghost predicate Grouped(ps: seq<Provider>, models: Models, tiers: seq<Tier>, priorities: seq<int>) {
    && |tiers| == |priorities| && Increasing(priorities)
    && (forall k | 0 <= k < |tiers| :: tiers[k] == CandidatesAt(ps, models, priorities[k]) != [])
    && (forall i | 0 <= i < |ps| && ps[i].name in models :: ps[i].priority in priorities)
  }

  // The tiers are determined by the configuration: see ByPriorityOnce.
  ghost predicate ByPriority(ps: seq<Provider>, models: Models, tiers: seq<Tier>) {
    exists priorities :: Grouped(ps, models, tiers, priorities)
  }

  // The providers an alias offers at one priority, among the first n.
  function Peers(ps: seq<Provider>, models: Models, priority: int, n: nat): set<nat>
    requires n <= |ps|
  {
    set j: nat | j < n && ps[j].priority == priority && ps[j].name in models
  }

  lemma OneMorePeer(ps: seq<Provider>, models: Models, priority: int, n: nat)
    requires n < |ps|
    ensures |Peers(ps, models, priority, n + 1)|
         == |Peers(ps, models, priority, n)| + if ps[n].priority == priority && ps[n].name in models then 1 else 0
  {
    var added := if ps[n].priority == priority && ps[n].name in models then {n} else {};
    assert Peers(ps, models, priority, n + 1) == Peers(ps, models, priority, n) + added;
  }

  // The candidate provider i makes, and its place among those of its priority.
  predicate Placed(ps: seq<Provider>, models: Models, tier: Tier, i: nat)
    requires i < |ps| && ps[i].name in models
  {
    var place := |Peers(ps, models, ps[i].priority, i)|;
    place < |tier| && tier[place] == Candidate(ps[i].name, models[ps[i].name], ps[i].weight)
  }

  lemma SamePeers(ps: seq<Provider>, models: Models, priority: int, n: nat, m: nat)
    requires n <= m <= |ps|
    ensures Peers(ps[..m], models, priority, n) == Peers(ps, models, priority, n)
  {
  }

  lemma {:induction false} CandidatesInPlace(ps: seq<Provider>, models: Models, priority: int)
    ensures |CandidatesAt(ps, models, priority)| == |Peers(ps, models, priority, |ps|)|
    ensures forall i | 0 <= i < |ps| && ps[i].priority == priority && ps[i].name in models ::
              Placed(ps, models, CandidatesAt(ps, models, priority), i)
  {
    if ps != [] {
      var n := |ps| - 1;
      CandidatesInPlace(ps[..n], models, priority);
      SamePeers(ps, models, priority, n, n);
      OneMorePeer(ps, models, priority, n);
      forall i | 0 <= i < |ps| && ps[i].priority == priority && ps[i].name in models
        ensures Placed(ps, models, CandidatesAt(ps, models, priority), i)
      {
        if i < n {
          SamePeers(ps, models, priority, i, n);
          assert Placed(ps[..n], models, CandidatesAt(ps[..n], models, priority), i);
        }
      }
    }
  }

  /** What tiers by priority mean for any two providers the alias is configured for:
      each is a candidate at its place in configuration order, and the one with the
      lower priority is in the earlier tier. */
  lemma LowerPriorityFirst(ps: seq<Provider>, models: Models, tiers: seq<Tier>, i: nat, j: nat) returns (k: nat, m: nat)
    requires ByPriority(ps, models, tiers) && i < |ps| && j < |ps| && ps[i].name in models && ps[j].name in models
    ensures k < |tiers| && m < |tiers| && Placed(ps, models, tiers[k], i) && Placed(ps, models, tiers[m], j)
    ensures |tiers[k]| == |Peers(ps, models, ps[i].priority, |ps|)|
    ensures k < m <==> ps[i].priority < ps[j].priority
    ensures k == m <==> ps[i].priority == ps[j].priority
  {
    var priorities :| Grouped(ps, models, tiers, priorities);
    k :| k < |priorities| && priorities[k] == ps[i].priority;
    m :| m < |priorities| && priorities[m] == ps[j].priority;
    CandidatesInPlace(ps, models, ps[i].priority);
    CandidatesInPlace(ps, models, ps[j].priority);
  }

  function WeightOf(weights: map<string, int>, name: string): int {
    if name in weights then weights[name] else 0
  }

  // An explicit chain is one singleton tier per link, in order; a link whose weight is
  // 0 keeps its tier but can never be chosen there.
  function ChainTiers(chain: seq<string>, models: Models, weights: map<string, int>): seq<Tier> {
    if chain == [] then []
    else
      var name := chain[|chain| - 1];
      ChainTiers(chain[..|chain| - 1], models, weights)
      + if name in models then [[Candidate(name, models[name], WeightOf(weights, name))]] else []
  }

  lemma {:induction false} ChainJoins(a: seq<string>, b: seq<string>, models: Models, weights: map<string, int>)
    ensures ChainTiers(a + b, models, weights) == ChainTiers(a, models, weights) + ChainTiers(b, models, weights)
  {
    if b == [] {
      assert a + b == a;
    } else {
      ChainJoins(a, b[..|b| - 1], models, weights);
      assert (a + b)[..|a + b| - 1] == a + b[..|b| - 1];
    }
  }

  // The supported links among the first n.
  function Links(chain: seq<string>, models: Models, n: nat): set<nat>
    requires n <= |chain|
  {
    set j: nat | j < n && chain[j] in models
  }

  lemma OneMoreLink(chain: seq<string>, models: Models, n: nat)
    requires n < |chain|
    ensures |Links(chain, models, n + 1)| == |Links(chain, models, n)| + if chain[n] in models then 1 else 0
  {
    assert Links(chain, models, n + 1) == Links(chain, models, n) + if chain[n] in models then {n} else {};
  }

  // Tier k holds exactly the k-th link that the alias supports, with the alias's
  // model and the provider's weight.
  ghost predicate FollowsLinks(chain: seq<string>, models: Models, weights: map<string, int>, tiers: seq<Tier>) {
    && |tiers| == |Links(chain, models, |chain|)|
    && forall i | 0 <= i < |chain| && chain[i] in models :: FollowsLink(chain, models, weights, tiers, i)
  }

  ghost predicate FollowsLink(chain: seq<string>, models: Models, weights: map<string, int>, tiers: seq<Tier>, i: nat)
    requires i < |chain| && chain[i] in models
  {
    var k := |Links(chain, models, i)|;
    && k < |tiers|
    && tiers[k] == [Candidate(chain[i], models[chain[i]], if chain[i] in weights then weights[chain[i]] else 0)]
  }

  lemma SameLinks(chain: seq<string>, models: Models, n: nat, m: nat)
    requires n <= m <= |chain|
    ensures Links(chain[..m], models, n) == Links(chain, models, n)
  {
  }

  /** An explicit chain is followed exactly, link by link. */
  lemma {:induction false} ChainInOrder(chain: seq<string>, models: Models, weights: map<string, int>)
    ensures FollowsLinks(chain, models, weights, ChainTiers(chain, models, weights))
  {
    if chain != [] {
      var n := |chain| - 1;
      var before, tiers := ChainTiers(chain[..n], models, weights), ChainTiers(chain, models, weights);
      ChainInOrder(chain[..n], models, weights);
      SameLinks(chain, models, n, n);
      OneMoreLink(chain, models, n);
      forall i | 0 <= i < |chain| && chain[i] in models ensures FollowsLink(chain, models, weights, tiers, i) {
        if i < n {
          SameLinks(chain, models, i, n);
          assert FollowsLink(chain[..n], models, weights, before, i);
        }
      }
    }
  }

  // The last entry of the same name, which is the one the maps keep.
  function Overlaid(sorted: seq<Provider>, p: Provider): (r: Provider)
    ensures r.name == p.name && (r == p || r in sorted)
    ensures p in sorted ==> r in sorted
  {
    if sorted == [] then p
    else if sorted[|sorted| - 1].name == p.name then sorted[|sorted| - 1]
    else Overlaid(sorted[..|sorted| - 1], p)
  }

  function Priorities(sorted: seq<Provider>): map<string, int> {
    if sorted == [] then map[]
    else
      var p := sorted[|sorted| - 1];
      Priorities(sorted[..|sorted| - 1])[p.name := p.priority]
  }

  function Weights(sorted: seq<Provider>): map<string, int> {
    if sorted == [] then map[]
    else
      var p := sorted[|sorted| - 1];
      Weights(sorted[..|sorted| - 1])[p.name := p.weight]
  }

  /** Of entries that share a name the last in the sorted order decides. */
  lemma {:induction false} LastEntryWins(sorted: seq<Provider>, i: nat, p: Provider)
    requires i < |sorted| && forall j | i < j < |sorted| :: sorted[j].name != sorted[i].name
    ensures p.name == sorted[i].name ==> Overlaid(sorted, p) == sorted[i]
    ensures sorted[i].name in Priorities(sorted) && Priorities(sorted)[sorted[i].name] == sorted[i].priority
    ensures sorted[i].name in Weights(sorted) && Weights(sorted)[sorted[i].name] == sorted[i].weight
  {
    var front, last := sorted[..|sorted| - 1], sorted[|sorted| - 1];
    if i < |sorted| - 1 {
      assert last.name != sorted[i].name;
      LastEntryWins(front, i, p);
    }
  }

  predicate KeepsLast(sorted: seq<Provider>, p: Provider) {
    && p.name in Priorities(sorted) && Priorities(sorted)[p.name] == Overlaid(sorted, p).priority
    && p.name in Weights(sorted) && Weights(sorted)[p.name] == Overlaid(sorted, p).weight
  }

  lemma {:induction false} MapKeepsLast(sorted: seq<Provider>, p: Provider)
    requires p in sorted
    ensures KeepsLast(sorted, p)
  {
    if sorted[|sorted| - 1].name != p.name {
      MapKeepsLast(sorted[..|sorted| - 1], p);
    }
  }

  lemma MapsKeepLast(sorted: seq<Provider>)
    ensures forall i | 0 <= i < |sorted| :: KeepsLast(sorted, sorted[i])
  {
    forall i | 0 <= i < |sorted| ensures KeepsLast(sorted, sorted[i]) {
      MapKeepsLast(sorted, sorted[i]);
    }
  }

  // The providers as routing sees them: sorted, each with its name's last settings.
  function Effective(ps: seq<Provider>): (r: seq<Provider>)
    ensures |r| == |StableByPriority(ps)|
  {
    var sorted := StableByPriority(ps);
    seq(|sorted|, i requires 0 <= i < |sorted| => Overlaid(sorted, sorted[i]))
  }

  // The order and the two maps say of every routed provider what it is.
  predicate Tabulates(routed: seq<Provider>, order: seq<string>, priority: map<string, int>, weight: map<string, int>) {
    && |order| == |routed|
    && forall i | 0 <= i < |routed| ::
         && order[i] == routed[i].name
         && routed[i].name in priority && priority[routed[i].name] == routed[i].priority
         && routed[i].name in weight && weight[routed[i].name] == routed[i].weight
  }

  method Tabulate(sorted: seq<Provider>)
    returns (order: seq<string>, priority: map<string, int>, weight: map<string, int>)
    ensures |order| == |sorted| && forall j | 0 <= j < |sorted| :: order[j] == sorted[j].name
    ensures priority == Priorities(sorted) && weight == Weights(sorted)
  {
    order, priority, weight := [], map[], map[];
    for i := 0 to |sorted|
      invariant |order| == i && forall j | 0 <= j < i :: order[j] == sorted[j].name
      invariant priority == Priorities(sorted[..i]) && weight == Weights(sorted[..i])
    {
      var p := sorted[i];
      assert sorted[..i + 1][..i] == sorted[..i];
      order := order + [p.name];
      priority := priority[p.name := p.priority];
      weight := weight[p.name := p.weight];
    }
    assert sorted[..|sorted|] == sorted;
  }

  lemma TablesAreEffective(ps: seq<Provider>, order: seq<string>)
    requires
      var sorted := StableByPriority(ps);
      |order| == |sorted| && forall j | 0 <= j < |sorted| :: order[j] == sorted[j].name
    ensures
      var sorted := StableByPriority(ps);
      Tabulates(Effective(ps), order, Priorities(sorted), Weights(sorted))
  {
    MapsKeepLast(StableByPriority(ps));
  }

  class Routes {
    const modelAliases: map<string, Models>
    const fallbackChains: map<string, seq<string>>
    const providerOrder: seq<string>
    const providerPriority: map<string, int>
    const providerWeight: map<string, int>
    ghost const providers: seq<Provider>

    ghost predicate Valid() {
      Tabulates(Effective(providers), providerOrder, providerPriority, providerWeight)
    }

    constructor (providers: seq<Provider>, modelAliases: map<string, Models>, fallbackChains: map<string, seq<string>>)
      ensures Valid() && this.providers == providers
      ensures this.modelAliases == modelAliases && this.fallbackChains == fallbackChains
    {
      var order, priority, weight := Tabulate(StableByPriority(providers));
      TablesAreEffective(providers, order);
      this.modelAliases, this.fallbackChains := modelAliases, fallbackChains;
      this.providers, providerOrder, providerPriority, providerWeight := providers, order, priority, weight;
    }

    // The alias maps to some provider's model; it has an explicit chain.
    predicate Known(alias: string) {
      alias in modelAliases && modelAliases[alias] != map[]
    }

    predicate Chained(alias: string) {
      alias in fallbackChains && fallbackChains[alias] != []
    }

    /** The tiers to try for an alias, or nothing for an unknown one. Without an
        explicit chain they hold exactly the alias's configured providers, by
        strictly increasing priority and in configuration order within a tier, as
        long as entries that share a name agree. */
    method Resolve(alias: string) returns (r: Option<seq<Tier>>)
      requires Valid()
      ensures !Known(alias) ==> r == None
      ensures Known(alias) && Chained(alias) ==>
                var tiers := ChainTiers(fallbackChains[alias], modelAliases[alias], providerWeight);
                && r == (if tiers == [] then None else Some(tiers))
                && FollowsLinks(fallbackChains[alias], modelAliases[alias], providerWeight, tiers)
      ensures Known(alias) && !Chained(alias) ==>
                match r
                case Some(tiers) =>
                  && tiers == GroupsOf(Effective(providers), modelAliases[alias]).0 != []
                  && (Consistent(providers) ==> ByPriority(providers, modelAliases[alias], tiers))
                case None => forall i | 0 <= i < |providers| :: providers[i].name !in modelAliases[alias]
    {
      if alias !in modelAliases || modelAliases[alias] == map[] {
        return None;
      }
      var tiers: seq<Tier>;
      if alias in fallbackChains && fallbackChains[alias] != [] {
        tiers := FollowChain(fallbackChains[alias], modelAliases[alias]);
      } else {
        tiers := GroupByPriority(modelAliases[alias]);
      }
      r := if tiers == [] then None else Some(tiers);
    }

    method FollowChain(chain: seq<string>, models: Models) returns (tiers: seq<Tier>)
      ensures tiers == ChainTiers(chain, models, providerWeight) && FollowsLinks(chain, models, providerWeight, tiers)
    {
      tiers := [];
      for i := 0 to |chain|
        invariant tiers == ChainTiers(chain[..i], models, providerWeight)
      {
        assert chain[..i + 1][..i] == chain[..i];
        if chain[i] in models {
          tiers := tiers + [[Candidate(chain[i], models[chain[i]], WeightOf(providerWeight, chain[i]))]];
        }
      }
      assert chain[..|chain|] == chain;
      ChainInOrder(chain, models, providerWeight);
    }

    method GroupByPriority(models: Models) returns (tiers: seq<Tier>)
      requires Valid()
      ensures tiers == GroupsOf(Effective(providers), models).0
      ensures Consistent(providers) ==> ByPriority(providers, models, tiers)
      ensures tiers == [] ==> forall i | 0 <= i < |providers| :: providers[i].name !in models
    {
      ghost var routed := Effective(providers);
      tiers := [];
      ghost var priorities: seq<int> := [];
      var lastPriority: Option<int> := None;
      for i := 0 to |providerOrder|
        invariant Tracks(lastPriority, tiers, priorities)
        invariant (tiers, priorities) == GroupsOf(routed[..i], models)
      {
        assert routed[..i + 1][..i] == routed[..i];
        tiers, priorities, lastPriority := Place(i, models, tiers, priorities, lastPriority);
      }
      assert routed[..|routed|] == routed;
      if Consistent(providers) {
        ConsistentGroups(providers, models);
      }
      NobodyGrouped(providers, models);
    }

    method Place(i: nat, models: Models, tiers: seq<Tier>, ghost priorities: seq<int>, lastPriority: Option<int>)
      returns (tiers': seq<Tier>, ghost priorities': seq<int>, lastPriority': Option<int>)
      requires Valid() && i < |providerOrder| && Tracks(lastPriority, tiers, priorities)
      ensures Tracks(lastPriority', tiers', priorities')
      ensures (tiers', priorities') == NextGroups(Effective(providers)[i], models, tiers, priorities)
    {
      tiers', priorities', lastPriority' := tiers, priorities, lastPriority;
      var name := providerOrder[i];
      if name in models {
        var p := providerPriority[name];
        var cand := Candidate(name, models[name], WeightOf(providerWeight, name));
        if lastPriority == Some(p) {
          tiers' := tiers[|tiers| - 1 := tiers[|tiers| - 1] + [cand]];
        } else {
          tiers', priorities', lastPriority' := tiers + [[cand]], priorities + [p], Some(p);
        }
      }
    }
  }

  // The priority of the tier being filled, once there is one.
  ghost predicate Tracks(lastPriority: Option<int>, tiers: seq<Tier>, priorities: seq<int>) {
    && |tiers| == |priorities|
    && lastPriority == if priorities == [] then None else Some(priorities[|priorities| - 1])
  }

  // One more provider joins the last tier, opens a new one, or is skipped.
  ghost function NextGroups(p: Provider, models: Models, tiers: seq<Tier>, priorities: seq<int>): (seq<Tier>, seq<int>)
    requires |tiers| == |priorities|
  {
    if p.name !in models then (tiers, priorities)
    else
      var cand := Candidate(p.name, models[p.name], p.weight);
      if tiers != [] && p.priority == priorities[|priorities| - 1]
      then (tiers[|tiers| - 1 := tiers[|tiers| - 1] + [cand]], priorities)
      else (tiers + [[cand]], priorities + [p.priority])
  }

  // Every provider in turn.
  ghost function GroupsOf(ps: seq<Provider>, models: Models): (r: (seq<Tier>, seq<int>))
    ensures |r.0| == |r.1|
  {
    if ps == [] then ([], [])
    else var g := GroupsOf(ps[..|ps| - 1], models); NextGroups(ps[|ps| - 1], models, g.0, g.1)
  }

  // The grouping of the first i providers, none of which comes after the rest.
  ghost predicate GroupedUpTo(sorted: seq<Provider>, i: nat, models: Models, tiers: seq<Tier>, priorities: seq<int>) {
    && i <= |sorted| && Sorted(sorted) && Grouped(sorted[..i], models, tiers, priorities)
    && forall k, j | 0 <= k < |priorities| && i <= j < |sorted| :: priorities[k] <= sorted[j].priority
  }

  lemma NextKeepsGroups(sorted: seq<Provider>, i: nat, models: Models, tiers: seq<Tier>, priorities: seq<int>)
    requires i < |sorted| && GroupedUpTo(sorted, i, models, tiers, priorities)
    ensures
      var (tiers', priorities') := NextGroups(sorted[i], models, tiers, priorities);
      GroupedUpTo(sorted, i + 1, models, tiers', priorities')
  {
    if sorted[i].name !in models {
      SkipKeepsGroups(sorted, i, models, tiers, priorities);
    } else if tiers != [] && sorted[i].priority == priorities[|priorities| - 1] {
      JoinKeepsGroups(sorted, i, models, tiers, priorities);
    } else {
      OpenKeepsGroups(sorted, i, models, tiers, priorities);
    }
  }

  lemma Occurrence(s: seq<Provider>, p: Provider) returns (i: nat)
    requires p in multiset(s)
    ensures i < |s| && s[i] == p
  {
    i :| 0 <= i < |s| && s[i] == p;
  }

  lemma SkipKeepsGroups(sorted: seq<Provider>, i: nat, models: Models, tiers: seq<Tier>, priorities: seq<int>)
    requires i < |sorted| && sorted[i].name !in models && Grouped(sorted[..i], models, tiers, priorities)
    ensures Grouped(sorted[..i + 1], models, tiers, priorities)
  {
    assert sorted[..i + 1][..i] == sorted[..i];
  }

  lemma JoinKeepsGroups(sorted: seq<Provider>, i: nat, models: Models, tiers: seq<Tier>, priorities: seq<int>)
    requires i < |sorted| && sorted[i].name in models && Grouped(sorted[..i], models, tiers, priorities)
    requires tiers != [] && sorted[i].priority == priorities[|priorities| - 1]
    ensures
      var cand := Candidate(sorted[i].name, models[sorted[i].name], sorted[i].weight);
      Grouped(sorted[..i + 1], models, tiers[|tiers| - 1 := tiers[|tiers| - 1] + [cand]], priorities)
  {
    assert sorted[..i + 1][..i] == sorted[..i];
  }

  lemma OpenKeepsGroups(sorted: seq<Provider>, i: nat, models: Models, tiers: seq<Tier>, priorities: seq<int>)
    requires i < |sorted| && sorted[i].name in models && Grouped(sorted[..i], models, tiers, priorities)
    requires forall k | 0 <= k < |priorities| :: priorities[k] <= sorted[i].priority
    requires tiers != [] ==> sorted[i].priority != priorities[|priorities| - 1]
    ensures
      var cand := Candidate(sorted[i].name, models[sorted[i].name], sorted[i].weight);
      Grouped(sorted[..i + 1], models, tiers + [[cand]], priorities + [sorted[i].priority])
  {
    var p := sorted[i].priority;
    assert sorted[..i] + [sorted[i]] == sorted[..i + 1];
    assert forall k | 0 <= k < |priorities| :: priorities[k] < p;
    assert p !in priorities;
    NoCandidates(sorted[..i], models, p);
    OpensGroup(sorted[..i], sorted[i], models, tiers, priorities);
  }

  // A provider of a new, higher priority opens a tier of its own.
  lemma OpensGroup(ps: seq<Provider>, p: Provider, models: Models, tiers: seq<Tier>, priorities: seq<int>)
    requires p.name in models && Grouped(ps, models, tiers, priorities) && CandidatesAt(ps, models, p.priority) == []
    requires forall k | 0 <= k < |priorities| :: priorities[k] < p.priority
    ensures Grouped(ps + [p], models, tiers + [Offers(p, models, p.priority)], priorities + [p.priority])
  {
    var tiers', priorities' := tiers + [Offers(p, models, p.priority)], priorities + [p.priority];
    forall k | 0 <= k < |tiers'| ensures tiers'[k] == CandidatesAt(ps + [p], models, priorities'[k]) != [] {
      TiersAfter(ps, p, models, tiers, priorities, k);
    }
    assert Increasing(priorities');
    UsesPriorities(ps, p, models, priorities);
  }

  lemma TiersAfter(ps: seq<Provider>, p: Provider, models: Models, tiers: seq<Tier>, priorities: seq<int>, k: nat)
    requires k <= |tiers| == |priorities| && p.name in models && CandidatesAt(ps, models, p.priority) == []
    requires k < |tiers| ==> tiers[k] == CandidatesAt(ps, models, priorities[k]) != [] && priorities[k] != p.priority
    ensures (tiers + [Offers(p, models, p.priority)])[k]
         == CandidatesAt(ps + [p], models, (priorities + [p.priority])[k]) != []
  {
    if k < |tiers| {
      KeepsTier(ps, p, models, tiers[k], priorities[k]);
    } else {
      CandidatesOneMore(ps, p, models, p.priority);
    }
  }

  lemma KeepsTier(ps: seq<Provider>, p: Provider, models: Models, tier: Tier, priority: int)
    requires priority != p.priority && tier == CandidatesAt(ps, models, priority)
    ensures tier == CandidatesAt(ps + [p], models, priority)
  {
    CandidatesOneMore(ps, p, models, priority);
  }

  lemma UsesPriorities(ps: seq<Provider>, p: Provider, models: Models, priorities: seq<int>)
    requires forall i | 0 <= i < |ps| && ps[i].name in models :: ps[i].priority in priorities
    ensures forall i | 0 <= i < |ps + [p]| && (ps + [p])[i].name in models ::
              (ps + [p])[i].priority in priorities + [p.priority]
  {
    assert (priorities + [p.priority])[|priorities|] == p.priority;
  }

  lemma GroupsOfSorted(ps: seq<Provider>, models: Models, tiers: seq<Tier>, priorities: seq<int>)
    requires Grouped(StableByPriority(ps), models, tiers, priorities)
    ensures Grouped(ps, models, tiers, priorities)
  {
    SortKeeps(ps);
    forall k | 0 <= k < |tiers| ensures tiers[k] == CandidatesAt(ps, models, priorities[k]) {
      SortIsStable(ps, models, priorities[k]);
    }
    forall i | 0 <= i < |ps| && ps[i].name in models ensures ps[i].priority in priorities {
      assert ps[i] in multiset(ps);
      var j := Occurrence(StableByPriority(ps), ps[i]);
    }
  }

  lemma {:induction false} IncreasingAgree(a: seq<int>, b: seq<int>)
    requires Increasing(a) && Increasing(b) && forall x :: x in a <==> x in b
    ensures a == b
  {
    assert a != [] ==> a[0] in a;
    assert b != [] ==> b[0] in b;
    if a != [] && b != [] {
      var last := a[|a| - 1];
      assert last in b && b[|b| - 1] in a;
      assert b[|b| - 1] == last;
      var front, other := a[..|a| - 1], b[..|b| - 1];
      forall x ensures x in front <==> x in other {
        assert x in front <==> x in a && x != last;
        assert x in other <==> x in b && x != last;
      }
      IncreasingAgree(front, other);
      assert a == front + [last] && b == other + [last];
    }
  }

  // A priority is used by some tier exactly when the alias has a provider there.
  lemma PrioritiesUsed(ps: seq<Provider>, models: Models, tiers: seq<Tier>, priorities: seq<int>, x: int)
    requires Grouped(ps, models, tiers, priorities)
    ensures x in priorities <==> CandidatesAt(ps, models, x) != []
  {
    if CandidatesAt(ps, models, x) != [] {
      if forall i | 0 <= i < |ps| && ps[i].name in models :: ps[i].priority != x {
        NoCandidates(ps, models, x);
      }
    }
  }

  /** There is only one way to group an alias's providers by priority. */
  lemma ByPriorityOnce(ps: seq<Provider>, models: Models, a: seq<Tier>, b: seq<Tier>)
    requires ByPriority(ps, models, a) && ByPriority(ps, models, b)
    ensures a == b
  {
    var p :| Grouped(ps, models, a, p);
    var q :| Grouped(ps, models, b, q);
    forall x ensures x in p <==> x in q {
      PrioritiesUsed(ps, models, a, p, x);
      PrioritiesUsed(ps, models, b, q, x);
    }
    IncreasingAgree(p, q);
  }

  lemma {:induction false} SortedGroups(sorted: seq<Provider>, models: Models, i: nat)
    requires Sorted(sorted) && i <= |sorted|
    ensures var g := GroupsOf(sorted[..i], models); GroupedUpTo(sorted, i, models, g.0, g.1)
    decreases i
  {
    if i > 0 {
      SortedGroups(sorted, models, i - 1);
      assert sorted[..i][..i - 1] == sorted[..i - 1];
      var g := GroupsOf(sorted[..i - 1], models);
      NextKeepsGroups(sorted, i - 1, models, g.0, g.1);
    }
  }

  lemma EffectiveIsSorted(ps: seq<Provider>)
    requires Consistent(ps)
    ensures Effective(ps) == StableByPriority(ps)
  {
    var sorted := StableByPriority(ps);
    SortKeeps(ps);
    forall i | 0 <= i < |sorted| ensures Effective(ps)[i] == sorted[i] {
      var q := Overlaid(sorted, sorted[i]);
      assert q in multiset(sorted) && sorted[i] in multiset(sorted);
      var j := Occurrence(ps, q);
      var k := Occurrence(ps, sorted[i]);
    }
  }

  lemma ConsistentGroups(ps: seq<Provider>, models: Models)
    requires Consistent(ps)
    ensures ByPriority(ps, models, GroupsOf(Effective(ps), models).0)
  {
    var sorted := StableByPriority(ps);
    EffectiveIsSorted(ps);
    SortKeeps(ps);
    SortedGroups(sorted, models, |sorted|);
    assert sorted[..|sorted|] == sorted;
    var g := GroupsOf(sorted, models);
    GroupsOfSorted(ps, models, g.0, g.1);
  }

  lemma {:induction false} EmptyGroups(ps: seq<Provider>, models: Models)
    ensures GroupsOf(ps, models).0 == [] ==> forall i | 0 <= i < |ps| :: ps[i].name !in models
  {
    if ps != [] {
      EmptyGroups(ps[..|ps| - 1], models);
    }
  }

  lemma NobodyGrouped(ps: seq<Provider>, models: Models)
    ensures GroupsOf(Effective(ps), models).0 == [] ==> forall i | 0 <= i < |ps| :: ps[i].name !in models
  {
    EmptyGroups(Effective(ps), models);
    SortKeeps(ps);
    forall i | 0 <= i < |ps| && GroupsOf(Effective(ps), models).0 == [] ensures ps[i].name !in models {
      assert ps[i] in multiset(ps);
      var j := Occurrence(StableByPriority(ps), ps[i]);
      assert Effective(ps)[j].name == ps[i].name;
    }
  }

  // ----- Entries that share a name -----

  lemma {:induction false} CandidateListed(ps: seq<Provider>, models: Models, i: nat)
    requires i < |ps| && ps[i].name in models
    ensures Candidate(ps[i].name, models[ps[i].name], ps[i].weight) in CandidatesAt(ps, models, ps[i].priority)
  {
    if i < |ps| - 1 {
      CandidateListed(ps[..|ps| - 1], models, i);
    }
  }

  // Grouping entries of one name that all carry the same settings gives one tier.
  lemma {:induction false} OneNameOneTier(ps: seq<Provider>, models: Models, q: Provider)
    requires forall i | 0 <= i < |ps| && ps[i].name in models :: ps[i] == q
    ensures
      var g := GroupsOf(ps, models);
      && |g.0| <= 1 && (g.1 == [] || g.1 == [q.priority])
      && forall k | 0 <= k < |g.0| :: forall c | c in g.0[k] :: c.weight == q.weight
  {
    if ps != [] {
      OneNameOneTier(ps[..|ps| - 1], models, q);
    }
  }

  lemma {:induction false} SameOverlay(sorted: seq<Provider>, p: Provider, q: Provider)
    requires p.name == q.name && p in sorted
    ensures Overlaid(sorted, p) == Overlaid(sorted, q)
  {
    if sorted[|sorted| - 1].name != p.name {
      SameOverlay(sorted[..|sorted| - 1], p, q);
    }
  }

  // Entries of one name all carry the settings of the last.
  lemma OneSetting(ps: seq<Provider>, i: nat)
    requires i < |ps|
    ensures forall k | 0 <= k < |Effective(ps)| && Effective(ps)[k].name == ps[i].name ::
              Effective(ps)[k] == Overlaid(StableByPriority(ps), ps[i])
  {
    var sorted := StableByPriority(ps);
    SortKeeps(ps);
    assert ps[i] in multiset(ps);
    var at := Occurrence(sorted, ps[i]);
    forall k | 0 <= k < |Effective(ps)| && Effective(ps)[k].name == ps[i].name
      ensures Effective(ps)[k] == Overlaid(sorted, ps[i])
    {
      SameOverlay(sorted, ps[i], sorted[k]);
    }
  }

  // One tier of equal weights cannot hold two entries that disagree.
  lemma OneTierTooFew(ps: seq<Provider>, models: Models, tiers: seq<Tier>, priorities: seq<int>, weight: int, i: nat,
                      j: nat)
    requires i < |ps| && j < |ps| && ps[i].name == ps[j].name && ps[i] != ps[j] && ps[i].name in models
    requires |tiers| <= 1 && forall k | 0 <= k < |tiers| :: forall c | c in tiers[k] :: c.weight == weight
    ensures !Grouped(ps, models, tiers, priorities)
  {
    if Grouped(ps, models, tiers, priorities) {
      assert ps[i].priority in priorities && ps[j].priority in priorities;
      CandidateListed(ps, models, i);
      CandidateListed(ps, models, j);
    }
  }

  // An alias of one provider whose entries disagree is not grouped as configured.
  lemma DisagreementMisgroups(ps: seq<Provider>, i: nat, j: nat, model: string)
    requires i < |ps| && j < |ps| && ps[i].name == ps[j].name && ps[i] != ps[j]
    ensures var models := map[ps[i].name := model]; !ByPriority(ps, models, GroupsOf(Effective(ps), models).0)
  {
    var models := map[ps[i].name := model];
    var tiers := GroupsOf(Effective(ps), models).0;
    var q := Overlaid(StableByPriority(ps), ps[i]);
    OneSetting(ps, i);
    OneNameOneTier(Effective(ps), models, q);
    forall priorities ensures !Grouped(ps, models, tiers, priorities) {
      OneTierTooFew(ps, models, tiers, priorities, q.weight, i, j);
    }
  }

  // A provider configured at two priorities is offered at one of them only.
  lemma SameNameMisgrouped()
    ensures
      var ps, models := [Provider("a", 0, 1), Provider("a", 1, 1)], map["a" := "m"];
      !Consistent(ps) && !ByPriority(ps, models, GroupsOf(Effective(ps), models).0)
  {
    DisagreementMisgroups([Provider("a", 0, 1), Provider("a", 1, 1)], 0, 1, "m");
  }

  /** Whatever models an alias maps to, grouping follows the configuration exactly
      when entries that share a name agree in priority and weight. */
  lemma GroupsFollowConfiguration(ps: seq<Provider>)
    ensures (forall models :: ByPriority(ps, models, GroupsOf(Effective(ps), models).0)) <==> Consistent(ps)
  {
    if Consistent(ps) {
      forall models ensures ByPriority(ps, models, GroupsOf(Effective(ps), models).0) {
        ConsistentGroups(ps, models);
      }
    } else {
      var i, j :| 0 <= i < |ps| && 0 <= j < |ps| && ps[i].name == ps[j].name && ps[i] != ps[j];
      DisagreementMisgroups(ps, i, j, "m");
      assert !ByPriority(ps, map[ps[i].name := "m"], GroupsOf(Effective(ps), map[ps[i].name := "m"]).0);
    }
  }
}
