/** Weighted choice among the candidates of one tier. Breaker readiness is asked
    one candidate at a time and may change between two questions, so each answer
    is indexed by the moment it is given. */
module Selection {
  import opened Wrappers
  import opened Router

  // Ready() of a candidate's breaker, as answered at a given moment.
  type Readiness = (nat, Candidate) -> bool

  predicate Eligible(ready: Readiness, wired: set<string>, c: Candidate, tried: set<string>, moment: nat) {
    c.provider !in tried && c.provider in wired && ready(moment, c)
  }

  // The eligible candidates among the first n, asked at moments t, t+1, ...
  function EligibleIn(ready: Readiness, wired: set<string>, tier: Tier, tried: set<string>, t: nat, n: nat): Tier
    requires n <= |tier|
  {
    if n == 0 then []
    else EligibleIn(ready, wired, tier, tried, t, n - 1)
         + if Eligible(ready, wired, tier[n - 1], tried, t + n - 1) then [tier[n - 1]] else []
  }

  function TotalWeight(cs: Tier): int {
    if cs == [] then 0 else TotalWeight(cs[..|cs| - 1]) + cs[|cs| - 1].weight
  }

  // Nobody in the tier can be chosen: tried, not wired, not ready when asked, or drained by weight 0.
  ghost predicate Drained(ready: Readiness, wired: set<string>, tier: Tier, tried: set<string>, t: nat) {
    forall j | 0 <= j < |tier| :: !Eligible(ready, wired, tier[j], tried, t + j) || tier[j].weight == 0
  }

  predicate NonNegative(cs: Tier) {
    forall j | 0 <= j < |cs| :: cs[j].weight >= 0
  }

  // Draw d falls in candidate i's share of the total weight.
  predicate Covers(cs: Tier, d: int, i: nat) {
    i < |cs| && TotalWeight(cs[..i]) <= d < TotalWeight(cs[..i + 1])
  }

  lemma {:induction false} EligibleAreFromTier(ready: Readiness, wired: set<string>, tier: Tier, tried: set<string>,
      t: nat, n: nat)
    requires n <= |tier| && NonNegative(tier)
    ensures forall c | c in EligibleIn(ready, wired, tier, tried, t, n) ::
              c in tier && c.provider !in tried && c.provider in wired && c.weight >= 0
  {
    if n > 0 {
      EligibleAreFromTier(ready, wired, tier, tried, t, n - 1);
    }
  }

  // Everyone eligible stands in the tier and was ready when asked.
  lemma {:induction false} EligibleWereReady(ready: Readiness, wired: set<string>, tier: Tier, tried: set<string>,
                                             t: nat, n: nat, c: Candidate)
    requires n <= |tier| && c in EligibleIn(ready, wired, tier, tried, t, n)
    ensures exists j :: 0 <= j < n && tier[j] == c && c.provider in wired && c.provider !in tried && ready(t + j, c)
  {
    if c in EligibleIn(ready, wired, tier, tried, t, n - 1) {
      EligibleWereReady(ready, wired, tier, tried, t, n - 1, c);
    }
  }

  lemma {:induction false} LandsAmong(cs: Tier, d: int)
    requires Landing(cs, d).Some?
    ensures Landing(cs, d).value in cs
  {
    if d < TotalWeight(cs[..|cs| - 1]) {
      LandsAmong(cs[..|cs| - 1], d);
    }
  }

  /** Whoever is picked is wired, had not been tried, and was ready when asked. */
  lemma PickedWasReady(ready: Readiness, wired: set<string>, tier: Tier, tried: set<string>, t: nat, draw: nat,
                       c: Candidate)
    requires Chosen(ready, wired, tier, tried, t, draw, c)
    ensures c.provider in wired && c.provider !in tried
    ensures exists j :: 0 <= j < |tier| && tier[j] == c && ready(t + j, c)
  {
    var cs := EligibleIn(ready, wired, tier, tried, t, |tier|);
    LandsAmong(cs, draw % TotalWeight(cs));
    EligibleWereReady(ready, wired, tier, tried, t, |tier|, c);
  }

  lemma WeightOfOneMore(cs: Tier, c: Candidate)
    ensures TotalWeight(cs + [c]) == TotalWeight(cs) + c.weight
  {
    assert (cs + [c])[..|cs|] == cs;
  }

  lemma DrainedOneMore(ready: Readiness, wired: set<string>, tier: Tier, tried: set<string>, t: nat, n: nat)
    requires 0 < n <= |tier|
    ensures Drained(ready, wired, tier[..n], tried, t) <==>
            Drained(ready, wired, tier[..n - 1], tried, t)
            && (!Eligible(ready, wired, tier[n - 1], tried, t + n - 1) || tier[n - 1].weight == 0)
  {
    assert forall j | 0 <= j < n - 1 :: tier[..n][j] == tier[..n - 1][j];
    assert tier[..n][n - 1] == tier[n - 1];
  }

  lemma EligibleOneMore(ready: Readiness, wired: set<string>, tier: Tier, tried: set<string>, t: nat, n: nat)
    requires 0 < n <= |tier|
    ensures TotalWeight(EligibleIn(ready, wired, tier, tried, t, n))
         == TotalWeight(EligibleIn(ready, wired, tier, tried, t, n - 1))
            + if Eligible(ready, wired, tier[n - 1], tried, t + n - 1) then tier[n - 1].weight else 0
  {
    var before := EligibleIn(ready, wired, tier, tried, t, n - 1);
    WeightOfOneMore(before, tier[n - 1]);
    assert before + [] == before;
  }

  // The eligible weights sum to zero exactly when the tier is drained.
  lemma {:induction false} NoWeightIsDrained(ready: Readiness, wired: set<string>, tier: Tier, tried: set<string>,
      t: nat, n: nat)
    requires n <= |tier| && NonNegative(tier)
    ensures TotalWeight(EligibleIn(ready, wired, tier, tried, t, n)) >= 0
    ensures TotalWeight(EligibleIn(ready, wired, tier, tried, t, n)) == 0
            <==> Drained(ready, wired, tier[..n], tried, t)
  {
    if n > 0 {
      NoWeightIsDrained(ready, wired, tier, tried, t, n - 1);
      EligibleOneMore(ready, wired, tier, tried, t, n);
      DrainedOneMore(ready, wired, tier, tried, t, n);
    }
  }

  lemma {:induction false} PrefixWeight(cs: Tier, i: nat, j: nat)
    requires NonNegative(cs) && i <= j <= |cs|
    ensures 0 <= TotalWeight(cs[..i]) <= TotalWeight(cs[..j])
    decreases j
  {
    if i < j {
      PrefixWeight(cs, i, j - 1);
      assert cs[..j][..j - 1] == cs[..j - 1];
    } else if j > 0 {
      PrefixWeight(cs, 0, j - 1);
      assert cs[..j][..j - 1] == cs[..j - 1];
    }
  }

  // A draw lands in one share only.
  lemma CoversOnce(cs: Tier, d: int, i: nat, j: nat)
    requires NonNegative(cs) && Covers(cs, d, i) && Covers(cs, d, j)
    ensures i == j
  {
    if i < j {
      PrefixWeight(cs, i + 1, j);
    } else if j < i {
      PrefixWeight(cs, j + 1, i);
    }
  }

  function Interval(lo: int, hi: int): (s: set<int>)
    requires lo <= hi
    ensures |s| == hi - lo && forall d :: d in s <==> lo <= d < hi
    decreases hi - lo
  {
    if lo == hi then {} else Interval(lo, hi - 1) + {hi - 1}
  }

  /** Of the totalWeight equally likely draws, exactly weight-many choose each
      candidate, so weights split traffic in proportion and weight 0 gets none. */
  lemma DrawsMatchWeight(cs: Tier, i: nat)
    requires NonNegative(cs) && i < |cs|
    ensures |set d | 0 <= d < TotalWeight(cs) && Covers(cs, d, i)| == cs[i].weight
  {
    var lo, hi := TotalWeight(cs[..i]), TotalWeight(cs[..i + 1]);
    assert cs[..i + 1][..i] == cs[..i] && cs[..|cs|] == cs;
    PrefixWeight(cs, i, i + 1);
    PrefixWeight(cs, i + 1, |cs|);
    assert (set d | 0 <= d < TotalWeight(cs) && Covers(cs, d, i)) == Interval(lo, hi);
  }

  // The candidate in whose share a draw lands.
  function Landing(cs: Tier, d: int): Option<Candidate> {
    if cs == [] then None
    else if d >= TotalWeight(cs[..|cs| - 1]) then Some(cs[|cs| - 1])
    else Landing(cs[..|cs| - 1], d)
  }

  lemma {:induction false} LandingCovers(cs: Tier, d: int, i: nat)
    requires NonNegative(cs) && Covers(cs, d, i)
    ensures Landing(cs, d) == Some(cs[i])
  {
    var front := cs[..|cs| - 1];
    if i < |cs| - 1 {
      PrefixWeight(cs, i + 1, |cs| - 1);
      assert front[..i] == cs[..i] && front[..i + 1] == cs[..i + 1];
      LandingCovers(front, d, i);
    }
  }

  /** Every draw below the total lands in exactly one share, its owner's. */
  lemma {:induction false} LandsInShare(cs: Tier, d: int) returns (i: nat)
    requires NonNegative(cs) && 0 <= d < TotalWeight(cs)
    ensures Covers(cs, d, i) && Landing(cs, d) == Some(cs[i]) && forall j | Covers(cs, d, j) :: j == i
  {
    var front := cs[..|cs| - 1];
    if d >= TotalWeight(front) {
      i := |cs| - 1;
      assert cs[..i + 1] == cs;
    } else {
      i := LandsInShare(front, d);
      assert front[..i] == cs[..i] && front[..i + 1] == cs[..i + 1];
    }
    forall j | Covers(cs, d, j) ensures j == i {
      CoversOnce(cs, d, i, j);
    }
  }

  // The draw lands on this candidate among those eligible.
  ghost predicate Chosen(ready: Readiness, wired: set<string>, tier: Tier, tried: set<string>, t: nat, draw: nat,
                         c: Candidate) {
    var cs := EligibleIn(ready, wired, tier, tried, t, |tier|);
    TotalWeight(cs) > 0 && Landing(cs, draw % TotalWeight(cs)) == Some(c)
  }

  /** The weighted pick: nothing exactly when the tier is drained, otherwise the
      eligible candidate whose share the draw lands in. */
  method PickFromTier(ready: Readiness, wired: set<string>, tier: Tier, tried: set<string>, t: nat,
                      draw: nat) returns (r: Option<Candidate>)
    requires NonNegative(tier)
    ensures r == None <==> Drained(ready, wired, tier, tried, t)
    ensures r.Some? ==> Chosen(ready, wired, tier, tried, t, draw, r.value)
    ensures r.Some? ==> r.value in tier && r.value.provider !in tried && r.value.provider in wired && r.value.weight > 0
  {
    var eligible: Tier, totalWeight := [], 0;
    for n := 0 to |tier|
      invariant eligible == EligibleIn(ready, wired, tier, tried, t, n) && totalWeight == TotalWeight(eligible)
    {
      if Eligible(ready, wired, tier[n], tried, t + n) {
        assert (eligible + [tier[n]])[..|eligible|] == eligible;
        eligible := eligible + [tier[n]];
        totalWeight := totalWeight + tier[n].weight;
      }
    }
    EligibleAreFromTier(ready, wired, tier, tried, t, |tier|);
    NoWeightIsDrained(ready, wired, tier, tried, t, |tier|);
    assert tier[..|tier|] == tier;
    if eligible == [] || totalWeight <= 0 {
      return None;
    }
    var i := Scan(eligible, draw % totalWeight);
    LandingCovers(eligible, draw % totalWeight, i);
    r := Some(eligible[i]);
  }

  // Walk the shares until the draw falls inside one.
  method Scan(cs: Tier, d: int) returns (i: nat)
    requires 0 <= d < TotalWeight(cs)
    ensures Covers(cs, d, i) && cs[i].weight > 0
  {
    var pick := d;
    i := 0;
    assert cs[..|cs|] == cs;
    while i < |cs|
      invariant i <= |cs| && pick == d - TotalWeight(cs[..i]) && pick >= 0
    {
      assert cs[..i + 1][..i] == cs[..i];
      if pick < cs[i].weight {
        return;
      }
      pick := pick - cs[i].weight;
      i := i + 1;
    }
    assert false; // the scan always stops at a share
  }
}
