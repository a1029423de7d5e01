/**
 * The four figures `updateDashboard` shows: how many clients there are, the sum
 * of their home values (read with `parseInt(x) || 0`), how many have a
 * claims history of "3-5" or "more", and their average exposure.
 * Each sum is a left fold over the list, as `reduce` computes it.
 */
module Dashboard {
  import opened Numeric
  import opened Store

  /** A record with no claims history counts as "none". */
  predicate HighRisk(c: Client) {
    var claims := if c.claimsHistory == "" then "none" else c.claimsHistory;
    claims == "more" || claims == "3-5"
  }

  /** `filter(...)` keeping the high-risk clients, in list order. */
  function HighRiskClients(cs: seq<Client>): (r: seq<Client>)
    ensures |r| <= |cs|
    ensures forall c :: c in r ==> c in cs && HighRisk(c)
    ensures forall c :: c in cs && HighRisk(c) ==> c in r
  {
    if cs == [] then []
    else HighRiskClients(cs[..|cs| - 1]) + (if HighRisk(cs[|cs| - 1]) then [cs[|cs| - 1]] else [])
  }

  function HighRiskCount(cs: seq<Client>): (n: nat)
    ensures n <= |cs|
  {
    |HighRiskClients(cs)|
  }

  /** The number of positions holding a high-risk client, counted independently of the filter. */
  function CountHighRiskAt(cs: seq<Client>, n: nat): (k: nat)
    requires n <= |cs|
    ensures k <= n
  {
    if n == 0 then 0 else CountHighRiskAt(cs, n - 1) + (if HighRisk(cs[n - 1]) then 1 else 0)
  }

  /** The filter's length counts the high-risk positions, so it is at most the client count. */
  lemma HighRiskCountIsCount(cs: seq<Client>)
    ensures HighRiskCount(cs) == CountHighRiskAt(cs, |cs|)
    ensures HighRiskCount(cs) <= |cs|
    ensures HighRiskCount(cs) == 0 <==> forall i :: 0 <= i < |cs| ==> !HighRisk(cs[i])
    ensures HighRiskCount(cs) == |cs| <==> forall i :: 0 <= i < |cs| ==> HighRisk(cs[i])
  {
    FilterLengthIsCount(cs);
    CountExtremes(cs, |cs|);
  }

  lemma {:induction false} FilterLengthIsCount(cs: seq<Client>)
    ensures HighRiskCount(cs) == CountHighRiskAt(cs, |cs|)
  {
    if cs != [] {
      FilterLengthIsCount(cs[..|cs| - 1]);
      CountPrefix(cs, |cs| - 1);
    }
  }

  /** No position counted exactly when none is high-risk; all counted exactly when all are. */
  lemma {:induction false} CountExtremes(cs: seq<Client>, n: nat)
    requires n <= |cs|
    ensures CountHighRiskAt(cs, n) == 0 <==> forall i :: 0 <= i < n ==> !HighRisk(cs[i])
    ensures CountHighRiskAt(cs, n) == n <==> forall i :: 0 <= i < n ==> HighRisk(cs[i])
  {
    if n > 0 {
      CountExtremes(cs, n - 1);
    }
  }

  /** Counting the first `n` positions of a list only looks at its prefix of length `n`. */
  lemma {:induction false} CountPrefix(cs: seq<Client>, n: nat)
    requires n <= |cs|
    ensures CountHighRiskAt(cs[..n], n) == CountHighRiskAt(cs, n)
    decreases n
  {
    if n > 0 {
      assert cs[..n][..n - 1] == cs[..n - 1];
      CountPrefix(cs[..n], n - 1);
      CountPrefix(cs, n - 1);
    }
  }

  /** `reduce((sum, c) => sum + (parseInt(c.homeValue) || 0), 0)` */
  function TotalHomeValue(cs: seq<Client>): (total: int)
    ensures (forall i :: 0 <= i < |cs| ==> IntOrZero(cs[i].homeValue) >= 0) ==> total >= 0
  {
    if cs == [] then 0
    else
      var init := cs[..|cs| - 1];
      assert forall i :: 0 <= i < |init| ==> init[i] == cs[i];
      TotalHomeValue(init) + IntOrZero(cs[|cs| - 1].homeValue)
  }

  /** `reduce((sum, c) => sum + (c.liabilityExposure || 0), 0)` */
  function TotalExposure(cs: seq<Client>): (total: real)
    ensures (forall i :: 0 <= i < |cs| ==> cs[i].liabilityExposure >= 0.0) ==> total >= 0.0
  {
    if cs == [] then 0.0
    else
      var init := cs[..|cs| - 1];
      assert forall i :: 0 <= i < |init| ==> init[i] == cs[i];
      TotalExposure(init) + cs[|cs| - 1].liabilityExposure
  }

  /** The home-value sum of two lists laid end to end is the sum of their sums. */
  lemma {:induction false} TotalHomeValueAppend(a: seq<Client>, b: seq<Client>)
    ensures TotalHomeValue(a + b) == TotalHomeValue(a) + TotalHomeValue(b)
  {
    if b != [] {
      assert (a + b)[..|a + b| - 1] == a + b[..|b| - 1];
      TotalHomeValueAppend(a, b[..|b| - 1]);
    } else {
      assert a + b == a;
    }
  }

  /** The exposure sum of two lists laid end to end is the sum of their sums. */
  lemma {:induction false} TotalExposureAppend(a: seq<Client>, b: seq<Client>)
    ensures TotalExposure(a + b) == TotalExposure(a) + TotalExposure(b)
  {
    if b != [] {
      assert (a + b)[..|a + b| - 1] == a + b[..|b| - 1];
      TotalExposureAppend(a, b[..|b| - 1]);
    } else {
      assert a + b == a;
    }
  }

  /** The high-risk count of two lists laid end to end is the sum of their counts. */
  lemma {:induction false} HighRiskCountAppend(a: seq<Client>, b: seq<Client>)
    ensures HighRiskCount(a + b) == HighRiskCount(a) + HighRiskCount(b)
  {
    if b != [] {
      assert (a + b)[..|a + b| - 1] == a + b[..|b| - 1];
      HighRiskCountAppend(a, b[..|b| - 1]);
    } else {
      assert a + b == a;
    }
  }

  /** The average exposure: 0 for no clients, otherwise the sum shared out over the clients. */
  function AverageExposure(cs: seq<Client>): (avg: real)
    ensures |cs| == 0 ==> avg == 0.0
    ensures |cs| > 0 ==> avg * |cs| as real == TotalExposure(cs)
  {
    if |cs| > 0 then TotalExposure(cs) / |cs| as real else 0.0
  }

  /** The sum of exposures all within `[lo, hi]` lies within `[n * lo, n * hi]`. */
  lemma {:induction false} TotalExposureBounds(cs: seq<Client>, lo: real, hi: real)
    requires forall i :: 0 <= i < |cs| ==> lo <= cs[i].liabilityExposure <= hi
    ensures |cs| as real * lo <= TotalExposure(cs) <= |cs| as real * hi
  {
    if cs != [] {
      var init := cs[..|cs| - 1];
      assert forall i :: 0 <= i < |init| ==> init[i] == cs[i];
      TotalExposureBounds(init, lo, hi);
      assert TotalExposure(cs) == TotalExposure(init) + cs[|cs| - 1].liabilityExposure;
      assert |cs| as real * lo == |init| as real * lo + lo;
      assert |cs| as real * hi == |init| as real * hi + hi;
    }
  }

  /** The average lies between the smallest and the largest exposure. */
  lemma AverageWithinBounds(cs: seq<Client>, lo: real, hi: real)
    requires |cs| > 0
    requires forall i :: 0 <= i < |cs| ==> lo <= cs[i].liabilityExposure <= hi
    ensures lo <= AverageExposure(cs) <= hi
  {
    TotalExposureBounds(cs, lo, hi);
    QuotientWithin(TotalExposure(cs), |cs| as real, lo, hi);
  }

  /** A total between `n * lo` and `n * hi`, shared out over `n > 0`, lies between `lo` and `hi`. */
  lemma QuotientWithin(total: real, n: real, lo: real, hi: real)
    requires n > 0.0 && n * lo <= total <= n * hi
    ensures lo <= total / n <= hi
  {
    assert total / n - lo == (total - n * lo) / n;
    assert hi - total / n == (n * hi - total) / n;
  }

  datatype Stats = Stats(totalClients: nat, totalHomeValue: int, highRiskClients: nat, averageExposure: real)

  /** The dashboard's figures for a client list. */
  function DashboardStats(cs: seq<Client>): (s: Stats)
    ensures s.totalClients == |cs|
    ensures s.highRiskClients <= s.totalClients
    ensures s.highRiskClients == CountHighRiskAt(cs, |cs|)
    ensures s.totalHomeValue == TotalHomeValue(cs) && s.averageExposure == AverageExposure(cs)
    ensures s.totalClients == 0 ==> s.totalHomeValue == 0 && s.highRiskClients == 0 && s.averageExposure == 0.0
  {
    HighRiskCountIsCount(cs);
    Stats(|cs|, TotalHomeValue(cs), HighRiskCount(cs), AverageExposure(cs))
  }

  /** A successful create adds one client and that client's share to each figure. */
  lemma DashboardAfterCreate(cs: seq<Client>, f: ClientForm, id: string, createdAt: string)
    ensures var c := NewClient(f, id, createdAt);
            var before, after := DashboardStats(cs), DashboardStats(cs + [c]);
            after.totalClients == before.totalClients + 1 &&
            after.totalHomeValue == before.totalHomeValue + IntOrZero(f.homeValue) &&
            after.highRiskClients == before.highRiskClients + (if HighRisk(c) then 1 else 0) &&
            TotalExposure(cs + [c]) == TotalExposure(cs) + c.liabilityExposure
  {
    var c := NewClient(f, id, createdAt);
    assert IntOrZero(c.homeValue) == IntOrZero(f.homeValue) by {
      assert c.homeValue == OrZeroText(f.homeValue);
      OrZeroTextInvisible(f.homeValue);
    }
    AppendOne(cs, c);
  }

  /** Appending one client adds its home value, its exposure and its risk to the sums. */
  lemma AppendOne(cs: seq<Client>, c: Client)
    ensures TotalHomeValue(cs + [c]) == TotalHomeValue(cs) + IntOrZero(c.homeValue)
    ensures TotalExposure(cs + [c]) == TotalExposure(cs) + c.liabilityExposure
    ensures HighRiskCount(cs + [c]) == HighRiskCount(cs) + (if HighRisk(c) then 1 else 0)
  {
    assert (cs + [c])[..|cs|] == cs;
  }
}
