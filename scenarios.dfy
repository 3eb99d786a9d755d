/**
 * Two worked snapshots run through the whole rule script, and the step
 * lemmas that walk a snapshot through the groups one or two at a time.
 */
module Scenarios {
  import opened Wrappers
  import opened Rules

  /** One more group: its signal, if any, goes after those of the groups before it. */
  lemma FiredStep(s: Snapshot, n: nat, prefix: seq<Kind>, r: Option<Kind>)
    requires n < |AllGroups| && Fired(s, n) == prefix && GroupSignal(AllGroups[n], s) == r
    ensures Fired(s, n + 1) == prefix + Emitted(r)
  {
  }

  /** Two consecutive groups at once, so that a scenario takes five steps rather than ten. */
  lemma FiredPair(s: Snapshot, n: nat, prefix: seq<Kind>, r1: Option<Kind>, r2: Option<Kind>)
    requires n + 2 <= |AllGroups| && Fired(s, n) == prefix
    requires GroupSignal(AllGroups[n], s) == r1 && GroupSignal(AllGroups[n + 1], s) == r2
    ensures Fired(s, n + 2) == prefix + Emitted(r1) + Emitted(r2)
  {
    FiredStep(s, n, prefix, r1);
    FiredStep(s, n + 1, prefix + Emitted(r1), r2);
  }

  /** The first six groups of the quiet snapshot: only the inflation band and the Fed rate fire. */
  lemma QuietFirstSix(s: Snapshot)
    requires s.corePce == 2.0 && s.coreCpi == 2.2 && s.tenY == 4.0 && s.fedRate == 5.25
    requires s.pmi == 50.0 && s.unemp == 3.8 && s.dxy == 103.0
    ensures Fired(s, 6) == [Goldilocks, HighFedRate]
  {
    FiredPair(s, 0, [], Some(Goldilocks), None);
    FiredPair(s, 2, [Goldilocks], None, None);
    FiredPair(s, 4, [Goldilocks], None, Some(HighFedRate));
  }

  /**
   * A snapshot where only the inflation band and the Fed rate fire:
   * "Goldilocks" then "Fed rate above 5%", nothing else (debt at exactly
   * 120 and PMI at exactly 50 stay silent). The asset prices play no part.
   */
  lemma QuietScenario(s: Snapshot)
    requires s.corePce == 2.0 && s.coreCpi == 2.2 && s.tenY == 4.0 && s.fedRate == 5.25
    requires s.pmi == 50.0 && s.unemp == 3.8 && s.dxy == 103.0 && s.debtGdp == 120.0
    requires s.m2 == 2.0 && s.repo == 5.0 && s.margin == 900.0
    ensures Evaluate(s) == [Goldilocks, HighFedRate]
  {
    QuietFirstSix(s);
    FiredPair(s, 6, [Goldilocks, HighFedRate], None, None);
    FiredPair(s, 8, [Goldilocks, HighFedRate], None, None);
  }

  /** The first six groups of the every-group snapshot. */
  lemma EveryGroupFirstSix(s: Snapshot)
    requires s.corePce == 3.5 && s.coreCpi == 2.0 && s.tenY == 5.0 && s.fedRate == 1.5
    requires s.pmi == 55.0 && s.unemp == 5.0 && s.dxy == 106.0
    ensures Fired(s, 6) == [HighInflation, TenYearSpike, PmiExpansion, HighUnemployment, StrongDollar,
                            LowFedRate]
  {
    FiredPair(s, 0, [], Some(HighInflation), Some(TenYearSpike));
    FiredPair(s, 2, [HighInflation, TenYearSpike], Some(PmiExpansion), Some(HighUnemployment));
    FiredPair(s, 4, [HighInflation, TenYearSpike, PmiExpansion, HighUnemployment],
              Some(StrongDollar), Some(LowFedRate));
  }

  /** A snapshot on which every group fires: ten signals, one per group, in group order. */
  lemma EveryGroupScenario(s: Snapshot)
    requires s.corePce == 3.5 && s.coreCpi == 2.0 && s.tenY == 5.0 && s.fedRate == 1.5
    requires s.pmi == 55.0 && s.unemp == 5.0 && s.dxy == 106.0 && s.debtGdp == 130.0
    requires s.m2 == 12.0 && s.repo == 9.0 && s.margin == 1100.0
    ensures Evaluate(s) == [HighInflation, TenYearSpike, PmiExpansion, HighUnemployment, StrongDollar,
                            LowFedRate, HighDebt, M2Boom, RepoSpike, MarginHigh]
  {
    EveryGroupFirstSix(s);
    FiredPair(s, 6, [HighInflation, TenYearSpike, PmiExpansion, HighUnemployment, StrongDollar,
                     LowFedRate], Some(HighDebt), Some(M2Boom));
    FiredPair(s, 8, [HighInflation, TenYearSpike, PmiExpansion, HighUnemployment, StrongDollar,
                     LowFedRate, HighDebt, M2Boom], Some(RepoSpike), Some(MarginHigh));
  }
}
