/**
 * The macro signal rules of the dashboard (app.py, lines 76-175): ten
 * independent threshold groups, evaluated in a fixed order, each reading one
 * or two indicators of the current snapshot and selecting at most one signal
 * (the inflation group always selects exactly one).
 *
 * Indicators are modelled as `real`; the engine only compares them against
 * constants.
 */
module Rules {
  import opened Wrappers

  /** The indicator values entered on the dashboard form. */
  datatype Snapshot = Snapshot(
    corePce: real, coreCpi: real, tenY: real, fedRate: real, pmi: real,
    unemp: real, dxy: real, debtGdp: real, m2: real, repo: real,
    margin: real, gold: real, spx: real, btc: real)

  /** The rule groups, one constructor per `# ...` block of the rules section. */
  datatype Group =
    | Inflation | TenYear | Pmi | Unemployment | Dollar
    | FedFunds | DebtToGdp | M2 | Repo | Margin

  /** Every signal some rule group can emit. */
  datatype Kind =
    | HighInflation | LowInflation | Goldilocks
    | TenYearSpike | TenYearLow
    | PmiContraction | PmiExpansion
    | TightLabour | HighUnemployment
    | StrongDollar | WeakDollar
    | HighFedRate | LowFedRate
    | HighDebt | LowDebt
    | M2Boom | M2Negative
    | RepoSpike
    | MarginHigh | MarginLow

  /** The order in which the groups run, and so the order of their signals. */
  const AllGroups: seq<Group> :=
    [Inflation, TenYear, Pmi, Unemployment, Dollar, FedFunds, DebtToGdp, M2, Repo, Margin]

  /** The group whose rule emits signal `k`. */
  function GroupOf(k: Kind): Group
  {
    match k
    case HighInflation | LowInflation | Goldilocks => Inflation
    case TenYearSpike | TenYearLow => TenYear
    case PmiContraction | PmiExpansion => Pmi
    case TightLabour | HighUnemployment => Unemployment
    case StrongDollar | WeakDollar => Dollar
    case HighFedRate | LowFedRate => FedFunds
    case HighDebt | LowDebt => DebtToGdp
    case M2Boom | M2Negative => M2
    case RepoSpike => Repo
    case MarginHigh | MarginLow => Margin
  }

  /** The position of group `g` in the evaluation order. */
  function GroupIndex(g: Group): (i: nat)
    ensures i < |AllGroups| && AllGroups[i] == g
  {
    match g
    case Inflation => 0
    case TenYear => 1
    case Pmi => 2
    case Unemployment => 3
    case Dollar => 4
    case FedFunds => 5
    case DebtToGdp => 6
    case M2 => 7
    case Repo => 8
    case Margin => 9
  }

  /** Python's two-argument `max`: the first argument unless the second is larger. */
  function Max(a: real, b: real): (m: real)
    ensures m >= a && m >= b
    ensures m == a || m == b
  {
    if b > a then b else a
  }

  /** Inflation group: keyed on the larger of core PCE and core CPI; always emits. */
  function InflationSignal(corePce: real, coreCpi: real): (k: Kind)
    ensures GroupOf(k) == Inflation
    ensures k == HighInflation <==> corePce > 3.0 || coreCpi > 3.0
    ensures k == LowInflation <==> corePce < 1.5 && coreCpi < 1.5
    ensures k == Goldilocks <==> (corePce <= 3.0 && coreCpi <= 3.0 && (corePce >= 1.5 || coreCpi >= 1.5))
  {
    var infl := Max(corePce, coreCpi);
    if infl > 3.0 then HighInflation
    else if infl < 1.5 then LowInflation
    else Goldilocks
  }

  /** 10-year yield group: silent on the closed band [3.5, 4.5]. */
  function TenYearSignal(tenY: real): (r: Option<Kind>)
    ensures r == Some(TenYearSpike) <==> tenY > 4.5
    ensures r == Some(TenYearLow) <==> tenY < 3.5
    ensures r == None <==> 3.5 <= tenY <= 4.5
  {
    if tenY > 4.5 then Some(TenYearSpike)
    else if tenY < 3.5 then Some(TenYearLow)
    else None
  }

  /** PMI group: 52.0 itself counts as strong expansion; silent on [50, 52). */
  function PmiSignal(pmi: real): (r: Option<Kind>)
    ensures r == Some(PmiContraction) <==> pmi < 50.0
    ensures r == Some(PmiExpansion) <==> pmi >= 52.0
    ensures r == None <==> 50.0 <= pmi < 52.0
  {
    if pmi < 50.0 then Some(PmiContraction)
    else if pmi >= 52.0 then Some(PmiExpansion)
    else None
  }

  /** Unemployment group: tight on [3.0, 3.5], high from 4.5; silent below 3.0 and on (3.5, 4.5). */
  function UnemploymentSignal(unemp: real): (r: Option<Kind>)
    ensures r == Some(TightLabour) <==> 3.0 <= unemp <= 3.5
    ensures r == Some(HighUnemployment) <==> unemp >= 4.5
    ensures r == None <==> unemp < 3.0 || (3.5 < unemp < 4.5)
  {
    if 3.0 <= unemp <= 3.5 then Some(TightLabour)
    else if unemp >= 4.5 then Some(HighUnemployment)
    else None
  }

  /** Dollar index group: both thresholds inclusive; silent on (100, 105). */
  function DollarSignal(dxy: real): (r: Option<Kind>)
    ensures r == Some(StrongDollar) <==> dxy >= 105.0
    ensures r == Some(WeakDollar) <==> dxy <= 100.0
    ensures r == None <==> 100.0 < dxy < 105.0
  {
    if dxy >= 105.0 then Some(StrongDollar)
    else if dxy <= 100.0 then Some(WeakDollar)
    else None
  }

  /** Fed funds rate group: silent on [2.0, 5.0]. */
  function FedFundsSignal(fedRate: real): (r: Option<Kind>)
    ensures r == Some(HighFedRate) <==> fedRate > 5.0
    ensures r == Some(LowFedRate) <==> fedRate < 2.0
    ensures r == None <==> 2.0 <= fedRate <= 5.0
  {
    if fedRate > 5.0 then Some(HighFedRate)
    else if fedRate < 2.0 then Some(LowFedRate)
    else None
  }

  /** Debt-to-GDP group: silent on [80, 120]. */
  function DebtSignal(debtGdp: real): (r: Option<Kind>)
    ensures r == Some(HighDebt) <==> debtGdp > 120.0
    ensures r == Some(LowDebt) <==> debtGdp < 80.0
    ensures r == None <==> 80.0 <= debtGdp <= 120.0
  {
    if debtGdp > 120.0 then Some(HighDebt)
    else if debtGdp < 80.0 then Some(LowDebt)
    else None
  }

  /** M2 growth group: silent on [0, 10]. */
  function M2Signal(m2: real): (r: Option<Kind>)
    ensures r == Some(M2Boom) <==> m2 > 10.0
    ensures r == Some(M2Negative) <==> m2 < 0.0
    ensures r == None <==> 0.0 <= m2 <= 10.0
  {
    if m2 > 10.0 then Some(M2Boom)
    else if m2 < 0.0 then Some(M2Negative)
    else None
  }

  /** Repo rate group: only a high branch; any rate up to 8 is silent. */
  function RepoSignal(repo: real): (r: Option<Kind>)
    ensures r == Some(RepoSpike) <==> repo > 8.0
    ensures r == None <==> repo <= 8.0
  {
    if repo > 8.0 then Some(RepoSpike) else None
  }

  /** Margin debt group: silent on [500, 1000]. */
  function MarginSignal(margin: real): (r: Option<Kind>)
    ensures r == Some(MarginHigh) <==> margin > 1000.0
    ensures r == Some(MarginLow) <==> margin < 500.0
    ensures r == None <==> 500.0 <= margin <= 1000.0
  {
    if margin > 1000.0 then Some(MarginHigh)
    else if margin < 500.0 then Some(MarginLow)
    else None
  }

  /** What group `g` emits for snapshot `s`: at most one signal, of that group. */
  function GroupSignal(g: Group, s: Snapshot): (r: Option<Kind>)
    ensures r.Some? ==> GroupOf(r.value) == g
    ensures g == Inflation ==> r.Some?
  {
    match g
    case Inflation => Some(InflationSignal(s.corePce, s.coreCpi))
    case TenYear => TenYearSignal(s.tenY)
    case Pmi => PmiSignal(s.pmi)
    case Unemployment => UnemploymentSignal(s.unemp)
    case Dollar => DollarSignal(s.dxy)
    case FedFunds => FedFundsSignal(s.fedRate)
    case DebtToGdp => DebtSignal(s.debtGdp)
    case M2 => M2Signal(s.m2)
    case Repo => RepoSignal(s.repo)
    case Margin => MarginSignal(s.margin)
  }

  /** The zero- or one-element list a group contributes. */
  function Emitted(r: Option<Kind>): seq<Kind>
  {
    if r.Some? then [r.value] else []
  }

  /** The signals emitted by the first `n` groups, in evaluation order. */
  function Fired(s: Snapshot, n: nat): seq<Kind>
    requires n <= |AllGroups|
  {
    if n == 0 then [] else Fired(s, n - 1) + Emitted(GroupSignal(AllGroups[n - 1], s))
  }

  /** The whole signal list for a snapshot: what all ten groups emit. */
  function Evaluate(s: Snapshot): seq<Kind>
  {
    Fired(s, 10)
  }

  /** Signals appear in strictly increasing group order. */
  ghost predicate InGroupOrder(ks: seq<Kind>)
  {
    forall i, j :: 0 <= i < j < |ks| ==> GroupIndex(GroupOf(ks[i])) < GroupIndex(GroupOf(ks[j]))
  }

  /** The `n`-th group of the evaluation order sits at position `n`. */
  lemma GroupIndexOfNth(n: nat)
    requires n < |AllGroups|
    ensures GroupIndex(AllGroups[n]) == n
  {
  }

  /**
   * The first `n` groups emit at most `n` signals, at least one when the
   * inflation group is among them (and then it comes first), in group order,
   * and a signal is emitted exactly when its group is among the first `n` and
   * that group's rule selects it.
   */
  lemma {:induction false} FiredShape(s: Snapshot, n: nat)
    requires n <= |AllGroups|
    ensures |Fired(s, n)| <= n
    ensures n > 0 ==> |Fired(s, n)| >= 1 && Fired(s, n)[0] == InflationSignal(s.corePce, s.coreCpi)
    ensures InGroupOrder(Fired(s, n))
    ensures forall k :: k in Fired(s, n) <==> GroupIndex(GroupOf(k)) < n && GroupSignal(GroupOf(k), s) == Some(k)
  {
    if n > 0 {
      FiredShape(s, n - 1);
      GroupIndexOfNth(n - 1);
      var prev := Fired(s, n - 1);
      var last := Emitted(GroupSignal(AllGroups[n - 1], s));
      assert Fired(s, n) == prev + last;
      forall k | k in last
        ensures GroupIndex(GroupOf(k)) == n - 1
      {
      }
    }
  }

  /**
   * The evaluation as a whole: between one and ten signals, the inflation
   * signal first, at most one per group, ordered by group, and a signal is in
   * the list exactly when its group's rule selects it.
   */
  lemma EvaluateShape(s: Snapshot)
    ensures 1 <= |Evaluate(s)| <= |AllGroups|
    ensures Evaluate(s)[0] == InflationSignal(s.corePce, s.coreCpi)
    ensures InGroupOrder(Evaluate(s))
    ensures forall i, j :: 0 <= i < j < |Evaluate(s)| ==> GroupOf(Evaluate(s)[i]) != GroupOf(Evaluate(s)[j])
    ensures forall k :: k in Evaluate(s) <==> GroupSignal(GroupOf(k), s) == Some(k)
  {
    FiredShape(s, 10);
  }
}
