/**
 * The signal table of the dashboard: `add_signal` (app.py, lines 68-74)
 * appends one display row per emitted signal to the module-level `signals`
 * list, and the rules section (lines 76-175) calls it group by group.
 */
module SignalBoard {
  import opened Wrappers
  import opened Rules

  /** One row of the signal table: its four display columns. */
  datatype SignalRow = SignalRow(signal: string, implication: string, favored: string, unfavored: string)

  /** Total length of a list of strings. */
  function TotalLength(parts: seq<string>): nat
  {
    if parts == [] then 0 else |parts[0]| + TotalLength(parts[1..])
  }

  /**
   * Python's `sep.join(parts)`: "" for no parts; otherwise it starts with the
   * first part and holds every part plus one separator between neighbours.
   */
  function Join(sep: string, parts: seq<string>): (r: string)
    ensures parts == [] ==> r == ""
    ensures parts != [] ==> parts[0] <= r
    ensures parts != [] ==> |r| == TotalLength(parts) + (|parts| - 1) * |sep|
  {
    if |parts| == 0 then ""
    else if |parts| == 1 then parts[0]
    else parts[0] + sep + Join(sep, parts[1..])
  }

  /**
   * The row `add_signal(name, note, assets_in, assets_out)` builds: the
   * unfavored column is empty when `assets_out` is None or an empty list.
   */
  function MakeRow(name: string, note: string, assetsIn: seq<string>, assetsOut: Option<seq<string>>): (row: SignalRow)
    ensures row.signal == name && row.implication == note
    ensures row.favored == Join(", ", assetsIn)
    ensures row.unfavored == Join(", ", if assetsOut.Some? then assetsOut.value else [])
  {
    SignalRow(
      name,
      note,
      Join(", ", assetsIn),
      if assetsOut.Some? && assetsOut.value != [] then Join(", ", assetsOut.value) else "")
  }

  /** The texts one `add_signal` call of the rules passes: name, note, favored and unfavored assets. */
  datatype SignalText = SignalText(name: string, note: string, assetsIn: seq<string>, assetsOut: seq<string>)

  /** The texts signal `k`'s `add_signal` call passes; every call passes an unfavored list. */
  function Text(k: Kind): SignalText
  {
    SignalText(Name(k), Note(k), Favored(k), Unfavored(k))
  }

  /** The signal column of signal `k`. */
  function Name(k: Kind): string
  {
    match k
    case HighInflation => "High Inflation >3% / เงินเฟ้อสูง"
    case LowInflation => "Low Inflation <1.5% / เงินเฟ้อต่ำ"
    case Goldilocks => "Inflation ~2% / เงินเฟ้อใกล้เป้า"
    case TenYearSpike => "10Y พุ่ง (>4.5%)"
    case TenYearLow => "10Y ต่ำ (<3.5%)"
    case PmiContraction => "PMI < 50 (หดตัว)"
    case PmiExpansion => "PMI > 52 (ขยายตัวแรง)"
    case TightLabour => "ว่างงานต่ำ (3–3.5%)"
    case HighUnemployment => "ว่างงานสูง (>4.5%)"
    case StrongDollar => "ดอลลาร์แข็ง (>105)"
    case WeakDollar => "ดอลลาร์อ่อน (<100)"
    case HighFedRate => "Fed Rate >5% / ดอกเบี้ยสูง"
    case LowFedRate => "Fed Rate <2% / ดอกเบี้ยต่ำ"
    case HighDebt => "Debt/GDP >120%"
    case LowDebt => "Debt/GDP <80%"
    case M2Boom => "M2 Growth >10%"
    case M2Negative => "M2 Negative"
    case RepoSpike => "Repo Spike >8%"
    case MarginHigh => "Margin Debt >1T"
    case MarginLow => "Margin Debt <500B"
  }

  /** The implication column of signal `k`. */
  function Note(k: Kind): string
  {
    match k
    case HighInflation => "Fed likely to tighten / Fed มีแนวโน้มคุมเข้ม"
    case LowInflation => "Risk of slowdown → easing / เสี่ยงชะลอ → Fed ผ่อน"
    case Goldilocks => "Goldilocks zone"
    case TenYearSpike => "Discount rate สูง → กดดัน Valuation"
    case TenYearLow => "เอื้อสินทรัพย์เสี่ยง/ปลอดภัยพร้อมกัน (ขึ้นกับบริบท)"
    case PmiContraction => "Cyclicals แพ้, Safe haven เด่น"
    case PmiExpansion => "Cyclicals/พลังงาน/โภคภัณฑ์เด่น"
    case TightLabour => "ตลาดแรงงานตึง → Fed ชะลอลดดอกเบี้ย"
    case HighUnemployment => "เสี่ยงถดถอย → Fed เร่งผ่อน"
    case StrongDollar => "กดดันทอง/คริปโต/EM; US assets ได้เปรียบ"
    case WeakDollar => "เงินไหลเข้า EM/ทอง/คริปโต"
    case HighFedRate => "Historic risk of recession / เสี่ยงถดถอย"
    case LowFedRate => "Stimulus mode / ภาวะกระตุ้นเศรษฐกิจ"
    case HighDebt => "Fiscal risk long-term / ความเสี่ยงการคลัง"
    case LowDebt => "Healthy debt level / หนี้อยู่ในระดับปลอดภัย"
    case M2Boom => "Liquidity boom / สภาพคล่องล้น"
    case M2Negative => "Liquidity contraction / สภาพคล่องหด"
    case RepoSpike => "Funding stress / ตึงสภาพคล่อง"
    case MarginHigh => "Bubble risk / เสี่ยงฟองสบู่"
    case MarginLow => "Low leverage / การกู้ต่ำ"
  }

  /** The favored assets passed for signal `k`: only "Margin Debt >1T" passes none. */
  function Favored(k: Kind): (assets: seq<string>)
    ensures |assets| == 0 <==> k == MarginHigh
  {
    match k
    case HighInflation => ["ทอง", "BTC", "พันธบัตรสั้น"]
    case LowInflation => ["ทอง", "พันธบัตรยาว", "REITs"]
    case Goldilocks => ["หุ้น Tech/Growth", "EM equities"]
    case TenYearSpike => ["พันธบัตรสั้น", "หุ้นปันผล", "Defensive"]
    case TenYearLow => ["ทอง", "Bitcoin", "พันธบัตรยาว", "REITs"]
    case PmiContraction => ["ทอง", "หุ้น Defensive", "Healthcare", "Utilities"]
    case PmiExpansion => ["Industrials", "Energy", "EM equities", "Commodities"]
    case TightLabour => ["หุ้น Defensive", "ดอลลาร์", "พันธบัตรสั้น"]
    case HighUnemployment => ["ทอง", "Bitcoin", "พันธบัตรยาว", "REITs (เมื่อดอกเบี้ยลดจริง)"]
    case StrongDollar => ["หุ้นสหรัฐ Large Cap", "พันธบัตรสหรัฐ", "เงินสด USD"]
    case WeakDollar => ["ทอง", "Bitcoin", "EM equities", "Commodities"]
    case HighFedRate => ["พันธบัตรสั้น", "หุ้น Defensive"]
    case LowFedRate => ["หุ้น", "ทอง", "BTC"]
    case HighDebt => ["ทอง", "BTC"]
    case LowDebt => ["หุ้น", "พันธบัตร"]
    case M2Boom => ["หุ้น", "ทอง", "BTC"]
    case M2Negative => ["เงินสด", "USD", "พันธบัตร"]
    case RepoSpike => ["ทอง", "พันธบัตรสั้น"]
    case MarginHigh => []
    case MarginLow => ["ตลาดปลอดภัยขึ้น"]
  }

  /** The unfavored assets passed for signal `k`: seven of the twenty calls pass a non-empty list. */
  function Unfavored(k: Kind): (assets: seq<string>)
    ensures |assets| > 0 <==>
      k in {HighInflation, TenYearSpike, PmiContraction, StrongDollar, HighFedRate, RepoSpike, MarginHigh}
  {
    match k
    case HighInflation => ["หุ้น Growth/Tech"]
    case LowInflation => []
    case Goldilocks => []
    case TenYearSpike => ["หุ้น Tech/Growth", "REITs"]
    case TenYearLow => []
    case PmiContraction => ["Cyclicals (Retail/Industrials)"]
    case PmiExpansion => []
    case TightLabour => []
    case HighUnemployment => []
    case StrongDollar => ["ทอง", "Bitcoin", "EM equities"]
    case WeakDollar => []
    case HighFedRate => ["หุ้น Tech/Growth"]
    case LowFedRate => []
    case HighDebt => []
    case LowDebt => []
    case M2Boom => []
    case M2Negative => []
    case RepoSpike => ["หุ้น"]
    case MarginHigh => ["หุ้นเก็งกำไร", "คริปโต"]
    case MarginLow => []
  }

  /** The display row of signal `k`. */
  function Row(k: Kind): SignalRow
  {
    var t := Text(k);
    MakeRow(t.name, t.note, t.assetsIn, Some(t.assetsOut))
  }

  /** `f` applied to every element of `xs`, in order. */
  function MapSeq<A, B>(f: A -> B, xs: seq<A>): seq<B>
  {
    seq(|xs|, i requires 0 <= i < |xs| => f(xs[i]))
  }

  /** Mapping distributes over concatenation. */
  lemma MapSeqAppend<A, B>(f: A -> B, xs: seq<A>, ys: seq<A>)
    ensures MapSeq(f, xs + ys) == MapSeq(f, xs) + MapSeq(f, ys)
  {
    var lhs, rhs := MapSeq(f, xs + ys), MapSeq(f, xs) + MapSeq(f, ys);
    forall i | 0 <= i < |lhs|
      ensures lhs[i] == rhs[i]
    {
      if i < |xs| {
        assert (xs + ys)[i] == xs[i];
      } else {
        assert (xs + ys)[i] == ys[i - |xs|];
      }
    }
  }

  /** The display rows of a list of signals, in the same order. */
  function RowsOf(ks: seq<Kind>): seq<SignalRow>
  {
    MapSeq(Row, ks)
  }

  /** The module-level `signals` list that the rules append to. */
  class Board {
    var signals: seq<SignalRow>

    /** `signals = []`. */
    constructor ()
      ensures signals == []
    {
      signals := [];
    }

    /** `add_signal`: one row appended at the end, earlier rows untouched. */
    method AddSignal(name: string, note: string, assetsIn: seq<string>, assetsOut: Option<seq<string>>)
      modifies this
      ensures signals == old(signals) + [MakeRow(name, note, assetsIn, assetsOut)]
    {
      signals := signals + [MakeRow(name, note, assetsIn, assetsOut)];
    }

    /** Emits the display row of signal `k` (one `add_signal` call of the rules). */
    method Emit(k: Kind)
      modifies this
      ensures signals == old(signals) + RowsOf([k])
    {
      var t := Text(k);
      AddSignal(t.name, t.note, t.assetsIn, Some(t.assetsOut));
      assert RowsOf([k]) == [Row(k)];
    }

    /** Inflation (core PCE / CPI), keyed on `max(core_pce, core_cpi)`: always one row. */
    method RunInflationRule(s: Snapshot)
      requires signals == RowsOf(Fired(s, 0))
      modifies this
      ensures signals == old(signals) + RowsOf(Emitted(GroupSignal(Inflation, s)))
      ensures signals == RowsOf(Fired(s, 1))
    {
      var infl := Max(s.corePce, s.coreCpi);
      if infl > 3.0 {
        Emit(HighInflation);
      } else if infl < 1.5 {
        Emit(LowInflation);
      } else {
        Emit(Goldilocks);
      }
      Step(s, 1, old(signals), signals);
    }

    /** 10Y rules. */
    method RunTenYearRule(s: Snapshot)
      requires signals == RowsOf(Fired(s, 1))
      modifies this
      ensures signals == old(signals) + RowsOf(Emitted(GroupSignal(TenYear, s)))
      ensures signals == RowsOf(Fired(s, 2))
    {
      if s.tenY > 4.5 {
        Emit(TenYearSpike);
      } else if s.tenY < 3.5 {
        Emit(TenYearLow);
      }
      Step(s, 2, old(signals), signals);
    }

    /** PMI rules. */
    method RunPmiRule(s: Snapshot)
      requires signals == RowsOf(Fired(s, 2))
      modifies this
      ensures signals == old(signals) + RowsOf(Emitted(GroupSignal(Pmi, s)))
      ensures signals == RowsOf(Fired(s, 3))
    {
      if s.pmi < 50.0 {
        Emit(PmiContraction);
      } else if s.pmi >= 52.0 {
        Emit(PmiExpansion);
      }
      Step(s, 3, old(signals), signals);
    }

    /** Unemployment rules. */
    method RunUnemploymentRule(s: Snapshot)
      requires signals == RowsOf(Fired(s, 3))
      modifies this
      ensures signals == old(signals) + RowsOf(Emitted(GroupSignal(Unemployment, s)))
      ensures signals == RowsOf(Fired(s, 4))
    {
      if 3.0 <= s.unemp <= 3.5 {
        Emit(TightLabour);
      } else if s.unemp >= 4.5 {
        Emit(HighUnemployment);
      }
      Step(s, 4, old(signals), signals);
    }

    /** DXY rules. */
    method RunDollarRule(s: Snapshot)
      requires signals == RowsOf(Fired(s, 4))
      modifies this
      ensures signals == old(signals) + RowsOf(Emitted(GroupSignal(Dollar, s)))
      ensures signals == RowsOf(Fired(s, 5))
    {
      if s.dxy >= 105.0 {
        Emit(StrongDollar);
      } else if s.dxy <= 100.0 {
        Emit(WeakDollar);
      }
      Step(s, 5, old(signals), signals);
    }

    /** Fed funds rate. */
    method RunFedFundsRule(s: Snapshot)
      requires signals == RowsOf(Fired(s, 5))
      modifies this
      ensures signals == old(signals) + RowsOf(Emitted(GroupSignal(FedFunds, s)))
      ensures signals == RowsOf(Fired(s, 6))
    {
      if s.fedRate > 5.0 {
        Emit(HighFedRate);
      } else if s.fedRate < 2.0 {
        Emit(LowFedRate);
      }
      Step(s, 6, old(signals), signals);
    }

    /** Debt-to-GDP. */
    method RunDebtRule(s: Snapshot)
      requires signals == RowsOf(Fired(s, 6))
      modifies this
      ensures signals == old(signals) + RowsOf(Emitted(GroupSignal(DebtToGdp, s)))
      ensures signals == RowsOf(Fired(s, 7))
    {
      if s.debtGdp > 120.0 {
        Emit(HighDebt);
      } else if s.debtGdp < 80.0 {
        Emit(LowDebt);
      }
      Step(s, 7, old(signals), signals);
    }

    /** M2 growth. */
    method RunM2Rule(s: Snapshot)
      requires signals == RowsOf(Fired(s, 7))
      modifies this
      ensures signals == old(signals) + RowsOf(Emitted(GroupSignal(M2, s)))
      ensures signals == RowsOf(Fired(s, 8))
    {
      if s.m2 > 10.0 {
        Emit(M2Boom);
      } else if s.m2 < 0.0 {
        Emit(M2Negative);
      }
      Step(s, 8, old(signals), signals);
    }

    /** Repo rate: a high branch only. */
    method RunRepoRule(s: Snapshot)
      requires signals == RowsOf(Fired(s, 8))
      modifies this
      ensures signals == old(signals) + RowsOf(Emitted(GroupSignal(Repo, s)))
      ensures signals == RowsOf(Fired(s, 9))
    {
      if s.repo > 8.0 {
        Emit(RepoSpike);
      }
      Step(s, 9, old(signals), signals);
    }

    /** Margin debt. */
    method RunMarginRule(s: Snapshot)
      requires signals == RowsOf(Fired(s, 9))
      modifies this
      ensures signals == old(signals) + RowsOf(Emitted(GroupSignal(Margin, s)))
      ensures signals == RowsOf(Fired(s, 10))
    {
      if s.margin > 1000.0 {
        Emit(MarginHigh);
      } else if s.margin < 500.0 {
        Emit(MarginLow);
      }
      Step(s, 10, old(signals), signals);
    }

    /**
     * The rules section: clears the list, then runs the ten groups in order,
     * each appending at most one row. The result is the rows of `Evaluate(s)`.
     */
    method RunRules(s: Snapshot)
      modifies this
      ensures signals == RowsOf(Evaluate(s))
    {
      signals := [];
      RunInflationRule(s);
      RunTenYearRule(s);
      RunPmiRule(s);
      RunUnemploymentRule(s);
      RunDollarRule(s);
      RunFedFundsRule(s);
      RunDebtRule(s);
      RunM2Rule(s);
      RunRepoRule(s);
      RunMarginRule(s);
    }
  }

  /** Appending the rows group `n` emits to the rows of the first `n - 1` groups gives those of the first `n`. */
  lemma Step(s: Snapshot, n: nat, before: seq<SignalRow>, after: seq<SignalRow>)
    requires 0 < n <= |AllGroups|
    requires before == RowsOf(Fired(s, n - 1))
    requires after == before + RowsOf(Emitted(GroupSignal(AllGroups[n - 1], s)))
    ensures after == RowsOf(Fired(s, n))
  {
    MapSeqAppend(Row, Fired(s, n - 1), Emitted(GroupSignal(AllGroups[n - 1], s)));
  }
}
