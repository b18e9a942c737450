/**
  Budget-execution risk: the five tiers, the classifier that maps a
  (budgeted, actual) pair to a tier, the execution percentage shown beside
  it, and the fixed label, colour and style-class tables of each tier.
 */
module Risk {
  import opened Outcomes

  /** The five risk tiers. `NoBudget` stands outside the severity order. */
  datatype Tier = OverBudget | Critical | Warning | Ok | NoBudget

  /** The tier of a (budgeted, actual) pair. A zero budget is critical as soon
      as anything was spent; otherwise the thresholds apply to the percentage
      actual / budgeted * 100: above 100, from 90, from 70, below 70. */
  function Classify(previsto: real, realizado: real): (t: Tier)
    ensures t == NoBudget <==> previsto == 0.0 && realizado <= 0.0
  {
    if previsto == 0.0 then
      if realizado > 0.0 then Critical else NoBudget
    else
      var pct := realizado / previsto * 100.0;
      if pct > 100.0 then OverBudget
      else if pct >= 90.0 then Critical
      else if pct >= 70.0 then Warning
      else Ok
  }

  /** Severity of the ordered tiers: Ok < Warning < Critical < OverBudget. */
  function Severity(t: Tier): nat
    requires t != NoBudget
  {
    match t
    case Ok => 0
    case Warning => 1
    case Critical => 2
    case OverBudget => 3
  }

  /** With a positive budget the classifier compares the actual amount against
      fixed fractions of the budget, with no division. */
  lemma ClassifyPositiveBudget(previsto: real, realizado: real)
    requires previsto > 0.0
    ensures Classify(previsto, realizado) == OverBudget <==> realizado > previsto
    ensures Classify(previsto, realizado) == Critical <==> 9.0 * previsto <= 10.0 * realizado <= 10.0 * previsto
    ensures Classify(previsto, realizado) == Warning <==> 7.0 * previsto <= 10.0 * realizado < 9.0 * previsto
    ensures Classify(previsto, realizado) == Ok <==> 10.0 * realizado < 7.0 * previsto
  {
    var pct := realizado / previsto * 100.0;
    PctTimesBudget(previsto, realizado);
    Threshold(pct, previsto, realizado, 100.0);
    Threshold(pct, previsto, realizado, 90.0);
    Threshold(pct, previsto, realizado, 70.0);
  }

  /** The percentage times the budget is a hundred times the actual amount. */
  lemma PctTimesBudget(previsto: real, realizado: real)
    requires previsto != 0.0
    ensures realizado / previsto * 100.0 * previsto == 100.0 * realizado
  {
    var q := realizado / previsto;
    assert q * previsto == realizado;
    assert q * 100.0 * previsto == 100.0 * (q * previsto);
  }

  /** A percentage threshold read as a comparison between amounts: the
      comparison keeps its direction for a positive budget and flips for a
      negative one. */
  lemma Threshold(pct: real, previsto: real, realizado: real, c: real)
    requires previsto != 0.0 && pct * previsto == 100.0 * realizado
    ensures previsto > 0.0 ==> (pct > c <==> 100.0 * realizado > c * previsto)
    ensures previsto > 0.0 ==> (pct >= c <==> 100.0 * realizado >= c * previsto)
    ensures previsto < 0.0 ==> (pct > c <==> 100.0 * realizado < c * previsto)
    ensures previsto < 0.0 ==> (pct >= c <==> 100.0 * realizado <= c * previsto)
  {
    assert 100.0 * realizado - c * previsto == (pct - c) * previsto;
  }

  /** With a negative budget every comparison flips: spending less than the
      (negative) budget is what overruns it. */
  lemma ClassifyNegativeBudget(previsto: real, realizado: real)
    requires previsto < 0.0
    ensures Classify(previsto, realizado) == OverBudget <==> realizado < previsto
    ensures Classify(previsto, realizado) == Critical <==> 10.0 * previsto <= 10.0 * realizado <= 9.0 * previsto
    ensures Classify(previsto, realizado) == Warning <==> 9.0 * previsto < 10.0 * realizado <= 7.0 * previsto
    ensures Classify(previsto, realizado) == Ok <==> 10.0 * realizado > 7.0 * previsto
  {
    var pct := realizado / previsto * 100.0;
    PctTimesBudget(previsto, realizado);
    Threshold(pct, previsto, realizado, 100.0);
    Threshold(pct, previsto, realizado, 90.0);
    Threshold(pct, previsto, realizado, 70.0);
  }

  /** With a fixed positive budget, spending more never lowers the severity. */
  lemma ClassifyMonotone(previsto: real, r1: real, r2: real)
    requires previsto > 0.0 && r1 <= r2
    ensures Classify(previsto, r1) != NoBudget && Classify(previsto, r2) != NoBudget
    ensures Severity(Classify(previsto, r1)) <= Severity(Classify(previsto, r2))
  {
    ClassifyPositiveBudget(previsto, r1);
    ClassifyPositiveBudget(previsto, r2);
  }

  /** The boundary cases the thresholds are written for. */
  lemma ClassifyBoundaries()
    ensures Classify(0.0, 0.0) == NoBudget
    ensures Classify(0.0, 50.0) == Critical
    ensures Classify(100.0, 100.0) == Critical
    ensures Classify(100.0, 100.01) == OverBudget
    ensures Classify(100.0, 90.0) == Critical
    ensures Classify(100.0, 89.99) == Warning
    ensures Classify(100.0, 70.0) == Warning
    ensures Classify(100.0, 69.99) == Ok
  {
  }

  /** The execution percentage of the summary tables: a zero budget reports 0,
      any other budget (negative ones included) reports actual / budget * 100. */
  function ExecPct(previsto: real, realizado: real): (pct: real)
    ensures previsto == 0.0 ==> pct == 0.0
    ensures previsto != 0.0 ==> pct * previsto == realizado * 100.0
  {
    if previsto == 0.0 then 0.0 else realizado / previsto * 100.0
  }

  /** The execution percentage of the cards and the headline metric: any
      budget that is not positive reports 0. */
  function CardExecPct(previsto: real, realizado: real): (pct: real)
    ensures previsto <= 0.0 ==> pct == 0.0
    ensures previsto > 0.0 ==> pct * previsto == realizado * 100.0
  {
    if previsto > 0.0 then realizado / previsto * 100.0 else 0.0
  }

  /** The two percentages differ exactly when the budget is negative and
      something was spent. */
  lemma ExecPctVariants(previsto: real, realizado: real)
    ensures ExecPct(previsto, realizado) == CardExecPct(previsto, realizado)
            <==> previsto >= 0.0 || realizado == 0.0
  {
    if previsto < 0.0 && realizado != 0.0 {
      PctTimesBudget(previsto, realizado);
    }
  }

  /** Apart from a zero budget, the tier is read off the execution percentage;
      with a zero budget the percentage is 0 whatever the tier. */
  lemma TierFollowsPct(previsto: real, realizado: real)
    ensures previsto != 0.0 ==>
      var pct := ExecPct(previsto, realizado);
      Classify(previsto, realizado)
        == (if pct > 100.0 then OverBudget else if pct >= 90.0 then Critical
            else if pct >= 70.0 then Warning else Ok)
    ensures previsto == 0.0 ==> ExecPct(previsto, realizado) == 0.0
    ensures previsto == 0.0 && realizado > 0.0 ==> Classify(previsto, realizado) == Critical
  {
  }

  // ---------------------------------------------------------------------
  // Lookup tables
  // ---------------------------------------------------------------------

  /** The label the dashboard shows and the status filter offers. */
  function Label(t: Tier): string {
    match t
    case OverBudget => "ESTOURADO"
    case Critical => "CR\U{CD}TICO"
    case Warning => "ATEN\U{C7}\U{C3}O"
    case Ok => "OK"
    case NoBudget => "SEM OR\U{C7}AMENTO"
  }

  /** The tier a label names, if any. */
  function ParseLabel(s: string): (r: Option<Tier>)
    ensures r.Some? ==> Label(r.value) == s
  {
    if s == Label(OverBudget) then Some(OverBudget)
    else if s == Label(Critical) then Some(Critical)
    else if s == Label(Warning) then Some(Warning)
    else if s == Label(Ok) then Some(Ok)
    else if s == Label(NoBudget) then Some(NoBudget)
    else None
  }

  /** Labels are read back as the tier they were written for. */
  lemma LabelRoundTrip(t: Tier)
    ensures ParseLabel(Label(t)) == Some(t)
  {
  }

  /** The display colour of a label; anything that is not a tier label is grey. */
  function Color(name: string): string {
    match ParseLabel(name)
    case Some(OverBudget) => "#e74c3c"
    case Some(Critical) => "#e67e22"
    case Some(Warning) => "#f1c40f"
    case Some(Ok) => "#27ae60"
    case Some(NoBudget) => "#95a5a6"
    case None => "#95a5a6"
  }

  /** The style class of a label; anything that is not a tier label is "cinza". */
  function StyleClass(name: string): string {
    match ParseLabel(name)
    case Some(OverBudget) => "estourado"
    case Some(Critical) => "critico"
    case Some(Warning) => "atencao"
    case Some(Ok) => "ok"
    case Some(NoBudget) => "cinza"
    case None => "cinza"
  }

  /** Each tier has its own colour and class; an unknown label is shown like
      a tier with no budget. */
  lemma LookupTables(t: Tier, u: Tier, other: string)
    requires ParseLabel(other) == None
    ensures t != u ==> Color(Label(t)) != Color(Label(u))
    ensures t != u ==> StyleClass(Label(t)) != StyleClass(Label(u))
    ensures Color(other) == Color(Label(NoBudget))
    ensures StyleClass(other) == StyleClass(Label(NoBudget))
  {
  }
}
