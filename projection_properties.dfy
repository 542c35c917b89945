/**
 * What the cost projection promises: how its totals decompose, how they
 * scale with the duration, where the two workloads stay apart, what zero
 * volumes give, and that more usage or higher prices never lower a figure.
 */
module ProjectionProperties {

  import opened RagCalculator
  import Arith

  // ---------------------------------------------------------------------
  // Orderings on inputs and figures
  // ---------------------------------------------------------------------

  predicate PricesNonNegative(p: Prices) {
    p.stt >= 0.0 && p.gptIn >= 0.0 && p.gptOut >= 0.0 && p.embed >= 0.0
  }

  predicate IngestionInputsNonNegative(i: IngestionInputs) {
    i.monthlySessions >= 0 && i.avgSessionHours >= 0.0 && i.wordsPerHour >= 0 && i.sudOutputTokens >= 0
  }

  predicate RagInputsNonNegative(r: RagInputs) {
    r.totalUsers >= 0 && r.queriesPerDay >= 0 && r.daysPerMonth >= 0
    && r.contextTokens >= 0 && r.answerTokens >= 0
  }

  /** Inputs as the calculator is meant to be used: no negative volume or price. */
  predicate NonNegative(a: Assumptions) {
    PricesNonNegative(a.prices) && IngestionInputsNonNegative(a.ingestion) && RagInputsNonNegative(a.rag)
  }

  predicate PricesBelow(p: Prices, p': Prices) {
    p.stt <= p'.stt && p.gptIn <= p'.gptIn && p.gptOut <= p'.gptOut && p.embed <= p'.embed
  }

  predicate IngestionInputsBelow(i: IngestionInputs, i': IngestionInputs) {
    && i.monthlySessions <= i'.monthlySessions && i.avgSessionHours <= i'.avgSessionHours
    && i.wordsPerHour <= i'.wordsPerHour && i.sudOutputTokens <= i'.sudOutputTokens
  }

  predicate RagInputsBelow(r: RagInputs, r': RagInputs) {
    && r.totalUsers <= r'.totalUsers && r.queriesPerDay <= r'.queriesPerDay
    && r.daysPerMonth <= r'.daysPerMonth
    && r.contextTokens <= r'.contextTokens && r.answerTokens <= r'.answerTokens
  }

  /** Every input of `a` is at most the same input of `b`. */
  predicate InputsBelow(a: Assumptions, b: Assumptions) {
    && PricesBelow(a.prices, b.prices) && a.numMonths <= b.numMonths
    && IngestionInputsBelow(a.ingestion, b.ingestion) && RagInputsBelow(a.rag, b.rag)
  }

  /** `0 <= u <= u'` field by field. */
  predicate IngestionUsageBetween(u: IngestionUsage, u': IngestionUsage) {
    && 0.0 <= u.hours <= u'.hours
    && 0.0 <= u.inTokens <= u'.inTokens
    && 0 <= u.outTokens <= u'.outTokens
  }

  /** `0 <= u <= u'` field by field. */
  predicate RagUsageBetween(u: RagUsage, u': RagUsage) {
    && 0 <= u.queries <= u'.queries
    && 0 <= u.inTokens <= u'.inTokens
    && 0 <= u.outTokens <= u'.outTokens
    && 0 <= u.embedTokens <= u'.embedTokens
  }

  /** `0 <= c <= c'` field by field. */
  predicate CostsBetween(c: WorkloadCosts, c': WorkloadCosts) {
    0.0 <= c.stt <= c'.stt && 0.0 <= c.ingest <= c'.ingest && 0.0 <= c.rag <= c'.rag
  }

  /** `0 <= t <= t'` field by field. */
  predicate TotalsBetween(t: Totals, t': Totals) {
    0.0 <= t.tokensIn <= t'.tokensIn && 0 <= t.tokensOut <= t'.tokensOut && 0.0 <= t.cost <= t'.cost
  }

  /** Every figure of `p` is non-negative and at most the same figure of `q`. */
  predicate FiguresBetween(p: Projection, q: Projection) {
    && IngestionUsageBetween(p.ingestion, q.ingestion)
    && RagUsageBetween(p.rag, q.rag)
    && CostsBetween(p.monthlyCosts, q.monthlyCosts)
    && TotalsBetween(p.monthly, q.monthly)
    && TotalsBetween(p.overall, q.overall)
    && CostsBetween(p.overallCosts, q.overallCosts)
  }

  // ---------------------------------------------------------------------
  // Non-negativity and monotonicity, stage by stage
  // ---------------------------------------------------------------------

  /** The cost of a token count is non-negative and monotone in the count and in the price. */
  lemma TokenCostMonotone(x: real, price: real, x': real, price': real)
    requires 0.0 <= x <= x'
    requires 0.0 <= price <= price'
    ensures 0.0 <= TokenCost(x, price) <= TokenCost(x', price')
  {
    Arith.MulMonotone(x / TOKENS_PER_MILLION, price, x' / TOKENS_PER_MILLION, price');
  }

  lemma MonthlyIngestionMonotone(i: IngestionInputs, i': IngestionInputs)
    requires IngestionInputsNonNegative(i)
    requires IngestionInputsBelow(i, i')
    ensures IngestionUsageBetween(MonthlyIngestion(i), MonthlyIngestion(i'))
  {
    var u, u' := MonthlyIngestion(i), MonthlyIngestion(i');
    Arith.MulMonotone(i.monthlySessions as real, i.avgSessionHours,
                      i'.monthlySessions as real, i'.avgSessionHours);
    Arith.MulMonotone(u.hours, i.wordsPerHour as real, u'.hours, i'.wordsPerHour as real);
    Arith.IntMulMonotone(i.monthlySessions, i.sudOutputTokens, i'.monthlySessions, i'.sudOutputTokens);
  }

  lemma MonthlyRagMonotone(r: RagInputs, r': RagInputs)
    requires RagInputsNonNegative(r)
    requires RagInputsBelow(r, r')
    ensures RagUsageBetween(MonthlyRag(r), MonthlyRag(r'))
  {
    var u, u' := MonthlyRag(r), MonthlyRag(r');
    Arith.IntMulMonotone(r.totalUsers, r.queriesPerDay, r'.totalUsers, r'.queriesPerDay);
    Arith.IntMulMonotone(r.totalUsers * r.queriesPerDay, r.daysPerMonth,
                         r'.totalUsers * r'.queriesPerDay, r'.daysPerMonth);
    Arith.IntMulMonotone(u.queries, r.contextTokens + QUESTION_OVERHEAD_TOKENS,
                         u'.queries, r'.contextTokens + QUESTION_OVERHEAD_TOKENS);
    Arith.IntMulMonotone(u.queries, r.answerTokens, u'.queries, r'.answerTokens);
  }

  lemma MonthlyCostsMonotone(p: Prices, ing: IngestionUsage, rag: RagUsage,
                             p': Prices, ing': IngestionUsage, rag': RagUsage)
    requires PricesNonNegative(p) && PricesBelow(p, p')
    requires IngestionUsageBetween(ing, ing')
    requires RagUsageBetween(rag, rag')
    ensures CostsBetween(MonthlyCosts(p, ing, rag), MonthlyCosts(p', ing', rag'))
  {
    Arith.MulMonotone(ing.hours, p.stt, ing'.hours, p'.stt);
    TokenCostMonotone(ing.inTokens, p.gptIn, ing'.inTokens, p'.gptIn);
    TokenCostMonotone(ing.outTokens as real, p.gptOut, ing'.outTokens as real, p'.gptOut);
    TokenCostMonotone(rag.inTokens as real, p.gptIn, rag'.inTokens as real, p'.gptIn);
    TokenCostMonotone(rag.outTokens as real, p.gptOut, rag'.outTokens as real, p'.gptOut);
    TokenCostMonotone(rag.embedTokens as real, p.embed, rag'.embedTokens as real, p'.embed);
  }

  lemma ScaleMonotone(t: Totals, c: WorkloadCosts, n: MonthCount, t': Totals, c': WorkloadCosts, n': MonthCount)
    requires TotalsBetween(t, t') && CostsBetween(c, c') && n <= n'
    ensures TotalsBetween(ScaleTotals(t, n), ScaleTotals(t', n'))
    ensures CostsBetween(ScaleCosts(c, n), ScaleCosts(c', n'))
  {
    var m, m' := n as real, n' as real;
    Arith.MulMonotone(t.tokensIn, m, t'.tokensIn, m');
    Arith.IntMulMonotone(t.tokensOut, n, t'.tokensOut, n');
    Arith.MulMonotone(t.cost, m, t'.cost, m');
    Arith.MulMonotone(c.stt, m, c'.stt, m');
    Arith.MulMonotone(c.ingest, m, c'.ingest, m');
    Arith.MulMonotone(c.rag, m, c'.rag, m');
  }

  /**
   * With non-negative inputs every token count and every cost is
   * non-negative, and more of any volume, a longer duration or a higher
   * price never lowers a figure; in particular each figure is monotone in
   * every input taken alone.
   */
  lemma Monotone(a: Assumptions, b: Assumptions)
    requires NonNegative(a)
    requires InputsBelow(a, b)
    ensures FiguresBetween(Project(a), Project(b))
  {
    var p, q := Project(a), Project(b);
    MonthlyIngestionMonotone(a.ingestion, b.ingestion);
    MonthlyRagMonotone(a.rag, b.rag);
    MonthlyCostsMonotone(a.prices, p.ingestion, p.rag, b.prices, q.ingestion, q.rag);
    ScaleMonotone(p.monthly, p.monthlyCosts, a.numMonths, q.monthly, q.monthlyCosts, b.numMonths);
  }

  /** With non-negative inputs, no token count and no cost is negative. */
  lemma NonNegativity(a: Assumptions)
    requires NonNegative(a)
    ensures FiguresBetween(Project(a), Project(a))
  {
    Monotone(a, a);
  }

  // ---------------------------------------------------------------------
  // Totals and duration
  // ---------------------------------------------------------------------

  /** Token costs at one price add up as the token counts do. */
  lemma TokenCostAdditive(x: real, y: real, price: real)
    ensures TokenCost(x, price) + TokenCost(y, price) == TokenCost(x + y, price)
  {
    assert x / TOKENS_PER_MILLION + y / TOKENS_PER_MILLION == (x + y) / TOKENS_PER_MILLION;
  }

  /**
   * The footer's monthly cost is what its monthly token totals, the
   * embedding tokens and the transcribed hours cost at the unit prices.
   */
  lemma MonthlyCostFromTotals(p: Prices, ing: IngestionUsage, rag: RagUsage)
    ensures var t := MonthlyTotals(ing, rag, MonthlyCosts(p, ing, rag));
      t.cost
      == ing.hours * p.stt
       + TokenCost(t.tokensIn, p.gptIn)
       + TokenCost(t.tokensOut as real, p.gptOut)
       + TokenCost(rag.embedTokens as real, p.embed)
  {
    TokenCostAdditive(ing.inTokens, rag.inTokens as real, p.gptIn);
    TokenCostAdditive(ing.outTokens as real, rag.outTokens as real, p.gptOut);
  }

  /**
   * The overall figures are the monthly totals over the whole duration, and
   * the per-workload overall costs of the breakup table add up to the
   * overall project cost.
   */
  lemma OverallDecomposes(a: Assumptions)
    ensures var p, n := Project(a), a.numMonths as real;
      && p.overall.cost == p.overallCosts.stt + p.overallCosts.ingest + p.overallCosts.rag
      && p.overall.tokensIn == (p.ingestion.inTokens + p.rag.inTokens as real) * n
      && p.overall.tokensOut == (p.ingestion.outTokens + p.rag.outTokens) * a.numMonths
  {
    var p := Project(a);
    Arith.MulDistributes3(p.monthlyCosts.stt, p.monthlyCosts.ingest, p.monthlyCosts.rag, a.numMonths as real);
  }

  lemma ScaleAtLeast(t: Totals, c: WorkloadCosts, n: MonthCount)
    requires TotalsBetween(t, t) && CostsBetween(c, c)
    ensures TotalsBetween(t, ScaleTotals(t, n)) && CostsBetween(c, ScaleCosts(c, n))
    ensures ScaleTotals(t, n).cost == t.cost <==> n == 1 || t.cost == 0.0
  {
    var m := n as real;
    assert ScaleTotals(t, n).cost == t.cost * m;
    assert m == 1.0 <==> n == 1;
    Arith.ScaleAtLeastOne(t.tokensIn, m);
    Arith.IntScaleAtLeastOne(t.tokensOut, n);
    Arith.ScaleAtLeastOne(t.cost, m);
    Arith.ScaleAtLeastOne(c.stt, m);
    Arith.ScaleAtLeastOne(c.ingest, m);
    Arith.ScaleAtLeastOne(c.rag, m);
  }

  /**
   * With non-negative inputs the overall figures are at least the monthly
   * ones, and the overall cost equals the monthly cost exactly when the
   * project lasts one month or costs nothing per month.
   */
  lemma OverallAtLeastMonthly(a: Assumptions)
    requires NonNegative(a)
    ensures var p := Project(a);
      && TotalsBetween(p.monthly, p.overall)
      && CostsBetween(p.monthlyCosts, p.overallCosts)
      && (p.overall.cost == p.monthly.cost <==> a.numMonths == 1 || p.monthly.cost == 0.0)
  {
    var p := Project(a);
    NonNegativity(a);
    ScaleAtLeast(p.monthly, p.monthlyCosts, a.numMonths);
  }

  /** The duration enters the projection only where the monthly figures are scaled to the whole project. */
  lemma DurationOnlyScales(a: Assumptions, n: MonthCount)
    ensures var p, pn := Project(a), Project(a.(numMonths := n));
      pn == p.(overall := ScaleTotals(p.monthly, n), overallCosts := ScaleCosts(p.monthlyCosts, n))
  {
  }

  /**
   * Changing the duration to n months changes no monthly figure, and every
   * overall figure becomes n times the corresponding monthly one.
   */
  lemma DurationLinearity(a: Assumptions, n: MonthCount)
    ensures var p, pn := Project(a), Project(a.(numMonths := n));
      && pn.ingestion == p.ingestion && pn.rag == p.rag
      && pn.monthlyCosts == p.monthlyCosts && pn.monthly == p.monthly
      && pn.overall.cost == n as real * p.monthly.cost
      && pn.overall.tokensIn == n as real * p.monthly.tokensIn
      && pn.overall.tokensOut == n * p.monthly.tokensOut
      && pn.overallCosts.stt == n as real * p.monthlyCosts.stt
      && pn.overallCosts.ingest == n as real * p.monthlyCosts.ingest
      && pn.overallCosts.rag == n as real * p.monthlyCosts.rag
  {
    DurationOnlyScales(a, n);
  }

  /** Running a project for m + n months costs what running it for m and for n months does. */
  lemma DurationAdditive(a: Assumptions, m: MonthCount, n: MonthCount)
    ensures var pm, pn, pmn := Project(a.(numMonths := m)), Project(a.(numMonths := n)),
                               Project(a.(numMonths := m + n));
      && pmn.overall.cost == pm.overall.cost + pn.overall.cost
      && pmn.overall.tokensIn == pm.overall.tokensIn + pn.overall.tokensIn
      && pmn.overall.tokensOut == pm.overall.tokensOut + pn.overall.tokensOut
  {
    DurationOnlyScales(a, m);
    DurationOnlyScales(a, n);
    DurationOnlyScales(a, m + n);
    ScaleAdditive(Project(a).monthly, m, n);
  }

  /** Scaling by m + n months is scaling by m months plus scaling by n months. */
  lemma ScaleAdditive(t: Totals, m: MonthCount, n: MonthCount)
    ensures var tm, tn, tmn := ScaleTotals(t, m), ScaleTotals(t, n), ScaleTotals(t, m + n);
      tmn.cost == tm.cost + tn.cost && tmn.tokensIn == tm.tokensIn + tn.tokensIn
      && tmn.tokensOut == tm.tokensOut + tn.tokensOut
  {
  }

  // ---------------------------------------------------------------------
  // Zero volumes and per-query overheads
  // ---------------------------------------------------------------------

  /**
   * The RAG workload has no queries exactly when one of users, queries per
   * day or days per month is zero; then it has no tokens and costs nothing,
   * and the monthly totals are the ingestion figures alone.
   */
  lemma ZeroRagVolume(a: Assumptions)
    ensures var p := Project(a);
      && (p.rag.queries == 0 <==> a.rag.totalUsers == 0 || a.rag.queriesPerDay == 0 || a.rag.daysPerMonth == 0)
      && (p.rag.queries == 0 ==>
            && p.rag.inTokens == 0 && p.rag.outTokens == 0 && p.rag.embedTokens == 0
            && p.monthlyCosts.rag == 0.0 && p.overallCosts.rag == 0.0
            && p.monthly.tokensIn == p.ingestion.inTokens
            && p.monthly.tokensOut == p.ingestion.outTokens
            && p.monthly.cost == p.monthlyCosts.stt + p.monthlyCosts.ingest)
  {
    Arith.IntProductZero3(a.rag.totalUsers, a.rag.queriesPerDay, a.rag.daysPerMonth);
  }

  /**
   * Without sessions the ingestion workload has no hours, no tokens and no
   * cost. A zero session length or word rate removes the transcript tokens
   * but not the generated document tokens, which depend on the session count.
   */
  lemma ZeroIngestionVolume(a: Assumptions)
    ensures var p, i := Project(a), a.ingestion;
      && (i.monthlySessions == 0 ==>
            && p.ingestion.hours == 0.0 && p.ingestion.inTokens == 0.0 && p.ingestion.outTokens == 0
            && p.monthlyCosts.stt == 0.0 && p.monthlyCosts.ingest == 0.0
            && p.overallCosts.stt == 0.0 && p.overallCosts.ingest == 0.0)
      && (i.avgSessionHours == 0.0 ==> p.ingestion.hours == 0.0 && p.monthlyCosts.stt == 0.0)
      && (i.avgSessionHours == 0.0 || i.wordsPerHour == 0 ==> p.ingestion.inTokens == 0.0)
      && p.ingestion.outTokens == i.monthlySessions * i.sudOutputTokens
  {
  }

  /**
   * Every query brings its context plus the fixed question overhead as
   * input, and a fixed number of embedding tokens; so with non-negative
   * context a query never has fewer input tokens than the overhead.
   */
  lemma RagTokensPerQuery(r: RagInputs)
    ensures var u := MonthlyRag(r);
      && u.inTokens == u.queries * r.contextTokens + QUESTION_OVERHEAD_TOKENS * u.queries
      && u.embedTokens == EMBED_TOKENS_PER_QUERY * u.queries
      && (u.queries >= 0 && r.contextTokens >= 0 ==> u.inTokens >= QUESTION_OVERHEAD_TOKENS * u.queries)
  {
    var u := MonthlyRag(r);
    if u.queries >= 0 && r.contextTokens >= 0 {
      Arith.IntMulMonotone(0, 0, u.queries, r.contextTokens);
    }
  }

  // ---------------------------------------------------------------------
  // Independence of the two workloads
  // ---------------------------------------------------------------------

  /**
   * The ingestion figures and the STT and ingestion costs read only the
   * ingestion inputs and the STT and GPT prices: changing any RAG input, the
   * embedding price or the duration leaves their monthly values unchanged,
   * and for equal durations their whole-duration costs too.
   */
  lemma IngestionIndependentOfRag(a: Assumptions, b: Assumptions)
    requires a.ingestion == b.ingestion
    requires a.prices.stt == b.prices.stt && a.prices.gptIn == b.prices.gptIn
    requires a.prices.gptOut == b.prices.gptOut
    ensures var p, q := Project(a), Project(b);
      && p.ingestion == q.ingestion
      && p.monthlyCosts.stt == q.monthlyCosts.stt
      && p.monthlyCosts.ingest == q.monthlyCosts.ingest
      && (a.numMonths == b.numMonths ==>
            p.overallCosts.stt == q.overallCosts.stt && p.overallCosts.ingest == q.overallCosts.ingest)
  {
  }

  /**
   * The RAG figures and the RAG cost read only the RAG inputs and the GPT
   * and embedding prices: changing any ingestion input, the STT price or the
   * duration leaves their monthly values unchanged, and for equal durations
   * the whole-duration RAG cost too.
   */
  lemma RagIndependentOfIngestion(a: Assumptions, b: Assumptions)
    requires a.rag == b.rag
    requires a.prices.gptIn == b.prices.gptIn && a.prices.gptOut == b.prices.gptOut
    requires a.prices.embed == b.prices.embed
    ensures var p, q := Project(a), Project(b);
      && p.rag == q.rag
      && p.monthlyCosts.rag == q.monthlyCosts.rag
      && (a.numMonths == b.numMonths ==> p.overallCosts.rag == q.overallCosts.rag)
  {
  }

  // ---------------------------------------------------------------------
  // The breakup table and the defaults
  // ---------------------------------------------------------------------

  /** A column of a three-row table sums to its three cells. */
  lemma ColumnSumOfThree(rows: seq<BreakupRow>, column: BreakupRow -> real)
    requires |rows| == 3
    ensures ColumnSum(rows, column) == column(rows[0]) + column(rows[1]) + column(rows[2])
  {
    assert rows[1..][1..][1..] == [];
    assert ColumnSum(rows[2..], column) == column(rows[2]) + ColumnSum(rows[1..][1..][1..], column);
  }

  /**
   * The three rows of the breakup table add up to the footer: their monthly
   * costs to the monthly total, their overall costs to the project cost,
   * and their token cells ("N/A" counting as none) to the monthly token totals.
   */
  lemma RowsAddUpToTotals(a: Assumptions)
    ensures var p := Project(a);
      var rows := BreakupTable(p);
      && ColumnSum(rows, (r: BreakupRow) => r.monthlyCost) == p.monthly.cost
      && ColumnSum(rows, (r: BreakupRow) => r.totalCost) == p.overall.cost
      && ColumnSum(rows, (r: BreakupRow) => CellTokens(r.monthlyInputTokens)) == p.monthly.tokensIn
      && ColumnSum(rows, (r: BreakupRow) => CellTokens(r.monthlyOutputTokens)) == p.monthly.tokensOut as real
  {
    var p := Project(a);
    var rows := BreakupTable(p);
    ColumnSumOfThree(rows, (r: BreakupRow) => r.monthlyCost);
    ColumnSumOfThree(rows, (r: BreakupRow) => r.totalCost);
    ColumnSumOfThree(rows, (r: BreakupRow) => CellTokens(r.monthlyInputTokens));
    ColumnSumOfThree(rows, (r: BreakupRow) => CellTokens(r.monthlyOutputTokens));
    OverallDecomposes(a);
  }

  /** The figures the calculation yields for the widgets' starting values. */
  lemma DefaultFigures()
    ensures var p := Project(Defaults());
      && p.ingestion == IngestionUsage(hours := 1500.0, inTokens := 18225000.0, outTokens := 3000000)
      && p.rag == RagUsage(queries := 450000, inTokens := 697500000, outTokens := 112500000,
                           embedTokens := 45000000)
      && p.monthlyCosts == WorkloadCosts(stt := 540.0, ingest := 75.5625, rag := 2869.65)
      && p.monthly == Totals(tokensIn := 715725000.0, tokensOut := 115500000, cost := 3485.2125)
      && p.overall == Totals(tokensIn := 8588700000.0, tokensOut := 1386000000, cost := 41822.55)
      && p.overallCosts == WorkloadCosts(stt := 6480.0, ingest := 906.75, rag := 34435.8)
  {
  }
}
