/**
 * The usage-and-cost projection of the Azure AI consumption calculator.
 *
 * The calculator reads unit prices, a project duration and the monthly
 * assumptions of two workloads (ingestion of recorded sessions, and
 * retrieval-augmented queries), and derives monthly token counts, monthly
 * dollar costs, and overall figures scaled by the number of months.
 *
 * Widgets whose default is an integer deliver Python integers, which are
 * exact and unbounded: they are `int` here. Widgets whose default is a
 * float (prices, session length) are `real`, as is every quantity Python
 * computes with a float operand or with `/`.
 *
 * The computation is split into the stages the calculator itself goes
 * through, each a function of only the inputs that stage reads.
 */
module RagCalculator {

  /** Tokens produced per transcribed word. */
  const TOKENS_PER_WORD: real := 1.35
  /** Tokens added to every query for the user's question itself. */
  const QUESTION_OVERHEAD_TOKENS: int := 50
  /** Tokens embedded per query. */
  const EMBED_TOKENS_PER_QUERY: int := 100
  /** Prices are quoted per million tokens. */
  const TOKENS_PER_MILLION: real := 1000000.0

  /** The duration widget accepts whole months, at least one. */
  type MonthCount = n: int | 1 <= n witness 1

  /** The sidebar's unit prices: dollars per STT hour, per million input/output/embedding tokens. */
  datatype Prices = Prices(stt: real, gptIn: real, gptOut: real, embed: real)

  /** The monthly ingestion assumptions. */
  datatype IngestionInputs = IngestionInputs(
    monthlySessions: int,
    avgSessionHours: real,
    wordsPerHour: int,
    sudOutputTokens: int)

  /** The monthly RAG query assumptions. */
  datatype RagInputs = RagInputs(
    totalUsers: int,
    queriesPerDay: int,
    daysPerMonth: int,
    contextTokens: int,
    answerTokens: int)

  /** Everything the user enters. */
  datatype Assumptions = Assumptions(
    prices: Prices,
    numMonths: MonthCount,
    ingestion: IngestionInputs,
    rag: RagInputs)

  /** Phase 1, per month: transcribed hours, transcript input tokens, document output tokens. */
  datatype IngestionUsage = IngestionUsage(hours: real, inTokens: real, outTokens: int)

  /** Phase 2, per month: queries and their input, output and embedding tokens. */
  datatype RagUsage = RagUsage(queries: int, inTokens: int, outTokens: int, embedTokens: int)

  /** A cost per workload: transcription, document generation, RAG. */
  datatype WorkloadCosts = WorkloadCosts(stt: real, ingest: real, rag: real)

  /** Input tokens, output tokens and cost summed over the workloads. */
  datatype Totals = Totals(tokensIn: real, tokensOut: int, cost: real)

  /** Every figure the calculator derives from the assumptions. */
  datatype Projection = Projection(
    ingestion: IngestionUsage,    // monthly ingestion
    rag: RagUsage,                // monthly RAG
    monthlyCosts: WorkloadCosts,  // monthly cost per workload
    monthly: Totals,              // monthly totals
    overall: Totals,              // totals over the whole duration
    overallCosts: WorkloadCosts)  // per-workload cost over the whole duration

  function MonthlyIngestion(i: IngestionInputs): IngestionUsage {
    var hours := i.monthlySessions as real * i.avgSessionHours;
    IngestionUsage(
      hours,
      hours * i.wordsPerHour as real * TOKENS_PER_WORD,
      i.monthlySessions * i.sudOutputTokens)
  }

  function MonthlyRag(r: RagInputs): RagUsage {
    var queries := r.totalUsers * r.queriesPerDay * r.daysPerMonth;
    RagUsage(
      queries,
      queries * (r.contextTokens + QUESTION_OVERHEAD_TOKENS),
      queries * r.answerTokens,
      queries * EMBED_TOKENS_PER_QUERY)
  }

  /** Dollar cost of `tokens` at `pricePerMillion` dollars per million tokens. */
  function TokenCost(tokens: real, pricePerMillion: real): real {
    (tokens / TOKENS_PER_MILLION) * pricePerMillion
  }

  function MonthlyCosts(p: Prices, ing: IngestionUsage, rag: RagUsage): WorkloadCosts {
    WorkloadCosts(
      ing.hours * p.stt,
      TokenCost(ing.inTokens, p.gptIn) + TokenCost(ing.outTokens as real, p.gptOut),
      TokenCost(rag.inTokens as real, p.gptIn) + TokenCost(rag.outTokens as real, p.gptOut)
        + TokenCost(rag.embedTokens as real, p.embed))
  }

  function MonthlyTotals(ing: IngestionUsage, rag: RagUsage, costs: WorkloadCosts): Totals {
    Totals(
      ing.inTokens + rag.inTokens as real,
      ing.outTokens + rag.outTokens,
      costs.stt + costs.ingest + costs.rag)
  }

  function ScaleTotals(t: Totals, months: MonthCount): Totals {
    Totals(t.tokensIn * months as real, t.tokensOut * months, t.cost * months as real)
  }

  function ScaleCosts(c: WorkloadCosts, months: MonthCount): WorkloadCosts {
    WorkloadCosts(c.stt * months as real, c.ingest * months as real, c.rag * months as real)
  }

  /** The whole projection, stage by stage. */
  function Project(a: Assumptions): Projection {
    var ing := MonthlyIngestion(a.ingestion);
    var rag := MonthlyRag(a.rag);
    var costs := MonthlyCosts(a.prices, ing, rag);
    var monthly := MonthlyTotals(ing, rag, costs);
    Projection(ing, rag, costs, monthly, ScaleTotals(monthly, a.numMonths), ScaleCosts(costs, a.numMonths))
  }

  /** The values the input widgets start with. */
  function Defaults(): Assumptions {
    Assumptions(
      Prices(stt := 0.36, gptIn := 2.50, gptOut := 10.00, embed := 0.02),
      12,
      IngestionInputs(monthlySessions := 1000, avgSessionHours := 1.5,
                      wordsPerHour := 9000, sudOutputTokens := 3000),
      RagInputs(totalUsers := 500, queriesPerDay := 30, daysPerMonth := 30,
                contextTokens := 1500, answerTokens := 250))
  }

  /** The workloads listed in the token count and cost breakup table. */
  datatype Workload = Transcription | SudGeneration | RagKnowledgeAccess

  /** A token cell of the breakup table: a count, or "N/A" for transcription. */
  datatype TokenCell = NotApplicable | Tokens(count: real)

  /** One row of the breakup table, before its numbers are formatted for display. */
  datatype BreakupRow = BreakupRow(
    workload: Workload,
    monthlyInputTokens: TokenCell,
    monthlyOutputTokens: TokenCell,
    monthlyCost: real,
    totalCost: real)

  /** The breakup table: one row per workload, in display order. */
  function BreakupTable(p: Projection): seq<BreakupRow> {
    [ BreakupRow(Transcription, NotApplicable, NotApplicable,
                 p.monthlyCosts.stt, p.overallCosts.stt),
      BreakupRow(SudGeneration,
                 Tokens(p.ingestion.inTokens), Tokens(p.ingestion.outTokens as real),
                 p.monthlyCosts.ingest, p.overallCosts.ingest),
      BreakupRow(RagKnowledgeAccess,
                 Tokens(p.rag.inTokens as real), Tokens(p.rag.outTokens as real),
                 p.monthlyCosts.rag, p.overallCosts.rag) ]
  }

  /** A token cell's contribution to a column total; "N/A" contributes nothing. */
  function CellTokens(c: TokenCell): real {
    match c
    case NotApplicable => 0.0
    case Tokens(n) => n
  }

  /** The sum of one numeric column of a table. */
  function ColumnSum(rows: seq<BreakupRow>, column: BreakupRow -> real): real {
    if rows == [] then 0.0 else column(rows[0]) + ColumnSum(rows[1..], column)
  }
}
