# Azure AI token and consumption calculator: the projection model

The calculator is a single-page form. It turns the user's assumptions
into monthly token counts and dollar costs, then scales them to the whole
project. The assumptions are:

- four unit prices;
- a project duration in months;
- the monthly volumes of two workloads:
  - ingestion: recorded sessions are transcribed, and a document is
    generated from each transcript;
  - RAG: users ask retrieval-augmented questions.

This project models that projection in Dafny and proves what it promises:

- how the totals decompose;
- how they scale with the duration;
- that the two workloads are independent;
- what zero volumes give;
- that no figure decreases when a volume, a price or the duration grows.

Files:

- `rag_calculator.dfy` (module `RagCalculator`) holds the model. Each stage
  of the projection is a function of only the inputs that stage reads:
  - monthly ingestion usage;
  - monthly RAG usage;
  - monthly cost per workload;
  - monthly totals;
  - scaling to the whole duration.

  The module also holds the widget defaults and the breakup table as
  three rows of numbers.
- `projection_properties.dfy` (module `ProjectionProperties`) holds the
  lemmas.
- `real_arith.dfy` (module `Arith`) holds helper facts of non-linear
  arithmetic.

Numeric types:

- The widgets whose default is an integer return exact, unbounded Python
  integers. Sessions, words per hour, document tokens, users, queries per
  day, days per month, context tokens, answer tokens and the month count
  are therefore `int`. So is every product of them: the document output
  tokens, the query count, the RAG token counts and the monthly output
  total.
- The prices and the session length are floats. Those, and everything
  computed from them or with `/`, are `real`.
- The duration widget accepts whole numbers of at least one. It is the
  subset type `MonthCount`.
- No other input is restricted by the form. The lemmas that need
  non-negative inputs say so in their `requires`.

## Model

| member | source | states |
|---|---|---|
| ProjectionProperties.TokenCostMonotone | rag_calculator.py:63-64 | The cost of a token count at a per-million price is non-negative, and it is monotone in both the count and the price. |
| ProjectionProperties.TokenCostAdditive | rag_calculator.py:63-64 | Token costs at one price add: the cost of x tokens plus the cost of y tokens is the cost of x + y tokens. |
| ProjectionProperties.MonthlyIngestionMonotone | rag_calculator.py:51-53 | For non-negative inputs, the monthly hours, transcript input tokens and document output tokens are non-negative. None of them decreases when sessions, session length, words per hour or document tokens grow. |
| ProjectionProperties.MonthlyRagMonotone | rag_calculator.py:56-59 | For non-negative inputs, the monthly queries and the RAG input, output and embedding tokens are non-negative. None of them decreases when users, queries per day, days, context tokens or answer tokens grow. |
| ProjectionProperties.MonthlyCostsMonotone | rag_calculator.py:62-64 | With non-negative prices, the STT, ingestion and RAG costs are non-negative. None of them decreases when a usage figure or a price grows. |
| ProjectionProperties.ScaleMonotone | rag_calculator.py:71-73 | Scaling non-negative totals and costs to the duration gives non-negative figures. None of them decreases when the monthly figures or the month count grow. |
| ProjectionProperties.Monotone | rag_calculator.py:51-73 | For non-negative inputs, every figure of the projection is non-negative. If any inputs are raised (volumes, prices, duration), no monthly or overall figure decreases. |
| ProjectionProperties.NonNegativity | rag_calculator.py:51-73 | For non-negative inputs, every token count and every cost of the projection is non-negative. |
| ProjectionProperties.MonthlyCostFromTotals | rag_calculator.py:62-68 | The monthly total cost is the sum of the cost of the transcribed hours, the cost of the monthly input-token total at the input price, the cost of the monthly output-token total at the output price, and the cost of the embedding tokens. |
| ProjectionProperties.OverallDecomposes | rag_calculator.py:66-73 | The overall project cost is the sum of the three per-workload overall costs in the breakup table. The overall input and output tokens are the sum of both workloads' monthly tokens times the month count. |
| ProjectionProperties.ScaleAtLeast | rag_calculator.py:71-73 | Scaling non-negative monthly figures to at least one month never lowers them. The scaled cost equals the monthly cost exactly when the month count is one or the monthly cost is zero. |
| ProjectionProperties.OverallAtLeastMonthly | rag_calculator.py:71-73 | For non-negative inputs, every overall figure is at least its monthly figure. The overall cost equals the monthly cost exactly when the project lasts one month or costs nothing per month. |
| ProjectionProperties.DurationOnlyScales | rag_calculator.py:71-73 | Changing the duration changes only the overall figures. Those become the unchanged monthly figures scaled to the new duration. |
| ProjectionProperties.DurationLinearity | rag_calculator.py:71-73 | Over n months, every monthly figure is unchanged. The overall cost, token totals and per-workload costs are n times the monthly ones. |
| ProjectionProperties.ScaleAdditive | rag_calculator.py:71-73 | Scaling totals to m + n months gives the sum of scaling them to m months and to n months. |
| ProjectionProperties.DurationAdditive | rag_calculator.py:71-73 | A project of m + n months costs, and uses input and output tokens, as much as a project of m months plus one of n months. |
| ProjectionProperties.ZeroRagVolume | rag_calculator.py:56-68 | There are no queries exactly when users, queries per day or days per month is zero. In that case the RAG tokens and the monthly and overall RAG costs are zero, and the monthly totals are the ingestion figures alone. |
| ProjectionProperties.ZeroIngestionVolume | rag_calculator.py:51-63 | Without sessions there are no hours, no ingestion tokens and no STT or ingestion cost. A zero session length removes the hours and the STT cost. A zero session length or word rate removes the transcript tokens. The document tokens remain sessions times document tokens. |
| ProjectionProperties.RagTokensPerQuery | rag_calculator.py:56-59 | RAG input tokens are each query's context plus a 50-token question overhead. Embedding tokens are 100 per query. With non-negative counts, RAG input is at least 50 tokens per query. |
| ProjectionProperties.IngestionIndependentOfRag | rag_calculator.py:51-63 | The ingestion usage and the monthly STT and ingestion costs depend only on the ingestion inputs and the STT and GPT prices. They do not change with the RAG inputs, the embedding price or the duration. For equal durations the whole-duration STT and ingestion costs (lines 84 and 91) are equal too. |
| ProjectionProperties.RagIndependentOfIngestion | rag_calculator.py:56-64 | The RAG usage and the monthly RAG cost depend only on the RAG inputs and the GPT and embedding prices. They do not change with the ingestion inputs, the STT price or the duration. For equal durations the whole-duration RAG cost (line 98) is equal too. |
| ProjectionProperties.ColumnSumOfThree | rag_calculator.py:78-100 | A numeric column of the three-row breakup table sums to its three cells. |
| ProjectionProperties.RowsAddUpToTotals | rag_calculator.py:78-100 | The breakup table's rows add up to the footer totals: the monthly costs to the monthly total cost, and the whole-duration costs at lines 84, 91 and 98 to the overall project cost. The token cells, with "N/A" counting as zero, add up to the monthly input and output token totals. |
| ProjectionProperties.DefaultFigures | rag_calculator.py:19-47 | From the widgets' starting values (12 months included), the projection gives exactly these figures: 1500 hours; 18,225,000 and 3,000,000 ingestion tokens; 450,000 queries; 697,500,000, 112,500,000 and 45,000,000 RAG tokens; monthly cost 3485.2125; overall cost 41822.55 over 12 months. |

## Left out

- The Streamlit page is not modelled: layout, CSS, headings, dividers, metrics boxes and the closing note (rag_calculator.py:1-47 and 75-127, apart from the numbers computed there).
- String formatting is not modelled: "12.34M" token cells, "$1,234.56" cost cells and the "Million" footer lines. The breakup table is modelled as rows of the unformatted numbers, and the pandas copy and styling are left out.
- IEEE double rounding is not modelled. Float quantities are exact `real`s, so the equalities proved, such as the default figures and the additivity laws, hold for the exact arithmetic the formulas describe.
- Input validation is not modelled: the form enforces nothing except a duration of at least one whole month. The model accepts any number for every other input. Non-negativity is only a precondition of the lemmas that need it, and a negative entry is not treated as an error.
- The formulas are those of rag_calculator.py:51-73. Unlike other calculator variants in the repository, this one has no document-revision iteration count, and it scales the monthly totals by the month count at the end. The default duration is 12 months.
- The page-styling call at rag_calculator.py:12 passes `st.markdown` a keyword it does not accept. That is a UI matter outside the calculation, and the model describes the calculation as it runs once that call succeeds.
- The other calculator variants in the repository are not part of this model.
