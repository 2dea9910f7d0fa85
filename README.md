# Fundamental screening of B3 equities, in Dafny

This project models the decision logic of the stock-analysis dashboard in
`dashboard_analise.py`. That logic is the screening that `analisar_acao`
applies to one ticker's quote payload:

- **Growth rate.** `calcular_cagr` computes the compound annual growth rate,
  or None when its guard rejects the inputs.
- **EPS history.** The annual earnings-per-share history is read from the
  balance-sheet statements and reversed.
- **PEG ratio.** It is derived from the growth rate of that history.
- **Rules.** Three rules decide the status:
  - value: P/L and P/VP at most their maxima;
  - profitability: ROE and ROIC at least their minima;
  - growth: a PEG threshold that depends on whether the sector is high-growth.
- **Status.** The result is "Aprovada" (`Approved`) when all three rules
  pass, "Reprovada" (`Rejected`) otherwise, and "Falha na Análise"
  (`Failure`) when anything raised.

The payload is modelled as the decoded JSON value Python sees
(`Payload.Json`). The model keeps Python's dynamic typing:

- Every operation that could raise returns `Outcome` (`Ok` or `Raise`). This
  covers a comparison with a str, `in` on a number, indexing a list by a
  string, formatting a str with `.2f`, and comparing a complex number with 0.
- Any `Raise` gives the failure record, as the `except Exception` branch does.
- Python's short-circuiting `and` and `or` are kept. So a malformed P/VP
  only raises once P/L has passed its comparison, or when the value is
  formatted for display.

Modules:

- `Payload` (payload.dfy): JSON values and the Python operations the screening uses.
- `Growth` (growth.dfy): `calcular_cagr`.
- `History` (history.dfy): EPS history extraction, reversal, and the growth rate
  of the history.
- `Screening` (screening.dfy): the rules, the result record, and `analisar_acao`.

Parameters stand in for what the code does not compute itself:

- The HTTP request and JSON decoding are the parameter `fetched: Option<Json>`.
  `None` means the request or its decoding raised.
- The real-valued power behind `**` is the parameter `pow: (real, real) -> real`.
  The model decides itself when Python's `**` returns a complex number
  instead: a negative base with a non-integral exponent. Lemmas that need
  values of `pow` state them as preconditions, for example `pow(2.0, 1.0) == 2.0`.

Behaviour of the code worth knowing, shown by the contracts and lemmas:

- Suppose there are three or more annual EPS values, the oldest is positive
  and the newest is negative. Then `**` returns a complex number, and the
  test `crescimento_lpa > 0` raises. The asset gets the failure record, not
  "Reprovada" (`Screening.NegativeNewestEpsFails`). With exactly two values
  the exponent is 1 and the rate is simply negative.
- The guard at line 52 tests `setor is not None`. A payload whose `sector`
  is JSON null therefore fails the growth rule and is never approved
  (`Screening.NullSectorNeverApproved`). A
  payload with no `sector` key gets "N/A", which is not high-growth.
- The high-growth test uses Python's `in`. When the sector is a list or a
  dict, it is an element or key test rather than a substring test.

What the code does not have:

- There is no "insufficient data" status.
- A missing P/L or P/VP only makes the value rule fail.
- There are no income-fund rules, no return normalization and no backtest.

## Model

| member | source | states |
|---|---|---|
| `Payload.Get` | dashboard_analise.py:32-35 | `d.get(key)` is None for a missing key and the stored value otherwise |
| `Payload.Truthy` | dashboard_analise.py:41 | a value is falsy exactly when it is None, False, zero, or the empty str, list or dict |
| `Payload.AtMost` | dashboard_analise.py:49 | `x <= bound` raises exactly when x is None, a str, a list or a dict; an int or float is compared by its value, and a bool as 1 or 0 |
| `Payload.AtLeast` | dashboard_analise.py:50 | `x >= bound` raises exactly when x is None, a str, a list or a dict; an int or float is compared by its value, and a bool as 1 or 0 |
| `Payload.Above` | dashboard_analise.py:45 | `x > 0` raises exactly when x is None, a str, a list or a dict; an int or float is compared by its value, and a bool as 1 or 0 |
| `Payload.In` | dashboard_analise.py:40 | Python's `in` raises exactly on None, a bool or a number. On a str it holds exactly when the needle starts at some position; on a list exactly when some element is that str; on a dict exactly when it is a key |
| `Payload.Contains` | dashboard_analise.py:53 | the substring test holds exactly when the name is a prefix of some suffix of the sector; so a name longer than the sector, or one whose first character is not in it, is never found |
| `Growth.Power` | dashboard_analise.py:21 | `**` gives the real power for a non-negative base or an integral exponent, and a complex number exactly for a negative base with a fractional exponent |
| `Growth.Minus` | dashboard_analise.py:21 | subtracting 1 keeps a complex number complex, and adding it back to a real difference gives the original value |
| `Growth.Cagr` | dashboard_analise.py:18-21 | the result is None exactly when the initial value is None, the final value is None, or a numeric initial value is at most 0 or periods at most 0. It raises exactly on a non-numeric initial value (with the final value present) or a non-numeric final value past the guard. Otherwise the initial value is positive, there is at least one period, and the result is complex exactly when the final value is negative over two or more periods; a real result is `pow(final/initial, 1/periods) - 1` |
| `Growth.CagrUnchanged` | dashboard_analise.py:18-21 | an unchanged positive value has growth rate 0 over any positive number of periods, given `pow(1, 1/periods) == 1` |
| `Growth.CagrOnePeriod` | dashboard_analise.py:18-21 | over one period the rate is `final/initial - 1`, given `pow(b, 1) == b` |
| `Growth.CagrDoubling` | dashboard_analise.py:18-21 | going from 100 to 200 over one period is a rate of 1.0 |
| `Growth.CagrPositiveIffRise` | dashboard_analise.py:18-21 | if real roots are ordered (`pow(x, y) > 1` iff `x > 1` for non-negative x and positive y), then for a positive initial and a non-negative final value the rate is a real number, and it is positive exactly when the final value exceeds the initial one |
| `History.IsAnnualWithEps` | dashboard_analise.py:41 | a kept statement is a dict holding `periodType` "ANNUAL" and a truthy `eps`, so both keys are present |
| `History.RawEps` | dashboard_analise.py:41 | `b["eps"]["raw"]` raises when `eps` is not a dict or has no `raw`, and otherwise reads `raw` |
| `History.Statements` | dashboard_analise.py:41 | iterating the statements raises unless they are a list, an empty dict or an empty str; a list yields its elements, the empty ones nothing |
| `History.AnnualEps` | dashboard_analise.py:41 | the comprehension raises exactly when some statement is not a dict, or is kept but its `eps` has no `raw`; otherwise the history is no longer than the statement list |
| `History.AnnualPositions` | dashboard_analise.py:41 | the positions of the kept statements are exactly the indices of dicts with `periodType` "ANNUAL" and a truthy `eps`, in strictly increasing order |
| `History.AnnualEpsFollowsPositions` | dashboard_analise.py:41 | the history is the in-order subsequence of kept statements: it has one value per kept statement, and its k-th value is the raw EPS of the k-th kept statement |
| `History.Reverse` | dashboard_analise.py:43 | reversing keeps the length |
| `History.ReverseAt` | dashboard_analise.py:43 | position k of the reversed list holds position `len-1-k` of the original |
| `History.EpsGrowth` | dashboard_analise.py:42-44 | fewer than two values give no rate; with two or more, the rate is computed from the last value in payload order to the first, over `len-1` periods |
| `History.EpsHistory` | dashboard_analise.py:40-41 | the history is None exactly when the payload has no `balanceSheetHistory`, or `balanceSheetStatements` is not `in` it. A present history comes from a dict `balanceSheetHistory`, whose `balanceSheetStatements` iterate to a statement list that the comprehension maps to the history |
| `Screening.Sector` | dashboard_analise.py:36 | the sector is "N/A" when the key is missing, and the stored value otherwise, a stored null included |
| `Screening.PegRatio` | dashboard_analise.py:45-46 | PEG raises exactly when the growth rate is complex, or positive while P/L is neither None nor a number. PEG is present exactly when the growth rate is a positive real and P/L is a positive number. It is then positive, and PEG times `growth*100` equals P/L |
| `Screening.PegOf` | dashboard_analise.py:38-46 | a present PEG ratio comes from a history of at least two annual EPS values whose growth rate gives it, with P/L a positive number, and is positive |
| `Screening.ValueRule` | dashboard_analise.py:49 | passes exactly when P/L and P/VP are both numbers within their maxima. It raises exactly when P/L is present but not a number, or P/L passed and P/VP is present but not a number |
| `Screening.ProfitabilityRule` | dashboard_analise.py:50 | passes exactly when ROE and ROIC are both numbers at least their minima. It raises exactly when ROE is present but not a number, or ROE passed and ROIC is present but not a number |
| `Screening.AnyIn` | dashboard_analise.py:53 | `any(s in x for s in names)` is true exactly when some name is `in` x; it raises exactly when there is a name and x is None, a bool or a number |
| `Screening.IsHighGrowth` | dashboard_analise.py:53 | a str sector is high-growth exactly when one of "Tecnologia", "Varejo", "Consumo" is a case-sensitive substring of it; the test raises exactly on None, a bool or a number |
| `Screening.GrowthRule` | dashboard_analise.py:51-57 | passes exactly when a PEG ratio and a sector are present, and either the sector is high-growth with PEG at most the high-growth maximum, or it is not high-growth with PEG within the low-growth range. It raises exactly when a PEG ratio is present and the sector is a bool or a number |
| `Screening.Display` | dashboard_analise.py:62-65 | displaying a ratio raises exactly when it is a str, a list or a dict. None shows "N/A", an int, float or bool shows its numeric value, and the cell is never an error |
| `Screening.Evaluate` | dashboard_analise.py:32-67 | evaluating the payload raises exactly when it is not a dict, or when the PEG computation, one of the three rules, or the display of one of the four ratios raises; a record it returns names the ticker and is approved or rejected. `StatusFollowsRules`, `WellTypedPayloadNeverFails` and `NegativeNewestEpsFails` state its status and when it raises |
| `Screening.FailureReport` | dashboard_analise.py:69-73 | the failure record names the ticker, shows "Erro" in every cell and has status "Falha na Análise" |
| `Screening.Analyze` | dashboard_analise.py:24-73 | the record names the ticker. It is the failure record, all cells "Erro", exactly when the fetch failed or evaluating the payload raised; otherwise no cell is an error. An approved record shows 0 < P/L ≤ max, P/VP ≤ max, ROE ≥ min, ROIC ≥ min and a positive PEG within one of the two PEG thresholds |
| `Screening.StatusFollowsRules` | dashboard_analise.py:59-66 | a payload is approved exactly when the value, profitability and growth rules all pass; a record that is not the failure record shows the payload's ratios ("N/A" for None) and its PEG ratio |
| `Screening.MissingRatioNeverApproved` | dashboard_analise.py:49-59 | without P/L, P/VP, ROE or ROIC an asset is never approved |
| `Screening.MissingPegNeverApproved` | dashboard_analise.py:51-59 | without a PEG ratio an asset is never approved |
| `Screening.DefaultSectorNotHighGrowth` | dashboard_analise.py:36 | the default sector "N/A" of a payload without a sector is not high-growth |
| `Screening.InvertedLowRangeNeverApproved` | dashboard_analise.py:56-59 | with the low-growth minimum above its maximum, no asset outside the high-growth sectors is approved |
| `Screening.NullSectorNeverApproved` | dashboard_analise.py:52-59 | a payload whose sector is a stored null is never approved |
| `Screening.WellFormedEpsPositive` | dashboard_analise.py:41 | a statement list of dicts whose kept statements carry positive numeric raw EPS yields a history, and every value in it is a positive number |
| `Screening.WellTypedPayloadNeverFails` | dashboard_analise.py:32-73 | a payload whose ratios are numbers or None, whose sector is a str or None, and whose balance-sheet history is well formed with positive EPS never yields the failure record |
| `Screening.NegativeNewestEpsFails` | dashboard_analise.py:42-45 | three or more annual EPS values, with the oldest positive and the newest negative, yield the failure record |
| `Screening.AnnualStatementKept` | dashboard_analise.py:41 | an annual statement with an `eps` dict holding `raw` is kept, and its raw EPS is read |
| `Screening.AnnualEpsAppend` | dashboard_analise.py:41 | appending a kept statement to the list appends its raw EPS to the history |
| `Screening.GrowingPayloadHistory` | dashboard_analise.py:40-41 | a payload listing annual EPS 1.21 then 1.0 has the history [1.21, 1.0] |
| `Screening.GrowingPayloadPeg` | dashboard_analise.py:42-46 | with P/L 10 and EPS going from 1.0 to 1.21, PEG is 10/21 |
| `Screening.HighGrowthSectorPasses` | dashboard_analise.py:53-55 | in sector "Tecnologia" that PEG passes a high-growth maximum of 3.0 |
| `Screening.FinanceiroNotHighGrowth` | dashboard_analise.py:14 | "Financeiro" holds none of the high-growth names |
| `Screening.LowGrowthSectorFails` | dashboard_analise.py:56-57 | in sector "Financeiro" that PEG lies below a low-growth minimum of 0.5, and the growth rule fails |

## Left out

- The HTTP request and JSON decoding (dashboard_analise.py:27-30) are network I/O. They are the `fetched` parameter, with `None` for any exception they raise.
- The real-valued power in `** (1 / periods)` (dashboard_analise.py:21) cannot be computed here. It is the `pow` parameter. Only the choice between a real and a complex result is modelled.
- Floating point is not modelled: numbers are exact reals. So there is no rounding in `final / initial`, in the power, or in `p_l / (growth * 100)`, no overflow, and no NaN or infinity in the payload.
- Two-decimal formatting of the output cells (dashboard_analise.py:62-66) is display formatting. Cells hold the unformatted number. Only the exception that formatting a non-number raises is modelled.
- Python integers and floats are both modelled as reals. A bool is a number (1 or 0), as it is for Python's comparisons, arithmetic and formatting.
- History.Statements: a non-empty dict or str under `balanceSheetStatements` is taken to raise without listing its keys or characters. Their elements are strings, and the filter's `b.get` raises on the first of them.
- The kind of exception raised is not modelled. The code catches every exception alike.
- The Streamlit interface is presentation and session state and is not modelled (dashboard_analise.py:77-142). This covers: the ticker list `LISTA_COMPLETA_ACOES`, the sidebar inputs and their default thresholds, the loop over the selected tickers and its progress bar and `time.sleep`, the session state, and the table filter for approved rows.
- Income-fund screening, return normalization and the backtest have no code in `dashboard_analise.py`, so they are not modelled.
