/** The fundamental screening of one asset, `analisar_acao`
    (dashboard_analise.py:24-73), from the decoded quote payload onwards. */
module Screening {
  import opened Payload
  import opened Growth
  import opened History

  /** The thresholds the user enters, by their keys in `criterios_atuais`. */
  datatype Criteria = Criteria(
    plMax: real,             // "P/L_MAX"
    pvpMax: real,            // "P/VP_MAX"
    roeMin: real,            // "ROE_MIN"
    roicMin: real,           // "ROIC_MIN"
    pegMaxHighGrowth: real,  // "PEG_MAX_ALTO_CRESCIMENTO"
    pegMinLowGrowth: real,   // "PEG_MIN_BAIXO_CRESCIMENTO"
    pegMaxLowGrowth: real    // "PEG_MAX_BAIXO_CRESCIMENTO"
  )

  /** "Aprovada", "Reprovada" and "Falha na Análise". */
  datatype Status = Approved | Rejected | Failure

  /** A cell of the result record before two-decimal formatting: a number,
      "N/A" for an absent value, or "Erro" in the failure record. */
  datatype Cell = Number(value: real) | NotAvailable | Error

  /** The record `analisar_acao` returns for one ticker. */
  datatype Report = Report(
    ticker: string,
    priceEarnings: Cell,
    priceToBook: Cell,
    returnOnEquity: Cell,
    returnOnInvestedCapital: Cell,
    pegRatio: Cell,
    status: Status
  )

  /** `SETORES_ALTO_CRESCIMENTO`. */
  const HighGrowthSectors: seq<string> := ["Tecnologia", "Varejo", "Consumo"]

  /** The sector as line 36 reads it: "N/A" when the key is missing. */
  function Sector(data: map<string, Json>): (r: Json)
    ensures "sector" !in data ==> r == JStr("N/A")
    // a stored null stays None: the default replaces only a missing key
    ensures "sector" in data ==> r == data["sector"]
  {
    GetOr(data, "sector", JStr("N/A"))
  }

  /** Lines 45-46: the PEG ratio `p_l / (growth * 100)`, present only for a
      positive real growth rate and a positive P/L. */
  function PegRatio(growth: Option<Num>, pl: Json): (r: Outcome<Option<real>>)
    // `complex > 0`, and `p_l > 0` on a value that is not a number, raise
    ensures r.Raise? <==>
              || (growth.Some? && growth.value.Complex?)
              || (growth.Some? && growth.value.Real? && growth.value.value > 0.0 && !pl.JNull? && !IsNumber(pl))
    ensures (r.Ok? && r.value.Some?) <==>
              && growth.Some? && growth.value.Real? && growth.value.value > 0.0
              && IsNumber(pl) && AsNumber(pl).value > 0.0
    ensures r.Ok? && r.value.Some? ==>
              && r.value.value > 0.0
              && r.value.value * (growth.value.value * 100.0) == AsNumber(pl).value
  {
    if growth.None? then Ok(None)
    else
      match growth.value
      case Complex => Raise
      case Real(g) =>
        if g <= 0.0 || pl.JNull? then Ok(None)
        else
          var positive :- Above(pl, 0.0);
          if positive then Ok(Some(AsNumber(pl).value / (g * 100.0))) else Ok(None)
  }

  /** Lines 38-46: the PEG ratio of a payload, or None. */
  function PegOf(data: map<string, Json>, pl: Json, pow: PowerFn): (r: Outcome<Option<real>>)
    ensures r.Ok? && r.value.Some? ==>
              && EpsHistory(data).Ok? && EpsHistory(data).value.Some?
              && |EpsHistory(data).value.value| >= 2
              && EpsGrowth(EpsHistory(data).value.value, pow).Ok?
              && PegRatio(EpsGrowth(EpsHistory(data).value.value, pow).value, pl) == r
              && IsNumber(pl) && AsNumber(pl).value > 0.0
              && r.value.value > 0.0
  {
    var history :- EpsHistory(data);
    if history.None? then Ok(None)
    else
      var growth :- EpsGrowth(history.value, pow);
      PegRatio(growth, pl)
  }

  /** `j is not None and j <= bound`. */
  function PresentAtMost(j: Json, bound: real): Outcome<bool>
  {
    if j.JNull? then Ok(false) else AtMost(j, bound)
  }

  /** `j is not None and j >= bound`. */
  function PresentAtLeast(j: Json, bound: real): Outcome<bool>
  {
    if j.JNull? then Ok(false) else AtLeast(j, bound)
  }

  /** Line 49, the value rule: P/L and P/VP present and at most their maxima.
      The `and` short-circuits: P/VP is compared only when P/L passed. */
  function ValueRule(pl: Json, pvp: Json, c: Criteria): (r: Outcome<bool>)
    ensures r == Ok(true) <==>
              IsNumber(pl) && AsNumber(pl).value <= c.plMax && IsNumber(pvp) && AsNumber(pvp).value <= c.pvpMax
    ensures r.Raise? <==>
              || (!pl.JNull? && !IsNumber(pl))
              || (IsNumber(pl) && AsNumber(pl).value <= c.plMax && !pvp.JNull? && !IsNumber(pvp))
  {
    var priceOk :- PresentAtMost(pl, c.plMax);
    if !priceOk then Ok(false) else PresentAtMost(pvp, c.pvpMax)
  }

  /** Line 50, the profitability rule: ROE and ROIC present and at least
      their minima. */
  function ProfitabilityRule(roe: Json, roic: Json, c: Criteria): (r: Outcome<bool>)
    ensures r == Ok(true) <==>
              IsNumber(roe) && AsNumber(roe).value >= c.roeMin && IsNumber(roic) && AsNumber(roic).value >= c.roicMin
    ensures r.Raise? <==>
              || (!roe.JNull? && !IsNumber(roe))
              || (IsNumber(roe) && AsNumber(roe).value >= c.roeMin && !roic.JNull? && !IsNumber(roic))
  {
    var equityOk :- PresentAtLeast(roe, c.roeMin);
    if !equityOk then Ok(false) else PresentAtLeast(roic, c.roicMin)
  }

  /** `any(s in container for s in names)`, stopping at the first hit. */
  function AnyIn(names: seq<string>, container: Json): (r: Outcome<bool>)
    ensures r.Raise? <==> names != [] && (container.JNull? || container.JBool? || container.JNum?)
    ensures r.Ok? ==> (r.value <==> exists k :: 0 <= k < |names| && In(names[k], container) == Ok(true))
  {
    if names == [] then Ok(false)
    else
      var found :- In(names[0], container);
      if found then Ok(true)
      else
        var rest := AnyIn(names[1..], container);
        assert forall k :: 1 <= k < |names| ==> names[k] == names[1..][k - 1];
        rest
  }

  /** Line 53: a sector is high-growth when one of the high-growth names
      occurs in it (for a str sector, as a case-sensitive substring). */
  function IsHighGrowth(sector: Json): (r: Outcome<bool>)
    ensures r.Raise? <==> sector.JNull? || sector.JBool? || sector.JNum?
    ensures sector.JStr? ==>
              r == Ok(exists k :: 0 <= k < |HighGrowthSectors| && Contains(sector.s, HighGrowthSectors[k]))
  {
    AnyIn(HighGrowthSectors, sector)
  }

  /** Lines 51-57, the growth rule: a high-growth sector needs a PEG ratio at
      most the high-growth maximum, any other sector one within the
      low-growth range. Without a PEG ratio or a sector the rule fails. */
  function GrowthRule(peg: Option<real>, sector: Json, c: Criteria): (r: Outcome<bool>)
    ensures r == Ok(true) <==>
              && peg.Some? && !sector.JNull?
              && (|| (IsHighGrowth(sector) == Ok(true) && peg.value <= c.pegMaxHighGrowth)
                  || (IsHighGrowth(sector) == Ok(false) &&
                      c.pegMinLowGrowth <= peg.value <= c.pegMaxLowGrowth))
    ensures r.Raise? <==> peg.Some? && (sector.JBool? || sector.JNum?)
  {
    if peg.None? || sector.JNull? then Ok(false)
    else
      var high :- IsHighGrowth(sector);
      if high then Ok(peg.value <= c.pegMaxHighGrowth)
      else Ok(c.pegMinLowGrowth <= peg.value <= c.pegMaxLowGrowth)
  }

  /** The cell that shows a ratio: its number, or "N/A". */
  function Shown(j: Json): Cell
  {
    if IsNumber(j) then Number(AsNumber(j).value) else NotAvailable
  }

  /** Lines 62-66: a displayed ratio. Formatting None gives "N/A"; formatting
      a str, list or dict with ".2f" raises. */
  function Display(j: Json): (r: Outcome<Cell>)
    ensures r.Raise? <==> j.JStr? || j.JArr? || j.JObj?
    ensures j.JNull? ==> r == Ok(NotAvailable)
    ensures IsNumber(j) ==> r == Ok(Number(AsNumber(j).value))
    ensures r.Ok? ==> r.value == Shown(j) && r.value != Error
  {
    if j.JStr? || j.JArr? || j.JObj? then Raise else Ok(Shown(j))
  }

  /** Lines 32-67 on the payload `data`: every step that can raise is
      evaluated in the source's order. */
  function Evaluate(ticker: string, data: Json, c: Criteria, pow: PowerFn): (r: Outcome<Report>)
    // the steps have no side effects, so the record raises exactly when
    // one of them does, whatever their order
    ensures r.Raise? <==>
              || !data.JObj?
              || (var d := data.fields;
                  var pl, pvp := Get(d, "priceEarnings"), Get(d, "priceToBook");
                  var roe, roic := Get(d, "returnOnEquity"), Get(d, "returnOnInvestedCapital");
                  || PegOf(d, pl, pow).Raise?
                  || ValueRule(pl, pvp, c).Raise?
                  || ProfitabilityRule(roe, roic, c).Raise?
                  || GrowthRule(PegOf(d, pl, pow).value, Sector(d), c).Raise?
                  || Display(pl).Raise? || Display(pvp).Raise? || Display(roe).Raise? || Display(roic).Raise?)
    ensures r.Ok? ==> r.value.ticker == ticker && r.value.status != Failure
  {
    if !data.JObj? then Raise
    else
      var d := data.fields;
      var pl, pvp := Get(d, "priceEarnings"), Get(d, "priceToBook");
      var roe, roic := Get(d, "returnOnEquity"), Get(d, "returnOnInvestedCapital");
      var peg :- PegOf(d, pl, pow);
      var value :- ValueRule(pl, pvp, c);
      var profitability :- ProfitabilityRule(roe, roic, c);
      var growth :- GrowthRule(peg, Sector(d), c);
      var status := if value && profitability && growth then Approved else Rejected;
      var pegCell := if peg.Some? then Number(peg.value) else NotAvailable;
      match (Display(pl), Display(pvp), Display(roe), Display(roic))
      case (Ok(plCell), Ok(pvpCell), Ok(roeCell), Ok(roicCell)) =>
        Ok(Report(ticker, plCell, pvpCell, roeCell, roicCell, pegCell, status))
      case _ => Raise
  }

  /** Lines 69-73: the record returned when anything raised. */
  function FailureReport(ticker: string): (r: Report)
    ensures r.ticker == ticker && r.status == Failure
    ensures r.priceEarnings == Error && r.priceToBook == Error && r.returnOnEquity == Error
    ensures r.returnOnInvestedCapital == Error && r.pegRatio == Error
  {
    Report(ticker, Error, Error, Error, Error, Error, Failure)
  }

  /** `analisar_acao(ticker, criterios_atuais)`. `fetched` is the payload the
      request returned (`response.json()["results"][0]`), or None when the
      request or its decoding raised. No exception escapes: any of them
      yields the failure record. */
  function Analyze(ticker: string, fetched: Option<Json>, c: Criteria, pow: PowerFn): (r: Report)
    ensures r.ticker == ticker
    ensures r.status == Failure <==> fetched.None? || Evaluate(ticker, fetched.value, c, pow).Raise?
    ensures r.status == Failure ==> r == FailureReport(ticker)
    ensures r.status != Failure ==>
              && r.priceEarnings != Error && r.priceToBook != Error && r.returnOnEquity != Error
              && r.returnOnInvestedCapital != Error && r.pegRatio != Error
    // an approved asset shows every ratio, and each meets its threshold
    ensures r.status == Approved ==>
              && r.priceEarnings.Number? && 0.0 < r.priceEarnings.value <= c.plMax
              && r.priceToBook.Number? && r.priceToBook.value <= c.pvpMax
              && r.returnOnEquity.Number? && r.returnOnEquity.value >= c.roeMin
              && r.returnOnInvestedCapital.Number? && r.returnOnInvestedCapital.value >= c.roicMin
              && r.pegRatio.Number? && r.pegRatio.value > 0.0
              && (|| r.pegRatio.value <= c.pegMaxHighGrowth
                  || c.pegMinLowGrowth <= r.pegRatio.value <= c.pegMaxLowGrowth)
  {
    var outcome := if fetched.None? then Raise else Evaluate(ticker, fetched.value, c, pow);
    match outcome
    case Ok(report) => report
    case Raise => FailureReport(ticker)
  }

  /** Line 59: a payload is approved exactly when the value, profitability
      and growth rules all pass; every other record that did not raise is
      rejected. The record shows the payload's ratios and PEG ratio. */
  lemma StatusFollowsRules(ticker: string, data: map<string, Json>, c: Criteria, pow: PowerFn)
    ensures
      var pl, pvp := Get(data, "priceEarnings"), Get(data, "priceToBook");
      var roe, roic := Get(data, "returnOnEquity"), Get(data, "returnOnInvestedCapital");
      var peg := PegOf(data, pl, pow);
      var r := Analyze(ticker, Some(JObj(data)), c, pow);
      && (r.status == Approved <==>
            && ValueRule(pl, pvp, c) == Ok(true)
            && ProfitabilityRule(roe, roic, c) == Ok(true)
            && peg.Ok? && GrowthRule(peg.value, Sector(data), c) == Ok(true))
      && (r.status != Failure ==>
            && r.priceEarnings == Shown(pl) && r.priceToBook == Shown(pvp)
            && r.returnOnEquity == Shown(roe) && r.returnOnInvestedCapital == Shown(roic)
            && peg.Ok?
            && r.pegRatio == if peg.value.Some? then Number(peg.value.value) else NotAvailable)
  {
  }

  /** Lines 49-50 and 59: without P/L, P/VP, ROE or ROIC an asset is never
      approved. */
  lemma MissingRatioNeverApproved(ticker: string, data: map<string, Json>, c: Criteria, pow: PowerFn)
    requires || Get(data, "priceEarnings").JNull? || Get(data, "priceToBook").JNull?
             || Get(data, "returnOnEquity").JNull? || Get(data, "returnOnInvestedCapital").JNull?
    ensures Analyze(ticker, Some(JObj(data)), c, pow).status != Approved
  {
  }

  /** Lines 51-52 and 59: without a PEG ratio the growth flag stays false, so
      the asset is never approved. */
  lemma MissingPegNeverApproved(ticker: string, data: map<string, Json>, c: Criteria, pow: PowerFn)
    requires PegOf(data, Get(data, "priceEarnings"), pow) == Ok(None)
    ensures Analyze(ticker, Some(JObj(data)), c, pow).status != Approved
  {
    StatusFollowsRules(ticker, data, c, pow);
  }

  /** The default sector "N/A" of a payload without one is not high-growth. */
  lemma DefaultSectorNotHighGrowth(data: map<string, Json>)
    requires "sector" !in data
    ensures IsHighGrowth(Sector(data)) == Ok(false)
  {
  }

  /** Lines 54-57: with an inverted low-growth range (minimum above maximum),
      no asset outside the high-growth sectors is ever approved. */
  lemma InvertedLowRangeNeverApproved(ticker: string, data: map<string, Json>, c: Criteria, pow: PowerFn)
    requires c.pegMinLowGrowth > c.pegMaxLowGrowth
    requires IsHighGrowth(Sector(data)) == Ok(false)
    ensures Analyze(ticker, Some(JObj(data)), c, pow).status != Approved
  {
  }

  /** Line 52: a payload whose `sector` is a stored null fails the growth
      rule, so it is never approved. */
  lemma NullSectorNeverApproved(ticker: string, data: map<string, Json>, c: Criteria, pow: PowerFn)
    requires "sector" in data && data["sector"] == JNull
    ensures Analyze(ticker, Some(JObj(data)), c, pow).status != Approved
  {
    StatusFollowsRules(ticker, data, c, pow);
  }

  /** A ratio field that Python can compare and format. */
  predicate NumberOrNone(j: Json)
  {
    j.JNull? || IsNumber(j)
  }

  /** A balance-sheet statement that is a dict and, when kept, has a positive
      number as its raw EPS. */
  predicate WellFormedStatement(b: Json)
  {
    b.JObj? && (IsAnnualWithEps(b) ==> RawEps(b).Ok? && IsNumber(RawEps(b).value) && AsNumber(RawEps(b).value).value > 0.0)
  }

  /** A `balanceSheetHistory` that is a dict whose statements, if any, are a
      list of well-formed statements. */
  predicate WellFormedHistory(j: Json)
  {
    && j.JObj?
    && ("balanceSheetStatements" in j.fields ==>
          && j.fields["balanceSheetStatements"].JArr?
          && forall b :: b in j.fields["balanceSheetStatements"].items ==> WellFormedStatement(b))
  }

  /** Every kept EPS value of a well-formed statement list is a positive number. */
  lemma WellFormedEpsPositive(statements: seq<Json>)
    requires forall b :: b in statements ==> WellFormedStatement(b)
    ensures AnnualEps(statements).Ok?
    ensures forall k :: 0 <= k < |AnnualEps(statements).value| ==>
              IsNumber(AnnualEps(statements).value[k]) && AsNumber(AnnualEps(statements).value[k]).value > 0.0
  {
    assert forall i :: 0 <= i < |statements| ==> !Malformed(statements[i]) by {
      forall i | 0 <= i < |statements| ensures !Malformed(statements[i]) {
        assert statements[i] in statements;
      }
    }
    AnnualEpsFollowsPositions(statements);
    var p := AnnualPositions(statements);
    forall k | 0 <= k < |AnnualEps(statements).value|
      ensures IsNumber(AnnualEps(statements).value[k]) && AsNumber(AnnualEps(statements).value[k]).value > 0.0
    {
      assert statements[p[k]] in statements;
    }
  }

  /** The failure record arises only from a malformed payload: one whose
      ratios are numbers or absent, whose sector is a str or absent, and
      whose balance-sheet history is well formed with positive EPS values is
      always approved or rejected. */
  lemma WellTypedPayloadNeverFails(ticker: string, data: map<string, Json>, c: Criteria, pow: PowerFn)
    requires NumberOrNone(Get(data, "priceEarnings")) && NumberOrNone(Get(data, "priceToBook"))
    requires NumberOrNone(Get(data, "returnOnEquity")) && NumberOrNone(Get(data, "returnOnInvestedCapital"))
    requires Sector(data).JStr? || Sector(data).JNull?
    requires "balanceSheetHistory" in data ==> WellFormedHistory(data["balanceSheetHistory"])
    ensures Analyze(ticker, Some(JObj(data)), c, pow).status != Failure
  {
    var pl := Get(data, "priceEarnings");
    if "balanceSheetHistory" in data && "balanceSheetStatements" in data["balanceSheetHistory"].fields {
      var statements := data["balanceSheetHistory"].fields["balanceSheetStatements"].items;
      WellFormedEpsPositive(statements);
      var h := AnnualEps(statements).value;
      assert EpsHistory(data) == Ok(Some(h));
      if |h| >= 2 {
        assert EpsGrowth(h, pow).Ok? && EpsGrowth(h, pow).value.Some?;
        assert EpsGrowth(h, pow).value.value.Real?;
        assert PegOf(data, pl, pow).Ok?;
      }
    }
    StatusFollowsRules(ticker, data, c, pow);
  }

  /** A payload whose oldest annual EPS is positive and whose newest is
      negative, over three or more annual values, makes `**` return a complex
      number; comparing it with 0 raises, and the failure record is returned. */
  lemma NegativeNewestEpsFails(ticker: string, data: map<string, Json>, c: Criteria, pow: PowerFn)
    requires EpsHistory(data).Ok? && EpsHistory(data).value.Some?
    requires var h := EpsHistory(data).value.value;
      && |h| >= 3
      && IsNumber(h[|h| - 1]) && AsNumber(h[|h| - 1]).value > 0.0
      && IsNumber(h[0]) && AsNumber(h[0]).value < 0.0
    ensures Analyze(ticker, Some(JObj(data)), c, pow) == FailureReport(ticker)
  {
    var h := EpsHistory(data).value.value;
    assert EpsGrowth(h, pow) == Ok(Some(Complex));
  }

  /** A balance-sheet statement for an annual period with the given EPS. */
  function AnnualStatement(eps: real): Json
  {
    JObj(map["periodType" := JStr("ANNUAL"), "eps" := JObj(map["raw" := JNum(eps)])])
  }

  /** A payload with P/L 10 whose annual EPS went from 1.0 to 1.21, listed
      newest first: 21% growth over one period. */
  function GrowingPayload(sector: string): map<string, Json>
  {
    map[
      "priceEarnings" := JNum(10.0),
      "sector" := JStr(sector),
      "balanceSheetHistory" := JObj(map["balanceSheetStatements" := JArr([AnnualStatement(1.21), AnnualStatement(1.0)])])
    ]
  }

  /** An annual statement is kept, and its raw EPS is the given number. */
  lemma AnnualStatementKept(eps: real)
    ensures IsAnnualWithEps(AnnualStatement(eps)) && RawEps(AnnualStatement(eps)) == Ok(JNum(eps))
  {
    var eps' := JObj(map["raw" := JNum(eps)]);
    assert "raw" in eps'.fields;
    assert Get(AnnualStatement(eps).fields, "periodType") == JStr("ANNUAL");
    assert Get(AnnualStatement(eps).fields, "eps") == eps';
  }

  /** Appending a kept statement to a list appends its raw EPS. */
  lemma AnnualEpsAppend(front: seq<Json>, b: Json)
    requires AnnualEps(front).Ok? && IsAnnualWithEps(b) && RawEps(b).Ok?
    ensures AnnualEps(front + [b]) == Ok(AnnualEps(front).value + [RawEps(b).value])
  {
  }

  /** The EPS history of that payload, in payload order. */
  lemma GrowingPayloadHistory(sector: string)
    ensures EpsHistory(GrowingPayload(sector)) == Ok(Some([JNum(1.21), JNum(1.0)]))
  {
    var newest, oldest := AnnualStatement(1.21), AnnualStatement(1.0);
    var statements := [newest, oldest];
    AnnualStatementKept(1.21);
    AnnualStatementKept(1.0);
    assert [] + [newest] == [newest] && [newest] + [oldest] == statements;
    assert [] + [JNum(1.21)] == [JNum(1.21)] && [JNum(1.21)] + [JNum(1.0)] == [JNum(1.21), JNum(1.0)];
    AnnualEpsAppend([], newest);
    AnnualEpsAppend([newest], oldest);
    var history := GrowingPayload(sector)["balanceSheetHistory"];
    assert history == JObj(map["balanceSheetStatements" := JArr(statements)]);
    assert In("balanceSheetStatements", history) == Ok(true);
  }

  /** The PEG ratio of that payload is 10 / 21, whatever its sector. */
  lemma GrowingPayloadPeg(sector: string, pow: PowerFn)
    requires pow(1.21, 1.0) == 1.21
    ensures PegOf(GrowingPayload(sector), JNum(10.0), pow) == Ok(Some(10.0 / 21.0))
  {
    var history := [JNum(1.21), JNum(1.0)];
    GrowingPayloadHistory(sector);
    CagrOnePeriod(1.0, 1.21, pow);
    assert EpsGrowth(history, pow) == Ok(Some(Real(1.21 - 1.0)));
    assert PegRatio(Some(Real(1.21 - 1.0)), JNum(10.0)) == Ok(Some(10.0 / 21.0));
  }

  /** In a high-growth sector a PEG ratio of 10/21 passes a maximum of 3. */
  lemma HighGrowthSectorPasses(pow: PowerFn)
    requires pow(1.21, 1.0) == 1.21
    ensures var data := GrowingPayload("Tecnologia");
      GrowthRule(PegOf(data, JNum(10.0), pow).value, Sector(data), Criteria(11.0, 1.2, 15.0, 15.0, 3.0, 0.5, 1.0)) == Ok(true)
  {
    GrowingPayloadPeg("Tecnologia", pow);
    assert Contains("Tecnologia", HighGrowthSectors[0]);
  }

  /** "Financeiro" holds none of the high-growth names. */
  lemma FinanceiroNotHighGrowth()
    ensures IsHighGrowth(JStr("Financeiro")) == Ok(false)
  {
    assert HighGrowthSectors == ["Tecnologia", "Varejo", "Consumo"];
    assert 'T' !in "Financeiro" && 'V' !in "Financeiro" && 'C' !in "Financeiro";
    assert !Contains("Financeiro", "Tecnologia") && !Contains("Financeiro", "Varejo") && !Contains("Financeiro", "Consumo");
  }

  /** Outside the high-growth sectors the same ratio is below the minimum of
      0.5, and the growth rule fails. */
  lemma LowGrowthSectorFails(pow: PowerFn)
    requires pow(1.21, 1.0) == 1.21
    ensures var data := GrowingPayload("Financeiro");
      GrowthRule(PegOf(data, JNum(10.0), pow).value, Sector(data), Criteria(11.0, 1.2, 15.0, 15.0, 3.0, 0.5, 1.0)) == Ok(false)
  {
    GrowingPayloadPeg("Financeiro", pow);
    FinanceiroNotHighGrowth();
    assert Sector(GrowingPayload("Financeiro")) == JStr("Financeiro");
  }
}
