/** The annual earnings-per-share history and its growth rate
    (dashboard_analise.py:40-44). */
module History {
  import opened Payload
  import opened Growth

  /** The comprehension's filter: a statement (a dict) is kept when its
      `periodType` is "ANNUAL" and its `eps` is truthy. */
  predicate IsAnnualWithEps(b: Json)
    // a kept statement holds both keys, so `b["eps"]` does not raise
    ensures IsAnnualWithEps(b) ==>
              && b.JObj? && "periodType" in b.fields && b.fields["periodType"] == JStr("ANNUAL")
              && "eps" in b.fields && Truthy(b.fields["eps"])
  {
    b.JObj? && Get(b.fields, "periodType") == JStr("ANNUAL") && Truthy(Get(b.fields, "eps"))
  }

  /** `b["eps"]["raw"]` for a kept statement: indexing anything but a dict by
      a string, or a dict without "raw", raises. */
  function RawEps(b: Json): (r: Outcome<Json>)
    requires IsAnnualWithEps(b)
    // a truthy str, list, number or bool under "eps" cannot be indexed by "raw"
    ensures !b.fields["eps"].JObj? ==> r.Raise?
    ensures b.fields["eps"].JObj? ==>
              (r.Ok? <==> "raw" in b.fields["eps"].fields)
    ensures r.Ok? ==> b.fields["eps"].JObj? && r.value == b.fields["eps"].fields["raw"]
  {
    var eps := b.fields["eps"];
    if eps.JObj? && "raw" in eps.fields then Ok(eps.fields["raw"]) else Raise
  }

  /** A statement the comprehension raises on: `b.get` on something that is
      not a dict, or a kept statement whose `eps` has no "raw". */
  predicate Malformed(b: Json)
  {
    !b.JObj? || (IsAnnualWithEps(b) && RawEps(b).Raise?)
  }

  /** `[b["eps"]["raw"] for b in statements if ...]`, built front to back. */
  function AnnualEps(statements: seq<Json>): (r: Outcome<seq<Json>>)
    ensures r.Raise? <==> exists i :: 0 <= i < |statements| && Malformed(statements[i])
    ensures r.Ok? ==> |r.value| <= |statements|
    decreases |statements|
  {
    if statements == [] then Ok([])
    else
      var front :- AnnualEps(statements[..|statements| - 1]);
      var b := statements[|statements| - 1];
      if !b.JObj? then Raise
      else if IsAnnualWithEps(b) then
        var raw :- RawEps(b);
        Ok(front + [raw])
      else Ok(front)
  }

  /** The positions of the kept statements, in increasing order: the
      reference definition of which statements the history comes from. */
  function AnnualPositions(statements: seq<Json>): (p: seq<int>)
    ensures forall i :: i in p <==> 0 <= i < |statements| && IsAnnualWithEps(statements[i])
    ensures forall k :: 0 <= k < |p| ==> 0 <= p[k] < |statements|
    ensures forall j, k :: 0 <= j < k < |p| ==> p[j] < p[k]
    decreases |statements|
  {
    if statements == [] then []
    else
      var front := AnnualPositions(statements[..|statements| - 1]);
      if IsAnnualWithEps(statements[|statements| - 1]) then front + [|statements| - 1] else front
  }

  /** The history is the in-order subsequence of the kept statements' raw EPS:
      its k-th value is the raw EPS of the k-th kept statement. */
  lemma {:induction false} AnnualEpsFollowsPositions(statements: seq<Json>)
    requires AnnualEps(statements).Ok?
    ensures |AnnualEps(statements).value| == |AnnualPositions(statements)|
    ensures forall k :: 0 <= k < |AnnualPositions(statements)| ==>
              var i := AnnualPositions(statements)[k];
              0 <= i < |statements| && IsAnnualWithEps(statements[i]) &&
              RawEps(statements[i]) == Ok(AnnualEps(statements).value[k])
    decreases |statements|
  {
    if statements != [] {
      var n := |statements| - 1;
      var init := statements[..n];
      AnnualEpsFollowsPositions(init);
      var p, pInit := AnnualPositions(statements), AnnualPositions(init);
      var h, hInit := AnnualEps(statements).value, AnnualEps(init).value;
      forall k | 0 <= k < |p|
        ensures 0 <= p[k] < |statements| && IsAnnualWithEps(statements[p[k]])
        ensures RawEps(statements[p[k]]) == Ok(h[k])
      {
        assert p[k] in p;
        if k < |pInit| {
          assert pInit[k] in pInit;
          assert statements[pInit[k]] == init[pInit[k]];
        }
      }
    }
  }

  /** The list reversed, as `list.reverse()` leaves it. */
  function Reverse<T>(s: seq<T>): (r: seq<T>)
    ensures |r| == |s|
  {
    if s == [] then [] else Reverse(s[1..]) + [s[0]]
  }

  /** Position k of the reversed list holds position |s|-1-k of the original. */
  lemma {:induction false} ReverseAt<T>(s: seq<T>, k: int)
    requires 0 <= k < |s|
    ensures Reverse(s)[k] == s[|s| - 1 - k]
  {
    if k < |s| - 1 {
      ReverseAt(s[1..], k);
    }
  }

  /** Lines 42-44: with two or more values, the growth rate from the first to
      the last value of the reversed history, over one period fewer than
      there are values. The payload lists the newest statement first, so
      this runs from the last value in payload order (the oldest EPS) to the
      first (the newest), over |history| - 1 >= 1 periods. */
  function EpsGrowth(history: seq<Json>, pow: PowerFn): (r: Outcome<Option<Num>>)
    ensures |history| < 2 ==> r == Ok(None)
    ensures |history| >= 2 ==> r == Cagr(history[|history| - 1], history[0], |history| - 1, pow)
  {
    if |history| < 2 then Ok(None)
    else
      var reversed := Reverse(history);
      ReverseAt(history, 0);
      ReverseAt(history, |history| - 1);
      Cagr(reversed[0], reversed[|reversed| - 1], |reversed| - 1, pow)
  }

  /** Iterating `balanceSheetStatements`: a list yields its elements; a dict
      or a str yields strings, on which the filter's `b.get` raises unless
      there are none; None, a number and a bool are not iterable. */
  function Statements(j: Json): (r: Outcome<seq<Json>>)
    ensures r.Raise? <==> !(j.JArr? || j == JObj(map[]) || j == JStr([]))
    ensures j.JArr? ==> r == Ok(j.items)
    ensures r.Ok? && !j.JArr? ==> r.value == []
  {
    match j
    case JArr(items) => Ok(items)
    case JObj(fields) => if fields == map[] then Ok([]) else Raise
    case JStr(s) => if s == [] then Ok([]) else Raise
    case _ => Raise
  }

  /** Lines 40-41: the annual EPS history, None when the payload has no
      `balanceSheetHistory` holding `balanceSheetStatements`. The test uses
      Python's `in`, so a list or str that contains the name passes it and
      then raises on being indexed by a string. */
  function EpsHistory(data: map<string, Json>): (r: Outcome<Option<seq<Json>>>)
    ensures r == Ok(None) <==>
              || "balanceSheetHistory" !in data
              || In("balanceSheetStatements", data["balanceSheetHistory"]) == Ok(false)
    ensures r.Ok? && r.value.Some? ==>
              && data["balanceSheetHistory"].JObj?
              && "balanceSheetStatements" in data["balanceSheetHistory"].fields
              && Statements(data["balanceSheetHistory"].fields["balanceSheetStatements"]).Ok?
              && AnnualEps(Statements(data["balanceSheetHistory"].fields["balanceSheetStatements"]).value)
                 == Ok(r.value.value)
  {
    if "balanceSheetHistory" !in data then Ok(None)
    else
      var history := data["balanceSheetHistory"];
      var listed :- In("balanceSheetStatements", history);
      if !listed then Ok(None)
      else if !history.JObj? then Raise
      else
        var statements :- Statements(history.fields["balanceSheetStatements"]);
        var eps :- AnnualEps(statements);
        Ok(Some(eps))
  }
}
