/**
 * The strategy condition language of saved strategies: operand resolution,
 * the recursive condition evaluator and the alias-to-column table
 * (backtest_api/components/backtest_engine.py).
 */
module Dsl {
  import opened Common

  /** A condition operand: a name (price keyword or alias), a number, or anything else. */
  datatype Operand = Name(name: string) | Number(value: real) | Missing

  /**
   * A condition object. `Null` is an absent condition (None), `Blank` an
   * empty object; a comparison whose "op" key is absent has `op == None`.
   * An object with an "all" key is an `All` whatever else it holds, one with
   * "any" (and no "all") an `Any`.
   */
  datatype Node =
    | Null
    | Blank
    | All(children: seq<Node>)
    | Any(children: seq<Node>)
    | Compare(op: Option<string>, left: Operand, right: Operand)

  /** Python truthiness of a condition: neither None nor an empty object. */
  predicate Truthy(n: Node) {
    !n.Null? && !n.Blank?
  }

  // ---------------------------------------------------------------------
  // ASCII lower-casing

  function LowerChar(c: char): (l: char)
    ensures 'A' <= c <= 'Z' ==> l as int == c as int + 32
    ensures !('A' <= c <= 'Z') ==> l == c
  {
    if 'A' <= c <= 'Z' then (c as int + 32) as char else c
  }

  function ToLower(s: string): (r: string)
    ensures |r| == |s|
    ensures forall k :: 0 <= k < |s| ==> r[k] == LowerChar(s[k])
  {
    if |s| == 0 then [] else [LowerChar(s[0])] + ToLower(s[1..])
  }

  // ---------------------------------------------------------------------
  // Operands

  predicate IsPriceKeyword(k: string) {
    k == "close" || k == "open" || k == "high" || k == "low" || k == "price"
  }

  /** Price keywords: "price" is another name for the close. */
  function PriceOf(row: Row, k: string): real
    requires IsPriceKeyword(k)
  {
    if k == "open" then row.open
    else if k == "high" then row.high
    else if k == "low" then row.low
    else row.close
  }

  /**
   * The value of an operand on a row: a price keyword (matched without
   * regard to case) wins over an alias of the same name; an alias reads its
   * column; a number is itself; everything else is NaN.
   */
  function Resolve(x: Operand, row: Row, aliases: map<string, Column>): (v: Option<real>)
    ensures x.Missing? ==> v.None?
    ensures x.Number? ==> v == Some(x.value)
    ensures x.Name? && (ToLower(x.name) == "close" || ToLower(x.name) == "price") ==> v == Some(row.close)
    ensures x.Name? && ToLower(x.name) == "open" ==> v == Some(row.open)
    ensures x.Name? && ToLower(x.name) == "high" ==> v == Some(row.high)
    ensures x.Name? && ToLower(x.name) == "low" ==> v == Some(row.low)
    ensures x.Name? && !IsPriceKeyword(ToLower(x.name)) ==>
      v == (if x.name in aliases then Get(row, aliases[x.name]) else None)
  {
    match x
    case Name(s) =>
      var k := ToLower(s);
      if IsPriceKeyword(k) then Some(PriceOf(row, k))
      else if s in aliases then Get(row, aliases[s])
      else None
    case Number(n) => Some(n)
    case Missing => None
  }

  // ---------------------------------------------------------------------
  // Conditions

  /** Risk-management operators that the evaluator leaves to the engine. */
  predicate IsRiskOp(op: Option<string>) {
    op == Some("stopLossPct") || op == Some("takeProfitPct") || op == Some("trailingStopPct")
  }

  /** Operators the evaluator compares with. */
  predicate IsComparisonOp(op: Option<string>) {
    op.Some? &&
    op.value in ["<", "lt", ">", "gt", "<=", "lte", ">=", "gte", "==", "equals", "eq", "crossesAbove", "crossesBelow"]
  }

  /**
   * Truth of a condition on a row. `All` holds when every child holds (so an
   * empty list holds), `Any` when some child does; a comparison is false when
   * it is a risk operator, when an operand is NaN or when the operator is
   * unknown. The cross operators also need the previous row.
   */
  function Evaluate(node: Node, row: Row, prev: Option<Row>, aliases: map<string, Column>): (b: bool)
    decreases node
    ensures node.Null? || node.Blank? ==> !b
    ensures node.Compare? && IsRiskOp(node.op) ==> !b
    ensures node.Compare? && !IsComparisonOp(node.op) ==> !b
    ensures node.Compare? && (Resolve(node.left, row, aliases).None? || Resolve(node.right, row, aliases).None?) ==> !b
  {
    match node
    case Null => false
    case Blank => false
    case All(cs) => EvaluateAll(cs, row, prev, aliases)
    case Any(cs) => EvaluateAny(cs, row, prev, aliases)
    case Compare(op, l, r) => EvaluateCompare(op, l, r, row, prev, aliases)
  }

  function EvaluateAll(cs: seq<Node>, row: Row, prev: Option<Row>, aliases: map<string, Column>): bool
    decreases cs
  {
    if |cs| == 0 then true
    else Evaluate(cs[0], row, prev, aliases) && EvaluateAll(cs[1..], row, prev, aliases)
  }

  function EvaluateAny(cs: seq<Node>, row: Row, prev: Option<Row>, aliases: map<string, Column>): bool
    decreases cs
  {
    if |cs| == 0 then false
    else Evaluate(cs[0], row, prev, aliases) || EvaluateAny(cs[1..], row, prev, aliases)
  }

  /**
   * One comparison. The plain operators, in symbol or word form, compare the
   * two values on this row. "crossesAbove" holds when the left operand was at or
   * below the right one on the previous row and is above it now;
   * "crossesBelow" mirrors it. Both are false without a previous row or when
   * a previous value is NaN.
   */
  function EvaluateCompare(op: Option<string>, l: Operand, r: Operand, row: Row, prev: Option<Row>,
                           aliases: map<string, Column>): (b: bool)
    ensures IsRiskOp(op) || !IsComparisonOp(op) ==> !b
    ensures b ==> Resolve(l, row, aliases).Some? && Resolve(r, row, aliases).Some?
    ensures op == Some(">") || op == Some("gt") ==>
      (b <==> Resolve(l, row, aliases).Some? && Resolve(r, row, aliases).Some?
              && Resolve(l, row, aliases).value > Resolve(r, row, aliases).value)
    ensures op == Some("<") || op == Some("lt") ==>
      (b <==> Resolve(l, row, aliases).Some? && Resolve(r, row, aliases).Some?
              && Resolve(l, row, aliases).value < Resolve(r, row, aliases).value)
    ensures op == Some(">=") || op == Some("gte") ==>
      (b <==> Resolve(l, row, aliases).Some? && Resolve(r, row, aliases).Some?
              && Resolve(l, row, aliases).value >= Resolve(r, row, aliases).value)
    ensures op == Some("<=") || op == Some("lte") ==>
      (b <==> Resolve(l, row, aliases).Some? && Resolve(r, row, aliases).Some?
              && Resolve(l, row, aliases).value <= Resolve(r, row, aliases).value)
    ensures op == Some("==") || op == Some("equals") || op == Some("eq") ==>
      (b <==> Resolve(l, row, aliases).Some? && Resolve(r, row, aliases).Some?
              && Resolve(l, row, aliases).value == Resolve(r, row, aliases).value)
    ensures op == Some("crossesAbove") ==>
      (b <==> prev.Some?
              && Resolve(l, row, aliases).Some? && Resolve(r, row, aliases).Some?
              && Resolve(l, prev.value, aliases).Some? && Resolve(r, prev.value, aliases).Some?
              && Resolve(l, prev.value, aliases).value <= Resolve(r, prev.value, aliases).value
              && Resolve(l, row, aliases).value > Resolve(r, row, aliases).value)
    ensures op == Some("crossesBelow") ==>
      (b <==> prev.Some?
              && Resolve(l, row, aliases).Some? && Resolve(r, row, aliases).Some?
              && Resolve(l, prev.value, aliases).Some? && Resolve(r, prev.value, aliases).Some?
              && Resolve(l, prev.value, aliases).value >= Resolve(r, prev.value, aliases).value
              && Resolve(l, row, aliases).value < Resolve(r, row, aliases).value)
  {
    if IsRiskOp(op) then false
    else
      var lv := Resolve(l, row, aliases);
      var rv := Resolve(r, row, aliases);
      if lv.None? || rv.None? then false
      else if op == Some(">") || op == Some("gt") then lv.value > rv.value
      else if op == Some("<") || op == Some("lt") then lv.value < rv.value
      else if op == Some(">=") || op == Some("gte") then lv.value >= rv.value
      else if op == Some("<=") || op == Some("lte") then lv.value <= rv.value
      else if op == Some("==") || op == Some("equals") || op == Some("eq") then lv.value == rv.value
      else if op == Some("crossesAbove") || op == Some("crossesBelow") then
        if prev.None? then false
        else
          var pl := Resolve(l, prev.value, aliases);
          var pr := Resolve(r, prev.value, aliases);
          if pl.None? || pr.None? then false
          else if op == Some("crossesAbove") then pl.value <= pr.value && lv.value > rv.value
          else pl.value >= pr.value && lv.value < rv.value
      else false
  }

  /** An "all" group is the conjunction of its children. */
  lemma {:induction false} AllIsConjunction(cs: seq<Node>, row: Row, prev: Option<Row>, aliases: map<string, Column>)
    ensures Evaluate(All(cs), row, prev, aliases) <==>
      forall k :: 0 <= k < |cs| ==> Evaluate(cs[k], row, prev, aliases)
    decreases |cs|
  {
    if |cs| > 0 {
      AllIsConjunction(cs[1..], row, prev, aliases);
      assert forall k :: 1 <= k < |cs| ==> cs[k] == cs[1..][k - 1];
    }
  }

  /** An "any" group is the disjunction of its children. */
  lemma {:induction false} AnyIsDisjunction(cs: seq<Node>, row: Row, prev: Option<Row>, aliases: map<string, Column>)
    ensures Evaluate(Any(cs), row, prev, aliases) <==>
      exists k :: 0 <= k < |cs| && Evaluate(cs[k], row, prev, aliases)
    decreases |cs|
  {
    if |cs| > 0 {
      AnyIsDisjunction(cs[1..], row, prev, aliases);
      assert forall k :: 1 <= k < |cs| ==> cs[k] == cs[1..][k - 1];
    }
  }

  /**
   * A cross is an edge: "crossesAbove" on a row is "<=" on the previous row
   * together with ">" on this one.
   */
  lemma CrossesAboveIsEdge(l: Operand, r: Operand, row: Row, prev: Row, aliases: map<string, Column>)
    ensures Evaluate(Compare(Some("crossesAbove"), l, r), row, Some(prev), aliases) <==>
      Evaluate(Compare(Some("<="), l, r), prev, None, aliases) && Evaluate(Compare(Some(">"), l, r), row, None, aliases)
  {
  }

  // ---------------------------------------------------------------------
  // Indicator aliases

  /** One entry of the "indicators" object of a strategy: its "type" and "length" keys. */
  datatype IndicatorConfig = IndicatorConfig(typeName: Option<string>, length: Option<int>)

  /** Type names after lower-casing, '-' and ' ' to '_', and '.' removed. */
  function NormaliseType(t: string): (r: string)
    ensures |r| <= |t|
  {
    if |t| == 0 then [] else NormaliseChar(t[0]) + NormaliseType(t[1..])
  }

  /** One character of a type name: lower-cased, with '-' and ' ' read as '_' and '.' dropped. */
  function NormaliseChar(c: char): (r: string)
    ensures |r| <= 1
  {
    var l := LowerChar(c);
    if l == '-' || l == ' ' then "_" else if l == '.' then "" else [l]
  }

  /** The indicator families a strategy may declare. */
  predicate IsDslKind(k: string) {
    k in ["ema", "ma", "dema", "rsi", "cci", "zscore", "roll_std", "roll_median", "roll_percentile"]
  }

  function TypeOf(cfg: IndicatorConfig): string {
    NormaliseType(cfg.typeName.GetOr("ema"))
  }

  /**
   * The alias table as the source builds it: an alias whose normalised type
   * is a known family gets a column of that family and its length (default
   * 20); every other alias is silently dropped.
   */
  function DslColumnsAsWritten(indicators: map<string, IndicatorConfig>): (m: map<string, Column>)
    ensures m.Keys <= indicators.Keys
  {
    map a | a in indicators && IsDslKind(TypeOf(indicators[a])) ::
      DslCol(TypeOf(indicators[a]), a, indicators[a].length.GetOr(20))
  }

  /** "z-score" and "Z Score" normalise to "z_score", which no family matches. */
  lemma DashedZScoreIsDropped(indicators: map<string, IndicatorConfig>, a: string)
    ensures a in indicators && indicators[a].typeName == Some("z-score") ==> a !in DslColumnsAsWritten(indicators)
  {
    if a in indicators && indicators[a].typeName == Some("z-score") {
      NormaliseZScore();
      assert TypeOf(indicators[a]) == "z_score";
    }
  }

  lemma NormaliseZScore()
    ensures NormaliseType("z-score") == "z_score"
  {
  }

  /** The family of a type name, reading the spelled-out "z_score" as "zscore". */
  function CanonicalKind(t: string): (k: string)
    ensures t != "z_score" ==> k == t
    ensures t == "z_score" ==> k == "zscore"
  {
    if t == "z_score" then "zscore" else t
  }

  /**
   * The alias table with "z-score" spellings recognised, as the comment
   * beside the normalisation promises. The engine keeps the table as written.
   */
  function DslColumns(indicators: map<string, IndicatorConfig>): (m: map<string, Column>)
    ensures m.Keys <= indicators.Keys
  {
    map a | a in indicators && IsDslKind(CanonicalKind(TypeOf(indicators[a]))) ::
      DslCol(CanonicalKind(TypeOf(indicators[a])), a, indicators[a].length.GetOr(20))
  }

  /**
   * The corrected table keeps every alias the source keeps, with the same
   * column, and also registers "z-score" aliases as Z-score columns.
   */
  lemma {:induction false} DslColumnsExtendsAsWritten(indicators: map<string, IndicatorConfig>, a: string)
    ensures a in DslColumnsAsWritten(indicators) ==>
      a in DslColumns(indicators) && DslColumns(indicators)[a] == DslColumnsAsWritten(indicators)[a]
    ensures a in indicators && indicators[a].typeName == Some("z-score") ==>
      a in DslColumns(indicators) && DslColumns(indicators)[a] == DslCol("zscore", a, indicators[a].length.GetOr(20))
  {
    if a in DslColumnsAsWritten(indicators) {
      var t := TypeOf(indicators[a]);
      assert IsDslKind(t);
      assert t != "z_score";
    }
    if a in indicators && indicators[a].typeName == Some("z-score") {
      NormaliseZScore();
      assert TypeOf(indicators[a]) == "z_score";
    }
  }
}
