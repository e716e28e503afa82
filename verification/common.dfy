/**
 * Shared vocabulary of the backtest model: optional values (pandas NaN or a
 * missing key), trade direction, indicator columns and candle rows.
 */
module Common {

  /** `None` stands for a value that is not available: NaN, a missing key, Python's None. */
  datatype Option<T> = None | Some(value: T) {
    function GetOr(default: T): T {
      match this
      case Some(v) => v
      case None => default
    }
  }

  /** Direction of a signal or of a position ('Long' / 'Short' in the source). */
  datatype Side = Long | Short

  function Opposite(s: Side): (o: Side)
    ensures o != s
  {
    if s == Long then Short else Long
  }

  /**
   * An indicator column written alongside the candles. The source names
   * columns by formatting strings such as "EMA12" or "DSL_RSI_fast_14"; the
   * model keys them by kind and period instead, so two columns are the same
   * exactly when their names would be.
   */
  datatype Column =
    | EmaCol(period: int)
    | MaCol(period: int)
    | RsiCol(period: int)
    | CciCol(period: int)
    | ZScoreCol(period: int)
    | DslCol(kind: string, alias: string, length: int)

  /** One candle plus the indicator columns computed for it. */
  datatype Row = Row(
    time: int,
    open: real,
    high: real,
    low: real,
    close: real,
    cols: map<Column, Option<real>>)

  /** `row.get(col, NaN)`: the column value, or None when it is missing or NaN. */
  function Get(row: Row, c: Column): Option<real> {
    if c in row.cols then row.cols[c] else None
  }

  /** The idiom `float(row.get(col)) if not pd.isna(row.get(col)) else default`. */
  function ValueOr(row: Row, c: Column, default: real): (v: real)
    ensures Get(row, c).Some? ==> v == Get(row, c).value
    ensures Get(row, c).None? ==> v == default
  {
    Get(row, c).GetOr(default)
  }

  /** Strategy modes of the engine; any other string is `UnknownMode`. */
  datatype Mode = Reversal | WaitForNext | LongOnly | ShortOnly | UnknownMode

  /** The strategy mode a name selects; any other name is an unknown mode. */
  function ParseMode(s: string): (m: Mode)
    ensures m == UnknownMode <==> !(s == "reversal" || s == "wait_for_next" || s == "long_only" || s == "short_only")
    ensures m == LongOnly <==> s == "long_only"
    ensures m == ShortOnly <==> s == "short_only"
  {
    if s == "reversal" then Reversal
    else if s == "wait_for_next" then WaitForNext
    else if s == "long_only" then LongOnly
    else if s == "short_only" then ShortOnly
    else UnknownMode
  }

  /** Smallest element of a non-empty sequence (pandas `Series.min()` without NaN). */
  function MinOf(s: seq<real>): (m: real)
    requires |s| > 0
    ensures forall j :: 0 <= j < |s| ==> m <= s[j]
    ensures exists j :: 0 <= j < |s| && m == s[j]
  {
    if |s| == 1 then s[0]
    else
      var rest := MinOf(s[1..]);
      assert forall j :: 1 <= j < |s| ==> s[j] == s[1..][j - 1];
      if s[0] <= rest then s[0] else rest
  }

  /** Largest element of a non-empty sequence (pandas `Series.max()` without NaN). */
  function MaxOf(s: seq<real>): (m: real)
    requires |s| > 0
    ensures forall j :: 0 <= j < |s| ==> s[j] <= m
    ensures exists j :: 0 <= j < |s| && m == s[j]
  {
    if |s| == 1 then s[0]
    else
      var rest := MaxOf(s[1..]);
      assert forall j :: 1 <= j < |s| ==> s[j] == s[1..][j - 1];
      if s[0] >= rest then s[0] else rest
  }

  function Sum(s: seq<real>): real {
    if |s| == 0 then 0.0 else Sum(s[..|s| - 1]) + s[|s| - 1]
  }

  /** Arithmetic mean of a non-empty sequence (pandas `mean()`). */
  function Mean(s: seq<real>): real
    requires |s| > 0
  {
    Sum(s) / |s| as real
  }

  function Abs(x: real): real {
    if x < 0.0 then -x else x
  }
}
