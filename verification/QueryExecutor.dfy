/** Running a guarded query and cutting its rows to a budget of rows and bytes. */
module QueryExecutor {
  import opened Sequences
  import opened Text

  /** A cell as the database driver returns it; only its compact JSON text matters. */
  type Cell = string

  type Row = seq<Cell>

  /** A column name's JSON text, one character a byte. */
  type Quote = string -> string

  datatype Limits = Limits(maxRows: nat, maxColumns: nat, maxBytes: nat)

  datatype ResultSet = ResultSet(columns: seq<string>, rows: seq<string>, serializedBytes: nat, truncated: bool)

  datatype Execution = Executed(result: ResultSet) | LimitExceeded

  function RowMembers(columns: seq<string>, row: Row, quote: Quote): seq<string>
    requires |columns| == |row|
  {
    seq(|columns|, i requires 0 <= i < |columns| => quote(columns[i]) + ":" + row[i])
  }

  /** The compact JSON object of one row. */
  function EncodeRow(columns: seq<string>, row: Row, quote: Quote): string
    requires |columns| == |row|
  {
    "{" + Join(RowMembers(columns, row, quote), ',') + "}"
  }

  function EncodeRows(columns: seq<string>, rows: seq<Row>, quote: Quote): (encoded: seq<string>)
    requires forall r :: r in rows ==> |r| == |columns|
    ensures |encoded| == |rows|
  {
    seq(|rows|, i requires 0 <= i < |rows| => EncodeRow(columns, rows[i], quote))
  }

  /** The compact JSON document of columns and encoded rows. */
  function Document(columns: seq<string>, rows: seq<string>, quote: Quote): string {
    var names := seq(|columns|, i requires 0 <= i < |columns| => quote(columns[i]));
    "{\"columns\":[" + Join(names, ',') + "],\"rows\":[" + Join(rows, ',') + "]}"
  }

  lemma {:induction false} JoinSnoc(parts: seq<string>, last: string, separator: char)
    ensures |Join(parts + [last], separator)| == |Join(parts, separator)| + |last| + if parts == [] then 0 else 1
  {
    if parts == [] {
      assert parts + [last] == [last];
    } else if |parts| == 1 {
      assert parts + [last] == [parts[0], last] && [parts[0], last][1..] == [last];
    } else {
      assert (parts + [last])[1..] == parts[1..] + [last];
      JoinSnoc(parts[1..], last, separator);
    }
  }

  /** A further row costs its own text and, unless it is the first, a comma. */
  lemma OneMoreRow(columns: seq<string>, rows: seq<string>, last: string, quote: Quote)
    ensures |Document(columns, rows + [last], quote)|
         == |Document(columns, rows, quote)| + |last| + if rows == [] then 0 else 1
  {
    JoinSnoc(rows, last, ',');
  }

  lemma OneMoreOf(columns: seq<string>, encoded: seq<string>, quote: Quote, i: nat)
    requires i < |encoded|
    ensures encoded[..i] + [encoded[i]] == encoded[..i + 1]
    ensures |Document(columns, encoded[..i + 1], quote)|
         == |Document(columns, encoded[..i], quote)| + |encoded[i]| + if i == 0 then 0 else 1
  {
    assert encoded[..i] + [encoded[i]] == encoded[..i + 1];
    OneMoreRow(columns, encoded[..i], encoded[i], quote);
  }

  /** `n` rows are returned: within both bounds, and the next one would break one of them. */
  ghost predicate IsLongestFit(columns: seq<string>, encoded: seq<string>, quote: Quote, limits: Limits, n: nat) {
    && n <= |encoded| && n <= limits.maxRows && |Document(columns, encoded[..n], quote)| <= limits.maxBytes
    && (n < |encoded| && n < limits.maxRows ==> |Document(columns, encoded[..n + 1], quote)| > limits.maxBytes)
  }

  method BoundedResult(columns: seq<string>, rawRows: seq<Row>, quote: Quote,
                       limits: Limits) returns (outcome: Execution)
    requires forall r :: r in rawRows ==> |r| == |columns|
    ensures outcome.LimitExceeded? <==> |Document(columns, [], quote)| > limits.maxBytes
    ensures outcome.Executed? ==>
      var result, encoded := outcome.result, EncodeRows(columns, rawRows, quote);
      && result.columns == columns
      && IsLongestFit(columns, encoded, quote, limits, |result.rows|) && result.rows == encoded[..|result.rows|]
      && result.serializedBytes == |Document(columns, result.rows, quote)|
      && (result.truncated <==> |result.rows| < |rawRows|)
  {
    var baseSize := |Document(columns, [], quote)|;
    if baseSize > limits.maxBytes {
      return LimitExceeded;
    }
    ghost var encodedRows := EncodeRows(columns, rawRows, quote);
    var rows: seq<string> := [];
    var serializedBytes := baseSize;
    var truncated := |rawRows| > limits.maxRows;
    var bound := if truncated then limits.maxRows else |rawRows|;
    for i := 0 to bound
      invariant rows == encodedRows[..i] && truncated == (|rawRows| > limits.maxRows)
      invariant serializedBytes == |Document(columns, rows, quote)| <= limits.maxBytes
    {
      var encoded := EncodeRow(columns, rawRows[i], quote);
      var addedSize := |encoded| + if rows == [] then 0 else 1;
      OneMoreOf(columns, encodedRows, quote, i);
      if serializedBytes + addedSize > limits.maxBytes {
        truncated := true;
        assert IsLongestFit(columns, encodedRows, quote, limits, |rows|);
        break;
      }
      rows := rows + [encoded];
      serializedBytes := serializedBytes + addedSize;
    }
    assert IsLongestFit(columns, encodedRows, quote, limits, |rows|);
    outcome := Executed(ResultSet(columns, rows, serializedBytes, truncated));
  }

  lemma {:induction false} MoreRowsAreLonger(columns: seq<string>, encoded: seq<string>, quote: Quote, n: nat, m: nat)
    requires n <= m <= |encoded|
    ensures |Document(columns, encoded[..n], quote)| <= |Document(columns, encoded[..m], quote)|
    decreases m
  {
    if n < m {
      MoreRowsAreLonger(columns, encoded, quote, n, m - 1);
      assert encoded[..m] == encoded[..m - 1] + [encoded[m - 1]];
      OneMoreRow(columns, encoded[..m - 1], encoded[m - 1], quote);
    }
  }

  /** The number of rows returned is the greatest that fits, so the bounds determine it. */
  lemma LongestFitIsMaximal(columns: seq<string>, encoded: seq<string>, quote: Quote, limits: Limits, n: nat, m: nat)
    requires IsLongestFit(columns, encoded, quote, limits, n)
    requires m <= |encoded| && m <= limits.maxRows && |Document(columns, encoded[..m], quote)| <= limits.maxBytes
    ensures m <= n
  {
    if n < m {
      MoreRowsAreLonger(columns, encoded, quote, n + 1, m);
    }
  }

  /** Rows the database hands over when the statement is wrapped in a limit one above the row bound. */
  function Fetched(all: seq<Row>, limits: Limits): seq<Row> {
    if |all| <= limits.maxRows + 1 then all else all[..limits.maxRows + 1]
  }

  /** `all` are the rows the statement itself has. Fetching one row too many is enough to know
      whether the result is complete. */
  method Execute(columns: seq<string>, all: seq<Row>, quote: Quote, limits: Limits) returns (outcome: Execution)
    requires forall r :: r in all ==> |r| == |columns|
    ensures outcome.LimitExceeded? <==>
      || |columns| > limits.maxColumns || !Distinct(columns)
      || |Document(columns, [], quote)| > limits.maxBytes
    ensures outcome.Executed? ==>
      var result, encoded := outcome.result, EncodeRows(columns, all, quote);
      && result.columns == columns
      && IsLongestFit(columns, encoded, quote, limits, |result.rows|) && result.rows == encoded[..|result.rows|]
      && result.serializedBytes == |Document(columns, result.rows, quote)| <= limits.maxBytes
      && (result.truncated <==> |result.rows| < |all|)
  {
    DistinctIsCount(columns);
    if |columns| > limits.maxColumns || |Elements(columns)| != |columns| {
      return LimitExceeded;
    }
    var fetched := Fetched(all, limits);
    outcome := BoundedResult(columns, fetched, quote, limits);
    if outcome.Executed? {
      FetchIsEnough(columns, all, quote, limits, |outcome.result.rows|);
    }
  }

  lemma FetchIsEnough(columns: seq<string>, all: seq<Row>, quote: Quote, limits: Limits, n: nat)
    requires forall r :: r in all ==> |r| == |columns|
    requires IsLongestFit(columns, EncodeRows(columns, Fetched(all, limits), quote), quote, limits, n)
    ensures IsLongestFit(columns, EncodeRows(columns, all, quote), quote, limits, n)
    ensures EncodeRows(columns, Fetched(all, limits), quote)[..n] == EncodeRows(columns, all, quote)[..n]
    ensures n < |Fetched(all, limits)| <==> n < |all|
  {
    var some, every := EncodeRows(columns, Fetched(all, limits), quote), EncodeRows(columns, all, quote);
    assert some == every[..|some|];
    assert some[..n] == every[..n];
    if n < |some| && n < limits.maxRows {
      assert some[..n + 1] == every[..n + 1];
    }
  }
}
