/**
 * The script driver: `runQueries` reads a transaction script line by line,
 * classifies each record by its first comma-separated field, gathers the
 * detail lines of a New-Order record, runs the record's handler, counts the
 * records run and the ones whose handler threw, and keeps one timing sample
 * per record run.
 *
 * The script is a sequence of lines already in memory, each with the fields
 * `line.split(",")` gives (the splitting is the reader's). The handlers and the
 * clock are an oracle: whether the handler of transaction `id` throws on a
 * record, and the milliseconds it took.
 */
module ScriptDriver {
  import opened Wrappers
  import opened JavaLang

  /** The eight handlers, by the tag that selects them. */
  datatype TransactionType =
    | NewOrder | Payment | Delivery | OrderStatus | StockLevel | PopularItem | TopBalance | RelatedCustomer

  /** A record as dispatched: the handler, `line.split(",")`, and the detail lines (empty unless New-Order). */
  datatype Record = Record(kind: TransactionType, parameters: seq<string>, lines: seq<string>)

  /** What `calculator.ingestTime(type, lapse)` receives. */
  datatype Sample = Sample(kind: TransactionType, lapse: int)

  /** The oracle standing for the handlers' `execute` and the clock. */
  datatype Handlers = Handlers(throws: (int, Record) -> bool, lapse: (int, Record) -> int)

  datatype Counters = Counters(numQueries: int, skippedTransactions: int, samples: seq<Sample>)

  /** `runQueries` either reaches the end of the script or an exception escapes it. */
  datatype Outcome = Completed | Aborted

  /** A script line: its text, and its comma-separated fields as `line.split(",")` gives them. */
  datatype Line = Line(text: string, fields: seq<string>)

  /** The texts of `lines`, as the detail lines handed to a New-Order handler. */
  function Texts(lines: seq<Line>): seq<string>
  {
    seq(|lines|, i requires 0 <= i < |lines| => lines[i].text)
  }

  /** What the line at the read position starts. */
  datatype Decoded =
    | Unknown                                  // first field is not a known tag: skipped
    | Dispatch(record: Record, next: nat)      // a record and the position after its detail lines
    | Malformed                                // an exception escapes the loop

  // ---------------------------------------------------------------------
  // Scanner

  /** `Character.isWhitespace`. */
  predicate IsWhitespace(c: char)
  {
    c == ' ' || c == '\t' || c == '\n' || c == '\r' || c == '\U{000B}' || c == '\U{000C}' ||
    ('\U{001C}' <= c <= '\U{001F}') ||
    c == '\U{1680}' || ('\U{2000}' <= c <= '\U{2006}') || ('\U{2008}' <= c <= '\U{200A}') ||
    c == '\U{2028}' || c == '\U{2029}' || c == '\U{205F}' || c == '\U{3000}'
  }

  /** The line holds a non-whitespace character. */
  predicate HasToken(line: string)
  {
    line != [] && (!IsWhitespace(line[0]) || HasToken(line[1..]))
  }

  /** `scanner.hasNext()`: some non-whitespace character remains from line `pos` on. */
  predicate HasNext(input: seq<Line>, pos: nat)
    decreases |input| - pos
  {
    pos < |input| && (HasToken(input[pos].text) || HasNext(input, pos + 1))
  }

  // ---------------------------------------------------------------------
  // One record

  /** The `switch (parameters[0])` of `runQueries`: every tag is a one-character string. */
  function Classify(tag: string): Option<TransactionType>
  {
    if |tag| != 1 then None
    else
      match tag[0]
      case 'N' => Some(NewOrder)
      case 'P' => Some(Payment)
      case 'D' => Some(Delivery)
      case 'O' => Some(OrderStatus)
      case 'S' => Some(StockLevel)
      case 'I' => Some(PopularItem)
      case 'T' => Some(TopBalance)
      case 'R' => Some(RelatedCustomer)
      case _ => None
  }

  /** Exactly the eight tags select a handler, and only "N" selects New-Order. */
  lemma ClassifyTags(tag: string)
    ensures Classify(tag).Some? <==> tag in {"N", "P", "D", "O", "S", "I", "T", "R"}
    ensures Classify(tag) == Some(NewOrder) <==> tag == "N"
  {
    if |tag| == 1 {
      assert tag == [tag[0]];
    }
  }

  /**
   * The record whose line is at `pos`: `parameters[0]` selects the handler
   * (an empty split throws); a New-Order record takes the next
   * `parseInt(parameters[4])` lines, and throws when parameters[4] is
   * missing, is not an int or is negative, or when the script ends first.
   */
  function Decode(input: seq<Line>, pos: nat): (d: Decoded)
    requires pos < |input|
    ensures d.Dispatch? ==> pos < d.next <= |input| && d.record.parameters == input[pos].fields
    ensures input[pos].fields == [] ==> d.Malformed?
  {
    var parameters := input[pos].fields;
    if |parameters| == 0 then Malformed
    else
      match Classify(parameters[0])
      case None => Unknown
      case Some(NewOrder) =>
        if |parameters| <= 4 then Malformed
        else (
          match ParseInt(parameters[4])
          case None => Malformed
          case Some(moreLines) =>
            if moreLines < 0 || pos + 1 + moreLines > |input| then Malformed
            else Dispatch(Record(NewOrder, parameters, Texts(input[pos + 1..pos + 1 + moreLines])), pos + 1 + moreLines))
      case Some(kind) => Dispatch(Record(kind, parameters, []), pos + 1)
  }

  /**
   * The three outcomes of reading a record line, stated outright: an unknown
   * tag is skipped; a dispatched record carries the split line and, for
   * New-Order exactly parameters[4] detail lines taken from right after it,
   * for every other type none; the loop throws exactly on an empty split or
   * a New-Order line whose parameters[4] is missing, not an int, negative or
   * larger than the number of lines left.
   */
  lemma DecodeCases(input: seq<Line>, pos: nat)
    requires pos < |input|
    ensures var d := Decode(input, pos);
      && (d.Unknown? <==> |input[pos].fields| > 0 && Classify(input[pos].fields[0]).None?)
      && (d.Dispatch? ==>
            && d.record.parameters == input[pos].fields
            && |d.record.parameters| > 0
            && Classify(d.record.parameters[0]) == Some(d.record.kind)
            && pos < d.next <= |input|
            && d.record.lines == Texts(input[pos + 1..d.next]))
      && (d.Dispatch? && d.record.kind != NewOrder ==> d.record.lines == [])
      && (d.Dispatch? && d.record.kind == NewOrder ==>
            |d.record.parameters| > 4 && ParseInt(d.record.parameters[4]) == Some(|d.record.lines|))
      && (d.Malformed? <==>
            var parameters := input[pos].fields;
            || |parameters| == 0
            || (parameters[0] == "N" &&
                (|parameters| <= 4 || ParseInt(parameters[4]).None? ||
                 ParseInt(parameters[4]).value < 0 || ParseInt(parameters[4]).value > |input| - pos - 1)))
  {
  }

  /**
   * The counters after running `record` as transaction `numQueries + 1`:
   * one more query, one more skipped exactly when the handler throws, and
   * one sample of the record's type.
   */
  function Dispatched(c: Counters, record: Record, env: Handlers): (r: Counters)
    ensures r.numQueries == c.numQueries + 1
    ensures r.skippedTransactions == c.skippedTransactions + 1 <==> env.throws(c.numQueries + 1, record)
    ensures r.skippedTransactions == c.skippedTransactions <==> !env.throws(c.numQueries + 1, record)
    ensures r.samples == c.samples + [Sample(record.kind, env.lapse(c.numQueries + 1, record))]
  {
    var id := c.numQueries + 1;
    Counters(id, c.skippedTransactions + (if env.throws(id, record) then 1 else 0),
             c.samples + [Sample(record.kind, env.lapse(id, record))])
  }

  // ---------------------------------------------------------------------
  // The whole script

  /** `runQueries` from line `pos` with counters `c`: the final counters and how it ended. */
  function Run(input: seq<Line>, pos: nat, c: Counters, env: Handlers): (r: (Counters, Outcome))
    requires pos <= |input|
    ensures c.numQueries <= r.0.numQueries && c.skippedTransactions <= r.0.skippedTransactions
    ensures r.0.skippedTransactions - c.skippedTransactions <= r.0.numQueries - c.numQueries
    ensures c.samples <= r.0.samples
    decreases |input| - pos
  {
    if !HasNext(input, pos) then (c, Completed)
    else
      match Decode(input, pos)
      case Unknown => Run(input, pos + 1, c, env)
      case Malformed => (c.(numQueries := c.numQueries + 1), Aborted)
      case Dispatch(record, next) => Run(input, next, Dispatched(c, record, env), env)
  }

  /** The records `runQueries` dispatches from line `pos` on, where their lines are, and whether it aborts. */
  datatype Scan = Scan(records: seq<Record>, positions: seq<nat>, aborted: bool)

  /** The records dispatched from line `pos` on, in script order, with the lines they sit at. */
  function ScanRecords(input: seq<Line>, pos: nat): Scan
    requires pos <= |input|
    decreases |input| - pos
  {
    if !HasNext(input, pos) then Scan([], [], false)
    else
      match Decode(input, pos)
      case Unknown => ScanRecords(input, pos + 1)
      case Malformed => Scan([], [], true)
      case Dispatch(record, next) =>
        var rest := ScanRecords(input, next);
        Scan([record] + rest.records, [pos] + rest.positions, rest.aborted)
  }

  /**
   * The records in script order. Each sits at its position and its detail
   * lines are the lines right after it; the next record starts after them,
   * so no detail line is itself dispatched as a record.
   */
  lemma {:induction false} ScanLayout(input: seq<Line>, pos: nat)
    requires pos <= |input|
    ensures var s := ScanRecords(input, pos);
      && |s.positions| == |s.records|
      && (forall k | 0 <= k < |s.records| ::
            pos <= s.positions[k] < |input| &&
            Decode(input, s.positions[k]) == Dispatch(s.records[k], s.positions[k] + 1 + |s.records[k].lines|))
      && (forall k | 0 <= k < |s.records| - 1 :: s.positions[k] + 1 + |s.records[k].lines| <= s.positions[k + 1])
    decreases |input| - pos
  {
    if HasNext(input, pos) {
      DecodeCases(input, pos);
      match Decode(input, pos)
      case Unknown => ScanLayout(input, pos + 1);
      case Malformed =>
      case Dispatch(record, next) =>
        ScanLayout(input, next);
    }
  }

  /** How many of `records`, run as transactions `base + 1`, `base + 2`, …, throw. */
  function Skipped(records: seq<Record>, base: int, env: Handlers): nat
  {
    if records == [] then 0
    else (if env.throws(base + 1, records[0]) then 1 else 0) + Skipped(records[1..], base + 1, env)
  }

  /** The samples of `records`, run as transactions `base + 1`, `base + 2`, …: one per record, in order. */
  function Samples(records: seq<Record>, base: int, env: Handlers): seq<Sample>
  {
    if records == [] then []
    else [Sample(records[0].kind, env.lapse(base + 1, records[0]))] + Samples(records[1..], base + 1, env)
  }

  /** At most every record is skipped, and none is exactly when no handler throws. */
  lemma {:induction false} SkippedBounds(records: seq<Record>, base: int, env: Handlers)
    ensures Skipped(records, base, env) <= |records|
    ensures Skipped(records, base, env) == 0 <==> forall k | 0 <= k < |records| :: !env.throws(base + k + 1, records[k])
  {
    if records != [] {
      SkippedBounds(records[1..], base + 1, env);
      assert forall k | 1 <= k < |records| :: records[1..][k - 1] == records[k];
    }
  }

  /** One sample per record, in record order, under the record's type. */
  lemma {:induction false} SamplesInOrder(records: seq<Record>, base: int, env: Handlers)
    ensures |Samples(records, base, env)| == |records|
    ensures forall k | 0 <= k < |records| ::
      Samples(records, base, env)[k] == Sample(records[k].kind, env.lapse(base + k + 1, records[k]))
  {
    if records != [] {
      SamplesInOrder(records[1..], base + 1, env);
      assert forall k | 1 <= k < |records| :: records[1..][k - 1] == records[k];
    }
  }

  /** The counters after running `records` one after another, starting from `c`. */
  function Tally(c: Counters, records: seq<Record>, env: Handlers): Counters
    decreases |records|
  {
    if records == [] then c else Tally(Dispatched(c, records[0], env), records[1..], env)
  }

  /**
   * Running records one after another adds one query per record, one
   * skipped transaction per record whose handler throws, and one sample per
   * record in order; the k-th record is run as transaction
   * `numQueries + k + 1`.
   */
  lemma {:induction false} TallyCounts(c: Counters, records: seq<Record>, env: Handlers)
    ensures Tally(c, records, env) == Counters(
      c.numQueries + |records|,
      c.skippedTransactions + Skipped(records, c.numQueries, env),
      c.samples + Samples(records, c.numQueries, env))
    decreases |records|
  {
    if records != [] {
      var c' := Dispatched(c, records[0], env);
      TallyCounts(c', records[1..], env);
      assert c'.samples + Samples(records[1..], c.numQueries + 1, env) == c.samples + Samples(records, c.numQueries, env);
    }
  }

  /** `Run` from line `pos` is `Tally` over the records `ScanRecords` finds, plus the query that threw, if any. */
  ghost predicate RunIsTally(input: seq<Line>, pos: nat, c: Counters, env: Handlers)
    requires pos <= |input|
  {
    var s := ScanRecords(input, pos);
    var t := Tally(c, s.records, env);
    Run(input, pos, c, env) == if s.aborted then (t.(numQueries := t.numQueries + 1), Aborted) else (t, Completed)
  }

  lemma {:induction false} RunAsTally(input: seq<Line>, pos: nat, c: Counters, env: Handlers)
    requires pos <= |input|
    ensures RunIsTally(input, pos, c, env)
    decreases |input| - pos, 1
  {
    if HasNext(input, pos) {
      match Decode(input, pos)
      case Unknown =>
        RunAsTally(input, pos + 1, c, env);
        assert ScanRecords(input, pos) == ScanRecords(input, pos + 1);
        assert Run(input, pos, c, env) == Run(input, pos + 1, c, env);
      case Malformed =>
      case Dispatch(record, next) =>
        RunAsTallyDispatch(input, pos, c, env);
    }
  }

  /** The step of `RunAsTally` at a dispatched record. */
  lemma {:induction false} RunAsTallyDispatch(input: seq<Line>, pos: nat, c: Counters, env: Handlers)
    requires pos < |input| && HasNext(input, pos) && Decode(input, pos).Dispatch?
    ensures RunIsTally(input, pos, c, env)
    decreases |input| - pos, 0
  {
    var record, next := Decode(input, pos).record, Decode(input, pos).next;
    DecodeCases(input, pos);
    var c' := Dispatched(c, record, env);
    RunAsTally(input, next, c', env);
    var rest := ScanRecords(input, next);
    var records := [record] + rest.records;
    assert ScanRecords(input, pos) == Scan(records, [pos] + rest.positions, rest.aborted);
    assert Run(input, pos, c, env) == Run(input, next, c', env);
    assert records[1..] == rest.records;
    assert Tally(c, records, env) == Tally(c', rest.records, env);
  }

  /**
   * Over the whole script: `runQueries` aborts exactly when `ScanRecords`
   * meets a line that throws; `numQueries` grows by the number of records
   * dispatched (plus the record whose exception escaped, if any),
   * `skippedTransactions` by the number of them whose handler threw, and
   * the samples by one per record, in order; the k-th record is run as
   * transaction `numQueries + k + 1`.
   */
  lemma RunTally(input: seq<Line>, c: Counters, env: Handlers)
    ensures var s := ScanRecords(input, 0);
      && Run(input, 0, c, env).1 == (if s.aborted then Aborted else Completed)
      && Run(input, 0, c, env).0 == Counters(
           c.numQueries + |s.records| + (if s.aborted then 1 else 0),
           c.skippedTransactions + Skipped(s.records, c.numQueries, env),
           c.samples + Samples(s.records, c.numQueries, env))
  {
    RunAsTally(input, 0, c, env);
    TallyCounts(c, ScanRecords(input, 0).records, env);
  }

  /**
   * A line whose first field is not a known tag changes no counter and adds
   * no sample: it is skipped when a token remains, and when none does the
   * loop ends there or on the next line alike.
   */
  lemma UnknownRecordIgnored(input: seq<Line>, pos: nat, c: Counters, env: Handlers)
    requires pos < |input|
    requires |input[pos].fields| > 0 && Classify(input[pos].fields[0]).None?
    ensures Run(input, pos, c, env) == Run(input, pos + 1, c, env)
  {
    if HasNext(input, pos) {
      assert Decode(input, pos).Unknown?;
    } else {
      assert !HasNext(input, pos + 1);
    }
  }

  // ---------------------------------------------------------------------
  // The driver

  class Driver {
    var numQueries: int
    var skippedTransactions: int
    var samples: seq<Sample>

    constructor()
      ensures numQueries == 0 && skippedTransactions == 0 && samples == []
    {
      numQueries, skippedTransactions, samples := 0, 0, [];
    }

    function State(): Counters
      reads this
    {
      Counters(numQueries, skippedTransactions, samples)
    }

    /** `runQueries` over the script `input`: ends with the counters and outcome `Run` gives. */
    method RunQueries(input: seq<Line>, env: Handlers) returns (outcome: Outcome)
      modifies this
      ensures (State(), outcome) == Run(input, 0, old(State()), env)
    {
      var pos := 0;
      while HasNext(input, pos)
        invariant 0 <= pos <= |input|
        invariant Run(input, pos, State(), env) == Run(input, 0, old(State()), env)
        decreases |input| - pos
      {
        var next, aborted := RunRecord(input, pos, env);
        if aborted {
          return Aborted;
        }
        pos := next;
      }
      return Completed;
    }

    /**
     * One pass of the loop: read the line at `pos`, count it, classify it,
     * gather a New-Order record's detail lines, run the handler and take the
     * sample. `aborted` when an exception escapes the loop.
     */
    method RunRecord(input: seq<Line>, pos: nat, env: Handlers) returns (next: nat, aborted: bool)
      requires pos < |input|
      modifies this
      ensures aborted <==> Decode(input, pos).Malformed?
      ensures aborted ==> State() == old(State()).(numQueries := old(numQueries) + 1)
      ensures Decode(input, pos).Unknown? ==> next == pos + 1 && State() == old(State())
      ensures Decode(input, pos).Dispatch? ==>
        next == Decode(input, pos).next && State() == Dispatched(old(State()), Decode(input, pos).record, env)
    {
      numQueries := numQueries + 1;
      next := pos + 1;
      var parameters := input[pos].fields;
      var lines: seq<string> := [];
      if |parameters| == 0 {
        return next, true;
      }
      var kind := Classify(parameters[0]);
      if kind.None? {
        numQueries := numQueries - 1;
        return next, false;
      }
      if kind.value == NewOrder {
        if |parameters| <= 4 {
          return next, true;
        }
        var moreLines := ParseInt(parameters[4]);
        if moreLines.None? || moreLines.value < 0 {
          return next, true;
        }
        var complete;
        lines, complete := ReadDetailLines(input, next, moreLines.value);
        if !complete {
          return next, true;
        }
        next := next + moreLines.value;
      }
      var record := Record(kind.value, parameters, lines);
      if env.throws(numQueries, record) {
        skippedTransactions := skippedTransactions + 1;
      }
      samples := samples + [Sample(record.kind, env.lapse(numQueries, record))];
      aborted := false;
    }
  }

  /**
   * `lines[i] = scanner.nextLine()` for i below `count`, starting at line
   * `pos`; incomplete when the script ends first (`nextLine` throws).
   */
  method ReadDetailLines(input: seq<Line>, pos: nat, count: nat) returns (lines: seq<string>, complete: bool)
    requires pos <= |input|
    ensures complete <==> pos + count <= |input|
    ensures complete ==> lines == Texts(input[pos..pos + count])
  {
    var buffer := new string[count];
    var i := 0;
    while i < count
      invariant 0 <= i <= count
      invariant pos + i <= |input|
      invariant forall j | 0 <= j < i :: buffer[j] == input[pos + j].text
    {
      if pos + i >= |input| {
        return [], false;
      }
      buffer[i] := input[pos + i].text;
      i := i + 1;
    }
    return buffer[..], true;
  }
}
