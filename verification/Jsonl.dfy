/**
 The JSON Lines form of a DID log: parsing it, keeping its raw lines and appending to it
 (swiyu-core/src/didlog/mod.rs, swiyu-didtool/src/cmd/didlog.rs, swiyu-didtool/src/cmd/did/rotate.rs).
 */
module Jsonl {
  import opened Basics
  import opened Text
  import opened Json
  import opened LogEntry

  /** The JSON text library. */
  datatype JsonText = JsonText(print_: Json -> string, parse: string -> Result<Json, string>)

  predicate PlainLine(line: string) {
    line != "" && '\n' !in line && !IsWhitespace(line[0]) && !IsWhitespace(line[|line| - 1])
  }

  ghost predicate LawfulText(t: JsonText) {
    forall v :: t.parse(t.print_(v)) == Ok(v) && PlainLine(t.print_(v))
  }

  /** One trimmed line as an entry. */
  function ParseEntryText(t: JsonText, line: string): Result<LogEntry, LogError> {
    match t.parse(line)
    case Err(msg) => Err(InvalidFormat(msg))
    case Ok(v) => EntryFromJson(v)
  }

  /** Every parse error is reported as a format error with the 1-based line number. */
  function AtLine(n: nat, e: LogError): LogError {
    var at := "line " + Decimal(n) + ": ";
    match e
    case InvalidFormat(msg) => InvalidFormat(at + msg)
    case MissingField(field) => InvalidFormat(at + "missing field '" + field + "'")
    case InvalidFieldType(msg) => InvalidFormat(at + msg)
  }

  predicate Blank(line: string) {
    Trim(line) == ""
  }

  function ParseLines(t: JsonText, lines: seq<string>, n: nat): Result<seq<LogEntry>, LogError> {
    if lines == [] then Ok([])
    else if Blank(lines[0]) then ParseLines(t, lines[1..], n + 1)
    else
      match ParseEntryText(t, Trim(lines[0]))
      case Err(e) => Err(AtLine(n, e))
      case Ok(entry) =>
        var rest :- ParseLines(t, lines[1..], n + 1);
        Ok([entry] + rest)
  }

  function FromJsonl(t: JsonText, text: string): Result<seq<LogEntry>, LogError> {
    ParseLines(t, Lines(text), 1)
  }

  function After(entries: seq<LogEntry>, r: Result<seq<LogEntry>, LogError>): Result<seq<LogEntry>, LogError> {
    if r.Ok? then Ok(entries + r.value) else r
  }

  /** The error of line number `n`, whose text did not parse for the reason `e`. */
  predicate ReportsLine(error: LogError, n: nat, e: LogError) {
    && error.InvalidFormat?
    && match e
       case InvalidFormat(msg) => error.msg == "line " + Decimal(n) + ": " + msg
       case MissingField(field) => error.msg == "line " + Decimal(n) + ": " + ("missing field '" + field + "'")
       case InvalidFieldType(msg) => error.msg == "line " + Decimal(n) + ": " + msg
  }

  predicate BadLine(t: JsonText, line: string) {
    !Blank(line) && ParseEntryText(t, Trim(line)).Err?
  }

  lemma {:induction false} LineIsReported(t: JsonText, lines: seq<string>, n: nat, k: nat)
    requires k < |lines| && BadLine(t, lines[k]) && forall j | 0 <= j < k :: !BadLine(t, lines[j])
    ensures var r := ParseLines(t, lines, n);
            r.Err? && ReportsLine(r.error, n + k, ParseEntryText(t, Trim(lines[k])).error)
  {
    hide ParseEntryText, Trim, Decimal;
    if k > 0 {
      assert !BadLine(t, lines[0]);
      assert lines[1..][k - 1] == lines[k];
      LineIsReported(t, lines[1..], n + 1, k - 1);
    }
  }

  lemma {:induction false} GoodLinesParse(t: JsonText, lines: seq<string>, n: nat)
    requires forall line | line in lines :: !BadLine(t, line)
    ensures ParseLines(t, lines, n).Ok?
  {
    hide ParseEntryText, Trim, AtLine;
    if lines == [] {
    } else {
      assert lines[0] in lines;
      GoodLinesParse(t, lines[1..], n + 1);
    }
  }

  /**
   A log parses exactly when no line is bad, and otherwise the error is that of its first bad line, under
   its number counted from one with the blank lines.
   */
  lemma ErrorIsFirstBadLine(t: JsonText, text: string, k: nat)
    requires k <= |Lines(text)| && forall j | 0 <= j < k :: !BadLine(t, Lines(text)[j])
    ensures k == |Lines(text)| ==> FromJsonl(t, text).Ok?
    ensures k < |Lines(text)| && BadLine(t, Lines(text)[k]) ==>
              var r := FromJsonl(t, text);
              r.Err? && ReportsLine(r.error, k + 1, ParseEntryText(t, Trim(Lines(text)[k])).error)
  {
    hide ParseEntryText, Trim, ParseLines, Lines, BadLine, ReportsLine;
    if k == |Lines(text)| {
      GoodLinesParse(t, Lines(text), 1);
    } else if BadLine(t, Lines(text)[k]) {
      LineIsReported(t, Lines(text), 1, k);
    }
  }

  method TryFromJsonl(t: JsonText, text: string) returns (r: Result<seq<LogEntry>, LogError>)
    ensures r == FromJsonl(t, text)
  {
    var lines := Lines(text);
    var entries: seq<LogEntry> := [];
    hide ParseEntryText, Trim, AtLine, Lines;
    assert lines[0..] == lines;
    assert forall x: seq<LogEntry> :: [] + x == x && x + [] == x;
    for i := 0 to |lines|
      invariant FromJsonl(t, text) == After(entries, ParseLines(t, lines[i..], i + 1))
    {
      assert lines[i..][0] == lines[i] && lines[i..][1..] == lines[i + 1..];
      var trimmed := Trim(lines[i]);
      if trimmed != "" {
        match ParseEntryText(t, trimmed)
        case Err(e) =>
          return Err(AtLine(i + 1, e));
        case Ok(entry) =>
          ghost var rest := ParseLines(t, lines[i + 1..], i + 2);
          assert rest.Ok? ==> entries + ([entry] + rest.value) == entries + [entry] + rest.value;
          entries := entries + [entry];
      }
    }
    assert lines[|lines|..] == [];
    return Ok(entries);
  }

  function NonBlank(lines: seq<string>): seq<string> {
    if lines == [] then []
    else if Blank(lines[0]) then NonBlank(lines[1..])
    else [lines[0]] + NonBlank(lines[1..])
  }

  /** `collect_raw_lines`: the non-blank lines, untrimmed. */
  function CollectRawLines(text: string): seq<string> {
    NonBlank(Lines(text))
  }

  /** Raw line `i` is the text of entry `i`. */
  predicate Aligned(t: JsonText, raw: seq<string>, entries: seq<LogEntry>) {
    |raw| == |entries| &&
    forall i | 0 <= i < |raw| ::
      '\n' !in raw[i] && !Blank(raw[i]) && ParseEntryText(t, Trim(raw[i])) == Ok(entries[i])
  }

  lemma {:induction false} LinesHaveNoNewline(text: string)
    ensures forall l | l in Lines(text) :: '\n' !in l
    decreases |text|
  {
    match IndexOf(text, '\n')
    case None =>
    case Some(i) =>
      LinesHaveNoNewline(text[i + 1..]);
      assert '\n' !in StripCr(text[..i]);
      hide IndexOf, StripCr;
      assert Lines(text) == [StripCr(text[..i])] + Lines(text[i + 1..]);
  }

  lemma {:induction false} ParsedLinesAligned(t: JsonText, lines: seq<string>, n: nat)
    requires ParseLines(t, lines, n).Ok? && forall l | l in lines :: '\n' !in l
    ensures Aligned(t, NonBlank(lines), ParseLines(t, lines, n).value)
  {
    hide ParseEntryText, Trim, Blank, AtLine;
    if lines == [] {
    } else {
      assert lines[0] in lines;
      ParsedLinesAligned(t, lines[1..], n + 1);
    }
  }

  /** The raw lines of a text that parses match its entries one to one. */
  lemma RawLinesMatchEntries(t: JsonText, text: string)
    requires FromJsonl(t, text).Ok?
    ensures Aligned(t, CollectRawLines(text), FromJsonl(t, text).value)
  {
    LinesHaveNoNewline(text);
    ParsedLinesAligned(t, Lines(text), 1);
  }

  function Terminated(lines: seq<string>): string {
    if lines == [] then "" else lines[0] + "\n" + Terminated(lines[1..])
  }

  function UpdatedLog(rawLines: seq<string>, newLine: string): string {
    Terminated(rawLines) + newLine
    + (if newLine != "" && newLine[|newLine| - 1] == '\n' then "" else "\n")
  }

  lemma {:induction false} TerminatedAppend(lines: seq<string>, line: string)
    ensures Terminated(lines + [line]) == Terminated(lines) + (line + "\n")
  {
    if lines == [] {
      assert [] + [line] == [line] && [line][1..] == [];
    } else {
      assert (lines + [line])[1..] == lines[1..] + [line];
      TerminatedAppend(lines[1..], line);
      assert lines[0] + "\n" + (Terminated(lines[1..]) + (line + "\n")) == lines[0] + "\n" + Terminated(lines[1..])
          + (line + "\n");
    }
  }

  method BuildUpdatedLog(rawLines: seq<string>, newLine: string) returns (updated: string)
    ensures updated == UpdatedLog(rawLines, newLine)
  {
    updated := "";
    for i := 0 to |rawLines|
      invariant updated == Terminated(rawLines[..i])
    {
      assert rawLines[..i + 1] == rawLines[..i] + [rawLines[i]];
      TerminatedAppend(rawLines[..i], rawLines[i]);
      updated := updated + rawLines[i];
      updated := updated + "\n";
    }
    assert rawLines[..|rawLines|] == rawLines;
    updated := updated + newLine;
    if !(newLine != "" && newLine[|newLine| - 1] == '\n') {
      updated := updated + "\n";
    }
  }

  lemma {:induction false} TerminatedParses(t: JsonText, raw: seq<string>, entries: seq<LogEntry>, n: nat)
    requires Aligned(t, raw, entries)
    ensures ParseLines(t, Lines(Terminated(raw)), n) == Ok(entries)
    decreases |raw|
  {
    hide ParseEntryText, Trim, StripCr, Lines, ParseLines;
    if raw == [] {
      NoLines(t, n);
      assert entries == [];
    } else {
      assert '\n' !in raw[0] && !Blank(raw[0]) && ParseEntryText(t, Trim(raw[0])) == Ok(entries[0]);
      assert Aligned(t, raw[1..], entries[1..]);
      TerminatedParses(t, raw[1..], entries[1..], n + 1);
      LinesOfFirst(raw[0], Terminated(raw[1..]));
      TrimIgnoresCr(raw[0]);
      FirstLineParses(t, StripCr(raw[0]), Lines(Terminated(raw[1..])), entries[0], entries[1..], n);
      assert [entries[0]] + entries[1..] == entries;
    }
  }

  lemma NoLines(t: JsonText, n: nat)
    ensures ParseLines(t, Lines(Terminated([])), n) == Ok([])
  {
  }

  lemma FirstLineParses(t: JsonText, line: string, lines: seq<string>, e: LogEntry, rest: seq<LogEntry>, n: nat)
    requires !Blank(line) && ParseEntryText(t, Trim(line)) == Ok(e) && ParseLines(t, lines, n + 1) == Ok(rest)
    ensures ParseLines(t, [line] + lines, n) == Ok([e] + rest)
  {
    assert ([line] + lines)[1..] == lines;
  }

  /** Appending one valid line keeps every old entry and adds exactly the new one. */
  lemma AppendPreservesLog(t: JsonText, text: string, newLine: string, e: LogEntry)
    requires FromJsonl(t, text).Ok?
    requires '\n' !in newLine && !Blank(newLine) && ParseEntryText(t, Trim(newLine)) == Ok(e)
    ensures FromJsonl(t, UpdatedLog(CollectRawLines(text), newLine)) == Ok(FromJsonl(t, text).value + [e])
  {
    var raw, entries := CollectRawLines(text), FromJsonl(t, text).value;
    RawLinesMatchEntries(t, text);
    assert newLine != "";
    TerminatedAppend(raw, newLine);
    assert UpdatedLog(raw, newLine) == Terminated(raw + [newLine]);
    assert Aligned(t, raw + [newLine], entries + [e]);
    TerminatedParses(t, raw + [newLine], entries + [e], 1);
  }

  lemma {:induction false} NumberIsForErrors(t: JsonText, lines: seq<string>, m: nat, n: nat)
    requires ParseLines(t, lines, m).Ok?
    ensures ParseLines(t, lines, n) == ParseLines(t, lines, m)
  {
    hide ParseEntryText, Trim, Blank, AtLine;
    if lines == [] {
    } else {
      NumberIsForErrors(t, lines[1..], m + 1, n + 1);
    }
  }

  /** A line put in front of a log is one entry more at its start. */
  lemma PrependedLine(t: JsonText, text: string, line: string, e: LogEntry)
    requires FromJsonl(t, text).Ok?
    requires '\n' !in line && !Blank(line) && ParseEntryText(t, Trim(line)) == Ok(e)
    ensures FromJsonl(t, line + "\n" + text) == Ok([e] + FromJsonl(t, text).value)
  {
    hide ParseEntryText, Trim, StripCr, Lines, ParseLines;
    LinesOfFirst(line, text);
    TrimIgnoresCr(line);
    NumberIsForErrors(t, Lines(text), 1, 2);
    FirstLineParses(t, StripCr(line), Lines(text), e, FromJsonl(t, text).value, 1);
  }

  /** A printed entry is a line that parses to the entry, up to its normalised parameters. */
  lemma PrintedEntryParses(t: JsonText, e: LogEntry)
    requires LawfulText(t) && e.parameters.format == e.format
    ensures var line := t.print_(e.ToJson());
            '\n' !in line && !Blank(line) && ParseEntryText(t, Trim(line)) == Ok(e.Normalise())
  {
    hide LogEntry.ToJson, EntryFromJson, LogParameters.Normalise;
    ParsePrintedEntry(e);
    var line := t.print_(e.ToJson());
    assert PlainLine(line);
    TrimKeeps(line);
  }
}
