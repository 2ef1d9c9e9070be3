/**
 * The row emitter of `buildah containers` (the `list` closure) and the two
 * outputs it produces from one ordered row sequence: text lines printed as
 * rows arrive, or one JSON document holding every row, printed at the end.
 */
module Emitter {
  import opened ContainerTypes
  import opened TextFormat

  /**
   * One printf of the command, by format and arguments: the heading, a table
   * row, a bare container ID (quiet mode), or the JSON array of the
   * accumulated records.
   */
  datatype Printed = Heading(truncate: bool) | TableRow(row: Row, truncate: bool) | BareID(id: string)
                   | JsonDocument(containers: seq<Row>)

  /** The characters a text printf writes, without its trailing newline. */
  function LineText(p: Printed): (text: string)
    requires !p.JsonDocument?
    ensures p.BareID? ==> text == p.id
  {
    match p
    case Heading(truncate) => Header(truncate)
    case TableRow(r, truncate) => RowLine(r, truncate)
    case BareID(id) => id
  }

  /** The heading is printed before the row with index 0 unless --noheading or --quiet is set. */
  predicate HeadingWanted(f: Flags)
  {
    !f.noheading && !f.quiet
  }

  /** The text line of one row: its bare container ID in quiet mode, the table row otherwise. */
  function RowText(r: Row, f: Flags): Printed
  {
    if f.quiet then BareID(r.containerID) else TableRow(r, f.Truncate())
  }

  /** What one text-mode call of the emitter prints for the row with index `n`. */
  function Emission(n: int, r: Row, f: Flags): seq<Printed>
  {
    (if n == 0 && HeadingWanted(f) then [Heading(f.Truncate())] else []) + [RowText(r, f)]
  }

  /** Text mode: the emitter's output for the rows in order, row `k` carrying index `k`. */
  function TextLines(rows: seq<Row>, f: Flags): seq<Printed>
  {
    if rows == [] then []
    else TextLines(rows[..|rows| - 1], f) + Emission(|rows| - 1, rows[|rows| - 1], f)
  }

  /** The whole standard output of a successful listing of `rows`. */
  function Render(rows: seq<Row>, f: Flags): seq<Printed>
  {
    if f.json then [JsonDocument(rows)] else TextLines(rows, f)
  }

  /** The number of heading lines a text listing of `rows` starts with. */
  function HeadingLines(rows: seq<Row>, f: Flags): nat
  {
    if rows != [] && HeadingWanted(f) then 1 else 0
  }

  /** Appending a row to a text listing keeps what was printed so far and adds that row's emission. */
  lemma TextLinesSnoc(rows: seq<Row>, r: Row, f: Flags)
    ensures TextLines(rows + [r], f) == TextLines(rows, f) + Emission(|rows|, r, f)
  {
    assert (rows + [r])[..|rows|] == rows;
  }

  /** A text listing is as long as its rows plus its heading. */
  lemma {:induction false} TextLinesLength(rows: seq<Row>, f: Flags)
    ensures |TextLines(rows, f)| == HeadingLines(rows, f) + |rows|
  {
    if rows != [] {
      TextLinesLength(rows[..|rows| - 1], f);
    }
  }

  /** The line of row `k` sits right after the heading, if any, and after the lines of rows 0..k. */
  lemma {:induction false} TextLineAt(rows: seq<Row>, f: Flags, k: nat)
    requires k < |rows|
    ensures |TextLines(rows, f)| == HeadingLines(rows, f) + |rows|
    ensures TextLines(rows, f)[HeadingLines(rows, f) + k] == RowText(rows[k], f)
  {
    TextLinesLength(rows, f);
    var init := rows[..|rows| - 1];
    var prefix := TextLines(init, f);
    var last := Emission(|init|, rows[|init|], f);
    assert TextLines(rows, f) == prefix + last;
    TextLinesLength(init, f);
    if k < |init| {
      TextLineAt(init, f, k);
      assert rows[k] == init[k];
      assert HeadingLines(init, f) == HeadingLines(rows, f);
      assert (prefix + last)[HeadingLines(init, f) + k] == prefix[HeadingLines(init, f) + k];
    } else {
      assert last[|last| - 1] == RowText(rows[k], f);
    }
  }

  /**
   * Text output is one line per row, in row order, preceded by exactly one
   * heading line when there is at least one row and neither --noheading nor
   * --quiet is set; an empty listing prints nothing at all.
   */
  lemma {:induction false} TextLinesShape(rows: seq<Row>, f: Flags)
    ensures var h := HeadingLines(rows, f);
            && |TextLines(rows, f)| == h + |rows|
            && (h == 1 ==> TextLines(rows, f)[0] == Heading(f.Truncate()))
            && forall k :: 0 <= k < |rows| ==> TextLines(rows, f)[h + k] == RowText(rows[k], f)
  {
    TextLinesLength(rows, f);
    forall k | 0 <= k < |rows| ensures TextLines(rows, f)[HeadingLines(rows, f) + k] == RowText(rows[k], f) {
      TextLineAt(rows, f, k);
    }
    if HeadingLines(rows, f) == 1 {
      TextLinesFirst(rows, f);
    }
  }

  /** A listing with a heading starts with it. */
  lemma {:induction false} TextLinesFirst(rows: seq<Row>, f: Flags)
    requires rows != [] && HeadingWanted(f)
    ensures |TextLines(rows, f)| > 0 && TextLines(rows, f)[0] == Heading(f.Truncate())
  {
    var init := rows[..|rows| - 1];
    if init != [] {
      TextLinesFirst(init, f);
    }
  }

  /** Quiet text output is exactly the container IDs, one per line, with no heading. */
  lemma {:induction false} QuietPrintsOnlyIDs(rows: seq<Row>, f: Flags)
    requires f.quiet
    ensures TextLines(rows, f) == seq(|rows|, k requires 0 <= k < |rows| => BareID(rows[k].containerID))
  {
    TextLinesShape(rows, f);
  }

  /**
   * JSON output is one document holding every row, in order and unchanged,
   * whatever --quiet, --noheading and --notruncate say; no rows give the
   * empty array. This only spells out `Render`'s JSON branch; that the
   * emitter actually accumulates every row and prints the document once is
   * the contract of `Lister.List`, `Lister.Finish` and `ContainersCmd`.
   */
  lemma JsonIgnoresTextFlags(rows: seq<Row>, f: Flags, g: Flags)
    requires f.json && g.json
    ensures Render(rows, f) == Render(rows, g) == [JsonDocument(rows)]
    ensures rows == [] ==> Render(rows, f) == [JsonDocument([])]
  {
  }

  /** The state of the `list` closure: the JSON records accumulated so far and what has been printed. */
  class Lister {
    const flags: Flags
    var jsonContainers: seq<Row>
    var stdout: seq<Printed>

    constructor (flags: Flags)
      ensures this.flags == flags && jsonContainers == [] && stdout == []
    {
      this.flags := flags;
      jsonContainers := [];
      stdout := [];
    }

    /** The emitter has been called once for each of `rows`, in order. */
    ghost predicate Emitted(rows: seq<Row>)
      reads this
    {
      if flags.json then jsonContainers == rows && stdout == []
      else jsonContainers == [] && stdout == TextLines(rows, flags)
    }

    /** Emits the row with index `n`: appended to the JSON records, or printed as text. */
    method List(n: int, r: Row)
      modifies this
      ensures flags.json ==> jsonContainers == old(jsonContainers) + [r] && stdout == old(stdout)
      ensures !flags.json ==> stdout == old(stdout) + Emission(n, r, flags) && jsonContainers == old(jsonContainers)
    {
      if flags.json {
        jsonContainers := jsonContainers + [r];
        return;
      }
      if n == 0 && !flags.noheading && !flags.quiet {
        stdout := stdout + [Heading(flags.Truncate())];
      }
      if flags.quiet {
        stdout := stdout + [BareID(r.containerID)];
      } else {
        stdout := stdout + [TableRow(r, flags.Truncate())];
      }
    }

    /** After the last row: in JSON mode, prints the accumulated records as one document. */
    method Finish(ghost rows: seq<Row>)
      requires Emitted(rows)
      modifies this
      ensures stdout == Render(rows, flags)
      ensures jsonContainers == old(jsonContainers)
    {
      if flags.json {
        stdout := stdout + [JsonDocument(jsonContainers)];
      }
    }
  }
}
