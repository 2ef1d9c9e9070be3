/**
 * The fixed-width text table of `buildah containers`: the `%-Ns` and
 * `%-N.Ns` verbs it is printed with, its heading line and its row line.
 * A line is the text of one printf call without its trailing newline.
 */
module TextFormat {
  import opened ContainerTypes

  function Max(a: int, b: int): int { if a < b then b else a }

  function Min(a: int, b: int): int { if a < b then a else b }

  function Spaces(n: nat): (r: string)
    ensures |r| == n
    ensures forall i :: 0 <= i < n ==> r[i] == ' '
  {
    seq(n, _ => ' ')
  }

  /** `%-<width>s`: left-justified, filled with spaces up to `width`, never clipped. */
  function PadRight(s: string, width: nat): (r: string)
    ensures |r| == Max(|s|, width)
    ensures r[..|s|] == s
    ensures forall i :: |s| <= i < |r| ==> r[i] == ' '
  {
    if |s| < width then s + Spaces(width - |s|) else s
  }

  /** `%-<width>.<width>s`: the first `width` characters of `s`, filled with spaces up to exactly `width`. */
  function ClipPad(s: string, width: nat): (r: string)
    ensures |r| == width
    ensures r[..Min(|s|, width)] == s[..Min(|s|, width)]
    ensures forall i :: Min(|s|, width) <= i < width ==> r[i] == ' '
  {
    PadRight(s[..Min(|s|, width)], width)
  }

  /** The marker in the BUILDER column: three spaces and a star for a container buildah manages. */
  function BuilderValue(isBuilder: bool): string
  {
    if isBuilder then "   *" else ""
  }

  /** The heading line; column widths 12/8/12/32 when truncating, 64/8/64/32 otherwise. */
  function Header(truncate: bool): string
  {
    if truncate then
      PadRight("CONTAINER ID", 12) + "  " + PadRight("BUILDER", 8) + " " + PadRight("IMAGE ID", 12) + " "
      + PadRight("IMAGE NAME", 32) + " " + "CONTAINER NAME"
    else
      PadRight("CONTAINER ID", 64) + " " + PadRight("BUILDER", 8) + " " + PadRight("IMAGE ID", 64) + " "
      + PadRight("IMAGE NAME", 32) + " " + "CONTAINER NAME"
  }

  /** The line of one row outside quiet mode. */
  function RowLine(r: Row, truncate: bool): string
  {
    if truncate then
      ClipPad(r.containerID, 12) + "  " + PadRight(BuilderValue(r.builder), 8) + " " + ClipPad(r.imageID, 12) + " "
      + PadRight(r.imageName, 32) + " " + r.containerName
    else
      PadRight(r.containerID, 64) + " " + PadRight(BuilderValue(r.builder), 8) + " " + PadRight(r.imageID, 64) + " "
      + PadRight(r.imageName, 32) + " " + r.containerName
  }

  /** A string is the `%-<width>s` form of `s` when it is `s` followed by just enough blanks. */
  lemma PaddedTo(s: string, width: nat, t: string)
    requires |t| == Max(|s|, width) && t[..|s|] == s
    requires forall i :: |s| <= i < |t| ==> t[i] == ' '
    ensures PadRight(s, width) == t
  {
    var p := PadRight(s, width);
    forall i | 0 <= i < |t| ensures p[i] == t[i] {
      if i < |s| {
        assert p[..|s|][i] == t[..|s|][i];
      }
    }
  }

  /** The eight characters of the BUILDER column. */
  function BuilderColumn(isBuilder: bool): (col: string)
    ensures |col| == 8
  {
    if isBuilder then "   *    " else "        "
  }

  lemma BuilderColumnIsPadded(isBuilder: bool)
    ensures PadRight(BuilderValue(isBuilder), 8) == BuilderColumn(isBuilder)
  {
    PaddedTo(BuilderValue(isBuilder), 8, BuilderColumn(isBuilder));
  }

  /** Where the five fields of a table line lie, for fields of any lengths. */
  lemma Columns(a: string, gap: string, b: string, c: string, d: string, e: string)
    ensures var line := a + gap + b + " " + c + " " + d + " " + e;
            var o1 := |a| + |gap|;
            var o2 := o1 + |b| + 1;
            var o3 := o2 + |c| + 1;
            var o4 := o3 + |d| + 1;
            && |line| == o4 + |e|
            && line[..|a|] == a
            && line[|a|..o1] == gap
            && line[o1..o1 + |b|] == b && line[o2 - 1] == ' '
            && line[o2..o2 + |c|] == c && line[o3 - 1] == ' '
            && line[o3..o3 + |d|] == d && line[o4 - 1] == ' '
            && line[o4..] == e
  {
  }

  /**
   * In truncate mode a row line has its columns at fixed offsets: the
   * container ID in 0..12 (clipped to its first 12 characters and padded),
   * two spaces, the builder marker in 14..22, the image ID in 23..35 (clipped
   * and padded), the image name from 36 padded to at least 32 and never
   * clipped, and the container name last.
   */
  lemma TruncatedRowLayout(r: Row)
    ensures var line := RowLine(r, true);
            var w := Max(|r.imageName|, 32);
            && |line| == 37 + w + |r.containerName|
            && line[..12] == ClipPad(r.containerID, 12)
            && line[12..14] == "  "
            && line[14..22] == BuilderColumn(r.builder)
            && line[22] == ' '
            && line[23..35] == ClipPad(r.imageID, 12)
            && line[35] == ' '
            && line[36..36 + w] == PadRight(r.imageName, 32)
            && line[36 + w] == ' '
            && line[37 + w..] == r.containerName
  {
    BuilderColumnIsPadded(r.builder);
    Columns(ClipPad(r.containerID, 12), "  ", BuilderColumn(r.builder), ClipPad(r.imageID, 12),
            PadRight(r.imageName, 32), r.containerName);
  }

  /** In truncate mode the heading's titles start at the same offsets 0, 14, 23, 36 and 69 as the row fields. */
  lemma TruncatedHeaderLayout()
    ensures var line := Header(true);
            && |line| == 83
            && line[..12] == "CONTAINER ID"
            && line[12..14] == "  "
            && line[14..22] == "BUILDER "
            && line[22] == ' '
            && line[23..35] == "IMAGE ID    "
            && line[35] == ' '
            && line[36..68] == PadRight("IMAGE NAME", 32)
            && line[68] == ' '
            && line[69..] == "CONTAINER NAME"
  {
    TruncatedTitles();
    Columns("CONTAINER ID", "  ", "BUILDER ", "IMAGE ID    ", PadRight("IMAGE NAME", 32), "CONTAINER NAME");
  }

  lemma TruncatedTitles()
    ensures PadRight("CONTAINER ID", 12) == "CONTAINER ID"
    ensures PadRight("BUILDER", 8) == "BUILDER "
    ensures PadRight("IMAGE ID", 12) == "IMAGE ID    "
  {
    PaddedTo("CONTAINER ID", 12, "CONTAINER ID");
    PaddedTo("BUILDER", 8, "BUILDER ");
    PaddedTo("IMAGE ID", 12, "IMAGE ID    ");
  }

  /**
   * In notruncate mode nothing is clipped, whatever the field lengths: the
   * line starts with the whole container ID; the whole image ID starts 10
   * columns after the container ID's field (padded to at least 64), the
   * whole image name one column after the image ID's field (padded to at
   * least 64), and the container name ends the line, one column after the
   * image name's field (padded to at least 32).
   */
  lemma UntruncatedRowNeverClips(r: Row)
    ensures var line := RowLine(r, false);
            var o2 := Max(|r.containerID|, 64) + 10;
            var o3 := o2 + Max(|r.imageID|, 64) + 1;
            var o4 := o3 + Max(|r.imageName|, 32) + 1;
            && |line| == o4 + |r.containerName|
            && |line| >= 172 + |r.containerName|
            && line[..|r.containerID|] == r.containerID
            && line[o2..o2 + |r.imageID|] == r.imageID
            && line[o3..o3 + |r.imageName|] == r.imageName
            && line[o4..] == r.containerName
  {
    var b := PadRight(BuilderValue(r.builder), 8);
    UnclippedFields(PadRight(r.containerID, 64), b, PadRight(r.imageID, 64), PadRight(r.imageName, 32),
                    r.containerName, r.containerID, r.imageID, r.imageName);
  }

  /**
   * A line of four single-blank-separated fields and a last one, whose ID,
   * image ID and image-name fields start with `x`, `y` and `z`, shows each of
   * them whole at its field's offset.
   */
  lemma UnclippedFields(a: string, b: string, c: string, d: string, e: string, x: string, y: string, z: string)
    requires |x| <= |a| && a[..|x|] == x
    requires |y| <= |c| && c[..|y|] == y
    requires |z| <= |d| && d[..|z|] == z
    ensures var line := a + " " + b + " " + c + " " + d + " " + e;
            var o2 := |a| + |b| + 2;
            var o3 := o2 + |c| + 1;
            var o4 := o3 + |d| + 1;
            && |line| == o4 + |e|
            && line[..|x|] == x
            && line[o2..o2 + |y|] == y
            && line[o3..o3 + |z|] == z
            && line[o4..] == e
  {
    var front := a + " " + b + " ";
    var back := " " + e;
    var line := front + c + " " + d + back;
    assert line == a + " " + b + " " + c + " " + d + " " + e;
    assert line[..|a|] == a;
    assert line[|front|..|front| + |c|] == c;
    assert line[|front| + |c| + 1..|front| + |c| + 1 + |d|] == d;
    assert line[|front| + |c| + 1 + |d| + 1..] == e;
    WholeField(line, 0, a, x);
    WholeField(line, |front|, c, y);
    WholeField(line, |front| + |c| + 1, d, z);
  }

  /** A field that starts with `s` and sits at `lo` in a line puts the whole of `s` at `lo`. */
  lemma WholeField(line: string, lo: nat, field: string, s: string)
    requires lo + |field| <= |line| && line[lo..lo + |field|] == field
    requires |s| <= |field| && field[..|s|] == s
    ensures line[lo..lo + |s|] == s
  {
    assert line[lo..lo + |s|] == line[lo..lo + |field|][..|s|];
  }

  /** In notruncate mode, when both IDs fit in 64 characters, the fields sit at offsets 0, 65, 74 and 139. */
  lemma UntruncatedRowLayout(r: Row)
    requires |r.containerID| <= 64 && |r.imageID| <= 64
    ensures var line := RowLine(r, false);
            && line[..64] == PadRight(r.containerID, 64)
            && line[64] == ' '
            && line[65..73] == BuilderColumn(r.builder)
            && line[73] == ' '
            && line[74..138] == PadRight(r.imageID, 64)
            && line[138] == ' '
            && line[139..139 + Max(|r.imageName|, 32)] == PadRight(r.imageName, 32)
  {
    BuilderColumnIsPadded(r.builder);
    Columns(PadRight(r.containerID, 64), " ", BuilderColumn(r.builder), PadRight(r.imageID, 64),
            PadRight(r.imageName, 32), r.containerName);
  }

  /** In notruncate mode the heading's titles start at offsets 0, 65, 74, 139 and 172. */
  lemma UntruncatedHeaderLayout()
    ensures var line := Header(false);
            && |line| == 186
            && line[..64] == PadRight("CONTAINER ID", 64)
            && line[64] == ' '
            && line[65..73] == "BUILDER "
            && line[73] == ' '
            && line[74..138] == PadRight("IMAGE ID", 64)
            && line[138] == ' '
            && line[139..171] == PadRight("IMAGE NAME", 32)
            && line[171] == ' '
            && line[172..] == "CONTAINER NAME"
  {
    PaddedTo("BUILDER", 8, "BUILDER ");
    Columns(PadRight("CONTAINER ID", 64), " ", "BUILDER ", PadRight("IMAGE ID", 64), PadRight("IMAGE NAME", 32),
            "CONTAINER NAME");
  }
}
