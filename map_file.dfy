/**
 * The text of a map file as the main window reads and writes it: splitting
 * the loaded text into lines and fields, picking out the "system" rows, and
 * the layout of the saved file (star rows, a blank line, one colony row per
 * owned star, and the closing block when any star is owned).
 */
module MapFile {
  import opened Wrappers
  import opened Text
  import opened StarViewModels

  /** The line terminator StringBuilder.AppendLine writes on Windows. */
  const NewLine: string := "\r\n"

  // ---------------------------------------------------------------------
  // Splitting (String.Split)
  // ---------------------------------------------------------------------

  /** The fields of s between separators, empty fields included. */
  function Split(s: string, seps: set<char>): seq<string> {
    if |s| == 0 then [""]
    else
      var init := Split(s[..|s| - 1], seps);
      var c := s[|s| - 1];
      if c in seps then init + [""]
      else init[..|init| - 1] + [init[|init| - 1] + [c]]
  }

  /** The number of separator characters in s. */
  function SepCount(s: string, seps: set<char>): nat {
    if |s| == 0 then 0
    else SepCount(s[..|s| - 1], seps) + (if s[|s| - 1] in seps then 1 else 0)
  }

  /** The fields joined back with one separator between them. */
  function Join(fields: seq<string>, sep: char): string {
    if |fields| == 0 then ""
    else if |fields| == 1 then fields[0]
    else Join(fields[..|fields| - 1], sep) + [sep] + fields[|fields| - 1]
  }

  /** Split yields one field more than there are separators, and no field holds a separator. */
  lemma {:induction false} SplitFields(s: string, seps: set<char>)
    ensures |Split(s, seps)| == SepCount(s, seps) + 1
    ensures forall i, k :: 0 <= i < |Split(s, seps)| && 0 <= k < |Split(s, seps)[i]| ==> Split(s, seps)[i][k] !in seps
  {
    if |s| > 0 {
      var p, c := s[..|s| - 1], s[|s| - 1];
      var init := Split(p, seps);
      SplitFields(p, seps);
      if c in seps {
        var r := init + [""];
        assert Split(s, seps) == r;
        forall i, k | 0 <= i < |r| && 0 <= k < |r[i]|
          ensures r[i][k] !in seps
        {
          assert i < |init| && r[i] == init[i];
        }
      } else {
        var last := init[|init| - 1];
        var r := init[..|init| - 1] + [last + [c]];
        assert Split(s, seps) == r;
        forall i, k | 0 <= i < |r| && 0 <= k < |r[i]|
          ensures r[i][k] !in seps
        {
          if i < |init| - 1 {
            assert r[i] == init[i];
          } else if k < |last| {
            assert r[i][k] == last[k];
          }
        }
      }
    }
  }

  /** Splitting on one character and joining with it gives the line back. */
  lemma {:induction false} JoinSplit(s: string, sep: char)
    ensures Join(Split(s, {sep}), sep) == s
  {
    if |s| > 0 {
      var p, c := s[..|s| - 1], s[|s| - 1];
      JoinSplit(p, sep);
      SplitFields(p, {sep});
      JoinSplitStep(Split(p, {sep}), p, c, sep);
      assert s == p + [c];
    }
  }

  /** Appending one character to a split line: a new empty field, or a longer last field. */
  lemma JoinSplitStep(init: seq<string>, p: string, c: char, sep: char)
    requires |init| > 0 && Join(init, sep) == p
    ensures c == sep ==> Join(init + [""], sep) == p + [c]
    ensures c != sep ==> Join(init[..|init| - 1] + [init[|init| - 1] + [c]], sep) == p + [c]
  {
    if c == sep {
      var r := init + [""];
      assert r[..|r| - 1] == init;
    } else {
      var last := init[|init| - 1];
      var front := init[..|init| - 1];
      var r := front + [last + [c]];
      if |init| > 1 {
        assert r[..|r| - 1] == front;
        assert Join(r, sep) == Join(front, sep) + [sep] + (last + [c]);
        assert p == Join(front, sep) + [sep] + last;
      } else {
        assert r == [last + [c]];
      }
    }
  }

  /** The fields that are not empty (StringSplitOptions.RemoveEmptyEntries). */
  function NonEmpty(fields: seq<string>): (r: seq<string>)
    ensures forall i :: 0 <= i < |r| ==> r[i] != "" && r[i] in fields
    ensures forall f :: f in fields && f != "" ==> f in r
  {
    if |fields| == 0 then []
    else
      var init := NonEmpty(fields[..|fields| - 1]);
      var f := fields[|fields| - 1];
      assert forall g :: g in fields[..|fields| - 1] ==> g in fields;
      if f == "" then init else init + [f]
  }

  /** The lines of a file: split on carriage return and line feed, blank lines dropped. */
  function SplitLines(text: string): seq<string> {
    NonEmpty(Split(text, {'\r', '\n'}))
  }

  /** Every line is non-empty and holds no line break. */
  lemma SplitLinesClean(text: string)
    ensures forall i :: 0 <= i < |SplitLines(text)| ==> SplitLines(text)[i] != ""
    ensures forall i, k :: 0 <= i < |SplitLines(text)| && 0 <= k < |SplitLines(text)[i]| ==>
              SplitLines(text)[i][k] != '\r' && SplitLines(text)[i][k] != '\n'
  {
    var fields := Split(text, {'\r', '\n'});
    SplitFields(text, {'\r', '\n'});
    forall i, k | 0 <= i < |SplitLines(text)| && 0 <= k < |SplitLines(text)[i]|
      ensures SplitLines(text)[i][k] != '\r' && SplitLines(text)[i][k] != '\n'
    {
      var line := SplitLines(text)[i];
      var j :| 0 <= j < |fields| && fields[j] == line;
      assert fields[j][k] !in {'\r', '\n'};
    }
  }

  // ---------------------------------------------------------------------
  // Loading
  // ---------------------------------------------------------------------

  /** The prefix that marks a star row. */
  const SystemTag: string := "system"

  /**
   * A star row: a line starting with "system" with at least four comma
   * fields whose second to fourth parse as numbers. Number parsing is a
   * parameter.
   */
  function ParseRow(line: string, parse: string -> Option<real>): Option<StarData> {
    if !(SystemTag <= line) then None
    else
      var parts := Split(line, {','});
      if |parts| < 4 then None
      else
        match (parse(parts[1]), parse(parts[2]), parse(parts[3]))
        case (Some(x), Some(y), Some(z)) => Some(StarData(x, y, z, line))
        case _ => None
  }

  /** The stars of the lines that are star rows, in order. */
  function Loaded(lines: seq<string>, parse: string -> Option<real>): seq<StarData> {
    if |lines| == 0 then []
    else
      var init := Loaded(lines[..|lines| - 1], parse);
      match ParseRow(lines[|lines| - 1], parse)
      case None => init
      case Some(s) => init + [s]
  }

  /** One more line adds its star exactly when it is a star row. */
  lemma LoadedSnoc(lines: seq<string>, i: int, parse: string -> Option<real>)
    requires 0 <= i < |lines|
    ensures Loaded(lines[..i + 1], parse)
         == Loaded(lines[..i], parse) + (if ParseRow(lines[i], parse).Some? then [ParseRow(lines[i], parse).value] else [])
  {
    assert lines[..i + 1][..i] == lines[..i];
  }

  /**
   * Every loaded star comes from one of the lines: that line starts with
   * "system", has at least four fields, and its fields 1..3 parse to the
   * star's coordinates; and every such line is loaded.
   */
  lemma {:induction false} LoadedRows(lines: seq<string>, parse: string -> Option<real>)
    ensures |Loaded(lines, parse)| <= |lines|
    ensures forall s :: s in Loaded(lines, parse) ==>
              && s.originalLine in lines
              && SystemTag <= s.originalLine
              && |Split(s.originalLine, {','})| >= 4
              && parse(Split(s.originalLine, {','})[1]) == Some(s.x)
              && parse(Split(s.originalLine, {','})[2]) == Some(s.y)
              && parse(Split(s.originalLine, {','})[3]) == Some(s.z)
    ensures forall i :: 0 <= i < |lines| && ParseRow(lines[i], parse).Some? ==>
              ParseRow(lines[i], parse).value in Loaded(lines, parse)
  {
    if |lines| > 0 {
      var init := lines[..|lines| - 1];
      LoadedRows(init, parse);
      assert forall l :: l in init ==> l in lines;
      forall i | 0 <= i < |lines| && ParseRow(lines[i], parse).Some?
        ensures ParseRow(lines[i], parse).value in Loaded(lines, parse)
      {
        if i < |init| {
          assert init[i] == lines[i];
        }
      }
    }
  }

  /**
   * The bounding box the loader keeps: it contains the origin and every
   * star, and each side lies at the origin or at some star.
   */
  predicate Extents(raw: seq<StarData>, minX: real, maxX: real, minY: real, maxY: real) {
    && minX <= 0.0 <= maxX && minY <= 0.0 <= maxY
    && (forall i :: 0 <= i < |raw| ==> minX <= raw[i].x <= maxX && minY <= raw[i].y <= maxY)
    && (minX == 0.0 || exists i :: 0 <= i < |raw| && raw[i].x == minX)
    && (maxX == 0.0 || exists i :: 0 <= i < |raw| && raw[i].x == maxX)
    && (minY == 0.0 || exists i :: 0 <= i < |raw| && raw[i].y == minY)
    && (maxY == 0.0 || exists i :: 0 <= i < |raw| && raw[i].y == maxY)
  }

  /** One more star keeps the box once each side has been pushed out to it. */
  lemma ExtentsSnoc(raw: seq<StarData>, s: StarData, minX: real, maxX: real, minY: real, maxY: real)
    requires Extents(raw, minX, maxX, minY, maxY)
    ensures Extents(raw + [s], if s.x < minX then s.x else minX, if s.x > maxX then s.x else maxX,
                               if s.y < minY then s.y else minY, if s.y > maxY then s.y else maxY)
  {
    var r := raw + [s];
    assert r[|raw|] == s;
    assert forall i :: 0 <= i < |raw| ==> r[i] == raw[i];
  }

  /**
   * The loading loop of the main window: the star rows of the text, in
   * order, and the extents of their x and y coordinates around the origin.
   */
  method LoadStars(text: string, parse: string -> Option<real>)
    returns (raw: seq<StarData>, minX: real, maxX: real, minY: real, maxY: real)
    ensures raw == Loaded(SplitLines(text), parse)
    ensures Extents(raw, minX, maxX, minY, maxY)
  {
    var lines := SplitLines(text);
    raw := [];
    minX, maxX, minY, maxY := 0.0, 0.0, 0.0, 0.0;
    for i := 0 to |lines|
      invariant raw == Loaded(lines[..i], parse)
      invariant Extents(raw, minX, maxX, minY, maxY)
    {
      LoadedSnoc(lines, i, parse);
      raw, minX, maxX, minY, maxY := LoadLine(lines[i], parse, raw, minX, maxX, minY, maxY);
    }
    assert lines[..|lines|] == lines;
  }

  /**
   * One pass of the loading loop: a star row is appended and pushes the box
   * out to it; any other line is skipped.
   */
  method LoadLine(line: string, parse: string -> Option<real>, raw: seq<StarData>,
                  minX: real, maxX: real, minY: real, maxY: real)
    returns (raw': seq<StarData>, minX': real, maxX': real, minY': real, maxY': real)
    requires Extents(raw, minX, maxX, minY, maxY)
    ensures raw' == raw + (if ParseRow(line, parse).Some? then [ParseRow(line, parse).value] else [])
    ensures Extents(raw', minX', maxX', minY', maxY')
  {
    raw', minX', maxX', minY', maxY' := raw, minX, maxX, minY, maxY;
    if !(SystemTag <= line) {
      return;
    }
    var parts := Split(line, {','});
    if |parts| < 4 {
      return;
    }
    var px, py, pz := parse(parts[1]), parse(parts[2]), parse(parts[3]);
    if px.Some? && py.Some? && pz.Some? {
      var x, y := px.value, py.value;
      var star := StarData(x, y, pz.value, line);
      ExtentsSnoc(raw, star, minX, maxX, minY, maxY);
      raw' := raw + [star];
      if x < minX { minX' := x; }
      if x > maxX { maxX' := x; }
      if y < minY { minY' := y; }
      if y > maxY { maxY' := y; }
    }
  }

  // ---------------------------------------------------------------------
  // Saving
  // ---------------------------------------------------------------------

  /** What saving needs of a star: its original row, its name and its owner. */
  datatype Row = Row(line: string, name: string, owner: Option<int>)

  /** A star's row in the saved file: an owned star gets its name appended. */
  function StarLine(r: Row): string {
    if r.owner.Some? then r.line + "," + r.name else r.line
  }

  /** The colony row of an owned star. */
  function ColonyLine(r: Row): string
    requires r.owner.Some?
  {
    "colony,player" + IntToString(r.owner.value) + "," + r.name + ",,"
  }

  /** The closing row written when some star is owned. */
  const RandomizeColonies: string := "randomize_colonies,0,,,"

  /** The owned rows, in order. */
  function Owned(rows: seq<Row>): (r: seq<Row>)
    ensures forall j :: 0 <= j < |r| ==> r[j].owner.Some?
  {
    if |rows| == 0 then []
    else
      var init := Owned(rows[..|rows| - 1]);
      if rows[|rows| - 1].owner.Some? then init + [rows[|rows| - 1]] else init
  }

  /** The owned rows are exactly the rows with an owner, and there are some exactly when one row has an owner. */
  lemma {:induction false} OwnedRows(rows: seq<Row>)
    ensures |Owned(rows)| <= |rows|
    ensures forall r :: r in Owned(rows) <==> r in rows && r.owner.Some?
    ensures |Owned(rows)| > 0 <==> exists i :: 0 <= i < |rows| && rows[i].owner.Some?
  {
    if |rows| > 0 {
      var init := rows[..|rows| - 1];
      OwnedRows(init);
      assert rows == init + [rows[|rows| - 1]];
      if exists i :: 0 <= i < |rows| && rows[i].owner.Some? {
        var i :| 0 <= i < |rows| && rows[i].owner.Some?;
        if i < |init| {
          assert init[i] in Owned(init);
        }
      }
    }
  }

  /** The star rows of the saved file. */
  function StarLines(rows: seq<Row>): seq<string> {
    seq(|rows|, i requires 0 <= i < |rows| => StarLine(rows[i]))
  }

  /** The colony rows of the owned stars. */
  function ColonyLines(owned: seq<Row>): seq<string>
    requires forall j :: 0 <= j < |owned| ==> owned[j].owner.Some?
  {
    seq(|owned|, j requires 0 <= j < |owned| && owned[j].owner.Some? => ColonyLine(owned[j]))
  }

  /** One more row adds its colony row to the colony rows exactly when it is owned. */
  lemma ColonyLinesSnoc(rows: seq<Row>, i: int)
    requires 0 <= i < |rows|
    ensures ColonyLines(Owned(rows[..i + 1]))
         == ColonyLines(Owned(rows[..i])) + (if rows[i].owner.Some? then [ColonyLine(rows[i])] else [])
    ensures |Owned(rows[..i + 1])| == |Owned(rows[..i])| + (if rows[i].owner.Some? then 1 else 0)
  {
    assert rows[..i + 1][..i] == rows[..i];
  }

  /** The closing block, present when some star is owned. */
  function Trailer(owned: seq<Row>): seq<string> {
    if |owned| > 0 then ["", RandomizeColonies] else []
  }

  /** The lines of the saved file. */
  function SaveLines(rows: seq<Row>): seq<string> {
    var owned := Owned(rows);
    StarLines(rows) + [""] + ColonyLines(owned) + Trailer(owned)
  }

  /** The text of lines written one by one with AppendLine. */
  function Document(lines: seq<string>): string {
    if |lines| == 0 then "" else Document(lines[..|lines| - 1]) + lines[|lines| - 1] + NewLine
  }

  /** Writing one more line extends the text by that line and a terminator. */
  lemma DocumentSnoc(lines: seq<string>, line: string)
    ensures Document(lines + [line]) == Document(lines) + line + NewLine
  {
    assert (lines + [line])[..|lines|] == lines;
  }

  /** Writing two blocks of lines one after the other gives the two texts one after the other. */
  lemma {:induction false} DocumentAppend(a: seq<string>, b: seq<string>)
    ensures Document(a + b) == Document(a) + Document(b)
  {
    if |b| > 0 {
      var b' := b[..|b| - 1];
      DocumentAppend(a, b');
      assert (a + b)[..|a + b| - 1] == a + b';
    } else {
      assert a + b == a;
    }
  }

  /**
   * The saved text: the star rows, a blank line, the colony rows, then a
   * blank line and the randomize_colonies row when some star is owned.
   */
  lemma SaveDocument(rows: seq<Row>, starText: string, colonyText: string, trailerText: string)
    requires starText == Document(StarLines(rows))
    requires colonyText == Document(ColonyLines(Owned(rows)))
    requires trailerText == if |Owned(rows)| > 0 then "" + NewLine + RandomizeColonies + NewLine else ""
    ensures Document(SaveLines(rows)) == starText + "" + NewLine + colonyText + trailerText
  {
    var owned := Owned(rows);
    var stars, colonies, tail := StarLines(rows), ColonyLines(owned), Trailer(owned);
    var head := stars + [""];
    assert SaveLines(rows) == head + colonies + tail;
    DocumentAppend(head + colonies, tail);
    DocumentAppend(head, colonies);
    DocumentSnoc(stars, "");
    TrailerDocument(owned, trailerText);
    calc {
      Document(SaveLines(rows));
    ==
      Document(head + colonies) + Document(tail);
    ==
      Document(head) + colonyText + trailerText;
    ==
      starText + "" + NewLine + colonyText + trailerText;
    }
  }

  /** The trailer's text: a blank line and the randomize_colonies row, or nothing. */
  lemma TrailerDocument(owned: seq<Row>, trailerText: string)
    requires trailerText == if |owned| > 0 then "" + NewLine + RandomizeColonies + NewLine else ""
    ensures Document(Trailer(owned)) == trailerText
  {
    if |owned| > 0 {
      DocumentSnoc([""], RandomizeColonies);
      assert Trailer(owned) == [""] + [RandomizeColonies];
      assert Document([""]) == Document([]) + "" + NewLine;
    }
  }

  /** Every line adds itself and the two terminator characters to the text. */
  lemma {:induction false} DocumentLength(lines: seq<string>)
    ensures |Document(lines)| >= 2 * |lines|
  {
    if |lines| > 0 {
      DocumentLength(lines[..|lines| - 1]);
    }
  }

  /**
   * The saved file begins with a row per star, in order, carrying the star's
   * name when it is owned, followed by a blank line; it has one line per star,
   * the blank line, one line per owned star, and two more when any is owned.
   */
  lemma SaveLinesStarRows(rows: seq<Row>)
    ensures |SaveLines(rows)| == |rows| + 1 + |Owned(rows)| + (if |Owned(rows)| > 0 then 2 else 0)
    ensures forall i :: 0 <= i < |rows| && rows[i].owner.Some? ==> SaveLines(rows)[i] == rows[i].line + "," + rows[i].name
    ensures forall i :: 0 <= i < |rows| && rows[i].owner.None? ==> SaveLines(rows)[i] == rows[i].line
    ensures SaveLines(rows)[|rows|] == ""
  {
    var owned := Owned(rows);
    var head := StarLines(rows) + [""];
    var lines := head + ColonyLines(owned) + Trailer(owned);
    assert SaveLines(rows) == lines;
    assert forall i :: 0 <= i < |rows| ==> lines[i] == head[i] == StarLine(rows[i]);
    assert lines[|rows|] == head[|rows|] == "";
  }

  /** After the blank line comes a colony row for each owned star, in order, naming its player. */
  lemma {:induction false} SaveLinesColonies(rows: seq<Row>)
    ensures |rows| + 1 + |Owned(rows)| <= |SaveLines(rows)|
    ensures forall j :: 0 <= j < |Owned(rows)| ==>
              && Owned(rows)[j] in rows
              && SaveLines(rows)[|rows| + 1 + j]
                 == "colony,player" + IntToString(Owned(rows)[j].owner.value) + "," + Owned(rows)[j].name + ",,"
  {
    OwnedRows(rows);
    var owned := Owned(rows);
    var stars, colonies, tail := StarLines(rows), ColonyLines(owned), Trailer(owned);
    assert SaveLines(rows) == stars + [""] + colonies + tail;
    forall j | 0 <= j < |owned|
      ensures owned[j] in rows && SaveLines(rows)[|rows| + 1 + j] == ColonyLine(owned[j])
    {
      assert owned[j] in owned;
      ColonyRowAt(SaveLines(rows), stars, colonies, tail, j);
    }
  }

  /** Element j of the middle block of stars, a blank line, colonies and tail. */
  lemma ColonyRowAt(lines: seq<string>, stars: seq<string>, colonies: seq<string>, tail: seq<string>, j: int)
    requires lines == stars + [""] + colonies + tail && 0 <= j < |colonies|
    ensures lines[|stars| + 1 + j] == colonies[j]
  {
  }

  /** The file ends with the randomize_colonies row exactly when some star is owned. */
  lemma SaveLinesTrailer(rows: seq<Row>)
    ensures (exists i :: 0 <= i < |rows| && rows[i].owner.Some?) <==> SaveLines(rows)[|SaveLines(rows)| - 1] == RandomizeColonies
  {
    OwnedRows(rows);
    var owned := Owned(rows);
    var head := StarLines(rows) + [""];
    var lines := head + ColonyLines(owned) + Trailer(owned);
    assert SaveLines(rows) == lines;
    if |owned| == 0 {
      assert lines == head;
    } else {
      assert lines[|lines| - 1] == Trailer(owned)[1];
    }
  }
}
