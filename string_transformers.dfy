/** The text reply for "Matches on-air": one fixed-format line per live match. */
module StringTransformers {
  import opened PyText
  import opened FootballApi

  /** `f"{id} - {teams} {current_result} ({half} - {time}m)"` for one row. */
  function MatchLine(row: MatchRow): (line: string)
    ensures SingleLine(row) ==> '\n' !in line
  {
    Show(row.id) + " - " + row.teams + " " + row.currentResult +
    " (" + row.half + " - " + ShowOpt(row.time) + "m)"
  }

  /** The lines in their order, each followed by a newline. */
  function Terminated(lines: seq<string>): (s: string)
    ensures |s| >= |lines|
  {
    if lines == [] then ""
    else Terminated(lines[..|lines| - 1]) + lines[|lines| - 1] + "\n"
  }

  /** The line of each row, in row order. */
  function MatchLines(rows: seq<MatchRow>): (lines: seq<string>)
    ensures |lines| == |rows|
    ensures forall i :: 0 <= i < |rows| ==> lines[i] == MatchLine(rows[i])
  {
    seq(|rows|, i requires 0 <= i < |rows| => MatchLine(rows[i]))
  }

  /** The reply text for `rows`; it is empty exactly when there are no rows. */
  function MatchesText(rows: seq<MatchRow>): (text: string)
    ensures text == "" <==> rows == []
  {
    Terminated(MatchLines(rows))
  }

  /** `create_current_matches_string`: the loop that appends each row's line. */
  method CreateCurrentMatchesString(rows: seq<MatchRow>) returns (s: string)
    ensures s == MatchesText(rows)
  {
    ghost var lines := MatchLines(rows);
    s := "";
    for i := 0 to |rows|
      invariant s == Terminated(lines[..i])
    {
      assert lines[..i + 1][..i] == lines[..i];
      var row := rows[i];
      var line := Show(row.id) + " - " + row.teams + " " + row.currentResult +
                  " (" + row.half + " - " + ShowOpt(row.time) + "m)";
      assert line == lines[i];
      s := s + line + "\n";
    }
    assert lines[..|rows|] == lines;
  }

  /** Lines keep row order: the text of `a + b` is the text of `a` and then
      the text of `b`. */
  lemma {:induction false} MatchesTextAppend(a: seq<MatchRow>, b: seq<MatchRow>)
    ensures MatchesText(a + b) == MatchesText(a) + MatchesText(b)
  {
    var la, lb, lab := MatchLines(a), MatchLines(b), MatchLines(a + b);
    forall i | 0 <= i < |lab| ensures lab[i] == (la + lb)[i] {
      if i < |a| {
        assert (a + b)[i] == a[i];
      } else {
        assert (a + b)[i] == b[i - |a|];
      }
    }
    assert lab == la + lb;
    TerminatedAppend(la, lb);
  }

  lemma {:induction false} TerminatedAppend(a: seq<string>, b: seq<string>)
    ensures Terminated(a + b) == Terminated(a) + Terminated(b)
    decreases |b|
  {
    if b == [] {
      assert a + b == a;
    } else {
      var b', last := b[..|b| - 1], b[|b| - 1];
      assert (a + b)[..|a + b| - 1] == a + b';
      TerminatedAppend(a, b');
    }
  }

  /** The text of one row is its line and a newline. */
  lemma MatchesTextSingle(row: MatchRow)
    ensures MatchesText([row]) == MatchLine(row) + "\n"
  {
    var lines := MatchLines([row]);
    assert lines == [MatchLine(row)];
    assert lines[..0] == [];
    assert Terminated(lines) == "" + MatchLine(row) + "\n";
    assert "" + MatchLine(row) == MatchLine(row);
  }

  /** No field holds a line break. */
  predicate SingleLine(row: MatchRow) {
    '\n' !in row.teams && '\n' !in row.currentResult && '\n' !in row.half
  }

  /** With single-line fields, the text holds one newline per row. */
  lemma MatchesTextNewlines(rows: seq<MatchRow>)
    requires forall i :: 0 <= i < |rows| ==> SingleLine(rows[i])
    ensures Count(MatchesText(rows), '\n') == |rows|
  {
    var lines := MatchLines(rows);
    assert forall i :: 0 <= i < |lines| ==> '\n' !in lines[i];
    TerminatedNewlines(lines);
  }

  lemma {:induction false} TerminatedNewlines(lines: seq<string>)
    requires forall i :: 0 <= i < |lines| ==> '\n' !in lines[i]
    ensures Count(Terminated(lines), '\n') == |lines|
    decreases |lines|
  {
    if lines != [] {
      var front, line := lines[..|lines| - 1], lines[|lines| - 1];
      TerminatedNewlines(front);
      CountAbsent(line, '\n');
      CountAppend(Terminated(front), line, '\n');
      CountAppend(Terminated(front) + line, "\n", '\n');
      assert Count("\n", '\n') == 1 by {
        assert "\n"[..0] == "";
      }
    }
  }

  /** The reply for one match in its second half. */
  lemma MatchesTextExample()
    ensures MatchesText([MatchRow(1, "A vs B", "2:0", "2H", Some(67))]) == "1 - A vs B 2:0 (2H - 67m)\n"
  {
    var row := MatchRow(1, "A vs B", "2:0", "2H", Some(67));
    assert ShowNat(67) == ShowNat(6) + [DigitChar(7)];
    assert ShowOpt(Some(67)) == "67";
    assert Show(1) == "1";
    var line := "1" + " - " + "A vs B" + " " + "2:0" + " (" + "2H" + " - " + "67" + "m)";
    assert MatchLine(row) == line;
    assert line == "1 - A vs B 2:0 (2H - 67m)";
    MatchesTextSingle(row);
  }
}
