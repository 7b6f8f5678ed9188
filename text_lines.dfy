/**
 * Text files as sequences of lines. A file written by successive `write`
 * calls is a string; `Unlines` is the string whose lines are the given ones,
 * each terminated by a newline, and `Lines` reads a string back as lines.
 */
module TextLines {
  import opened Wrappers

  /** The text of a file holding `lines`, each one followed by "\n". */
  function Unlines(lines: seq<string>): string {
    if lines == [] then "" else Unlines(lines[..|lines| - 1]) + lines[|lines| - 1] + "\n"
  }

  /** Writing one more line extends the text by that line and a newline. */
  lemma UnlinesSnoc(lines: seq<string>, line: string)
    ensures Unlines(lines + [line]) == Unlines(lines) + line + "\n"
  {
    assert (lines + [line])[..|lines|] == lines;
  }

  lemma {:induction false} UnlinesAppend(a: seq<string>, b: seq<string>)
    ensures Unlines(a + b) == Unlines(a) + Unlines(b)
  {
    if b == [] {
      assert a + b == a;
    } else {
      var init := b[..|b| - 1];
      assert a + b == (a + init) + [b[|b| - 1]];
      UnlinesAppend(a, init);
      UnlinesSnoc(a + init, b[|b| - 1]);
      UnlinesSnoc(init, b[|b| - 1]);
      assert init + [b[|b| - 1]] == b;
    }
  }

  lemma UnlinesCons(line: string, rest: seq<string>)
    ensures Unlines([line] + rest) == line + "\n" + Unlines(rest)
  {
    UnlinesAppend([line], rest);
    assert Unlines([line]) == line + "\n" by {
      assert [line][..0] == [];
    }
  }

  predicate NoNewline(s: string) {
    forall i :: 0 <= i < |s| ==> s[i] != '\n'
  }

  function IndexOfNewline(s: string): (i: nat)
    requires !NoNewline(s)
    ensures i < |s| && s[i] == '\n' && NoNewline(s[..i])
  {
    if s[0] == '\n' then 0
    else
      var j := IndexOfNewline(s[1..]);
      assert s[..j + 1] == [s[0]] + s[1..][..j];
      j + 1
  }

  /**
   * The lines of a text: the pieces between newlines, where a final piece
   * without a newline is a line too.
   */
  function Lines(s: string): seq<string>
    decreases |s|
  {
    if s == "" then []
    else if NoNewline(s) then [s]
    else
      var i := IndexOfNewline(s);
      [s[..i]] + Lines(s[i + 1..])
  }

  /** Reading back the text written for `lines` gives those lines again. */
  lemma {:induction false} LinesOfUnlines(lines: seq<string>)
    requires forall k :: 0 <= k < |lines| ==> NoNewline(lines[k])
    ensures Lines(Unlines(lines)) == lines
  {
    if lines != [] {
      var l := lines[0];
      var rest := Unlines(lines[1..]);
      var s := Unlines(lines);
      UnlinesCons(l, lines[1..]);
      assert lines == [l] + lines[1..];
      assert s == l + "\n" + rest;
      assert s[|l|] == '\n';
      var i := IndexOfNewline(s);
      assert s[..i] == l;
      assert s[i + 1..] == rest;
      LinesOfUnlines(lines[1..]);
    }
  }

  lemma NoNewlineConcat(a: string, b: string)
    ensures NoNewline(a + b) <==> NoNewline(a) && NoNewline(b)
  {
    if NoNewline(a + b) {
      assert forall i :: 0 <= i < |a| ==> a[i] == (a + b)[i];
      assert forall i :: 0 <= i < |b| ==> b[i] == (a + b)[|a| + i];
    }
  }

  /** One line per item, in the order of the items. */
  function MapLines<T>(line: T -> string, items: seq<T>): seq<string> {
    if items == [] then []
    else MapLines(line, items[..|items| - 1]) + [line(items[|items| - 1])]
  }

  lemma {:induction false} MapLinesAt<T>(line: T -> string, items: seq<T>)
    ensures |MapLines(line, items)| == |items|
    ensures forall i :: 0 <= i < |items| ==> MapLines(line, items)[i] == line(items[i])
  {
    if items != [] {
      var init := items[..|items| - 1];
      MapLinesAt(line, init);
      assert forall i :: 0 <= i < |init| ==> init[i] == items[i];
    }
  }

  /** Writing the lines for one more item appends that item's line. */
  lemma MapLinesSnoc<T>(line: T -> string, items: seq<T>, i: nat)
    requires i < |items|
    ensures MapLines(line, items[..i + 1]) == MapLines(line, items[..i]) + [line(items[i])]
  {
    assert items[..i + 1][..i] == items[..i];
  }

  /** A `key = value` assignment line, split at its first " = ". */
  datatype Assignment = Assignment(key: string, value: string)

  function SplitAssignment(line: string): Option<Assignment> {
    if |line| < 3 then None
    else if line[..3] == " = " then Some(Assignment("", line[3..]))
    else
      match SplitAssignment(line[1..])
      case None => None
      case Some(a) => Some(Assignment([line[0]] + a.key, a.value))
  }

  predicate NoSpace(s: string) {
    forall i :: 0 <= i < |s| ==> s[i] != ' '
  }

  /** A key without spaces is recovered from `key = value`, whatever the value holds. */
  lemma {:induction false} SplitAssignmentOf(key: string, value: string)
    requires NoSpace(key)
    ensures SplitAssignment(key + " = " + value) == Some(Assignment(key, value))
  {
    var line := key + " = " + value;
    if key == [] {
      assert line[..3] == " = ";
      assert line[3..] == value;
    } else {
      assert line[..3] != " = " by { assert line[0] == key[0]; }
      assert line[1..] == key[1..] + " = " + value;
      SplitAssignmentOf(key[1..], value);
      assert [line[0]] + key[1..] == key;
    }
  }
}
