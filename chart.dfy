/**
 * The `.chart` writer of model/parser.py (`generate_chart`): a brace-delimited
 * `[Song]` block of metadata, a `[SyncTrack]` section with one tempo line per
 * BPM change, and an `[ExpertSingle]` section with one line per note.
 */
module Chart {
  import opened Wrappers
  import opened Decimal
  import opened TextLines
  import opened SongInfo

  /** A BPM change `(tick, bpm)`; the tempo is an exact number, not a binary float. */
  datatype TempoChange = TempoChange(tick: int, bpm: real)

  /** A note `(tick, MIDI pitch, length in ticks)`. */
  datatype Note = Note(tick: int, pitch: int, length: int)

  /**
   * How `float(...)` renders the Offset, Preview_start and Preview_end fields
   * in the chart; float formatting is not part of this model.
   */
  datatype FloatTexts = FloatTexts(offset: string, previewStart: string, previewEnd: string)

  /** The `ValueError` Python's `int()` raises, with the text it could not convert. */
  datatype ValueError = ValueError(literal: string)

  /** Python's `int(x)` on a number: truncation toward zero. */
  function Trunc(x: real): (r: int)
    ensures 0.0 <= x ==> r as real <= x < r as real + 1.0
    ensures x < 0.0 ==> r as real - 1.0 < x <= r as real
  {
    if x >= 0.0 then x.Floor else -((-x).Floor)
  }

  /** The tempo as the chart stores it: `int(bpm * 1000)`, truncated toward zero. */
  function MilliBpm(bpm: real): (r: int)
    ensures var x := bpm * 1000.0;
      && (0.0 <= x ==> r as real <= x < r as real + 1.0)
      && (x < 0.0 ==> r as real - 1.0 < x <= r as real)
  {
    Trunc(bpm * 1000.0)
  }

  /** A tempo line: the tick, " = B " and the stored tempo. */
  function SyncLine(c: TempoChange): string {
    IntToString(c.tick) + " = B " + IntToString(MilliBpm(c.bpm))
  }

  /**
   * A note line: the tick, " = N ", the MIDI pitch moved down by 60 to the
   * chart's fret number, a space and the length.
   */
  function NoteLine(n: Note): string {
    IntToString(n.tick) + " = N " + IntToString(n.pitch - 60) + " " + IntToString(n.length)
  }

  /**
   * A tempo line holds the tick and `int(bpm * 1000)` around " = B ", each
   * in a form `int()` reads back.
   */
  lemma SyncLineReadsBack(c: TempoChange)
    ensures var line, t := SyncLine(c), IntToString(c.tick);
      && |line| > |t| + 5 && line[..|t|] == t && line[|t|..|t| + 5] == " = B "
      && line[|t| + 5..] == IntToString(MilliBpm(c.bpm))
      && PyInt(line[..|t|]) == Some(c.tick)
      && PyInt(line[|t| + 5..]) == Some(MilliBpm(c.bpm))
  {
    PyIntOfIntToString(c.tick);
    PyIntOfIntToString(MilliBpm(c.bpm));
    TempoLineFields(IntToString(c.tick), IntToString(MilliBpm(c.bpm)), c.tick, MilliBpm(c.bpm));
  }

  /**
   * A note line holds the tick, then after " = N " the pitch less 60, then
   * after a space the length, each in a form `int()` reads back.
   */
  lemma NoteLineReadsBack(n: Note)
    ensures var line, t, p := NoteLine(n), IntToString(n.tick), IntToString(n.pitch - 60);
      var i := |t| + 5 + |p|;
      && |line| > i + 1 && line[..|t|] == t && line[|t|..|t| + 5] == " = N " && line[i] == ' '
      && line[|t| + 5..i] == p && line[i + 1..] == IntToString(n.length)
      && PyInt(line[..|t|]) == Some(n.tick)
      && PyInt(line[|t| + 5..i]) == Some(n.pitch - 60)
      && PyInt(line[i + 1..]) == Some(n.length)
  {
    PyIntOfIntToString(n.tick);
    PyIntOfIntToString(n.pitch - 60);
    PyIntOfIntToString(n.length);
    NoteLineFields(IntToString(n.tick), IntToString(n.pitch - 60), IntToString(n.length),
                   n.tick, n.pitch - 60, n.length);
  }

  /** The two numbers of a tempo line lie where `int()` finds them. */
  lemma TempoLineFields(t: string, b: string, tick: int, tempo: int)
    requires PyInt(t) == Some(tick) && PyInt(b) == Some(tempo)
    ensures var line := t + " = B " + b;
      && |line| > |t| + 5 && line[..|t|] == t && line[|t|..|t| + 5] == " = B "
      && line[|t| + 5..] == b
      && PyInt(line[..|t|]) == Some(tick)
      && PyInt(line[|t| + 5..]) == Some(tempo)
  {
    var line := t + " = B " + b;
    assert line[..|t|] == t;
    assert line[|t| + 5..] == b;
  }

  /** The three numbers of a note line lie where `int()` finds them. */
  lemma NoteLineFields(t: string, p: string, l: string, tick: int, fret: int, length: int)
    requires PyInt(t) == Some(tick) && PyInt(p) == Some(fret) && PyInt(l) == Some(length)
    ensures var line := t + " = N " + p + " " + l;
      var i := |t| + 5 + |p|;
      && |line| > i + 1 && line[..|t|] == t && line[|t|..|t| + 5] == " = N " && line[i] == ' '
      && line[|t| + 5..i] == p && line[i + 1..] == l
      && PyInt(line[..|t|]) == Some(tick)
      && PyInt(line[|t| + 5..i]) == Some(fret)
      && PyInt(line[i + 1..]) == Some(length)
  {
    var line := t + " = N " + p + " " + l;
    var i := |t| + 5 + |p|;
    assert line[..|t|] == t;
    assert line[|t| + 5..i] == p;
    assert line[i + 1..] == l;
  }

  /** An indented `Key = value` line of the `[Song]` block. */
  function Entry(key: string, value: string): string {
    " " + key + " = " + value
  }

  function Quoted(s: string): string {
    "\"" + s + "\""
  }

  /** The lines written before the first `int()` conversion. */
  function SongHead(meta: SongMetadata): seq<string> {
    [ "[Song]",
      "{",
      Entry("Name", Quoted(meta.name)),
      Entry("Artist", Quoted(meta.artist)),
      Entry("Album", Quoted(meta.album)),
      Entry("Genre", Quoted(meta.genre)),
      Entry("Year", Quoted(meta.year)),
      Entry("Charter", Quoted(", " + meta.charter)) ]
  }

  /** The `[Song]` block, given the converted Resolution and Difficulty. */
  function SongBlock(meta: SongMetadata, resolution: int, difficulty: int, floats: FloatTexts): seq<string> {
    SongHead(meta) +
    [ Entry("Resolution", IntToString(resolution)),
      Entry("Difficulty", IntToString(difficulty)),
      Entry("Offset", floats.offset),
      Entry("Preview_start", floats.previewStart),
      Entry("Preview_end", floats.previewEnd),
      Entry("MusicStream", Quoted(meta.musicStream)),
      "}",
      "" ]
  }

  function SyncTrack(changes: seq<TempoChange>): seq<string> {
    ["[SyncTrack]"] + MapLines(SyncLine, changes) + [""]
  }

  function ExpertSingle(notes: seq<Note>): seq<string> {
    ["[ExpertSingle]"] + MapLines(NoteLine, notes) + [""]
  }

  /** The lines of the whole chart file. */
  function ChartLines(meta: SongMetadata, resolution: int, difficulty: int, floats: FloatTexts,
                      changes: seq<TempoChange>, notes: seq<Note>): seq<string>
  {
    SongBlock(meta, resolution, difficulty, floats) + SyncTrack(changes) + ExpertSingle(notes)
  }

  /**
   * The `[Song]` part of `generate_chart`, written to an empty file: the
   * block, or the lines written before `int()` raises on Resolution or
   * Difficulty.
   */
  method WriteSongBlock(meta: SongMetadata, floats: FloatTexts) returns (file: seq<string>, error: Option<ValueError>)
    ensures PyInt(meta.resolution).None? ==>
      error == Some(ValueError(meta.resolution)) && file == SongHead(meta)
    ensures PyInt(meta.resolution).Some? && PyInt(meta.difficulty).None? ==>
      && error == Some(ValueError(meta.difficulty))
      && file == SongHead(meta) + [Entry("Resolution", IntToString(PyInt(meta.resolution).value))]
    ensures PyInt(meta.resolution).Some? && PyInt(meta.difficulty).Some? ==>
      && error == None
      && file == SongBlock(meta, PyInt(meta.resolution).value, PyInt(meta.difficulty).value, floats)
  {
    file := [];
    file := file + ["[Song]", "{"];
    file := file + [Entry("Name", Quoted(meta.name))];
    file := file + [Entry("Artist", Quoted(meta.artist))];
    file := file + [Entry("Album", Quoted(meta.album))];
    file := file + [Entry("Genre", Quoted(meta.genre))];
    file := file + [Entry("Year", Quoted(meta.year))];
    file := file + [Entry("Charter", Quoted(", " + meta.charter))];
    assert file == SongHead(meta);
    var resolution := PyInt(meta.resolution);
    if resolution.None? {
      error := Some(ValueError(meta.resolution));
      return;
    }
    file := file + [Entry("Resolution", IntToString(resolution.value))];
    var difficulty := PyInt(meta.difficulty);
    if difficulty.None? {
      error := Some(ValueError(meta.difficulty));
      return;
    }
    file := file + [Entry("Difficulty", IntToString(difficulty.value))];
    file := file + [Entry("Offset", floats.offset)];
    file := file + [Entry("Preview_start", floats.previewStart)];
    file := file + [Entry("Preview_end", floats.previewEnd)];
    file := file + [Entry("MusicStream", Quoted(meta.musicStream))];
    file := file + ["}", ""];
    error := None;
  }

  lemma AppendAssoc(a: seq<string>, b: seq<string>, x: string)
    ensures (a + b) + [x] == a + (b + [x])
  {
  }

  lemma SectionAppend(file: seq<string>, header: string, body: seq<string>)
    ensures file + [header] + body + [""] == file + ([header] + body + [""])
  {
  }

  /** The `[SyncTrack]` part of `generate_chart`, appended to `file`. */
  method WriteSyncTrack(file: seq<string>, changes: seq<TempoChange>) returns (file': seq<string>)
    ensures file' == file + SyncTrack(changes)
  {
    var header := file + ["[SyncTrack]"];
    file' := header;
    var i := 0;
    while i < |changes|
      invariant i <= |changes|
      invariant file' == header + MapLines(SyncLine, changes[..i])
    {
      var tick, bpm := changes[i].tick, changes[i].bpm;
      var bpmValue := MilliBpm(bpm);
      MapLinesSnoc(SyncLine, changes, i);
      AppendAssoc(header, MapLines(SyncLine, changes[..i]), SyncLine(changes[i]));
      file' := file' + [IntToString(tick) + " = B " + IntToString(bpmValue)];
      i := i + 1;
    }
    assert changes[..i] == changes;
    SectionAppend(file, "[SyncTrack]", MapLines(SyncLine, changes));
    file' := file' + [""];
  }

  /** The `[ExpertSingle]` part of `generate_chart`, appended to `file`. */
  method WriteExpertSingle(file: seq<string>, notes: seq<Note>) returns (file': seq<string>)
    ensures file' == file + ExpertSingle(notes)
  {
    var header := file + ["[ExpertSingle]"];
    file' := header;
    var j := 0;
    while j < |notes|
      invariant j <= |notes|
      invariant file' == header + MapLines(NoteLine, notes[..j])
    {
      var tick, note, length := notes[j].tick, notes[j].pitch, notes[j].length;
      MapLinesSnoc(NoteLine, notes, j);
      AppendAssoc(header, MapLines(NoteLine, notes[..j]), NoteLine(notes[j]));
      file' := file' + [IntToString(tick) + " = N " + IntToString(note - 60) + " " + IntToString(length)];
      j := j + 1;
    }
    assert notes[..j] == notes;
    SectionAppend(file, "[ExpertSingle]", MapLines(NoteLine, notes));
    file' := file' + [""];
  }

  /**
   * `generate_chart`: the lines written to the chart file (whose text is
   * `Unlines(file)`), and the `ValueError` that ends the write early when
   * Resolution or Difficulty is not an integer literal; the lines written
   * before the error stay in the file.
   */
  method GenerateChart(meta: SongMetadata, floats: FloatTexts, changes: seq<TempoChange>, notes: seq<Note>)
    returns (file: seq<string>, error: Option<ValueError>)
    ensures PyInt(meta.resolution).None? ==>
      error == Some(ValueError(meta.resolution)) && file == SongHead(meta)
    ensures PyInt(meta.resolution).Some? && PyInt(meta.difficulty).None? ==>
      && error == Some(ValueError(meta.difficulty))
      && file == SongHead(meta) + [Entry("Resolution", IntToString(PyInt(meta.resolution).value))]
    ensures PyInt(meta.resolution).Some? && PyInt(meta.difficulty).Some? ==>
      && error == None
      && file == ChartLines(meta, PyInt(meta.resolution).value, PyInt(meta.difficulty).value,
                            floats, changes, notes)
  {
    file, error := WriteSongBlock(meta, floats);
    if error.Some? {
      return;
    }
    file := WriteSyncTrack(file, changes);
    file := WriteExpertSingle(file, notes);
  }

  /** Where the lines of two sections fall after a block of `|block|` lines. */
  lemma SectionsLayout(block: seq<string>, sync: seq<string>, expert: seq<string>)
    ensures var lines := block + (["[SyncTrack]"] + sync + [""]) + (["[ExpertSingle]"] + expert + [""]);
      var b, n := |block|, |sync|;
      && |lines| == b + n + |expert| + 4
      && lines[..b] == block
      && lines[b] == "[SyncTrack]"
      && (forall i :: 0 <= i < n ==> lines[b + 1 + i] == sync[i])
      && lines[b + 1 + n] == ""
      && lines[b + 2 + n] == "[ExpertSingle]"
      && (forall i :: 0 <= i < |expert| ==> lines[b + 3 + n + i] == expert[i])
      && lines[b + 3 + n + |expert|] == ""
  {
  }

  /** The same, with the event lines written by `syncLine` and `noteLine`. */
  lemma EventSectionsLayout<A, B>(block: seq<string>, syncLine: A -> string, changes: seq<A>,
                                  noteLine: B -> string, notes: seq<B>)
    ensures var lines := block + (["[SyncTrack]"] + MapLines(syncLine, changes) + [""])
                               + (["[ExpertSingle]"] + MapLines(noteLine, notes) + [""]);
      var b, n := |block|, |changes|;
      && |lines| == b + n + |notes| + 4
      && (forall k :: 0 <= k < b ==> lines[k] == block[k])
      && lines[b] == "[SyncTrack]"
      && (forall i :: 0 <= i < n ==> lines[b + 1 + i] == syncLine(changes[i]))
      && lines[b + 1 + n] == ""
      && lines[b + 2 + n] == "[ExpertSingle]"
      && (forall i :: 0 <= i < |notes| ==> lines[b + 3 + n + i] == noteLine(notes[i]))
      && lines[b + 3 + n + |notes|] == ""
  {
    MapLinesAt(syncLine, changes);
    MapLinesAt(noteLine, notes);
    SectionsLayout(block, MapLines(syncLine, changes), MapLines(noteLine, notes));
  }

  lemma SongBlockLength(meta: SongMetadata, resolution: int, difficulty: int, floats: FloatTexts)
    ensures |SongBlock(meta, resolution, difficulty, floats)| == 16
  {
  }

  /**
   * The chart file is the 16-line `[Song]` block, then `[SyncTrack]`, the
   * tempo lines and a blank line, then `[ExpertSingle]`, the note lines and
   * a blank line.
   */
  lemma ChartLayout(meta: SongMetadata, resolution: int, difficulty: int, floats: FloatTexts,
                    changes: seq<TempoChange>, notes: seq<Note>)
    ensures var lines := ChartLines(meta, resolution, difficulty, floats, changes, notes);
      var n := |changes|;
      && |lines| == |changes| + |notes| + 20
      && (forall k :: 0 <= k < 16 ==> lines[k] == SongBlock(meta, resolution, difficulty, floats)[k])
      && lines[16] == "[SyncTrack]" && lines[17 + n] == ""
      && lines[18 + n] == "[ExpertSingle]" && lines[19 + n + |notes|] == ""
  {
    SongBlockLength(meta, resolution, difficulty, floats);
    EventSectionsLayout(SongBlock(meta, resolution, difficulty, floats), SyncLine, changes, NoteLine, notes);
  }

  /** A section: its header, one line per item in order, and a blank line. */
  lemma SectionLines<T>(header: string, line: T -> string, items: seq<T>)
    ensures var lines := [header] + MapLines(line, items) + [""];
      && |lines| == |items| + 2 && lines[0] == header && lines[|items| + 1] == ""
      && forall i :: 0 <= i < |items| ==> lines[1 + i] == line(items[i])
  {
    MapLinesAt(line, items);
  }

  /**
   * The `[SyncTrack]` section is its header, one line per BPM change in input
   * order, and one blank line; without changes, just the header and the blank.
   */
  lemma SyncTrackLines(changes: seq<TempoChange>)
    ensures |SyncTrack(changes)| == |changes| + 2
    ensures SyncTrack(changes)[0] == "[SyncTrack]" && SyncTrack(changes)[|changes| + 1] == ""
    ensures changes == [] ==> SyncTrack(changes) == ["[SyncTrack]", ""]
    ensures forall i :: 0 <= i < |changes| ==> SyncTrack(changes)[1 + i] == SyncLine(changes[i])
  {
    SectionLines("[SyncTrack]", SyncLine, changes);
  }

  /**
   * The `[ExpertSingle]` section is its header, one line per note in input
   * order, and one blank line; without notes, just the header and the blank.
   */
  lemma ExpertSingleLines(notes: seq<Note>)
    ensures |ExpertSingle(notes)| == |notes| + 2
    ensures ExpertSingle(notes)[0] == "[ExpertSingle]" && ExpertSingle(notes)[|notes| + 1] == ""
    ensures notes == [] ==> ExpertSingle(notes) == ["[ExpertSingle]", ""]
    ensures forall i :: 0 <= i < |notes| ==> ExpertSingle(notes)[1 + i] == NoteLine(notes[i])
  {
    SectionLines("[ExpertSingle]", NoteLine, notes);
  }

  predicate IsHeader(line: string) {
    |line| > 0 && line[0] == '['
  }

  /** No line of the `[Song]` block except its first is a section header. */
  lemma SongBlockShape(meta: SongMetadata, resolution: int, difficulty: int, floats: FloatTexts)
    ensures var block := SongBlock(meta, resolution, difficulty, floats);
      && |block| == 16 && block[0] == "[Song]"
      && (forall k :: 0 <= k < 16 ==> (IsHeader(block[k]) <==> k == 0))
      && (forall k :: 0 <= k < 16 ==> (block[k] == "" <==> k == 15))
  {
    var block := SongBlock(meta, resolution, difficulty, floats);
    forall k | 2 <= k < 14 ensures block[k][0] == ' ' && block[k] != "" {
    }
  }

  /** A tempo or note line starts with the tick's digits or minus sign. */
  lemma EventLinesShape(changes: seq<TempoChange>, notes: seq<Note>)
    ensures forall i :: 0 <= i < |changes| ==>
      SyncLine(changes[i]) != "" && !IsHeader(SyncLine(changes[i]))
    ensures forall i :: 0 <= i < |notes| ==>
      NoteLine(notes[i]) != "" && !IsHeader(NoteLine(notes[i]))
  {
    forall i | 0 <= i < |changes|
      ensures SyncLine(changes[i]) != "" && !IsHeader(SyncLine(changes[i]))
    {
      IntToStringShape(changes[i].tick);
    }
    forall i | 0 <= i < |notes|
      ensures NoteLine(notes[i]) != "" && !IsHeader(NoteLine(notes[i]))
    {
      IntToStringShape(notes[i].tick);
    }
  }

  /**
   * The headers of a file made of a block and two event sections, given
   * that only the block's first line and no event line is one.
   */
  lemma SectionsHeaders(block: seq<string>, sync: seq<string>, expert: seq<string>)
    requires forall k :: 0 <= k < |block| ==> (IsHeader(block[k]) <==> k == 0)
    requires forall i :: 0 <= i < |sync| ==> !IsHeader(sync[i])
    requires forall i :: 0 <= i < |expert| ==> !IsHeader(expert[i])
    ensures var lines := block + (["[SyncTrack]"] + sync + [""]) + (["[ExpertSingle]"] + expert + [""]);
      var b, n := |block|, |sync|;
      forall k :: 0 <= k < |lines| ==> (IsHeader(lines[k]) <==> k == 0 || k == b || k == b + 2 + n)
  {
    var lines := block + (["[SyncTrack]"] + sync + [""]) + (["[ExpertSingle]"] + expert + [""]);
    var b, n := |block|, |sync|;
    SectionsLayout(block, sync, expert);
    forall k | 0 <= k < |lines|
      ensures IsHeader(lines[k]) <==> k == 0 || k == b || k == b + 2 + n
    {
      if k < b {
        assert lines[k] == block[k];
      } else if b < k < b + 1 + n {
        assert lines[k] == sync[k - b - 1];
      } else if b + 2 + n < k < b + 3 + n + |expert| {
        assert lines[k] == expert[k - b - 3 - n];
      }
    }
  }

  /**
   * The blank lines of a file made of a block and two event sections, given
   * that only the block's last line and no event line is blank.
   */
  lemma SectionsBlanks(block: seq<string>, sync: seq<string>, expert: seq<string>)
    requires forall k :: 0 <= k < |block| ==> (block[k] == "" <==> k == |block| - 1)
    requires forall i :: 0 <= i < |sync| ==> sync[i] != ""
    requires forall i :: 0 <= i < |expert| ==> expert[i] != ""
    ensures var lines := block + (["[SyncTrack]"] + sync + [""]) + (["[ExpertSingle]"] + expert + [""]);
      var b, n, m := |block|, |sync|, |expert|;
      forall k :: 0 <= k < |lines| ==> (lines[k] == "" <==> k == b - 1 || k == b + 1 + n || k == b + 3 + n + m)
  {
    var lines := block + (["[SyncTrack]"] + sync + [""]) + (["[ExpertSingle]"] + expert + [""]);
    var b, n, m := |block|, |sync|, |expert|;
    SectionsLayout(block, sync, expert);
    forall k | 0 <= k < |lines|
      ensures lines[k] == "" <==> k == b - 1 || k == b + 1 + n || k == b + 3 + n + m
    {
      if k < b {
        assert lines[k] == block[k];
      } else if b < k < b + 1 + n {
        assert lines[k] == sync[k - b - 1];
      } else if b + 2 + n < k < b + 3 + n + m {
        assert lines[k] == expert[k - b - 3 - n];
      }
    }
  }

  /**
   * Exactly three lines are section headers, at the positions of `[Song]`,
   * `[SyncTrack]` and `[ExpertSingle]` in that order; exactly three lines are
   * blank, one closing each section.
   */
  lemma ChartSections(meta: SongMetadata, resolution: int, difficulty: int, floats: FloatTexts,
                      changes: seq<TempoChange>, notes: seq<Note>)
    ensures var lines := ChartLines(meta, resolution, difficulty, floats, changes, notes);
      var n, m := |changes|, |notes|;
      && |lines| == n + m + 20
      && lines[0] == "[Song]" && lines[16] == "[SyncTrack]" && lines[18 + n] == "[ExpertSingle]"
      && (forall k :: 0 <= k < |lines| ==> (IsHeader(lines[k]) <==> k == 0 || k == 16 || k == 18 + n))
      && (forall k :: 0 <= k < |lines| ==> (lines[k] == "" <==> k == 15 || k == 17 + n || k == 19 + n + m))
  {
    var block := SongBlock(meta, resolution, difficulty, floats);
    var sync, expert := MapLines(SyncLine, changes), MapLines(NoteLine, notes);
    ChartLayout(meta, resolution, difficulty, floats, changes, notes);
    SongBlockShape(meta, resolution, difficulty, floats);
    EventLinesShape(changes, notes);
    MapLinesAt(SyncLine, changes);
    MapLinesAt(NoteLine, notes);
    SectionsHeaders(block, sync, expert);
    SectionsBlanks(block, sync, expert);
    assert ChartLines(meta, resolution, difficulty, floats, changes, notes)
        == block + (["[SyncTrack]"] + sync + [""]) + (["[ExpertSingle]"] + expert + [""]);
  }

  /** The value the `[Song]` block gives a field, as quoted or converted there. */
  function ChartValue(meta: SongMetadata, resolution: int, difficulty: int, floats: FloatTexts, f: Field): string {
    match f
    case Charter => Quoted(", " + meta.charter)
    case Resolution => IntToString(resolution)
    case Difficulty => IntToString(difficulty)
    case Offset => floats.offset
    case PreviewStart => floats.previewStart
    case PreviewEnd => floats.previewEnd
    case _ => Quoted(Get(meta, f))
  }

  /** Line `2 + k` of the `[Song]` block is the entry of the `k`-th field. */
  lemma BlockEntry(meta: SongMetadata, resolution: int, difficulty: int, floats: FloatTexts, k: nat)
    requires k < 12
    ensures SongBlock(meta, resolution, difficulty, floats)[2 + k]
         == Entry(Key(Fields[k]), ChartValue(meta, resolution, difficulty, floats, Fields[k]))
  {
    var block := SongBlock(meta, resolution, difficulty, floats);
    var head := SongHead(meta);
    assert |head| == 8;
    if k < 6 {
      assert block[2 + k] == head[2 + k];
    } else {
      assert block[2 + k] == block[8 + (k - 6)];
    }
  }

  /** An entry line is a space, the key, " = " and the value. */
  lemma EntrySplits(key: string, value: string)
    requires NoSpace(key)
    ensures Entry(key, value)[0] == ' '
    ensures SplitAssignment(Entry(key, value)[1..]) == Some(Assignment(key, value))
  {
    assert Entry(key, value)[1..] == key + " = " + value;
    SplitAssignmentOf(key, value);
  }

  lemma KeysHaveNoSpace(f: Field)
    ensures NoSpace(Key(f))
  {
  }

  /**
   * The `[Song]` block opens with `[Song]` and `{`, holds one indented
   * `Key = Value` line for each of the twelve metadata keys in prompt order,
   * and closes with `}` and a blank line.
   */
  lemma SongBlockEntries(meta: SongMetadata, resolution: int, difficulty: int, floats: FloatTexts)
    ensures var block := SongBlock(meta, resolution, difficulty, floats);
      && |block| == 16 && block[0] == "[Song]" && block[1] == "{"
      && block[14] == "}" && block[15] == ""
      && forall k :: 0 <= k < 12 ==>
           && block[2 + k][0] == ' '
           && SplitAssignment(block[2 + k][1..])
              == Some(Assignment(Key(Fields[k]), ChartValue(meta, resolution, difficulty, floats, Fields[k])))
  {
    var block := SongBlock(meta, resolution, difficulty, floats);
    forall k | 0 <= k < 12
      ensures block[2 + k][0] == ' '
      ensures SplitAssignment(block[2 + k][1..])
              == Some(Assignment(Key(Fields[k]), ChartValue(meta, resolution, difficulty, floats, Fields[k])))
    {
      BlockEntry(meta, resolution, difficulty, floats, k);
      KeysHaveNoSpace(Fields[k]);
      EntrySplits(Key(Fields[k]), ChartValue(meta, resolution, difficulty, floats, Fields[k]));
    }
  }

  /** The shortest decimal form of an integer: digits after an optional minus, no leading zero. */
  lemma IntegerText(x: int)
    ensures var v := IntToString(x);
      && |v| > 0 && IsDigit(v[|v| - 1])
      && (forall i :: 0 <= i < |v| ==> IsDigit(v[i]) || (i == 0 && v[i] == '-'))
      && (v[0] == '0' ==> v == "0")
      && (v[0] == '-' ==> |v| > 1 && v[1] != '0')
  {
    if x < 0 {
      NatToStringDigits(-x);
    } else {
      NatToStringDigits(x);
    }
  }

  /**
   * Resolution and Difficulty are written as integers: in the shortest
   * decimal form, which `int()` reads back as the converted value.
   */
  lemma IntegerFieldsCanonical(meta: SongMetadata, resolution: int, difficulty: int, floats: FloatTexts, f: Field)
    requires f == Resolution || f == Difficulty
    ensures var v := ChartValue(meta, resolution, difficulty, floats, f);
      && PyInt(v) == Some(if f == Resolution then resolution else difficulty)
      && (forall i :: 0 <= i < |v| ==> IsDigit(v[i]) || (i == 0 && v[i] == '-'))
      && (|v| > 0 && v[0] == '0' ==> v == "0")
      && (|v| > 0 && v[0] == '-' ==> |v| > 1 && v[1] != '0')
  {
    var x := if f == Resolution then resolution else difficulty;
    PyIntOfIntToString(x);
    IntegerText(x);
  }

  /** These are the values `generate_chart` writes verbatim. */
  predicate NoNewlineInChart(meta: SongMetadata, floats: FloatTexts) {
    && NoNewline(meta.name) && NoNewline(meta.artist) && NoNewline(meta.album)
    && NoNewline(meta.genre) && NoNewline(meta.year) && NoNewline(meta.charter)
    && NoNewline(meta.musicStream)
    && NoNewline(floats.offset) && NoNewline(floats.previewStart) && NoNewline(floats.previewEnd)
  }

  lemma EntryNoNewline(key: string, value: string)
    requires NoNewline(key) && NoNewline(value)
    ensures NoNewline(Entry(key, value))
  {
    NoNewlineConcat(" " + key, " = ");
    NoNewlineConcat(" " + key + " = ", value);
    NoNewlineConcat(" ", key);
  }

  lemma QuotedNoNewline(s: string)
    requires NoNewline(s)
    ensures NoNewline(Quoted(s))
  {
    NoNewlineConcat("\"", s);
    NoNewlineConcat("\"" + s, "\"");
  }

  lemma IntNoNewline(x: int)
    ensures NoNewline(IntToString(x))
  {
    IntToStringShape(x);
  }

  lemma SongBlockNoNewline(meta: SongMetadata, resolution: int, difficulty: int, floats: FloatTexts)
    requires NoNewlineInChart(meta, floats)
    ensures forall k :: 0 <= k < 16 ==> NoNewline(SongBlock(meta, resolution, difficulty, floats)[k])
  {
    QuotedNoNewline(meta.name);
    EntryNoNewline("Name", Quoted(meta.name));
    QuotedNoNewline(meta.artist);
    EntryNoNewline("Artist", Quoted(meta.artist));
    QuotedNoNewline(meta.album);
    EntryNoNewline("Album", Quoted(meta.album));
    QuotedNoNewline(meta.genre);
    EntryNoNewline("Genre", Quoted(meta.genre));
    QuotedNoNewline(meta.year);
    EntryNoNewline("Year", Quoted(meta.year));
    NoNewlineConcat(", ", meta.charter);
    QuotedNoNewline(", " + meta.charter);
    EntryNoNewline("Charter", Quoted(", " + meta.charter));
    IntNoNewline(resolution);
    EntryNoNewline("Resolution", IntToString(resolution));
    IntNoNewline(difficulty);
    EntryNoNewline("Difficulty", IntToString(difficulty));
    EntryNoNewline("Offset", floats.offset);
    EntryNoNewline("Preview_start", floats.previewStart);
    EntryNoNewline("Preview_end", floats.previewEnd);
    QuotedNoNewline(meta.musicStream);
    EntryNoNewline("MusicStream", Quoted(meta.musicStream));
  }

  lemma TempoLineNoNewline(t: string, b: string)
    requires NoNewline(t) && NoNewline(b)
    ensures NoNewline(t + " = B " + b)
  {
    NoNewlineConcat(t, " = B ");
    NoNewlineConcat(t + " = B ", b);
  }

  lemma NoteLineNoNewline(t: string, p: string, l: string)
    requires NoNewline(t) && NoNewline(p) && NoNewline(l)
    ensures NoNewline(t + " = N " + p + " " + l)
  {
    NoNewlineConcat(t, " = N ");
    NoNewlineConcat(t + " = N ", p);
    NoNewlineConcat(t + " = N " + p, " ");
    NoNewlineConcat(t + " = N " + p + " ", l);
  }

  lemma EventLinesNoNewline(c: TempoChange, n: Note)
    ensures NoNewline(SyncLine(c)) && NoNewline(NoteLine(n))
  {
    IntNoNewline(c.tick);
    IntNoNewline(MilliBpm(c.bpm));
    TempoLineNoNewline(IntToString(c.tick), IntToString(MilliBpm(c.bpm)));
    IntNoNewline(n.tick);
    IntNoNewline(n.pitch - 60);
    IntNoNewline(n.length);
    NoteLineNoNewline(IntToString(n.tick), IntToString(n.pitch - 60), IntToString(n.length));
  }

  /** The lines of a block and two event sections hold no newline when their parts hold none. */
  lemma SectionsNoNewline(block: seq<string>, sync: seq<string>, expert: seq<string>)
    requires forall k :: 0 <= k < |block| ==> NoNewline(block[k])
    requires forall i :: 0 <= i < |sync| ==> NoNewline(sync[i])
    requires forall i :: 0 <= i < |expert| ==> NoNewline(expert[i])
    ensures var lines := block + (["[SyncTrack]"] + sync + [""]) + (["[ExpertSingle]"] + expert + [""]);
      forall k :: 0 <= k < |lines| ==> NoNewline(lines[k])
  {
    var lines := block + (["[SyncTrack]"] + sync + [""]) + (["[ExpertSingle]"] + expert + [""]);
    var b, n := |block|, |sync|;
    SectionsLayout(block, sync, expert);
    forall k | 0 <= k < |lines| ensures NoNewline(lines[k]) {
      if k < b {
        assert lines[k] == block[k];
      } else if b < k < b + 1 + n {
        assert lines[k] == sync[k - b - 1];
      } else if b + 2 + n < k < b + 3 + n + |expert| {
        assert lines[k] == expert[k - b - 3 - n];
      }
    }
  }

  /**
   * When no value written verbatim holds a newline, the text of the chart
   * file has exactly `|changes| + |notes| + 20` lines, and they are the
   * chart's lines.
   */
  lemma ChartText(meta: SongMetadata, resolution: int, difficulty: int, floats: FloatTexts,
                  changes: seq<TempoChange>, notes: seq<Note>)
    requires NoNewlineInChart(meta, floats)
    ensures var lines := ChartLines(meta, resolution, difficulty, floats, changes, notes);
      Lines(Unlines(lines)) == lines && |Lines(Unlines(lines))| == |changes| + |notes| + 20
  {
    var lines := ChartLines(meta, resolution, difficulty, floats, changes, notes);
    var block := SongBlock(meta, resolution, difficulty, floats);
    var sync, expert := MapLines(SyncLine, changes), MapLines(NoteLine, notes);
    SongBlockNoNewline(meta, resolution, difficulty, floats);
    MapLinesAt(SyncLine, changes);
    MapLinesAt(NoteLine, notes);
    forall i | 0 <= i < |sync| ensures NoNewline(sync[i]) {
      EventLinesNoNewline(changes[i], Note(0, 0, 0));
    }
    forall i | 0 <= i < |expert| ensures NoNewline(expert[i]) {
      EventLinesNoNewline(TempoChange(0, 0.0), notes[i]);
    }
    SectionsNoNewline(block, sync, expert);
    assert lines == block + (["[SyncTrack]"] + sync + [""]) + (["[ExpertSingle]"] + expert + [""]);
    LinesOfUnlines(lines);
  }

  /** A whole number of BPM is stored as exactly a thousand times that number. */
  lemma MilliBpmOfInteger(bpm: int)
    ensures MilliBpm(bpm as real) == 1000 * bpm
  {
  }

  /** A tempo given to three decimal places is stored without loss. */
  lemma MilliBpmExact(bpm: real)
    requires (bpm * 1000.0).Floor as real == bpm * 1000.0
    ensures MilliBpm(bpm) as real == bpm * 1000.0
  {
    TruncExact(bpm * 1000.0);
  }

  lemma TruncExact(x: real)
    requires x.Floor as real == x
    ensures Trunc(x) as real == x
  {
    var n := x.Floor;
    if x < 0.0 {
      assert -x == (-n) as real;
      assert (-x).Floor == -n;
    }
  }

  /** The decimal forms of the numbers in the example input. */
  lemma ExampleNumerals()
    ensures IntToString(0) == "0" && IntToString(2) == "2"
    ensures IntToString(192) == "192" && IntToString(480) == "480"
  {
    assert NatToString(19) == "19";
    assert NatToString(48) == "48";
  }

  /** The tempos of the example input, as stored. */
  lemma ExampleTempos()
    ensures MilliBpm(120.0) == 120000 && MilliBpm(140.0) == 140000
  {
    MilliBpmOfInteger(120);
    MilliBpmOfInteger(140);
  }

  lemma ExampleTempoNumerals()
    ensures IntToString(120000) == "120000" && IntToString(140000) == "140000"
  {
    assert NatToString(12) == "12";
    assert NatToString(120) == "120";
    assert NatToString(1200) == "1200";
    assert NatToString(12000) == "12000";
    assert NatToString(14) == "14";
    assert NatToString(140) == "140";
    assert NatToString(1400) == "1400";
    assert NatToString(14000) == "14000";
  }

  /** The texts of the example's event lines. */
  lemma ExampleLineTexts()
    ensures "0" + " = B " + "120000" == "0 = B 120000"
    ensures "480" + " = B " + "140000" == "480 = B 140000"
    ensures "0" + " = N " + "0" + " " + "192" == "0 = N 0 192"
    ensures "192" + " = N " + "2" + " " + "192" == "192 = N 2 192"
  {
  }

  /**
   * The example input at the end of model/parser.py: the two event
   * sections the chart holds after its `[Song]` block.
   */
  lemma ExampleChart()
    ensures SyncTrack([TempoChange(0, 120.0), TempoChange(480, 140.0)])
         == ["[SyncTrack]", "0 = B 120000", "480 = B 140000", ""]
    ensures ExpertSingle([Note(0, 60, 192), Note(192, 62, 192)])
         == ["[ExpertSingle]", "0 = N 0 192", "192 = N 2 192", ""]
  {
    ExampleSyncTrack();
    ExampleExpertSingle();
  }

  /** A tempo line, from the texts of its two numbers. */
  lemma SyncLineOf(tick: int, bpm: real, tickText: string, bpmText: string)
    requires IntToString(tick) == tickText && IntToString(MilliBpm(bpm)) == bpmText
    ensures SyncLine(TempoChange(tick, bpm)) == tickText + " = B " + bpmText
  {
  }

  /** A note line, from the texts of its three numbers. */
  lemma NoteLineOf(tick: int, pitch: int, length: int, tickText: string, fretText: string, lengthText: string)
    requires IntToString(tick) == tickText && IntToString(pitch - 60) == fretText
    requires IntToString(length) == lengthText
    ensures NoteLine(Note(tick, pitch, length)) == tickText + " = N " + fretText + " " + lengthText
  {
  }

  lemma ExampleSyncTrack()
    ensures SyncTrack([TempoChange(0, 120.0), TempoChange(480, 140.0)])
         == ["[SyncTrack]", "0 = B 120000", "480 = B 140000", ""]
  {
    var changes := [TempoChange(0, 120.0), TempoChange(480, 140.0)];
    ExampleNumerals();
    ExampleTempos();
    ExampleTempoNumerals();
    SyncLineOf(0, 120.0, "0", "120000");
    SyncLineOf(480, 140.0, "480", "140000");
    ExampleLineTexts();
    SyncTrackLines(changes);
    var lines := SyncTrack(changes);
    assert lines[1] == "0 = B 120000" && lines[2] == "480 = B 140000";
    assert lines == ["[SyncTrack]", lines[1], lines[2], ""];
  }

  lemma ExampleExpertSingle()
    ensures ExpertSingle([Note(0, 60, 192), Note(192, 62, 192)])
         == ["[ExpertSingle]", "0 = N 0 192", "192 = N 2 192", ""]
  {
    var notes := [Note(0, 60, 192), Note(192, 62, 192)];
    ExampleNumerals();
    NoteLineOf(0, 60, 192, "0", "0", "192");
    NoteLineOf(192, 62, 192, "192", "2", "192");
    ExampleLineTexts();
    ExpertSingleLines(notes);
    var lines := ExpertSingle(notes);
    assert lines[1] == "0 = N 0 192" && lines[2] == "192 = N 2 192";
    assert lines == ["[ExpertSingle]", lines[1], lines[2], ""];
  }

  /**
   * Answers left empty for Resolution and Difficulty, or given as integer
   * literals, never make `generate_chart` fail; the defaults convert to 192
   * and 0.
   */
  lemma SongInfoConverts(answers: SongMetadata)
    requires answers.resolution == "" || PyInt(answers.resolution).Some?
    requires answers.difficulty == "" || PyInt(answers.difficulty).Some?
    ensures PyInt(GetSongInfo(answers).resolution).Some?
    ensures PyInt(GetSongInfo(answers).difficulty).Some?
    ensures answers.resolution == "" ==> PyInt(GetSongInfo(answers).resolution) == Some(192)
    ensures answers.difficulty == "" ==> PyInt(GetSongInfo(answers).difficulty) == Some(0)
  {
    PyIntOfIntToString(192);
    PyIntOfIntToString(0);
    assert IntToString(192) == "192";
    assert IntToString(0) == "0";
  }
}
