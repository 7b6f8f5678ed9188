/**
 * The `song.ini` writer of model/parser.py (`generate_song_ini`): a `[song]`
 * header followed by fifteen `key = value` lines.
 */
module SongIni {
  import opened Wrappers
  import opened Decimal
  import opened TextLines
  import opened SongInfo
  import opened Chart

  /**
   * How `f"{float(...):.2f}"` renders Preview_start and Offset; float
   * formatting is not part of this model.
   */
  datatype IniFloats = IniFloats(previewStartTime: string, delay: string)

  /** A `key = value` line of the ini file. */
  function Assign(key: string, value: string): string {
    key + " = " + value
  }

  /** The keys of the fifteen lines after `[song]`, in the order they are written. */
  const IniKeys: seq<string> :=
    ["name", "artist", "album", "genre", "year", "song_length", "charter", "diff_guitar",
     "preview_start_time", "delay", "icon", "playlist_track", "track", "album_track",
     "loading_phrase"]

  /** The lines of the ini file; `songLength` is the audio's length in milliseconds. */
  function IniLines(meta: SongMetadata, songLength: nat, floats: IniFloats): seq<string> {
    [ "[song]",
      Assign("name", meta.name),
      Assign("artist", meta.artist),
      Assign("album", meta.album),
      Assign("genre", meta.genre),
      Assign("year", meta.year),
      Assign("song_length", IntToString(songLength)),
      Assign("charter", meta.charter),
      Assign("diff_guitar", meta.difficulty),
      Assign("preview_start_time", floats.previewStartTime),
      Assign("delay", floats.delay),
      Assign("icon", "Untitled"),
      Assign("playlist_track", ""),
      Assign("track", ""),
      Assign("album_track", ""),
      Assign("loading_phrase", "") ]
  }

  /** `generate_song_ini`: the lines written to the ini file, whose text is `Unlines(file)`. */
  method GenerateSongIni(meta: SongMetadata, songLength: nat, floats: IniFloats) returns (file: seq<string>)
    ensures file == IniLines(meta, songLength, floats)
  {
    file := ["[song]"];
    file := file + [Assign("name", meta.name)];
    file := file + [Assign("artist", meta.artist)];
    file := file + [Assign("album", meta.album)];
    file := file + [Assign("genre", meta.genre)];
    file := file + [Assign("year", meta.year)];
    file := file + [Assign("song_length", IntToString(songLength))];
    file := file + [Assign("charter", meta.charter)];
    file := file + [Assign("diff_guitar", meta.difficulty)];
    file := file + [Assign("preview_start_time", floats.previewStartTime)];
    file := file + [Assign("delay", floats.delay)];
    file := file + [Assign("icon", "Untitled")];
    file := file + [Assign("playlist_track", "")];
    file := file + [Assign("track", "")];
    file := file + [Assign("album_track", "")];
    file := file + [Assign("loading_phrase", "")];
  }

  /** The value the ini file gives its `k`-th key. */
  function IniValue(meta: SongMetadata, songLength: nat, floats: IniFloats, k: nat): string
    requires k < 15
  {
    [ meta.name, meta.artist, meta.album, meta.genre, meta.year, IntToString(songLength),
      meta.charter, meta.difficulty, floats.previewStartTime, floats.delay,
      "Untitled", "", "", "", "" ][k]
  }

  /** Line `1 + k` assigns the `k`-th value to the `k`-th key. */
  lemma IniLine(meta: SongMetadata, songLength: nat, floats: IniFloats, k: nat)
    requires k < 15
    ensures IniLines(meta, songLength, floats)[1 + k] == Assign(IniKeys[k], IniValue(meta, songLength, floats, k))
  {
  }

  lemma IniKeysHaveNoSpace(k: nat)
    requires k < 15
    ensures NoSpace(IniKeys[k])
  {
  }

  /**
   * The ini file is `[song]` and then one `key = value` line per key of
   * `IniKeys`, in that order: each line splits back into its key and the value
   * written for it, whatever text that value holds.
   */
  lemma IniEntries(meta: SongMetadata, songLength: nat, floats: IniFloats)
    ensures var lines := IniLines(meta, songLength, floats);
      && |lines| == 16 && lines[0] == "[song]"
      && forall k :: 0 <= k < 15 ==>
           SplitAssignment(lines[1 + k]) == Some(Assignment(IniKeys[k], IniValue(meta, songLength, floats, k)))
  {
    var lines := IniLines(meta, songLength, floats);
    forall k | 0 <= k < 15
      ensures SplitAssignment(lines[1 + k]) == Some(Assignment(IniKeys[k], IniValue(meta, songLength, floats, k)))
    {
      IniLine(meta, songLength, floats, k);
      IniKeysHaveNoSpace(k);
      SplitAssignmentOf(IniKeys[k], IniValue(meta, songLength, floats, k));
    }
  }

  /**
   * The text fields go into the ini file verbatim: no quotes and, unlike the
   * chart, no ", " before the charter; Difficulty is the raw text, not its
   * `int()` conversion; the last five values are fixed.
   */
  lemma IniValuesVerbatim(meta: SongMetadata, songLength: nat, floats: IniFloats)
    ensures IniValue(meta, songLength, floats, 0) == meta.name
    ensures IniValue(meta, songLength, floats, 1) == meta.artist
    ensures IniValue(meta, songLength, floats, 2) == meta.album
    ensures IniValue(meta, songLength, floats, 3) == meta.genre
    ensures IniValue(meta, songLength, floats, 4) == meta.year
    ensures IniValue(meta, songLength, floats, 6) == meta.charter
    ensures IniValue(meta, songLength, floats, 7) == meta.difficulty
    ensures IniValue(meta, songLength, floats, 10) == "Untitled"
    ensures forall k :: 11 <= k < 15 ==> IniValue(meta, songLength, floats, k) == ""
  {
  }

  /** The song length is written in decimal, and `int()` reads it back. */
  lemma IniSongLength(meta: SongMetadata, songLength: nat, floats: IniFloats)
    ensures var v := IniValue(meta, songLength, floats, 5);
      && PyInt(v) == Some(songLength as int)
      && (forall i :: 0 <= i < |v| ==> IsDigit(v[i]))
  {
    PyIntOfIntToString(songLength);
    NatToStringDigits(songLength);
  }

  /**
   * When Resolution and Difficulty are integer literals, so that the chart
   * is written whole, the ini's `diff_guitar` reads back as the Difficulty
   * the chart writes for the same metadata.
   */
  lemma IniDifficultyMatchesChart(meta: SongMetadata, songLength: nat, floats: IniFloats, chartFloats: FloatTexts)
    requires PyInt(meta.resolution).Some? && PyInt(meta.difficulty).Some?
    ensures IniKeys[7] == "diff_guitar" && Key(Fields[7]) == "Difficulty"
    ensures PyInt(IniValue(meta, songLength, floats, 7))
         == PyInt(ChartValue(meta, PyInt(meta.resolution).value, PyInt(meta.difficulty).value, chartFloats, Fields[7]))
  {
    PyIntOfIntToString(PyInt(meta.difficulty).value);
  }

  /** These are the values `generate_song_ini` writes verbatim. */
  predicate NoNewlineInIni(meta: SongMetadata, floats: IniFloats) {
    && NoNewline(meta.name) && NoNewline(meta.artist) && NoNewline(meta.album)
    && NoNewline(meta.genre) && NoNewline(meta.year) && NoNewline(meta.charter)
    && NoNewline(meta.difficulty)
    && NoNewline(floats.previewStartTime) && NoNewline(floats.delay)
  }

  lemma AssignNoNewline(key: string, value: string)
    requires NoNewline(key) && NoNewline(value)
    ensures NoNewline(Assign(key, value))
  {
    NoNewlineConcat(key, " = ");
    NoNewlineConcat(key + " = ", value);
  }

  /** No line of the ini file holds a newline when no value written verbatim does. */
  lemma IniLinesNoNewline(meta: SongMetadata, songLength: nat, floats: IniFloats)
    requires NoNewlineInIni(meta, floats)
    ensures forall k :: 0 <= k < |IniLines(meta, songLength, floats)| ==> NoNewline(IniLines(meta, songLength, floats)[k])
  {
    IntToStringShape(songLength);
    AssignNoNewline("name", meta.name);
    AssignNoNewline("artist", meta.artist);
    AssignNoNewline("album", meta.album);
    AssignNoNewline("genre", meta.genre);
    AssignNoNewline("year", meta.year);
    AssignNoNewline("song_length", IntToString(songLength));
    AssignNoNewline("charter", meta.charter);
    AssignNoNewline("diff_guitar", meta.difficulty);
    AssignNoNewline("preview_start_time", floats.previewStartTime);
    AssignNoNewline("delay", floats.delay);
    AssignNoNewline("icon", "Untitled");
    AssignNoNewline("playlist_track", "");
    AssignNoNewline("track", "");
    AssignNoNewline("album_track", "");
    AssignNoNewline("loading_phrase", "");
  }

  /**
   * When no value written verbatim holds a newline, the text of the ini file
   * reads back as its sixteen lines.
   */
  lemma IniText(meta: SongMetadata, songLength: nat, floats: IniFloats)
    requires NoNewlineInIni(meta, floats)
    ensures Lines(Unlines(IniLines(meta, songLength, floats))) == IniLines(meta, songLength, floats)
    ensures |Lines(Unlines(IniLines(meta, songLength, floats)))| == 16
  {
    IniLinesNoNewline(meta, songLength, floats);
    LinesOfUnlines(IniLines(meta, songLength, floats));
  }
}
