# AISongCharter chart writers in Dafny

This project models the writers of `model/parser.py` in AISongCharter. They produce the two files Clone Hero needs for a song.

- **`generate_chart`** writes `notes.chart` in three parts:
  - a brace-delimited `[Song]` block with twelve `Key = Value` metadata lines;
  - a `[SyncTrack]` section with one `tick = B milli-bpm` line per tempo change;
  - an `[ExpertSingle]` section with one `tick = N fret length` line per note.
- **`generate_song_ini`** writes `song.ini`: a `[song]` header followed by fifteen `key = value` lines.
- **`get_song_info`** builds the metadata both writers read. Each field is the typed answer, or that field's default when the answer is empty (Python's `answer or default`).

Each `write` call becomes an append to an output buffer, which is a sequence of lines. The text of a file is `TextLines.Unlines` of its lines: every line followed by a newline. Each writer method builds its buffer step by step, as the source does, including the two `for` loops over the tempo changes and the notes. Each method is proved equal to a specification function:

- `Chart.ChartLines` for the chart;
- `SongIni.IniLines` for the ini file.

The lemmas beside those functions state the layout the writers promise.

The chart converts Resolution and Difficulty with `int()`. A failed conversion is modelled as Python's `ValueError`: `generate_chart` stops there, and the file keeps the lines already written. `Decimal.PyInt` models `int()` on a string:

- it strips white space from both ends: ASCII tab, line feed, vertical tab, form feed, carriage return and space, and the non-ASCII characters for which `str.isspace()` holds;
- it accepts an optional sign;
- it accepts digits with single underscores between them;
- anything else is an error.

The tempo is stored as `int(bpm * 1000)`, which is truncation toward zero (`Chart.Trunc`).

Modules:

- `Wrappers`: `Option`.
- `Decimal`: Python's integer-to-string and string-to-integer conversions.
- `TextLines`: lines of a text, and `key = value` splitting. This serves only to state the layout; the source has no reader.
- `SongInfo`: the metadata record and its defaulting.
- `Chart`: `generate_chart`.
- `SongIni`: `generate_song_ini`.

The writer emits the brace-delimited `[Song]` form, and the model follows it. `model/parser.py` has no chart reader and no note-event translation, so neither is modelled.

## Model

| member | source | states |
|---|---|---|
| Chart.GenerateChart | model/parser.py:5-37 | When Resolution and Difficulty are integer literals, the file is exactly the `[Song]` block, then `[SyncTrack]`, then `[ExpertSingle]`, with no error. A non-literal Resolution leaves the 8 lines written before it and reports `ValueError` with that text. A non-literal Difficulty does the same and leaves 9 lines, ending with the converted Resolution. |
| Chart.WriteSongBlock | model/parser.py:11-24 | The `[Song]` part: the 16-line block, or the partial block and the `ValueError` when `int()` rejects Resolution or Difficulty. |
| Chart.WriteSyncTrack | model/parser.py:27-31 | Appends exactly the `[SyncTrack]` section to the file so far: the header, one tempo line per change in input order, and a blank line. The loop invariant ties the buffer to the lines for the changes seen so far. |
| Chart.WriteExpertSingle | model/parser.py:34-37 | Appends exactly the `[ExpertSingle]` section: the header, one note line per note in input order, and a blank line. |
| Chart.ChartLayout | model/parser.py:11-37 | With n tempo changes and m notes, the chart has `n + m + 20` lines. The first 16 are the `[Song]` block. `[SyncTrack]` is at 16 and its blank at `17 + n`; `[ExpertSingle]` is at `18 + n` and its blank at `19 + n + m`. |
| Chart.ChartSections | model/parser.py:11-37 | A line is a section header if and only if it is line 0 (`[Song]`), 16 (`[SyncTrack]`) or `18 + n` (`[ExpertSingle]`). A line is blank if and only if it closes one of the three sections. |
| Chart.SongBlockShape | model/parser.py:11-24 | The block has 16 lines. It starts with `[Song]`, its only header line, and its only blank line is the last. |
| Chart.SongBlockEntries | model/parser.py:11-24 | The block opens with `[Song]` and `{` and closes with `}` and a blank line. Between them is one space-indented line per key, in the order Name, Artist, Album, Genre, Year, Charter, Resolution, Difficulty, Offset, Preview_start, Preview_end, MusicStream. Each line splits at ` = ` into that key and the value written for it. |
| Chart.BlockEntry | model/parser.py:12-23 | Line `2 + k` of the block is the entry of the `k`-th field with its chart value. Name, Artist, Album, Genre, Year and MusicStream are in double quotes; Charter is quoted with `", "` before it; the float fields are verbatim. |
| Chart.IntegerFieldsCanonical | model/parser.py:18-19 | Resolution and Difficulty are written as integers in shortest decimal form: optional minus, digits, no leading zero (also none right after the minus). `int()` reads them back as the converted values. |
| Chart.SyncTrackLines | model/parser.py:27-31 | `[SyncTrack]` has one line per BPM change, in input order, between its header and exactly one blank line. With no changes it is the header and the blank. |
| Chart.ExpertSingleLines | model/parser.py:34-37 | `[ExpertSingle]` has one line per note, in input order, between its header and exactly one blank line. With no notes it is the header and the blank. |
| Chart.SyncLineReadsBack | model/parser.py:30 | `Chart.SyncLine`, the tempo line, is the tick's text, then ` = B `, then the text of `int(bpm * 1000)`. `int()` reads both numbers back from their places in the line. |
| Chart.NoteLineReadsBack | model/parser.py:36 | `Chart.NoteLine`, the note line, is the tick's text, then ` = N `, then the pitch less 60, then a space, then the length. `int()` reads all three numbers back from their places in the line. |
| Chart.EventLinesShape | model/parser.py:28-36 | No tempo or note line is empty or looks like a section header. |
| Chart.MilliBpm | model/parser.py:29 | The stored tempo `int(bpm * 1000)` is `bpm * 1000` truncated toward zero: within 1 of it, on the side of zero. |
| Chart.Trunc | model/parser.py:29 | `int()` of a number truncates toward zero: the result is within 1 of `x`, on the side of zero. |
| Chart.MilliBpmOfInteger | model/parser.py:29 | A whole-number BPM is stored as exactly 1000 times that number (120 becomes 120000). |
| Chart.MilliBpmExact | model/parser.py:29 | A BPM with at most three decimals is stored without loss. |
| Chart.ExampleChart | model/parser.py:128-129 | The example input gives `0 = B 120000` and `480 = B 140000` in `[SyncTrack]`, and `0 = N 0 192` and `192 = N 2 192` in `[ExpertSingle]`: MIDI 60 is fret 0 and 62 is fret 2. |
| Chart.ChartText | model/parser.py:9-37 | If no value written verbatim holds a newline, the chart's text splits back into exactly its `n + m + 20` lines, for n tempo changes and m notes. |
| Chart.SongInfoConverts | model/parser.py:76-77 | Suppose the Resolution and Difficulty answers are empty or integer literals. Then the `int()` calls of lines 18-19 cannot fail on the metadata `get_song_info` returns, and the defaults convert to 192 and 0. |
| SongIni.GenerateSongIni | model/parser.py:45-61 | The ini buffer is exactly the `[song]` header and the fifteen assignments, in source order. |
| SongIni.IniEntries | model/parser.py:46-61 | The ini file has 16 lines: `[song]`, then one line per key in the order name, artist, album, genre, year, song_length, charter, diff_guitar, preview_start_time, delay, icon, playlist_track, track, album_track, loading_phrase. Each line splits at ` = ` into that key and its value. |
| SongIni.IniValuesVerbatim | model/parser.py:47-61 | The text fields are written unquoted and unchanged. The charter has no `", "` prefix, and diff_guitar is the raw Difficulty text. The last five values are `Untitled` and four empty strings. |
| SongIni.IniSongLength | model/parser.py:52 | song_length is the passed length in decimal digits, and `int()` reads it back unchanged. |
| SongIni.IniDifficultyMatchesChart | model/parser.py:54 | When the chart is written whole, the ini's diff_guitar and the Difficulty the chart writes at line 19 convert to the same integer. |
| SongIni.IniText | model/parser.py:45-61 | If no value written verbatim holds a newline, the ini text splits back into exactly its 16 lines. |
| SongInfo.GetSongInfo | model/parser.py:69-82 | The metadata dictionary `get_song_info` builds from the twelve answers: each field of the result is the answer for that field, or the field's default when the answer is empty. |
| SongInfo.GetSongInfoDefaulting | model/parser.py:70-81 | A non-empty answer is kept verbatim, and an empty answer yields the default. |
| SongInfo.GetSongInfoNonEmpty | model/parser.py:70-81 | No field of the returned metadata is empty. |
| SongInfo.GetSongInfoIdempotent | model/parser.py:70-81 | Feeding the returned metadata back in as answers returns it unchanged. |
| SongInfo.AllDefaults | model/parser.py:70-81 | All answers empty gives the defaults: Unknown Song, Unknown Artist, Unknown Album, Unknown, 0, Unknown Charter, 192, 0, 0, 0, 0, song.ogg. |
| Decimal.PyInt | model/parser.py:18-19 | Python's `int()` of a string. A result means that the stripped text is non-empty. A negative result means that the stripped text starts with `-`. Text that is empty after stripping is rejected. |
| Decimal.IntToString | model/parser.py:30 | Python's `str()` of an integer, as f-strings write tick, tempo, fret, length and song_length: non-empty, starting with `-` exactly when the number is negative, and then a digit. |
| Decimal.PyIntOfIntToString | model/parser.py:18-19 | `int(str(i)) == i` for every integer `i`. |
| Decimal.NatToStringDigits | model/parser.py:30 | The decimal text of a natural number is non-empty and all digits, with a leading zero only in "0". |
| Decimal.PyIntIgnoresSurroundingSpace | model/parser.py:18-19 | White space that `int()` strips, before or after the answer, does not change what it returns. |
| Decimal.PyIntRejects | model/parser.py:18-19 | `int()` rejects the empty string, doubled, leading and trailing underscores, a space after the sign, and the ASCII separators U+001C to U+001F around the digits, which it does not strip. |
| Decimal.PyIntAccepts | model/parser.py:18-19 | `int()` accepts padding, leading zeros, a sign and digit separators (`" 0192 "` is 192, `"+1_000"` is 1000). |

## Left out

- File handling and console output: `open`, `write` and `print` at model/parser.py:9, 39, 45 and 62. The output is a buffer of lines that the writer methods return, and its text is `Unlines` of it. An `OSError` from `open` is not modelled.
- The interactive prompts of `get_song_info` (`input()`, and the `print` at line 68). The twelve answers are a parameter of `SongInfo.GetSongInfo`.
- `process_song` is not part of this model. This covers audio conversion and the duration probe with pydub, directory creation, and the extension check. The song length it measures at line 109 is the parameter `songLength`. Its override of MusicStream at line 113 is a field of the metadata passed in.
- The module-level script at lines 125-131, apart from its example tempo changes and notes, which `Chart.ExampleChart` uses.
- Chart.WriteSongBlock, Chart.GenerateChart, SongIni.GenerateSongIni: `float()` and its formatting are not modelled. The source writes Offset, Preview_start and Preview_end as `float(...)` (chart) and `float(...):.2f` (ini). These renderings are opaque strings given as parameters (`FloatTexts`, `IniFloats`). So the `ValueError` that `float()` raises on a non-numeric answer is not modelled either.
- Chart.MilliBpm: the tempo is an exact real number, not an IEEE double. `int(bpm * 1000)` is exact truncation toward zero, so binary rounding of `bpm * 1000` is not modelled.
- Decimal.PyInt, Decimal.IntToString: only ASCII digits are accepted. Python's `int()` also accepts other Unicode decimal digits, which is not modelled. Python also limits the length of integer-string conversions, 4300 digits by default. Above that limit `int()` raises on a longer literal, and `str()` raises when it writes a longer tick, tempo, fret, length or song_length. The model has no such limit.
- The source's f-strings use the same kind of quote inside and outside the braces, for example `f' Name = "{song_metadata['Name']}"\n'`. This is valid Python only from version 3.12. The model assumes such an interpreter.
- Chart.ChartText, SongIni.IniText: these hold only when no value written verbatim contains a newline. A value with a newline shifts the lines of the file, and the model states nothing about that file beyond its buffer.
