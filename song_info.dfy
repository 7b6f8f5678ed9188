/**
 * The song metadata record (model/parser.py, `get_song_info`): twelve text
 * fields, each the answer typed at a prompt or, when that answer is empty,
 * the field's default.
 */
module SongInfo {

  /** The metadata dictionary, one field per key, every value a string. */
  datatype SongMetadata = SongMetadata(
    name: string,
    artist: string,
    album: string,
    genre: string,
    year: string,
    charter: string,
    resolution: string,
    difficulty: string,
    offset: string,
    previewStart: string,
    previewEnd: string,
    musicStream: string)

  datatype Field =
    | Name | Artist | Album | Genre | Year | Charter
    | Resolution | Difficulty | Offset | PreviewStart | PreviewEnd | MusicStream

  /** The twelve fields in the order the prompts ask for them. */
  const Fields: seq<Field> :=
    [Name, Artist, Album, Genre, Year, Charter,
     Resolution, Difficulty, Offset, PreviewStart, PreviewEnd, MusicStream]

  /** The dictionary key of a field. */
  function Key(f: Field): string {
    match f
    case Name => "Name"
    case Artist => "Artist"
    case Album => "Album"
    case Genre => "Genre"
    case Year => "Year"
    case Charter => "Charter"
    case Resolution => "Resolution"
    case Difficulty => "Difficulty"
    case Offset => "Offset"
    case PreviewStart => "Preview_start"
    case PreviewEnd => "Preview_end"
    case MusicStream => "MusicStream"
  }

  function Get(m: SongMetadata, f: Field): string {
    match f
    case Name => m.name
    case Artist => m.artist
    case Album => m.album
    case Genre => m.genre
    case Year => m.year
    case Charter => m.charter
    case Resolution => m.resolution
    case Difficulty => m.difficulty
    case Offset => m.offset
    case PreviewStart => m.previewStart
    case PreviewEnd => m.previewEnd
    case MusicStream => m.musicStream
  }

  /** The value used when the answer for a field is left empty. */
  function Default(f: Field): string {
    match f
    case Name => "Unknown Song"
    case Artist => "Unknown Artist"
    case Album => "Unknown Album"
    case Genre => "Unknown"
    case Year => "0"
    case Charter => "Unknown Charter"
    case Resolution => "192"
    case Difficulty => "0"
    case Offset => "0"
    case PreviewStart => "0"
    case PreviewEnd => "0"
    case MusicStream => "song.ogg"
  }

  /** Python's `answer or default` on strings: only the empty string is falsy. */
  function OrDefault(answer: string, default: string): string {
    if answer == "" then default else answer
  }

  /**
   * The metadata `get_song_info` returns for the twelve answers typed at its
   * prompts (the answers are given as a record of the same shape): each field
   * is the answer for that field, or the field's default when the answer is
   * empty.
   */
  function GetSongInfo(answers: SongMetadata): (m: SongMetadata)
    ensures forall f :: Get(m, f) == OrDefault(Get(answers, f), Default(f))
  {
    SongMetadata(
      OrDefault(answers.name, Default(Name)),
      OrDefault(answers.artist, Default(Artist)),
      OrDefault(answers.album, Default(Album)),
      OrDefault(answers.genre, Default(Genre)),
      OrDefault(answers.year, Default(Year)),
      OrDefault(answers.charter, Default(Charter)),
      OrDefault(answers.resolution, Default(Resolution)),
      OrDefault(answers.difficulty, Default(Difficulty)),
      OrDefault(answers.offset, Default(Offset)),
      OrDefault(answers.previewStart, Default(PreviewStart)),
      OrDefault(answers.previewEnd, Default(PreviewEnd)),
      OrDefault(answers.musicStream, Default(MusicStream)))
  }

  /** A non-empty answer is kept verbatim; an empty one yields the default. */
  lemma GetSongInfoDefaulting(answers: SongMetadata)
    ensures forall f :: Get(answers, f) != "" ==> Get(GetSongInfo(answers), f) == Get(answers, f)
    ensures forall f :: Get(answers, f) == "" ==> Get(GetSongInfo(answers), f) == Default(f)
  {
  }

  /** Two records with the same value for every field are the same record. */
  lemma FieldsDetermine(m: SongMetadata, n: SongMetadata)
    requires forall f :: Get(m, f) == Get(n, f)
    ensures m == n
  {
    assert Get(m, Name) == Get(n, Name) && Get(m, Artist) == Get(n, Artist);
    assert Get(m, Album) == Get(n, Album) && Get(m, Genre) == Get(n, Genre);
    assert Get(m, Year) == Get(n, Year) && Get(m, Charter) == Get(n, Charter);
    assert Get(m, Resolution) == Get(n, Resolution) && Get(m, Difficulty) == Get(n, Difficulty);
    assert Get(m, Offset) == Get(n, Offset) && Get(m, PreviewStart) == Get(n, PreviewStart);
    assert Get(m, PreviewEnd) == Get(n, PreviewEnd) && Get(m, MusicStream) == Get(n, MusicStream);
  }

  /** No field of the returned metadata is empty. */
  lemma GetSongInfoNonEmpty(answers: SongMetadata)
    ensures forall f :: Get(GetSongInfo(answers), f) != ""
  {
    forall f ensures Get(GetSongInfo(answers), f) != "" {
      assert Default(f) != "";
    }
  }

  /** Feeding the result back as answers changes nothing. */
  lemma GetSongInfoIdempotent(answers: SongMetadata)
    ensures GetSongInfo(GetSongInfo(answers)) == GetSongInfo(answers)
  {
    var m := GetSongInfo(answers);
    GetSongInfoNonEmpty(answers);
    GetSongInfoDefaulting(m);
    FieldsDetermine(GetSongInfo(m), m);
  }

  /** All answers empty: every field takes its default. */
  lemma AllDefaults()
    ensures var m := GetSongInfo(SongMetadata("", "", "", "", "", "", "", "", "", "", "", ""));
      && m.name == "Unknown Song" && m.artist == "Unknown Artist"
      && m.album == "Unknown Album" && m.genre == "Unknown" && m.year == "0"
      && m.charter == "Unknown Charter" && m.resolution == "192"
      && m.difficulty == "0" && m.offset == "0" && m.previewStart == "0"
      && m.previewEnd == "0" && m.musicStream == "song.ogg"
  {
  }
}
