/**
 * Model of `src/transforming/guitarprotomusic21convertor.py`: the converter
 * from a PyGuitarPro song to a music21 score. As the code stands it reads the
 * song's title, artist and tempo and builds a score that carries only a
 * title and a composer; no part, measure or note is produced.
 */
module Transforming {

  import opened Wrappers
  import opened PyText

  /** The fields of a PyGuitarPro `Song` that the converter reads. */
  datatype Song = Song(title: PyValue, artist: PyValue, tempo: int)

  /** The dictionary built by `_get_metadata`, with its three keys. */
  datatype Metadata = Metadata(title: string, artist: string, tempo: int)

  /** A music21 `Metadata` object; a field not yet set reads as `None`. */
  datatype ScoreMetadata = ScoreMetadata(title: Option<string>, composer: Option<string>)

  /** A music21 `Part`. The converter never builds one. */
  datatype Part = Part(id: string)

  /** A music21 `Score`: its metadata object, if one was inserted, and its parts. */
  datatype Score = Score(metadata: Option<ScoreMetadata>, parts: seq<Part>)

  /**
   * `_get_metadata`: title and artist through `str(...)`, tempo as it is.
   * A title or artist that is already a string is kept exactly; an absent
   * one becomes the text "None".
   */
  function GetMetadata(song: Song): (m: Metadata)
    ensures m.tempo == song.tempo
    ensures song.title.PyStr? ==> m.title == song.title.s
    ensures song.artist.PyStr? ==> m.artist == song.artist.s
    ensures song.title.PyNone? ==> m.title == "None"
    ensures song.artist.PyNone? ==> m.artist == "None"
  {
    Metadata(Str(song.title), Str(song.artist), song.tempo)
  }

  /**
   * The metadata of a song whose title and artist are strings determines
   * those three fields of the song: extraction loses nothing.
   */
  lemma MetadataDeterminesSong(a: Song, b: Song)
    requires a.title.PyStr? && a.artist.PyStr? && b.title.PyStr? && b.artist.PyStr?
    requires GetMetadata(a) == GetMetadata(b)
    ensures a == b
  {
  }

  /** An absent title cannot be told apart from the title "None". */
  lemma MetadataOfAbsentTitle(song: Song)
    requires song.title.PyNone?
    ensures GetMetadata(song) == GetMetadata(song.(title := PyStr("None")))
  {
  }

  /**
   * `split(".")[0]`: the part of a title before its first ".", or the whole
   * title when it has none. It is the longest dot-free prefix of the title.
   */
  function ScoreTitle(title: string): (r: string)
    ensures r <= title
    ensures '.' !in r
    ensures |r| < |title| ==> title[|r|] == '.'
  {
    SplitHeadIsLongestPrefix(title, '.');
    Split(title, '.')[0]
  }

  /** Any dot-free prefix that ends at a "." or at the end is the score title. */
  lemma ScoreTitleUnique(title: string, p: string)
    requires p <= title && '.' !in p
    requires |p| == |title| || title[|p|] == '.'
    ensures ScoreTitle(title) == p
  {
    SplitHeadUnique(title, '.', p);
  }

  /** A title without a "." is kept exactly. */
  lemma ScoreTitleOfDotFree(title: string)
    requires '.' !in title
    ensures ScoreTitle(title) == title
  {
    ScoreTitleUnique(title, title);
  }

  /** Truncating twice is truncating once. */
  lemma ScoreTitleIdempotent(title: string)
    ensures ScoreTitle(ScoreTitle(title)) == ScoreTitle(title)
  {
    ScoreTitleOfDotFree(ScoreTitle(title));
  }

  /**
   * The score that `_create_new_m21_score` builds from a metadata
   * dictionary: no parts, and a metadata object whose title is the
   * truncated metadata title and whose composer is the metadata artist.
   */
  function HeaderScore(m: Metadata): (s: Score)
    ensures s.parts == []
    ensures s.metadata.Some?
    ensures s.metadata.value.composer == Some(m.artist)
    ensures s.metadata.value.title.Some?
    ensures s.metadata.value.title.value <= m.title
    ensures '.' !in s.metadata.value.title.value
    ensures var t := s.metadata.value.title.value;
            |t| < |m.title| ==> m.title[|t|] == '.'
  {
    var title := ScoreTitle(m.title);
    Score(Some(ScoreMetadata(Some(title), Some(m.artist))), [])
  }

  /** `GuitarProToMusic21Convertor`: the song it was given and its metadata. */
  class GuitarProToMusic21Convertor {
    var gpStream: Song
    var metadata: Metadata

    /** Stores the song unchanged and extracts its metadata. */
    constructor (gpStream: Song)
      ensures this.gpStream == gpStream
      ensures metadata == GetMetadata(gpStream)
    {
      this.gpStream := gpStream;
      metadata := GetMetadata(gpStream);
    }

    /**
     * `_create_new_m21_score`: an empty score, then an empty metadata object
     * inserted at offset 0, then its title and its composer set in turn.
     */
    method CreateNewScore() returns (score: Score)
      ensures score == HeaderScore(metadata)
    {
      score := Score(None, []);
      score := score.(metadata := Some(ScoreMetadata(None, None)));
      score := score.(metadata := Some(score.metadata.value.(title := Some(ScoreTitle(metadata.title)))));
      score := score.(metadata := Some(score.metadata.value.(composer := Some(metadata.artist))));
    }

    /** `apply`: the header-only score and nothing more. */
    method Apply() returns (score: Score)
      ensures score == HeaderScore(metadata)
    {
      score := CreateNewScore();
    }
  }

  /** Converting with the same converter twice gives equal scores. */
  method ApplyTwice(c: GuitarProToMusic21Convertor) returns (first: Score, second: Score)
    ensures first == second
    ensures first.parts == []
  {
    first := c.Apply();
    second := c.Apply();
  }

  /**
   * The song of the converter's test: its metadata, and the title and
   * composer of the score built from it.
   */
  lemma EnganoExample()
    ensures var song := Song(PyStr("Antonio Carlos, Jobim - Engano.gp4"), PyStr("Antonio Carlos, Jobim"), 70);
            var m := GetMetadata(song);
            m == Metadata("Antonio Carlos, Jobim - Engano.gp4", "Antonio Carlos, Jobim", 70) &&
            HeaderScore(m).metadata == Some(ScoreMetadata(Some("Antonio Carlos, Jobim - Engano"), Some("Antonio Carlos, Jobim")))
  {
    var title := "Antonio Carlos, Jobim - Engano.gp4";
    var p := "Antonio Carlos, Jobim - Engano";
    assert p <= title && title[|p|] == '.';
    ScoreTitleUnique(title, p);
  }
}
