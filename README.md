# GuitarPro-to-MIDI converter core, in Dafny

This project models the core of GuitarPro-to-MIDI, a Python tool that turns a
PyGuitarPro `Song` into a music21 `Score`. As the code stands, that core is two
pieces:

- `get_duration_name` (`src/utils.py`). It maps a note-duration denominator
  (1, 2, 4, ..., 128) to the name of that duration ("whole" ... "hundredTwentyEighth").
  Any other value gives `None`. Module `Utils` models the dictionary as a
  `map` and the lookup as `dict.get`. Its lemmas relate the lookup to an
  independent description: the k-th name in a list of names, longest note
  first, sits at 2^k.
- `GuitarProToMusic21Convertor` (`src/transforming/guitarprotomusic21convertor.py`).
  Its constructor stores the song and extracts the metadata dictionary
  `{title, artist, tempo}`. `apply` builds a score that carries only a title
  and a composer. The title is the metadata title up to its first "." and the
  composer is the artist. Module `Transforming` models the song, the metadata
  dictionary and the score as datatypes. The converter is a class with the
  fields `gpStream` and `metadata`. `CreateNewScore` builds the score step by
  step, as the Python method does, and is proved equal to the specification
  function `HeaderScore`.
- Module `PyText` models the two pieces of Python text handling the converter
  uses. `Str` is `str(...)` on a string or on `None`. `Split` is `str.split`
  with a one-character separator. `Join` (`sep.join`) is its inverse, and
  both round trips are proved.

Three consequences of the code as it stands:
- The converter builds only the header score, with no parts, measures or notes.
- `str(None)` gives the text "None", so an absent title or artist becomes "None" (`MetadataOfAbsentTitle`).
- Construction does not check the number of tracks or the tempo, and neither does the model.

## Model

| member | source | states |
|---|---|---|
| `Utils.GetDurationName` | src/utils.py:1-12 | `dict.get` on the literal: a name only for a key of the dictionary, and every name one of the eight duration names; further stated by `DurationNameDomain` and `DurationNameOfPower`: a name exactly for 2^0 .. 2^7, the k-th name for 2^k, `None` otherwise |
| `Utils.DurationNameOfPower` | src/utils.py:2-11 | for 0 <= k <= 7, the value 2^k is looked up as the k-th name of whole, half, quarter, eighth, sixteenth, thirtySecond, sixtyFourth, hundredTwentyEighth |
| `Utils.DurationNameDomain` | src/utils.py:1-12 | the lookup gives a name exactly when the value is 2^k with 0 <= k <= 7; every other value gives `None` |
| `Utils.DurationIndex` | src/utils.py:2-12 | every value with a name is 2^k for some k <= 7, and its name is the k-th name |
| `Utils.DurationNameInjective` | src/utils.py:2-11 | two distinct values that both have a name have distinct names |
| `Utils.DurationNameOrder` | src/utils.py:2-11 | of two named values, the larger denominator (the shorter note) has its name later in the list of names |
| `PyText.Split` | src/transforming/guitarprotomusic21convertor.py:31 | `str.split` always gives at least one piece, so `[0]` cannot fail, and no piece holds the separator |
| `PyText.JoinSplit` | src/transforming/guitarprotomusic21convertor.py:31 | joining the pieces of a split with the separator gives back the original text |
| `PyText.SplitJoin` | src/transforming/guitarprotomusic21convertor.py:31 | splitting a join of separator-free pieces gives back those pieces |
| `PyText.SplitHeadIsLongestPrefix` | src/transforming/guitarprotomusic21convertor.py:31 | the first piece of a split is a prefix of the text that is either all of it or followed by the separator |
| `PyText.SplitHeadUnique` | src/transforming/guitarprotomusic21convertor.py:31 | a separator-free prefix that ends at a separator or at the end of the text is the first piece |
| `PyText.Str` | src/transforming/guitarprotomusic21convertor.py:15-16 | `str(...)` keeps a string exactly and turns `None` into "None"; a string is never changed, so only the text "None" is ambiguous |
| `Transforming.GetMetadata` | src/transforming/guitarprotomusic21convertor.py:14-22 | title and artist are kept exactly when they are strings and become "None" when absent; tempo is passed through |
| `Transforming.MetadataDeterminesSong` | src/transforming/guitarprotomusic21convertor.py:14-22 | for songs whose title and artist are strings, equal metadata means equal title, artist and tempo: extraction loses nothing |
| `Transforming.MetadataOfAbsentTitle` | src/transforming/guitarprotomusic21convertor.py:15 | an absent title gives the same metadata as the title "None" |
| `Transforming.ScoreTitle` | src/transforming/guitarprotomusic21convertor.py:31 | the score title is a dot-free prefix of the metadata title that is either all of it or stops just before its first "." |
| `Transforming.ScoreTitleUnique` | src/transforming/guitarprotomusic21convertor.py:31 | those properties determine the score title uniquely |
| `Transforming.ScoreTitleOfDotFree` | src/transforming/guitarprotomusic21convertor.py:31 | a title without a "." is kept exactly |
| `Transforming.ScoreTitleIdempotent` | src/transforming/guitarprotomusic21convertor.py:31 | truncating the title twice gives the same result as truncating it once |
| `Transforming.HeaderScore` | src/transforming/guitarprotomusic21convertor.py:28-33 | the built score has no parts and has a metadata object; its composer is the metadata artist verbatim; its title is the dot-free prefix of the metadata title that is all of it or stops just before its first "." |
| `Transforming.GuitarProToMusic21Convertor.constructor` | src/transforming/guitarprotomusic21convertor.py:9-12 | the song is stored unchanged and the metadata is the one extracted from it |
| `Transforming.GuitarProToMusic21Convertor.CreateNewScore` | src/transforming/guitarprotomusic21convertor.py:28-33 | the score built step by step (empty score, empty metadata object inserted, title set, composer set) is the header score of the converter's metadata |
| `Transforming.GuitarProToMusic21Convertor.Apply` | src/transforming/guitarprotomusic21convertor.py:24-26 | `apply` returns exactly the header score, with no parts |
| `Transforming.ApplyTwice` | src/transforming/guitarprotomusic21convertor.py:24-26 | two calls of `apply` on one converter give equal scores |
| `Transforming.EnganoExample` | src/test/test_guitarprotomidiconvertor.py:20-33 | the test song gives title "Antonio Carlos, Jobim - Engano.gp4", artist "Antonio Carlos, Jobim" and tempo 70; its score has title "Antonio Carlos, Jobim - Engano" and composer "Antonio Carlos, Jobim" |

`GetDurationName` is a Dafny function with no precondition. It is therefore
total and deterministic by construction, and the Python function has no
state either.

## Left out

- `src/loading/serialization.py`: reading and writing Guitar Pro and MIDI files goes through PyGuitarPro and music21 file I/O. There is nothing to verify in it.
- The tests themselves read files from the home directory. They appear here only as the concrete example `EnganoExample`.
- music21 internals such as stream offsets and the `insert(0, ...)` placement. A score is a record holding its metadata object and its parts.
- Song fields other than title, artist and tempo. The converter does not read them.
- `GetDurationName` takes an integer. In Python, `True` and `1.0` equal and hash like `1`, so they would also find "whole". Non-integer keys are not modelled.
- `Str` covers `str(...)` of a string and of `None` only. Other Python values, such as numbers, are not modelled as song titles or artists.
