/**
 * The lyric line and the lrclib.net response record
 * (AuraLyrics/Models/LyricsModels.swift).
 */
module LyricsModels {
  import opened Wrappers

  /**
   * One displayed line. `id` stands for the `UUID()` drawn when the line is
   * built: the model hands out naturals that were never used before.
   * `startTime` is in hundredths of a second (0 for plain, untimed lyrics).
   * Every field is immutable, and equality compares all three, the id
   * included.
   */
  datatype LyricsLine = LyricsLine(id: nat, startTime: nat, text: string)

  /** The start time in seconds, as the source's `TimeInterval`. */
  function StartSeconds(line: LyricsLine): real {
    line.startTime as real / 100.0
  }

  /** Lines built one after another draw ids `firstId`, `firstId + 1`, ... */
  predicate IdsFrom(lines: seq<LyricsLine>, firstId: nat) {
    forall k :: 0 <= k < |lines| ==> lines[k].id == firstId + k
  }

  /** No two lines of the list share an id. */
  predicate DistinctIds(lines: seq<LyricsLine>) {
    forall i, j :: 0 <= i < j < |lines| ==> lines[i].id != lines[j].id
  }

  /** Ids drawn in sequence are pairwise distinct. */
  lemma IdsFromDistinct(lines: seq<LyricsLine>, firstId: nat)
    requires IdsFrom(lines, firstId)
    ensures DistinctIds(lines)
  {
  }

  /**
   * Two lines built separately carry different ids, so they are different
   * values even when their start time and text agree.
   */
  lemma SeparatelyBuiltLinesDiffer(a: LyricsLine, b: LyricsLine)
    requires a.id != b.id
    ensures a != b
  {
  }

  /**
   * The decoded lrclib.net body. Every field is optional, so a body that
   * lacks some of them (both lyrics fields, say) still decodes.
   */
  datatype LRCLibResponse = LRCLibResponse(
    id: Option<int>,
    name: Option<string>,
    trackName: Option<string>,
    artistName: Option<string>,
    albumName: Option<string>,
    duration: Option<real>,
    instrumental: Option<bool>,
    plainLyrics: Option<string>,
    syncedLyrics: Option<string>)
}
