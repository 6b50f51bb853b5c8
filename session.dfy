/**
  The session document of one song (track registry plus contribution ledger)
  and the form in which the per-song session file is read back: loading
  normalises whatever the file holds into a document.
 */
module Session {
  import opened Wrappers
  import opened Tracks
  import opened Ledger

  datatype Document = Document(tracks: seq<Track>, contributions: Contributions)

  /** What a session file yields when read: text that does not parse as JSON,
      or a JSON object in which either key may be missing. */
  datatype StoredFile =
    | Unparsable
    | Json(tracks: Option<seq<Track>>, contributions: Option<Contributions>)

  /** The session files on disk, by song folder. */
  type Store = map<string, StoredFile>

  /** The document `load_session` returns for `song`: an unknown song or an
      unparsable file gives the empty document, a missing key is filled in
      empty, and a present key keeps its value. */
  function Load(store: Store, song: string): (d: Document)
    ensures song !in store || store[song].Unparsable? ==> d.tracks == [] && d.contributions == map[]
    ensures song in store && store[song].Json? && store[song].tracks.Some? ==> d.tracks == store[song].tracks.value
    ensures song in store && store[song].Json? && store[song].tracks.None? ==> d.tracks == []
    ensures song in store && store[song].Json? && store[song].contributions.Some? ==> d.contributions == store[song].contributions.value
    ensures song in store && store[song].Json? && store[song].contributions.None? ==> d.contributions == map[]
  {
    if song !in store then Document([], map[])
    else match store[song]
      case Unparsable => Document([], map[])
      case Json(tracks, contributions) => Document(tracks.GetOr([]), contributions.GetOr(map[]))
  }

  /** The file `save_session` writes: both keys present, so loading it needs
      no filling in. */
  function Saved(d: Document): (f: StoredFile)
    ensures f.Json? && f.tracks.Some? && f.contributions.Some?
    ensures f.tracks.value == d.tracks && f.contributions.value == d.contributions
  {
    Json(Some(d.tracks), Some(d.contributions))
  }

  /** Loading what was just saved gives back the saved document, and saving
      one song leaves every other song's document as it was. */
  lemma SaveThenLoad(store: Store, song: string, d: Document)
    ensures Load(store[song := Saved(d)], song) == d
    ensures forall other :: other != song ==> Load(store[song := Saved(d)], other) == Load(store, other)
  {
  }

  /** The document after the last-write-wins upsert of one state update. */
  function WithTrack(d: Document, s: TrackState, now: string): Document {
    d.(tracks := Upsert(d.tracks, s, now))
  }

  /** The document after `seconds` are credited to `user`. */
  function WithCredit(d: Document, user: string, seconds: real): Document {
    d.(contributions := Credit(d.contributions, user, seconds))
  }
}
