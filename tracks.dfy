/**
  The track registry of one song: an ordered list of mix records, one per
  (common track, user) pair, merged by a last-write-wins upsert.
  Identity is nominal: two records are the same channel exactly when their
  common-track names and user ids are equal strings.
 */
module Tracks {
  import opened Wrappers

  /** One mixer channel that one user contributed to one logical slot of a song. */
  datatype Track = Track(
    songFolder: string,
    commonTrack: string,
    userId: string,
    trackName: string,
    vol: real,
    pan: real,
    mute: real,
    solo: real,
    updatedAt: string)

  /** The fields of one incoming state update, already validated and coerced. */
  datatype TrackState = TrackState(
    songFolder: string,
    commonTrack: string,
    userId: string,
    trackName: string,
    vol: real,
    pan: real,
    mute: real,
    solo: real)

  /** `t` is the record of the channel keyed by (commonTrack, userId). */
  predicate Matches(t: Track, commonTrack: string, userId: string) {
    t.commonTrack == commonTrack && t.userId == userId
  }

  /** At most one record per (common track, user) pair. */
  predicate UniqueKeys(tracks: seq<Track>) {
    forall i, j :: 0 <= i < j < |tracks| ==> !Matches(tracks[j], tracks[i].commonTrack, tracks[i].userId)
  }

  /** The number of records keyed by (commonTrack, userId). */
  function CountKey(tracks: seq<Track>, commonTrack: string, userId: string): nat {
    if tracks == [] then 0
    else (if Matches(tracks[0], commonTrack, userId) then 1 else 0) + CountKey(tracks[1..], commonTrack, userId)
  }

  /** The index of the first record keyed by (commonTrack, userId), as the
      scan with a `found` flag and `break` finds it. */
  function FirstMatch(tracks: seq<Track>, commonTrack: string, userId: string): (r: Option<nat>)
    ensures r.Some? ==> r.value < |tracks| && Matches(tracks[r.value], commonTrack, userId)
    ensures r.Some? ==> forall j :: 0 <= j < r.value ==> !Matches(tracks[j], commonTrack, userId)
    ensures r.None? <==> forall j :: 0 <= j < |tracks| ==> !Matches(tracks[j], commonTrack, userId)
  {
    if tracks == [] then None
    else if Matches(tracks[0], commonTrack, userId) then Some(0)
    else match FirstMatch(tracks[1..], commonTrack, userId)
      case None => None
      case Some(k) => Some(k + 1)
  }

  /** The matched record with its name, mix values and timestamp replaced;
      its song folder and key are kept. */
  function Overwrite(t: Track, s: TrackState, now: string): (r: Track)
    ensures r.songFolder == t.songFolder && Matches(r, t.commonTrack, t.userId)
    ensures Matches(t, s.commonTrack, s.userId) ==> Carries(r, s, now)
  {
    t.(trackName := s.trackName, vol := s.vol, pan := s.pan, mute := s.mute, solo := s.solo, updatedAt := now)
  }

  /** The record appended for a key seen for the first time. */
  function NewRecord(s: TrackState, now: string): (r: Track)
    ensures Carries(r, s, now) && r.songFolder == s.songFolder
  {
    Track(s.songFolder, s.commonTrack, s.userId, s.trackName, s.vol, s.pan, s.mute, s.solo, now)
  }

  /** `t` carries every field of update `s` stamped at `now`, except possibly the song folder. */
  predicate Carries(t: Track, s: TrackState, now: string) {
    && Matches(t, s.commonTrack, s.userId)
    && t.trackName == s.trackName && t.vol == s.vol && t.pan == s.pan
    && t.mute == s.mute && t.solo == s.solo && t.updatedAt == now
  }

  /** Last-write-wins upsert: overwrite the first record with the update's key,
      or append a new record when there is none. */
  function Upsert(tracks: seq<Track>, s: TrackState, now: string): (r: seq<Track>)
    ensures |tracks| <= |r| <= |tracks| + 1
    ensures forall j :: 0 <= j < |tracks| && !Matches(tracks[j], s.commonTrack, s.userId) ==> r[j] == tracks[j]
    ensures FirstMatch(r, s.commonTrack, s.userId).Some?
    ensures Carries(r[FirstMatch(r, s.commonTrack, s.userId).value], s, now)
  {
    match FirstMatch(tracks, s.commonTrack, s.userId)
    case Some(i) =>
      var r := tracks[i := Overwrite(tracks[i], s, now)];
      assert Matches(r[i], s.commonTrack, s.userId);
      assert FirstMatch(r, s.commonTrack, s.userId) == Some(i);
      r
    case None =>
      var r := tracks + [NewRecord(s, now)];
      assert Matches(r[|tracks|], s.commonTrack, s.userId);
      assert FirstMatch(r, s.commonTrack, s.userId) == Some(|tracks|);
      r
  }

  /** When a record with the update's key exists, only the first such record
      changes, it takes the update's fields, and length and order are kept. */
  lemma UpsertReplacesFirstMatch(tracks: seq<Track>, s: TrackState, now: string, i: nat)
    requires i < |tracks| && Matches(tracks[i], s.commonTrack, s.userId)
    requires forall j :: 0 <= j < i ==> !Matches(tracks[j], s.commonTrack, s.userId)
    ensures var r := Upsert(tracks, s, now);
      && |r| == |tracks|
      && r[i] == Overwrite(tracks[i], s, now)
      && r[i].songFolder == tracks[i].songFolder
      && Carries(r[i], s, now)
      && forall j :: 0 <= j < |tracks| && j != i ==> r[j] == tracks[j]
  {
  }

  /** When no record has the update's key, exactly one record with all nine
      fields is appended at the end and the earlier records keep their values
      and order. */
  lemma UpsertAppendsNew(tracks: seq<Track>, s: TrackState, now: string)
    requires forall j :: 0 <= j < |tracks| ==> !Matches(tracks[j], s.commonTrack, s.userId)
    ensures var r := Upsert(tracks, s, now);
      && |r| == |tracks| + 1
      && r[..|tracks|] == tracks
      && r[|tracks|] == Track(s.songFolder, s.commonTrack, s.userId, s.trackName,
                              s.vol, s.pan, s.mute, s.solo, now)
  {
  }

  /** The upsert keeps at most one record per key. */
  lemma UpsertKeepsKeysUnique(tracks: seq<Track>, s: TrackState, now: string)
    requires UniqueKeys(tracks)
    ensures UniqueKeys(Upsert(tracks, s, now))
  {
  }

  /** After the upsert the update is visible: the first record with its key
      carries it, and on a registry without duplicate keys it is the only one. */
  lemma {:induction false} UpsertLeavesOneRecord(tracks: seq<Track>, s: TrackState, now: string)
    requires UniqueKeys(tracks)
    ensures var r := Upsert(tracks, s, now);
      && CountKey(r, s.commonTrack, s.userId) == 1
      && FirstMatch(r, s.commonTrack, s.userId).Some?
      && Carries(r[FirstMatch(r, s.commonTrack, s.userId).value], s, now)
  {
    var r := Upsert(tracks, s, now);
    UpsertKeepsKeysUnique(tracks, s, now);
    var i := FirstMatch(r, s.commonTrack, s.userId);
    match FirstMatch(tracks, s.commonTrack, s.userId)
    case Some(k) =>
      UpsertReplacesFirstMatch(tracks, s, now, k);
      assert Matches(r[k], s.commonTrack, s.userId);
      assert i == Some(k);
      CountUnique(r, k);
    case None =>
      UpsertAppendsNew(tracks, s, now);
      assert Matches(r[|tracks|], s.commonTrack, s.userId);
      assert i == Some(|tracks|);
      CountUnique(r, |tracks|);
  }

  /** In a registry without duplicate keys, a key that occurs occurs once. */
  lemma {:induction false} CountUnique(tracks: seq<Track>, k: nat)
    requires UniqueKeys(tracks) && k < |tracks|
    ensures CountKey(tracks, tracks[k].commonTrack, tracks[k].userId) == 1
  {
    var ct, uid := tracks[k].commonTrack, tracks[k].userId;
    if k == 0 {
      CountAbsent(tracks[1..], ct, uid);
    } else {
      assert !Matches(tracks[k], tracks[0].commonTrack, tracks[0].userId);
      assert UniqueKeys(tracks[1..]) by {
        forall i, j | 0 <= i < j < |tracks| - 1
          ensures !Matches(tracks[1..][j], tracks[1..][i].commonTrack, tracks[1..][i].userId)
        {
          assert !Matches(tracks[j + 1], tracks[i + 1].commonTrack, tracks[i + 1].userId);
        }
      }
      CountUnique(tracks[1..], k - 1);
    }
  }

  /** A key that no record has is counted zero times. */
  lemma {:induction false} CountAbsent(tracks: seq<Track>, commonTrack: string, userId: string)
    requires forall j :: 0 <= j < |tracks| ==> !Matches(tracks[j], commonTrack, userId)
    ensures CountKey(tracks, commonTrack, userId) == 0
  {
    if tracks != [] {
      CountAbsent(tracks[1..], commonTrack, userId);
    }
  }

  /** Applying the same update twice with the same timestamp gives what
      applying it once gives. */
  lemma UpsertIdempotent(tracks: seq<Track>, s: TrackState, now: string)
    ensures Upsert(Upsert(tracks, s, now), s, now) == Upsert(tracks, s, now)
  {
  }

  /** Two updates of the same channel of the same song: the second one wins
      outright, as if the first had never been applied. */
  lemma UpsertLastWriteWins(tracks: seq<Track>, s1: TrackState, now1: string, s2: TrackState, now2: string)
    requires s1.songFolder == s2.songFolder && s1.commonTrack == s2.commonTrack && s1.userId == s2.userId
    ensures Upsert(Upsert(tracks, s1, now1), s2, now2) == Upsert(tracks, s2, now2)
  {
    var t1 := Upsert(tracks, s1, now1);
    match FirstMatch(tracks, s1.commonTrack, s1.userId)
    case Some(i) =>
      UpsertReplacesFirstMatch(tracks, s1, now1, i);
      UpsertReplacesFirstMatch(t1, s2, now2, i);
      UpsertReplacesFirstMatch(tracks, s2, now2, i);
    case None =>
      UpsertAppendsNew(tracks, s1, now1);
      UpsertReplacesFirstMatch(t1, s2, now2, |tracks|);
      UpsertAppendsNew(tracks, s2, now2);
  }
}
