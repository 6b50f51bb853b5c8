/**
  One running peer: its session files and its stored stems, and the
  load-modify-save operations and request handlers that change them.
 */
module PeerServer {
  import opened Wrappers
  import opened Tracks
  import opened Ledger
  import opened Session
  import opened Gateway

  /** Where a stem is stored: the song folder and the sanitised file name. */
  datatype StemKey = StemKey(songFolder: string, fileName: string)

  /** A handler's answer. */
  datatype Reply =
    | StatusOk                                          // 200 {"status": "ok"}
    | StemSaved(savedAs: StemKey, durationSeconds: real) // 200 with locator and duration
    | MissingFieldsError                                // 400 {"error": "missing fields"}
    | MissingFileError                                  // 400 {"error": "missing file"}
    | InternalError                                     // 500, an uncaught exception
  {
    function Code(): int {
      match this
      case StatusOk => 200
      case StemSaved(_, _) => 200
      case MissingFieldsError => 400
      case MissingFileError => 400
      case InternalError => 500
    }
  }

  class Peer {
    /** The session files, by song folder. */
    var sessions: Store
    /** The saved stem files. */
    var stems: map<StemKey, seq<bv8>>

    constructor (sessions: Store, stems: map<StemKey, seq<bv8>>)
      ensures this.sessions == sessions && this.stems == stems
    {
      this.sessions := sessions;
      this.stems := stems;
    }

    /** Read the document of `song`, filling in what the file lacks. */
    method LoadSession(song: string) returns (d: Document)
      ensures d == Load(sessions, song)
    {
      if song !in sessions {
        return Document([], map[]);
      }
      var tracks: seq<Track> := [];
      var contributions: Contributions := map[];
      match sessions[song] {
        case Unparsable =>
        case Json(t, c) =>
          if t.Some? { tracks := t.value; }
          if c.Some? { contributions := c.value; }
      }
      d := Document(tracks, contributions);
    }

    /** Load the song's document, overwrite the first record with the
        update's key or append a new one, and save. */
    method UpdateTrackInSession(s: TrackState, now: string)
      modifies this
      ensures sessions == old(sessions)[s.songFolder := Saved(WithTrack(Load(old(sessions), s.songFolder), s, now))]
      ensures stems == old(stems)
    {
      var sess := LoadSession(s.songFolder);
      var tracks := sess.tracks;
      var found := false;
      var i := 0;
      while i < |tracks|
        invariant 0 <= i <= |tracks|
        invariant tracks == sess.tracks
        invariant forall j :: 0 <= j < i ==> !Matches(sess.tracks[j], s.commonTrack, s.userId)
      {
        if Matches(tracks[i], s.commonTrack, s.userId) {
          tracks := tracks[i := Overwrite(tracks[i], s, now)];
          found := true;
          break;
        }
        i := i + 1;
      }
      if !found {
        tracks := tracks + [NewRecord(s, now)];
      }
      assert tracks == Upsert(sess.tracks, s, now) by {
        if found {
          UpsertReplacesFirstMatch(sess.tracks, s, now, i);
        }
      }
      sessions := sessions[s.songFolder := Saved(sess.(tracks := tracks))];
    }

    /** Load the song's document, add `seconds` to the user's total (from
        zero when the user has no entry yet), and save. */
    method AddContributionSeconds(song: string, user: string, seconds: real)
      modifies this
      ensures sessions == old(sessions)[song := Saved(WithCredit(Load(old(sessions), song), user, seconds))]
      ensures stems == old(stems)
    {
      var sess := LoadSession(song);
      var contributions := sess.contributions;
      if user !in contributions {
        contributions := contributions[user := 0.0];
      }
      contributions := contributions[user := contributions[user] + seconds];
      sessions := sessions[song := Saved(sess.(contributions := contributions))];
    }

    /** POST /incoming/state. */
    method IncomingState(json: Option<Payload>, now: string) returns (reply: Reply)
      modifies this
      ensures reply.Code() == 400 <==> exists k :: k in RequiredKeys && k !in Body(json)
      ensures reply != StatusOk ==> sessions == old(sessions)
      ensures CheckState(Body(json)).Accepted? <==> reply == StatusOk
      ensures CheckState(Body(json)).CoercionFailed? <==> reply == InternalError
      ensures reply == StatusOk ==>
        var s := CheckState(Body(json)).state;
        sessions == old(sessions)[s.songFolder := Saved(WithTrack(Load(old(sessions), s.songFolder), s, now))]
      ensures stems == old(stems)
    {
      var data := Body(json);
      var check := CheckState(data);
      match check
      case MissingFields =>
        reply := MissingFieldsError;
      case CoercionFailed =>
        reply := InternalError;
      case Accepted(s) =>
        UpdateTrackInSession(s, now);
        reply := StatusOk;
    }

    /** POST /incoming/stem. `wav` is what the WAV reader reports for the
        saved bytes; `clock` is the Unix time in whole seconds. */
    method IncomingStem(req: StemRequest, wav: WavInfo, clock: nat) returns (reply: Reply)
      modifies this
      ensures req.file.None? ==> reply == MissingFileError && sessions == old(sessions) && stems == old(stems)
      ensures req.file.Some? ==>
        var song := FormGet(req.form, "song_folder", DefaultSong);
        var track := FormGet(req.form, "common_track", DefaultTrack);
        var user := FormGet(req.form, "user_id", DefaultUser);
        var key := StemKey(song, StemFileName(req.file.value.filename, track, user, clock));
        && reply == StemSaved(key, Duration(wav))
        && stems == old(stems)[key := req.file.value.content]
        && sessions == if Duration(wav) > 0.0
                       then old(sessions)[song := Saved(WithCredit(Load(old(sessions), song), user, Duration(wav)))]
                       else old(sessions)
      ensures req.file.Some? ==>
        var song := FormGet(req.form, "song_folder", DefaultSong);
        var user := FormGet(req.form, "user_id", DefaultUser);
        Load(sessions, song).contributions == Account(Load(old(sessions), song).contributions, user, Duration(wav))
    {
      if req.file.None? {
        return MissingFileError;
      }
      var file := req.file.value;
      var song := FormGet(req.form, "song_folder", DefaultSong);
      var track := FormGet(req.form, "common_track", DefaultTrack);
      var user := FormGet(req.form, "user_id", DefaultUser);
      var name := StemFileName(file.filename, track, user, clock);
      var key := StemKey(song, name);
      stems := stems[key := file.content];
      var duration := Duration(wav);
      if duration > 0.0 {
        AddContributionSeconds(song, user, duration);
      }
      reply := StemSaved(key, duration);
    }
  }
}
