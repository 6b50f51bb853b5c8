# Reaper Connect peer: session-state reconciliation

A Dafny model of the reconciliation engine of `reaper_peer.py`, the service
every peer of a Reaper collaboration runs. Each song folder has one session
document: an ordered list of track records (one mixer channel per common
track and user) and a contribution ledger (recorded seconds per user). A
peer receives two kinds of request:

- a **state update** (`POST /incoming/state`): the eight required keys are
  checked, then the record keyed by (common track, user) is overwritten in
  place, or appended when the key is new (last write wins, nominal identity);
- a **stem upload** (`POST /incoming/stem`): the file part is required, the
  song, track and user default to `Song_Unknown` / `UNKNOWN` / `UNKNOWN`, the
  file name defaults to `<common_track>_<user_id>_<unix seconds>.wav` and has
  every `..` replaced by `_`, the bytes are stored, and the stem's duration
  (frames / rate, 0 when the rate is 0 or the file does not decode) is
  credited to the user only when it is positive.

Every change is a load-modify-save cycle on the song's session file; loading
an unknown song or an unparsable file gives the empty document, and a file
missing either key has it filled in empty.

Modules, one per component:

- `Wrappers` (`wrappers.dfy`): `Option`.
- `Tracks` (`tracks.dfy`): the track record, the first-match search, the
  upsert and its properties (replace in place, append, one record per key,
  idempotence, last write wins).
- `Ledger` (`ledger.dfy`): crediting seconds, the `duration > 0` guard, and a
  stream of stems for one user (exact sum, order independence).
- `Session` (`session.dfy`): the document, the stored-file form and its
  normalising load, the saved form.
- `Gateway` (`gateway.dfy`): payload validation, the WAV duration rule, the
  form defaults, the default file name and the `..` sanitiser.
- `PeerServer` (`peer.dfy`): class `Peer`, whose fields are the session files
  by song and the stored stems; its methods are the load-modify-save
  operations (the upsert is the loop with a `found` flag and `break`) and the
  two request handlers, each specified against the functions above.

The clock (`updated_at` text and Unix seconds) and the WAV reader's verdict
are parameters of the handlers. Mix values and seconds are `real`.

## Model

| member | source | states |
|---|---|---|
| `Tracks.FirstMatch` | reaper_peer.py:79-89 | the scan finds the first record whose common track and user id both equal the update's, or reports that no record has that key |
| `Tracks.Overwrite` | reaper_peer.py:82-87 | the matched record keeps its song folder, common track and user id, and takes the update's name, vol, pan, mute, solo and timestamp |
| `Tracks.NewRecord` | reaper_peer.py:91-102 | the appended record carries all of the update's fields, its song folder and the timestamp |
| `Tracks.Upsert` | reaper_peer.py:79-103 | the list grows by at most one; every record with another key is unchanged in place; afterwards the first record with the key carries the update (the lemmas below state replace-in-place, append, uniqueness, idempotence and last write wins) |
| `Tracks.UpsertReplacesFirstMatch` | reaper_peer.py:79-89 | when a record has the key, only the first such record changes: it takes the track name, vol, pan, mute, solo and timestamp and keeps its song folder; length is unchanged and every other record is unchanged in place |
| `Tracks.UpsertAppendsNew` | reaper_peer.py:90-103 | when no record has the key, exactly one record carrying all nine fields is appended at the end and the earlier records keep their values and order |
| `Tracks.UpsertKeepsKeysUnique` | reaper_peer.py:77-104 | a registry with at most one record per (common track, user) still has at most one after the upsert |
| `Tracks.UpsertLeavesOneRecord` | reaper_peer.py:77-104 | on such a registry, after the upsert exactly one record has the key and it carries the update's fields and timestamp |
| `Tracks.UpsertIdempotent` | reaper_peer.py:77-104 | applying the same update twice with the same timestamp gives the same track list as applying it once |
| `Tracks.UpsertLastWriteWins` | reaper_peer.py:79-103 | two updates of the same song, common track and user: the result is that of the second update alone |
| `Ledger.Credit` | reaper_peer.py:107-112 | the user's total becomes the previous total (0 when absent) plus the seconds; the user gains an entry if absent; every other user's entry is unchanged |
| `Ledger.Account` | reaper_peer.py:180-182 | a duration that is not positive leaves the ledger unchanged; a positive one is credited to the uploader; no user's total ever decreases |
| `Ledger.AccountAllEffect` | reaper_peer.py:180-182 | a stream of stems of one user adds exactly the sum of the positive durations to that user's total and touches nothing else; the entry is created only if some duration was positive |
| `Ledger.AccountAllPositive` | reaper_peer.py:180-182 | when every duration is positive the user's total is the prior total plus the exact sum of the durations, other users unchanged |
| `Ledger.AccountAllOrderFree` | reaper_peer.py:180-182 | the same stems accounted in any order leave the same ledger |
| `Session.Load` | reaper_peer.py:45-58 | an unknown song or unparsable file gives `tracks = []` and `contributions = {}`; otherwise a missing key is filled in empty and a present key keeps its value |
| `Session.Saved` | reaper_peer.py:61-64 | the written file holds both keys with the document's tracks and contributions |
| `Session.SaveThenLoad` | reaper_peer.py:61-64 | loading a song right after saving its document gives that document back; other songs are unaffected |
| `Gateway.Body` | reaper_peer.py:134 | the definition of `request.json or {}` (no body, or an empty one, reads as the empty object); no contract of its own, it is used by the contract of `PeerServer.Peer.IncomingState` |
| `Gateway.CheckState` | reaper_peer.py:135-157 | the payload is rejected as missing fields exactly when one of the eight required keys is absent; it is accepted exactly when all are present and of the right type, and then each field of the update is the payload's value |
| `Gateway.Duration` | reaper_peer.py:115-124 | 0 when decoding fails or the rate is 0, otherwise the value whose product with the rate is the frame count; never negative; positive exactly when the file decodes with a non-zero rate and frames |
| `Gateway.Sanitise` | reaper_peer.py:175 | after left-to-right replacement of `..` by `_` the name has no two consecutive dots and is no longer than before; a name without `..` is returned unchanged |
| `Gateway.SanitiseIdempotent` | reaper_peer.py:175 | sanitising an already sanitised name changes nothing |
| `Gateway.Decimal` | reaper_peer.py:174 | the Unix seconds are rendered as at least one decimal digit, with no leading zero |
| `Gateway.DecimalRoundTrip` | reaper_peer.py:174 | the rendered digits read back as the same number |
| `Gateway.DefaultStemName` | reaper_peer.py:174 | the default name is the common track, `_`, the user id, `_`, a run of digits that reads back as the Unix seconds, and `.wav` |
| `Gateway.StemFileName` | reaper_peer.py:174-175 | the stored name has no `..`; a non-empty upload name is kept when it has no `..` and never grows; an empty one is replaced by the sanitised default name |
| `Gateway.DefaultNameKept` | reaper_peer.py:174 | when the common track and user id have no `..`, an unnamed upload is stored exactly as `<common_track>_<user_id>_<seconds>.wav` |
| `Gateway.FormGet` | reaper_peer.py:167-169 | the definition of `request.form.get(key, default)`; no contract of its own, it is used by the contract of `PeerServer.Peer.IncomingStem` to fix the song, track and user of a stem |
| `PeerServer.Peer.LoadSession` | reaper_peer.py:45-58 | the method that fills in missing keys returns exactly the normalised document `Session.Load` describes |
| `PeerServer.Peer.UpdateTrackInSession` | reaper_peer.py:67-104 | the song's file afterwards holds the loaded document with its track list upserted (loop with `found` and `break`); other songs and the stems are unchanged |
| `PeerServer.Peer.AddContributionSeconds` | reaper_peer.py:107-112 | the song's file afterwards holds the loaded document with the seconds credited to the user; nothing else changes |
| `PeerServer.Peer.IncomingState` | reaper_peer.py:132-158 | the answer is 400 exactly when a required key is absent, 500 exactly when a value has the wrong type, 200 exactly when the update is valid; only a 200 changes the session files, and then exactly by the upsert |
| `PeerServer.Peer.IncomingStem` | reaper_peer.py:161-184 | without a file part the answer is 400 and nothing changes; otherwise the bytes are stored under the song and sanitised name, the answer carries that locator and the duration, and the ledger changes only by a positive duration credited to the user |

## Left out

- HTTP plumbing: Flask routing, `request.json` and multipart parsing, and `jsonify` bodies are reduced to the `Reply` variants and their status codes. The `GET /session/<song_folder>` route is `LoadSession` behind a route.
- Disk I/O: `open`, `json.load`/`json.dump`, `os.makedirs`, `os.path.join` and `file.save` are replaced by the two maps held by `Peer`. A stored file is either unparsable or a JSON object with or without each key. Track entries lacking keys, contribution entries lacking `total_seconds`, and extra keys are not modelled.
- Session files holding valid JSON that is not an object are not modelled. For `[]`, `"tracks" not in []` is true and the assignment `data["tracks"] = []` (reaper_peer.py:55) raises TypeError; for `null` or a number, the membership test on reaper_peer.py:54 itself raises. A string or array that contains both `"tracks"` and `"contributions"` (such as `["tracks", "contributions"]`) passes both tests, and `load_session` returns it as it is: `GET /session` may then answer 200 with that raw value, while the update paths fail on `setdefault` (reaper_peer.py:78, 109) with a 500. So `load_session` does not succeed on every stored file, and `Session.Load` promises its result only for the file forms the model has.
- A present session-file key whose value has the wrong type is not modelled either: with `"tracks": null`, for example, `for t in tracks` (reaper_peer.py:80) raises and the state update answers 500.
- WAV decoding (`wave.open`): the reader's verdict on the saved bytes is the parameter `wav` (undecodable, or frames and rate).
- The network client (`client_send_stem_and_state`, `client_pull_session`), the `.lua` snapshot writer and the command-line entry point `main`.
- Clocks: the `updated_at` text and the Unix seconds of the default name are parameters.
- Floating point: values are `real`, with no IEEE rounding; the code only stores and adds them.
- Gateway.CheckState: a payload value is either text or a number (`Gateway.Value`); JSON booleans, `null`, arrays and objects have no `Value`, so the model cannot express them. The code passes such values in the four text fields through as they are and stores them, and Python's `float()` accepts booleans in `vol`/`pan`/`mute`/`solo` (`float(True) == 1.0`). Among expressible payloads, the model answers a JSON number in a text field with 500, where the code would store the number, and numeric text in a mix field with 500, where `float()` would parse it. Every other coercion failure is a 500 with no change, as in the code, not a 400.
- PeerServer.Peer.IncomingState: inherits the value-type simplifications of `Gateway.CheckState`.
- PeerServer.Peer.IncomingState / Gateway.Body: the model takes a JSON body to be an object (`Payload`), or absent. The code behaves differently for other JSON bodies at the check on reaper_peer.py:145. A truthy number or `true` makes `"song_folder" in data` raise TypeError, so the answer is 500, not 400. An array or string that contains all eight key names passes the check, then `data["song_folder"]` (reaper_peer.py:149) raises, so the answer is 500. Any other array or string is answered 400. Falsy values become `{}` on reaper_peer.py:134 and are answered 400. The contract's "400 exactly when a required key is absent" holds only for object bodies.
- Concurrency: the model is sequential. It has no lost updates between overlapping load-save cycles, and the code has no locking either.
- Paths: the stored locator is the pair (song folder, sanitised file name) rather than a file-system path. The code replaces only `..` in the file name: absolute file names and the unsanitised song folder are not rejected by the code, and the model does not add such rejection.
- Werkzeug's `FileStorage.__bool__` returns `bool(self.filename)`. Under Flask, `if not file` (reaper_peer.py:164) therefore answers 400 for a file part with an empty name, and the `file.filename or …` default on reaper_peer.py:174 is never taken in deployment. Werkzeug is not part of this model. `IncomingStem` treats a file part as present or absent and deliberately keeps the default-name branch live, so that `StemFileName` and `DefaultNameKept` describe line 174 as written.
- `add_contribution_seconds` (reaper_peer.py:107-112) credits any amount, zero and negative included; the `duration > 0` guard sits in `incoming_stem` (reaper_peer.py:181). `AddContributionSeconds` likewise credits any amount, and `IncomingStem` applies the guard.
