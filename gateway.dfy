/**
  The decision logic of the ingestion gateway, apart from HTTP plumbing:
  the required-key check of a state payload, the duration rule for an
  uploaded stem, its metadata defaults, and the file-name rules (default
  name and the ".." sanitiser).
 */
module Gateway {
  import opened Wrappers
  import opened Tracks

  // ---------------------------------------------------------------- state

  /** A JSON value of a state payload: text or a number. */
  datatype Value = Text(s: string) | Number(x: real)

  /** A decoded JSON object. */
  type Payload = map<string, Value>

  /** The eight keys a state payload must carry. */
  const RequiredKeys: seq<string> :=
    ["song_folder", "common_track", "user_id", "track_name", "vol", "pan", "mute", "solo"]

  /** The object the handler inspects: a request without a JSON body, or
      with an empty one, reads as the empty object. */
  function Body(json: Option<Payload>): Payload {
    json.GetOr(map[])
  }

  predicate HasRequiredKeys(data: Payload) {
    forall k :: k in RequiredKeys ==> k in data
  }

  /** The required values have the types the handler uses them at: text for
      the identity and name fields, numbers for the four mix values. */
  predicate WellTyped(data: Payload)
    requires HasRequiredKeys(data)
  {
    && data["song_folder"].Text? && data["common_track"].Text?
    && data["user_id"].Text? && data["track_name"].Text?
    && data["vol"].Number? && data["pan"].Number?
    && data["mute"].Number? && data["solo"].Number?
  }

  /** Outcome of reading a state payload. */
  datatype StateCheck =
    | MissingFields            // 400, nothing applied
    | CoercionFailed           // an uncaught conversion error: 500, nothing applied
    | Accepted(state: TrackState)

  /** The checks of the state handler: first every required key must be
      present, then the values are taken at their types. */
  function CheckState(data: Payload): (r: StateCheck)
    ensures r.MissingFields? <==> exists k :: k in RequiredKeys && k !in data
    ensures r.Accepted? <==> HasRequiredKeys(data) && WellTyped(data)
    ensures r.Accepted? ==>
      && data["song_folder"] == Text(r.state.songFolder)
      && data["common_track"] == Text(r.state.commonTrack)
      && data["user_id"] == Text(r.state.userId)
      && data["track_name"] == Text(r.state.trackName)
      && data["vol"] == Number(r.state.vol)
      && data["pan"] == Number(r.state.pan)
      && data["mute"] == Number(r.state.mute)
      && data["solo"] == Number(r.state.solo)
  {
    if !HasRequiredKeys(data) then MissingFields
    else if !WellTyped(data) then CoercionFailed
    else Accepted(TrackState(
      data["song_folder"].s, data["common_track"].s, data["user_id"].s, data["track_name"].s,
      data["vol"].x, data["pan"].x, data["mute"].x, data["solo"].x))
  }

  // ------------------------------------------------------------- duration

  /** What the WAV reader reports for a saved stem: it could not decode the
      file, or it read a frame count and a frame rate. */
  datatype WavInfo = Undecodable | Wav(frames: nat, rate: nat)

  /** The stem's length in seconds: 0 when decoding fails or the rate is 0,
      otherwise frames / rate. */
  function Duration(w: WavInfo): (r: real)
    ensures r >= 0.0
    ensures w.Undecodable? || w.rate == 0 ==> r == 0.0
    ensures w.Wav? && w.rate > 0 ==> r * (w.rate as real) == w.frames as real
    ensures r > 0.0 <==> w.Wav? && w.rate > 0 && w.frames > 0
  {
    match w
    case Undecodable => 0.0
    case Wav(frames, rate) => if rate == 0 then 0.0 else (frames as real) / (rate as real)
  }

  // ----------------------------------------------------------- file names

  /** No two consecutive dots. */
  predicate NoDotDot(s: string) {
    forall i :: 0 <= i < |s| - 1 ==> !(s[i] == '.' && s[i + 1] == '.')
  }

  /** Left-to-right replacement of every non-overlapping ".." by "_". */
  function Sanitise(s: string): (r: string)
    ensures |r| <= |s|
    ensures NoDotDot(r)
    ensures NoDotDot(s) ==> r == s
    ensures |r| > 0 && r[0] == '.' ==> |s| > 0 && s[0] == '.'
    decreases |s|
  {
    if |s| >= 2 && s[0] == '.' && s[1] == '.' then "_" + Sanitise(s[2..])
    else if s == [] then []
    else [s[0]] + Sanitise(s[1..])
  }

  /** Sanitising a sanitised name changes nothing. */
  lemma SanitiseIdempotent(s: string)
    ensures Sanitise(Sanitise(s)) == Sanitise(s)
  {
  }

  /** The decimal digit `d`. */
  function DigitChar(d: nat): char
    requires d < 10
  {
    ('0' as int + d) as char
  }

  predicate AllDigits(s: string) {
    forall i :: 0 <= i < |s| ==> '0' <= s[i] <= '9'
  }

  /** `str(n)` for a natural number: its decimal digits, without leading zeros. */
  function Decimal(n: nat): (r: string)
    ensures |r| >= 1 && AllDigits(r)
    ensures r[0] == '0' <==> n == 0
    decreases n
  {
    if n < 10 then [DigitChar(n)] else Decimal(n / 10) + [DigitChar(n % 10)]
  }

  /** The value of a string of decimal digits. */
  function DecimalValue(s: string): nat
    requires AllDigits(s)
    decreases |s|
  {
    if s == [] then 0
    else 10 * DecimalValue(s[..|s| - 1]) + (s[|s| - 1] as int - '0' as int)
  }

  /** Reading the rendered digits back gives the number. */
  lemma {:induction false} DecimalRoundTrip(n: nat)
    ensures DecimalValue(Decimal(n)) == n
    decreases n
  {
    if n >= 10 {
      var r := Decimal(n);
      assert r[..|r| - 1] == Decimal(n / 10);
      DecimalRoundTrip(n / 10);
    }
  }

  /** The name given to an upload that arrives without a file name:
      `<common_track>_<user_id>_<unix seconds>.wav`. */
  function DefaultStemName(commonTrack: string, userId: string, clock: nat): (r: string)
    ensures |r| >= |commonTrack| + |userId| + 7
    ensures r[..|commonTrack| + 1] == commonTrack + "_"
    ensures r[|commonTrack| + 1..|commonTrack| + |userId| + 2] == userId + "_"
    ensures r[|r| - 4..] == ".wav"
    ensures var stamp := r[|commonTrack| + |userId| + 2..|r| - 4];
      AllDigits(stamp) && DecimalValue(stamp) == clock
  {
    DecimalRoundTrip(clock);
    commonTrack + "_" + userId + "_" + Decimal(clock) + ".wav"
  }

  /** The name a stem is stored under: the upload's own name, or the default
      name when it is empty, with every ".." replaced by "_". */
  function StemFileName(filename: string, commonTrack: string, userId: string, clock: nat): (r: string)
    ensures NoDotDot(r)
    ensures filename != "" ==> |r| <= |filename|
    ensures filename != "" && NoDotDot(filename) ==> r == filename
    ensures filename == "" ==> r == Sanitise(DefaultStemName(commonTrack, userId, clock))
  {
    Sanitise(if filename == "" then DefaultStemName(commonTrack, userId, clock) else filename)
  }

  /** When the common track and user id carry no "..", an unnamed upload is
      stored exactly under the default name. */
  lemma DefaultNameKept(commonTrack: string, userId: string, clock: nat)
    requires NoDotDot(commonTrack) && NoDotDot(userId)
    ensures StemFileName("", commonTrack, userId, clock) == DefaultStemName(commonTrack, userId, clock)
  {
  }

  // ------------------------------------------------------------ stem form

  /** An uploaded file part: its client-side name and its bytes. */
  datatype Upload = Upload(filename: string, content: seq<bv8>)

  /** A multipart stem upload: the file part, if any, and the form fields. */
  datatype StemRequest = StemRequest(file: Option<Upload>, form: map<string, string>)

  const DefaultSong := "Song_Unknown"
  const DefaultTrack := "UNKNOWN"
  const DefaultUser := "UNKNOWN"

  /** A form field, or `default` when the field is absent. */
  function FormGet(form: map<string, string>, key: string, default: string): string {
    if key in form then form[key] else default
  }
}
