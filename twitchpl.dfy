/**
 * The twitchpl package (twitchpl.go): a PlaylistManager session that gets
 * an access token over GraphQL, fetches the channel's master playlist from
 * Usher, keeps its variants, and picks one of them by quality mode.
 *
 * Everything outside the process is an input, gathered in Environment:
 * url.Parse, the query escaping, whether http.NewRequest fails, what each
 * Client.Do call returns, the m3u8 decoder and the JSON decoder.
 */
module Twitchpl {
  import opened Wrappers
  import opened Http
  import M3u8
  import Gql
  import Usher
  import Retry

  const GraphURL: string := "https://gql.twitch.tv/gql"
  const AudioOnly: string := "audio_only"

  /** One playable rendition, as getPlaylist records it. */
  datatype QualityVariant = QualityVariant(name: string, resolution: string, frameRate: real, url: string)

  /** The record updateOutputter fills in. */
  datatype Outputter = Outputter(channel: string, quality: string, resolution: string, frameRate: real, url: string)

  /** `&Outputter{}`: every field at Go's zero value. */
  const EmptyOutputter: Outputter := Outputter("", "", "", 0.0, "")

  /** The fields of a PlaylistManager; pointers that may be nil are options. */
  datatype Session = Session(
    channelName: string,
    quality: string,
    resolution: string,
    desiredVariant: string,
    token: Option<Gql.StreamPlaybackAccessToken>,
    variant: Option<seq<QualityVariant>>,
    errors: seq<Error>,
    outputter: Option<Outputter>)

  /** `&PlaylistManager{}`, what Get hands back when the token step reports an error. */
  const ZeroSession: Session := Session("", "", "", "", None, None, [], None)

  /** newPlaylistManager: the channel, quality "best", an empty Outputter and nothing else. */
  function NewSession(channel: string): (s: Session)
    ensures s.channelName == channel && s.quality == "best" && s.outputter == Some(EmptyOutputter)
    ensures s.token.None? && s.variant.None? && s.errors == []
    ensures s.resolution == "" && s.desiredVariant == ""
  {
    Session(channel, "best", "", "", None, None, [], Some(EmptyOutputter))
  }

  /** The world outside: library calls the core does not implement and the network. */
  datatype Environment = Environment(
    parse: string -> Result<Usher.ParsedUrl, Error>,
    esc: string -> string,
    /** The error of http.NewRequest("GET", url, nil) for the playlist URL, if any. */
    getRequestErr: Usher.Url -> Option<Error>,
    /** Client.Do on the playlist URL, by attempt number. */
    usher: Usher.Url -> nat -> Exchange,
    decodePlaylist: string -> M3u8.Decoded,
    /** The error of http.NewRequestWithContext for the GraphQL POST, if any. */
    postRequestErr: Option<Error>,
    /**
     * Client.Do on the GraphQL endpoint, by attempt number, for the query
     * NewPlaybackAccessTokenQuery builds for the given login (the query, and
     * so the body, is determined by the login: Gql.QueryDeterminedByLogin).
     */
    gql: string -> nat -> Exchange,
    decodeToken: string -> Result<Gql.PlaybackAccessTokenGraphQLResponse, Error>)

  // ---------------------------------------------------------------------
  // Choosing a variant (updateOutputter)
  // ---------------------------------------------------------------------

  /**
   * The index the "audio" loop of updateOutputter ends on: the loop has no
   * break, so a later "audio_only" entry overwrites an earlier one.
   */
  function LastAudio(vs: seq<QualityVariant>): (r: Option<nat>)
    ensures r.None? <==> forall i :: 0 <= i < |vs| ==> vs[i].name != AudioOnly
    ensures r.Some? ==> r.value < |vs| && vs[r.value].name == AudioOnly
    ensures r.Some? ==> forall j :: r.value < j < |vs| ==> vs[j].name != AudioOnly
  {
    if vs == [] then None
    else if vs[|vs| - 1].name == AudioOnly then Some(|vs| - 1)
    else LastAudio(vs[..|vs| - 1])
  }

  /**
   * The reads updateOutputter performs without a bounds check succeed:
   * "best" and any other mode read entry 0, "worst" reads entry len-2.
   */
  predicate CanSelect(quality: string, vs: seq<QualityVariant>)
  {
    if quality == "audio" then true
    else if quality == "worst" then |vs| >= 2
    else |vs| >= 1
  }

  /**
   * The variant a quality mode copies from, if any: entry len-2 for
   * "worst", the last audio-only entry for "audio", and entry 0 for "best"
   * and for every mode the switch does not name.
   */
  function Chosen(quality: string, vs: seq<QualityVariant>): (r: Option<QualityVariant>)
    requires CanSelect(quality, vs)
    ensures quality != "audio" ==> r.Some?
    ensures r.Some? ==> r.value in vs
    ensures quality == "worst" ==> r == Some(vs[|vs| - 2])
    ensures quality != "worst" && quality != "audio" ==> r == Some(vs[0])
    ensures quality == "audio" ==> (r.Some? <==> LastAudio(vs).Some?)
    ensures quality == "audio" && r.Some? ==> r.value == vs[LastAudio(vs).value]
  {
    if quality == "best" then Some(vs[0])
    else if quality == "worst" then Some(vs[|vs| - 2])
    else if quality == "audio" then
      (match LastAudio(vs)
       case Some(i) => Some(vs[i])
       case None => None)
    else Some(vs[0])
  }

  /**
   * The Outputter after updateOutputter: channel and quality from the
   * manager, the rest from the chosen variant, or zero values when "audio"
   * finds no audio-only entry.
   */
  function Output(channel: string, quality: string, vs: seq<QualityVariant>): (o: Outputter)
    requires CanSelect(quality, vs)
    ensures o.channel == channel && o.quality == quality
  {
    match Chosen(quality, vs)
    case Some(v) => Outputter(channel, quality, v.resolution, v.frameRate, v.url)
    case None => EmptyOutputter.(channel := channel, quality := quality)
  }

  /**
   * The whole Outputter updateOutputter builds, mode by mode: channel and
   * quality from the manager, and resolution, frame rate and URL copied
   * from entry 0 ("best" and unknown modes), entry len-2 ("worst") or the
   * last audio-only entry ("audio", zero values when there is none).
   */
  lemma OutputByMode(channel: string, quality: string, vs: seq<QualityVariant>)
    requires CanSelect(quality, vs)
    ensures var o := Output(channel, quality, vs);
            && (quality == "worst" ==>
                  o == Outputter(channel, quality, vs[|vs| - 2].resolution, vs[|vs| - 2].frameRate, vs[|vs| - 2].url))
            && (quality != "worst" && quality != "audio" ==>
                  o == Outputter(channel, quality, vs[0].resolution, vs[0].frameRate, vs[0].url))
            && (quality == "audio" && LastAudio(vs).None? ==> o == Outputter(channel, quality, "", 0.0, ""))
            && (quality == "audio" && LastAudio(vs).Some? ==>
                  var v := vs[LastAudio(vs).value];
                  o == Outputter(channel, quality, v.resolution, v.frameRate, v.url))
  {
  }

  /** A mode other than best, worst and audio falls back to the first entry, like best. */
  lemma UnknownModeIsBest(channel: string, quality: string, vs: seq<QualityVariant>)
    requires quality != "best" && quality != "worst" && quality != "audio"
    requires |vs| >= 1
    ensures Output(channel, quality, vs) == Output(channel, "best", vs).(quality := quality)
  {
  }

  /** With two entries, "worst" picks the same entry as "best". */
  lemma WorstOfTwoIsBest(channel: string, vs: seq<QualityVariant>)
    requires |vs| == 2
    ensures Output(channel, "worst", vs) == Output(channel, "best", vs).(quality := "worst")
  {
  }

  /** The last entry that is not the audio-only rendition. */
  function LastVideo(vs: seq<QualityVariant>): (r: Option<nat>)
    ensures r.None? <==> forall i :: 0 <= i < |vs| ==> vs[i].name == AudioOnly
    ensures r.Some? ==> r.value < |vs| && vs[r.value].name != AudioOnly
    ensures r.Some? ==> forall j :: r.value < j < |vs| ==> vs[j].name == AudioOnly
  {
    if vs == [] then None
    else if vs[|vs| - 1].name != AudioOnly then Some(|vs| - 1)
    else LastVideo(vs[..|vs| - 1])
  }

  /**
   * Under the upstream convention that exactly the last entry is the
   * audio-only rendition, the fixed offset len-2 of "worst" is the last
   * video entry.
   */
  lemma WorstIsLastVideo(channel: string, vs: seq<QualityVariant>)
    requires |vs| >= 2 && vs[|vs| - 1].name == AudioOnly && vs[|vs| - 2].name != AudioOnly
    ensures LastVideo(vs) == Some(|vs| - 2)
    ensures Output(channel, "worst", vs).url == vs[|vs| - 2].url
  {
    LastVideoBeforeAudio(vs);
    WorstReads(channel, vs);
  }

  /** "worst" copies entry len-2. */
  lemma WorstReads(channel: string, vs: seq<QualityVariant>)
    requires |vs| >= 2
    ensures Output(channel, "worst", vs).url == vs[|vs| - 2].url
  {
  }

  lemma LastVideoBeforeAudio(vs: seq<QualityVariant>)
    requires |vs| >= 2 && vs[|vs| - 1].name == AudioOnly && vs[|vs| - 2].name != AudioOnly
    ensures LastVideo(vs) == Some(|vs| - 2)
  {
    var w := vs[..|vs| - 1];
    assert w[|w| - 1] == vs[|vs| - 2];
    assert LastVideo(w) == Some(|w| - 1);
    assert LastVideo(vs) == LastVideo(w);
  }

  /** Without an audio-only entry, "audio" leaves resolution, frame rate and URL at zero values. */
  lemma AudioWithoutTrack(channel: string, vs: seq<QualityVariant>)
    requires forall i :: 0 <= i < |vs| ==> vs[i].name != AudioOnly
    ensures Output(channel, "audio", vs) == Outputter(channel, "audio", "", 0.0, "")
  {
  }

  /** An audio-only entry appended at the end wins over every earlier one. */
  lemma AudioTakesLast(channel: string, vs: seq<QualityVariant>, w: QualityVariant)
    requires w.name == AudioOnly
    ensures Output(channel, "audio", vs + [w]) == Outputter(channel, "audio", w.resolution, w.frameRate, w.url)
  {
  }

  /**
   * The three-entry list best/480p/audio: best, worst and audio pick A, B
   * and C; an exact resolution such as "852x480" is not a mode the code
   * knows, so it falls back to A, as does "4K"; and with two audio-only
   * entries, "audio" takes the later one.
   */
  lemma SelectionScenario(channel: string)
    ensures var vs := [QualityVariant("1080p60", "1920x1080", 60.0, "A"),
                       QualityVariant("480p", "852x480", 30.0, "B"),
                       QualityVariant(AudioOnly, "", 0.0, "C")];
            && Output(channel, "best", vs).url == "A"
            && Output(channel, "worst", vs).url == "B"
            && Output(channel, "audio", vs).url == "C"
            && Output(channel, "852x480", vs).url == "A"
            && Output(channel, "4K", vs).url == "A"
            && Output(channel, "audio", vs + [QualityVariant(AudioOnly, "", 0.0, "D")]).url == "D"
  {
    var vs := [QualityVariant("1080p60", "1920x1080", 60.0, "A"),
               QualityVariant("480p", "852x480", 30.0, "B"),
               QualityVariant(AudioOnly, "", 0.0, "C")];
    AudioTakesLast(channel, vs[..2], vs[2]);
    assert vs[..2] + [vs[2]] == vs;
    AudioTakesLast(channel, vs, QualityVariant(AudioOnly, "", 0.0, "D"));
  }

  // ---------------------------------------------------------------------
  // Fetching the playlist (getPlaylist)
  // ---------------------------------------------------------------------

  /** One decoded master-playlist entry as a QualityVariant: first alternative's name, resolution, frame rate, URI. */
  function ToQualityVariant(v: M3u8.Variant): (q: QualityVariant)
    requires |v.alternatives| > 0
    ensures q.name == v.alternatives[0].name && q.url == v.uri
    ensures q.resolution == v.resolution && q.frameRate == v.frameRate
  {
    QualityVariant(v.alternatives[0].name, v.resolution, v.frameRate, v.uri)
  }

  /** The entries of a master playlist, mapped one by one and in order. */
  function ToQualityVariants(vs: seq<M3u8.Variant>): (r: seq<QualityVariant>)
    requires forall i :: 0 <= i < |vs| ==> |vs[i].alternatives| > 0
    ensures |r| == |vs|
    ensures forall i :: 0 <= i < |vs| ==> r[i] == ToQualityVariant(vs[i])
  {
    seq(|vs|, i requires 0 <= i < |vs| => ToQualityVariant(vs[i]))
  }

  /**
   * What getPlaylist does: it returns normally with a new session and an
   * error, or it panics, on the type assertion to *m3u8.MasterPlaylist or
   * on an entry without alternatives.
   */
  datatype Fetch = Fetched(session: Session, err: Option<Error>) | Panics

  /** The messages getPlaylist puts in Errors and returns for a non-200 status. */
  const OfflineMessage: string := "stream is offline or channel not found"

  function StatusErrorEntry(status: string): Error { Error("playlist got http status " + status) }

  /** `fmt.Errorf("error: %w playlist got http status: %v", err, status)` with the nil err of a completed call. */
  function StatusErrorReturned(status: string): Error { Error("error: %!w(<nil>) playlist got http status: " + status) }

  /**
   * The status check and decoding of getPlaylist, once a call has
   * completed with `res`.
   */
  function Classify(s: Session, res: Response, decode: string -> M3u8.Decoded): (f: Fetch)
  {
    if res.statusCode != StatusOK then
      if res.statusCode != StatusNotFound then
        Fetched(s.(errors := s.errors + [StatusErrorEntry(res.status)]), Some(StatusErrorReturned(res.status)))
      else
        Fetched(s.(errors := s.errors + [Error(OfflineMessage)]), Some(Error(OfflineMessage)))
    else
      var d := decode(res.body);
      if d.err.Some? then
        Fetched(s.(errors := s.errors + [d.err.value]), Some(Wrap("failed to decode m3u8: ", d.err.value)))
      else if !M3u8.NamedMaster(d.playlist) then Panics
      else Fetched(s.(variant := Some(ToQualityVariants(d.playlist.variants))), None)
  }

  /** getPlaylist from the request on: build it, send it with retries, classify the answer. */
  function FetchFrom(s: Session, u: Usher.Url, env: Environment): (f: Fetch)
  {
    if env.getRequestErr(u).Some? then
      var e := env.getRequestErr(u).value;
      Fetched(s.(errors := s.errors + [e]), Some(Wrap("failed to create GET request: ", e)))
    else
      var r := Retry.GetRetry(Retry.BackoffSchedule, env.usher(u));
      if r.err.Some? then
        Fetched(s.(errors := s.errors + [r.err.value]), Some(Wrap("failed to make GET request: ", r.err.value)))
      else if r.res.None? then Panics
      else Classify(s, r.res.value, env.decodePlaylist)
  }

  /**
   * Reference outcome of getPlaylist, on a manager whose URL builder returns
   * (it has a token, or the endpoint does not parse and the token is never
   * read). The GET goes to the URL built, through doRequestWithRetries on
   * backoffSchedule.
   */
  function FetchPlaylist(s: Session, env: Environment): (f: Fetch)
    requires Usher.BuilderReturns(s.channelName, s.token, env.parse)
  {
    match Usher.MasterPlaylist(s.channelName, s.token, env.parse, env.esc)
    case Err(e) => Fetched(s, Some(Wrap("failed to get master playlist: ", e)))
    case Ok(u) => FetchFrom(s, u, env)
  }

  /** Classify's bookkeeping: a failure appends exactly one error, success replaces the variants. */
  predicate OneErrorOrNewVariants(s: Session, f: Fetch)
  {
    f.Fetched? ==>
      && f.session == s.(errors := f.session.errors, variant := f.session.variant)
      && (f.err.Some? ==>
            |f.session.errors| == |s.errors| + 1 && f.session.errors[..|s.errors|] == s.errors &&
            f.session.variant == s.variant)
      && (f.err.None? ==> f.session.errors == s.errors && f.session.variant.Some?)
  }

  /**
   * After a completed call: the bookkeeping above, and on success the
   * variants are the decoded master playlist's entries, mapped in order.
   */
  lemma ClassifyBookkeeping(s: Session, res: Response, decode: string -> M3u8.Decoded)
    ensures OneErrorOrNewVariants(s, Classify(s, res, decode))
    ensures var f := Classify(s, res, decode);
            f.Fetched? && f.err.None? ==>
              && res.statusCode == StatusOK
              && M3u8.NamedMaster(decode(res.body).playlist)
              && f.session == s.(variant := Some(ToQualityVariants(decode(res.body).playlist.variants)))
  {
  }

  lemma FetchFromBookkeeping(s: Session, u: Usher.Url, env: Environment)
    ensures OneErrorOrNewVariants(s, FetchFrom(s, u, env))
    ensures var f := FetchFrom(s, u, env);
            var r := Retry.GetRetry(Retry.BackoffSchedule, env.usher(u));
            f.Fetched? && f.err.None? ==>
              && r.res.Some?
              && M3u8.NamedMaster(env.decodePlaylist(r.res.value.body).playlist)
              && f.session == s.(variant := Some(ToQualityVariants(env.decodePlaylist(r.res.value.body).playlist.variants)))
  {
    var r := Retry.GetRetry(Retry.BackoffSchedule, env.usher(u));
    if env.getRequestErr(u).None? && r.err.None? && r.res.Some? {
      ClassifyBookkeeping(s, r.res.value, env.decodePlaylist);
    }
  }

  /** After a completed GET the retry loop always hands back a response: the `Panics` on a nil one cannot happen. */
  lemma CompletedGetHasResponse(answer: nat -> Exchange)
    ensures var r := Retry.GetRetry(Retry.BackoffSchedule, answer);
            r.err.None? ==> r.res.Some?
  {
    var k := Retry.FirstCompleted(answer, 3);
    if k == 3 {
      assert Retry.ErrorOf(answer(2)).Some?;
    }
  }

  /**
   * getPlaylist's bookkeeping: when the URL cannot be built nothing is
   * recorded; every later failure appends exactly its one error and leaves
   * the variants alone; success replaces the variants and records nothing.
   * No other field ever changes.
   */
  lemma FetchBookkeeping(s: Session, env: Environment)
    requires Usher.BuilderReturns(s.channelName, s.token, env.parse)
    ensures var f := FetchPlaylist(s, env);
            && (Usher.MasterPlaylist(s.channelName, s.token, env.parse, env.esc).Err? ==> f.session == s && f.err.Some?)
            && (Usher.MasterPlaylist(s.channelName, s.token, env.parse, env.esc).Ok? ==> OneErrorOrNewVariants(s, f))
  {
    var m := Usher.MasterPlaylist(s.channelName, s.token, env.parse, env.esc);
    if m.Ok? {
      FetchFromBookkeeping(s, m.value, env);
    }
  }

  /**
   * The status decides: a completed GET with 404 reports the stream
   * offline, any other status but 200 reports the status, and only 200
   * goes on to decoding.
   */
  lemma StatusClassification(s: Session, env: Environment, u: Usher.Url, res: Response)
    requires Usher.BuilderReturns(s.channelName, s.token, env.parse)
    requires Usher.MasterPlaylist(s.channelName, s.token, env.parse, env.esc) == Ok(u)
    requires env.getRequestErr(u).None? && env.usher(u)(0) == Completed(res)
    ensures res.statusCode == StatusNotFound ==>
              FetchPlaylist(s, env) == Fetched(s.(errors := s.errors + [Error(OfflineMessage)]), Some(Error(OfflineMessage)))
    ensures res.statusCode != StatusOK && res.statusCode != StatusNotFound ==>
              FetchPlaylist(s, env) ==
              Fetched(s.(errors := s.errors + [StatusErrorEntry(res.status)]), Some(StatusErrorReturned(res.status)))
    ensures FetchPlaylist(s, env).Fetched? && FetchPlaylist(s, env).err.None? ==> res.statusCode == StatusOK
  {
    Retry.StopsAtFirstCompleted(Retry.BackoffSchedule, env.usher(u), 0);
  }

  /**
   * getPlaylist succeeds exactly when the URL and the request are built, a
   * call completes within the schedule with status 200, and the body
   * decodes to a master playlist whose every entry has an alternative;
   * then the variants are that playlist's entries, in order.
   */
  lemma FetchSucceedsIff(s: Session, env: Environment)
    requires Usher.BuilderReturns(s.channelName, s.token, env.parse)
    ensures var f := FetchPlaylist(s, env);
            var m := Usher.MasterPlaylist(s.channelName, s.token, env.parse, env.esc);
            (f.Fetched? && f.err.None?) <==>
            (&& m.Ok?
             && env.getRequestErr(m.value).None?
             && Retry.GetRetry(Retry.BackoffSchedule, env.usher(m.value)).err.None?
             && var res := Retry.GetRetry(Retry.BackoffSchedule, env.usher(m.value)).res.value;
                res.statusCode == StatusOK
                && env.decodePlaylist(res.body).err.None?
                && M3u8.NamedMaster(env.decodePlaylist(res.body).playlist))
    ensures var f := FetchPlaylist(s, env);
            var m := Usher.MasterPlaylist(s.channelName, s.token, env.parse, env.esc);
            f.Fetched? && f.err.None? ==>
              && m.Ok?
              && var res := Retry.GetRetry(Retry.BackoffSchedule, env.usher(m.value)).res.value;
                 M3u8.NamedMaster(env.decodePlaylist(res.body).playlist)
                 && f.session == s.(variant := Some(ToQualityVariants(env.decodePlaylist(res.body).playlist.variants)))
  {
    var m := Usher.MasterPlaylist(s.channelName, s.token, env.parse, env.esc);
    if m.Ok? {
      CompletedGetHasResponse(env.usher(m.value));
      FetchFromBookkeeping(s, m.value, env);
    }
  }

  // ---------------------------------------------------------------------
  // The access token (getToken)
  // ---------------------------------------------------------------------

  /**
   * Reference outcome of getToken. `defer recoverFromPanic()` turns the two
   * nil-response panics (reading res.Status after a failed POST, and
   * res.Body after an exhausted one) into a nil error with no token.
   * There is no status check: any body that decodes gives the token.
   */
  function AcquireToken(s: Session, env: Environment): (Session, Option<Error>)
  {
    match env.parse(GraphURL)
    case Err(e) => (s, Some(e))
    case Ok(_) =>
      var r := Retry.PostRetry(Retry.BackoffSchedule, env.postRequestErr,
                               env.gql(s.channelName));
      if r.err.Some? then
        if r.res.None? then (s, None)
        else (s, Some(Error("non-200 code returned for graphql request for PlaybackAccessToken: " + r.res.value.status)))
      else if r.res.None? then (s, None)
      else
        match env.decodeToken(r.res.value.body)
        case Err(e) => (s, Some(e))
        case Ok(g) => (s.(token := Some(Gql.TokenOf(g))), None)
  }

  /**
   * getToken touches nothing but the token, and sets it only from a
   * successfully decoded body: an error leaves the session as it was.
   */
  lemma TokenOnlyFromDecode(s: Session, env: Environment)
    ensures var (s', err) := AcquireToken(s, env);
            && s' == s.(token := s'.token)
            && (err.Some? ==> s' == s)
            && (s' != s ==> (err.None? && s'.token.Some? &&
                  exists body :: env.decodeToken(body).Ok? && s'.token.value == Gql.TokenOf(env.decodeToken(body).value)))
  {
  }

  /** No call completed, or the request could not be built: getToken reports nothing and sets no token. */
  lemma SilentTokenFailure(s: Session, env: Environment)
    requires env.parse(GraphURL).Ok?
    requires env.postRequestErr.Some? ||
             forall j :: 0 <= j < 3 ==> env.gql(s.channelName)(j).TransportFailure? && env.gql(s.channelName)(j).res.None?
    ensures AcquireToken(s, env) == (s, None)
  {
    var answer := env.gql(s.channelName);
    if env.postRequestErr.None? {
      Retry.PostHidesExhaustion(Retry.BackoffSchedule, answer);
      Retry.GetReturnsLastError(Retry.BackoffSchedule, answer);
    }
  }

  /**
   * Three failed calls, the last of which carries a response (Client.Do
   * returns one when a redirect check fails): the shadowed POST error is
   * nil, so getToken decodes that response's body, taking the token from
   * it or returning the decoder's error.
   */
  lemma FailedCallWithResponseIsDecoded(s: Session, env: Environment, res: Response)
    requires env.parse(GraphURL).Ok? && env.postRequestErr.None?
    requires forall j :: 0 <= j < 3 ==> env.gql(s.channelName)(j).TransportFailure?
    requires env.gql(s.channelName)(2).res == Some(res)
    ensures env.decodeToken(res.body).Ok? ==>
              AcquireToken(s, env) == (s.(token := Some(Gql.TokenOf(env.decodeToken(res.body).value))), None)
    ensures env.decodeToken(res.body).Err? ==>
              AcquireToken(s, env) == (s, Some(env.decodeToken(res.body).error))
  {
    Retry.PostHidesExhaustion(Retry.BackoffSchedule, env.gql(s.channelName));
    Retry.GetReturnsLastError(Retry.BackoffSchedule, env.gql(s.channelName));
  }

  /** The status is never looked at: a first answer of any status whose body decodes gives the token. */
  lemma AnyStatusGivesToken(s: Session, env: Environment, res: Response, g: Gql.PlaybackAccessTokenGraphQLResponse)
    requires env.parse(GraphURL).Ok? && env.postRequestErr.None?
    requires env.gql(s.channelName)(0) == Completed(res)
    requires env.decodeToken(res.body) == Ok(g)
    ensures AcquireToken(s, env) == (s.(token := Some(Gql.TokenOf(g))), None)
  {
    Retry.StopsAtFirstCompleted(Retry.BackoffSchedule, env.gql(s.channelName), 0);
  }

  // ---------------------------------------------------------------------
  // Get and GetMPL
  // ---------------------------------------------------------------------

  /** What Get does: return a manager and an error, or crash on a panic nothing recovers. */
  datatype Outcome = Returned(session: Session, err: Option<Error>) | Crashed

  /** The error getPlaylist returns when the Usher endpoint does not parse. */
  const UnbuildableError: Error := Wrap("failed to get master playlist: ", Error("failed to generate master playlist"))

  /**
   * Reference outcome of Get: a token error gives an empty manager; a nil
   * error without a token crashes in the URL builder, unless the endpoint
   * fails to parse first; otherwise getPlaylist.
   */
  function GetOutcome(channel: string, env: Environment): Outcome
  {
    var (s, err) := AcquireToken(NewSession(channel), env);
    if err.Some? then Returned(ZeroSession, err)
    else if !Usher.BuilderReturns(s.channelName, s.token, env.parse) then Crashed
    else
      match FetchPlaylist(s, env)
      case Fetched(s', e) => Returned(s', e)
      case Panics => Crashed
  }

  /**
   * When every GraphQL call times out on a channel whose endpoint parses,
   * getToken's silence makes Get crash instead of reporting an error.
   */
  lemma ExhaustedTokenRetriesCrash(channel: string, env: Environment)
    requires env.parse(GraphURL).Ok? && env.postRequestErr.None?
    requires forall j :: 0 <= j < 3 ==> env.gql(channel)(j).TransportFailure? && env.gql(channel)(j).res.None?
    requires env.parse(Usher.UsherTarget(channel)).Ok?
    ensures GetOutcome(channel, env) == Crashed
    ensures GetMPLOutcome(channel, env) == MplCrashed
  {
    SilentTokenFailure(NewSession(channel), env);
  }

  /**
   * On a channel whose endpoint does not parse, the missing token is never
   * read: Get hands back the fresh manager with the parse error, and GetMPL
   * returns no URL and its own error.
   */
  lemma ExhaustedTokenRetriesUnparsable(channel: string, env: Environment)
    requires env.parse(GraphURL).Ok? && env.postRequestErr.None?
    requires forall j :: 0 <= j < 3 ==> env.gql(channel)(j).TransportFailure? && env.gql(channel)(j).res.None?
    requires env.parse(Usher.UsherTarget(channel)).Err?
    ensures GetOutcome(channel, env) == Returned(NewSession(channel), Some(UnbuildableError))
    ensures GetMPLOutcome(channel, env) == MplReturned(None, Some(Error("failed to generate master playlist")))
  {
    SilentTokenFailure(NewSession(channel), env);
  }

  /**
   * A Get that returns normally hands back the empty manager with the token
   * error, or the channel's manager with quality "best", which holds a
   * token unless its endpoint did not parse.
   */
  lemma GetReturns(channel: string, env: Environment)
    requires GetOutcome(channel, env).Returned?
    ensures var o := GetOutcome(channel, env);
            || (o.session == ZeroSession && o.err.Some?)
            || (o.session.channelName == channel && o.session.quality == "best" && o.session.token.Some?)
            || (o.session == NewSession(channel) && o.err == Some(UnbuildableError))
  {
    var (s, err) := AcquireToken(NewSession(channel), env);
    TokenOnlyFromDecode(NewSession(channel), env);
    if err.None? && Usher.BuilderReturns(s.channelName, s.token, env.parse) {
      FetchBookkeeping(s, env);
    }
  }

  /** What GetMPL does: the master-playlist URL (before formatting) or an error, or a crash. */
  datatype MplOutcome = MplReturned(url: Option<Usher.Url>, err: Option<Error>) | MplCrashed

  function GetMPLOutcome(channel: string, env: Environment): MplOutcome
  {
    var (s, err) := AcquireToken(NewSession(channel), env);
    if err.Some? then MplReturned(None, err)
    else if !Usher.BuilderReturns(channel, s.token, env.parse) then MplCrashed
    else
      match Usher.MasterPlaylist(channel, s.token, env.parse, env.esc)
      case Err(_) => MplReturned(None, Some(Error("failed to generate master playlist")))
      case Ok(u) => MplReturned(Some(u), None)
  }

  /** GetMPL returns a URL exactly when it returns no error, and the URL is the one getPlaylist fetches. */
  lemma GetMPLIsPlaylistURL(channel: string, env: Environment)
    requires GetMPLOutcome(channel, env).MplReturned?
    ensures var o := GetMPLOutcome(channel, env);
            && (o.url.Some? <==> o.err.None?)
            && (o.url.Some? ==>
                  var s := AcquireToken(NewSession(channel), env).0;
                  s.token.Some? && Usher.MasterPlaylist(channel, s.token, env.parse, env.esc) == Ok(o.url.value))
  {
  }

  // ---------------------------------------------------------------------
  // The manager itself
  // ---------------------------------------------------------------------

  class PlaylistManager {
    var channelName: string
    var quality: string
    var resolution: string
    var desiredVariant: string
    var token: Option<Gql.StreamPlaybackAccessToken>
    var variant: Option<seq<QualityVariant>>
    var errors: seq<Error>
    var outputter: Option<Outputter>

    function State(): Session
      reads this
    {
      Session(channelName, quality, resolution, desiredVariant, token, variant, errors, outputter)
    }

    /** newPlaylistManager. */
    constructor (channel: string)
      ensures State() == NewSession(channel)
    {
      channelName, quality, resolution, desiredVariant := channel, "best", "", "";
      token, variant, errors, outputter := None, None, [], Some(EmptyOutputter);
    }

    /** `&PlaylistManager{}`. */
    constructor Zero()
      ensures State() == ZeroSession
    {
      channelName, quality, resolution, desiredVariant := "", "", "", "";
      token, variant, errors, outputter := None, None, [], None;
    }

    method Best() returns (p: PlaylistManager)
      modifies this
      ensures p == this && State() == old(State()).(quality := "best")
    {
      quality := "best";
      p := this;
    }

    method Worst() returns (p: PlaylistManager)
      modifies this
      ensures p == this && State() == old(State()).(quality := "worst")
    {
      quality := "worst";
      p := this;
    }

    method Audio() returns (p: PlaylistManager)
      modifies this
      ensures p == this && State() == old(State()).(quality := "audio")
    {
      quality := "audio";
      p := this;
    }

    /**
     * updateOutputter: a fresh Outputter for the current mode; nothing else
     * changes and the error is always nil.
     */
    method UpdateOutputter() returns (err: Option<Error>)
      requires variant.Some? && CanSelect(quality, variant.value)
      modifies this
      ensures err.None?
      ensures State() == old(State()).(outputter := Some(Output(old(channelName), old(quality), old(variant.value))))
    {
      var o := EmptyOutputter;
      o := o.(channel := channelName);
      o := o.(quality := quality);
      var vs := variant.value;
      if quality == "best" {
        o := o.(resolution := vs[0].resolution, frameRate := vs[0].frameRate, url := vs[0].url);
      } else if quality == "worst" {
        var v := vs[|vs| - 2];
        o := o.(resolution := v.resolution, frameRate := v.frameRate, url := v.url);
      } else if quality == "audio" {
        for i := 0 to |vs|
          invariant o == Output(channelName, quality, vs[..i])
        {
          assert vs[..i + 1][..i] == vs[..i];
          if vs[i].name == AudioOnly {
            o := o.(resolution := vs[i].resolution, frameRate := vs[i].frameRate, url := vs[i].url);
          }
        }
        assert vs[..|vs|] == vs;
      } else {
        o := o.(resolution := vs[0].resolution, frameRate := vs[0].frameRate, url := vs[0].url);
      }
      outputter := Some(o);
      err := None;
    }

    /** AsURL: the URL of the variant the current mode chooses. */
    method AsURL() returns (url: string)
      requires variant.Some? && CanSelect(quality, variant.value)
      modifies this
      ensures url == old(Output(channelName, quality, variant.value)).url
      ensures State() == old(State()).(outputter := Some(old(Output(channelName, quality, variant.value))))
    {
      var _ := UpdateOutputter();
      url := outputter.value.url;
    }

    /** getPlaylist, against its reference outcome FetchPlaylist. */
    method GetPlaylist(env: Environment) returns (p: PlaylistManager, err: Option<Error>)
      requires Usher.BuilderReturns(channelName, token, env.parse) && FetchPlaylist(State(), env).Fetched?
      modifies this
      ensures p == this
      ensures Fetched(State(), err) == FetchPlaylist(old(State()), env)
    {
      ghost var s := State();
      p := this;
      var m := Usher.MasterPlaylist(channelName, token, env.parse, env.esc);
      if m.Err? {
        return p, Some(Wrap("failed to get master playlist: ", m.error));
      }
      var u := m.value;
      assert FetchPlaylist(s, env) == FetchFrom(s, u, env);
      var reqErr := env.getRequestErr(u);
      if reqErr.Some? {
        errors := errors + [reqErr.value];
        return p, Some(Wrap("failed to create GET request: ", reqErr.value));
      }
      var r := Retry.DoRequestWithRetries(Retry.BackoffSchedule, env.usher(u));
      if r.err.Some? {
        errors := errors + [r.err.value];
        return p, Some(Wrap("failed to make GET request: ", r.err.value));
      }
      var res := r.res.value;
      assert FetchPlaylist(s, env) == Classify(s, res, env.decodePlaylist);
      err := ClassifyResponse(res, env.decodePlaylist);
    }

    /** The status check, decoding and variant mapping of getPlaylist, after a completed GET. */
    method ClassifyResponse(res: Response, decode: string -> M3u8.Decoded) returns (err: Option<Error>)
      requires Classify(State(), res, decode).Fetched?
      modifies this
      ensures Fetched(State(), err) == Classify(old(State()), res, decode)
    {
      if res.statusCode != StatusOK {
        if res.statusCode != StatusNotFound {
          errors := errors + [StatusErrorEntry(res.status)];
          return Some(StatusErrorReturned(res.status));
        }
        errors := errors + [Error(OfflineMessage)];
        return Some(Error(OfflineMessage));
      }
      var d := decode(res.body);
      if d.err.Some? {
        errors := errors + [d.err.value];
        return Some(Wrap("failed to decode m3u8: ", d.err.value));
      }
      var vs := d.playlist.variants;
      var entries: seq<QualityVariant> := [];
      for i := 0 to |vs|
        invariant |entries| == i
        invariant forall j :: 0 <= j < i ==> entries[j] == ToQualityVariant(vs[j])
      {
        entries := entries + [ToQualityVariant(vs[i])];
      }
      assert entries == ToQualityVariants(vs);
      variant := Some(entries);
      return None;
    }

    /** getToken, against its reference outcome AcquireToken. */
    method GetToken(env: Environment) returns (err: Option<Error>)
      modifies this
      ensures (State(), err) == AcquireToken(old(State()), env)
    {
      var u := env.parse(GraphURL);
      if u.Err? {
        return Some(u.error);
      }
      var r := Retry.DoPostRequestWithRetries(Retry.BackoffSchedule, env.postRequestErr, env.gql(channelName));
      if r.err.Some? {
        if r.res.None? {
          return None;
        }
        return Some(Error("non-200 code returned for graphql request for PlaybackAccessToken: " + r.res.value.status));
      }
      if r.res.None? {
        return None;
      }
      var g := env.decodeToken(r.res.value.body);
      if g.Err? {
        return Some(g.error);
      }
      token := Some(Gql.TokenOf(g.value));
      return None;
    }

    /** Get, when it does not crash. */
    static method Get(channel: string, env: Environment) returns (p: PlaylistManager, err: Option<Error>)
      requires GetOutcome(channel, env).Returned?
      ensures fresh(p)
      ensures Returned(p.State(), err) == GetOutcome(channel, env)
    {
      p := new PlaylistManager(channel);
      err := p.GetToken(env);
      if err.Some? {
        p := new PlaylistManager.Zero();
        return;
      }
      p, err := p.GetPlaylist(env);
    }

    /** GetMPL, when it does not crash; the URL is returned unformatted. */
    static method GetMPL(channel: string, env: Environment) returns (url: Option<Usher.Url>, err: Option<Error>)
      requires GetMPLOutcome(channel, env).MplReturned?
      ensures MplReturned(url, err) == GetMPLOutcome(channel, env)
    {
      var p := new PlaylistManager(channel);
      err := p.GetToken(env);
      if err.Some? {
        return None, err;
      }
      var m := Usher.MasterPlaylist(channel, p.token, env.parse, env.esc);
      if m.Err? {
        return None, Some(Error("failed to generate master playlist"));
      }
      return Some(m.value), None;
    }
  }
}
