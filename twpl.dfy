/**
 * The older twpl package (main.go): a manager with only a channel name and
 * a token, one GraphQL call for the token and one Usher call for the master
 * playlist, whose first variant URI is the answer. There are no retries and
 * several errors are discarded; where a discarded error leaves a nil
 * pointer behind, the model either requires it away (a method's
 * precondition) or reports the crash (the outcome functions).
 */
module Twpl {
  import opened Wrappers
  import opened Http
  import M3u8
  import Gql
  import Usher

  const GraphQLURL: string := "https://gql.twitch.tv/gql"

  /**
   * NewPlaybackAccessTokenQuery of main.go. It writes out the same struct
   * literal as gql.go (operation name, document text, the three variables
   * it sets), so the two packages send the same query for a login.
   */
  function NewPlaybackAccessTokenQuery(login: string): (q: Gql.GraphQLQuery)
    ensures q == Gql.NewPlaybackAccessTokenQuery(login)
    ensures q.variables.login == login && q.variables.isLive && q.variables.playerType == "site"
    ensures q.variables.vodID == "" && !q.variables.isVod
  {
    Gql.GraphQLQuery(Gql.OperationName, Gql.QueryDocument, Gql.GraphQLVariables(login, "site", "", true, false))
  }

  /** The world outside. Each request is made once; the answers are by request. */
  datatype Environment = Environment(
    parse: string -> Result<Usher.ParsedUrl, Error>,
    esc: string -> string,
    /** http.DefaultClient.Do on the GraphQL POST for the given login. */
    gql: string -> Exchange,
    decodeToken: string -> Result<Gql.PlaybackAccessTokenGraphQLResponse, Error>,
    /** http.DefaultClient.Do on the GET of the given playlist URL. */
    usher: Usher.Url -> Exchange,
    decodePlaylist: string -> M3u8.Decoded)

  /** The reference outcome of getToken: the token the manager ends with, and the error returned. */
  function TokenStep(channel: string, token: Option<Gql.StreamPlaybackAccessToken>, env: Environment)
    : (Option<Gql.StreamPlaybackAccessToken>, Option<Error>)
  {
    match env.parse(GraphQLURL)
    case Err(e) => (token, Some(e))
    case Ok(_) =>
      match env.gql(channel)
      case TransportFailure(e, _) => (token, Some(e))
      case Completed(res) =>
        if res.statusCode != StatusOK then
          (token, Some(Error("non-200 code returned for graphql request for PlaybackAccessToken: " + res.status)))
        else
          match env.decodeToken(res.body)
          case Err(e) => (token, Some(e))
          case Ok(g) => (Some(Gql.TokenOf(g)), None)
  }

  /**
   * getToken succeeds exactly when the call completes with status 200 and
   * the body decodes; only then is the token assigned, and any error leaves
   * it as it was.
   */
  lemma TokenStepSpec(channel: string, token: Option<Gql.StreamPlaybackAccessToken>, env: Environment)
    ensures var (t, err) := TokenStep(channel, token, env);
            && (err.None? <==>
                  (env.parse(GraphQLURL).Ok? && env.gql(channel).Completed? &&
                   env.gql(channel).response.statusCode == StatusOK &&
                   env.decodeToken(env.gql(channel).response.body).Ok?))
            && (err.None? ==> t == Some(Gql.TokenOf(env.decodeToken(env.gql(channel).response.body).value)))
            && (err.Some? ==> t == token)
  {
  }

  /** What getVariant does when it does not crash: the URI, or "" and an error. */
  datatype VariantOutcome = Found(uri: string, err: Option<Error>) | VariantCrash

  /**
   * Reference outcome of getVariant for a manager holding `t`, on a URL
   * template that parses. The decoder's error is discarded and the stale
   * `err` it is tested with is nil, so a failed decode goes on to the type
   * assertion, which panics unless the result is a master playlist.
   */
  function VariantStep(channel: string, t: Gql.StreamPlaybackAccessToken, env: Environment): VariantOutcome
    requires env.parse(Usher.UsherTarget(channel)).Ok?
  {
    var u := Usher.LegacyMasterPlaylist(channel, t, env.parse, env.esc);
    match env.usher(u)
    case TransportFailure(e, _) => Found("", Some(e))
    case Completed(res) =>
      if res.statusCode != StatusOK then
        Found("", Some(Error("http.StatusOK failed: got a response from usher: " + res.status)))
      else
        var d := env.decodePlaylist(res.body);
        if !d.playlist.Master? then VariantCrash
        else if |d.playlist.variants| > 0 then Found(d.playlist.variants[0].uri, None)
        else Found("", Some(Error("got a response from usher: " + res.status)))
  }

  /**
   * getVariant's outcomes: a transport error is returned as it is; a status
   * other than 200 gives an error naming it; otherwise the URI of the first
   * variant, or an error naming the status for a playlist without variants.
   * A URI comes exactly with a nil error.
   */
  lemma VariantOutcomes(channel: string, t: Gql.StreamPlaybackAccessToken, env: Environment)
    requires env.parse(Usher.UsherTarget(channel)).Ok?
    requires VariantStep(channel, t, env).Found?
    ensures var o := VariantStep(channel, t, env);
            var x := env.usher(Usher.LegacyMasterPlaylist(channel, t, env.parse, env.esc));
            && (x.TransportFailure? ==> o == Found("", Some(x.err)))
            && (x.Completed? && x.response.statusCode != StatusOK ==>
                  o.uri == "" && o.err.Some? && o.err.value.msg[|o.err.value.msg| - |x.response.status|..] == x.response.status)
            && (o.err.None? <==> x.Completed? && x.response.statusCode == StatusOK &&
                                 |env.decodePlaylist(x.response.body).playlist.variants| > 0)
            && (o.err.None? ==> o.uri == env.decodePlaylist(x.response.body).playlist.variants[0].uri)
  {
    var x := env.usher(Usher.LegacyMasterPlaylist(channel, t, env.parse, env.esc));
    if x.Completed? && x.response.statusCode != StatusOK {
      var m := "http.StatusOK failed: got a response from usher: ";
      assert (m + x.response.status)[|m|..] == x.response.status;
    }
  }

  /** The decoder's error never reaches the caller: a master playlist is used whatever the decoder said. */
  lemma DecodeErrorIgnored(channel: string, t: Gql.StreamPlaybackAccessToken, env: Environment, res: Response,
                           vs: seq<M3u8.Variant>, e: Error)
    requires env.parse(Usher.UsherTarget(channel)).Ok?
    requires env.usher(Usher.LegacyMasterPlaylist(channel, t, env.parse, env.esc)) == Completed(res)
    requires res.statusCode == StatusOK && |vs| > 0
    requires env.decodePlaylist(res.body) == M3u8.Decoded(M3u8.Master(vs), Some(e))
    ensures VariantStep(channel, t, env) == Found(vs[0].uri, None)
  {
  }

  /**
   * The URL getVariant fetches is the one getMasterPlaylist returns. The
   * source writes the nine Add calls out twice (main.go:63-80 and 83-96);
   * the model has one builder, LegacyMasterPlaylist, for both, so this
   * holds by construction and records that the two copies agree.
   */
  lemma VariantFetchesMasterPlaylist(channel: string, t: Gql.StreamPlaybackAccessToken, env: Environment)
    requires env.parse(Usher.UsherTarget(channel)).Ok?
    ensures MasterPlaylistStep(channel, Some(t), env) == MplFound(Usher.LegacyMasterPlaylist(channel, t, env.parse, env.esc))
  {
  }

  /** What getMasterPlaylist (and so GetMPL) does: the URL, with a nil error, or a crash. */
  datatype MplOutcome = MplFound(url: Usher.Url) | MplCrash

  /**
   * getMasterPlaylist dereferences the token and the parsed URL without a
   * check, so a missing token or a failed parse crashes; it never returns
   * an error.
   */
  function MasterPlaylistStep(channel: string, token: Option<Gql.StreamPlaybackAccessToken>, env: Environment): MplOutcome
  {
    if token.None? || env.parse(Usher.UsherTarget(channel)).Err? then MplCrash
    else MplFound(Usher.LegacyMasterPlaylist(channel, token.value, env.parse, env.esc))
  }

  /** Reference outcome of Get: getToken's error is dropped, so only the token it leaves matters. */
  function GetOutcome(channel: string, env: Environment): VariantOutcome
  {
    var (t, _) := TokenStep(channel, None, env);
    if t.None? || env.parse(Usher.UsherTarget(channel)).Err? then VariantCrash
    else VariantStep(channel, t.value, env)
  }

  function GetMPLOutcome(channel: string, env: Environment): MplOutcome
  {
    MasterPlaylistStep(channel, TokenStep(channel, None, env).0, env)
  }

  /**
   * Get and GetMPL ignore getToken's error: when it reports one, the fresh
   * manager has no token and both crash on it rather than report it.
   */
  lemma TokenErrorCrashes(channel: string, env: Environment)
    requires TokenStep(channel, None, env).1.Some?
    ensures GetOutcome(channel, env) == VariantCrash
    ensures GetMPLOutcome(channel, env) == MplCrash
  {
    TokenStepSpec(channel, None, env);
  }

  class PlaylistManager {
    var channelName: string
    var token: Option<Gql.StreamPlaybackAccessToken>

    /** `&PlaylistManager{ChannelName: channel}`. */
    constructor (channel: string)
      ensures channelName == channel && token.None?
    {
      channelName, token := channel, None;
    }

    /** getToken, against its reference outcome TokenStep. */
    method GetToken(env: Environment) returns (err: Option<Error>)
      modifies this
      ensures channelName == old(channelName)
      ensures (token, err) == TokenStep(channelName, old(token), env)
    {
      var u := env.parse(GraphQLURL);
      if u.Err? {
        return Some(u.error);
      }
      var x := env.gql(channelName);
      if x.TransportFailure? {
        return Some(x.err);
      }
      var res := x.response;
      if res.statusCode != StatusOK {
        return Some(Error("non-200 code returned for graphql request for PlaybackAccessToken: " + res.status));
      }
      var g := env.decodeToken(res.body);
      if g.Err? {
        return Some(g.error);
      }
      token := Some(Gql.TokenOf(g.value));
      return None;
    }

    /** getMasterPlaylist: the nine-key URL, and an error that is always nil. */
    method GetMasterPlaylist(env: Environment) returns (url: Usher.Url, err: Option<Error>)
      requires MasterPlaylistStep(channelName, token, env).MplFound?
      ensures MplFound(url) == MasterPlaylistStep(channelName, token, env) && err.None?
    {
      url := Usher.LegacyMasterPlaylist(channelName, token.value, env.parse, env.esc);
      err := None;
    }

    /** getVariant: the loop over the variants returns on its first round. */
    method GetVariant(env: Environment) returns (uri: string, err: Option<Error>)
      requires token.Some? && env.parse(Usher.UsherTarget(channelName)).Ok?
      requires VariantStep(channelName, token.value, env).Found?
      ensures Found(uri, err) == VariantStep(channelName, token.value, env)
    {
      var u := Usher.LegacyMasterPlaylist(channelName, token.value, env.parse, env.esc);
      var x := env.usher(u);
      if x.TransportFailure? {
        return "", Some(x.err);
      }
      var res := x.response;
      if res.statusCode != StatusOK {
        return "", Some(Error("http.StatusOK failed: got a response from usher: " + res.status));
      }
      var d := env.decodePlaylist(res.body);
      var vs := d.playlist.variants;
      for i := 0 to |vs|
        invariant i == 0
      {
        return vs[i].uri, None;
      }
      return "", Some(Error("got a response from usher: " + res.status));
    }

    /** Get, when it does not crash. */
    static method Get(channel: string, env: Environment) returns (uri: string, err: Option<Error>)
      requires GetOutcome(channel, env).Found?
      ensures Found(uri, err) == GetOutcome(channel, env)
    {
      var p := new PlaylistManager(channel);
      var _ := p.GetToken(env);
      uri, err := p.GetVariant(env);
    }

    /** GetMPL, when it does not crash; the URL is returned unformatted. */
    static method GetMPL(channel: string, env: Environment) returns (url: Usher.Url, err: Option<Error>)
      requires GetMPLOutcome(channel, env).MplFound?
      ensures MplFound(url) == GetMPLOutcome(channel, env) && err.None?
    {
      var p := new PlaylistManager(channel);
      var _ := p.GetToken(env);
      url, err := p.GetMasterPlaylist(env);
    }
  }
}
