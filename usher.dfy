/**
 * The signed master-playlist URL: the Usher endpoint for the channel with a
 * fixed set of query parameters around the access token's signature and
 * value. Two builders exist: getMasterPlaylist of twitchpl.go (ten keys,
 * added to whatever query the parsed template already holds) and the one
 * shared by getMasterPlaylist and getVariant of main.go (nine keys, a fresh
 * query). url.Parse and the percent-escaping are parameters.
 */
module Usher {
  import opened Wrappers
  import opened UrlValues
  import Http
  import Gql

  const UsherPrefix: string := "https://usher.ttvnw.net/api/channel/hls/"
  const UsherSuffix: string := ".m3u8"

  /** fmt.Sprintf(UsherAPI, channel): the endpoint template with the channel in place of %s. */
  function UsherTarget(channel: string): (u: string)
    ensures |u| == |UsherPrefix| + |channel| + |UsherSuffix|
    ensures u[..|UsherPrefix|] == UsherPrefix
    ensures u[|UsherPrefix|..|UsherPrefix| + |channel|] == channel
    ensures u[|UsherPrefix| + |channel|..] == UsherSuffix
  {
    UsherPrefix + channel + UsherSuffix
  }

  /** Different channels give different endpoints. */
  lemma UsherTargetInjective(a: string, b: string)
    ensures UsherTarget(a) == UsherTarget(b) <==> a == b
  {
    if UsherTarget(a) == UsherTarget(b) {
      assert |a| == |b|;
      assert a == UsherTarget(a)[|UsherPrefix|..|UsherPrefix| + |a|];
    }
  }

  /** What url.Parse returns for a URL: everything but the query, and the query as Values. */
  datatype ParsedUrl = ParsedUrl(location: string, query: Values)

  /** A *url.URL after `RawQuery` has been assigned. */
  datatype Url = Url(location: string, rawQuery: string)

  /** The ten `query.Set` calls of getMasterPlaylist in twitchpl.go, in source order. */
  function MasterSets(t: Gql.StreamPlaybackAccessToken): seq<(string, string)>
  {
    LegacySets(t) + [("player_type", "embed")]
  }

  /** The ten parameters of twitchpl.go with their values, in the order Encode writes them. */
  function MasterPairs(t: Gql.StreamPlaybackAccessToken): seq<(string, string)>
  {
    [("allow_source", "true"), ("cdm", "wv"), ("fast_bread", "true"), ("p", "1234567890"),
     ("player_backend", "mediaplayer"), ("player_type", "embed"), ("player_version", "1.2.0"),
     ("sig", t.signature), ("supported_codecs", "vp09,avc1"), ("token", t.value)]
  }

  const MasterKeys: seq<string> := [
    "allow_source", "cdm", "fast_bread", "p", "player_backend",
    "player_type", "player_version", "sig", "supported_codecs", "token"]

  /** The query getMasterPlaylist of twitchpl.go builds on the query of the parsed template. */
  function MasterQuery(existing: Values, t: Gql.StreamPlaybackAccessToken): Values
  {
    SetAll(existing, MasterSets(t))
  }

  lemma LowerKeys()
    ensures Less("allow_source", "cdm") && Less("cdm", "fast_bread") && Less("fast_bread", "p")
  {
  }

  lemma PlayerKeys()
    ensures Less("p", "player_backend") && Less("player_backend", "player_type")
  {
    LessPrefix("p", "player_backend");
    LessAt("player_backend", "player_type", 7);
  }

  lemma VersionKeys()
    ensures Less("player_type", "player_version")
  {
    LessAt("player_type", "player_version", 7);
  }

  lemma BackendBeforeVersion()
    ensures Less("player_backend", "player_version")
  {
    LessAt("player_backend", "player_version", 7);
  }

  lemma UpperKeys()
    ensures Less("player_version", "sig") && Less("sig", "supported_codecs") && Less("supported_codecs", "token")
  {
    LessAt("sig", "supported_codecs", 1);
  }

  lemma MasterNeighbours()
    ensures forall i :: 0 <= i < |MasterKeys| - 1 ==> Less(MasterKeys[i], MasterKeys[i + 1])
  {
    forall i | 0 <= i < |MasterKeys| - 1 ensures Less(MasterKeys[i], MasterKeys[i + 1]) {
      if i < 3 { LowerKeys(); }
      else if i < 5 { PlayerKeys(); }
      else if i < 6 { VersionKeys(); }
      else { UpperKeys(); }
    }
  }

  lemma LegacyNeighbours()
    ensures forall i :: 0 <= i < |LegacyKeys| - 1 ==> Less(LegacyKeys[i], LegacyKeys[i + 1])
  {
    forall i | 0 <= i < |LegacyKeys| - 1 ensures Less(LegacyKeys[i], LegacyKeys[i + 1]) {
      if i < 3 { LowerKeys(); }
      else if i < 4 { PlayerKeys(); }
      else if i < 5 { BackendBeforeVersion(); }
      else { UpperKeys(); }
    }
  }

  /** The ten keys, and the nine of main.go, are listed in sorted order. */
  lemma MasterKeysSorted()
    ensures StrictlySorted(MasterKeys)
    ensures StrictlySorted(LegacyKeys)
  {
    MasterNeighbours();
    NeighboursSorted(MasterKeys);
    LegacyNeighbours();
    NeighboursSorted(LegacyKeys);
  }

  /** No key is set twice. */
  lemma MasterSetsDistinct(t: Gql.StreamPlaybackAccessToken)
    ensures DistinctKeys(MasterSets(t))
  {
  }

  /** Two lists whose every entry occurs in the other hold the same pairs. */
  lemma SamePairs(a: seq<(string, string)>, b: seq<(string, string)>)
    requires forall i :: 0 <= i < |a| ==> a[i] in b
    requires forall j :: 0 <= j < |b| ==> b[j] in a
    ensures forall p :: p in a <==> p in b
  {
  }

  lemma MasterSetsLow(t: Gql.StreamPlaybackAccessToken)
    ensures |MasterSets(t)| == 10 && |MasterPairs(t)| == 10
    ensures MasterSets(t)[0] == MasterPairs(t)[0] && MasterSets(t)[1] == MasterPairs(t)[2]
    ensures MasterSets(t)[2] == MasterPairs(t)[3] && MasterSets(t)[3] == MasterPairs(t)[4]
    ensures MasterSets(t)[4] == MasterPairs(t)[7]
  {
  }

  lemma MasterSetsHigh(t: Gql.StreamPlaybackAccessToken)
    ensures MasterSets(t)[5] == MasterPairs(t)[8] && MasterSets(t)[6] == MasterPairs(t)[9]
    ensures MasterSets(t)[7] == MasterPairs(t)[1] && MasterSets(t)[8] == MasterPairs(t)[6]
    ensures MasterSets(t)[9] == MasterPairs(t)[5]
  {
  }

  lemma MasterPairsKeys(t: Gql.StreamPlaybackAccessToken)
    ensures Firsts(MasterPairs(t)) == MasterKeys
  {
  }

  /** `a` is `b` reordered by `f`, which hits every index of `b`: the two hold the same pairs. */
  lemma PermutedPairs(a: seq<(string, string)>, b: seq<(string, string)>, f: seq<nat>)
    requires |a| == |f|
    requires forall i :: 0 <= i < |a| ==> f[i] < |b| && a[i] == b[f[i]]
    requires forall j :: 0 <= j < |b| ==> j in f
    ensures forall p :: p in a <==> p in b
  {
    forall j | 0 <= j < |b| ensures b[j] in a {
      assert j in f;
      var i :| 0 <= i < |f| && f[i] == j;
      assert a[i] == b[j];
    }
    SamePairs(a, b);
  }

  /** The calls in source order set the same pairs as the sorted list. */
  lemma MasterSetsArePairs(t: Gql.StreamPlaybackAccessToken)
    ensures forall p :: p in MasterSets(t) <==> p in MasterPairs(t)
    ensures Firsts(MasterPairs(t)) == MasterKeys
  {
    MasterSetsLow(t);
    MasterSetsHigh(t);
    MasterPairsKeys(t);
    var f: seq<nat> := [0, 2, 3, 4, 7, 8, 9, 1, 6, 5];
    assert forall j :: 0 <= j < 10 ==> j in f by {
      forall j | 0 <= j < 10 ensures j in f {
        assert f[[0, 7, 1, 2, 3, 9, 8, 4, 5, 6][j]] == j;
      }
    }
    PermutedPairs(MasterSets(t), MasterPairs(t), f);
  }

  lemma MasterSetsKeys(t: Gql.StreamPlaybackAccessToken)
    ensures forall k :: k in Firsts(MasterSets(t)) <==> k in MasterKeys
  {
    MasterSetsArePairs(t);
    forall k ensures k in Firsts(MasterSets(t)) <==> k in MasterKeys {
      if k in Firsts(MasterSets(t)) {
        var i :| 0 <= i < |MasterSets(t)| && Firsts(MasterSets(t))[i] == k;
        assert MasterSets(t)[i] in MasterPairs(t);
      }
      if k in MasterKeys {
        var i :| 0 <= i < |MasterKeys| && MasterKeys[i] == k;
        assert MasterPairs(t)[i] in MasterSets(t);
      }
    }
  }

  /** The ten keys are the ones the query holds besides the template's own. */
  lemma MasterQueryKeys(existing: Values, t: Gql.StreamPlaybackAccessToken)
    ensures forall k :: k in MasterQuery(existing, t) <==> k in existing || k in MasterKeys
  {
    SetAllKeys(existing, MasterSets(t));
    MasterSetsKeys(t);
  }

  /** Each of the ten keys holds exactly its one value, whatever the template held. */
  lemma MasterQueryAt(existing: Values, t: Gql.StreamPlaybackAccessToken, i: nat)
    requires i < |MasterPairs(t)|
    ensures var q := MasterQuery(existing, t);
            MasterPairs(t)[i].0 in q && q[MasterPairs(t)[i].0] == [MasterPairs(t)[i].1]
  {
    MasterSetsArePairs(t);
    MasterSetsDistinct(t);
    assert MasterPairs(t)[i] in MasterSets(t);
    var j :| 0 <= j < |MasterSets(t)| && MasterSets(t)[j] == MasterPairs(t)[i];
    SetAllAt(existing, MasterSets(t), j);
  }

  /** A key of the template outside the ten keeps its values. */
  lemma MasterQueryKeeps(existing: Values, t: Gql.StreamPlaybackAccessToken, k: string)
    requires k in existing && k !in MasterKeys
    ensures k in MasterQuery(existing, t) && MasterQuery(existing, t)[k] == existing[k]
  {
    MasterSetsKeys(t);
    SetAllOthers(existing, MasterSets(t), k);
  }

  /**
   * On a template without a query, the encoded query holds exactly the ten
   * keys, each once, in sorted order, with `sig` and `token` taken from the
   * token and the other eight constant.
   */
  lemma FreshMasterQueryPairs(t: Gql.StreamPlaybackAccessToken)
    ensures Pairs(MasterQuery(map[], t)) == MasterPairs(t)
  {
    MasterKeysSorted();
    MasterSetsArePairs(t);
    MasterSetsDistinct(t);
    SetAllPairs(MasterSets(t), MasterPairs(t));
  }

  /**
   * getMasterPlaylist of twitchpl.go returns without a nil dereference: the
   * token is read only once the endpoint has parsed, so a missing token is
   * harmless when the parse fails.
   */
  predicate BuilderReturns(channel: string, token: Option<Gql.StreamPlaybackAccessToken>,
                           parse: string -> Result<ParsedUrl, Http.Error>)
  {
    token.Some? || parse(UsherTarget(channel)).Err?
  }

  /** getMasterPlaylist of twitchpl.go, on the manager's token pointer. */
  function MasterPlaylist(channel: string, token: Option<Gql.StreamPlaybackAccessToken>,
                          parse: string -> Result<ParsedUrl, Http.Error>, esc: string -> string): (r: Result<Url, Http.Error>)
    requires BuilderReturns(channel, token, parse)
    ensures parse(UsherTarget(channel)).Err? <==> r.Err?
    ensures r.Err? ==> r.error == Http.Error("failed to generate master playlist")
    ensures r.Ok? ==> token.Some? && r.value.location == parse(UsherTarget(channel)).value.location
  {
    match parse(UsherTarget(channel))
    case Err(_) => Err(Http.Error("failed to generate master playlist"))
    case Ok(u) => Ok(Url(u.location, Encode(MasterQuery(u.query, token.value), esc)))
  }

  /**
   * Whatever query the parsed template already holds, the built query has
   * one value for each of the ten keys.
   */
  lemma MasterPlaylistHasTenKeys(channel: string, t: Gql.StreamPlaybackAccessToken,
                                 parse: string -> Result<ParsedUrl, Http.Error>, esc: string -> string, unesc: string -> string)
    requires Escapes(esc, unesc)
    requires MasterPlaylist(channel, Some(t), parse, esc).Ok?
    ensures var ps := Decode(MasterPlaylist(channel, Some(t), parse, esc).value.rawQuery, unesc);
            forall i, x :: 0 <= i < |MasterPairs(t)| ==>
              ((MasterPairs(t)[i].0, x) in ps <==> x == MasterPairs(t)[i].1)
  {
    var u := parse(UsherTarget(channel)).value;
    EncodeDecode(MasterQuery(u.query, t), esc, unesc);
    forall i | 0 <= i < |MasterPairs(t)| {
      MasterQueryAt(u.query, t, i);
    }
  }

  /**
   * Round trip on the template the endpoint constant gives (parsed without
   * a query): the URL is the channel's endpoint, and reading its query back
   * gives exactly the ten pairs in sorted key order.
   */
  lemma MasterPlaylistRoundTrip(channel: string, t: Gql.StreamPlaybackAccessToken,
                                parse: string -> Result<ParsedUrl, Http.Error>, esc: string -> string, unesc: string -> string)
    requires Escapes(esc, unesc)
    requires parse(UsherTarget(channel)) == Ok(ParsedUrl(UsherTarget(channel), map[]))
    ensures MasterPlaylist(channel, Some(t), parse, esc) == Ok(Url(UsherTarget(channel), Join(MasterPairs(t), esc)))
    ensures Decode(MasterPlaylist(channel, Some(t), parse, esc).value.rawQuery, unesc) == MasterPairs(t)
  {
    FreshMasterQueryPairs(t);
    JoinDecode(MasterPairs(t), esc, unesc);
  }

  // ---------------------------------------------------------------------
  // main.go
  // ---------------------------------------------------------------------

  /** The nine parameters of main.go: the ten without `player_type`. */
  const LegacyKeys: seq<string> := [
    "allow_source", "cdm", "fast_bread", "p", "player_backend",
    "player_version", "sig", "supported_codecs", "token"]

  /** The nine `v.Add` calls of main.go, in source order. */
  function LegacySets(t: Gql.StreamPlaybackAccessToken): seq<(string, string)>
  {
    [("allow_source", "true"), ("fast_bread", "true"), ("p", "1234567890"),
     ("player_backend", "mediaplayer"), ("sig", t.signature), ("supported_codecs", "vp09,avc1"),
     ("token", t.value), ("cdm", "wv"), ("player_version", "1.2.0")]
  }

  /** The nine pairs of main.go, in the order Encode writes them. */
  function LegacyPairs(t: Gql.StreamPlaybackAccessToken): seq<(string, string)>
  {
    [("allow_source", "true"), ("cdm", "wv"), ("fast_bread", "true"), ("p", "1234567890"),
     ("player_backend", "mediaplayer"), ("player_version", "1.2.0"),
     ("sig", t.signature), ("supported_codecs", "vp09,avc1"), ("token", t.value)]
  }

  /** The query main.go builds on a fresh url.Values. */
  function LegacyQuery(t: Gql.StreamPlaybackAccessToken): Values
  {
    AddAll(map[], LegacySets(t))
  }

  lemma LegacySetsDistinct(t: Gql.StreamPlaybackAccessToken)
    ensures DistinctKeys(LegacySets(t))
  {
    MasterSetsDistinct(t);
    forall a, b | 0 <= a < b < |LegacySets(t)| ensures LegacySets(t)[a].0 != LegacySets(t)[b].0 {
      assert LegacySets(t)[a] == MasterSets(t)[a] && LegacySets(t)[b] == MasterSets(t)[b];
    }
  }

  lemma LegacySetsLow(t: Gql.StreamPlaybackAccessToken)
    ensures |LegacySets(t)| == 9 && |LegacyPairs(t)| == 9
    ensures LegacySets(t)[0] == LegacyPairs(t)[0] && LegacySets(t)[1] == LegacyPairs(t)[2]
    ensures LegacySets(t)[2] == LegacyPairs(t)[3] && LegacySets(t)[3] == LegacyPairs(t)[4]
  {
  }

  lemma LegacySetsHigh(t: Gql.StreamPlaybackAccessToken)
    ensures LegacySets(t)[4] == LegacyPairs(t)[6] && LegacySets(t)[5] == LegacyPairs(t)[7]
    ensures LegacySets(t)[6] == LegacyPairs(t)[8] && LegacySets(t)[7] == LegacyPairs(t)[1]
    ensures LegacySets(t)[8] == LegacyPairs(t)[5]
  {
  }

  lemma LegacyPairsKeys(t: Gql.StreamPlaybackAccessToken)
    ensures Firsts(LegacyPairs(t)) == LegacyKeys
  {
  }

  /** main.go's calls in source order add the same pairs as its sorted list. */
  lemma LegacySetsArePairs(t: Gql.StreamPlaybackAccessToken)
    ensures forall p :: p in LegacySets(t) <==> p in LegacyPairs(t)
    ensures Firsts(LegacyPairs(t)) == LegacyKeys
  {
    LegacySetsLow(t);
    LegacySetsHigh(t);
    LegacyPairsKeys(t);
    var f: seq<nat> := [0, 2, 3, 4, 6, 7, 8, 1, 5];
    assert forall j :: 0 <= j < 9 ==> j in f by {
      forall j | 0 <= j < 9 ensures j in f {
        assert f[[0, 7, 1, 2, 3, 8, 4, 5, 6][j]] == j;
      }
    }
    PermutedPairs(LegacySets(t), LegacyPairs(t), f);
  }

  /** Every key is added once, to Values that do not hold it yet, so each Add acts as a Set. */
  lemma LegacyAddsAreSets(t: Gql.StreamPlaybackAccessToken)
    ensures LegacyQuery(t) == SetAll(map[], LegacySets(t))
  {
    LegacySetsDistinct(t);
    AddAllFresh(map[], LegacySets(t));
  }

  /** main.go's query is twitchpl.go's fresh query without `player_type`. */
  lemma MasterExtendsLegacy(t: Gql.StreamPlaybackAccessToken)
    ensures MasterQuery(map[], t) == LegacyQuery(t)["player_type" := ["embed"]]
    ensures "player_type" !in LegacyQuery(t)
  {
    LegacyAddsAreSets(t);
    SetAllSnoc(map[], LegacySets(t), ("player_type", "embed"));
    SetAllKeys(map[], LegacySets(t));
    LegacyLacksPlayerType(t);
  }

  lemma LegacyLacksPlayerType(t: Gql.StreamPlaybackAccessToken)
    ensures "player_type" !in Firsts(LegacySets(t))
  {
  }

  /** The pairs of main.go's query, as written. */
  lemma LegacyQueryPairs(t: Gql.StreamPlaybackAccessToken)
    ensures Pairs(LegacyQuery(t)) == LegacyPairs(t)
  {
    LegacyAddsAreSets(t);
    MasterKeysSorted();
    LegacySetsArePairs(t);
    LegacySetsDistinct(t);
    SetAllPairs(LegacySets(t), LegacyPairs(t));
  }

  /**
   * getMasterPlaylist of main.go, and the identical URL getVariant builds.
   * The parse error is discarded there, so a failed parse dereferences nil:
   * the parse must succeed. The parsed query is replaced, not extended, and
   * the error returned beside the URL is always nil.
   */
  function LegacyMasterPlaylist(channel: string, t: Gql.StreamPlaybackAccessToken,
                                parse: string -> Result<ParsedUrl, Http.Error>, esc: string -> string): (u: Url)
    requires parse(UsherTarget(channel)).Ok?
    ensures u.location == parse(UsherTarget(channel)).value.location
  {
    Url(parse(UsherTarget(channel)).value.location, Encode(LegacyQuery(t), esc))
  }

  /** Reading back main.go's query gives its nine pairs, whatever query the template held. */
  lemma LegacyPlaylistRoundTrip(channel: string, t: Gql.StreamPlaybackAccessToken,
                                parse: string -> Result<ParsedUrl, Http.Error>, esc: string -> string, unesc: string -> string)
    requires Escapes(esc, unesc)
    requires parse(UsherTarget(channel)).Ok?
    ensures Decode(LegacyMasterPlaylist(channel, t, parse, esc).rawQuery, unesc) == LegacyPairs(t)
  {
    EncodeDecode(LegacyQuery(t), esc, unesc);
    LegacyQueryPairs(t);
  }
}
