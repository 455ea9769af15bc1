/**
 * The GraphQL request that asks for a stream playback access token, and the
 * records its JSON response is decoded into (gql.go).
 */
module Gql {

  const OperationName: string := "PlaybackAccessToken_Template"

  /** The constant query document sent for every channel. */
  const QueryDocument: string := @"query PlaybackAccessToken_Template($login: String!, $isLive: Boolean!, $vodID: ID!, $isVod: Boolean!, $playerType: String!) {  streamPlaybackAccessToken(channelName: $login, params: {platform: ""web"", playerBackend: ""mediaplayer"", playerType: $playerType}) @include(if: $isLive) {    value    signature    __typename  }  videoPlaybackAccessToken(id: $vodID, params: {platform: ""web"", playerBackend: ""mediaplayer"", playerType: $playerType}) @include(if: $isVod) {    value    signature    __typename  }}"

  datatype GraphQLVariables = GraphQLVariables(
    login: string, playerType: string, vodID: string, isLive: bool, isVod: bool)

  datatype GraphQLQuery = GraphQLQuery(operationName: string, query: string, variables: GraphQLVariables)

  /** The signed pair the playlist request needs. */
  datatype StreamPlaybackAccessToken = StreamPlaybackAccessToken(signature: string, value: string)

  datatype PlaybackAccessTokenGraphQLData = PlaybackAccessTokenGraphQLData(
    streamPlaybackAccessToken: StreamPlaybackAccessToken)

  /** The decoded body `{"data": {"streamPlaybackAccessToken": {"signature", "value"}}}`. */
  datatype PlaybackAccessTokenGraphQLResponse = PlaybackAccessTokenGraphQLResponse(
    data: PlaybackAccessTokenGraphQLData)

  /**
   * The struct literal of NewPlaybackAccessTokenQuery: a live-stream request
   * for `login`; VodID and IsVod are never set and keep Go's zero values.
   */
  function NewPlaybackAccessTokenQuery(login: string): (q: GraphQLQuery)
    ensures q.operationName == OperationName && q.query == QueryDocument
    ensures q.variables.login == login
    ensures q.variables.isLive && q.variables.playerType == "site"
    ensures q.variables.vodID == "" && !q.variables.isVod
  {
    GraphQLQuery(OperationName, QueryDocument, GraphQLVariables(login, "site", "", true, false))
  }

  /** Two queries are equal exactly when they were built for the same login. */
  lemma QueryDeterminedByLogin(a: string, b: string)
    ensures NewPlaybackAccessTokenQuery(a) == NewPlaybackAccessTokenQuery(b) <==> a == b
  {
    if NewPlaybackAccessTokenQuery(a) == NewPlaybackAccessTokenQuery(b) {
      assert NewPlaybackAccessTokenQuery(a).variables.login == a;
    }
  }

  /** Only the login varies: rewriting one query's login gives the other query. */
  lemma OnlyLoginVaries(a: string, b: string)
    ensures var qa := NewPlaybackAccessTokenQuery(a);
            qa.(variables := qa.variables.(login := b)) == NewPlaybackAccessTokenQuery(b)
  {
  }

  /** The token the session keeps is the one nested under data.streamPlaybackAccessToken. */
  function TokenOf(r: PlaybackAccessTokenGraphQLResponse): (t: StreamPlaybackAccessToken)
    ensures t.signature == r.data.streamPlaybackAccessToken.signature
    ensures t.value == r.data.streamPlaybackAccessToken.value
  {
    r.data.streamPlaybackAccessToken
  }
}
