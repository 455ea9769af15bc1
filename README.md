# twitchpl in Dafny

This project models the Go library twitchpl. Given a Twitch channel name, the library resolves it to the URL of a live HLS stream in five steps:

1. It asks Twitch's GraphQL endpoint for a stream playback access token, a signature and a value.
2. It builds a signed master-playlist URL on the Usher endpoint from that token.
3. It fetches the playlist, retrying on transport errors over a fixed backoff schedule.
4. It maps the playlist's variants to quality records.
5. It picks one variant by quality mode: best, worst or audio.

The repository holds two copies of this logic:
- package `twitchpl`, in `twitchpl.go` and `gql.go`;
- an older package `twpl`, in `main.go`. It has no retries, builds a nine-key URL and returns the first variant.

Modules, following the source:

- `Wrappers`: `Option` and `Result`.
- `Http`: errors as their messages, responses, and the outcome of one `Client.Do` call. An `Exchange` is either a completed call or a transport failure.
- `M3u8`: what the m3u8 decoder hands back, as an abstract value.
- `Gql`: the access-token query and the response records of `gql.go`.
- `UrlValues`: `url.Values` with `Set`, `Add` and `Encode`, which writes keys in sorted order. It also has `Decode`, the partner that reads an encoded query back into its pairs; the round-trip lemma `EncodeDecode` connects the two.
- `Usher`: the two master-playlist URL builders, the ten-key one of `twitchpl.go` and the nine-key one of `main.go`.
- `Retry`: the two retry loops of `twitchpl.go`.
  - Each loop is a method proved equal to a reference function, `GetRetry` or `PostRetry`.
  - The network is a function from attempt number to `Exchange`.
  - Sleeps are recorded as a sequence of durations.
- `Twitchpl`: the `PlaylistManager` class of `twitchpl.go`.
  - Its fields are updated in place by `Best`, `Worst`, `Audio`, `UpdateOutputter`, `GetPlaylist` and `GetToken`.
  - Each method is proved against a reference function on the `Session` value of those fields.
  - `Get` and `GetMPL` have reference outcomes that include the crash.
- `Twpl`: the `PlaylistManager` of `main.go`, with its `getToken`, `getVariant`, `getMasterPlaylist`, `Get` and `GetMPL`.

Everything outside the process is an input collected in an `Environment` datatype:
- `url.Parse`;
- query escaping;
- whether `http.NewRequest` fails;
- what each `Client.Do` returns;
- the m3u8 and JSON decoders.

A panic that nothing recovers is an explicit `Crashed` or `Panics` outcome in the reference functions. The methods require it away in their preconditions. The panic that `getToken` of `twitchpl.go` recovers with `defer recoverFromPanic()` keeps its observable effect: a nil error and no token.

Where the code and the intended design differ, the model follows the code:
- A quality mode naming an exact resolution, such as `"852x480"`, is not recognised. It falls back to the first variant, like `"best"` (`Twitchpl.SelectionScenario`).
- `"audio"` takes the last `audio_only` entry, not the first, because its loop has no `break`.
- `"worst"` reads entry `len-2`. With fewer than two variants that read panics, so it is a precondition (`Twitchpl.CanSelect`).
- `Get` does not always report a failed token step. When every GraphQL call fails at the transport level and none of them comes with a response, `getToken` returns nil with no token. (When the last failed call does carry a response, its body is decoded: a body that decodes gives the token, and one that does not gives the decode error; `Twitchpl.FailedCallWithResponseIsDecoded`.) If the channel's Usher endpoint parses, `Get` and `GetMPL` then crash on the missing token (`Twitchpl.ExhaustedTokenRetriesCrash`). If it does not parse, `getMasterPlaylist` returns its error before it reads the token, and `Get` returns the fresh manager with that error (`Twitchpl.ExhaustedTokenRetriesUnparsable`).
- `getToken` of `twitchpl.go` never checks the status code. A body of any status that decodes gives the token (`Twitchpl.AnyStatusGivesToken`).
- A 404 is not retried: it is a completed call. Only its error message differs from other statuses.
- The retry comment promises three more attempts, but both loops make at most three calls in all.
- Neither package has an alternate relay host. There is one Usher endpoint template, no `?` to `%3F` rewrite of the query separator and no relay header, so the model has only the primary-host builders.

## Model

| member | source | states |
|---|---|---|
| Gql.NewPlaybackAccessTokenQuery | gql.go:3-13 | the operation name and document are the constants; `login` is the argument; `isLive` is true and `playerType` is "site"; `vodID` and `isVod` keep their zero values |
| Gql.QueryDeterminedByLogin | gql.go:3-13 | two queries are equal exactly when their logins are equal |
| Gql.OnlyLoginVaries | gql.go:7-11 | replacing one query's login with another login gives the other login's query: nothing else depends on the argument |
| Gql.TokenOf | gql.go:29-40 | the token's signature and value are the ones under `data.streamPlaybackAccessToken` |
| UrlValues.SortedKeys | twitchpl.go:180 | Encode visits the keys strictly sorted, each key of the map exactly once |
| UrlValues.SetAllKeys | twitchpl.go:169-178 | after a run of Set calls, the keys are the old ones plus the keys set |
| UrlValues.SetAllAt | twitchpl.go:169-178 | for distinct keys, each key set holds exactly its one value, whatever it held before |
| UrlValues.SetAllOthers | twitchpl.go:167-178 | a key that is not set keeps its values |
| UrlValues.AddAllFresh | main.go:66-75 | Add calls on distinct keys the values do not hold yet act exactly like Set calls |
| UrlValues.PairsMembership | twitchpl.go:180 | a pair is encoded exactly when its key is present and holds that value |
| UrlValues.PairsOrdered | twitchpl.go:180 | encoded pairs come in non-decreasing key order |
| UrlValues.SetAllPairs | twitchpl.go:169-180 | Set calls on distinct keys over empty values encode as the same pairs in sorted key order |
| UrlValues.JoinDecode | twitchpl.go:180 | decoding joined fields gives back the pairs, when the escaping avoids `&` and `=` and can be undone |
| UrlValues.EncodeDecode | twitchpl.go:180 | round trip: decoding an encoded query gives its pairs in encode order, and a pair is read back exactly when the values hold it |
| Usher.UsherTarget | twitchpl.go:162 | the endpoint is the Usher prefix, then the channel, then `.m3u8` |
| Usher.UsherTargetInjective | twitchpl.go:162 | different channels give different endpoints, and conversely |
| Usher.MasterKeysSorted | twitchpl.go:169-178 | the ten keys of twitchpl.go, and the nine of main.go, listed in encode order, are strictly sorted |
| Usher.MasterQueryKeys | twitchpl.go:167-178 | the built query's keys are exactly the template's keys plus the ten |
| Usher.MasterQueryAt | twitchpl.go:169-178 | each of the ten keys holds exactly one value; `sig` and `token` come from the token, the other eight are constants |
| Usher.MasterQueryKeeps | twitchpl.go:167 | a template key outside the ten keeps its values |
| Usher.FreshMasterQueryPairs | twitchpl.go:167-180 | on a template without a query, the encoded pairs are exactly the ten, once each, in sorted order |
| Usher.MasterPlaylist | twitchpl.go:161-183 | an error exactly when the endpoint does not parse, and then "failed to generate master playlist"; the token is needed only when it parses; a URL keeps the parsed location |
| Usher.MasterPlaylistHasTenKeys | twitchpl.go:167-180 | whatever the template held, reading the query back gives each of the ten keys with its one value only |
| Usher.MasterPlaylistRoundTrip | twitchpl.go:161-183 | on the channel's endpoint, the URL is that endpoint with the ten pairs joined, and the query reads back as those pairs in sorted order |
| Usher.LegacyAddsAreSets | main.go:66-75 | the nine Add calls of main.go build the same query as nine Set calls |
| Usher.MasterExtendsLegacy | main.go:66-75 | main.go's query is twitchpl.go's fresh query without `player_type` |
| Usher.LegacyQueryPairs | main.go:66-77 | main.go's query encodes as its nine pairs in sorted order, with `sig` and `token` from the token |
| Usher.LegacyMasterPlaylist | main.go:63-80 | the URL keeps the parsed location; the query it carries is stated by `Usher.LegacyPlaylistRoundTrip` |
| Usher.LegacyPlaylistRoundTrip | main.go:63-80 | main.go's query reads back as exactly its nine pairs, whatever the template held |
| Retry.ErrorOf | twitchpl.go:274-275 | the error after `Client.Do` is nil exactly when the call completed |
| Retry.FirstCompleted | twitchpl.go:273-281 | the first attempt that completes: all earlier ones failed, and the attempt found completed |
| Retry.DoRequestWithRetries | twitchpl.go:269-286 | the GET loop's response, error, number of calls and sleeps equal `GetRetry` |
| Retry.DoPostRequestWithRetries | twitchpl.go:289-313 | the POST loop, with its shadowed `err`, equals `PostRetry` |
| Retry.AtMostOneCallPerEntry | twitchpl.go:268-313 | both loops make at most one call per schedule entry: three in all, not three more |
| Retry.StopsAtFirstCompleted | twitchpl.go:273-304 | both loops stop at the first completed call and return its response with a nil error |
| Retry.GetSucceedsIffSomeCallCompletes | twitchpl.go:273-285 | the GET loop returns a nil error exactly when some call completes, or when the schedule is empty |
| Retry.SleepsFollowFailures | twitchpl.go:273-308 | a sleep follows every failed call, the last one included, with the schedule's durations in order, and no completed call |
| Retry.GetReturnsLastError | twitchpl.go:282-285 | when every call fails, the GET loop returns the last call's error and response, after one call and one sleep per entry |
| Retry.PostHidesExhaustion | twitchpl.go:294-312 | when every call fails, the POST loop returns a nil error, where the GET loop returns one |
| Retry.PostErrorIsRequestError | twitchpl.go:294-297 | the POST loop returns an error exactly when the request cannot be built, and then no response and no call |
| Retry.ExhaustedBackoff | twitchpl.go:32 | a run of failures costs three calls and 6000 ms of sleep, on the GET loop and on the POST loop alike |
| Http.Wrap | twitchpl.go:188 | `%w` wrapping: the message is the prefix followed by the wrapped error's message |
| Twitchpl.NewSession | twitchpl.go:315-321 | the channel, quality "best", an empty Outputter; no token, no variants, no errors |
| Twitchpl.PlaylistManager.constructor | twitchpl.go:315-321 | the new manager's fields are `NewSession` of the channel |
| Twitchpl.PlaylistManager.Zero | twitchpl.go:66 | `&PlaylistManager{}`: every field at its zero value |
| Twitchpl.PlaylistManager.Best | twitchpl.go:146-149 | quality becomes "best", the same manager is returned, nothing else changes |
| Twitchpl.PlaylistManager.Worst | twitchpl.go:151-154 | quality becomes "worst", the same manager is returned, nothing else changes |
| Twitchpl.PlaylistManager.Audio | twitchpl.go:156-159 | quality becomes "audio", the same manager is returned, nothing else changes |
| Twitchpl.LastAudio | twitchpl.go:107-114 | there is no audio-only entry exactly when the result is none; otherwise the result is an audio-only entry with none after it |
| Twitchpl.Chosen | twitchpl.go:98-119 | "worst" chooses entry len-2; "audio" chooses the last audio-only entry, and nothing exactly when there is none; "best" and every other mode choose entry 0; the entry chosen is one of the variants |
| Twitchpl.OutputByMode | twitchpl.go:93-119 | the whole Outputter per mode: channel and quality from the manager, the other three fields from entry 0, entry len-2 or the last audio-only entry, or zero values when "audio" finds none |
| Twitchpl.Output | twitchpl.go:94-96 | the Outputter's channel and quality are the manager's |
| Twitchpl.PlaylistManager.UpdateOutputter | twitchpl.go:93-121 | a fresh Outputter for the current mode replaces the old one; the error is nil; no other field changes |
| Twitchpl.PlaylistManager.AsURL | twitchpl.go:123-129 | the URL of the variant the mode chooses, with the Outputter updated |
| Twitchpl.UnknownModeIsBest | twitchpl.go:115-118 | an unknown mode picks the same entry as "best" |
| Twitchpl.WorstOfTwoIsBest | twitchpl.go:103-106 | with two variants, "worst" picks the same entry as "best" |
| Twitchpl.LastVideo | twitchpl.go:103-106 | the last entry that is not audio-only, with its iff characterisation |
| Twitchpl.WorstIsLastVideo | twitchpl.go:103-106 | when exactly the last entry is audio-only, "worst" gives the last video entry |
| Twitchpl.AudioWithoutTrack | twitchpl.go:107-114 | without an audio-only entry, "audio" leaves resolution, frame rate and URL at zero values |
| Twitchpl.AudioTakesLast | twitchpl.go:107-114 | an audio-only entry at the end wins over every earlier one |
| Twitchpl.SelectionScenario | twitchpl.go:98-119 | best, worst and audio on a three-entry list; "852x480" and "4K" fall back to best; two audio entries give the later one |
| Twitchpl.ToQualityVariant | twitchpl.go:228-233 | name from the first alternative; resolution, frame rate and URL from the entry |
| Twitchpl.ToQualityVariants | twitchpl.go:226-234 | the entries are mapped one by one and in order |
| Twitchpl.ClassifyBookkeeping | twitchpl.go:204-237 | after a completed call, a failure appends exactly one error and keeps the variants; success needs status 200 and a master playlist, records nothing, and sets the variants to its entries mapped in order |
| Twitchpl.FetchFromBookkeeping | twitchpl.go:191-237 | the same holds from the request on; on success the variants are the mapped entries of the body the GET loop returned |
| Twitchpl.CompletedGetHasResponse | twitchpl.go:197-202 | a nil error from the GET loop always comes with a response |
| Twitchpl.FetchBookkeeping | twitchpl.go:185-237 | a URL that cannot be built records nothing; every later failure appends exactly one error; no field but errors and variants ever changes |
| Twitchpl.StatusClassification | twitchpl.go:204-211 | 404 reports the stream offline; any other status but 200 reports the status; only 200 can succeed |
| Twitchpl.FetchSucceedsIff | twitchpl.go:185-237 | getPlaylist succeeds exactly when the URL and request are built, a call completes with 200, and the body decodes to a master playlist; then the session is the old one with the variants set to that playlist's entries, mapped in order |
| Twitchpl.PlaylistManager.GetPlaylist | twitchpl.go:185-238 | the new fields and the error equal `FetchPlaylist` of the old fields |
| Twitchpl.PlaylistManager.ClassifyResponse | twitchpl.go:204-237 | the fields and error after the status check and mapping loop equal `Classify` |
| Twitchpl.TokenOnlyFromDecode | twitchpl.go:240-266 | getToken changes only the token, only with a nil error, and only to a token that some body decodes to |
| Twitchpl.SilentTokenFailure | twitchpl.go:253-257 | an unbuildable request, or three failed calls without responses, give a nil error and no token |
| Twitchpl.AnyStatusGivesToken | twitchpl.go:253-263 | a completed first call of any status whose body decodes sets the token |
| Twitchpl.FailedCallWithResponseIsDecoded | twitchpl.go:253-263 | after three failed calls whose last one carries a response, the body is decoded: the token on success, the decoder's error otherwise |
| Twitchpl.PlaylistManager.GetToken | twitchpl.go:240-266 | the new fields and the error equal `AcquireToken` of the old fields |
| Twitchpl.ExhaustedTokenRetriesCrash | twitchpl.go:61-91 | when every GraphQL call fails, none of them comes with a response, and the Usher endpoint parses, Get and GetMPL crash instead of returning an error |
| Twitchpl.ExhaustedTokenRetriesUnparsable | twitchpl.go:61-91 | when every GraphQL call fails, none of them comes with a response, and the Usher endpoint does not parse, Get returns the fresh manager with "failed to get master playlist: failed to generate master playlist", and GetMPL returns no URL and "failed to generate master playlist" |
| Twitchpl.GetReturns | twitchpl.go:61-75 | a returning Get gives the empty manager with the token error, the channel's manager with quality "best" and a token, or the fresh manager without a token and the parse error of the URL builder |
| Twitchpl.PlaylistManager.Get | twitchpl.go:61-75 | the manager's fields and the error equal `GetOutcome` |
| Twitchpl.GetMPLIsPlaylistURL | twitchpl.go:77-91 | GetMPL returns a URL exactly when it returns no error, and that URL is the one getPlaylist fetches |
| Twitchpl.PlaylistManager.GetMPL | twitchpl.go:77-91 | URL and error equal `GetMPLOutcome` |
| Twpl.NewPlaybackAccessTokenQuery | main.go:26-36 | the same query as gql.go's: `login` the argument, `isLive` true, `playerType` "site", `vodID` and `isVod` at zero values |
| Twpl.TokenStepSpec | main.go:129-166 | getToken returns a nil error exactly when the URL parses, the call completes with 200 and the body decodes; then the token is the decoded one; otherwise the token is unchanged |
| Twpl.PlaylistManager.constructor | main.go:40-42 | the channel is the argument; no token |
| Twpl.PlaylistManager.GetToken | main.go:129-166 | the new token and the error equal `TokenStep`; the channel is unchanged |
| Twpl.VariantOutcomes | main.go:101-125 | a transport error is returned as is; a non-200 status gives an error ending in the status; a nil error comes exactly with a 200 and at least one variant, and then the URI is the first variant's |
| Twpl.DecodeErrorIgnored | main.go:111-121 | a decoder error does not stop getVariant: a master playlist it returned still gives its first URI |
| Twpl.VariantFetchesMasterPlaylist | main.go:83-96 | getVariant fetches exactly the URL getMasterPlaylist returns for the same manager |
| Twpl.PlaylistManager.GetVariant | main.go:82-127 | URI and error equal `VariantStep` |
| Twpl.PlaylistManager.GetMasterPlaylist | main.go:63-80 | the nine-key URL, and an error that is always nil |
| Twpl.TokenErrorCrashes | main.go:38-61 | Get and GetMPL ignore getToken's error: when it reports one, both crash on the missing token |
| Twpl.PlaylistManager.Get | main.go:38-49 | URI and error equal `GetOutcome` |
| Twpl.PlaylistManager.GetMPL | main.go:51-61 | the URL equals `GetMPLOutcome`'s and the error is nil |

## Left out

- The HTTP transport and client configuration (twitchpl.go:24-30) are not modelled, nor is `time.Sleep`. Each `Client.Do` call is an input: an `Exchange` by attempt number. Sleeps are recorded as durations, not taken.
- `url.Parse`, `url.QueryEscape` and `http.NewRequest` are parameters. The only assumption about escaping is in `Escapes`: its output holds neither `&` nor `=`, and the unescaping undoes it.
- `m3u8.DecodeFrom` is a parameter returning an abstract playlist and error. Reading from a closed body is not modelled.
- `encoding/json` is not modelled. Encoding the query is taken never to fail. Decoding is a parameter from the body to the response record.
- Context cancellation (twitchpl.go:294) and the request headers are not modelled.
- A drained POST body on retries (twitchpl.go:294) is not modelled. Each attempt's answer is an input.
- The GraphQL answers in `Twitchpl.Environment` are indexed by login rather than by request body. The body is a function of the login alone (`Gql.QueryDeterminedByLogin`), so this loses nothing.
- `FrameRate` is a `real`. It is only copied, never computed.
- `Outputter` is a value, not a pointer. No other object aliases it.
- `AsJSON` (twitchpl.go:131-144) and the `fmt.Sprintf("%v", mpl)` of both `GetMPL` functions are not modelled. They are formatting through library calls; `GetMPL` returns the URL itself.
- The second status check of `getPlaylist` (twitchpl.go:213-216) cannot be reached after lines 204-211, and the model omits it. So does the error branch of `AsURL`, because `updateOutputter` always returns nil.
- The errors main.go discards from `url.Parse` and `http.NewRequest` are not modelled. A failed parse dereferences nil and is a precondition or a crash. `NewRequest` on a URL that parsed is taken to succeed.
- main.go's type assertion on the decoded playlist panics unless it is a master playlist. `Twpl.VariantStep` reports that as `VariantCrash`.
- struct.go is in package `twitchpl` and repeats the records of twitchpl.go:35-59 and gql.go:15-40; it is not part of this model. main.go, in package `twpl`, uses query and token records that no file here declares; the model gives it the same records, `Gql`, since main.go builds the same query literal.
- The command-line programs under cmd/ are not part of this model.
- `Twitchpl.PlaylistManager.UpdateOutputter`: requires a variant list the mode can read from, because the source panics on an out-of-range read.
- `Twitchpl.PlaylistManager.GetPlaylist`: requires a URL builder that returns (a token, or an endpoint that does not parse, since the token is read only after the parse) and a non-panicking outcome, because the source dereferences the token and asserts the playlist type. `Twitchpl.GetOutcome` and `Twitchpl.FetchPlaylist` report those panics.
- The `log.Printf` calls of both retry loops (twitchpl.go:278 and 305), of `AsJSON` (twitchpl.go:139) and the `log.Println` of `recoverFromPanic` (twitchpl.go:325) are not modelled: they only write to the process log and change no state the model observes.
