# Launcher workflow tools: the Twitch command, the result envelope and the request client

This project models three pieces of a small launcher-integration utility written in Go, and
proves properties of them in Dafny.

- **The Twitch command** (`TwitchMain`). `main` picks one of three queries from its flags: a
  game's streams, the followed live streams, or the follows. Each query runs a getter. The
  builders `getFollowItems`, `getFollowedStreamItems` and `getGameStreamItems` turn the getter's
  records into launcher items, one per record and in order, or pass its error through unchanged.
  `main` then sends either the error alone or the items together with a fallback item. Getters
  are parameters (arrow values). The builders fill an array in a loop, as the Go code fills a
  preallocated slice. They are proved equal to `MapOutcome`, a functional reference definition.
  Lemmas state what each item holds.
- **The result envelope** (`AlfredSend`). `SendResult` wraps items into a `Result` entry by entry.
  `SendError` builds the one-entry error result. The partner functions `PlainItems` and
  `ErrorMessage` read the two shapes back.
- **The request client** (`RequestClient`). A `Client` class holds a base URL, default headers and
  a transport, all replaceable. `Request`, `Get` and `Post` build an `HttpRequest`, hand it to
  the transport exactly once, and classify the outcome. A transport error becomes a failure
  carrying the same message. Any completed exchange, whatever its status, becomes a `Response`
  with that status and those bytes. The transport is the recording double the tests use: it
  remembers every request and answers with a programmed `Exchange`.
- **Encodings the client relies on.** `UrlQuery` models `url.Values.Encode` and `URL.Query()`.
  `JsonObject` models `json.Marshal` and `json.Unmarshal` of a `map[string]string`. Both are
  concrete, with proved round trips: decoding an encoded query gives back every key that has
  values, and decoding an encoded body gives back the map. Both hold for every key order.
  `KeyOrder.Enumerate` leaves the order arbitrary: it lists each key once, in whatever order its
  choices fall. Go's encoders write keys sorted, which is one of those orders, so the client's
  proofs cover it. `Decimal` renders integers as `%d` does and proves that they parse back. `Hex` does the same
  for fixed-width hexadecimal. `Strings.Cut` is `strings.Cut`.

The client's implementation file is not part of this model. The client's behaviour is taken from
what `pkg/request/client_test.go` asserts:

- The path is joined to the base URL.
- The method, query and headers are passed through.
- A body is sent as JSON with `Content-Type: application/json`.
- Errors are classified as described above.

The test cases drive the body through the internal `request` with method GET. So the model
attaches a body for any method, not only for POST. Line 41 of the test compares a value with
itself, so the query round trip rests on lines 156-160.

`alfred/send.go` is modelled as it is written: its `Item` has no argument, and `SendResult` takes
one parameter. `cmd/twitch/main.go` calls a different launcher package with a two-argument
`SendResult` and items that carry an argument. That package is not part of this model. The
Twitch command therefore has its own `Item` and `Emission`, and the two modules are not linked.

## Model

| member | source | states |
|---|---|---|
| `TwitchMain.SelectQuery` | cmd/twitch/main.go:20-26 | a non-empty game ID selects the game-stream query with that game and language, whatever the live flag; otherwise the live flag selects followed streams; otherwise follows |
| `TwitchMain.Emit` | cmd/twitch/main.go:28-37 | an error is sent alone with its message; otherwise exactly the items are sent, with the fallback item whose argument is the following directory |
| `TwitchMain.Run` | cmd/twitch/main.go:17-37 | the emission is the one the selected query's builder and the error-or-result rule give: game streams for a non-empty game ID, else followed streams when live, else follows |
| `TwitchMain.GetFollowItems` | cmd/twitch/main.go:40-62 | the array-filling loop returns exactly the reference mapping of the getter's outcome: the error unchanged, or one follow item per follow in order |
| `TwitchMain.GetFollowedStreamItems` | cmd/twitch/main.go:64-84 | the loop returns exactly the reference mapping of the getter's outcome into followed-stream items |
| `TwitchMain.GetGameStreamItems` | cmd/twitch/main.go:86-106 | the getter is called with exactly the given game and language, and the loop returns the reference mapping of its outcome into game-stream items |
| `TwitchMain.MapItemsSpec` | cmd/twitch/main.go:47-59 | the mapped items are one per record, same length, item i built from record i |
| `TwitchMain.FollowItemsSpec` | cmd/twitch/main.go:43-59 | error passes through unchanged; otherwise the length is kept, each title is the follow's name, and subtitle and argument both equal `https://www.twitch.tv/` plus its login, from which the login reads back |
| `TwitchMain.FollowedStreamItemsSpec` | cmd/twitch/main.go:67-81 | error passes through unchanged; otherwise the length is kept, each title is the user name, each subtitle is game name, " - ", the decimal viewer count, " viewers - ", the stream title, and the argument names the user's channel |
| `TwitchMain.GameStreamItemsSpec` | cmd/twitch/main.go:89-103 | error passes through unchanged; otherwise the length is kept, each subtitle is the decimal viewer count, " viewers - ", the title (no game name), the count reads back from it, and the argument names the user's channel |
| `TwitchMain.GameStreamSubtitle` | cmd/twitch/main.go:99 | a game-stream subtitle begins with the viewer count, and the text before its first space parses back to exactly that count |
| `TwitchMain.ChannelUrl` | cmd/twitch/main.go:50 | the channel URL gives back the login it was built from |
| `Decimal.FormatInt` | cmd/twitch/main.go:77 | `%d` rendering: non-empty, a leading minus exactly for negatives, digits otherwise, never a space; no leading zero, with "0" exactly for zero |
| `Decimal.ParseFormatInt` | cmd/twitch/main.go:99 | every integer parses back from its `%d` rendering |
| `AlfredSend.SendResult` | alfred/send.go:24-29 | the result has exactly one entry per item, entry i wraps item i, its plain items read back as the input, and it is not an error result |
| `AlfredSend.SendError` | alfred/send.go:34-43 | exactly one entry, an error item titled "Something went wrong!" with the message verbatim as subtitle and not valid; it reads back as that message and not as plain items |
| `RequestClient.Client.constructor` | pkg/request/client_test.go:26 | the client keeps the base URL verbatim, starts with no default headers, and uses the transport given |
| `RequestClient.Client.SetClient` | pkg/request/client_test.go:27-28 | the transport is replaced; base URL and headers are unchanged |
| `RequestClient.Client.SetHeaders` | pkg/request/client_test.go:140-142 | the default headers are replaced as a whole; base URL and transport are unchanged |
| `RequestClient.Transport.Do` | pkg/request/client_test.go:32-43 | the double records the request it is given and answers with its programmed outcome |
| `RequestClient.Client.Request` | pkg/request/client_test.go:134-193 | exactly one request reaches the transport; it carries the verb, the joined URL, a query that decodes to the given values, the default headers (plus `Content-Type: application/json` when there is a body), and a body that decodes as JSON to the given map; the reply is the classified outcome, so repeated calls give equal replies |
| `RequestClient.Client.Get` | pkg/request/client_test.go:48-50 | as `Request` with verb GET and no body |
| `RequestClient.Client.Post` | pkg/request/client_test.go:51-52 | as `Request` with verb POST and the given body |
| `RequestClient.Classify` | pkg/request/client_test.go:186-193 | a failure exactly when the transport failed, with its message verbatim; any completed exchange, 401 included, is a response with that status and exactly those bytes |
| `RequestClient.JoinPath` | pkg/request/client_test.go:153-154 | the URL is the base without one trailing slash, one `/`, and the path without one leading slash |
| `RequestClient.JoinPathParts` | pkg/request/client_test.go:153-154 | joining a path to `scheme://host/` keeps the host and makes the URL path `/` plus the path |
| `RequestClient.ExampleJoin` | pkg/request/client_test.go:136-154 | base `https://example.com/` and path `fake` give host `example.com` and path `/fake` |
| `RequestClient.ExampleGet` | pkg/request/client_test.go:24-57 | a GET for `fake` with one query value on a transport answering 200 sends one GET to the joined URL carrying that value and returns a response, not an error |
| `UrlQuery.DecodeEncode` | pkg/request/client_test.go:156-160 | an encoded query decodes to exactly the keys that have values, each with its values in order, for every key order |
| `UrlQuery.UnescapeEscape` | pkg/request/client_test.go:156-160 | unescaping an escaped string gives the string back |
| `JsonObject.DecodeEncode` | pkg/request/client_test.go:166-178 | a map of strings encoded as JSON decodes to the same map, for every key order |
| `JsonObject.ParseCharsEscape` | pkg/request/client_test.go:172-176 | an escaped string followed by a closing quote reads back as that string, with the rest untouched |

## Left out

- `send` in alfred/send.go: JSON serialisation and printing to standard output. The model returns the `Result` value that would be sent.
- Flag parsing in `main` and the actual emission through the launcher package. The model returns the choice as an `Emission`.
- The getters `GetFollows`, `GetFollowedStreams` and `GetGameStreams` are network calls and are not part of this model. Their outcomes are supplied as function parameters.
- The real `net/http` transport and the mocking library. The transport is the recording double `Transport`.
- `RequestClient.Client.constructor`: `NewClient` creates a network transport itself. The model takes the transport as a parameter.
- The client's implementation file is not part of this model. Two of its error paths are therefore not modelled: `http.NewRequest` rejecting a malformed URL, and a failure while reading the response body. A body-serialisation error cannot arise for a map of strings.
- `RequestClient.Classify`: any integer status is accepted. Nothing limits it to the standard HTTP range.
- Header names are not canonicalised: default headers are kept exactly as given. The content type is stored under `Content-Type`.
- `UrlQuery.EscapeChar`: non-ASCII characters are kept as they are. `url.QueryEscape` instead percent-encodes their UTF-8 bytes. The round trip holds either way.
- `UrlQuery.Encode`: keys are written in the order given. `url.Values.Encode` sorts them. The decoded values do not depend on the order.
- `UrlQuery.Decode`: `%XX` decodes to the character with that code, not to a UTF-8 byte.
- `JsonObject.Decode`: accepts only compact text, with no whitespace between tokens and no `null`. A `\u` escape naming a surrogate is rejected rather than combined or replaced.
- `JsonObject.Encode`: keys are written in the order given. `json.Marshal` sorts them. The decoded map does not depend on the order.
- `JsonObject.Encode`: the body is a sequence of characters, not UTF-8 bytes.
- `Decimal.FormatInt`: Go's `int` is 64 bits wide. Viewer counts come from decoded JSON, so the model uses unbounded integers and has no wrap-around.
- The `twitch` and `betaseries` entity files hold data-transfer structs. Only the fields the builders read are modelled, as `Follow` and `Stream`.
