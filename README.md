# LJPoster request model

A Dafny model of the `LJPoster` client class (src/LJPoster.php), a small PHP
library that creates, edits, deletes and fetches LiveJournal posts over the
LiveJournal XML-RPC API. The model covers the request-building layer:

- the parameter map each public operation (`createPost`, `editPost`,
  `deletePost`, `getPostById`, `getPostsForDate`, `getLastNPosts`) assembles,
  key by key, with the helpers `setDateParams` and `setTimeParams`;
- the challenge-response handshake of `getChallenge`, which stores the
  challenge and `md5(challenge . md5(password))` in the object;
- `doAPICall`, which overwrites the five authentication keys and sends the
  map to the wire method `LJ.XMLRPC.<method>`;
- the fault check of `doXMLRPCCall`: no response, or a non-zero fault code,
  ends the call with an error instead of a result;
- the two line-ending preferences and their setters.

Layout:

- `wrappers.dfy` (`Wrappers`): `Option` and `Result`.
- `php.dfy` (`Php`): the PHP values that go into a request (`Value`,
  `Params`), PHP's string conversion, `implode` and `explode`, and the
  round-trip lemmas about them.
- `dates.dfy` (`Dates`): a `DateTime` as the strings its `format` calls
  yield, and the `Y-m-d H:i:s` stamp.
- `transport.dfy` (`Transport`): the top-level request fields (`Field`) and
  their wire names, the request handed to the XML-RPC library, the response
  it returns and the error the client throws.
- `lj_poster.dfy` (`LJPoster`): the class's constants; for each operation, a
  declarative map of the fields it sends (`CreatePostFields`, …); and the
  class `LJPoster`. Its methods build the map imperatively, as the PHP code
  does, and are proved to send exactly the declarative map with the
  authentication fields added. `Dispatched` states what one API call does.

Abstractions:

- The transport is a parameter `send: Request -> Response` of every
  operation. An operation returns the log `calls` of the requests it sent
  (the handshake first, then the API call unless the handshake failed) and
  a `Result` in place of the PHP return value or exception.
- `md5` is a constructor parameter `md5: string -> string` and is left
  uninterpreted.
- The clock is a parameter. `setDateParams` and `setTimeParams` each call
  `new \DateTime()`, so `CreatePost` and `EditPost` take two readings,
  `dateNow` and `timeNow`.
- PHP's optional arguments are Dafny default arguments (`itemId :=
  MOST_RECENT_POST_ID`, `postsNum := 1`, `accessLevel :=
  POST_ACCESS_PUBLIC`); a nullable `DateTime` is an `Option<DateTime>`.

Behaviour worth noting:

- The line-ending preferences are stored but never sent (`LineEndingsNeverSent`,
  `SameCallsWhateverLineEndings`).
- No argument is validated: a missing item id is not checked before sending.
- `getPostsForDate`, `createPost` and `editPost` read the clock when no date
  is given. `createPost` and `editPost` read it twice: once for the date
  fields and once for the time fields.

## Model

| member | source | states |
|---|---|---|
| `LJPoster.MethodName` | src/LJPoster.php:315 | the wire name is the prefix `LJ.XMLRPC.` followed by the API method, which can be read back from it |
| `LJPoster.Receive` | src/LJPoster.php:318-324 | a call fails exactly when there is no response or the fault code is not 0; without a response the error is `?`/`?`; otherwise the error carries the fault code printed in decimal (a numeral that reads back to it) and the fault string; a successful call returns the decoded value |
| `LJPoster.Authenticated` | src/LJPoster.php:286-291 | the outgoing map has the operation's keys plus `username`, `auth_method`, `auth_challenge`, `auth_response` and `ver`; these five are login, `'challenge'`, the stored challenge, the stored response and 1, overwriting earlier values; every other key keeps its value |
| `LJPoster.CreatePostFields` | src/LJPoster.php:84-104 | createPost's map has exactly the keys `year`, `day`, `mon`, `hour`, `min`, `event`, `subject`, `security`; never `props`, `month` or `itemid`, whatever tags and options are passed |
| `LJPoster.PostProps` | src/LJPoster.php:132-139 | `props` holds every option with its value; `taglist` is present iff there are tags or a `taglist` option; it is the tags joined by `,` unless an option overrides it |
| `LJPoster.EditPostFields` | src/LJPoster.php:120-142 | editPost's map has createPost's keys plus `itemid` and `props`; `itemid` is the given id and `props` is `PostProps` of the tags and options; never `month` |
| `LJPoster.EditPostExtendsCreatePost` | src/LJPoster.php:122-139 | editPost's map equals createPost's map with `itemid` and `props` added |
| `LJPoster.DeletePostFields` | src/LJPoster.php:150-155 | deletePost's map has the single key `itemid` |
| `LJPoster.PostByIdFields` | src/LJPoster.php:164-169 | getPostById's map has exactly `selecttype = 'one'` and `itemid` |
| `LJPoster.PostsForDateFields` | src/LJPoster.php:177-183 | getPostsForDate's map has exactly `year`, `day`, `month` and `selecttype = 'day'`; never `mon` |
| `LJPoster.LastNPostsFields` | src/LJPoster.php:193-204 | getLastNPosts sends `selecttype = 'lastn'` and `howmany`; `beforedate` is present iff an upper bound is given, and is then the bound's `Y-m-d H:i:s` stamp |
| `LJPoster.TagListReadsBack` | src/LJPoster.php:133-135 | when there are tags, none holds a comma and no option replaces the list, splitting `taglist` at commas gives back exactly the tags |
| `LJPoster.CreatePostRequestKeys` | src/LJPoster.php:84-104 | after authentication createPost's request has exactly its eight post keys and the five authentication keys; no `props`, no `month` |
| `LJPoster.DeletePostRequestKeys` | src/LJPoster.php:150-155 | after authentication deletePost's only non-authentication key is `itemid` |
| `LJPoster.SameCallsWhateverLineEndings` | src/LJPoster.php:283-294 | two clients that differ only in their line-ending preferences send the same requests and get the same results |
| `LJPoster.LineEndingsNeverSent` | src/LJPoster.php:283-294 | no request field, of any operation or of authentication, goes by the protocol's `lineendings` name, so the stored preferences never reach the wire |
| `LJPoster.DemoCreatePostFields` | demo/demo.php:13 | the demo's first post (subject and content `test1`, 17 Feb 2022, default access level, tags passed but ignored) sends `subject=test1`, `event=test1`, `year=2022`, `mon=02`, `day=17`, `security=public`, and no `props` after authentication, whatever the login |
| `LJPoster.LJPoster.constructor` | src/LJPoster.php:67-71 | a new client holds the login and password, no challenge or response yet, and `unix` for both line-ending preferences |
| `LJPoster.LJPoster.CreatePost` | src/LJPoster.php:84-106 | after the handshake, sends `CreatePostFields` of the given date (or the clock readings) to `postevent`, whatever tags and options are passed |
| `LJPoster.LJPoster.EditPost` | src/LJPoster.php:120-143 | after the handshake, sends `EditPostFields` to `editevent` |
| `LJPoster.LJPoster.DeletePost` | src/LJPoster.php:150-155 | after the handshake, sends `DeletePostFields` through the `editevent` method; there is no delete method |
| `LJPoster.LJPoster.GetPostById` | src/LJPoster.php:164-169 | after the handshake, sends `PostByIdFields` to `getevents`; the default id is -1, the most recent post |
| `LJPoster.LJPoster.GetPostsForDate` | src/LJPoster.php:177-183 | after the handshake, sends `PostsForDateFields` of the given date, or of the clock reading, to `getevents` |
| `LJPoster.LJPoster.GetLastNPosts` | src/LJPoster.php:193-204 | after the handshake, sends `LastNPostsFields` to `getevents`; `postsNum` defaults to 1 |
| `LJPoster.LJPoster.GetChallenge` | src/LJPoster.php:210-215 | sends the `getchallenge` request with no parameters; on success stores the reply's `challenge` and `md5(challenge . md5(password))`; on a fault stores nothing and reports the error |
| `LJPoster.LJPoster.SetDateParams` | src/LJPoster.php:225-238 | adds `year` and `day`, and the month under exactly one of `mon` (flag set) and `month` (flag clear, the default); uses the clock reading when no date is given; every other key is unchanged |
| `LJPoster.LJPoster.SetTimeParams` | src/LJPoster.php:246-253 | adds `hour` (format `G`) and `min`; uses the clock reading when no date is given; every other key is unchanged |
| `LJPoster.LJPoster.SetLineEndingsType` | src/LJPoster.php:260-263 | sets the outgoing line-ending preference and changes no other field |
| `LJPoster.LJPoster.SetReturnLineEndings` | src/LJPoster.php:270-273 | sets the incoming line-ending preference and changes no other field |
| `LJPoster.LJPoster.DoApiCall` | src/LJPoster.php:283-294 | handshake first; if it fails, nothing else is sent and the state is unchanged; otherwise the stored challenge and response go into `Authenticated(params, …)`, which is sent to the method's wire name, and the reply decides the result |
| `LJPoster.LJPoster.DoXmlRpcCall` | src/LJPoster.php:304-325 | sends the map unchanged to `LJ.XMLRPC.<method>` and returns what `Receive` makes of the response |
| `Transport.Description` | src/LJPoster.php:321 | the exception text is `Error `, then the code, then ` : `, then the message, each in its place |
| `Transport.NameRoundTrip` | src/LJPoster.php:84-291 | every field's wire name denotes that field again, so two fields never share a struct member |
| `Php.NatToString` | src/LJPoster.php:319 | the decimal form of a number is non-empty, all digits, with a leading zero only for 0 |
| `Php.IntToStringRoundTrip` | src/LJPoster.php:319 | the fault code printed into an error message reads back to the same integer |
| `Php.ExplodeImplode` | src/LJPoster.php:134 | splitting a non-empty list joined by a character, none of whose pieces holds it, gives back the list |
| `Dates.StampLayout` | src/LJPoster.php:198 | a date of four-digit year prints as `YYYY-MM-DD HH:MM:SS`: nineteen characters, separators at fixed places, each component in its slot |

## Left out

- The XML-RPC library (`Client`, `Request`, `Value`, `Encoder`): encoding the map, decoding the reply and sending it are one abstract `send`; the reply is taken as already decoded.
- The network round-trip, the lazy construction of the client, `HOST`, `API_URL` and the `identity` compression setting: connection configuration only.
- `md5`: left uninterpreted; only the composition `md5(challenge . md5(password))` is modelled.
- `DateTime` formatting and `new \DateTime()`: a date is the strings its `format` calls yield, and each clock reading is a parameter.
- The order of keys in a PHP array: maps are unordered here, and XML-RPC structs do not depend on order.
- `array_merge` renumbering integer-like keys: option keys are modelled as plain strings and a later key overrides an earlier one.
- The PHP types of arguments: item ids and `postsNum` are integers, tags are strings, option values are `Value`s; floats are not part of `Value`.
- Reading `challenge` from a reply that is not a struct holding `challenge`: the model gives `null` for every such reply. PHP does not always give `null` here. For a string reply, `$response['challenge']` warns and reads the first character in PHP 7, and throws in PHP 8; the model does neither.
- The exception: a `Result` failure carrying the code and message; `Transport.Description` gives its text, and nothing throws.
- demo/demo.php: its network calls are not modelled; `DemoCreatePostFields` shows the fields of its first post.
