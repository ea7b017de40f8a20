/** The LiveJournal client of src/LJPoster.php: how each public operation
    assembles its parameter map, how the challenge-response handshake fills
    in the authentication fields, and how a call ends in a result or an
    error. The XML-RPC library, the network, md5 and the clock are
    parameters. */
module LJPoster {

  import opened Wrappers
  import opened Php
  import opened Dates
  import opened Transport

  const HOST := "www.livejournal.com"
  const API_URL := "/interface/xmlrpc"
  const API_METHOD_NAME_PREFIX := "LJ.XMLRPC."

  const API_V0 := 0
  /** Makes the service expect UTF-8 text instead of ISO-8859-1. */
  const API_V1 := 1

  const API_METHOD_GET_CHALLENGE := "getchallenge"
  const API_METHOD_CREATE_POST := "postevent"
  const API_METHOD_EDIT_POST := "editevent"
  const API_METHOD_GET_POSTS := "getevents"

  const POST_ACCESS_PUBLIC := "public"
  const POST_ACCESS_PRIVATE := "private"
  const POST_ACCESS_USEMASK := "usemask"

  const SELECT_TYPE_ONE_POST := "one"
  const SELECT_TYPE_POST_FOR_A_DAY := "day"
  const SELECT_TYPE_LASTN_POSTS := "lastn"
  const SELECT_TYPE_SYNCITEMS_POSTS := "syncitems"

  const LINEENDINGS_UNIX := "unix"
  const LINEENDINGS_PC := "pc"
  const LINEENDINGS_MAC := "mac"

  const RETURN_LINEENDINGS_UNIX := LINEENDINGS_UNIX
  const RETURN_LINEENDINGS_PC := LINEENDINGS_PC
  const RETURN_LINEENDINGS_MAC := LINEENDINGS_MAC
  /** Lines end with spaces. */
  const RETURN_LINEENDINGS_SPACE := "space"
  /** Lines end with '...'. */
  const RETURN_LINEENDINGS_DOT := "dot"

  const MOST_RECENT_POST_ID := -1

  /** The keys doAPICall writes into every request. */
  const AUTH_KEYS := {Username, AuthMethod, AuthChallenge, AuthResponse, Ver}

  /** The date and time keys createPost and editPost emit. */
  const POST_DATE_KEYS := {Year, Day, Mon, Hour, Min}

  // ---------------------------------------------------------------------------
  // The wire method name and the fault check of doXMLRPCCall

  /** The wire name of an API method: the namespace prefix, then the method,
      which can be read back from the name. */
  function MethodName(apiMethod: string): (name: string)
    ensures |name| == |API_METHOD_NAME_PREFIX| + |apiMethod|
    ensures name[..|API_METHOD_NAME_PREFIX|] == API_METHOD_NAME_PREFIX
    ensures name[|API_METHOD_NAME_PREFIX|..] == apiMethod
  {
    API_METHOD_NAME_PREFIX + apiMethod
  }

  /** The request the handshake sends: the challenge method, no parameters. */
  const CHALLENGE_REQUEST := Request(MethodName(API_METHOD_GET_CHALLENGE), map[])

  /** How a response ends a call: a missing response or a non-zero fault code
      is an error carrying the code (printed so that it reads back) and the
      fault string, or '?' and '?' without a response; otherwise the decoded
      value is the result. */
  function Receive(response: Response): (r: Result<Value, CallError>)
    ensures r.Failure? <==> (response.NoResponse? || response.faultCode != 0)
    ensures response.NoResponse? ==> r == Failure(CallError("?", "?"))
    ensures response.Reply? && r.Failure? ==> r.error.code == IntToString(response.faultCode)
    ensures response.Reply? && r.Failure? ==>
      ParseInt(r.error.code) == Some(response.faultCode) && r.error.message == response.faultString
    ensures r.Success? ==> r.value == response.value
  {
    if response.NoResponse? then Failure(CallError("?", "?"))
    else if response.faultCode != 0 then
      IntToStringRoundTrip(response.faultCode);
      Failure(CallError(IntToString(response.faultCode), response.faultString))
    else Success(response.value)
  }

  // ---------------------------------------------------------------------------
  // The handshake and the authentication fields

  /** `$response['challenge']`: the reply's 'challenge' entry, or null when
      the reply has none. */
  function ChallengeOf(reply: Value): Value {
    if reply.Struct? && "challenge" in reply.fields then reply.fields["challenge"] else Nil
  }

  /** md5(challenge . md5(password)), the challenge converted to a string as
      PHP's `.` does. */
  function ChallengeResponse(md5: string -> string, challenge: Value, password: string): string {
    md5(ToPhpString(challenge) + md5(password))
  }

  /** The map doAPICall sends: the five authentication fields overwrite
      whatever the operation put under those keys, and every other key keeps
      its value. */
  function Authenticated(params: Fields, login: string, challenge: Value, authResponse: Value): (r: Fields)
    ensures r.Keys == params.Keys + AUTH_KEYS
    ensures r[Username] == Str(login)
    ensures r[AuthMethod] == Str("challenge")
    ensures r[AuthChallenge] == challenge
    ensures r[AuthResponse] == authResponse
    ensures r[Ver] == Int(API_V1)
    ensures forall k :: k in params && k !in AUTH_KEYS ==> r[k] == params[k]
  {
    params + map[
      Username := Str(login),
      AuthMethod := Str("challenge"),
      AuthChallenge := challenge,
      AuthResponse := authResponse,
      Ver := Int(API_V1)]
  }

  // ---------------------------------------------------------------------------
  // The parameter map of each operation, before authentication

  /** createPost: the date (month under 'mon'), the time, the content, the
      subject and the access level; never 'props', so tags and options are
      not sent, and never 'month'. */
  function CreatePostFields(subject: string, content: string, date: DateTime, time: DateTime,
                            accessLevel: string): (p: Fields)
    ensures p.Keys == POST_DATE_KEYS + {Event, Subject, Security}
    ensures Props !in p && Month !in p && ItemId !in p
  {
    map[
      Year := Str(date.year),
      Day := Str(date.day),
      Mon := Str(date.month),
      Hour := Str(time.hour),
      Min := Str(time.minute),
      Event := Str(content),
      Subject := Str(subject),
      Security := Str(accessLevel)]
  }

  /** editPost's 'props' entry: the tags joined with ',' under 'taglist' when
      there are tags, then the options merged in, an option overriding the
      tag list. */
  function PostProps(tags: seq<string>, addOptions: Params): (r: Params)
    ensures r.Keys == addOptions.Keys + (if tags == [] then {} else {"taglist"})
    ensures forall k :: k in addOptions ==> r[k] == addOptions[k]
    ensures "taglist" in r <==> tags != [] || "taglist" in addOptions
    ensures tags != [] && "taglist" !in addOptions ==> r["taglist"] == Str(Implode(",", tags))
  {
    var tagged: Params := if tags == [] then map[] else map["taglist" := Str(Implode(",", tags))];
    if addOptions == map[] then tagged else tagged + addOptions
  }

  /** editPost: the date (month under 'mon'), the time, the content, the
      subject, the access level, the item id and 'props'. */
  function EditPostFields(itemId: int, subject: string, content: string, date: DateTime, time: DateTime,
                          tags: seq<string>, addOptions: Params, accessLevel: string): (p: Fields)
    ensures p.Keys == CreatePostFields(subject, content, date, time, accessLevel).Keys + {ItemId, Props}
    ensures p[ItemId] == Int(itemId)
    ensures p[Props] == Struct(PostProps(tags, addOptions))
    ensures Month !in p
  {
    map[
      ItemId := Int(itemId),
      Year := Str(date.year),
      Day := Str(date.day),
      Mon := Str(date.month),
      Hour := Str(time.hour),
      Min := Str(time.minute),
      Event := Str(content),
      Subject := Str(subject),
      Security := Str(accessLevel),
      Props := Struct(PostProps(tags, addOptions))]
  }

  /** editPost sends everything createPost sends, with the same values,
      and adds the item id and 'props'. */
  lemma EditPostExtendsCreatePost(itemId: int, subject: string, content: string, date: DateTime, time: DateTime,
                                  tags: seq<string>, addOptions: Params, accessLevel: string)
    ensures EditPostFields(itemId, subject, content, date, time, tags, addOptions, accessLevel)
         == CreatePostFields(subject, content, date, time, accessLevel)[ItemId := Int(itemId)][Props := Struct(PostProps(tags, addOptions))]
  {
  }

  /** deletePost: the item id and nothing else. */
  function DeletePostFields(itemId: int): (p: Fields)
    ensures p.Keys == {ItemId} && p[ItemId] == Int(itemId)
  {
    map[ItemId := Int(itemId)]
  }

  /** getPostById: select one post, by id. */
  function PostByIdFields(itemId: int): (p: Fields)
    ensures p.Keys == {SelectType, ItemId}
    ensures p[SelectType] == Str(SELECT_TYPE_ONE_POST) && p[ItemId] == Int(itemId)
  {
    map[SelectType := Str(SELECT_TYPE_ONE_POST), ItemId := Int(itemId)]
  }

  /** getPostsForDate: select a day, the month under 'month', never 'mon'. */
  function PostsForDateFields(date: DateTime): (p: Fields)
    ensures p.Keys == {Year, Day, Month, SelectType}
    ensures Mon !in p
    ensures p[Month] == Str(date.month) && p[SelectType] == Str(SELECT_TYPE_POST_FOR_A_DAY)
  {
    map[
      Year := Str(date.year),
      Day := Str(date.day),
      Month := Str(date.month),
      SelectType := Str(SELECT_TYPE_POST_FOR_A_DAY)]
  }

  /** getLastNPosts: select the last `postsNum` posts; 'beforedate' exactly
      when an upper bound is given, printed as 'Y-m-d H:i:s'. */
  function LastNPostsFields(postsNum: int, dateTo: Option<DateTime>): (p: Fields)
    ensures p.Keys == {SelectType, HowMany} + (if dateTo.Some? then {BeforeDate} else {})
    ensures BeforeDate in p <==> dateTo.Some?
    ensures dateTo.Some? ==> p[BeforeDate] == Str(Stamp(dateTo.value))
    ensures p[SelectType] == Str(SELECT_TYPE_LASTN_POSTS) && p[HowMany] == Int(postsNum)
  {
    var bound: Fields := if dateTo.Some? then map[BeforeDate := Str(Stamp(dateTo.value))] else map[];
    bound + map[SelectType := Str(SELECT_TYPE_LASTN_POSTS), HowMany := Int(postsNum)]
  }

  // ---------------------------------------------------------------------------
  // Properties of the requests as sent

  /** The service splits 'taglist' at commas; when no tag holds a comma and
      no option replaces the list, that gives back exactly the tags. */
  lemma TagListReadsBack(tags: seq<string>, addOptions: Params)
    requires tags != [] && "taglist" !in addOptions
    requires forall k :: 0 <= k < |tags| ==> ',' !in tags[k]
    ensures PostProps(tags, addOptions)["taglist"].Str?
    ensures Explode(',', PostProps(tags, addOptions)["taglist"].s) == tags
  {
    ExplodeImplode(',', tags);
  }

  /** What reaches the wire for createPost: exactly the thirteen keys of the
      post and of authentication; never 'props' nor 'month'. */
  lemma CreatePostRequestKeys(subject: string, content: string, date: DateTime, time: DateTime,
                              accessLevel: string, login: string, challenge: Value, authResponse: Value)
    ensures var p := Authenticated(CreatePostFields(subject, content, date, time, accessLevel),
                                   login, challenge, authResponse);
      && p.Keys == POST_DATE_KEYS + {Event, Subject, Security} + AUTH_KEYS
      && Props !in p && Month !in p
  {
    var fields := CreatePostFields(subject, content, date, time, accessLevel);
    assert Props !in fields && Month !in fields;
    assert Props !in AUTH_KEYS && Month !in AUTH_KEYS;
  }

  /** What reaches the wire for deletePost: the item id and the
      authentication fields, nothing else. */
  lemma DeletePostRequestKeys(itemId: int, login: string, challenge: Value, authResponse: Value)
    ensures var p := Authenticated(DeletePostFields(itemId), login, challenge, authResponse);
      p.Keys - AUTH_KEYS == {ItemId} && p[ItemId] == Int(itemId)
  {
    assert DeletePostFields(itemId).Keys == {ItemId};
    assert ItemId !in AUTH_KEYS;
  }

  /** The line-ending preferences the client stores are never put on the
      wire: no field of a request goes by the protocol's 'lineendings'
      name. That no preference reaches a request rests on `Dispatched`,
      which does not read `lineEndingsType` or `returnLineEndingsType`;
      `SameCallsWhateverLineEndings` states it. */
  lemma LineEndingsNeverSent(f: Field)
    ensures Name(f) != "lineendings"
  {
    NameRoundTrip(f);
    assert FieldNamed("lineendings") == None;
  }

  // ---------------------------------------------------------------------------
  // The client object

  class LJPoster {
    const login: string
    const password: string
    /** PHP's md5, deliberately left uninterpreted. */
    const md5: string -> string

    var challenge: Value
    var authResponse: Value

    var lineEndingsType: string
    var returnLineEndingsType: string

    constructor (login: string, password: string, md5: string -> string)
      ensures this.login == login && this.password == password && this.md5 == md5
      ensures challenge == Nil && authResponse == Nil
      ensures lineEndingsType == LINEENDINGS_UNIX
      ensures returnLineEndingsType == RETURN_LINEENDINGS_UNIX
    {
      this.login := login;
      this.password := password;
      this.md5 := md5;
      challenge := Nil;
      authResponse := Nil;
      lineEndingsType := LINEENDINGS_UNIX;
      returnLineEndingsType := RETURN_LINEENDINGS_UNIX;
    }

    /** One API call as doAPICall makes it: the handshake request first; if
        its reply is a fault, nothing else is sent and the handshake state is
        untouched; otherwise the challenge and the response derived from it
        are stored, and the operation's map with the authentication fields
        is sent to the method's wire name, whose reply ends the call. */
    twostate predicate Dispatched(apiMethod: string, params: Fields, send: Request -> Response,
                                  new calls: seq<Request>, new result: Result<Value, CallError>)
      reads this
    {
      var reply := Receive(send(CHALLENGE_REQUEST));
      if reply.Failure? then
        && calls == [CHALLENGE_REQUEST]
        && result == Failure(reply.error)
        && challenge == old(challenge) && authResponse == old(authResponse)
      else
        && challenge == ChallengeOf(reply.value)
        && authResponse == Str(ChallengeResponse(md5, challenge, password))
        && calls == [CHALLENGE_REQUEST,
                     Request(MethodName(apiMethod), Authenticated(params, login, challenge, authResponse))]
        && result == Receive(send(calls[1]))
    }

    /** Creates a new post. `dateNow` and `timeNow` are what the clock reads
        in setDateParams and in setTimeParams when no date is given. Tags and
        options are accepted and not sent. */
    method CreatePost(send: Request -> Response, dateNow: DateTime, timeNow: DateTime,
                      subject: string, content: string, datetime: Option<DateTime> := None,
                      tags: seq<string> := [], addOptions: Params := map[],
                      accessLevel: string := POST_ACCESS_PUBLIC)
      returns (calls: seq<Request>, result: Result<Value, CallError>)
      modifies this`challenge, this`authResponse
      ensures Dispatched(API_METHOD_CREATE_POST,
                         CreatePostFields(subject, content, datetime.GetOr(dateNow), datetime.GetOr(timeNow), accessLevel),
                         send, calls, result)
    {
      var params: Fields := map[];
      params := SetDateParams(params, datetime, dateNow, true);
      params := SetTimeParams(params, datetime, timeNow);

      params := params[Event := Str(content)];
      params := params[Subject := Str(subject)];

      params := params[Security := Str(accessLevel)];

      assert params == CreatePostFields(subject, content, datetime.GetOr(dateNow), datetime.GetOr(timeNow), accessLevel);
      calls, result := DoApiCall(API_METHOD_CREATE_POST, params, send);
    }

    /** Edits an existing post; the clock readings are as for CreatePost. */
    method EditPost(send: Request -> Response, dateNow: DateTime, timeNow: DateTime,
                    itemId: int, subject: string, content: string, datetime: Option<DateTime> := None,
                    tags: seq<string> := [], addOptions: Params := map[],
                    accessLevel: string := POST_ACCESS_PUBLIC)
      returns (calls: seq<Request>, result: Result<Value, CallError>)
      modifies this`challenge, this`authResponse
      ensures Dispatched(API_METHOD_EDIT_POST,
                         EditPostFields(itemId, subject, content, datetime.GetOr(dateNow), datetime.GetOr(timeNow),
                                        tags, addOptions, accessLevel),
                         send, calls, result)
    {
      var params: Fields := map[];
      params := params[ItemId := Int(itemId)];
      params := SetDateParams(params, datetime, dateNow, true);
      params := SetTimeParams(params, datetime, timeNow);

      params := params[Event := Str(content)];
      params := params[Subject := Str(subject)];

      params := params[Security := Str(accessLevel)];

      var props: Params := map[];
      if tags != [] {
        props := props["taglist" := Str(Implode(",", tags))];
      }
      if addOptions != map[] {
        props := props + addOptions;
      }
      assert props == PostProps(tags, addOptions);
      params := params[Props := Struct(props)];

      assert params == EditPostFields(itemId, subject, content, datetime.GetOr(dateNow), datetime.GetOr(timeNow),
                                      tags, addOptions, accessLevel);
      calls, result := DoApiCall(API_METHOD_EDIT_POST, params, send);
    }

    /** Deletes a post: an edit call that carries only the item id. */
    method DeletePost(send: Request -> Response, itemId: int)
      returns (calls: seq<Request>, result: Result<Value, CallError>)
      modifies this`challenge, this`authResponse
      ensures Dispatched(API_METHOD_EDIT_POST, DeletePostFields(itemId), send, calls, result)
    {
      var params: Fields := map[];
      params := params[ItemId := Int(itemId)];
      calls, result := DoApiCall(API_METHOD_EDIT_POST, params, send);
    }

    /** Gets one post by id; without an id, the most recent one. */
    method GetPostById(send: Request -> Response, itemId: int := MOST_RECENT_POST_ID)
      returns (calls: seq<Request>, result: Result<Value, CallError>)
      modifies this`challenge, this`authResponse
      ensures Dispatched(API_METHOD_GET_POSTS, PostByIdFields(itemId), send, calls, result)
    {
      var params: Fields := map[];
      params := params[SelectType := Str(SELECT_TYPE_ONE_POST)];
      params := params[ItemId := Int(itemId)];
      calls, result := DoApiCall(API_METHOD_GET_POSTS, params, send);
    }

    /** Gets all posts of a day; without a date, of the day `now` falls on. */
    method GetPostsForDate(send: Request -> Response, now: DateTime, date: Option<DateTime> := None)
      returns (calls: seq<Request>, result: Result<Value, CallError>)
      modifies this`challenge, this`authResponse
      ensures Dispatched(API_METHOD_GET_POSTS, PostsForDateFields(date.GetOr(now)), send, calls, result)
    {
      var params: Fields := map[];
      params := SetDateParams(params, date, now);
      params := params[SelectType := Str(SELECT_TYPE_POST_FOR_A_DAY)];
      assert params == PostsForDateFields(date.GetOr(now));
      calls, result := DoApiCall(API_METHOD_GET_POSTS, params, send);
    }

    /** Gets the last `postsNum` posts, before `dateTo` when it is given. */
    method GetLastNPosts(send: Request -> Response, postsNum: int := 1, dateTo: Option<DateTime> := None)
      returns (calls: seq<Request>, result: Result<Value, CallError>)
      modifies this`challenge, this`authResponse
      ensures Dispatched(API_METHOD_GET_POSTS, LastNPostsFields(postsNum, dateTo), send, calls, result)
    {
      var params: Fields := map[];

      if dateTo.Some? {
        params := params[BeforeDate := Str(Stamp(dateTo.value))];
      }

      params := params[SelectType := Str(SELECT_TYPE_LASTN_POSTS)];
      params := params[HowMany := Int(postsNum)];
      assert params == LastNPostsFields(postsNum, dateTo);
      calls, result := DoApiCall(API_METHOD_GET_POSTS, params, send);
    }

    /** Fetches a challenge and stores it with the response derived from it
        and `password`; a failed fetch stores nothing. */
    method GetChallenge(password: string, send: Request -> Response)
      returns (request: Request, failure: Option<CallError>)
      modifies this`challenge, this`authResponse
      ensures request == CHALLENGE_REQUEST
      ensures var reply := Receive(send(CHALLENGE_REQUEST));
        if reply.Failure? then
          failure == Some(reply.error) && challenge == old(challenge) && authResponse == old(authResponse)
        else
          && failure == None
          && challenge == ChallengeOf(reply.value)
          && authResponse == Str(ChallengeResponse(md5, challenge, password))
    {
      var response;
      request, response := DoXmlRpcCall(API_METHOD_GET_CHALLENGE, map[], send);
      if response.Failure? {
        return request, Some(response.error);
      }
      challenge := ChallengeOf(response.value);
      authResponse := Str(md5(ToPhpString(challenge) + md5(password)));
      failure := None;
    }

    /** Adds the date fields to `params`: 'year' and 'day' always, the month
        under exactly one of 'mon' (flag set) and 'month' (flag clear); the
        date is `now` when none is given. Every other key is left alone. */
    method SetDateParams(params: Fields, datetime: Option<DateTime>, now: DateTime,
                         setMonthParamAsMon: bool := false)
      returns (out: Fields)
      ensures var dt := datetime.GetOr(now);
        var monthKey := if setMonthParamAsMon then Mon else Month;
        && out.Keys == params.Keys + {Year, Day, monthKey}
        && out[Year] == Str(dt.year) && out[Day] == Str(dt.day) && out[monthKey] == Str(dt.month)
        && (forall k :: k in params && k !in {Year, Day, monthKey} ==> out[k] == params[k])
        // the same map written as updates; the callers' proofs need this form
        && out == params[Year := Str(dt.year)][Day := Str(dt.day)][monthKey := Str(dt.month)]
    {
      var dt := if datetime.None? then now else datetime.value;
      out := params[Year := Str(dt.year)];
      out := out[Day := Str(dt.day)];

      if setMonthParamAsMon {
        out := out[Mon := Str(dt.month)];
      } else {
        out := out[Month := Str(dt.month)];
      }
    }

    /** Adds the time fields to `params`: 'hour' (no leading zero) and 'min';
        the time is `now` when none is given. Every other key is left alone. */
    method SetTimeParams(params: Fields, datetime: Option<DateTime>, now: DateTime)
      returns (out: Fields)
      ensures var dt := datetime.GetOr(now);
        && out.Keys == params.Keys + {Hour, Min}
        && out[Hour] == Str(dt.hour) && out[Min] == Str(dt.minute)
        && (forall k :: k in params && k !in {Hour, Min} ==> out[k] == params[k])
        // the same map written as updates; the callers' proofs need this form
        && out == params[Hour := Str(dt.hour)][Min := Str(dt.minute)]
    {
      var dt := if datetime.None? then now else datetime.value;
      out := params[Hour := Str(dt.hour)];
      out := out[Min := Str(dt.minute)];
    }

    /** Sets the line endings of texts sent; nothing else changes. */
    method SetLineEndingsType(lineEndingsType: string := LINEENDINGS_UNIX)
      modifies this`lineEndingsType
      ensures this.lineEndingsType == lineEndingsType
    {
      this.lineEndingsType := lineEndingsType;
    }

    /** Sets the line endings of texts received; nothing else changes. */
    method SetReturnLineEndings(lineEndingsType: string := RETURN_LINEENDINGS_UNIX)
      modifies this`returnLineEndingsType
      ensures returnLineEndingsType == lineEndingsType
    {
      returnLineEndingsType := lineEndingsType;
    }

    /** doAPICall: the handshake, then the authentication fields, then the
        call itself. */
    method DoApiCall(apiMethod: string, params: Fields, send: Request -> Response)
      returns (calls: seq<Request>, result: Result<Value, CallError>)
      modifies this`challenge, this`authResponse
      ensures Dispatched(apiMethod, params, send, calls, result)
    {
      var handshake, failure := GetChallenge(password, send);
      calls := [handshake];
      if failure.Some? {
        return calls, Failure(failure.value);
      }
      var sent := params;
      sent := sent[Username := Str(login)];
      sent := sent[AuthMethod := Str("challenge")];
      sent := sent[AuthChallenge := challenge];
      sent := sent[AuthResponse := authResponse];

      sent := sent[Ver := Int(API_V1)];
      assert sent == Authenticated(params, login, challenge, authResponse);

      var request;
      request, result := DoXmlRpcCall(apiMethod, sent, send);
      calls := calls + [request];
    }

    /** doXMLRPCCall: one request to the method's wire name, ended by the
        fault check. */
    method DoXmlRpcCall(apiMethod: string, params: Fields, send: Request -> Response)
      returns (request: Request, result: Result<Value, CallError>)
      ensures request == Request(MethodName(apiMethod), params)
      ensures result == Receive(send(request))
    {
      request := Request(API_METHOD_NAME_PREFIX + apiMethod, params);
      var response := send(request);

      if response.NoResponse? || response.faultCode != 0 {
        var errorCode := if response.Reply? then IntToString(response.faultCode) else "?";
        var errorMsg := if response.Reply? then response.faultString else "?";
        return request, Failure(CallError(errorCode, errorMsg));
      }

      result := Success(response.value);
    }
  }

  /** Two clients that agree on everything but their line-ending
      preferences make the same calls with the same results: the preferences
      have no influence on any request. */
  twostate lemma SameCallsWhateverLineEndings(a: LJPoster, b: LJPoster, apiMethod: string, params: Fields,
                                              send: Request -> Response,
                                              new calls: seq<Request>, new result: Result<Value, CallError>)
    requires a.login == b.login && a.password == b.password && a.md5 == b.md5
    requires old(a.challenge) == old(b.challenge) && old(a.authResponse) == old(b.authResponse)
    requires a.challenge == b.challenge && a.authResponse == b.authResponse
    ensures a.Dispatched(apiMethod, params, send, calls, result) <==> b.Dispatched(apiMethod, params, send, calls, result)
  {
  }

  /** The demo's first post (demo/demo.php:13): subject and content
      'test1', 17 February 2022, the default access level; the tags it
      passes are not sent, and authentication adds no 'props'. */
  lemma DemoCreatePostFields(feb17: DateTime, time: DateTime, login: string, challenge: Value, authResponse: Value)
    requires feb17.year == "2022" && feb17.month == "02" && feb17.day == "17"
    ensures var f := CreatePostFields("test1", "test1", feb17, time, POST_ACCESS_PUBLIC);
      && f[Subject] == Str("test1") && f[Event] == Str("test1")
      && f[Year] == Str("2022") && f[Mon] == Str("02") && f[Day] == Str("17")
      && f[Security] == Str("public")
      && Props !in Authenticated(f, login, challenge, authResponse)
  {
    CreatePostRequestKeys("test1", "test1", feb17, time, POST_ACCESS_PUBLIC, login, challenge, authResponse);
  }
}
