/** The boundary to the XML-RPC library: the request handed to it, and the
    response object it gives back. The library's encoding of values and the
    HTTP round-trip are outside the model. */
module Transport {

  import opened Wrappers
  import opened Php

  /** The top-level struct members the client puts into a request. */
  datatype Field =
    | ItemId | Year | Day | Mon | Month | Hour | Min
    | Event | Subject | Security | Props
    | SelectType | HowMany | BeforeDate
    | Username | AuthMethod | AuthChallenge | AuthResponse | Ver

  /** The member name a field goes by on the wire. */
  function Name(f: Field): string {
    match f
    case ItemId => "itemid"
    case Year => "year"
    case Day => "day"
    case Mon => "mon"
    case Month => "month"
    case Hour => "hour"
    case Min => "min"
    case Event => "event"
    case Subject => "subject"
    case Security => "security"
    case Props => "props"
    case SelectType => "selecttype"
    case HowMany => "howmany"
    case BeforeDate => "beforedate"
    case Username => "username"
    case AuthMethod => "auth_method"
    case AuthChallenge => "auth_challenge"
    case AuthResponse => "auth_response"
    case Ver => "ver"
  }

  /** The field a wire member name denotes, if any. */
  function FieldNamed(name: string): Option<Field> {
    if name == "itemid" then Some(ItemId)
    else if name == "year" then Some(Year)
    else if name == "day" then Some(Day)
    else if name == "mon" then Some(Mon)
    else if name == "month" then Some(Month)
    else if name == "hour" then Some(Hour)
    else if name == "min" then Some(Min)
    else if name == "event" then Some(Event)
    else if name == "subject" then Some(Subject)
    else if name == "security" then Some(Security)
    else if name == "props" then Some(Props)
    else if name == "selecttype" then Some(SelectType)
    else if name == "howmany" then Some(HowMany)
    else if name == "beforedate" then Some(BeforeDate)
    else if name == "username" then Some(Username)
    else if name == "auth_method" then Some(AuthMethod)
    else if name == "auth_challenge" then Some(AuthChallenge)
    else if name == "auth_response" then Some(AuthResponse)
    else if name == "ver" then Some(Ver)
    else None
  }

  /** Every field's wire name denotes that field, so distinct fields never
      share a member of the struct. */
  lemma NameRoundTrip(f: Field)
    ensures FieldNamed(Name(f)) == Some(f)
  {
  }

  /** A request's struct argument: a value per field. */
  type Fields = map<Field, Value>

  /** One XML-RPC request: the wire method name and the single struct
      argument. */
  datatype Request = Request(methodName: string, params: Fields)

  /** What `send` returns: nothing (a falsy response), or a response with a
      fault code (0 when there is no fault), a fault string and the decoded
      value. */
  datatype Response =
    | NoResponse
    | Reply(faultCode: int, faultString: string, value: Value)

  /** The exception the client throws on a failed call; `code` and `message`
      are '?' when there was no response at all. */
  datatype CallError = CallError(code: string, message: string)

  /** The text of the exception: 'Error ', the code, ' : ', the message. */
  function Description(e: CallError): (text: string)
    ensures |text| == 9 + |e.code| + |e.message|
    ensures text[..6] == "Error "
    ensures text[6..6 + |e.code|] == e.code
    ensures text[6 + |e.code|..9 + |e.code|] == " : "
    ensures text[9 + |e.code|..] == e.message
  {
    "Error " + e.code + " : " + e.message
  }
}
