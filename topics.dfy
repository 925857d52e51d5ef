/** The enumerations of Presenter.swift that name configuration entries, and
    their raw-value parsing (`init?(rawValue:)`). Model.swift uses them too. */
module Topics {
  import opened Basics

  /** The kind of an inbound topic, as `recieveTopicType` records it. */
  datatype RecieveTopicType = Recieve | Status | Connection

  datatype ConnectionTopicType = Ping | Pong

  datatype RecieveFunction = Temperature

  datatype SendFunction = Led | Brightness

  /** The declared raw values: "ping" and "pong", one per case. */
  function ConnectionRaw(k: ConnectionTopicType): (r: string)
    ensures r == "ping" <==> k == Ping
    ensures r == "pong" <==> k == Pong
  {
    match k
    case Ping => "ping"
    case Pong => "pong"
  }

  /** The declared raw value "temperature". */
  function RecieveRaw(f: RecieveFunction): (r: string)
    ensures r == "temperature"
  {
    match f
    case Temperature => "temperature"
  }

  /** The declared raw values: "led" and "brightness", one per case. */
  function SendRaw(f: SendFunction): (r: string)
    ensures r == "led" <==> f == Led
    ensures r == "brightness" <==> f == Brightness
  {
    match f
    case Led => "led"
    case Brightness => "brightness"
  }

  /** `ConnectionTopicType(rawValue:)`: accepts exactly the raw values. */
  function ParseConnectionTopicType(s: string): (r: Option<ConnectionTopicType>)
    ensures r.Some? <==> exists k :: ConnectionRaw(k) == s
    ensures r.Some? ==> ConnectionRaw(r.value) == s
  {
    if s == "ping" then assert ConnectionRaw(Ping) == s; Some(Ping)
    else if s == "pong" then assert ConnectionRaw(Pong) == s; Some(Pong)
    else None
  }

  /** `RecieveFunction(rawValue:)`: accepts exactly the raw values. */
  function ParseRecieveFunction(s: string): (r: Option<RecieveFunction>)
    ensures r.Some? <==> exists f :: RecieveRaw(f) == s
    ensures r.Some? ==> RecieveRaw(r.value) == s
  {
    if s == "temperature" then assert RecieveRaw(Temperature) == s; Some(Temperature) else None
  }

  /** `SendFunction(rawValue:)`: accepts exactly the raw values. */
  function ParseSendFunction(s: string): (r: Option<SendFunction>)
    ensures r.Some? <==> exists f :: SendRaw(f) == s
    ensures r.Some? ==> SendRaw(r.value) == s
  {
    if s == "led" then assert SendRaw(Led) == s; Some(Led)
    else if s == "brightness" then assert SendRaw(Brightness) == s; Some(Brightness)
    else None
  }

  /** Parsing inverts the raw values, and no raw value belongs to two enumerations. */
  lemma RawValuesRoundTrip(k: ConnectionTopicType, f: RecieveFunction, g: SendFunction)
    ensures ParseConnectionTopicType(ConnectionRaw(k)) == Some(k)
    ensures ParseRecieveFunction(RecieveRaw(f)) == Some(f)
    ensures ParseSendFunction(SendRaw(g)) == Some(g)
    ensures ParseRecieveFunction(SendRaw(g)) == None
    ensures ParseSendFunction(RecieveRaw(f)) == None
  {
  }
}
