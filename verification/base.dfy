/**
 Shared vocabulary of the bus-telemetry pipeline model: optional values, members of
 parsed JSON objects as the Python code reads them, the exceptions that end a stage,
 and the outcome of one upstream HTTP call.
 */
module Base {

  /** Python's `None` or a value. */
  datatype Option<T> = None | Some(value: T)

  /** A member of a parsed JSON object: a missing key, an explicit `null`, or a value.
      The code tells the first two apart only where it passes a default to `dict.get`. */
  datatype Field<T> = Absent | Null | Val(value: T)
  {
    /** `obj.get(key)`: a missing key and an explicit null both read as None. */
    function Get(): Option<T>
    {
      if Val? then Some(value) else None
    }
  }

  /** A JSON scalar (string, number or boolean), represented by the text `str()`
      renders it to; the pipeline only copies such values and formats them. */
  type Scalar = string

  /** The exceptions that end a stage. */
  datatype Error =
    | RequestFailed               // the POST raised, or raise_for_status saw a non-2xx status
    | NotJson                     // response.json() raised ValueError
    | NotIterable(key: string)    // TypeError: iterating an explicit null list
    | NullHasNoGet(key: string)   // AttributeError: `.get` on an explicit null object
    | JoinOfNone(key: string)     // TypeError: str.join met a None item
    | ConnectionFailed            // the database connection or a container could not be set up

  datatype Result<T> = Success(value: T) | Failure(error: Error)

  /** One upstream call: a POST, `raise_for_status()` and `response.json()`. */
  datatype Response<T> = Received(body: T) | HttpFailed | BodyNotJson
  {
    /** The exception the call raised, or the parsed body. */
    function Body(): Result<T>
    {
      match this
      case Received(b) => Success(b)
      case HttpFailed => Failure(RequestFailed)
      case BodyNotJson => Failure(NotJson)
    }
  }

  /** `for x in obj.get(key, [])`: a missing list iterates as empty, an explicit null raises. */
  function Iterate<T>(f: Field<seq<T>>, key: string): (r: Result<seq<T>>)
    ensures r.Success? <==> !f.Null?
    ensures r.Success? ==> r.value == Items(f)
    ensures r.Failure? ==> r.error == NotIterable(key)
  {
    match f
    case Absent => Success([])
    case Null => Failure(NotIterable(key))
    case Val(xs) => Success(xs)
  }

  /** The elements a list member holds; none when it is missing or null. */
  function Items<T>(f: Field<seq<T>>): seq<T>
  {
    if f.Val? then f.value else []
  }

  /** `f"{x}"` of a string-or-None value: None renders as "None". */
  function Render(x: Option<string>): string
  {
    match x
    case None => "None"
    case Some(s) => s
  }
}
