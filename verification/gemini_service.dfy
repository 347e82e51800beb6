/**
 * `fetchQuizData`: one request to the text-generation service, a shape check on the
 * parsed reply, and a catch-all that turns every failure into one fixed message.
 * The service call and `JSON.parse` are not modelled; their outcome is the `Reply`
 * parameter.
 */
module GeminiService {
  import opened Wrappers
  import opened Types

  /** A value `JSON.parse` can produce (numbers are kept as integers). */
  datatype Json =
    | JNull
    | JBool(b: bool)
    | JNumber(n: int)
    | JString(s: string)
    | JArray(items: seq<Json>)
    | JObject(fields: map<string, Json>)

  /** What the request and the parse of its text yield. */
  datatype Reply =
    | TransportFailure      // the SDK call rejects (network, quota, invalid key, ...)
    | MalformedJson         // `JSON.parse(response.text)` throws
    | Parsed(value: Json)   // the parsed reply

  /** What is thrown inside the `try` block, before the catch-all rewrites it. */
  datatype Exception =
    | ConfigurationError(message: string)
    | ServiceError
    | ParseError
    | KeyLookupError              // `'word' in item` on a primitive raises a TypeError
    | ShapeError(message: string)

  /** Outcome of evaluating `'word' in item && 'definition' in item`, or a whole `every`. */
  datatype Verdict = Pass | Fail | Throws

  const MissingKeyMessage: string := "API_KEY is not configured in environment variables."
  const InvalidShapeMessage: string := "API로부터 유효하지 않은 형식의 데이터를 받았습니다."
  const FetchFailedMessage: string := "퀴즈 데이터를 가져오는 데 실패했습니다. API 키를 확인하거나 나중에 다시 시도해주세요."

  /** `process.env.API_KEY` is truthy: present and not the empty string. */
  function KeyConfigured(apiKey: Option<string>): (truthy: bool)
    ensures truthy <==> apiKey != Option.None && apiKey != Option.Some("")
  {
    apiKey.Some? && apiKey.value != ""
  }

  /** An element the shape check lets through: an object with both keys, whatever their values. */
  predicate IsQuizObject(item: Json) {
    item.JObject? && "word" in item.fields && "definition" in item.fields
  }

  /** `'word' in item && 'definition' in item` for one array element. */
  function HasQuizKeys(item: Json): (v: Verdict)
    ensures v == Pass <==> IsQuizObject(item)
    ensures v == Throws <==> !(item.JObject? || item.JArray?)
  {
    match item
    case JObject(fields) => if "word" in fields && "definition" in fields then Pass else Fail
    case JArray(_) => Fail  // an array has neither own key
    case _ => Throws        // `in` on a string, number, boolean or null is a TypeError
  }

  /** `items.every(...)`: stops at the first element that fails or throws. */
  function Every(items: seq<Json>): (v: Verdict)
    ensures v == Pass <==> forall i :: 0 <= i < |items| ==> IsQuizObject(items[i])
    ensures v == Throws ==> exists i :: 0 <= i < |items| && HasQuizKeys(items[i]) == Throws
  {
    if items == [] then Pass
    else match HasQuizKeys(items[0])
      case Pass =>
        var rest := Every(items[1..]);
        assert forall i :: 1 <= i < |items| ==> items[i] == items[1..][i - 1];
        rest
      case Fail => Fail
      case Throws => Throws
  }

  /** `Array.isArray(parsed) && parsed.every(...)`. */
  function ShapeCheck(parsed: Json): (v: Verdict)
    ensures v == Pass <==> parsed.JArray? && forall i :: 0 <= i < |parsed.items| ==> IsQuizObject(parsed.items[i])
  {
    if !parsed.JArray? then Fail else Every(parsed.items)
  }

  /** The body of the `try` block: what it returns, or what it throws. */
  function TryBlock(apiKey: Option<string>, reply: Reply): (r: Result<seq<Json>, Exception>)
    ensures !KeyConfigured(apiKey) ==> r == Failure(ConfigurationError(MissingKeyMessage))
    ensures r.Success? <==> KeyConfigured(apiKey) && reply.Parsed? && ShapeCheck(reply.value) == Pass
    ensures r.Success? ==> r.value == reply.value.items
  {
    if !KeyConfigured(apiKey) then Failure(ConfigurationError(MissingKeyMessage))
    else match reply
      case TransportFailure => Failure(ServiceError)
      case MalformedJson => Failure(ParseError)
      case Parsed(parsed) =>
        match ShapeCheck(parsed)
        case Pass => Success(parsed.items)
        case Fail => Failure(ShapeError(InvalidShapeMessage))
        case Throws => Failure(KeyLookupError)
  }

  /**
   * `fetchQuizData()`: the parsed array, unchanged, when a key is configured and the
   * reply passes the shape check; otherwise the one fixed message of the catch block.
   */
  function FetchQuizData(apiKey: Option<string>, reply: Reply): (r: Result<seq<Json>, string>)
    ensures r.Failure? ==> r.error == FetchFailedMessage
    ensures r.Success? <==>
      && KeyConfigured(apiKey)
      && reply.Parsed? && reply.value.JArray?
      && forall i :: 0 <= i < |reply.value.items| ==> IsQuizObject(reply.value.items[i])
    ensures r.Success? ==> r.value == reply.value.items
  {
    match TryBlock(apiKey, reply)
    case Success(data) => Success(data)
    case Failure(_) => Failure(FetchFailedMessage)
  }

  /** Without a key the outcome is the fixed failure whatever the service would have replied. */
  lemma MissingKeyFailsBeforeRequest(apiKey: Option<string>, reply1: Reply, reply2: Reply)
    requires !KeyConfigured(apiKey)
    ensures FetchQuizData(apiKey, reply1) == FetchQuizData(apiKey, reply2) == Failure(FetchFailedMessage)
  {
  }

  /** The messages thrown inside the `try` block never reach the caller. */
  lemma InnerMessagesNeverEscape(apiKey: Option<string>, reply: Reply)
    ensures FetchQuizData(apiKey, reply) != Failure(InvalidShapeMessage)
    ensures FetchQuizData(apiKey, reply) != Failure(MissingKeyMessage)
  {
    assert |InvalidShapeMessage| != |FetchFailedMessage|;
    assert |MissingKeyMessage| != |FetchFailedMessage|;
  }

  /** An empty array is accepted: `every` over no elements is true. */
  lemma EmptyArrayAccepted(apiKey: Option<string>)
    requires KeyConfigured(apiKey)
    ensures FetchQuizData(apiKey, Parsed(JArray([]))) == Success([])
  {
  }

  /** Only the presence of the two keys is checked: any values, even non-strings, pass. */
  lemma OnlyKeyPresenceChecked(apiKey: Option<string>, word: Json, definition: Json)
    requires KeyConfigured(apiKey)
    ensures var item := JObject(map["word" := word, "definition" := definition]);
            FetchQuizData(apiKey, Parsed(JArray([item]))) == Success([item])
  {
  }

  /** An element missing `definition` is rejected, and so is a reply that is not an array. */
  lemma BadShapesRejected(apiKey: Option<string>, word: Json, fields: map<string, Json>)
    ensures FetchQuizData(apiKey, Parsed(JArray([JObject(map["word" := word])]))) == Failure(FetchFailedMessage)
    ensures FetchQuizData(apiKey, Parsed(JObject(fields))) == Failure(FetchFailedMessage)
  {
    var item := JObject(map["word" := word]);
    assert !IsQuizObject(item);
  }

  /** Both keys hold strings, so the element can be read as a `QuizQuestion`. */
  predicate HasStringFields(item: Json) {
    IsQuizObject(item) && item.fields["word"].JString? && item.fields["definition"].JString?
  }

  /** One element read as a `QuizQuestion`. */
  function AsQuizQuestion(item: Json): QuizQuestion
    requires HasStringFields(item)
  {
    QuizQuestion(item.fields["word"].s, item.fields["definition"].s)
  }

  /** `parsedData as QuizQuestion[]`, for elements whose two values are strings. */
  function AsQuizQuestions(items: seq<Json>): (qs: seq<QuizQuestion>)
    requires forall i :: 0 <= i < |items| ==> HasStringFields(items[i])
    ensures |qs| == |items|
    ensures forall i :: 0 <= i < |items| ==> qs[i] == AsQuizQuestion(items[i])
  {
    seq(|items|, i requires 0 <= i < |items| => AsQuizQuestion(items[i]))
  }
}
