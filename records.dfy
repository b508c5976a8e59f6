/** The records the store exchanges with the backend, and the two ways a
    request can end: with a response, or with a thrown value. */
module Records {

  /** A user record as the backend returns it (`class` is spelled
      `schoolClass`, since `class` is a Dafny keyword). */
  datatype User = User(
    id: string,
    fullName: string,
    chatId: string,
    role: string,
    status: string,
    region: string,
    schoolClass: string)

  /** A test record; `answers` is its answer key as JSON text. */
  datatype Test = Test(
    id: int,
    name: string,
    ownerChatId: string,
    testCount: int,
    answers: string,
    createdAt: string)

  /** One answer: a question id and the answer text. Both the answer key and
      the answer sheet are sequences of these. */
  datatype Answer = Answer(id: int, answer: string)

  /** The body of the submission request. */
  datatype SubmitTestPayload = SubmitTestPayload(
    userChatId: string,
    user: string,
    testId: int,
    answersJson: seq<Answer>,
    region: string,
    schoolClass: string)

  /** The verdict on one submitted answer. */
  datatype Detail = Detail(id: int, userAnswer: string, isCorrect: bool)

  datatype CheckResult = CheckResult(message: string, score: string, details: seq<Detail>)

  /** What `JSON.parse` makes of an answer key: it throws (the text is not
      JSON), or it gives a value that is not an array (`null`, an object, a
      number, a string), or it gives an array of answer entries. */
  datatype KeyParse = Unparsable | NotAList | Entries(entries: seq<Answer>)

  /** What a `catch (error)` clause receives: an `Error` object with its
      message, or any other thrown value. */
  datatype Thrown = ErrorInstance(message: string) | OtherValue

  /** The outcome of one awaited request: its response data, or what it threw. */
  datatype Response<T> = Received(data: T) | Failed(thrown: Thrown)

  /** `error instanceof Error ? error.message : fallback` */
  function ErrorText(t: Thrown, fallback: string): (r: string)
    ensures t.ErrorInstance? ==> r == t.message
    ensures t.OtherValue? ==> r == fallback
  {
    match t
    case ErrorInstance(message) => message
    case OtherValue => fallback
  }
}
