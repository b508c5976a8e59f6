/** The zustand store: its state fields and its three actions. Each action
    is split at its first `await`: `Start…` is the synchronous `set(...)` that
    runs before the request, `Finish…` the continuation that runs when the
    request has settled, and the action itself runs the two in turn. The
    backend's responses are inputs. */
module TestStore {
  import opened ArrayOps
  import opened Records
  import opened Scoring

  const UserFallback := "Foydalanuvchi topilmadi"
  const TestNotFound := "Bu test ID uchun test topilmadi"
  const FetchTestFallback := "Testni olishda xatolik"
  const SubmitFallback := "Javoblarni yuborishda xatolik"

  /** `tests.find((t) => t.id === testId)`: the first test with that id. */
  function SelectTest(tests: seq<Test>, id: int): (r: Option<Test>)
    ensures r.None? <==> forall i :: 0 <= i < |tests| ==> tests[i].id != id
    ensures r.Some? ==> exists i :: 0 <= i < |tests| && tests[i] == r.value && r.value.id == id &&
                                     forall j :: 0 <= j < i ==> tests[j].id != id
  {
    Find(tests, (t: Test) => t.id == id)
  }

  /** The exceptions the JavaScript engine itself raises inside the `try`
      block of `submitTest`, after both requests have answered. */
  datatype Fault =
    | TestMissing    // no test in the re-fetched list has the payload's id: reading `test.answers` throws
    | KeySyntax      // `JSON.parse(test.answers)` throws a SyntaxError
    | KeyNotAList    // the parsed key is no array: calling `correctAnswers.find` throws a TypeError
    | AnswerUnkeyed  // a submitted id has no key entry: reading `correct.answer` throws

  /** The `try` block of `submitTest`: the POST's response (the score field of
      its data), the re-fetched test list, and the check result built from
      them, or the value thrown on the way. `parseKey` is `JSON.parse` on an
      answer key; `engineText` gives the message of each exception the engine
      raises itself. */
  function TrySubmit(
    payload: SubmitTestPayload,
    post: Response<Option<string>>,
    listing: Response<seq<Test>>,
    parseKey: string -> KeyParse,
    engineText: Fault -> string): (r: Response<CheckResult>)
    ensures post.Failed? ==> r == Failed(post.thrown)
    ensures post.Received? && listing.Failed? ==> r == Failed(listing.thrown)
    ensures post.Received? && listing.Received? && SelectTest(listing.data, payload.testId).None? ==>
              r == Failed(ErrorInstance(engineText(TestMissing)))
    ensures post.Received? && listing.Received? && SelectTest(listing.data, payload.testId).Some? ==>
              var parsed := parseKey(SelectTest(listing.data, payload.testId).value.answers);
              var answers := payload.answersJson;
              match parsed
              case Unparsable => r == Failed(ErrorInstance(engineText(KeySyntax)))
              case NotAList =>
                // `filter` and `map` over an empty sheet never call `correctAnswers.find`
                if answers == [] then r.Received? && Some(r.data) == CheckAgainstKey([], [], post.data)
                else r == Failed(ErrorInstance(engineText(KeyNotAList)))
              case Entries(key) =>
                if forall i :: 0 <= i < |answers| ==> HasId(key, answers[i].id)
                then r.Received? && Some(r.data) == CheckAgainstKey(key, answers, post.data)
                else r == Failed(ErrorInstance(engineText(AnswerUnkeyed)))
  {
    match post
    case Failed(thrown) => Failed(thrown)
    case Received(serverScore) =>
      match listing
      case Failed(thrown) => Failed(thrown)
      case Received(tests) =>
        match SelectTest(tests, payload.testId)
        case None => Failed(ErrorInstance(engineText(TestMissing)))
        case Some(test) =>
          match parseKey(test.answers)
          case Unparsable => Failed(ErrorInstance(engineText(KeySyntax)))
          case NotAList =>
            if payload.answersJson == [] then Received(CheckAgainstKey([], [], serverScore).value)
            else Failed(ErrorInstance(engineText(KeyNotAList)))
          case Entries(key) =>
            match CheckAgainstKey(key, payload.answersJson, serverScore)
            case None => Failed(ErrorInstance(engineText(AnswerUnkeyed)))
            case Some(checkResult) => Received(checkResult)
  }

  /** What `submitTest` returns from its `catch` clause: the failure message,
      a score that reads as zero out of zero, and no verdicts. */
  function FailedResult(): (r: CheckResult)
    ensures r.message == FailureMessage && r.details == []
    ensures ParseScore(r.score) == Some((0, 0))
  {
    ScoreRoundTrip(0, 0);
    CheckResult(FailureMessage, "0/0", [])
  }

  /** A failed submission cannot be told from the check of an empty sheet by
      its score and verdicts: both say "0/0" with no verdicts, and only the
      message differs. */
  lemma FailureLooksLikeEmptyCheck(key: seq<Answer>)
    ensures CheckAgainstKey(key, [], None) ==
            Some(CheckResult(SuccessMessage, FailedResult().score, FailedResult().details))
  {
    var r := CheckAgainstKey(key, [], None);
    assert Decimal(0) == "0";
    assert Numerator(key, []) == 0;
    assert ScoreText(0, 0) == "0/0";
    assert r.value.score == "0/0";
    assert r.value.details == [];
  }

  class Store {
    var user: Option<User>
    var tests: seq<Test>
    var selectedTest: Option<Test>
    var checkResult: Option<CheckResult>
    var loading: bool
    var error: Option<string>

    /** The initial state passed to `create`. */
    constructor ()
      ensures user == None && tests == [] && selectedTest == None && checkResult == None
      ensures !loading && error == None
    {
      user, tests, selectedTest, checkResult := None, [], None, None;
      loading, error := false, None;
    }

    /** `set({ loading: true, error: null })`: how `fetchUser` and `submitTest` begin. */
    method StartRequest()
      modifies this
      ensures loading && error == None
      ensures user == old(user) && tests == old(tests)
      ensures selectedTest == old(selectedTest) && checkResult == old(checkResult)
    {
      loading, error := true, None;
    }

    /** `set({ loading: true, error: null, checkResult: null })`: how `fetchTestById` begins. */
    method StartFetchTest()
      modifies this
      ensures loading && error == None && checkResult == None
      ensures user == old(user) && tests == old(tests) && selectedTest == old(selectedTest)
    {
      loading, error, checkResult := true, None, None;
    }

    /** The rest of `fetchUser`, once `GET /users/{chatId}` has settled. */
    method FinishFetchUser(response: Response<Option<User>>)
      modifies this
      ensures !loading
      ensures response.Received? ==> user == response.data && error == old(error)
      ensures response.Failed? ==> user == old(user) && error == Some(ErrorText(response.thrown, UserFallback))
      ensures tests == old(tests) && selectedTest == old(selectedTest) && checkResult == old(checkResult)
    {
      match response
      case Received(data) =>
        user, loading := data, false;
      case Failed(thrown) =>
        error, loading := Some(ErrorText(thrown, UserFallback)), false;
    }

    /** `fetchUser(chatId)`, where `response` is what the request for that chat id gives. */
    method FetchUser(response: Response<Option<User>>)
      modifies this
      ensures !loading
      ensures response.Received? ==> user == response.data && error == None
      ensures response.Failed? ==> user == old(user) && error == Some(ErrorText(response.thrown, UserFallback))
      ensures tests == old(tests) && selectedTest == old(selectedTest) && checkResult == old(checkResult)
    {
      StartRequest();
      FinishFetchUser(response);
    }

    /** The rest of `fetchTestById`, once `GET /tests` has settled. */
    method FinishFetchTest(testId: int, response: Response<seq<Test>>)
      modifies this
      ensures !loading
      ensures response.Received? ==> selectedTest == SelectTest(response.data, testId)
      ensures response.Received? && selectedTest.Some? ==> error == old(error)
      ensures response.Received? && selectedTest.None? ==> error == Some(TestNotFound)
      ensures response.Failed? ==>
                selectedTest == old(selectedTest) && error == Some(ErrorText(response.thrown, FetchTestFallback))
      ensures user == old(user) && tests == old(tests) && checkResult == old(checkResult)
    {
      match response
      case Received(list) =>
        var test := SelectTest(list, testId);
        if test.Some? {
          selectedTest, loading := test, false;
        } else {
          error, selectedTest, loading := Some(TestNotFound), None, false;
        }
      case Failed(thrown) =>
        error, loading := Some(ErrorText(thrown, FetchTestFallback)), false;
    }

    /** `fetchTestById(testId)`, where `response` is what `GET /tests` gives. */
    method FetchTestById(testId: int, response: Response<seq<Test>>)
      modifies this
      ensures !loading && checkResult == None
      ensures response.Received? ==> selectedTest == SelectTest(response.data, testId)
      ensures response.Received? ==> (error == None <==> selectedTest.Some?)
      ensures response.Received? && selectedTest.None? ==> error == Some(TestNotFound)
      ensures response.Failed? ==>
                selectedTest == old(selectedTest) && error == Some(ErrorText(response.thrown, FetchTestFallback))
      ensures user == old(user) && tests == old(tests)
    {
      StartFetchTest();
      FinishFetchTest(testId, response);
    }

    /** The rest of `submitTest`, once the POST and the re-fetch have settled. */
    method FinishSubmit(
      payload: SubmitTestPayload,
      post: Response<Option<string>>,
      listing: Response<seq<Test>>,
      parseKey: string -> KeyParse,
      engineText: Fault -> string) returns (result: CheckResult)
      modifies this
      ensures !loading
      ensures match TrySubmit(payload, post, listing, parseKey, engineText)
              case Received(r) => result == r && checkResult == Some(r) && error == old(error)
              case Failed(thrown) =>
                && result == FailedResult()
                && checkResult == old(checkResult)
                && error == Some(ErrorText(thrown, SubmitFallback))
      ensures user == old(user) && tests == old(tests) && selectedTest == old(selectedTest)
    {
      match TrySubmit(payload, post, listing, parseKey, engineText)
      case Received(r) =>
        checkResult, loading := Some(r), false;
        result := r;
      case Failed(thrown) =>
        error, loading := Some(ErrorText(thrown, SubmitFallback)), false;
        result := FailedResult();
    }

    /** `submitTest(payload)`: `post` is what `POST /tests/check` gives (the
        `score` field of its data), `listing` what the following `GET /tests`
        gives. */
    method SubmitTest(
      payload: SubmitTestPayload,
      post: Response<Option<string>>,
      listing: Response<seq<Test>>,
      parseKey: string -> KeyParse,
      engineText: Fault -> string) returns (result: CheckResult)
      modifies this
      ensures !loading
      ensures match TrySubmit(payload, post, listing, parseKey, engineText)
              case Received(r) => result == r && checkResult == Some(r) && error == None
              case Failed(thrown) =>
                && result == FailedResult()
                && checkResult == old(checkResult)
                && error == Some(ErrorText(thrown, SubmitFallback))
      ensures user == old(user) && tests == old(tests) && selectedTest == old(selectedTest)
    {
      StartRequest();
      result := FinishSubmit(payload, post, listing, parseKey, engineText);
    }
  }
}
