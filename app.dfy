/** The page component's state logic apart from its markup: its `useState`
    variables as the fields of a class, and its handlers and answer-sheet
    effect as methods. It reads and drives the store it is given. */
module TestApp {
  import opened ArrayOps
  import opened Records
  import opened Scoring
  import opened TestStore

  const EnterIdMessage := "Iltimos, test ID sini kiriting!"
  const BadKeyMessage := "Test javoblari noto\U{2018}g\U{2018}ri formatda!"
  const MissingDataMessage := "Test yoki foydalanuvchi ma\U{2019}lumotlari topilmadi!"

  /** The `number | ""` held by the test id input. */
  datatype TestIdInput = Blank | Entered(n: int)

  /** `!testId`: the input is empty or holds zero. */
  function IsMissing(t: TestIdInput): (b: bool)
    ensures !b <==> t.Entered? && t.n != 0
  {
    t == Blank || t == Entered(0)
  }

  /** `parsedAnswers.map((ans) => ({ id: ans.id, answer: "" }))`: a blank
      answer sheet with one entry per key entry. */
  function BlankSheet(key: seq<Answer>): (r: seq<Answer>)
    ensures |r| == |key|
    ensures forall i :: 0 <= i < |key| ==> r[i].id == key[i].id && r[i].answer == ""
  {
    if key == [] then []
    else
      assert forall i :: 1 <= i < |key| ==> key[i] == key[1..][i - 1];
      [Answer(key[0].id, "")] + BlankSheet(key[1..])
  }

  /** The sheet has the key's question ids, position by position. */
  ghost predicate FitsKey(sheet: seq<Answer>, key: seq<Answer>)
  {
    |sheet| == |key| && forall i :: 0 <= i < |sheet| ==> sheet[i].id == key[i].id
  }

  /** A sheet that fits the key, whatever has been typed into it, is checked
      without reaching the `correct.answer` crash, and gets one verdict per
      key entry. */
  lemma FittingSheetIsChecked(key: seq<Answer>, sheet: seq<Answer>, serverScore: Option<string>)
    requires FitsKey(sheet, key)
    ensures CheckAgainstKey(key, sheet, serverScore).Some?
    ensures |CheckAgainstKey(key, sheet, serverScore).value.details| == |key|
  {
  }

  /** When no key answer is empty, the untouched blank sheet scores zero. */
  lemma BlankSheetScoresZero(key: seq<Answer>)
    requires forall k :: 0 <= k < |key| ==> key[k].answer != ""
    ensures Numerator(key, BlankSheet(key)) == 0
  {
  }

  /** If the re-fetched list gives back the selected test, a sheet that fits
      that test's key is never refused by the local check: `submitTest`
      records a check result. */
  lemma FittingSubmissionSucceeds(
    payload: SubmitTestPayload,
    serverScore: Option<string>,
    tests: seq<Test>,
    test: Test,
    key: seq<Answer>,
    parseKey: string -> KeyParse,
    engineText: Fault -> string)
    requires SelectTest(tests, payload.testId) == Some(test)
    requires parseKey(test.answers) == Entries(key)
    requires FitsKey(payload.answersJson, key)
    ensures TrySubmit(payload, Received(serverScore), Received(tests), parseKey, engineText).Received?
  {
  }

  class App {
    const store: Store
    var testId: TestIdInput
    var userAnswers: seq<Answer>
    var modalMessage: string
    var showMessageModal: bool

    /** The component's initial `useState` values, over the store it reads. */
    constructor (store: Store)
      ensures this.store == store
      ensures testId == Blank && userAnswers == [] && modalMessage == "" && !showMessageModal
    {
      this.store := store;
      testId, userAnswers, modalMessage, showMessageModal := Blank, [], "", false;
    }

    /** The test id input's change handler, after the text has been read as a number. */
    method EnterTestId(input: TestIdInput)
      modifies this
      ensures testId == input
      ensures userAnswers == old(userAnswers) && modalMessage == old(modalMessage)
      ensures showMessageModal == old(showMessageModal)
    {
      testId := input;
    }

    /** `handleFetchTest`: refuses an empty or zero id with a message;
        otherwise asks the store for that test, `response` being what
        `GET /tests` gives. Returns the id it asked for. */
    method HandleFetchTest(response: Response<seq<Test>>) returns (requested: Option<int>)
      modifies this, store
      ensures testId == old(testId) && userAnswers == old(userAnswers)
      ensures store.tests == old(store.tests)
      ensures IsMissing(testId) ==>
                && requested == None
                && modalMessage == EnterIdMessage && showMessageModal
                && store.user == old(store.user) && store.selectedTest == old(store.selectedTest)
                && store.checkResult == old(store.checkResult)
                && store.loading == old(store.loading) && store.error == old(store.error)
      ensures !IsMissing(testId) ==>
                && requested == Some(testId.n)
                && modalMessage == old(modalMessage) && showMessageModal == old(showMessageModal)
                && !store.loading && store.checkResult == None && store.user == old(store.user)
                && (response.Received? ==> store.selectedTest == SelectTest(response.data, testId.n))
                && (response.Received? ==> (store.error == None <==> store.selectedTest.Some?))
                && (response.Received? && store.selectedTest.None? ==> store.error == Some(TestNotFound))
                && (response.Failed? ==> store.selectedTest == old(store.selectedTest))
                && (response.Failed? ==> store.error == Some(ErrorText(response.thrown, FetchTestFallback)))
    {
      if IsMissing(testId) {
        modalMessage, showMessageModal := EnterIdMessage, true;
        requested := None;
        return;
      }
      store.FetchTestById(testId.n, response);
      requested := Some(testId.n);
    }

    /** The effect that runs when the selected test changes: a fresh blank
        sheet for the test's key, or the format message when the key does not
        parse; nothing while no test is selected. */
    method SelectedTestEffect(parseKey: string -> KeyParse)
      modifies this
      ensures testId == old(testId)
      ensures store.selectedTest.None? ==> unchanged(this)
      ensures store.selectedTest.Some? && parseKey(store.selectedTest.value.answers).Entries? ==>
                && userAnswers == BlankSheet(parseKey(store.selectedTest.value.answers).entries)
                && FitsKey(userAnswers, parseKey(store.selectedTest.value.answers).entries)
                && modalMessage == old(modalMessage) && showMessageModal == old(showMessageModal)
      ensures store.selectedTest.Some? && !parseKey(store.selectedTest.value.answers).Entries? ==>
                userAnswers == old(userAnswers) && modalMessage == BadKeyMessage && showMessageModal
    {
      match store.selectedTest
      case None =>
      case Some(test) =>
        match parseKey(test.answers)
        case Entries(key) =>
          userAnswers := BlankSheet(key);
        case _ =>
          // `JSON.parse` threw, or `.map` on a value that is no array threw
          modalMessage, showMessageModal := BadKeyMessage, true;
    }

    /** `handleAnswerChange(index, value)`: a copy of the sheet whose entry at
        `index` has the new answer text. */
    method HandleAnswerChange(index: nat, value: string)
      requires index < |userAnswers|
      modifies this
      ensures |userAnswers| == |old(userAnswers)|
      ensures forall i :: 0 <= i < |userAnswers| ==> userAnswers[i].id == old(userAnswers)[i].id
      ensures userAnswers[index].answer == value
      ensures forall i :: 0 <= i < |userAnswers| && i != index ==> userAnswers[i] == old(userAnswers)[i]
      ensures testId == old(testId) && modalMessage == old(modalMessage)
      ensures showMessageModal == old(showMessageModal)
    {
      var updated := userAnswers;
      updated := updated[index := Answer(updated[index].id, value)];
      userAnswers := updated;
    }

    /** `handleSubmit`: refuses with a message while no test is selected or no
        user is known; otherwise submits the current sheet for the selected
        test in the user's name and then shows the result modal. Returns the
        payload it submitted. */
    method HandleSubmit(
      post: Response<Option<string>>,
      listing: Response<seq<Test>>,
      parseKey: string -> KeyParse,
      engineText: Fault -> string) returns (submitted: Option<SubmitTestPayload>)
      modifies this, store
      ensures testId == old(testId) && userAnswers == old(userAnswers) && showMessageModal
      ensures store.user == old(store.user) && store.selectedTest == old(store.selectedTest)
      ensures store.tests == old(store.tests)
      ensures old(store.selectedTest).None? || old(store.user).None? ==>
                && submitted == None && modalMessage == MissingDataMessage
                && store.checkResult == old(store.checkResult)
                && store.loading == old(store.loading) && store.error == old(store.error)
      ensures old(store.selectedTest).Some? && old(store.user).Some? ==>
                && modalMessage == old(modalMessage)
                && var u, t := old(store.user).value, old(store.selectedTest).value;
                   && submitted == Some(SubmitTestPayload(u.chatId, u.fullName, t.id, userAnswers, u.region, u.schoolClass))
                   && !store.loading
                   && match TrySubmit(submitted.value, post, listing, parseKey, engineText)
                      case Received(r) => store.checkResult == Some(r) && store.error == None
                      case Failed(thrown) =>
                        store.checkResult == old(store.checkResult) &&
                        store.error == Some(ErrorText(thrown, SubmitFallback))
    {
      if store.selectedTest.None? || store.user.None? {
        modalMessage, showMessageModal := MissingDataMessage, true;
        submitted := None;
        return;
      }
      var u, t := store.user.value, store.selectedTest.value;
      var payload := SubmitTestPayload(u.chatId, u.fullName, t.id, userAnswers, u.region, u.schoolClass);
      var _ := store.SubmitTest(payload, post, listing, parseKey, engineText);
      showMessageModal := true;
      submitted := Some(payload);
    }
  }
}
