/** The local answer check inside the store's `submitTest` action: the score
    text and the per-question breakdown computed from a test's answer key and
    the submitted answer sheet. */
module Scoring {
  import opened ArrayOps
  import opened Records

  const SuccessMessage := "Test muvaffaqiyatli tekshirildi"
  /** The message of the result `submitTest` returns when anything throws. */
  const FailureMessage := "Javoblarni yuborishda xatolik yuz berdi"

  /** Some entry of the key has question id `id`. */
  ghost predicate HasId(key: seq<Answer>, id: int)
  {
    exists k :: 0 <= k < |key| && key[k].id == id
  }

  /** `correctAnswers.find((ca) => ca.id === ans.id)`: the first key entry for
      question `id`. */
  function KeyEntry(key: seq<Answer>, id: int): (r: Option<Answer>)
    ensures r.Some? <==> HasId(key, id)
    ensures r.Some? ==> exists k :: 0 <= k < |key| && key[k] == r.value && r.value.id == id &&
                                     forall j :: 0 <= j < k ==> key[j].id != id
  {
    Find(key, (ca: Answer) => ca.id == id)
  }

  /** `correctAnswers.find((ca) => ca.id === ans.id && ca.answer === ans.answer)`.
      An answer has no fields besides its id and text, so it finds something
      exactly when the submitted answer occurs in the key as it is. */
  function ExactEntry(key: seq<Answer>, ans: Answer): (r: Option<Answer>)
    ensures r.Some? <==> ans in key
    ensures r.Some? ==> r.value == ans
  {
    Find(key, (ca: Answer) => ca.id == ans.id && ca.answer == ans.answer)
  }

  /** The positions of the sheet whose answer occurs in the key as it is. */
  ghost function MatchedPositions(key: seq<Answer>, answers: seq<Answer>): set<int>
  {
    set i | 0 <= i < |answers| && answers[i] in key
  }

  /** `(ans) => correctAnswers.find((ca) => ca.id === ans.id && ca.answer === ans.answer)`
      as the filter's test: whether the find came back with an entry. */
  function Counted(key: seq<Answer>, ans: Answer): (b: bool)
    ensures b <==> ans in key
  {
    ExactEntry(key, ans).Some?
  }

  /** The numerator of the computed score: the length of the answers kept by
      `answers.filter(...)`. It is the number of positions of the sheet whose
      answer occurs in the key with the same id and the identical text. */
  function Numerator(key: seq<Answer>, answers: seq<Answer>): (n: nat)
    ensures n == |MatchedPositions(key, answers)|
    ensures n <= |answers|
    ensures n == |answers| <==> forall i :: 0 <= i < |answers| ==> answers[i] in key
    ensures n == 0 <==> forall i :: 0 <= i < |answers| ==> answers[i] !in key
  {
    var counted := (ans: Answer) => Counted(key, ans);
    FilterLength(answers, counted);
    assert Positions(answers, counted) == MatchedPositions(key, answers);
    |Filter(answers, counted)|
  }

  /** `details`: one verdict per submitted answer, in order, or `None` when
      some submitted question id has no key entry (then `correct` is
      `undefined` and reading `correct.answer` throws a TypeError). */
  function Details(key: seq<Answer>, answers: seq<Answer>): (r: Option<seq<Detail>>)
    ensures r.Some? <==> forall i :: 0 <= i < |answers| ==> HasId(key, answers[i].id)
    ensures r.Some? ==> |r.value| == |answers|
    ensures r.Some? ==> forall i :: 0 <= i < |answers| ==>
      && r.value[i].id == answers[i].id
      && r.value[i].userAnswer == answers[i].answer
      && (r.value[i].isCorrect <==> answers[i].answer == KeyEntry(key, answers[i].id).value.answer)
  {
    if answers == [] then Some([])
    else
      assert forall i :: 1 <= i < |answers| ==> answers[i] == answers[1..][i - 1];
      match KeyEntry(key, answers[0].id)
      case None => None
      case Some(correct) =>
        match Details(key, answers[1..])
        case None => None
        case Some(rest) =>
          Some([Detail(answers[0].id, answers[0].answer, answers[0].answer == correct.answer)] + rest)
  }

  /** The positions of the verdicts that say "correct". */
  ghost function CorrectPositions(ds: seq<Detail>): set<int>
  {
    set i | 0 <= i < |ds| && ds[i].isCorrect
  }

  predicate IsCorrect(d: Detail)
  {
    d.isCorrect
  }

  /** The number of verdicts that say "correct". */
  function CorrectCount(ds: seq<Detail>): (n: nat)
    ensures n == |CorrectPositions(ds)|
    ensures n <= |ds|
  {
    FilterLength(ds, IsCorrect);
    assert Positions(ds, IsCorrect) == CorrectPositions(ds);
    |Filter(ds, IsCorrect)|
  }

  predicate IsDigit(c: char)
  {
    '0' <= c <= '9'
  }

  predicate AllDigits(s: string)
  {
    forall i :: 0 <= i < |s| ==> IsDigit(s[i])
  }

  /** The template literal `${n}` for a non-negative integer: its decimal
      digits, most significant first. */
  function Decimal(n: nat): (s: string)
    ensures |s| >= 1 && AllDigits(s)
    ensures |s| > 1 ==> s[0] != '0'
    decreases n
  {
    var last := [(('0' as int) + n % 10) as char];
    if n < 10 then last else Decimal(n / 10) + last
  }

  /** The number a non-empty string of decimal digits denotes. */
  function DigitsValue(s: string): nat
    requires AllDigits(s)
    decreases |s|
  {
    if s == [] then 0
    else 10 * DigitsValue(s[..|s| - 1]) + ((s[|s| - 1] as int) - ('0' as int))
  }

  lemma {:induction false} DecimalValue(n: nat)
    ensures DigitsValue(Decimal(n)) == n
    decreases n
  {
    var d := Decimal(n);
    if n >= 10 {
      DecimalValue(n / 10);
      assert d[..|d| - 1] == Decimal(n / 10);
    }
  }

  /** The score text `${numerator}/${total}`. */
  function ScoreText(numerator: nat, total: nat): (r: string)
    ensures IndexOf(r, '/') == Some(|Decimal(numerator)|)
    ensures AllDigits(r[..|Decimal(numerator)|]) && AllDigits(r[|Decimal(numerator)| + 1..])
  {
    var a, b := Decimal(numerator), Decimal(total);
    var s := a + "/" + b;
    assert '/' !in a by {
      forall i | 0 <= i < |a| ensures a[i] != '/' { assert IsDigit(a[i]); }
    }
    assert s[..|a|] == a && s[|a|] == '/' && s[|a| + 1..] == b;
    s
  }

  /** The position of the first `c` in `s`. */
  function IndexOf(s: string, c: char): (r: Option<nat>)
    ensures r.None? <==> c !in s
    ensures r.Some? ==> r.value < |s| && s[r.value] == c && c !in s[..r.value]
  {
    if s == [] then None
    else if s[0] == c then Some(0)
    else
      match IndexOf(s[1..], c)
      case None => None
      case Some(k) =>
        assert s[..k + 1] == [s[0]] + s[1..][..k];
        Some(k + 1)
  }

  /** Reads a score text back as its numerator and total: two digit strings
      around the first '/'. */
  function ParseScore(s: string): Option<(nat, nat)>
  {
    match IndexOf(s, '/')
    case None => None
    case Some(k) =>
      var num, den := s[..k], s[k + 1..];
      if num != [] && den != [] && AllDigits(num) && AllDigits(den)
      then Some((DigitsValue(num), DigitsValue(den)))
      else None
  }

  /** The score text determines the numerator and the total it was made from. */
  lemma {:induction false} ScoreRoundTrip(numerator: nat, total: nat)
    ensures ParseScore(ScoreText(numerator, total)) == Some((numerator, total))
  {
    var a, b := Decimal(numerator), Decimal(total);
    var s := ScoreText(numerator, total);
    assert s == a + ['/'] + b;
    assert s[..|a|] == a;
    assert s[|a| + 1..] == b;
    DecimalValue(numerator);
    DecimalValue(total);
  }

  /** `response.data.score` is used when it is a non-empty string. */
  function ServerScoreGiven(serverScore: Option<string>): (b: bool)
    ensures !b <==> serverScore == None || serverScore == Some("")
  {
    serverScore.Some? && serverScore.value != ""
  }

  /** The `checkResult` object `submitTest` builds from the parsed key, the
      submitted sheet and the score the server returned; `None` when building
      it throws. */
  function CheckAgainstKey(key: seq<Answer>, answers: seq<Answer>, serverScore: Option<string>): (r: Option<CheckResult>)
    ensures r.Some? <==> forall i :: 0 <= i < |answers| ==> HasId(key, answers[i].id)
    ensures r.Some? ==> r.value.message == SuccessMessage && Details(key, answers) == Some(r.value.details)
    ensures r.Some? && ServerScoreGiven(serverScore) ==> r.value.score == serverScore.value
    ensures r.Some? && !ServerScoreGiven(serverScore) ==>
              && r.value.score == ScoreText(Numerator(key, answers), |answers|)
              && ParseScore(r.value.score) == Some((Numerator(key, answers), |answers|))
  {
    match Details(key, answers)
    case None => None
    case Some(details) =>
      var score :=
        if ServerScoreGiven(serverScore) then serverScore.value
        else ScoreText(Numerator(key, answers), |answers|);
      ScoreRoundTrip(Numerator(key, answers), |answers|);
      Some(CheckResult(SuccessMessage, score, details))
  }

  /** No two key entries share a question id. */
  ghost predicate UniqueIds(key: seq<Answer>)
  {
    forall i, j :: 0 <= i < j < |key| ==> key[i].id != key[j].id
  }

  /** With unique question ids in the key, the score's numerator and the
      verdicts agree: the numerator is the number of "correct" verdicts. */
  lemma {:induction false} NumeratorMatchesDetails(key: seq<Answer>, answers: seq<Answer>)
    requires UniqueIds(key)
    requires Details(key, answers).Some?
    ensures Numerator(key, answers) == CorrectCount(Details(key, answers).value)
  {
    var ds := Details(key, answers).value;
    forall i | 0 <= i < |answers|
      ensures answers[i] in key <==> ds[i].isCorrect
    {
      var e := KeyEntry(key, answers[i].id).value;
      var k :| 0 <= k < |key| && key[k] == e && e.id == answers[i].id;
      if answers[i] in key {
        var j :| 0 <= j < |key| && key[j] == answers[i];
        assert j == k;
      } else {
        assert key[k] != answers[i];
      }
    }
    assert MatchedPositions(key, answers) == CorrectPositions(ds);
  }

  /** Without unique ids the two disagree: here the answer is counted in the
      numerator (it matches the second entry for question 1) but its verdict
      compares against the first entry and says "wrong". */
  lemma DuplicateIdsDisagree()
    ensures var key, answers := [Answer(1, "x"), Answer(1, "y")], [Answer(1, "y")];
            Numerator(key, answers) == 1 &&
            Details(key, answers) == Some([Detail(1, "y", false)])
  {
    var key, answers := [Answer(1, "x"), Answer(1, "y")], [Answer(1, "y")];
    assert key[1] == answers[0];
    assert KeyEntry(key, 1) == Some(key[0]);
    assert HasId(key, answers[0].id);
    var ds := Details(key, answers).value;
    assert "y" != "x" by { assert "y"[0] != "x"[0]; }
    assert ds == [Detail(1, "y", false)] by { assert ds == [ds[0]]; }
    assert MatchedPositions(key, answers) == {0};
  }

  /** Answers are compared exactly as strings: a different letter case or a
      trailing blank makes the verdict "wrong". */
  lemma ComparisonIsExact()
    ensures Details([Answer(1, "A")], [Answer(1, "a")]) == Some([Detail(1, "a", false)])
    ensures Details([Answer(1, "A")], [Answer(1, "A ")]) == Some([Detail(1, "A ", false)])
    ensures Details([Answer(1, "A")], [Answer(1, "A")]) == Some([Detail(1, "A", true)])
  {
    var key := [Answer(1, "A")];
    assert KeyEntry(key, 1) == Some(key[0]);
    assert HasId(key, 1);
    assert "a" != "A" by { assert "a"[0] != "A"[0]; }
    assert "A " != "A" by { assert |"A "| != |"A"|; }
    VerdictOfOne(key, Answer(1, "a"));
    VerdictOfOne(key, Answer(1, "A "));
    VerdictOfOne(key, Answer(1, "A"));
  }

  /** The breakdown of a one-answer sheet whose question is in the key. */
  lemma VerdictOfOne(key: seq<Answer>, ans: Answer)
    requires HasId(key, ans.id)
    ensures Details(key, [ans]) ==
            Some([Detail(ans.id, ans.answer, ans.answer == KeyEntry(key, ans.id).value.answer)])
  {
    var ds := Details(key, [ans]).value;
    assert ds == [ds[0]];
  }
}
