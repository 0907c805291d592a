/**
 * The state logic of the quiz page (src/frontend/Quiz.tsx), rendering left aside:
 * the in-place shuffle of each question's options, answering and scoring, moving
 * between questions through the `q` and `results` search parameters, and the sets
 * of questions scheduled for deletion and of revealed answers.
 */
module QuizPage {
  import opened Base
  import opened Schema

  // ---------------------------------------------------------------------------
  // Option shuffle.
  // ---------------------------------------------------------------------------

  /** `perm` lists each of 0..n-1 exactly once: the shuffled order of the original option indices. */
  predicate IsPermutation(perm: seq<int>, n: nat) {
    |perm| == n &&
    (forall j :: 0 <= j < n ==> 0 <= perm[j] < n) &&
    (forall i, j :: 0 <= i < j < n ==> perm[i] != perm[j]) &&
    (forall v :: 0 <= v < n ==> v in perm)
  }

  /** `findIndex`: the first position holding x, or -1. */
  function FindIndex(perm: seq<int>, x: int): (k: int)
    ensures -1 <= k < |perm|
    ensures k == -1 <==> x !in perm
    ensures k >= 0 ==> perm[k] == x && x !in perm[..k]
  {
    if perm == [] then -1
    else if perm[0] == x then 0
    else
      var k := FindIndex(perm[1..], x);
      if k == -1 then -1
      else
        assert perm[..k + 1] == [perm[0]] + perm[1..][..k];
        k + 1
  }

  /** The options in shuffled order: position j holds the original option perm[j]. */
  function Permuted<T>(s: seq<T>, perm: seq<int>): (r: seq<T>)
    requires IsPermutation(perm, |s|)
    ensures |r| == |s|
  {
    seq(|perm|, j requires 0 <= j < |perm| => s[perm[j]])
  }

  /** One question after the shuffle: options reordered, `correctOption` moved along with its option. */
  function Shuffled(item: QuizItem, perm: seq<int>): QuizItem
    requires IsPermutation(perm, |item.options|)
  {
    item.(options := Permuted(item.options, perm), correctOption := FindIndex(perm, item.correctOption))
  }

  /** The first n-1 entries of a permutation of n, renumbered to skip its last entry: a permutation of n-1. */
  function Lowered(perm: seq<int>): (r: seq<int>)
    requires |perm| > 0
    ensures |r| == |perm| - 1
  {
    var k := perm[|perm| - 1];
    seq(|perm| - 1, j requires 0 <= j < |perm| - 1 => if perm[j] > k then perm[j] - 1 else perm[j])
  }

  lemma LoweredIsPermutation(perm: seq<int>, n: nat)
    requires n > 0 && IsPermutation(perm, n)
    ensures IsPermutation(Lowered(perm), n - 1)
  {
    var k := perm[n - 1];
    var low := Lowered(perm);
    forall j | 0 <= j < n - 1 ensures 0 <= low[j] < n - 1 {
      assert perm[j] != perm[n - 1];
    }
    forall v | 0 <= v < n - 1 ensures v in low {
      var v' := if v < k then v else v + 1;
      assert v' in perm;
      var j :| 0 <= j < n && perm[j] == v';
      assert j != n - 1;
      assert low[j] == v;
    }
  }

  lemma MultisetWithout<T>(s: seq<T>, k: nat)
    requires k < |s|
    ensures multiset(s) == multiset(s[..k] + s[k + 1..]) + multiset{s[k]}
  {
    assert s == s[..k] + [s[k]] + s[k + 1..];
  }

  /** Reordering by a permutation keeps every option, with its multiplicity. */
  lemma {:induction false} PermutedSameMultiset<T>(s: seq<T>, perm: seq<int>)
    requires IsPermutation(perm, |s|)
    ensures multiset(Permuted(s, perm)) == multiset(s)
    decreases |s|
  {
    if |s| == 0 {
      return;
    }
    var n := |s|;
    var k := perm[n - 1];
    var rest := s[..k] + s[k + 1..];
    LoweredIsPermutation(perm, n);
    PermutedSameMultiset(rest, Lowered(perm));
    var whole := Permuted(s, perm);
    assert Permuted(rest, Lowered(perm)) == whole[..n - 1] by {
      forall j | 0 <= j < n - 1 ensures Permuted(rest, Lowered(perm))[j] == whole[j] {
        assert perm[j] != k;
      }
    }
    assert whole == whole[..n - 1] + [s[k]];
    MultisetWithout(s, k);
  }

  /**
   * What the shuffle promises for one question: the options are a permutation of the
   * old ones; a valid correct index now points at the same option text; an index out
   * of range becomes -1; the stem and the snippet do not change.
   */
  lemma ShuffleKeepsTheAnswer(item: QuizItem, perm: seq<int>)
    requires IsPermutation(perm, |item.options|)
    ensures var r := Shuffled(item, perm);
            multiset(r.options) == multiset(item.options) &&
            r.stem == item.stem && r.sourceSnippet == item.sourceSnippet &&
            (0 <= item.correctOption < |item.options| ==>
               0 <= r.correctOption < |r.options| && r.options[r.correctOption] == item.options[item.correctOption]) &&
            (!(0 <= item.correctOption < |item.options|) ==> r.correctOption == -1)
  {
    PermutedSameMultiset(item.options, perm);
    var c := item.correctOption;
    if 0 <= c < |item.options| {
      assert c in perm;
    } else {
      assert c !in perm;
    }
  }

  /** `randomizeQuizOptions`: shuffle every question of the array in place, `perms[k]` being question k's order. */
  method RandomizeOptions(items: array<QuizItem>, perms: seq<seq<int>>)
    requires |perms| == items.Length
    requires forall k :: 0 <= k < items.Length ==> IsPermutation(perms[k], |items[k].options|)
    modifies items
    ensures forall k :: 0 <= k < items.Length ==>
              IsPermutation(perms[k], |old(items[k]).options|) && items[k] == Shuffled(old(items[k]), perms[k])
  {
    for k := 0 to items.Length
      invariant forall i :: 0 <= i < k ==> IsPermutation(perms[i], |old(items[i]).options|) && items[i] == Shuffled(old(items[i]), perms[i])
      invariant forall i :: k <= i < items.Length ==> items[i] == old(items[i])
    {
      items[k] := Shuffled(items[k], perms[k]);
    }
  }

  // ---------------------------------------------------------------------------
  // Answers and score.
  // ---------------------------------------------------------------------------

  /** The answer recorded for one question: the chosen option and whether it was right, or neither. */
  datatype QuizResponse = QuizResponse(selectedOption: Option<int>, isCorrect: Option<bool>)

  const Unanswered := QuizResponse(None, None)

  /** `new Array(n).fill({ selectedOption: null, isCorrect: null })`. */
  function UnansweredResponses(n: nat): (rs: seq<QuizResponse>)
    ensures |rs| == n && forall i :: 0 <= i < n ==> rs[i] == Unanswered
  {
    seq(n, _ => Unanswered)
  }

  /** `responses.filter(r => r.isCorrect)`: the responses marked correct, in order. */
  function CorrectResponses(rs: seq<QuizResponse>): (c: seq<QuizResponse>)
    ensures |c| <= |rs|
    ensures forall r :: r in c ==> r.isCorrect == Some(true)
    ensures multiset(c) <= multiset(rs)
    ensures forall r: QuizResponse {:trigger multiset(rs)[r]} :: r.isCorrect == Some(true) ==> multiset(c)[r] == multiset(rs)[r]
  {
    if rs == [] then []
    else
      var rest := CorrectResponses(rs[1..]);
      var c := (if rs[0].isCorrect == Some(true) then [rs[0]] else []) + rest;
      assert rs == [rs[0]] + rs[1..];
      assert multiset(rs) == multiset{rs[0]} + multiset(rs[1..]);
      c
  }

  /** The score shown on the results page: how many responses are correct. */
  function Score(rs: seq<QuizResponse>): (n: nat)
    ensures n <= |rs|
    ensures n == 0 <==> forall i :: 0 <= i < |rs| ==> rs[i].isCorrect != Some(true)
    ensures n == |rs| <==> forall i :: 0 <= i < |rs| ==> rs[i].isCorrect == Some(true)
  {
    NoneCorrect(rs);
    AllCorrect(rs);
    |CorrectResponses(rs)|
  }

  /** No response is kept exactly when none is correct. */
  lemma {:induction false} NoneCorrect(rs: seq<QuizResponse>)
    ensures |CorrectResponses(rs)| == 0 <==> forall i :: 0 <= i < |rs| ==> rs[i].isCorrect != Some(true)
  {
    if rs != [] {
      var rest := rs[1..];
      NoneCorrect(rest);
      assert |CorrectResponses(rs)| == (if rs[0].isCorrect == Some(true) then 1 else 0) + |CorrectResponses(rest)|;
      assert forall i :: 0 < i < |rs| ==> rs[i] == rest[i - 1];
    }
  }

  /** Every response is kept exactly when every one is correct. */
  lemma {:induction false} AllCorrect(rs: seq<QuizResponse>)
    ensures |CorrectResponses(rs)| == |rs| <==> forall i :: 0 <= i < |rs| ==> rs[i].isCorrect == Some(true)
  {
    if rs != [] {
      var rest := rs[1..];
      AllCorrect(rest);
      assert |CorrectResponses(rs)| == (if rs[0].isCorrect == Some(true) then 1 else 0) + |CorrectResponses(rest)|;
      assert forall i :: 0 < i < |rs| ==> rs[i] == rest[i - 1];
    }
  }

  /** 1 for a response marked correct, else 0. */
  function Hit(r: QuizResponse): nat {
    if r.isCorrect == Some(true) then 1 else 0
  }

  /** A fresh set of responses scores zero. */
  lemma {:induction false} UnansweredScoresZero(n: nat)
    ensures Score(UnansweredResponses(n)) == 0
  {
    if n > 0 {
      assert UnansweredResponses(n)[1..] == UnansweredResponses(n - 1);
      UnansweredScoresZero(n - 1);
    }
  }

  /** Replacing one response changes the score by the difference of the two responses alone. */
  lemma {:induction false} ScoreAfterAnswer(rs: seq<QuizResponse>, i: nat, r: QuizResponse)
    requires i < |rs|
    ensures Score(rs[i := r]) + Hit(rs[i]) == Score(rs) + Hit(r)
  {
    if i > 0 {
      assert rs[i := r][1..] == rs[1..][i - 1 := r];
      ScoreAfterAnswer(rs[1..], i - 1, r);
    }
  }

  // ---------------------------------------------------------------------------
  // Navigation through the search parameters.
  // ---------------------------------------------------------------------------

  /** The `q` parameter: missing or empty, a number as `parseInt` reads it, or text it reads as NaN. */
  datatype QParam = NoQ | QNumber(n: int) | QNotANumber

  /** The search parameters the page reacts to; `results` is "" when missing. */
  datatype Params = Params(q: QParam, results: string)

  const FirstQuestion := Params(QNumber(1), "")
  const ResultsPage := Params(NoQ, "true")

  /** `nextQuestion`: the 1-based number of the following question, or the results page after the last one. */
  function NextParams(currentQuestion: int, itemCount: int): Params {
    if currentQuestion < itemCount - 1 then Params(QNumber(currentQuestion + 2), "") else ResultsPage
  }

  /** What the URL-sync effect does for given parameters and a quiz of itemCount questions. */
  datatype SyncOutcome = ShowResults | ShowQuestion(index: int) | ResetToFirst | Unchanged

  function SyncDecision(p: Params, itemCount: int): (o: SyncOutcome)
    ensures o.ShowQuestion? ==> 0 <= o.index < itemCount
    ensures o == ShowResults <==> p.results == "true"
    ensures p.results != "true" && p.q.QNumber? && 1 <= p.q.n <= itemCount ==> o == ShowQuestion(p.q.n - 1)
    ensures o == Unchanged <==> p.results != "true" && p.q.NoQ?
    ensures p.results != "true" && (p.q.QNotANumber? || (p.q.QNumber? && !(1 <= p.q.n <= itemCount))) ==> o == ResetToFirst
  {
    if p.results == "true" then ShowResults
    else
      match p.q
      case NoQ => Unchanged
      case QNumber(m) => if 1 <= m <= itemCount then ShowQuestion(m - 1) else ResetToFirst
      case QNotANumber => ResetToFirst
  }

  /** Going to the next question and letting the URL sync run lands on the following question, or on the results. */
  lemma NextThenSync(currentQuestion: int, itemCount: int)
    requires 0 <= currentQuestion < itemCount
    ensures SyncDecision(NextParams(currentQuestion, itemCount), itemCount) ==
            if currentQuestion + 1 < itemCount then ShowQuestion(currentQuestion + 1) else ShowResults
  {
  }

  // ---------------------------------------------------------------------------
  // Deletion and reveal sets.
  // ---------------------------------------------------------------------------

  /** `toggleDeletion`: flip the membership of index and of nothing else. */
  function Toggled(s: set<int>, index: int): (r: set<int>)
    ensures index in r <==> index !in s
    ensures forall j :: j != index ==> (j in r <==> j in s)
  {
    if index in s then s - {index} else s + {index}
  }

  lemma ToggleTwiceRestores(s: set<int>, index: int)
    ensures Toggled(Toggled(s, index), index) == s
  {
  }

  /** `revealAnswer`: add index; nothing is ever removed. */
  function Revealed(s: set<int>, index: int): (r: set<int>)
    ensures index in r && s <= r && r <= s + {index}
  {
    s + {index}
  }

  lemma RevealIsIdempotent(s: set<int>, index: int)
    ensures Revealed(Revealed(s, index), index) == Revealed(s, index)
  {
  }

  // ---------------------------------------------------------------------------
  // The page's state.
  // ---------------------------------------------------------------------------

  class QuizView {
    /** Whether a quiz has been loaded (`quiz` is not null). */
    var loaded: bool
    /** The loaded quiz's questions, shuffled in place. */
    var items: array<QuizItem>
    var currentQuestion: int
    var responses: seq<QuizResponse>
    var showResults: bool
    var scheduledForDeletion: set<int>
    var revealedAnswers: set<int>
    var additionalInstructions: string
    /** The search parameters of the page's URL. */
    var params: Params

    /** One response per question once a quiz is loaded, and a question index that is never negative. */
    predicate Valid()
      reads this
    {
      0 <= currentQuestion && (loaded ==> |responses| == items.Length)
    }

    /** The page as first rendered, before the quiz arrives. */
    constructor (params: Params)
      ensures Valid() && !loaded && this.params == params
      ensures currentQuestion == 0 && responses == [] && !showResults
      ensures scheduledForDeletion == {} && revealedAnswers == {} && additionalInstructions == ""
    {
      loaded := false;
      items := new QuizItem[0];
      currentQuestion := 0;
      responses := [];
      showResults := false;
      scheduledForDeletion := {};
      revealedAnswers := {};
      additionalInstructions := "";
      this.params := params;
    }

    /** The score on the results page; it never exceeds the number of questions. */
    function ResultScore(): (s: nat)
      reads this
      requires Valid() && loaded
      ensures s <= items.Length
    {
      Score(responses)
    }

    /**
     * The successful end of `reloadQuiz`: shuffle the fetched questions, install them,
     * reset answers and both sets, and ask for question 1 when the URL names neither a
     * question nor the results.
     */
    method Reload(data: array<QuizItem>, perms: seq<seq<int>>)
      requires Valid()
      requires |perms| == data.Length
      requires forall k :: 0 <= k < data.Length ==> IsPermutation(perms[k], |data[k].options|)
      modifies this, data
      ensures Valid() && loaded && items == data
      ensures forall k :: 0 <= k < data.Length ==>
                IsPermutation(perms[k], |old(data[k]).options|) && data[k] == Shuffled(old(data[k]), perms[k])
      ensures responses == UnansweredResponses(data.Length)
      ensures scheduledForDeletion == {} && revealedAnswers == {} && additionalInstructions == ""
      ensures params == if old(params).q.NoQ? && old(params).results == "" then FirstQuestion else old(params)
      ensures currentQuestion == old(currentQuestion) && showResults == old(showResults)
    {
      RandomizeOptions(data, perms);
      loaded := true;
      items := data;
      responses := UnansweredResponses(data.Length);
      scheduledForDeletion := {};
      additionalInstructions := "";
      revealedAnswers := {};
      if params.q.NoQ? && params.results == "" {
        params := FirstQuestion;
      }
    }

    /** The URL-sync effect; it does nothing until a quiz is loaded. */
    method SyncWithUrl()
      requires Valid()
      modifies this`currentQuestion, this`showResults, this`params
      ensures Valid()
      ensures !loaded ==> currentQuestion == old(currentQuestion) && showResults == old(showResults) && params == old(params)
      ensures loaded ==>
                match SyncDecision(old(params), items.Length)
                case ShowResults =>
                  showResults && currentQuestion == old(currentQuestion) && params == old(params)
                case ShowQuestion(i) =>
                  !showResults && currentQuestion == i && params == old(params)
                case ResetToFirst =>
                  params == FirstQuestion && currentQuestion == old(currentQuestion) && showResults == old(showResults)
                case Unchanged =>
                  currentQuestion == old(currentQuestion) && showResults == old(showResults) && params == old(params)
      ensures currentQuestion != old(currentQuestion) ==> 0 <= currentQuestion < items.Length
    {
      if !loaded {
        return;
      }
      match SyncDecision(params, items.Length)
      case ShowResults =>
        showResults := true;
      case ShowQuestion(i) =>
        currentQuestion := i;
        showResults := false;
      case ResetToFirst =>
        params := FirstQuestion;
      case Unchanged =>
    }

    /**
     * `handleOptionSelect`: ignored before loading and on the results page; otherwise
     * records the choice for the current question only. With the current question out
     * of range, reading its correct option throws (`threw`) and nothing changes.
     */
    method SelectOption(optionIndex: int) returns (threw: bool)
      requires Valid()
      modifies this`responses
      ensures Valid()
      ensures !loaded || showResults ==> !threw && responses == old(responses)
      ensures loaded && !showResults && currentQuestion >= items.Length ==> threw && responses == old(responses)
      ensures loaded && !showResults && currentQuestion < items.Length ==>
                !threw &&
                responses == old(responses)[currentQuestion :=
                  QuizResponse(Some(optionIndex), Some(optionIndex == items[currentQuestion].correctOption))]
    {
      threw := false;
      if !loaded || showResults {
        return;
      }
      if currentQuestion >= items.Length {
        threw := true;
        return;
      }
      var isCorrect := optionIndex == items[currentQuestion].correctOption;
      responses := responses[currentQuestion := QuizResponse(Some(optionIndex), Some(isCorrect))];
    }

    /** `nextQuestion` (only reachable once a quiz is shown). */
    method NextQuestion()
      requires Valid() && loaded
      modifies this`params
      ensures Valid()
      ensures params == NextParams(currentQuestion, items.Length)
    {
      params := NextParams(currentQuestion, items.Length);
    }

    /** `restartQuiz`: reshuffle in place, reset answers, sets and instructions, and go to question 1. */
    method Restart(perms: seq<seq<int>>)
      requires Valid() && loaded
      requires |perms| == items.Length
      requires forall k :: 0 <= k < items.Length ==> IsPermutation(perms[k], |items[k].options|)
      modifies this`responses, this`scheduledForDeletion, this`revealedAnswers, this`additionalInstructions, this`params, items
      ensures Valid()
      ensures forall k :: 0 <= k < items.Length ==>
                IsPermutation(perms[k], |old(items[k]).options|) && items[k] == Shuffled(old(items[k]), perms[k])
      ensures responses == UnansweredResponses(items.Length)
      ensures scheduledForDeletion == {} && revealedAnswers == {} && additionalInstructions == ""
      ensures params == FirstQuestion
    {
      RandomizeOptions(items, perms);
      responses := UnansweredResponses(items.Length);
      scheduledForDeletion := {};
      additionalInstructions := "";
      revealedAnswers := {};
      params := FirstQuestion;
    }

    method ToggleDeletion(index: int)
      modifies this`scheduledForDeletion
      ensures scheduledForDeletion == Toggled(old(scheduledForDeletion), index)
    {
      scheduledForDeletion := Toggled(scheduledForDeletion, index);
    }

    method RevealAnswer(index: int)
      modifies this`revealedAnswers
      ensures revealedAnswers == Revealed(old(revealedAnswers), index)
    {
      revealedAnswers := Revealed(revealedAnswers, index);
    }
  }
}
