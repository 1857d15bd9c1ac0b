/**
  `QuizService`: the header set every quiz request carries, the choice
  between the shared-quiz and the per-book URL families, and the choice of
  HTTP method in the teacher operations. Each operation is modelled as the
  request it hands to the transport, or the error resolving its prefix threw.
 */
module Quiz {
  import opened Common
  import opened Http

  /** The quiz service's environment table. */
  function DiscoverUrlPrefix(environment: string, baseDomain: string): (r: Result<string, Error>)
    ensures r.Success? <==> environment in {"production", "development", "local", "testing", "test"}
    ensures environment == "production" ==> r.value == "https://api.iquiz.dk/api"
    ensures environment in {"development", "local", "testing"} ==> r.value == "https://galecms.test.tibalo.dk/api"
    ensures environment == "test" ==> r.value == "https://localhost:3010/galeapi/api"
    ensures r.Failure? ==> r.error == UnknownEnvironment(environment)
  {
    match environment
    case "production" => Success("https://api.iquiz.dk/api")
    case "development" => Success("https://galecms.test.tibalo.dk/api")
    case "local" => Success("https://galecms.test.tibalo.dk/api")
    case "testing" => Success("https://galecms.test.tibalo.dk/api")
    case "test" => Success("https://localhost:3010/galeapi/api")
    case _ => Failure(UnknownEnvironment(environment))
  }

  /** The base domain plays no part in where the quiz service lives. */
  lemma PrefixIgnoresBaseDomain(environment: string, d1: string, d2: string)
    ensures DiscoverUrlPrefix(environment, d1) == DiscoverUrlPrefix(environment, d2)
  {
  }

  // -----------------------------------------------------------------------
  // Headers
  // -----------------------------------------------------------------------

  /** The values the extra entries give a header name, in entry order. */
  function EntryValues(entries: seq<(string, string)>, name: string): (vs: seq<string>)
    ensures |vs| <= |entries|
  {
    if |entries| == 0 then []
    else (if entries[0].0 == name then [entries[0].1] else []) + EntryValues(entries[1..], name)
  }

  /** The `for ... of Object.entries(extra)` loop: each entry is appended in turn. */
  function AppendAll(h: Headers, entries: seq<(string, string)>): (r: Headers)
    ensures forall n :: Values(r, n) == Values(h, n) + EntryValues(entries, n)
    decreases |entries|
  {
    if |entries| == 0 then h
    else AppendAll(AppendHeader(h, entries[0].0, entries[0].1), entries[1..])
  }

  /**
    `makeHeaders`: a JSON content type first, then every extra entry
    appended after it. Missing extras are the same as none.
   */
  function MakeHeaders(extra: Option<seq<(string, string)>>): (h: Headers)
    ensures forall n :: Values(h, n) == (if n == ContentType then [ApplicationJson] else []) + EntryValues(Coalesce(extra, []), n)
  {
    AppendAll(AppendHeader(EmptyHeaders, ContentType, ApplicationJson), Coalesce(extra, []))
  }

  lemma {:induction false} EntryValuesContains(entries: seq<(string, string)>, i: nat)
    requires i < |entries|
    ensures entries[i].1 in EntryValues(entries, entries[i].0)
    decreases i
  {
    if i > 0 {
      EntryValuesContains(entries[1..], i - 1);
      assert entries[1..][i - 1] == entries[i];
    }
  }

  /** Nothing is dropped: the content type leads, and every extra value is sent under its name. */
  lemma MakeHeadersKeepsEverything(extra: seq<(string, string)>)
    ensures Values(MakeHeaders(Some(extra)), ContentType)[0] == ApplicationJson
    ensures forall i :: 0 <= i < |extra| ==> extra[i].1 in Values(MakeHeaders(Some(extra)), extra[i].0)
  {
    forall i | 0 <= i < |extra| ensures extra[i].1 in Values(MakeHeaders(Some(extra)), extra[i].0) {
      EntryValuesContains(extra, i);
    }
  }

  // -----------------------------------------------------------------------
  // Paths
  // -----------------------------------------------------------------------

  lemma Path4(a: string, b: string, c: string, d: string)
    ensures JoinPath([a, b, c, d]) == "/" + a + "/" + b + ("/" + c + "/" + d)
  {
    FixedPath2(a, b);
    FixedPath2(c, d);
    JoinPathAppend([a, b], [c, d]);
    assert [a, b] + [c, d] == [a, b, c, d];
  }

  /** `/shared/student/{id}` or `/isbn/{isbn}/{middle}/{id}`. */
  function StudentSegments(shared: bool, isbn: string, middle: string, id: string): seq<string> {
    if shared then ["shared", "student", id] else ["isbn", isbn, middle, id]
  }

  function StudentPath(shared: bool, isbn: string, middle: string, id: string): (path: string)
    ensures path == JoinPath(StudentSegments(shared, isbn, middle, id))
  {
    if shared then
      FixedPath3("shared", "student", id);
      "/shared/student/" + id
    else
      Path4("isbn", isbn, middle, id);
      "/isbn/" + isbn + ("/" + middle + "/" + id)
  }

  /** Shared and per-book paths never coincide: they differ in their first segment. */
  lemma SharedNeverOwn(isbn: string, middle: string, id: string, isbn2: string, middle2: string, id2: string)
    ensures StudentPath(true, isbn, middle, id) != StudentPath(false, isbn2, middle2, id2)
  {
    var a := StudentPath(true, isbn, middle, id);
    var b := StudentPath(false, isbn2, middle2, id2);
    assert a[1] == 's';
    assert b[1] == 'i';
  }

  function QuizPrefix(c: Config): Result<string, Error> {
    GetUrlPrefix(c, DiscoverUrlPrefix)
  }

  // -----------------------------------------------------------------------
  // Student operations: the `shared` switch
  // -----------------------------------------------------------------------

  /** `startQuiz`: POST `{}` to `/shared/student/{quiz}` or `/isbn/{isbn}/quiz/{quiz}`. */
  function StartQuiz(c: Config, isbn: string, quiz: int, shared: bool, extra: Option<seq<(string, string)>>): (r: Result<Request, Error>)
    ensures QuizPrefix(c).Failure? ==> r == Failure(QuizPrefix(c).error)
    ensures r.Success? ==>
      && r.value.verb == POST && r.value.headers == MakeHeaders(extra) && r.value.body == Some(JObj([]))
      && r.value.url == QuizPrefix(c).value + JoinPath(StudentSegments(shared, isbn, "quiz", IntToString(quiz)))
  {
    var prefix :- QuizPrefix(c);
    Success(Request(POST, prefix + StudentPath(shared, isbn, "quiz", IntToString(quiz)), MakeHeaders(extra), Some(JObj([]))))
  }

  /** `getProblems`: GET `/shared/student/{id}` or `/isbn/{isbn}/student/{id}`. */
  function GetProblems(c: Config, isbn: string, quizUnitId: int, shared: bool, extra: Option<seq<(string, string)>>): (r: Result<Request, Error>)
    ensures QuizPrefix(c).Failure? ==> r == Failure(QuizPrefix(c).error)
    ensures r.Success? ==>
      && r.value.verb == GET && r.value.headers == MakeHeaders(extra) && r.value.body.None?
      && r.value.url == QuizPrefix(c).value + JoinPath(StudentSegments(shared, isbn, "student", IntToString(quizUnitId)))
  {
    var prefix :- QuizPrefix(c);
    Success(Request(GET, prefix + StudentPath(shared, isbn, "student", IntToString(quizUnitId)), MakeHeaders(extra), None))
  }

  /** `saveAnswer`: PUT the answer to the same URL `getProblems` reads. */
  function SaveAnswer(c: Config, isbn: string, quizUnitId: int, answer: Json, shared: bool, extra: Option<seq<(string, string)>>): (r: Result<Request, Error>)
    ensures QuizPrefix(c).Failure? ==> r == Failure(QuizPrefix(c).error)
    ensures r.Success? ==>
      && r.value.verb == PUT && r.value.headers == MakeHeaders(extra) && r.value.body == Some(answer)
      && r.value.url == QuizPrefix(c).value + JoinPath(StudentSegments(shared, isbn, "student", IntToString(quizUnitId)))
  {
    var prefix :- QuizPrefix(c);
    Success(Request(PUT, prefix + StudentPath(shared, isbn, "student", IntToString(quizUnitId)), MakeHeaders(extra), Some(answer)))
  }

  /** `finishQuiz`: POST `{}`; only the shared URL gains `/finish`. */
  function FinishQuiz(c: Config, isbn: string, quizUnitId: int, shared: bool, extra: Option<seq<(string, string)>>): (r: Result<Request, Error>)
    ensures QuizPrefix(c).Failure? ==> r == Failure(QuizPrefix(c).error)
    ensures r.Success? ==>
      && r.value.verb == POST && r.value.headers == MakeHeaders(extra) && r.value.body == Some(JObj([]))
      && r.value.url == QuizPrefix(c).value
           + JoinPath(StudentSegments(shared, isbn, "student", IntToString(quizUnitId)) + (if shared then ["finish"] else []))
  {
    var prefix :- QuizPrefix(c);
    var id := IntToString(quizUnitId);
    var path :=
      if shared then
        JoinPathSnoc(StudentSegments(true, isbn, "student", id), "finish");
        StudentPath(true, isbn, "student", id) + "/finish"
      else
        assert StudentSegments(false, isbn, "student", id) + [] == StudentSegments(false, isbn, "student", id);
        StudentPath(false, isbn, "student", id);
    Success(Request(POST, prefix + path, MakeHeaders(extra), Some(JObj([]))))
  }

  /** The per-book finish posts to the very URL answers are saved to; the shared one does not. */
  lemma FinishSharesUrlOnlyWhenOwn(c: Config, isbn: string, quizUnitId: int, answer: Json, extra: Option<seq<(string, string)>>)
    requires QuizPrefix(c).Success?
    ensures FinishQuiz(c, isbn, quizUnitId, false, extra).value.url == SaveAnswer(c, isbn, quizUnitId, answer, false, extra).value.url
    ensures FinishQuiz(c, isbn, quizUnitId, true, extra).value.url == SaveAnswer(c, isbn, quizUnitId, answer, true, extra).value.url + "/finish"
  {
    var segs := StudentSegments(true, isbn, "student", IntToString(quizUnitId));
    JoinPathSnoc(segs, "finish");
    assert segs + [] == segs;
  }

  /** Reading problems and saving answers address one URL for the same arguments. */
  lemma ProblemsAndAnswersShareUrl(c: Config, isbn: string, quizUnitId: int, answer: Json, shared: bool, extra: Option<seq<(string, string)>>)
    requires QuizPrefix(c).Success?
    ensures GetProblems(c, isbn, quizUnitId, shared, extra).value.url == SaveAnswer(c, isbn, quizUnitId, answer, shared, extra).value.url
  {
  }

  /** The two result paths: `/shared/student/{id}/result` and `/isbn/{isbn}/student/overview/{id}`. */
  function ResultSegments(shared: bool, isbn: string, id: string): seq<string> {
    if shared then ["shared", "student", id, "result"] else ["isbn", isbn, "student", "overview", id]
  }

  function ResultPath(shared: bool, isbn: string, id: string): (path: string)
    ensures path == JoinPath(ResultSegments(shared, isbn, id))
  {
    if shared then
      Path4("shared", "student", id, "result");
      "/shared/student/" + id + "/result"
    else
      OverviewLiteral(isbn, id);
      "/isbn/" + isbn + ("/student/overview/" + id)
  }

  lemma OverviewLiteral(isbn: string, id: string)
    ensures "/isbn/" + isbn + ("/student/overview/" + id) == JoinPath(["isbn", isbn, "student", "overview", id])
  {
    FixedPath2("isbn", isbn);
    FixedPath3("student", "overview", id);
    JoinPathAppend(["isbn", isbn], ["student", "overview", id]);
    assert ["isbn", isbn] + ["student", "overview", id] == ["isbn", isbn, "student", "overview", id];
  }

  /** `getResults`. */
  function GetResults(c: Config, isbn: string, quizUnitId: int, shared: bool, extra: Option<seq<(string, string)>>): (r: Result<Request, Error>)
    ensures QuizPrefix(c).Failure? ==> r == Failure(QuizPrefix(c).error)
    ensures r.Success? ==>
      && r.value.verb == GET && r.value.headers == MakeHeaders(extra) && r.value.body.None?
      && r.value.url == QuizPrefix(c).value + JoinPath(ResultSegments(shared, isbn, IntToString(quizUnitId)))
  {
    var prefix :- QuizPrefix(c);
    Success(Request(GET, prefix + ResultPath(shared, isbn, IntToString(quizUnitId)), MakeHeaders(extra), None))
  }

  /** The shared switch is visible to the server: the two URL families are told apart by their first segment. */
  lemma SharedSwitchIsVisible(c: Config, isbn: string, quizUnitId: int, extra: Option<seq<(string, string)>>)
    requires QuizPrefix(c).Success?
    ensures GetProblems(c, isbn, quizUnitId, true, extra).value.url != GetProblems(c, isbn, quizUnitId, false, extra).value.url
    ensures GetResults(c, isbn, quizUnitId, true, extra).value.url != GetResults(c, isbn, quizUnitId, false, extra).value.url
  {
    var prefix := QuizPrefix(c).value;
    var id := IntToString(quizUnitId);
    SharedNeverOwn(isbn, "student", id, isbn, "student", id);
    var a := StudentPath(true, isbn, "student", id);
    var b := StudentPath(false, isbn, "student", id);
    assert (prefix + a)[|prefix|..] == a;
    assert (prefix + b)[|prefix|..] == b;
    var ra := ResultPath(true, isbn, id);
    var rb := ResultPath(false, isbn, id);
    assert ra[1] == 's' && rb[1] == 'i';
    assert (prefix + ra)[|prefix|..] == ra;
    assert (prefix + rb)[|prefix|..] == rb;
  }

  // -----------------------------------------------------------------------
  // Teacher operations: method switches
  // -----------------------------------------------------------------------

  /** `/shared/quiz/{id}`: the address of a shared quiz session. */
  function QuizPath(id: string): (path: string)
    ensures path == JoinPath(["shared", "quiz", id])
  {
    FixedPath3("shared", "quiz", id);
    "/shared/quiz/" + id
  }

  /** `copyEditSharedQuiz`: one URL and one body; `edit` PUTs, anything else POSTs. */
  function CopyEditSharedQuiz(c: Config, quizSessionId: int, quizData: Json, action: string, extra: Option<seq<(string, string)>>): (r: Result<Request, Error>)
    ensures QuizPrefix(c).Failure? ==> r == Failure(QuizPrefix(c).error)
    ensures r.Success? ==>
      && (r.value.verb == PUT <==> action == "edit")
      && (r.value.verb == POST <==> action != "edit")
      && r.value.headers == MakeHeaders(extra) && r.value.body == Some(quizData)
      && r.value.url == QuizPrefix(c).value + JoinPath(["shared", "quiz", IntToString(quizSessionId)])
  {
    var prefix :- QuizPrefix(c);
    var verb := if action == "edit" then PUT else POST;
    Success(Request(verb, prefix + QuizPath(IntToString(quizSessionId)), MakeHeaders(extra), Some(quizData)))
  }

  /** Editing and copying differ in nothing but the method. */
  lemma CopyAndEditDifferOnlyInMethod(c: Config, quizSessionId: int, quizData: Json, extra: Option<seq<(string, string)>>)
    requires QuizPrefix(c).Success?
    ensures CopyEditSharedQuiz(c, quizSessionId, quizData, "edit", extra).value
         == CopyEditSharedQuiz(c, quizSessionId, quizData, "copy", extra).value.(verb := PUT)
  {
  }

  lemma QuestionLiteral(s: string, q: string)
    ensures "/shared/teacher/quiz/" + s + "/question/" + q == JoinPath(["shared", "teacher", "quiz", s, "question", q])
  {
    var head := ["shared", "teacher", "quiz"];
    FixedPath3("shared", "teacher", "quiz");
    assert JoinPath(head) == "/shared/teacher/quiz";
    JoinPathSnoc(head, s);
    assert head + [s] == ["shared", "teacher", "quiz", s];
    assert JoinPath(["shared", "teacher", "quiz", s]) == "/shared/teacher/quiz/" + s;
    FixedPath2("question", q);
    assert JoinPath(["question", q]) == "/question/" + q;
    JoinPathAppend(["shared", "teacher", "quiz", s], ["question", q]);
    assert ["shared", "teacher", "quiz", s] + ["question", q] == ["shared", "teacher", "quiz", s, "question", q];
  }

  /**
    `activateDeactivateQuestion`: activating PATCHes with a null body,
    deactivating DELETEs the same URL.
   */
  function ActivateDeactivateQuestion(c: Config, quizSessionId: string, questionId: int, activate: bool, extra: Option<seq<(string, string)>>): (r: Result<Request, Error>)
    ensures QuizPrefix(c).Failure? ==> r == Failure(QuizPrefix(c).error)
    ensures r.Success? ==>
      && (r.value.verb == PATCH <==> activate)
      && (r.value.verb == DELETE <==> !activate)
      && r.value.headers == MakeHeaders(extra) && r.value.body.None?
      && r.value.url == QuizPrefix(c).value + JoinPath(["shared", "teacher", "quiz", quizSessionId, "question", IntToString(questionId)])
  {
    var prefix :- QuizPrefix(c);
    QuestionLiteral(quizSessionId, IntToString(questionId));
    var url := prefix + ("/shared/teacher/quiz/" + quizSessionId + "/question/" + IntToString(questionId));
    Success(Request(if activate then PATCH else DELETE, url, MakeHeaders(extra), None))
  }

  /** `toggleArchiveQuiz`: archiving DELETEs, un-archiving PATCHes with a null body. */
  function ToggleArchiveQuiz(c: Config, quizSessionId: string, archive: bool, extra: Option<seq<(string, string)>>): (r: Result<Request, Error>)
    ensures QuizPrefix(c).Failure? ==> r == Failure(QuizPrefix(c).error)
    ensures r.Success? ==>
      && (r.value.verb == DELETE <==> archive)
      && (r.value.verb == PATCH <==> !archive)
      && r.value.headers == MakeHeaders(extra) && r.value.body.None?
      && r.value.url == QuizPrefix(c).value + JoinPath(["shared", "quiz", quizSessionId])
  {
    var prefix :- QuizPrefix(c);
    Success(Request(if archive then DELETE else PATCH, prefix + QuizPath(quizSessionId), MakeHeaders(extra), None))
  }

  /** The two boolean switches map the same flag value to opposite methods. */
  lemma SwitchesAreOpposite(c: Config, quizSessionId: string, questionId: int, flag: bool, extra: Option<seq<(string, string)>>)
    requires QuizPrefix(c).Success?
    ensures ActivateDeactivateQuestion(c, quizSessionId, questionId, flag, extra).value.verb
         != ToggleArchiveQuiz(c, quizSessionId, flag, extra).value.verb
  {
  }

  /** Archiving addresses the quiz at the very URL edits and copies go to. */
  lemma ArchiveAddressesEditedQuiz(c: Config, quizSessionId: int, quizData: Json, action: string, archive: bool, extra: Option<seq<(string, string)>>)
    requires QuizPrefix(c).Success?
    ensures ToggleArchiveQuiz(c, IntToString(quizSessionId), archive, extra).value.url
         == CopyEditSharedQuiz(c, quizSessionId, quizData, action, extra).value.url
  {
  }
}
