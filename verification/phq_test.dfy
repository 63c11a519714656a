/** The PHQ-9 questionnaire component: its state (answers, the score shown
    after submission, the feedback text), the two user actions (picking an
    option, pressing "Submit and Calculate Score"), the guard that decides
    whether a result is posted for saving, and what the result panel shows. */
module PhqTest {
  import opened Answers
  import opened Banding

  datatype Option<T> = None | Some(value: T)

  /** Component state. `score` stays `None` until the first submission. */
  datatype Form = Form(answers: seq<int>, score: Option<int>, message: string)

  /** Body of the request that stores one result. */
  datatype PostBody = PostBody(username: string, userId: string, score: int)

  /** Notification raised by a save attempt. */
  datatype Toast = MissingUser | Saved | SaveFailed

  /** What a save attempt does: the request it posts, if any, and the toast. */
  datatype SaveEffect = SaveEffect(post: Option<PostBody>, toast: Toast)

  /** The result of pressing submit: the new state and the save attempt. */
  datatype Submission = Submission(form: Form, save: SaveEffect)

  /** What the result panel shows; `warning` is the warning text style. */
  datatype ResultView = ResultView(score: int, message: string, warning: bool, helplines: bool)

  /** One user interaction with the form. */
  datatype Event =
    | Answer(index: int, value: int)
    | Submit(username: Option<string>, userId: Option<string>, postOk: bool)

  /** A value read from browser storage counts as present when it exists
      and is not the empty string (both null and "" are falsy). */
  predicate Present(s: Option<string>) {
    s.Some? && |s.value| > 0
  }

  /** The state the component mounts with. */
  function InitialForm(): (f: Form)
    ensures Valid(f.answers)
    ensures Total(f.answers) == 0
    ensures f.score.None? && f.message == ""
  {
    InitialTotalIsZero();
    Form(Initial(), None, "")
  }

  /** Picking option `v` for question `i`: only the answer vector changes;
      a score already on screen is left as it was until the next submit. */
  function ChangeAnswer(f: Form, i: int, v: int): (g: Form)
    requires 0 <= i < |f.answers|
    ensures |g.answers| == |f.answers| && g.answers[i] == v
    ensures forall j :: 0 <= j < |f.answers| && j != i ==> g.answers[j] == f.answers[j]
    ensures g.score == f.score && g.message == f.message
    ensures Total(g.answers) == Total(f.answers) - f.answers[i] + v
    ensures Valid(f.answers) && IsOption(v) ==> Valid(g.answers)
  {
    TotalUpdate(f.answers, i, v);
    f.(answers := UpdateAnswer(f.answers, i, v))
  }

  /** Falsy stored values: a missing key (null) or the empty string. */
  predicate Falsy(s: Option<string>) {
    s == None || s == Some("")
  }

  /** The save guard: a result is posted only when both the user name and
      the user id are present, i.e. exactly when neither one is falsy. */
  function ShouldSave(username: Option<string>, userId: Option<string>): (save: bool)
    ensures save <==> !(Falsy(username) || Falsy(userId))
  {
    Present(username) && Present(userId)
  }

  /** A save attempt for `score`. Without the user's identity it posts
      nothing and reports the missing user; otherwise it posts the identity
      with the score, and `postOk` (the network's answer) picks the toast. */
  function SaveTestResult(username: Option<string>, userId: Option<string>, score: int, postOk: bool): (e: SaveEffect)
    ensures e.post.Some? <==> ShouldSave(username, userId)
    ensures e.toast == MissingUser <==> e.post.None?
    ensures e.toast == Saved <==> e.post.Some? && postOk
    ensures e.post.Some? ==>
              && e.post.value.score == score
              && e.post.value.username == username.value
              && e.post.value.userId == userId.value
              && |e.post.value.username| > 0 && |e.post.value.userId| > 0
  {
    if !Present(username) || !Present(userId) then
      SaveEffect(None, MissingUser)
    else
      SaveEffect(Some(PostBody(username.value, userId.value, score)),
                 if postOk then Saved else SaveFailed)
  }

  /** Pressing submit: total the answers, show the band's feedback text,
      then attempt to save that same total. */
  function CalculateScore(f: Form, username: Option<string>, userId: Option<string>, postOk: bool): (r: Submission)
    ensures r.form.answers == f.answers
    ensures r.form.score.Some?
    ensures r.form.message == Message(Classify(r.form.score.value))
    ensures r.save.post.Some? ==> r.save.post.value.score == r.form.score.value
    ensures r.save.post.Some? <==> ShouldSave(username, userId)
    ensures Valid(f.answers) ==> 0 <= r.form.score.value <= MaxTotal
    ensures r.form.score == Some(Total(f.answers))
    ensures r.save == SaveTestResult(username, userId, Total(f.answers), postOk)
  {
    var total := Total(f.answers);
    ValidTotalRange(f.answers);
    Submission(Form(f.answers, Some(total), Message(Classify(total))),
               SaveTestResult(username, userId, total, postOk))
  }

  /** The result panel: hidden before the first submission, otherwise the
      score, its feedback text, and the warning style and helplines
      exactly when the score reaches the helpline threshold. */
  function View(f: Form): (v: Option<ResultView>)
    ensures v.None? <==> f.score.None?
    ensures v.Some? ==> v.value.score == f.score.value && v.value.message == f.message
    ensures v.Some? ==> v.value.warning == v.value.helplines
    ensures v.Some? ==> (v.value.helplines <==> v.value.score >= HelplineThreshold)
  {
    match f.score
    case None => None
    case Some(s) => Some(ResultView(s, f.message, ShowHelplines(s), ShowHelplines(s)))
  }

  /** One interaction applied to the state (the save effect is dropped);
      interactions the rendered form produces keep the state consistent. */
  function Step(f: Form, e: Event): (g: Form)
    requires e.Answer? ==> 0 <= e.index < |f.answers|
    ensures Consistent(f) && UiEvent(e) ==> Consistent(g)
  {
    match e
    case Answer(i, v) => ChangeAnswer(f, i, v)
    case Submit(u, id, ok) => CalculateScore(f, u, id, ok).form
  }

  /** Interactions the rendered form can produce: an option of one of the
      nine questions, or a submit. */
  predicate UiEvent(e: Event) {
    e.Answer? ==> 0 <= e.index < QuestionCount && IsOption(e.value)
  }

  /** The state after a sequence of interactions, starting from mount;
      every state reachable through the rendered form is consistent. */
  function Run(events: seq<Event>): (f: Form)
    requires forall k :: 0 <= k < |events| ==> UiEvent(events[k])
    ensures Consistent(f)
  {
    if |events| == 0 then InitialForm()
    else
      var earlier := events[..|events| - 1];
      var last := events[|events| - 1];
      assert forall k :: 0 <= k < |earlier| ==> earlier[k] == events[k];
      assert UiEvent(last);
      Step(Run(earlier), last)
  }

  /** State invariant: nine option values; no feedback text before the first
      submission; afterwards a score in 0..MaxTotal with its band's feedback text. */
  predicate Consistent(f: Form) {
    && Valid(f.answers)
    && (f.score.None? ==> f.message == "")
    && (f.score.Some? ==> 0 <= f.score.value <= MaxTotal && f.message == Message(Classify(f.score.value)))
  }

  /** The result shown after a submission warns and lists the helplines
      exactly when the score falls in one of the two most severe bands. */
  lemma SubmittedViewMatchesBand(f: Form, username: Option<string>, userId: Option<string>, postOk: bool)
    ensures var r := CalculateScore(f, username, userId, postOk);
            var v := View(r.form);
            && v.Some?
            && v.value.score == Total(f.answers)
            && (v.value.helplines <==> Classify(v.value.score) in {ModeratelySevere, Severe})
  {
    HelplinesIffSevere(Total(f.answers));
  }

  /** Submitting the untouched form shows 0, the Minimal feedback text and
      no helplines. */
  lemma UntouchedSubmitIsMinimal(username: Option<string>, userId: Option<string>, postOk: bool)
    ensures var r := CalculateScore(InitialForm(), username, userId, postOk);
            && r.form.score == Some(0)
            && r.form.message == Message(Minimal)
            && !View(r.form).value.helplines
  {
  }

  /** What is shown does not depend on who is logged in or whether saving
      succeeds: the save attempt only adds a toast. */
  lemma DisplayIgnoresSave(f: Form, u1: Option<string>, i1: Option<string>, ok1: bool,
                           u2: Option<string>, i2: Option<string>, ok2: bool)
    ensures CalculateScore(f, u1, i1, ok1).form == CalculateScore(f, u2, i2, ok2).form
  {
  }

  /** Submitting again without changing an answer changes nothing on screen. */
  lemma ResubmitIsIdempotent(f: Form, username: Option<string>, userId: Option<string>, postOk: bool)
    ensures var g := CalculateScore(f, username, userId, postOk).form;
            CalculateScore(g, username, userId, postOk).form == g
  {
  }
}
