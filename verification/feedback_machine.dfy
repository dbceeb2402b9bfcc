/** The submit handler read as a state machine over phases: idle, fetching the
    upload target, uploading, submitting, then done or failed. Each step
    consults at most one outcome and issues at most one request.
    `RunAgreesWithSubmit` proves that its complete runs agree with
    `FeedbackForm.Submit`. */
module FeedbackMachine {
  import opened Wrappers
  import opened FeedbackForm

  datatype Phase =
    | Idle
    | FetchingTarget(file: File)
    | Uploading(file: File, target: UploadTarget)
    | Submitting(key: Option<string>)
    | Done(sentiment: string)
    | Failed(error: HttpError)

  /** The current phase, the form state and the requests issued so far. */
  datatype Machine = Machine(phase: Phase, form: FormState, sent: seq<Request>)

  predicate Terminal(p: Phase) {
    p.Done? || p.Failed?
  }

  /** One transition. */
  function Step(m: Machine, net: Responses): (m': Machine)
    ensures Terminal(m.phase) ==> m' == m
    ensures |m.sent| <= |m'.sent| <= |m.sent| + 1 && m'.sent[..|m.sent|] == m.sent
    ensures !m.phase.Done? && m'.phase.Done? ==>
      m'.form.feedbackText == "" && m'.form.screenshot.None? && m'.form.screenshotPreview.None?
    ensures m.phase.Idle? ==> m'.form.loading && m'.sent == m.sent
    ensures !m.phase.Idle? ==> !m'.phase.Idle? && m'.form.loading == m.form.loading
    ensures !m.phase.Failed? && m'.phase.Failed? ==> m'.form == m.form
  {
    match m.phase
    case Idle =>
      var busy := m.form.(loading := true);
      if m.form.screenshot.Some? then Machine(FetchingTarget(m.form.screenshot.value), busy, m.sent)
      else Machine(Submitting(None), busy, m.sent)
    case FetchingTarget(f) =>
      var sent := m.sent + [GetUploadTarget(UploadUrlApi)];
      if net.target.Ok? then Machine(Uploading(f, net.target.data), m.form, sent)
      else Machine(Failed(net.target.error), m.form, sent)
    case Uploading(f, t) =>
      var sent := m.sent + [PutScreenshot(t.uploadURL, ContentTypeOf(f), f)];
      if net.upload.Ok? then Machine(Submitting(Some(t.key)), m.form, sent)
      else Machine(Failed(net.upload.error), m.form, sent)
    case Submitting(key) =>
      var sent := m.sent + [PostFeedback(FeedbackApi, m.form.feedbackText, key)];
      if net.post.Ok? then
        Machine(Done(net.post.data), m.form.(feedbackText := "", screenshot := None, screenshotPreview := None), sent)
      else Machine(Failed(net.post.error), m.form, sent)
    case Done(_) => m
    case Failed(_) => m
  }

  /** At most `fuel` transitions, stopping at a terminal phase. */
  function Run(m: Machine, net: Responses, fuel: nat): Machine
    decreases fuel
  {
    if fuel == 0 || Terminal(m.phase) then m else Run(Step(m, net), net, fuel - 1)
  }

  /** Four transitions reach a terminal phase from any starting form. */
  const MaxSteps := 4

  /** The form once `loading` has been cleared in the handler's `finally`. */
  function Settle(m: Machine): FormState {
    m.form.(loading := false)
  }

  /** The toast a terminal phase shows. */
  function ToastOf(p: Phase): Toast
    requires Terminal(p)
  {
    match p
    case Done(sentiment) => Toast(SuccessTitle, SentimentPrefix + sentiment, false)
    case Failed(e) => Toast(ErrorTitle, ErrorDescription(e), true)
  }

  /** A run only ever appends requests: nothing issued is withdrawn or
      reordered, and a terminal phase issues nothing more. */
  lemma {:induction false} RunOnlyAppends(m: Machine, net: Responses, fuel: nat)
    ensures var m' := Run(m, net, fuel);
            |m.sent| <= |m'.sent| && m'.sent[..|m.sent|] == m.sent
    ensures Terminal(m.phase) ==> Run(m, net, fuel) == m
    decreases fuel
  {
    if fuel > 0 && !Terminal(m.phase) {
      var n := Step(m, net);
      RunOnlyAppends(n, net, fuel - 1);
      var m' := Run(n, net, fuel - 1);
      assert m'.sent[..|m.sent|] == m'.sent[..|n.sent|][..|m.sent|];
    }
  }

  /** Once a run has left Idle, `loading` stays set. */
  lemma {:induction false} RunKeepsLoading(m: Machine, net: Responses, fuel: nat)
    requires !m.phase.Idle? ==> m.form.loading
    ensures var m' := Run(m, net, fuel);
            !m'.phase.Idle? ==> m'.form.loading
    decreases fuel
  {
    if fuel > 0 && !Terminal(m.phase) {
      RunKeepsLoading(Step(m, net), net, fuel - 1);
    }
  }

  /** The button stays disabled while a request is outstanding: every state a
      submission reaches after leaving Idle has `loading` set, so a click there
      does nothing; and every step that issues a request starts and ends in
      such a state. */
  lemma InFlightClickInert(s: FormState, net: Responses, net': Responses, k: nat)
    ensures var m := Run(Machine(Idle, s, []), net, k);
            !m.phase.Idle? ==> Click(m.form, net') == None
    ensures var m := Run(Machine(Idle, s, []), net, k);
            var m' := Step(m, net);
            |m'.sent| > |m.sent| ==>
              Click(m.form, net') == None && Click(m'.form, net') == None
  {
    RunKeepsLoading(Machine(Idle, s, []), net, k);
  }

  /** The machine and the handler agree: started idle on any form, the machine
      settles within `MaxSteps` transitions having issued exactly the handler's
      requests, leaving the handler's final form and showing its toast. */
  lemma RunAgreesWithSubmit(s: FormState, net: Responses)
    ensures var m := Run(Machine(Idle, s, []), net, MaxSteps);
            && Terminal(m.phase)
            && m.sent == Submit(s, net).requests
            && Settle(m) == Final(Submit(s, net))
            && ToastOf(m.phase) == Submit(s, net).toast
  {
    var m0 := Machine(Idle, s, []);
    var m1 := Step(m0, net);
    var m2 := Step(m1, net);
    var m3 := Step(m2, net);
    var m4 := Step(m3, net);
    assert Run(m0, net, 4) == Run(m1, net, 3);
    if Terminal(m2.phase) {
      RunOnlyAppends(m2, net, 2);
      assert Run(m1, net, 3) == m2;
    } else if Terminal(m3.phase) {
      RunOnlyAppends(m3, net, 1);
      assert Run(m1, net, 3) == m3;
    } else {
      assert Run(m1, net, 3) == m4;
    }
  }
}
