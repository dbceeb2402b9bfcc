/** The feedback form: its state, the screenshot picker, and the submit
    handler that asks for an upload target, uploads the screenshot to it and
    then posts the feedback.

    Each network request is represented by its abstract outcome, success with
    the response data or an error; the form never sees the transport. */
module FeedbackForm {
  import opened Wrappers
  import opened Seqs

  const FeedbackApi := "https://42e508hyl4.execute-api.ap-south-1.amazonaws.com/feedback"
  const UploadUrlApi := "https://42e508hyl4.execute-api.ap-south-1.amazonaws.com/upload-url"

  /** Content type sent with a screenshot whose own type is empty. */
  const DefaultContentType := "image/png"

  const SuccessTitle := "Feedback submitted!"
  const ErrorTitle := "Error submitting feedback"
  const SentimentPrefix := "Sentiment: "

  /** A file picked in the browser; `mimeType` is its `type`, possibly empty. */
  datatype File = File(name: string, mimeType: string)

  /** The form's React state. `screenshotPreview` holds an object URL. */
  datatype FormState = FormState(
    feedbackText: string,
    screenshot: Option<File>,
    screenshotPreview: Option<string>,
    loading: bool)

  /** An empty form; a successful submission returns the form to this state. */
  const InitialForm := FormState("", None, None, false)

  /** The requests the submit handler can issue. */
  datatype Request =
    | GetUploadTarget(url: string)
    | PutScreenshot(url: string, contentType: string, body: File)
    | PostFeedback(url: string, feedbackText: string, screenshotKey: Option<string>)

  /** A rejected request: the error's own `message` and, when the server
      answered, the `message` field of its response body. */
  datatype HttpError = HttpError(message: string, serverMessage: Option<string>)

  /** The abstract outcome of one request. */
  datatype Outcome<T> = Ok(data: T) | Err(error: HttpError)

  /** The upload endpoint's answer: the storage key and a signed URL to PUT to. */
  datatype UploadTarget = UploadTarget(key: string, uploadURL: string)

  /** How each of the three requests would turn out if it were made; the
      feedback endpoint answers with the sentiment it assigned. */
  datatype Responses = Responses(
    target: Outcome<UploadTarget>,
    upload: Outcome<()>,
    post: Outcome<string>)

  /** The notification shown when a submission settles. */
  datatype Toast = Toast(title: string, description: string, destructive: bool)

  /** One submission: the requests in the order they were issued, the form
      states the setters produce in order, and the toast. */
  datatype Submission = Submission(requests: seq<Request>, states: seq<FormState>, toast: Toast)

  /** The `Content-Type` of the upload: the file's own type, or `image/png`
      when that is empty. */
  function ContentTypeOf(f: File): (t: string)
    ensures t != ""
    ensures f.mimeType != "" ==> t == f.mimeType
    ensures f.mimeType == "" ==> t == DefaultContentType
  {
    if f.mimeType != "" then f.mimeType else DefaultContentType
  }

  /** The error toast's text: the server's message when it gave a non-empty
      one, the error's own message otherwise. */
  function ErrorDescription(e: HttpError): (d: string)
    ensures d == e.message || (e.serverMessage.Some? && d == e.serverMessage.value)
    ensures e.serverMessage.Some? && e.serverMessage.value != "" ==> d == e.serverMessage.value
    ensures e.serverMessage.None? || e.serverMessage.value == "" ==> d == e.message
  {
    match e.serverMessage
    case Some(m) => if m != "" then m else e.message
    case None => e.message
  }

  /** `handleScreenshotChange`: `files` is the input's file list (`None` for
      `null`) and `objectUrl` the preview URL the browser creates for the
      first file. An absent or empty list changes nothing. */
  function ChooseScreenshot(s: FormState, files: Option<seq<File>>, objectUrl: string): (r: FormState)
    ensures files.None? || |files.value| == 0 ==> r == s
    ensures files.Some? && |files.value| > 0 ==>
      && r.screenshot == Some(files.value[0])
      && r.screenshotPreview == Some(objectUrl)
    ensures r.feedbackText == s.feedbackText && r.loading == s.loading
  {
    match files
    case Some(fs) =>
      if |fs| > 0 then s.(screenshot := Some(fs[0]), screenshotPreview := Some(objectUrl)) else s
    case None => s
  }

  /** The first request that fails, if any, among those the handler reaches. */
  function FirstError(s: FormState, net: Responses): Option<HttpError> {
    if s.screenshot.Some? && net.target.Err? then Some(net.target.error)
    else if s.screenshot.Some? && net.upload.Err? then Some(net.upload.error)
    else if net.post.Err? then Some(net.post.error)
    else None
  }

  /** The state after the last setter of a submission. */
  function Final(r: Submission): FormState
    requires |r.states| > 0
  {
    Last(r.states)
  }

  /** The kinds of request, in the only order the handler can issue them. */
  datatype RequestKind = GetKind | PutKind | PostKind

  function KindOf(q: Request): RequestKind {
    match q
    case GetUploadTarget(_) => GetKind
    case PutScreenshot(_, _, _) => PutKind
    case PostFeedback(_, _, _) => PostKind
  }

  /** The requests are a prefix of GET, PUT, POST, or the lone POST of a
      submission without a screenshot. */
  predicate InProtocolOrder(qs: seq<Request>) {
    var kinds := seq(|qs|, i requires 0 <= i < |qs| => KindOf(qs[i]));
    kinds == [PostKind] || (kinds <= [GetKind, PutKind, PostKind] && |kinds| > 0)
  }

  /** The last request issued is the POST. */
  predicate IssuesPost(qs: seq<Request>) {
    |qs| > 0 && Last(qs).PostFeedback?
  }

  /** A failure ends the submission: issues the error toast and clears
      `loading`, keeping every other field. */
  function Abort(busy: FormState, sent: seq<Request>, e: HttpError): Submission {
    Submission(sent, [busy, busy.(loading := false)], Toast(ErrorTitle, ErrorDescription(e), true))
  }

  /** The POST and what follows it. */
  function PostAndSettle(busy: FormState, sent: seq<Request>, key: Option<string>, reply: Outcome<string>): Submission {
    var sent' := sent + [PostFeedback(FeedbackApi, busy.feedbackText, key)];
    match reply
    case Err(e) => Abort(busy, sent', e)
    case Ok(sentiment) =>
      var noText := busy.(feedbackText := "");
      var noFile := noText.(screenshot := None);
      var noPreview := noFile.(screenshotPreview := None);
      Submission(sent', [busy, noText, noFile, noPreview, noPreview.(loading := false)],
                 Toast(SuccessTitle, SentimentPrefix + sentiment, false))
  }

  /** `handleFeedbackSubmit`. */
  function Submit(s: FormState, net: Responses): (r: Submission)
    // requests: order, early abort, targets and payloads
    ensures InProtocolOrder(r.requests)
    ensures s.screenshot.None? ==> r.requests == [PostFeedback(FeedbackApi, s.feedbackText, None)]
    ensures s.screenshot.Some? ==>
      && r.requests[0] == GetUploadTarget(UploadUrlApi)
      && (net.target.Err? <==> |r.requests| == 1)
      && (|r.requests| >= 2 ==>
            r.requests[1] == PutScreenshot(net.target.data.uploadURL, ContentTypeOf(s.screenshot.value), s.screenshot.value))
      && (net.target.Ok? && net.upload.Err? <==> |r.requests| == 2)
    ensures IssuesPost(r.requests) <==> s.screenshot.None? || (net.target.Ok? && net.upload.Ok?)
    ensures forall q :: q in r.requests && q.PostFeedback? ==>
      && q == Last(r.requests)
      && q.url == FeedbackApi
      && q.feedbackText == s.feedbackText
      && q.screenshotKey == (if s.screenshot.Some? then Some(net.target.data.key) else None)
    // form state: loading throughout, then cleared on success or kept on failure
    ensures |r.states| >= 2
    ensures forall i :: 0 <= i < |r.states| - 1 ==> r.states[i].loading
    ensures FirstError(s, net).None? ==> Final(r) == InitialForm
    ensures FirstError(s, net).Some? ==> Final(r) == s.(loading := false)
    // the toast
    ensures FirstError(s, net).None? ==>
      r.toast == Toast(SuccessTitle, SentimentPrefix + net.post.data, false)
    ensures FirstError(s, net).Some? ==>
      r.toast == Toast(ErrorTitle, ErrorDescription(FirstError(s, net).value), true)
  {
    var busy := s.(loading := true);
    match s.screenshot
    case None => PostAndSettle(busy, [], None, net.post)
    case Some(f) =>
      var get := GetUploadTarget(UploadUrlApi);
      match net.target
      case Err(e) => Abort(busy, [get], e)
      case Ok(t) =>
        var put := PutScreenshot(t.uploadURL, ContentTypeOf(f), f);
        match net.upload
        case Err(e) => Abort(busy, [get, put], e)
        case Ok(_) => PostAndSettle(busy, [get, put], Some(t.key), net.post)
  }

  /** The submit button: disabled, so inert, while `loading`; otherwise it runs
      the handler. */
  function Click(s: FormState, net: Responses): (r: Option<Submission>)
    ensures r.None? <==> s.loading
    ensures r.Some? ==> r.value == Submit(s, net) && r.value.requests != []
  {
    if s.loading then None else Some(Submit(s, net))
  }

  /** In every form state a submission sets before its last, a second click
      does nothing. `FeedbackMachine.InFlightClickInert` ties this to the
      requests: the button is disabled while each of them is outstanding. */
  lemma SingleFlight(s: FormState, net: Responses, net': Responses, i: nat)
    requires i < |Submit(s, net).states| - 1
    ensures Click(Submit(s, net).states[i], net') == None
  {
  }

  /** The file picked last is the one uploaded, with its content type, to the
      URL the upload endpoint returned, and its key is what the POST carries. */
  lemma ChosenFileIsUploaded(s: FormState, fs: seq<File>, objectUrl: string, t: UploadTarget, net: Responses)
    requires |fs| > 0 && net.target == Ok(t) && net.upload.Ok?
    ensures var r := Submit(ChooseScreenshot(s, Some(fs), objectUrl), net);
            r.requests == [
              GetUploadTarget(UploadUrlApi),
              PutScreenshot(t.uploadURL, ContentTypeOf(fs[0]), fs[0]),
              PostFeedback(FeedbackApi, s.feedbackText, Some(t.key))]
  {
  }
}
