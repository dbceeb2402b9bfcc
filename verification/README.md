# Video-conferencing client: call roster and feedback submission

A Dafny model of two pieces of client logic from a browser video-conferencing
front-end, separated from their React and SDK wrappers.

- **Call roster** (`hooks/useGetCalls.ts`). The hook fetches the signed-in
  user's calls and derives three lists: `endedCalls`, `upcomingCalls` and
  `callRecordings`. Around the fetch sits a small loading state machine. The
  model is in `call_roster.dfy` (module `CallRoster`). It is built on an
  order-preserving filter and a reversal in `seqs.dfy` (module `Seqs`).
- **Feedback submission** (`components/FeedbackForm.jsx`). The submit handler
  first GETs an upload target, then PUTs the screenshot to it, then POSTs the
  feedback. `feedback_form.dfy` (module `FeedbackForm`) models this handler
  as a pure function. Its inputs are the form state and the abstract outcome
  of each request. Its outputs are the requests issued, the successive form
  states and the toast. `feedback_machine.dfy` (module `FeedbackMachine`)
  restates the handler as a step-by-step phase machine and proves that the
  two agree.

Timestamps are integer milliseconds, and `now` is a parameter. JavaScript's
`undefined`/`null` becomes `Option` (`wrappers.dfy`).

## Roster overlap and gaps, and unchecked feedback text

- The upcoming filter never looks at `endedAt`. So a call that starts in the
  future but already has an end time is in both lists. A call whose start
  equals `now` and that has no end time is in neither.
  `CallRoster.EndedAndUpcomingOverlap`, `CallRoster.NeitherEndedNorUpcoming`
  and `CallRoster.PartitionIsNotAPartition` state this.
- The submit handler does not check that the text is non-empty: the text is
  POSTed verbatim, including `""`.
- The load guard `!user?.id` also rejects an empty-string user id, so
  `CanLoad` requires the id to be present and non-empty.

## Model

| member | source | states |
|---|---|---|
| Seqs.Filter | hooks/useGetCalls.ts:43-49 | `Array.filter`: the result holds exactly the elements that pass the test, and is never longer than the input |
| Seqs.Reverse | hooks/useGetCalls.ts:50 | `Array.reverse`: same length, element `i` of the result is element `n-1-i` of the input |
| CallRoster.EndedCalls | hooks/useGetCalls.ts:43-45 | a call is in `endedCalls` iff it was fetched and (its start is known and before `now`, or it has an end time); every fetched copy of such a call is kept; the list is an order-preserving subsequence of the fetched list |
| CallRoster.UpcomingCalls | hooks/useGetCalls.ts:47-50 | a call is in `upcomingCalls` iff it was fetched and its start is known and strictly after `now`, whatever its end time; multiplicities are kept; reversing the list gives a subsequence of the fetched list |
| CallRoster.UpcomingSoonestFirst | hooks/useGetCalls.ts:26-50 | if the fetched list is sorted latest start first, as the query requests, then `upcomingCalls` is sorted soonest first |
| CallRoster.EndedAndUpcomingOverlap | hooks/useGetCalls.ts:43-49 | a call is in both lists iff it was fetched, starts after `now` and has an end time |
| CallRoster.NeitherEndedNorUpcoming | hooks/useGetCalls.ts:43-49 | a fetched call is in neither list iff it has no end time and its start is missing or equal to `now` |
| CallRoster.PartitionIsNotAPartition | hooks/useGetCalls.ts:43-49 | concrete calls that show the two lists can overlap and can miss a call |
| CallRoster.View | hooks/useGetCalls.ts:41-57 | the hook's return value: the two filtered lists have the membership above, `callRecordings` is the stored list unchanged, and `isLoading` is passed through |
| CallRoster.LoadCalls | hooks/useGetCalls.ts:11-39 | no query and no state change without a client and a non-empty user id; otherwise the query is for the user's calls that have a start, sorted by start descending; it goes out after at least one setter and before the last, with `isLoading` already true and the stored calls not yet changed; `isLoading` is true from the first setter until the last, which clears it; success stores the fetched calls, and failure keeps the previous ones |
| CallRoster.NoIdentityNoQuery | hooks/useGetCalls.ts:6-13 | from the initial state, without a client or user id, all three lists stay empty and `isLoading` stays false |
| FeedbackForm.ContentTypeOf | components/FeedbackForm.jsx:36-40 | the PUT's `Content-Type` is never empty: it is the file's type when that is non-empty, otherwise `image/png` |
| FeedbackForm.ErrorDescription | components/FeedbackForm.jsx:61-66 | the error toast shows the server's message when one is present and non-empty, otherwise the error's own message |
| FeedbackForm.ChooseScreenshot | components/FeedbackForm.jsx:19-24 | a missing or empty file list leaves the form unchanged; otherwise the first file becomes the screenshot and its object URL the preview; the text and `loading` are untouched |
| FeedbackForm.Submit | components/FeedbackForm.jsx:27-70 | requests come in the order GET, PUT, POST, or a lone POST when there is no screenshot; a failed step ends the sequence, and the POST is made iff every earlier step succeeded; the PUT goes to the returned `uploadURL` with the file and its content type; the POST carries the text verbatim and the GET's `key`, or no key without a screenshot; `loading` holds until the last state, which clears it; success resets text, screenshot and preview and shows the sentiment, while failure keeps them and shows the first error's description |
| FeedbackForm.Click | components/FeedbackForm.jsx:102-108 | the button does nothing iff `loading`; otherwise the click is exactly the submit handler's run `Submit(s, net)`, which issues at least one request |
| FeedbackForm.SingleFlight | components/FeedbackForm.jsx:27-104 | in every form state a submission sets before its last, clicking the button again starts nothing |
| FeedbackForm.ChosenFileIsUploaded | components/FeedbackForm.jsx:19-47 | after picking files, a submission whose GET and PUT succeed issues exactly GET, a PUT of the first picked file to the returned URL, and a POST of the text with the returned key |
| FeedbackMachine.Step | components/FeedbackForm.jsx:28-69 | each transition issues at most one request and only appends; terminal phases are fixed points; entering Done clears the text, screenshot and preview; entering Failed leaves the form as it was; leaving Idle sets `loading` and issues nothing; once out of Idle a step never returns to it and keeps `loading` as it was |
| FeedbackMachine.RunKeepsLoading | components/FeedbackForm.jsx:29-68 | once a run has left Idle, `loading` stays set in every later state until the handler's `finally` clears it |
| FeedbackMachine.InFlightClickInert | components/FeedbackForm.jsx:29-104 | every state of a submission after Idle has the button disabled, and each step that issues a GET, PUT or POST starts and ends in such a state, so a click while a request is outstanding does nothing |
| FeedbackMachine.RunOnlyAppends | components/FeedbackForm.jsx:28-47 | a run never withdraws or reorders a request already issued, and from a terminal phase it issues nothing |
| FeedbackMachine.RunAgreesWithSubmit | components/FeedbackForm.jsx:27-70 | started idle, the phase machine ends in Done or Failed within four steps, with exactly the handler's requests, final form and toast |

## Left out

- `components/EndCallButton.tsx` is not part of this model. It is a single conjunction of two flags supplied by the video SDK, plus rendering and an opaque `endCall()`.
- The admin feedback page (`app/(root)/admin/page.tsx`) is not part of this model. This covers its text and sentiment filters, local-only delete and clipboard copy. It lies outside the two components modelled here, and its case-insensitive match would need Unicode case folding.
- The video SDK's `queryCalls` is not evaluated. The model records the query that is sent, and the calls come back as a parameter. "Every call has a start" and "sorted latest first" appear only as hypotheses of `CallRoster.UpcomingSoonestFirst`.
- Date parsing and invalid (NaN) dates are not modelled. All times are integers.
- React effect scheduling is not modelled: re-runs on dependency changes, overlapping loads or submissions, and batching of state updates. One load or submission is one sequential step, and its setter calls are recorded one by one.
- The axios transport is not modelled, nor the POST's `application/json` header, `console.log`, or toast rendering.
- The navigation after success (`router.push('/')` after 1.5 s) is not modelled.
- `URL.createObjectURL` is not modelled. The preview URL is a parameter of `FeedbackForm.ChooseScreenshot`.
- Responses missing `key`, `uploadURL` or `sentiment` (JavaScript `undefined`) are not modelled. Neither is a server `message` that is not a string. Sentiment is carried as the string the server returned.
- Editing the text area (`setFeedbackText` on change) is not modelled separately. It is a plain assignment of the field.
