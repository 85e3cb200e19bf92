# Voice search: a Dafny model of the search bar core

The application is a Next.js page with a place-search bar. Users type a
query or dictate one. Its core has four parts:

- **The voice input sheet** (`VoiceInputSheet`): a bottom sheet that asks
  for microphone permission and records. A mock recogniser produces a fixed
  transcript two seconds after each start. The sheet shows a status line and
  an action button, and hands the transcript to its parent on submit.
- **The search results dropdown** (`SearchResultsDropdown`): under the search
  bar, it sends a place lookup 300 ms after the last change of query or
  visibility (a trailing-edge debounce). It keeps `places`, `isLoading` and
  `error`, and shows a spinner, an error, "No places found" or the list.
- **`GET /api/places`** (`PlacesRoute`): checks the `query` parameter and the
  Google Maps key. It calls the Text Search API and maps each result to the
  route's place record.
- **`POST /api/transcribe`** (`TranscribeRoute`): checks the `audio` form
  field. Without a usable Sarvam key it returns a fixed mock transcription.
  Otherwise it forwards the audio to Sarvam's speech-to-text-translate
  endpoint and maps the reply.

`Js` holds the few JavaScript semantics these rely on:
`String.prototype.trim` with ECMA-262's exact whitespace set, `endsWith`,
`includes` and `repeat`, and an `Option` for `undefined`/`null`.

## How the model is built

The two components are modelled the same way:

- A pure state record (`SheetState`, `DropdownState`).
- A `Step` function, one event at a time.
- A class whose fields are the component's state. Each method that
  handles an event is proved to leave the object in
  `Step(old(State()), event)`. Two helpers are proved against the pure
  function they implement: `Sheet.Apply` against `ApplyRequest`, and
  `Dropdown.ScheduleOrClear` against `RunEffect`. `Sheet.HandleSubmit`
  changes no state and returns `Submit(State())`.
- Properties proved as lemmas about `Step`. These therefore hold for the
  class too.

Time is explicit:

- The sheet's 2 s mock timer is a count of pending timers. The
  `MockTimerFired` event consumes one.
- The dropdown has a millisecond clock advanced by `Elapse`. Its debounce
  timer is the pending lookup together with the time it falls due, and
  `TimerFired` is possible only once that time has come.

The platform and network enter as input values:

- the media API on offer, `window.isSecureContext` and `location`;
- how `getUserMedia` settles, and the answers of the permission query;
- the outcome of a lookup's `fetch`.

Each route is split into two functions:

- `Guard` decides whether to answer at once or to call upstream, and with
  which request.
- `Finish` maps the upstream outcome to the response.

## Model

| member | source | states |
|---|---|---|
| Js.TrimStart | src/components/voice-input-sheet.tsx:140 | leading-whitespace removal returns a suffix of the input, drops only whitespace and leaves no leading whitespace |
| Js.TrimEnd | src/components/search-results-dropdown.tsx:39 | trailing-whitespace removal returns a prefix, drops only whitespace and leaves no trailing whitespace |
| Js.TrimEmptyIff | src/components/search-results-dropdown.tsx:39 | `s.trim()` is empty exactly when every character of `s` is whitespace |
| Js.IsBlank | src/components/search-results-dropdown.tsx:39 | definition: the falsiness of `s.trim()`, decided one character at a time; its property is in IsBlankIff |
| Js.IsBlankIff | src/components/search-results-dropdown.tsx:39 | a string is blank exactly when its `trim()` is empty |
| Js.EndsWithIff | src/components/voice-input-sheet.tsx:70 | `endsWith(suffix)` holds exactly when the string is some prefix followed by `suffix` |
| Js.ContainsAt | src/components/voice-input-sheet.tsx:242 | an occurrence of `t` anywhere in `s` makes `s.includes(t)` true |
| Js.ContainsIff | src/components/voice-input-sheet.tsx:242-249 | `s.includes(t)` holds exactly when `t` occurs at some position of `s` |
| Js.Truthy | src/components/search-results-dropdown.tsx:112 | definition: a string that may be null is truthy when present and non-empty |
| Js.Repeat | src/components/search-results-dropdown.tsx:91 | `'$'.repeat(n)` has length `n` and every character is `$` |
| VoiceInputSheet.ErrorMessage | src/components/voice-input-sheet.tsx:100-114 | definition: the message for a `getUserMedia` error name; its properties are in ErrorMessageDistinguishesKnownNames |
| VoiceInputSheet.ErrorMessageDistinguishesKnownNames | src/components/voice-input-sheet.tsx:100-114 | the six recognised error names get six distinct specific messages; every other name gets the generic "Microphone permission denied." |
| VoiceInputSheet.IsSecureContext | src/components/voice-input-sheet.tsx:66-70 | definition: the secure-context test; its properties are in LocalhostSubdomainIsSecure and PlainHttpElsewhereIsInsecure |
| VoiceInputSheet.LocalhostSubdomainIsSecure | src/components/voice-input-sheet.tsx:66-70 | any host ending in `.localhost` counts as a secure context |
| VoiceInputSheet.PlainHttpElsewhereIsInsecure | src/components/voice-input-sheet.tsx:66-75 | plain HTTP on a host other than localhost, 127.0.0.1 or a `.localhost` subdomain, without a browser-declared secure context, is refused |
| VoiceInputSheet.PermissionRequest | src/components/voice-input-sheet.tsx:48-119 | the request stops early, leaving the permission flag alone, exactly when there is no media API or the context is insecure; it succeeds exactly with the standard API in a secure context and a granted stream; no media API gives the "not supported" message and an insecure context the "secure connection" one; a legacy-only browser in a secure context fails with the generic message (its call throws a TypeError); a rejection named `n` fails with `ErrorMessage(n)` |
| VoiceInputSheet.FailedRequestRevokesPermission | src/components/voice-input-sheet.tsx:97-118 | a request that fails in a secure context always sets `permissionGranted` to false and shows the message for the error, leaving recording and transcript alone |
| VoiceInputSheet.ApplyRequest | src/components/voice-input-sheet.tsx:60-117 | definition: how a request's result changes the state; its properties are in PermissionRequest and FailedRequestRevokesPermission |
| VoiceInputSheet.Step | src/components/voice-input-sheet.tsx:121-207 | definition: the state after one handler, timer or callback; its properties are in StepKeepsConsistent and the scenario lemmas |
| VoiceInputSheet.StepKeepsConsistent | src/components/voice-input-sheet.tsx:121-137 | every event keeps "recording" and "listening" equal, and keeps a pending mock timer while recording |
| VoiceInputSheet.RunKeepsConsistent | src/components/voice-input-sheet.tsx:20-46 | from a consistent state, such as the initial one, every sequence of events reaches a consistent state |
| VoiceInputSheet.Run | src/components/voice-input-sheet.tsx:20-46 | definition: the events applied one at a time, in order; its properties are in RunKeepsConsistent and PermissionOnlyChangedByPermissionEvents |
| VoiceInputSheet.PermissionOnlyChangedByPermissionEvents | src/components/voice-input-sheet.tsx:121-207 | stop, timer, close, open and submit never change `permissionGranted`; only the permission request and the permission-status callbacks do |
| VoiceInputSheet.Button | src/components/voice-input-sheet.tsx:273-292 | "Allow Microphone" exactly without permission; "Stop Recording" exactly with permission while recording or listening; "Start Recording" otherwise |
| VoiceInputSheet.ShowsUseThisText | src/components/voice-input-sheet.tsx:294-298 | definition: the "Use This Text" button is there when the transcript is non-empty; used in StartThenTimerTranscribes |
| VoiceInputSheet.ShowsRecordingIndicator | src/components/voice-input-sheet.tsx:219-234 | definition: the microphone pulses while recording or listening |
| VoiceInputSheet.Status | src/components/voice-input-sheet.tsx:238-269 | the error text is shown exactly when the error is truthy, and it is that error; "Listening..." exactly when there is no error and listening; otherwise the transcript exactly when it is non-empty; otherwise "Tap the microphone to start speaking" with permission and "Allow microphone access to use voice search" without |
| VoiceInputSheet.Submit | src/components/voice-input-sheet.tsx:139-143 | the transcript is handed on exactly when it is not all whitespace, and then untrimmed |
| VoiceInputSheet.StartThenTimerTranscribes | src/components/voice-input-sheet.tsx:121-131 | with permission, start shows "Listening..." and "Stop Recording"; the mock timer then yields the mock transcript, "Start Recording", "Use This Text", and a submit of that transcript |
| VoiceInputSheet.StartWithoutPermissionOnlyRequests | src/components/voice-input-sheet.tsx:121-125 | without permission, start is exactly a permission request and neither records nor clears the transcript |
| VoiceInputSheet.StopDoesNotCancelMockTimer | src/components/voice-input-sheet.tsx:133-137 | a stop does not cancel the mock timer: the transcript still arrives afterwards |
| VoiceInputSheet.StaleMockTimerReachesReopenedSheet | src/components/voice-input-sheet.tsx:145-152 | after start, close and reopen, the sheet is blank but the old timer is still pending and writes its transcript into the reopened sheet |
| VoiceInputSheet.CloseAndOpenReset | src/components/voice-input-sheet.tsx:145-152 | close and reopen each clear the transcript and error, end recording and keep the permission |
| VoiceInputSheet.Sheet.constructor | src/components/voice-input-sheet.tsx:20-24 | the initial state: not recording, not listening, no permission, empty transcript, no error |
| VoiceInputSheet.Sheet.Apply | src/components/voice-input-sheet.tsx:92-117 | a request result updates the error and permission fields as the pure model says |
| VoiceInputSheet.Sheet.RequestMicrophonePermission | src/components/voice-input-sheet.tsx:48-119 | the fields become the pure step's state, consistency is kept, and recording and transcript are untouched |
| VoiceInputSheet.Sheet.StartRecording | src/components/voice-input-sheet.tsx:121-131 | with permission: recording and listening, empty transcript, no error, one more mock timer; without: a permission request |
| VoiceInputSheet.Sheet.StopRecording | src/components/voice-input-sheet.tsx:133-137 | both flags off; the pending mock timers stay |
| VoiceInputSheet.Sheet.MockTimerFires | src/components/voice-input-sheet.tsx:32-36 | the mock transcript is set and both flags go off |
| VoiceInputSheet.Sheet.HandleClose | src/components/voice-input-sheet.tsx:145-152 | recording stops, transcript and error are cleared, permission kept |
| VoiceInputSheet.Sheet.Reopen | src/components/voice-input-sheet.tsx:200-207 | opening clears transcript and error and both flags, permission kept |
| VoiceInputSheet.Sheet.PermissionStatusChecked | src/components/voice-input-sheet.tsx:172-177 | "granted" grants, "denied" revokes and shows the blocked message, "prompt" changes nothing |
| VoiceInputSheet.Sheet.PermissionStatusChanged | src/components/voice-input-sheet.tsx:180-189 | "granted" grants and clears the error, "denied" revokes and shows the blocked message, "prompt" changes nothing |
| VoiceInputSheet.Sheet.HandleSubmit | src/components/voice-input-sheet.tsx:139-143 | forwards the untrimmed transcript exactly when it is not all whitespace |
| SearchResultsDropdown.FormatPriceLevel | src/components/search-results-dropdown.tsx:89-92 | no level gives "", a level `n` gives `n` dollar signs |
| SearchResultsDropdown.RelevantTypes | src/components/search-results-dropdown.tsx:96-98 | exactly the non-generic types are kept |
| SearchResultsDropdown.RelevantTypesHead | src/components/search-results-dropdown.tsx:96-98 | the filter keeps order: its first element is the first non-generic type |
| SearchResultsDropdown.GetPlaceType | src/components/search-results-dropdown.tsx:94-100 | the label is never empty and is either one of the place's types or "location" |
| SearchResultsDropdown.GetPlaceTypeChoice | src/components/search-results-dropdown.tsx:99 | the label is the first non-generic type when that is non-empty |
| SearchResultsDropdown.GetPlaceTypeWithoutUsableType | src/components/search-results-dropdown.tsx:99 | `[]` and `[""]` both give "location", since `||` skips an empty string |
| SearchResultsDropdown.GetPlaceTypeOnlyGeneric | src/components/search-results-dropdown.tsx:99 | when all types are generic the label falls back to the first type |
| SearchResultsDropdown.PriceTextAsWritten | src/components/search-results-dropdown.tsx:145-149 | definition: the price text as the source renders it; its property is in PriceLevelZeroShowsDigit |
| SearchResultsDropdown.PriceLevelZeroShowsDigit | src/components/search-results-dropdown.tsx:145-149 | as written, a price level of 0 renders the text "0" rather than the formatted price |
| SearchResultsDropdown.PriceText | src/components/search-results-dropdown.tsx:145-149 | a price is shown exactly for a positive level, and it is that many dollar signs |
| SearchResultsDropdown.PriceTextDiffersOnlyAtZero | src/components/search-results-dropdown.tsx:145-149 | the corrected and the as-written price text agree on every level except 0 |
| SearchResultsDropdown.Interpret | src/components/search-results-dropdown.tsx:48-62 | places load exactly for an ok JSON response, with absent `places` as `[]`; not-ok gives "Failed to fetch places"; a rejection of `fetch` or of `response.json()` gives the error's message, or "Failed to search places" for a non-Error |
| SearchResultsDropdown.RunEffect | src/components/search-results-dropdown.tsx:38-65 | definition: the debounced-search effect; its properties are in StepKeepsValid and BlankOrHiddenClears |
| SearchResultsDropdown.Mount | src/components/search-results-dropdown.tsx:32-66 | definition: the state after mounting; its property is in MountIsValid |
| SearchResultsDropdown.Fire | src/components/search-results-dropdown.tsx:44-49 | definition: the timer callback up to its `await`; its properties are in FireIsStep and FiredLookupIsForCurrentQuery |
| SearchResultsDropdown.Settle | src/components/search-results-dropdown.tsx:51-62 | definition: the callback's rest once the lookup settles; its properties are in SettleOutcome |
| SearchResultsDropdown.Step | src/components/search-results-dropdown.tsx:38-66 | definition: the state after a prop change, elapsed time, the timer or a settled lookup; its properties are in StepKeepsValid and the lemmas below |
| SearchResultsDropdown.MountIsValid | src/components/search-results-dropdown.tsx:38-66 | after mounting, a scheduled lookup is for the current, non-blank query of a visible dropdown |
| SearchResultsDropdown.StepKeepsValid | src/components/search-results-dropdown.tsx:38-66 | every event keeps the scheduled lookup for the current non-blank query of a visible dropdown, due within 300 ms, and keeps loading only while a lookup is in flight |
| SearchResultsDropdown.BlankOrHiddenClears | src/components/search-results-dropdown.tsx:39-42 | a change to a blank query or a hidden dropdown empties the list, cancels the timer, sends nothing, leaves loading and error, and renders nothing |
| SearchResultsDropdown.FireIsStep | src/components/search-results-dropdown.tsx:44-47 | a due timer sends the current query and keeps the state valid |
| SearchResultsDropdown.FiredLookupIsForCurrentQuery | src/components/search-results-dropdown.tsx:44-49 | a lookup that goes out is for the current query, turns loading on and clears the error |
| SearchResultsDropdown.SettleOutcome | src/components/search-results-dropdown.tsx:51-62 | a settled lookup turns loading off; success sets the places and leaves the error as it was; every failure (not ok, `response.json()` throwing, `fetch` rejecting) empties the places and records the message |
| SearchResultsDropdown.LastSettledLookupWins | src/components/search-results-dropdown.tsx:44-66 | with two lookups in flight, whichever settles last decides the list, even the older one |
| SearchResultsDropdown.BurstSendsNoLookup | src/components/search-results-dropdown.tsx:63-65 | query changes less than 300 ms apart send no lookup, and leave a not-yet-due timer for the last query when it is not blank |
| SearchResultsDropdown.QuietPeriodSendsOneLookup | src/components/search-results-dropdown.tsx:38-66 | after such a burst, 300 quiet ms send exactly one lookup, for the last query, or none when it is blank |
| SearchResultsDropdown.Item | src/components/search-results-dropdown.tsx:122-160 | definition: a list entry with name, address, the corrected price text and the type label; its properties are in PriceText and GetPlaceType |
| SearchResultsDropdown.Render | src/components/search-results-dropdown.tsx:85-162 | nothing exactly for a hidden dropdown or blank query; then the spinner exactly while loading, the error message exactly when the error is truthy, "No places found" for the query exactly for an empty list, else one item per place in order (each item carries the corrected price text, see Findings) |
| SearchResultsDropdown.EmptyErrorMessageShowsNoPlaces | src/components/search-results-dropdown.tsx:107-119 | an error with an empty message is falsy, so the dropdown then says "No places found" for the query |
| SearchResultsDropdown.Dropdown.constructor | src/components/search-results-dropdown.tsx:32-66 | the initial state after the effect has run once, and it is valid |
| SearchResultsDropdown.Dropdown.ScheduleOrClear | src/components/search-results-dropdown.tsx:38-65 | clears the old timer, then empties the list or schedules a lookup 300 ms ahead |
| SearchResultsDropdown.Dropdown.SetProps | src/components/search-results-dropdown.tsx:38-66 | the effect re-runs only when the query or visibility changed; validity is kept |
| SearchResultsDropdown.Dropdown.Elapse | src/components/search-results-dropdown.tsx:63 | only the clock advances; validity is kept |
| SearchResultsDropdown.Dropdown.TimerFires | src/components/search-results-dropdown.tsx:44-49 | the current query is sent, loading on, error cleared, validity kept |
| SearchResultsDropdown.Dropdown.LookupSettles | src/components/search-results-dropdown.tsx:51-62 | the outcome updates places and error as the pure model says, loading goes off, validity kept |
| PlacesRoute.MapPhotos | src/app/api/places/route.ts:41-45 | one photo per upstream photo, in order, with its fields renamed |
| PlacesRoute.ToPlace | src/app/api/places/route.ts:33-45 | definition: one upstream result as a route place; its properties are in MappingRoundTrip |
| PlacesRoute.MapPlaces | src/app/api/places/route.ts:33-46 | one place per upstream result, in order |
| PlacesRoute.Transform | src/app/api/places/route.ts:33-46 | absent `results` gives no places; a results array is mapped element by element |
| PlacesRoute.MappingRoundTrip | src/app/api/places/route.ts:33-45 | the mapping loses nothing: every place maps back; an upstream result maps back unless it had a geometry without a location |
| PlacesRoute.Guard | src/app/api/places/route.ts:8-14 | a missing or empty query is 400 before the key is looked at; a missing or empty key is 500; otherwise the Text Search request for that query and key goes out |
| PlacesRoute.Finish | src/app/api/places/route.ts:16-55 | 200 with the transformed places exactly for an ok JSON answer with status OK or ZERO_RESULTS; every other outcome is 500 "Failed to fetch places" |
| PlacesRoute.Get | src/app/api/places/route.ts:3-56 | definition: the guard, then the upstream outcome; its properties are in GetAnswers |
| PlacesRoute.GetAnswers | src/app/api/places/route.ts:3-56 | every answer is the places, the missing query, the missing key or the upstream failure; a guard answer does not depend on the upstream |
| TranscribeRoute.BuildRequest | src/app/api/transcribe/route.ts:26-42 | definition: the multipart POST to the Sarvam endpoint; its properties are in RequestDeterminedByAudioAndKey and KeyOnlyInHeader |
| TranscribeRoute.RequestDeterminedByAudioAndKey | src/app/api/transcribe/route.ts:26-42 | the uploaded audio is forwarded unchanged, and two requests are equal exactly when audio and key are |
| TranscribeRoute.KeyOnlyInHeader | src/app/api/transcribe/route.ts:36-42 | the key appears only in the header: requests for the same audio differ exactly in it |
| TranscribeRoute.Guard | src/app/api/transcribe/route.ts:4-24 | an unreadable form is 500; a missing or empty `audio` is 400 before the key is looked at; a missing, empty or placeholder key gives the mock transcription; otherwise the Sarvam request goes out |
| TranscribeRoute.Finish | src/app/api/transcribe/route.ts:44-66 | not-ok keeps its status and passes its body text as `details`; ok JSON gives transcript, `language_code` and `request_id`; anything that throws is 500 "Internal server error" |
| TranscribeRoute.Post | src/app/api/transcribe/route.ts:3-67 | definition: the guard, then the upstream reply; its properties are in PostAnswers |
| TranscribeRoute.PostAnswers | src/app/api/transcribe/route.ts:3-67 | a transcription is answered exactly for a present audio field with either the mock or an ok JSON reply, always 200 with `success`; every error answer is non-2xx; without a usable key the upstream plays no part |

## Left out

- Console logging, the JSX markup, styling, icons, and the click-outside
  listener of the dropdown are not modelled. None of them changes state the
  model tracks.
- The parent's `onClose`, `onResult` and `onSelect` callbacks are not
  modelled. `Submit` and `HandleSubmit` return what would be passed to
  `onResult`.
- The search input, the page and the `ui/` components are not part of this
  model.
- The browser's media APIs, the permission query, `location` and real
  timers are inputs or events. A permission query that is unavailable or
  throws is no `PermissionChecked` event at all.
- The microphone stream that is opened and stopped at once has no state
  here.
- VoiceInputSheet.Sheet.RequestMicrophonePermission: the asynchronous
  request is taken as one step when it settles. Its synchronous part
  changes no state except on the early returns and on the TypeError of a
  legacy-only browser (whose catch block runs before anything suspends);
  the step includes both.
- SearchResultsDropdown.Item: a place with price level 0 gets no price
  text, where the source shows "0". The entry uses the corrected
  `PriceText`; the as-written text is `PriceTextAsWritten`; see Findings.
- SearchResultsDropdown.Render: the list shows the corrected price text
  (`PriceText`), not the "0" the source shows for level 0. The as-written
  text is `PriceTextAsWritten`; see Findings.
- VoiceInputSheet.Status: the two hint flags are computed with `includes`.
  No lemma states which messages raise them.
- React batching and render timing are not modelled. Each handler is one
  atomic step that reads the latest state.
- Every number is unbounded and exact:
  - the rating's `toFixed(1)` display is not modelled;
  - coordinates are `real`;
  - the dropdown's price level is a `nat`. A negative level, on which
    `repeat` throws, and a fractional one, which `repeat` truncates, are
    outside the model.
- SearchResultsDropdown.Place takes the fields of the component's `Place`
  interface as always present, as the interface declares. The route's
  records keep every field optional.
- PlacesRoute.Guard: `encodeURIComponent` and the URL text are not built.
  The request records the query and the key, and the key travels in the URL
  query string of the Text Search request.
- TranscribeRoute.Guard: the `audio` entry is a file or a text value. The
  `as File` cast checks nothing, as in the source.
- Upstream error statuses are kept only as far as the code uses them. The
  places route turns every failure into the same 500.
- Lookups already sent are never cancelled or guarded against stale
  answers, and a pending mock timer is never cleared. The model follows
  the code here (`LastSettledLookupWins`,
  `StaleMockTimerReachesReopenedSheet`). A design with request
  cancellation would behave differently.

## Findings

| source | as written | input that shows it | evidently intended | confidence | as-written member | corrected member |
|---|---|---|---|---|---|---|
| src/components/search-results-dropdown.tsx:145-149 | `place.priceLevel && formatPriceLevel(...)` renders the number itself when the level is 0, so the text "0" appears next to the name | a place with `priceLevel: 0` (a free place in the Places API) | no price text for level 0, dollar signs for a positive level | high, not executed | SearchResultsDropdown.PriceTextAsWritten (PriceLevelZeroShowsDigit) | SearchResultsDropdown.PriceText (PriceTextDiffersOnlyAtZero) |
