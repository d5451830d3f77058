# a11yowl-web: a verified model of the front end's logic

The a11yowl web front end is a marketing site and results viewer for an
accessibility-scanning service. Nearly all of it is markup. This project
models its three pieces of behaviour in Dafny and proves properties about them:

- **Score gauge** (`ScoreGauge.dfy`, with `NumberText.dfy`). A 0-100 score is
  sorted into one of three bands: below 50 is "High Risk", 50 up to 80 is
  "Needs Work", and 80 or more is "Looking Good". Each band has a text class
  and an arc colour. The gauge's accessible label announces the rounded score
  out of 100, and it adds the verdict only when `showVerdict` is set. The score
  is a JavaScript number that is only compared and rounded, so the model uses
  an exact `real`. `Math.round` is modelled as rounding half up. The text of a
  whole number is a minus sign, if any, followed by its shortest decimal digits.
- **Landing-page scan form** (`Landing.dfy`, with `JsText.dfy`). The URL the
  visitor typed goes through JavaScript's `trim()`. If it then starts with
  `http://` or `https://` it is used as is; otherwise `https://` is put in
  front. The scheme test is literal and case-sensitive. The form then clears
  its error and starts loading. On success the router is sent to
  `/scan/<id>` and the form stays loading. On failure the form shows the error
  and stops loading.
- **Report-request dialog** (`EmailModal.dfy`). This is a class with the
  component's state (`email`, `loading`, `error`, `step`) and the host's
  `isOpen`. It also counts how often `onSuccess` and `onClose` are invoked. The
  asynchronous submit is split into two methods. `BeginSubmit` is the part
  that runs before the `await`. `CompleteSubmit(outcome)` is the part that runs
  when the request comes back.

`Outcomes.dfy` holds the shared `Option` type and `Thrown`, the value a
`catch` clause receives: either an `Error` with a message or some other
value. Network calls are not modelled. Each request is represented by the
value its method returns (the URL, or the scan id and email, that would be
sent), and its result is passed in as an outcome.

Behaviour worth noting, as the code has it:

- The dialog resets `error`, `step` and `email` when `isOpen` becomes false,
  not when it becomes true. As a consequence, a request that succeeds after
  the dialog was closed leaves `step` at the confirmation. Reopening the
  dialog then shows "Report Sent!" with an empty address
  (`ReportDialog.LateSuccessAfterClose`).
- The report request carries only the scan id and the email. The dialog
  passes its `platform` to the request function, but that function
  (app/lib/api.ts:59-62) takes only two parameters, so the platform is never
  sent. `ReportRequest` therefore has no platform field.
- In the gauge's `aria-label` the separator before the verdict is, in the
  component's file, the three characters `â€”` (U+00E2 U+20AC U+201D): the
  UTF-8 bytes of an em dash read as Windows-1252. Other files of the site
  have a correct em dash. The model keeps the characters as written, so a
  label with the verdict reads, for example,
  "Compliance Risk: 42 out of 100 â€” High Risk".

## Model

| member | source | states |
|---|---|---|
| `ScoreGauge.BandOf` | app/components/ScoreGauge.tsx:10-14 | every score lies in a band, and in only one: the bands below 50, from 50 to 80 and from 80 up cover all numbers and do not overlap |
| `ScoreGauge.GetVerdict` | app/components/ScoreGauge.tsx:10-14 | the verdict is "High Risk"/`text-owl-danger`, "Needs Work"/`text-owl-warning` or "Looking Good"/`text-owl-success` exactly when the score is in the matching band |
| `ScoreGauge.GetColor` | app/components/ScoreGauge.tsx:26-30 | the colour is #DC2626, #D97706 or #059669 exactly when the score is in the matching band, using the same cuts as the verdict |
| `ScoreGauge.BoundaryScores` | app/components/ScoreGauge.tsx:11-13 | 49.99 is High Risk, 50 and 79.99 are Needs Work, 80 is Looking Good; the colours at 50 and 80 match |
| `ScoreGauge.VerdictMonotone` | app/components/ScoreGauge.tsx:10-14 | raising the score never moves the verdict to a worse band |
| `ScoreGauge.ColorAgreesWithVerdict` | app/components/ScoreGauge.tsx:26-30 | colour and verdict come from the same band, so two scores get the same colour exactly when they get the same verdict |
| `ScoreGauge.AriaLabelAnnounces` | app/components/ScoreGauge.tsx:42 | the label is exactly the caption and ": ", then the rounded score's text, which reads back as the rounded score, then " out of 100" and, only when `showVerdict` is true, the separator and the verdict text; it ends with the verdict text exactly when `showVerdict` is true |
| `ScoreGauge.AriaLabel` | app/components/ScoreGauge.tsx:42 | the label ends with " out of 100" followed by the separator `â€”` between spaces and the verdict text when `showVerdict` is set, and with " out of 100" alone otherwise |
| `ScoreGauge.Render` | app/components/ScoreGauge.tsx:16-97 | size defaults to 160 and `showVerdict` to false; the arc and the score text both have the band's colour; the score text is the rounded score's text (a minus sign only when negative, no leading zero) and reads back as the rounded score; the verdict line is present exactly when `showVerdict` is true and then shows the band's verdict |
| `NumberText.Round` | app/components/ScoreGauge.tsx:42 | `Math.round` gives the integer within half of the score, with ties going up |
| `NumberText.NatDigitsRoundTrip` | app/components/ScoreGauge.tsx:78 | the decimal digits shown for a score read back as that number |
| `NumberText.IntText` | app/components/ScoreGauge.tsx:78 | the text starts with a minus sign exactly when the number is negative; the rest is decimal digits with no leading zero, except for the number 0, which is "0"; that it parses back to the number and differs for different numbers is stated by `IntTextRoundTrip` and `IntTextInjective` |
| `NumberText.IntTextRoundTrip` | app/components/ScoreGauge.tsx:78 | the text of any whole number, sign included, parses back to that number |
| `NumberText.IntTextInjective` | app/components/ScoreGauge.tsx:78 | different rounded scores are shown as different texts |
| `JsText.Trim` | app/page.tsx:19 | `trim()` returns the slice of the input that follows its leading white space; neither end of the result is white space, and everything cut from either end is white space |
| `JsText.TrimUnique` | app/page.tsx:19 | whenever the input is white space, then a middle with no white space at its ends, then white space, `trim()` returns exactly that middle |
| `JsText.TrimKeepsTrimmed` | app/page.tsx:19 | a string with no white space at either end is returned unchanged |
| `JsText.TrimIdempotent` | app/page.tsx:19 | trimming twice gives the same as trimming once |
| `JsText.TrimIgnoresPadding` | app/page.tsx:19 | white space added before or after the input does not change `trim()` |
| `Landing.NormalizeUrl` | app/page.tsx:19-22 | the URL sent always starts with `http://` or `https://`; it is the trimmed input when that already starts with one of them, and otherwise exactly `"https://"` followed by the trimmed input |
| `Landing.NormalizedIsTrimmed` | app/page.tsx:19-22 | the URL sent has no white space at either end |
| `Landing.NormalizeIdempotent` | app/page.tsx:19-22 | normalising an already normalised URL returns it unchanged |
| `Landing.NormalizeIgnoresPadding` | app/page.tsx:19 | white space typed around the URL does not change what is sent |
| `Landing.NormalizeTrimmedWithoutScheme` | app/page.tsx:20-21 | input with no white space at its ends and no http(s) scheme is sent as `"https://"` followed by the input |
| `Landing.NormalizeIsCaseSensitive` | app/page.tsx:20 | an upper-case `HTTPS://` is not recognised as a scheme, so `"HTTPS://a"` becomes `"https://HTTPS://a"` |
| `Landing.NormalizeBareHost` | app/page.tsx:19-21 | a host typed with white space around it is sent as `"https://"` followed by the host |
| `Landing.NormalizeEmpty` | app/page.tsx:20-21 | empty input is sent as `"https://"` |
| `Landing.ScanPath` | app/page.tsx:26 | the navigation target is `/scan/` followed by the scan id |
| `Landing.ScanForm.constructor` | app/page.tsx:9-11 | the form starts with an empty URL, no error, not loading and no navigation |
| `Landing.ScanForm.Type` | app/page.tsx:76 | typing sets the URL field |
| `Landing.ScanForm.Submit` | app/page.tsx:14-22 | a submit is accepted only when the browser's validation passes and the form is not loading; it then clears the error, sets loading and sends the normalised URL; at most one request is ever in flight |
| `Landing.ScanForm.CompleteScan` | app/page.tsx:24-30 | on success the target is `/scan/<id>` and loading stays true; on failure the error becomes the message of the `Error`, or "Something went wrong" for any other thrown value, and loading becomes false |
| `Landing.NoResubmitAfterNavigation` | app/page.tsx:24-26 | the first submit sends the normalised URL; after a successful start the form is navigated and stays loading, so a second submit sends nothing |
| `Outcomes.ErrorText` | app/page.tsx:28 | a thrown `Error` shows its own message; any other thrown value shows the fallback text |
| `ReportDialog.EmailModal.constructor` | app/components/EmailModal.tsx:21-24 | the dialog starts with an empty email and error, not loading, at the email step, with no callbacks invoked |
| `ReportDialog.EmailModal.View` | app/components/EmailModal.tsx:56-183 | a closed dialog renders nothing; an open one shows the confirmation exactly when the step is done, and otherwise the form, with the error shown exactly when it is not empty and the submit button disabled and labelled "Sending..." exactly while loading, and "Send My Free Report" otherwise |
| `ReportDialog.EmailModal.ClosesOnClick` | app/components/EmailModal.tsx:76-84 | only clicks in an open dialog close it: a click on the overlay always does, a click on the panel itself never does, the Continue button does exactly while the confirmation is shown and the No thanks button exactly while the form is shown |
| `ReportDialog.EmailModal.SetOpen` | app/components/EmailModal.tsx:47-54 | when `isOpen` becomes false, `error`, `step` and `email` are reset to "", email and ""; `loading` is never touched; opening changes nothing else |
| `ReportDialog.EmailModal.TypeEmail` | app/components/EmailModal.tsx:149 | typing changes the email only while the open dialog shows the form |
| `ReportDialog.EmailModal.BeginSubmit` | app/components/EmailModal.tsx:58-64 | a submit starts only from the open form, while not loading, when the browser's validation passes; it clears the error, sets loading, and sends the scan id and the email, without the platform |
| `ReportDialog.EmailModal.CompleteSubmit` | app/components/EmailModal.tsx:63-71 | on success the step becomes done and `onSuccess` is invoked exactly once; on failure the error becomes the message, or "Failed to send report" for a value that is not an `Error`, the step stays at email and `onSuccess` is not invoked; loading is false after either outcome |
| `ReportDialog.EmailModal.PressKey` | app/components/EmailModal.tsx:38-45 | Escape invokes `onClose` once while the dialog is open; any other key, or any key while it is closed, does nothing |
| `ReportDialog.EmailModal.Click` | app/components/EmailModal.tsx:76-84 | a click invokes `onClose` exactly once when it closes the dialog (see `ClosesOnClick`) and not at all otherwise |
| `ReportDialog.SuccessfulReport` | app/components/EmailModal.tsx:58-72 | a successful report shows the confirmation for the typed address with `onSuccess` invoked once; a second submit made while the first is loading sends nothing |
| `ReportDialog.FailedReport` | app/components/EmailModal.tsx:67-71 | a failed report shows its message on the form at the email step, re-enabled for another try, with `onSuccess` never invoked |
| `ReportDialog.LateSuccessAfterClose` | app/components/EmailModal.tsx:47-54 | a success that arrives after the dialog was closed leaves it at the confirmation step; on reopening it shows "Report Sent!" with the cleared address |

## Left out

- The HTTP client (app/lib/api.ts) is not part of this model. Each request's result is an outcome passed in: a success (with the scan id when starting a scan) or a thrown value. The client's own messages, taken from the response's `detail` or "Failed to start scan" / "Failed to request report", arrive as the message of that thrown `Error`.
- Browser constraint validation is not modelled. This covers the `required` attribute on both inputs, `type="url"`, and `type="email"`. It is represented by the `formValid` parameter of `Submit` and `BeginSubmit`.
- `NumberText.IntText`: does not produce JavaScript's exponent notation for whole numbers of 10^21 or more. Scores are 0-100.
- `ScoreGauge.GetVerdict`: scores are exact reals, so NaN and the infinities are not covered. A NaN score fails both comparisons and is therefore shown as "Looking Good".
- `JsText.Trim`: strings are sequences of Unicode scalar values, not UTF-16 code units, so lone surrogates cannot occur. None of the white-space characters is a surrogate.
- The gauge's SVG geometry is not modelled, because the circumference and dash offset are floating-point work.
- The dialog's focus management and the registering and removing of its document key listener are not modelled. Only the resulting `onClose` call is kept.
- React's scheduling of state updates and effects is not modelled. Each handler's updates are applied in order, and the reset effect runs when `isOpen` changes.
- The router is represented only by the target path. `console.log` calls are not modelled.
- The rest of the landing page's markup, the static content pages, layout and metadata, `tailwind.config.ts`, `CheckList`, `PlatformCTA` and `AnimatedCounter` are not part of this model. They are copy, styling and stateless rendering; `AnimatedCounter` also relies on floating-point easing, animation frames and locale formatting.
- The results page (app/scan/[id]/page.tsx) is not part of this model. That covers its status polling, backoff, timeout and exposure estimate. It appears here only as the host that opens and closes the dialog and shows the gauges.
