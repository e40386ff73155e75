# Frame handler of check-moxie-stats, modelled in Dafny

The repository serves one Farcaster frame (`app/frames/route.tsx`). For each
request the handler works out which user the request is about (the FID), looks
up that user's profile and Moxie earnings, and answers with either a score
screen or a splash screen plus one or two buttons. This project models the
decision logic of that handler. The network lookups are replaced by their
outcomes, so every path is deterministic:

- **FID resolution** (`fid_resolution.dfy`). There are three sources: a truthy
  requester FID, else the `userfid` query parameter of the request URL, then,
  if the result is still falsy, `lastFid` from the frame state. JavaScript
  truthiness is modelled exactly. An empty `userfid=` counts as not found, and
  it can still leave `""` as the FID.
- **Lookups** (`lookups.dfy`). The `UserData` literal is built from the
  first `Social` record with its per-field `||` defaults. The file also holds
  what each lookup makes of its upstream outcome (`Upstream<T>`: bad status,
  rejection, or body).
- **Shared variables** (`frame_handler.dfy`). Class `HandlerState` holds the
  `userData`, `moxieData` and `error` variables the two fetch closures assign.
  `FetchBoth` models `Promise.all`, with the order in which the two lookups
  settle as an input. Each closure writes only once, in the synchronous step
  after its last `await`, so the two orders cover every interleaving.
- **Response** (`response.dfy`). The share URL, the buttons built by `push`,
  and the image ternary `fid && !error`. The buttons depend only on `userData`
  and the image depends on `error`, so a profile success together with an
  earnings failure gives the splash screen with a Share button
  (`FrameHandler.SplashWithShare`).
- **Shared helpers** (`js_values.dfy`, `wrappers.dfy`). JavaScript truthiness,
  `||` chains, the decimal text of a number (`toString()` / template
  literals), and Option/Result.

Three behaviours of the code are easy to misread:

- The image test is the truthiness of `error`, not whether an error was
  recorded. A rejection with an empty message therefore still yields the
  score screen (`FrameHandler.EmptyRejectionShowsScore`). With such a message
  the settle order can also change the screen
  (`FrameHandler.EmptyRejectionMakesOrderMatter`). The "score iff both lookups
  succeeded" property is proved under the condition that every rejection
  carries a message. The failures the handler raises itself always carry one.
- The Share button appears whenever a profile record exists. It does not
  depend on whether the score screen is chosen.
- An unresolved FID is not always absent. An empty `userfid=` with no usable
  `lastFid` leaves `""`. The check button then targets `?userfid=` and not
  `?userfid=null`.

## Model

| member | source | states |
|---|---|---|
| JsValues.FirstTruthy | app/frames/route.tsx:106-121 | the result is truthy; it is absent iff no operand is truthy; otherwise it is the operand at the first truthy index |
| JsValues.Or | app/frames/route.tsx:53-64 | the JavaScript or-operator on an optional string and a fallback yields the string when it is non-empty, else the fallback |
| JsValues.OrChainIsFirstTruthy | app/frames/route.tsx:53-64 | a two-operand or-chain ending in a fallback yields the first truthy of `[a, b]`, else the fallback |
| JsValues.NatToDecimal | app/frames/route.tsx:109 | the decimal text of a number is non-empty, all digits, and has no leading zero unless the number is 0 |
| JsValues.DecimalRoundTrip | app/frames/route.tsx:109 | reading back the decimal text of `n` gives `n` |
| JsValues.IntToString | app/frames/route.tsx:109 | `toString()` of an integer is non-empty, starts with '-' iff negative, and is otherwise the decimal text |
| JsValues.IntToStringInjective | app/frames/route.tsx:109 | distinct requester FIDs give distinct FID strings |
| FidResolution.SearchParamsGet | app/frames/route.tsx:96 | `searchParams.get` is null iff no pair has the name; otherwise it is the value of the first pair with that name |
| FidResolution.ExtractFid | app/frames/route.tsx:93-104 | a URL that does not parse gives null; otherwise the result is present iff a `userfid` pair exists, and is the first one's value |
| FidResolution.ResolveFid | app/frames/route.tsx:106-121 | the step-by-step assignment of `fid` yields the first truthy source, or else the falsy value the URL step left |
| FidResolution.RequesterFidWins | app/frames/route.tsx:108-110 | a truthy requester FID is the result, as its decimal text, whatever the URL and state hold |
| FidResolution.UrlFidBeforeState | app/frames/route.tsx:111-112 | with no truthy requester FID, a non-empty `userfid` is the result and `lastFid` is ignored |
| FidResolution.StateFallback | app/frames/route.tsx:118-120 | when neither requester nor URL gives a truthy FID, a truthy `lastFid` is used; otherwise the falsy URL result stands |
| FidResolution.ResolvedTruthyIffSomeHint | app/frames/route.tsx:106-121 | the resolved FID is truthy iff one of the three sources is |
| FidResolution.NoHintNoFid | app/frames/route.tsx:106-121 | with no hint anywhere the FID is null |
| FidResolution.RequesterBeatsUrlExample | app/frames/route.tsx:108-112 | requester 100 with URL `userfid=200` resolves to "100" |
| FidResolution.UrlAndStateExamples | app/frames/route.tsx:111-120 | "200" from the URL beats state "300"; state "300" alone is used; an empty `userfid` falls through to state or stays ""; a malformed URL and an empty `lastFid` give null |
| Lookups.BuildUserData | app/frames/route.tsx:51-65 | each field's fallback chain: name is the first truthy of display name and profile name, else "Unknown"; username is profile name, else "unknown"; fid, display name, score and rank fall back to "N/A" (rank 0 counts as missing); power user is false unless true upstream; image is the first truthy of extraSmall and profileImage, else ""; every text field except the image is non-empty |
| Lookups.ProfileResult | app/frames/route.tsx:33-75 | a record is produced iff the body holds a non-empty `Social` list, and it is built from the first record; an empty or missing list fails with "No user data found"; a bad status fails with the Airstack status message; a rejection passes its message through |
| Lookups.MoxieResult | app/frames/route.tsx:77-91 | earnings are produced iff a body arrived, and they are that body; a bad status fails with the Moxie status message; a rejection passes its message through |
| Lookups.OwnFailuresHaveMessages | app/frames/route.tsx:40-44 | the failures the handler raises itself (bad status, no user data) always carry a non-empty message |
| Lookups.OnlyFirstSocialCounts | app/frames/route.tsx:51 | records after the first `Social` never change the result |
| Response.ShareUrl | app/frames/route.tsx:179-181 | the share URL is the fixed compose base, extended by `?userfid=<fid>` iff the FID is truthy |
| Response.TemplateText | app/frames/route.tsx:187 | `${fid}` renders null as "null" and a string as itself |
| Response.ButtonsFor | app/frames/route.tsx:183-200 | one button when there is no profile record, two otherwise; the first is always the post button "Check your" to `appURL()?userfid=<fid>`; the second is the Share link to the share URL |
| Response.BuildButtons | app/frames/route.tsx:183-200 | the `push` sequence yields exactly that button list |
| Response.ImageFor | app/frames/route.tsx:203 | the score screen iff the FID is truthy and the error slot is not; it then shows the current records |
| Response.TargetsAgreeOnFid | app/frames/route.tsx:179-193 | for a truthy FID both targets carry it; for null the check target ends "?userfid=null" and the share URL has no query; for "" the check target ends "?userfid=" |
| FrameHandler.HandlerState.constructor | app/frames/route.tsx:27-30 | all three shared variables start null |
| FrameHandler.HandlerState.FetchUserData | app/frames/route.tsx:33-75 | on success only `userData` is assigned; on failure only `error` is; `moxieData` never changes |
| FrameHandler.HandlerState.FetchMoxieData | app/frames/route.tsx:77-91 | on success only `moxieData` is assigned; on failure only `error` is; `userData` never changes |
| FrameHandler.HandlerState.FetchBoth | app/frames/route.tsx:128-130 | the shared variables end as both closures' writes leave them, in the given settle order |
| FrameHandler.ShouldFetch | app/frames/route.tsx:125-126 | a truthy FID that no present record already holds; with no record it is exactly the FID's truthiness |
| FrameHandler.Fetched | app/frames/route.tsx:128-130 | the initial variables when the FID is falsy, otherwise both lookups joined in the given order: each record present iff its lookup succeeded, an error iff one failed |
| FrameHandler.HandleFrame | app/frames/route.tsx:106-205 | the handler's response is the image and buttons derived from the resolved FID and the variables after the fetch step |
| FrameHandler.ShouldFetchOnFreshState | app/frames/route.tsx:125-130 | with no record yet, the lookups run iff the FID is truthy |
| FrameHandler.ShouldFetchSkipsHeldFid | app/frames/route.tsx:125-126 | the guard skips a FID that the present record already holds |
| FrameHandler.JoinedRecords | app/frames/route.tsx:129 | after both lookups, in either order, each record is present iff its own lookup succeeded |
| FrameHandler.JoinedError | app/frames/route.tsx:69-71 | after both lookups, in either order, an error is recorded iff at least one lookup failed; it is the message of the failure that settled last |
| FrameHandler.FailuresClearNothing | app/frames/route.tsx:87-90 | a failed earnings lookup never clears `userData`, and a failed profile lookup never clears `moxieData` |
| FrameHandler.JoinOrderIrrelevant | app/frames/route.tsx:129 | the two settle orders agree on both records and on whether an error exists, and on everything unless both lookups failed |
| FrameHandler.UnresolvedIgnoresLookups | app/frames/route.tsx:125-130 | with a falsy FID the response is the splash screen and the single check button, whatever the lookups would return |
| FrameHandler.NoHintSplash | app/frames/route.tsx:185-203 | with no hint anywhere: the splash screen and one check button to `?userfid=null` |
| FrameHandler.ShareIffProfile | app/frames/route.tsx:185-200 | the Share button is present iff the FID is truthy and the profile lookup succeeded, whatever the earnings lookup did |
| FrameHandler.ScoreIffBothSucceed | app/frames/route.tsx:203 | when rejections carry messages: the score screen iff the FID is truthy and both lookups succeeded, and it then has both records |
| FrameHandler.SplashWithShare | app/frames/route.tsx:185-203 | profile success with earnings failure gives the splash screen together with the Share button |
| FrameHandler.ResponseOrderIrrelevant | app/frames/route.tsx:129 | when rejections carry messages, the settle order does not change the response |
| FrameHandler.EmptyRejectionShowsScore | app/frames/route.tsx:89 | an earnings rejection with an empty message still yields the score screen, without earnings |
| FrameHandler.EmptyRejectionMakesOrderMatter | app/frames/route.tsx:89 | with an empty rejection message, the settle order decides between splash and score |

## Left out

- Network I/O: `fetch`, `response.json()`, and the lookup URLs built with
  `appURL()` and `encodeURIComponent(fid)`. Each lookup is an input of type
  `Upstream<T>`: a non-OK status, a rejection with its message, or the parsed
  body. HTTP handling goes no further than OK versus not OK.
- `Promise.all` scheduling. This becomes the input `profileSettlesFirst`.
- Malformed profile bodies (no `userData` or no `Socials`) raise a TypeError
  whose message is a runtime string. They are folded into `Rejected(message)`.
  These are not modelled:
  - a `Social` value that is not an array;
  - a null first record;
  - a score that makes `toFixed` throw.
- A literal JSON `null` earnings body is not modelled. It would leave
  `moxieData` null without an error.
- Thrown values that are not `Error` objects are not modelled. Their
  `message` would be undefined, which is falsy like "".
- `requesterFid` is modelled as an integer. NaN and fractional numbers are not
  modelled.
- JsValues.IntToString: requester FIDs are taken to be safe integers
  (|n| <= 2^53 - 1), where `toString()` gives the exact decimal text. Beyond
  that range JavaScript prints the shortest round-tripping digits, or
  exponent form from 10^21 on, and the model does not.
- URL parsing per the WHATWG URL Standard, including percent-decoding of the
  query. The outcome of `new URL(...)` is an input (`UrlInput`): malformed, or
  the decoded name/value pairs in order.
- The score text is taken as the opaque string `toFixed(2)` yields.
- The price lookup and `parseFloat` of the price (lines 132-134) are left out.
- FrameHandler.HandleFrame: its response assumes the price lookup returns a
  JSON body. A rejected price `fetch`, a body that is not JSON, or a `null`
  body (whose `.USD` read throws) throws out of the handler, so no response
  is sent; the model does not capture that outcome.
- The ×5 and ×10 score scaling, the earnings × price conversion, and
  `formatNumber` are left out. All of these are floating-point display
  arithmetic in the JSX.
- `appURL()` and `formatNumber` come from `../utils`, which is not part of
  this model. `appURL()` becomes the parameter `appUrl`.
- `encodeURIComponent` of the share text appears only as its encoded result,
  the constant `Response.ShareText`.
- JSX rendering of the two screens is left out. The score screen is modelled
  as the records it is given.
- `console.log` / `console.error` are left out.
- The `isLoading` flag is left out: it is written but never read.
- `tailwind.config.ts` is static styling with no logic.
