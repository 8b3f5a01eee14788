# Credit cache and preview session of the AI screen-mockup app

This project models two stateful parts of the mobile client in Dafny and proves properties about them.

- **The credit balance cache.** This is the zustand store in `app/stores/credits.ts`, modelled as the class `CreditsStore.Store`. Its three setters are also modelled as `CreditsStore.Step` on a `Snapshot` value, and `CreditsStore.Run` applies a sequence of setter calls. The module `CreditsApi` models `loadCredits(force)` from `app/api/credits.ts`:
  - a five-minute freshness test (`CacheHit`);
  - then one fetch attempt, whose result is the input `FetchOutcome`;
  - then the setter calls that record that result.

  `CreditsApi.LoadCredits` is split at its `await` into `BeginLoad` (the freshness test, loading on, error cleared) and `FinishLoad` (the outcome write, loading off). Each half is proved to leave the store in the state `Run` gives for its own setter calls (`BEGIN_ACTIONS` and `FinishActions`). So the state while the fetch is pending is proved, as well as the final state. Lemmas about `Run` and `Load` give the cache's guarantees.
- **The preview screen** (`app/preview.tsx`), modelled in module `Preview`:
  - The two process-wide globals `generatedHtml` and `editedHtml` form the class `Handoff`. The empty string stands for an unset global, because both are falsy in JavaScript.
  - The screen's React state forms the class `PreviewSession`. It holds a reference to the `Handoff`.
  - `Mount` is the mount effect. It chooses a slot by `source`.
  - `HandleEditSubmit` is split at its `await` into `BeginEdit` (guard and request) and `FinishEdit` (applying the service's answer, the input `EditResult`).
  - `Handoff.WriteGenerated` is the generate screen's write of new markup into the generated slot (line 167 of `app/(tabs)/index.tsx`). It overwrites that slot and leaves the edited slot alone.
  - The toggles are methods of the session. `htmlWrapper` is the pure function `HtmlWrapper`.
  - Module `JsString` models JavaScript's `String.prototype.trim`, which the edit guard and the request use. It strips the ECMAScript WhiteSpace and LineTerminator code points.

Inputs stand in for I/O:
- The clock is two parameters of `LoadCredits`. `now` is read by the freshness test. `completedAt` is read by `setCredits` once the response has arrived.
- The token lookup, the HTTP status and the JSON decoding are folded into `FetchOutcome`.
- The edit service's answer is `EditResult`.
- The platform (`Platform.OS`) is the parameter `os`.

JavaScript truthiness is kept where the source relies on it:
- A `lastUpdated` of `0` is falsy, so it never counts as a cache hit.
- A `currentScreenId` of `""` fails the edit guard, just as `null` does.
- An empty handoff slot counts as unset.

Some behaviour one might expect of this cache is not in the modelled files:
- No part of the code grants credits optimistically.
- `loadCredits` and the store do not fold the remaining credit counts of generate or edit responses into the cache. The generate screen does this for `remainingScreenCredits` (`app/(tabs)/index.tsx`, lines 170-175), outside this model. Its `setCredits` call also restamps `lastUpdated`. The edit path in the preview screen does not touch the store.
- `loadCredits` does not classify "Insufficient credits" errors. The generate screen does this for its own alert (`app/(tabs)/index.tsx`, line 193), outside this model.
- The preview screen never consumes or clears a handoff slot. Reading a slot is idempotent.

## Model

| member | source | states |
|---|---|---|
| CreditsStore.Store.constructor | app/stores/credits.ts:20-24 | A new store has no credits, is not loading, has no error and was never updated. |
| CreditsStore.Store.SetCredits | app/stores/credits.ts:25 | `credits` becomes exactly the given record and `lastUpdated` the clock reading. `isLoading` and `error` are unchanged, and the store invariant is kept. |
| CreditsStore.Store.SetError | app/stores/credits.ts:26 | Only `error` changes. |
| CreditsStore.Store.SetLoading | app/stores/credits.ts:27 | Only `isLoading` changes. |
| CreditsStore.RunKeepsConsistent | app/stores/credits.ts:20-27 | After any sequence of setter calls, `credits` is present exactly when `lastUpdated` is, provided this held before. |
| CreditsStore.ReachableIsConsistent | app/stores/credits.ts:20-27 | Every state reachable from the initial state satisfies that invariant. |
| CreditsStore.RunNeverClearsCredits | app/stores/credits.ts:25-27 | Once `credits` is present, no sequence of setter calls makes it absent again. |
| CreditsStore.RunAppend | app/stores/credits.ts:25-27 | Running one sequence of setter calls and then another gives the same state as running the two in one sequence. |
| CreditsStore.RunCreditsAreLastWritten | app/stores/credits.ts:25-27 | The stored credits are those of the last `setCredits` call. When there is none, they are the earlier credits: no other setter touches them. |
| CreditsApi.FreshnessWindow | app/api/credits.ts:12-36 | The cache lifetime is 300000 ms. An unforced call with cached credits and a non-zero stamp hits exactly when `now < stamp + 300000`. A stamp exactly 300000 ms old misses. A forced call never hits. |
| CreditsApi.EmptyCacheMisses | app/api/credits.ts:29-36 | With no credits, no stamp or a zero stamp, the call never returns early. |
| CreditsApi.LoadBracketsFetch | app/api/credits.ts:38-62 | On a miss, the setter calls are: loading on, then error cleared, then exactly one outcome write, then loading off. The outcome write is `setCredits` exactly when the fetch succeeded. |
| CreditsApi.PendingState | app/api/credits.ts:38-39 | After the two calls made before the fetch, the store is loading and has no error. It still holds its earlier credits and stamp. |
| CreditsApi.FinishedState | app/api/credits.ts:56-62 | After the calls made once the attempt has ended, the store is not loading. On success it holds the fetched credits stamped at `completedAt`, and the error is unchanged. On failure it keeps its credits and stamp and records the failure's message. |
| CreditsApi.LoadOutcome | app/api/credits.ts:26-63 | On a hit the store is unchanged. On a miss it ends not loading. On success it holds the fetched credits, stamped at `completedAt`, with no error. On failure it keeps the old credits and stamp and records the failure's message: "No authentication token available", "Failed to load credits", the thrown error's message, or "An error occurred". The store invariant is kept. |
| CreditsApi.FetchReplacesWholesale | app/api/credits.ts:56-57 | A forced, successful load gives the same store whatever the store held before. |
| CreditsApi.BeginLoad | app/api/credits.ts:28-39 | It goes on to fetch exactly when the freshness test misses, and always when forced. On a hit the store is unchanged. On a miss the store is loading with no error, with its credits and stamp unchanged, and equals `Run` of the two setter calls made before the fetch. |
| CreditsApi.FinishLoad | app/api/credits.ts:41-62 | Loading ends. Success stores the fetched credits stamped at `completedAt`. Failure keeps the credits and stamp and records the message for `NoToken`, `HttpNotOk`, a thrown error or a thrown non-error. The new store equals `Run` of those setter calls. |
| CreditsApi.LoadCredits | app/api/credits.ts:26-63 | It fetches exactly when the freshness test misses, and always when forced. Its outcome is the one described for `LoadOutcome`. The new store equals `Load` of the old one, and the invariant is kept. |
| JsString.TrimStartIsSuffix | app/preview.tsx:179 | Dropping leading white space keeps a suffix of the input. Everything dropped is white space, and what is kept does not start with white space. |
| JsString.TrimEndIsPrefix | app/preview.tsx:179 | Dropping trailing white space keeps a prefix of the input. Everything dropped is white space, and what is kept does not end with white space. |
| JsString.TrimIsEmptyIffBlank | app/preview.tsx:179 | `trim` gives the empty string exactly when every character is white space. |
| JsString.TrimIsInfix | app/preview.tsx:189 | `trim` returns a contiguous infix of its input. |
| JsString.TrimDropsOnlyWhiteSpace | app/preview.tsx:189 | Everything `trim` removes, before and after that infix, is white space. |
| JsString.TrimKeepsNoOuterWhiteSpace | app/preview.tsx:189 | The trimmed string neither starts nor ends with white space. |
| JsString.TrimIdempotent | app/preview.tsx:189 | Trimming twice is the same as trimming once. |
| Preview.Handoff.constructor | app/preview.tsx:32-35 | At process start neither handoff slot holds markup. |
| Preview.InitialScreenId | app/preview.tsx:50-52 | A missing or empty `screenId` parameter gives no id. Any other value is kept unchanged. The result is never the empty string. |
| Preview.PreviewSession.constructor | app/preview.tsx:41-52 | Initial screen state: no markup, no error, an empty prompt, not editing, modal, controls and status bar hidden, and the id from `InitialScreenId`. |
| Preview.PreviewSession.Mount | app/preview.tsx:64-77 | With `source == "generated"` and a set generated slot, the markup becomes that slot. Otherwise, with `source == "edited"` and a set edited slot, it becomes the edited slot. Otherwise the error becomes "No HTML content available". Neither slot is changed. |
| Preview.PreviewSession.OpenEditModal | app/preview.tsx:168-171 | The edit modal opens. Nothing else changes. |
| Preview.PreviewSession.SetEditPrompt | app/preview.tsx:338-339 | The prompt becomes the typed text. Nothing else changes. |
| Preview.PreviewSession.ToggleControls | app/preview.tsx:163-166 | Only `showControls` changes, and it is negated, so two calls restore it. |
| Preview.PreviewSession.ToggleStatusBar | app/preview.tsx:173-176 | Only `showStatusBar` changes, and it is negated, so two calls restore it. |
| Preview.BlankPromptNeverSubmits | app/preview.tsx:179-181 | A prompt made only of white space never passes the edit guard, whatever the screen id. |
| Preview.SubmittedPromptIsTrimmed | app/preview.tsx:186-190 | Past the guard, the prompt sent is non-empty and has no leading or trailing white space. Trimming it again changes nothing. |
| Preview.PreviewSession.BeginEdit | app/preview.tsx:178-190 | It sends a request exactly when the trimmed prompt is non-empty and the id is truthy. The request carries the current id and the trimmed prompt. The screen is then editing and the modal is closed. When the guard fails, nothing changes. |
| Preview.PreviewSession.FinishEdit | app/preview.tsx:192-208 | On success, the current markup and the edited slot both become the new markup, the id becomes the returned id, and the prompt is cleared. On failure, all four stay as they were. Editing always ends, and the generated slot is never touched. |
| Preview.PreviewSession.HandleEditSubmit | app/preview.tsx:178-209 | It combines the two halves. The guard decides whether a request is sent. A rejected submit changes neither the screen nor the slots. An accepted one ends not editing, with the modal closed and the outcome of `FinishEdit`. |
| Preview.HtmlWrapperEmbedsMarkup | app/preview.tsx:88-121 | The page holds the current markup verbatim as its body. The body starts at an offset fixed by the status-bar setting and the platform, and the fixed closing tags follow it. |
| Preview.StyleTailMarksStatusBar | app/preview.tsx:106-115 | The text after the fixed head shows at a fixed offset whether the status-bar padding rule is present: `body` begins there with the rule, `</style>` without it. |
| Preview.HtmlWrapperInjective | app/preview.tsx:88-121 | Different markup or a different status-bar setting always gives a different page. |

## Left out

- Overlapping async calls are not modelled: concurrent `loadCredits` calls, or concurrent edits racing on the handoff slot. Each call here runs to completion before the next starts.
- Stale hook values are not modelled: in the source the freshness test reads the `credits` and `lastUpdated` captured when the hook last rendered. Here it reads the store's current values.
- The shape of the response body is not checked. `setCredits` stores whatever JSON the server returns; here that is always a `UserCredits` record.
- Timestamps are unbounded integers. JavaScript number behaviour (NaN, precision) is not modelled.
- The HTTP calls are not modelled: the token lookup, `fetch` and JSON parsing in `app/api/credits.ts`, and `editMockup` in `app/api/mockups.ts`. Their results are the inputs `FetchOutcome` and `EditResult`. A response that lacks `html` or `screenId` is not modelled.
- The mount effect's `catch` branch ("Failed to load HTML content") is not modelled. Reading the two globals cannot throw.
- Preview.InitialScreenId: the `screenId` route parameter is modelled as a string only. Routing can also produce a string array, and `(screenId as string) || null` keeps an array as it is, so `currentScreenId` would then hold an array. That case is not modelled.
- The `source` route parameter is modelled as a string only. The array form that routing can also produce is not modelled.
- Not modelled because they are UI side effects:
  - screenshot capture and the media-library permission;
  - haptics and alerts;
  - the native status-bar side effect;
  - the web view's `onLoad` and `onError` callbacks and the `isLoading` flag they drive;
  - back navigation, the modal's close buttons and the style sheet.
- The generate screen's update of the credits store after a generation (`app/(tabs)/index.tsx`) is not part of this model. Only its write to the generated slot is modelled.
