# Word cloud: a Dafny model of the client components

The application is a live word cloud. An admin panel sends questions. Respondents
each submit one word per question. A display screen counts the submitted words and
draws them as a cloud, each word sized by how often it was submitted. This project
models the four React components that hold the application's own logic:

- `Cloud` (module `Cloud`, `cloud.dfy`), the renderer:
  - counts the words into an exact-match frequency table;
  - sizes each distinct word between 16 and 72 in proportion to its count over the
    largest count;
  - picks the weight, colour and rotation of each word;
  - hands the sized words to the layout engine and draws what the engine places.

  The renderer is a class `CloudView` with its props, the drawn groups and the
  pending layouts. The counting loop and the key enumeration are methods with
  loops, proved against the functions `Frequencies` and `IsEnumeration`.
- `Display` (`display.dfy`), the display page:
  - the word buffer fed by the channel;
  - the question;
  - the theme, presentation-mode and section-visibility switches;
  - the canvas size computed from the window.

  It is the class `DisplayState` and drives a `CloudView`.
- `Admin` (`admin.dfy`), the admin panel: the sent list, the saved queue and
  auto-send. It is the class `AdminPanel`. The auto-send timer is the environment
  calling `AutoSendTick`, and `TickStep`/`AfterTicks` give the same tick on values.
- `Respond` (`respond.dfy`), the respondent page: the current question, the answer
  field, the first-non-blank submit and the capped local history, in the class
  `ResponsePanel`.

Two small modules support these:

- `Text` (`text.dfy`) gives JavaScript's `trim()` over the ECMAScript whitespace
  and line-terminator code points. A string is blank when its trim is empty.
- `Wrappers` gives the `Option` type.

How the environment is modelled:

- A channel `emit` is the `emitted` result of a method. A channel event is a call
  of the handler method.
- `Date.now()` is an integer parameter `now`.
- `Math.random()` is a real parameter in [0, 1).
- The confirmation dialog's answer is a boolean parameter.
- The order of `Object.keys` is a nondeterministic enumeration.
- Sizes and dimensions are `real`.
- The layout engine is opaque. A started layout is a `LayoutRequest`. Its
  completion is a call of `CloudView.LayoutEnd` with any placed-word list the
  engine may produce for it (`IsLayoutOf`): some of the requested words, each at
  most once with its text and count, each rotated by one of the five angles. The
  engine reports each size cut to an integer (`EngineSize`): `d3-cloud` stores
  `~~fontSize(d)` for the accessor given at `Cloud.jsx:51`, and for the positive
  sizes of a cloud that is the integer part.

The renderer has no staleness check. When a layout completes, `draw` selects
whatever svg is mounted at that moment, with no check of which words or question
started the layout (`Cloud.jsx:58-60`). A layout that ends after the question
changed therefore still draws its words into the current canvas, and the model
keeps that behaviour (`StaleLayoutStillDraws`).

## Model

| member | source | states |
|---|---|---|
| Cloud.Palette | wordcloud/src/components/Cloud.jsx:16-27 | each theme's palette has exactly ten colours |
| Cloud.Bump | wordcloud/src/components/Cloud.jsx:32 | one occurrence of a word: the word becomes a key whose count is one more than before, or 1 if it was absent; `Frequencies` builds the whole table from it |
| Cloud.Frequencies | wordcloud/src/components/Cloud.jsx:30-33 | the table's keys are exactly the submitted strings, matched exactly; each key maps to its number of occurrences, which is at least 1 |
| Cloud.FrequenciesTotal | wordcloud/src/components/Cloud.jsx:30-33 | the counts of the table add up to the number of submissions |
| Cloud.CountFrequencies | wordcloud/src/components/Cloud.jsx:30-33 | the `forEach` loop builds exactly the frequency table: keys are the submitted strings, values their occurrence counts |
| Cloud.EnumerateKeys | wordcloud/src/components/Cloud.jsx:41 | `Object.keys` lists every key of the table exactly once, in some order |
| Cloud.MaxCount | wordcloud/src/components/Cloud.jsx:35 | the maximum over the listed keys is one of their counts and no count exceeds it |
| Cloud.MaxCountIsMax | wordcloud/src/components/Cloud.jsx:35 | in whatever order the keys are enumerated, the maximum is the largest count of a non-empty table |
| Cloud.FontSize | wordcloud/src/components/Cloud.jsx:36-43 | every size lies in (16, 72]; a size is exactly 72 if and only if the count equals the maximum |
| Cloud.FontSizeMonotone | wordcloud/src/components/Cloud.jsx:43 | for a fixed maximum, a higher count never gives a smaller size, and a strictly higher one gives a strictly larger size |
| Cloud.SizeWords | wordcloud/src/components/Cloud.jsx:41-45 | one sized entry per enumerated key, with its text, its size from the formula and its count |
| Cloud.SizedByFormula | wordcloud/src/components/Cloud.jsx:41-45 | every sized entry carries a count between 1 and the maximum and exactly the size `16 + (f / maxFreq) * 56` for it |
| Cloud.SizedEntries | wordcloud/src/components/Cloud.jsx:41-45 | the sized entries have distinct texts, each a key of the count table carrying that key's count |
| Cloud.SizedCovers | wordcloud/src/components/Cloud.jsx:41-45 | every key of the count table gets a sized entry |
| Cloud.SizedMaxIff | wordcloud/src/components/Cloud.jsx:41-45 | an entry is drawn at 72 exactly when no entry has a larger count |
| Cloud.SizedMonotone | wordcloud/src/components/Cloud.jsx:41-45 | a word with no smaller count than another is drawn no smaller |
| Cloud.SizedCloud | wordcloud/src/components/Cloud.jsx:30-45 | for non-empty input: entries have distinct texts and cover every submitted word; each carries its occurrence count; sizes lie in (16, 72]; exactly the most frequent words get 72; sizes are ordered as counts are |
| Cloud.UniformCountsGiveMaxSize | wordcloud/src/components/Cloud.jsx:35-43 | when every word occurs equally often, every word is sized 72 |
| Cloud.SizedRequest | wordcloud/src/components/Cloud.jsx:30-46 | the request built from any enumeration of the table, sized against its largest count with padding 8, is a request for these words in the sense of `IsRequestFor` |
| Cloud.SizedAgainstMax | wordcloud/src/components/Cloud.jsx:35-45 | some largest count of the table exists against which every entry's size is the formula's size for its count |
| Cloud.BuildRequest | wordcloud/src/components/Cloud.jsx:30-46 | for a non-empty word list, counting, enumerating, taking the largest count and sizing yields a request for these words on the given canvas and theme in the sense of `IsRequestFor` |
| Cloud.FontWeight | wordcloud/src/components/Cloud.jsx:108 | the weight is "700" if and only if the count is above 1, and "600" otherwise |
| Cloud.Fill | wordcloud/src/components/Cloud.jsx:105 | the i-th placed word's colour, `colors[i % colors.length]`, is always a colour of the theme's palette; `FillCycles` pins down which one |
| Cloud.FillCycles | wordcloud/src/components/Cloud.jsx:105 | the i-th placed word's colour is palette entry i mod 10; colours repeat every ten words; the light palette has "#8B5CF6" at positions 1 and 6 |
| Cloud.DarkPaletteDistinct | wordcloud/src/components/Cloud.jsx:21-24 | the ten dark colours are pairwise different |
| Cloud.RotationIndex | wordcloud/src/components/Cloud.jsx:49 | for a draw r in [0, 1), the index floor(5r) is a valid index of the rotation list |
| Cloud.ChooseRotation | wordcloud/src/components/Cloud.jsx:47-50 | the chosen rotation is one of 0, 90, -90, 45, -45 |
| Cloud.RotationIndexInterval | wordcloud/src/components/Cloud.jsx:49 | rotation k is chosen exactly for draws in [k/5, (k+1)/5), so each angle gets a fifth of the range |
| Cloud.RotationsAreTheChoices | wordcloud/src/components/Cloud.jsx:47-50 | an angle is in the rotation list exactly when some draw in [0, 1) makes the `rotate` accessor choose it, so the layout's allowed rotations are exactly the choosable ones |
| Cloud.EngineSize | wordcloud/src/components/Cloud.jsx:51 | the size the engine reports for a requested size is the largest integer not above it |
| Cloud.EngineSizeBounded | wordcloud/src/components/Cloud.jsx:51 | a requested size in (16, 72] is reported as a whole size in [16, 72] |
| Cloud.EngineSizeMonotone | wordcloud/src/components/Cloud.jsx:51 | cutting sizes to integers keeps their order |
| Cloud.Compose | wordcloud/src/components/Cloud.jsx:100-141 | one glyph per placed word, in placed order, with its text, reported size, position and rotation; its colour is palette entry i mod 10; its weight is `FontWeight` of its count ("700" above 1, "600" otherwise); its entrance delay is i * 50 ms, so delays strictly increase with the index |
| Cloud.ComposedGlyphsBounded | wordcloud/src/components/Cloud.jsx:100-113 | glyphs drawn from a layout of sized words have whole-pixel sizes in [16, 72] and rotations among the five angles |
| Cloud.DrawnSizesOrdered | wordcloud/src/components/Cloud.jsx:41-51 | in a drawn group, a word with no smaller count than another is drawn no smaller; the order is no longer strict once sizes are cut to integers |
| Cloud.PlacingOneWord | wordcloud/src/components/Cloud.jsx:47-51 | one requested word, reported with its cut size, unrotated at the centre, is a layout the engine may report |
| Cloud.ViewFor | wordcloud/src/components/Cloud.jsx:151-175 | the waiting message is rendered exactly when there are no words, otherwise the svg |
| Cloud.CloudView.constructor | wordcloud/src/components/Cloud.jsx:6-7 | a new renderer has its props, no words, no svg, nothing drawn and no layout pending |
| Cloud.CloudView.DrawEffect | wordcloud/src/components/Cloud.jsx:9-56 | with no words nothing changes and no layout starts; otherwise the svg is cleared and a layout starts whose request carries the canvas, padding 8 and the theme, and one entry per distinct word with its count and the size `16 + (f / maxFreq) * 56` against the largest count |
| Cloud.CloudView.QuestionEffect | wordcloud/src/components/Cloud.jsx:145-147 | a question change removes everything drawn |
| Cloud.CloudView.Update | wordcloud/src/components/Cloud.jsx:6-175 | after a re-render: the props are the new ones and the svg is mounted exactly when there are words; a layout starts exactly when there are words and the words, size or theme changed; a new question, a new layout or no words leave the canvas empty; otherwise the drawing stays |
| Cloud.CloudView.Render | wordcloud/src/components/Cloud.jsx:151-175 | the render step of a props change: the new props are taken, the svg is mounted exactly when there are words, a newly mounted or unmounted svg is empty, and a kept svg keeps its drawing |
| Cloud.CloudView.LayoutEnd | wordcloud/src/components/Cloud.jsx:54-141 | a finished layout leaves the pending list and appends its glyph group to the mounted svg, with no staleness check; without an svg nothing is drawn |
| Cloud.TwoLayoutsPending | wordcloud/src/components/Cloud.jsx:9-147 | one word for a question starts a layout; a new question and one new word start a second layout while the first is still pending, and the canvas is mounted and empty |
| Cloud.StaleLayoutStillDraws | wordcloud/src/components/Cloud.jsx:9-147 | a layout started for one question, ending after the question changed and a new word arrived, still draws the old word; once the new word's layout ends too, the canvas holds the old word's group and then the new word's group |
| Display.Flip | wordcloud/src/components/wordcloud.jsx:329 | toggling one section flips its visibility and leaves the other two as they were |
| Display.FlipTwice | wordcloud/src/components/wordcloud.jsx:329 | toggling a section twice restores the visibility |
| Display.CloudDimensions | wordcloud/src/components/wordcloud.jsx:118-133 | in fullscreen the canvas is exactly the window less 100 by 200; otherwise its width lies in [400, 1080] and its height in [300, 600] |
| Display.CloudDimensionsMonotone | wordcloud/src/components/wordcloud.jsx:126-132 | outside fullscreen a larger window never gives a smaller canvas; the canvas reaches 1080 x 600 from a 1264 x 1000 window on and stays at 400 x 300 up to a 508 x 500 window |
| Display.FullscreenCanBeEmpty | wordcloud/src/components/wordcloud.jsx:119-124 | in fullscreen a small enough window gives a canvas with no width or no height |
| Display.DisplayState.constructor | wordcloud/src/components/wordcloud.jsx:12-27 | the page starts with no words, no question, the light theme, all sections shown and not in fullscreen |
| Display.DisplayState.OnWord | wordcloud/src/components/wordcloud.jsx:30-32 | a word event appends exactly that word at the end and leaves the earlier words as they were |
| Display.DisplayState.OnQuestion | wordcloud/src/components/wordcloud.jsx:34-37 | a question event sets the question and empties the words, whatever they were and even for the same question |
| Display.DisplayState.ToggleTheme | wordcloud/src/components/wordcloud.jsx:84-86 | the dark-theme flag flips, and so does the theme the cloud receives |
| Display.DisplayState.CloudTheme | wordcloud/src/components/wordcloud.jsx:284 | the cloud gets the dark theme exactly when the dark-theme flag is set |
| Display.DisplayState.ToggleMinimalView | wordcloud/src/components/wordcloud.jsx:88-103 | presentation mode flips; entering it shows only the question, leaving it shows all sections; the question stays shown, so afterwards the heading shows exactly when there is a question |
| Display.DisplayState.ToggleSection | wordcloud/src/components/wordcloud.jsx:329 | only the toggled section's visibility changes |
| Display.DisplayState.OnResize | wordcloud/src/components/wordcloud.jsx:48-53 | the window size becomes the new one |
| Display.DisplayState.OnFullscreenChange | wordcloud/src/components/wordcloud.jsx:55-57 | the fullscreen flag follows the document |
| Display.DisplayState.CanvasSize | wordcloud/src/components/wordcloud.jsx:135 | outside fullscreen the canvas handed to the cloud is within [400, 1080] x [300, 600] |
| Display.DisplayState.QuestionHeadingShown | wordcloud/src/components/wordcloud.jsx:258 | the heading shows exactly when there is a non-empty question and its section is visible |
| Display.DisplayState.RenderCloud | wordcloud/src/components/wordcloud.jsx:279-285 | the cloud receives the words, the question, the canvas size and the theme; a layout it starts is for exactly those |
| Display.QuestionClearsCloud | wordcloud/src/components/wordcloud.jsx:34-37 | after a question event the cloud shows the waiting message and nothing drawn, whatever it showed before |
| Text.SkipWhitespace | wordcloud/src/components/questions.jsx:122 | the scan stops at the first non-whitespace character at or after its start, or at the end, and passes over whitespace only |
| Text.BackOverWhitespace | wordcloud/src/components/questions.jsx:122 | the scan back stops just after the last non-whitespace character, or at its lower bound, and passes over whitespace only |
| Text.Trim | wordcloud/src/components/questions.jsx:122 | `s.trim()` is never longer than `s`; `TrimShape` states which slice it is |
| Text.IsBlank | wordcloud/src/components/questions.jsx:79 | the empty string is blank, and the trim of a blank string starts at its end; `BlankIffTrimEmpty` ties it to `!s.trim()` |
| Text.BlankIffTrimEmpty | wordcloud/src/components/questions.jsx:79 | a string is all whitespace if and only if its trim is empty, which is the falsy case of `trim()` |
| Text.TrimShape | wordcloud/src/components/questions.jsx:122 | the trim is the slice between a whitespace-only head and a whitespace-only tail, and it starts and ends with non-whitespace |
| Text.TrimIdempotent | wordcloud/src/components/questions.jsx:122 | trimming twice is trimming once |
| Text.TrimOfNonBlankIsNonBlank | wordcloud/src/components/questions.jsx:119-122 | a non-blank input trims to a non-empty, non-blank text |
| Admin.WithoutIndex | wordcloud/src/components/questions.jsx:109 | filtering by position never lengthens the list |
| Admin.WithoutIndexOutside | wordcloud/src/components/questions.jsx:108-110 | filtering by an index outside the list changes nothing |
| Admin.WithoutIndexInside | wordcloud/src/components/questions.jsx:108-110 | filtering by an index inside the list drops exactly the element there and keeps the rest in order |
| Admin.WithoutIndexSplice | wordcloud/src/components/questions.jsx:108-110 | filtering by position drops exactly the element at the index and keeps the rest in order; an index out of range changes nothing |
| Admin.WithoutId | wordcloud/src/components/questions.jsx:137 | filtering by id never lengthens the queue |
| Admin.WithoutIdMembers | wordcloud/src/components/questions.jsx:137-141 | filtering by id keeps exactly the entries with another id |
| Admin.WithoutIdConcat | wordcloud/src/components/questions.jsx:137-141 | filtering by id distributes over concatenation, so the kept entries stay in order |
| Admin.WithoutAbsentId | wordcloud/src/components/questions.jsx:140-142 | removing an id no entry has leaves the queue unchanged |
| Admin.IntervalFromInput | wordcloud/src/components/questions.jsx:233 | the interval is at least 5; NaN or 0 gives 30; any other n gives max(5, n) |
| Admin.IntervalStable | wordcloud/src/components/questions.jsx:232-233 | reading an accepted interval back from the field accepts the same interval |
| Admin.TickStep | wordcloud/src/components/questions.jsx:150-167 | one tick keeps the sent list as a prefix and the total number of questions; an empty queue changes nothing; otherwise the head's text is appended and the queue loses its head; `TicksAreFifo` composes ticks |
| Admin.TicksAreFifo | wordcloud/src/components/questions.jsx:150-167 | after k ticks, with k no more than the queue length, the first k saved texts were appended to the sent list in queue order, and the queue is what was behind them |
| Admin.AdminPanel.constructor | wordcloud/src/components/questions.jsx:12-21 | the panel starts with empty input and lists, auto-send off, and a 30-second interval |
| Admin.AdminPanel.SendDisabled | wordcloud/src/components/questions.jsx:319 | "Send Now" is disabled exactly while a send settles or when the input trims to nothing |
| Admin.AdminPanel.SaveDisabled | wordcloud/src/components/questions.jsx:308 | "Save for Later" is disabled exactly when the input trims to nothing |
| Admin.AdminPanel.AddQuestion | wordcloud/src/components/questions.jsx:78-88 | a blank input changes nothing and emits nothing; otherwise the untrimmed text is emitted and appended to the sent list, and the input is cleared |
| Admin.AdminPanel.SubmitSettled | wordcloud/src/components/questions.jsx:89-90 | after the pause, the pending send no longer disables Send Now (`isSubmitting` is false); a blank input still does |
| Admin.AdminPanel.ClearAllQuestions | wordcloud/src/components/questions.jsx:94-99 | once confirmed, the sent list is empty; otherwise it is unchanged |
| Admin.AdminPanel.RemoveQuestion | wordcloud/src/components/questions.jsx:108-110 | exactly the sent question at the index is dropped, the rest stays in order; an index out of range changes nothing |
| Admin.AdminPanel.CopyQuestion | wordcloud/src/components/questions.jsx:112-116 | the copied text becomes the input |
| Admin.AdminPanel.AddToSavedQuestions | wordcloud/src/components/questions.jsx:118-128 | a blank input changes nothing; otherwise the trimmed text is queued at the end under the current time as id, and the input is cleared |
| Admin.AdminPanel.SendSavedQuestion | wordcloud/src/components/questions.jsx:130-138 | the text is emitted and appended to the sent list, and every saved entry with that id is removed |
| Admin.AdminPanel.RemoveSavedQuestion | wordcloud/src/components/questions.jsx:140-142 | every saved entry with that id is removed and nothing else changes |
| Admin.AdminPanel.SetSendInterval | wordcloud/src/components/questions.jsx:233 | the interval becomes the clamped parsed input |
| Admin.AdminPanel.StartAutoSend | wordcloud/src/components/questions.jsx:144-171 | with an empty queue nothing happens; otherwise auto-send is on and a timer runs with a period of the interval times 1000 ms |
| Admin.AdminPanel.AutoSendTick | wordcloud/src/components/questions.jsx:150-167 | with an empty queue both lists stay and auto-send stops; otherwise the head is emitted and appended to the sent list and the queue loses its head; the total number of questions is preserved |
| Admin.AdminPanel.StopAutoSend | wordcloud/src/components/questions.jsx:173-179 | auto-send is off, and a held timer is cancelled and forgotten |
| Respond.Flatten | wordcloud/src/components/sendresponses.jsx:55 | `responses.flat()`; with one question it is that question's answers; `FlattenMembers` states its members |
| Respond.FlattenMembers | wordcloud/src/components/sendresponses.jsx:55 | an answer is in the flattened list exactly when it is in one of the inner lists |
| Respond.FirstNonBlank | wordcloud/src/components/sendresponses.jsx:55 | what `find` returns is one of the answers and is not blank |
| Respond.FirstNonBlankIsFirst | wordcloud/src/components/sendresponses.jsx:55-57 | nothing is found exactly when every answer is blank; otherwise the result is the first non-blank answer, untrimmed |
| Respond.FoundComesFromResponses | wordcloud/src/components/sendresponses.jsx:55 | the found answer is the answer to one of the questions |
| Respond.PushCapped | wordcloud/src/components/sendresponses.jsx:70 | the new record comes first, followed by the first 49 older records at most in their order; the length is one more, capped at 50 |
| Respond.PushAllNewestFirst | wordcloud/src/components/sendresponses.jsx:63-71 | however many answers are saved, a history of at most 50 stays at most 50; for up to 50 saved answers, the latest answers come first, newest first |
| Respond.PushAllShifts | wordcloud/src/components/sendresponses.jsx:70 | each save moves an older record one place back until it falls off after position 49 |
| Respond.ResponsePanel.constructor | wordcloud/src/components/sendresponses.jsx:9-21 | the page starts with no question and no answers, not submitting or submitted, with the stored setting and history |
| Respond.ResponsePanel.OnQuestion | wordcloud/src/components/sendresponses.jsx:24-28 | the question list becomes just the new question, the answers become one empty field, and the page is no longer marked submitted; the submitting flag is left as it was |
| Respond.ResponsePanel.HandleChange | wordcloud/src/components/sendresponses.jsx:47-51 | the field of that question holds the new value, which the field limits to 100 characters; every other question's answers are unchanged |
| Respond.ResponsePanel.SubmitDisabled | wordcloud/src/components/sendresponses.jsx:192 | submit is disabled exactly while submitting, before any question, after a submit, or when every answer is blank |
| Respond.ResponsePanel.HandleSubmit | wordcloud/src/components/sendresponses.jsx:53-71 | with every answer blank nothing changes and nothing is emitted; otherwise the first non-blank answer is emitted untrimmed and has at most 100 characters, the page is submitting and submitted, and with local saving on its record is pushed on the capped history, else the history is unchanged |
| Respond.ResponsePanel.SubmitSettled | wordcloud/src/components/sendresponses.jsx:74-77 | after the pause the answers are one empty field again and submitting is over |
| Respond.ResponsePanel.ClearSavedResponses | wordcloud/src/components/sendresponses.jsx:94-97 | the history is empty |
| Respond.ResponsePanel.ToggleSaveLocally | wordcloud/src/components/sendresponses.jsx:360 | the local-saving setting flips |

## Left out

- The layout engine's spiral placement and collision avoidance (`d3-cloud`) are not modelled. A layout result is any list of requested words, each at most once with an allowed rotation. Non-overlap is not claimed.
- SVG and DOM construction is left out. This covers the gradient, the background rectangle, the group transform, opacity, hover transitions, the fade-in animation's duration, fonts, the CSS classes and the page animations. Only the glyph data is modelled: text, fill, size, weight, position, rotation and fade-in delay.
- The real-time channel is not modelled. An `emit` is a method result and a received event is a handler call.
- Browser storage and JSON are not modelled. This covers the stored questions, the saved queue and the respondent's settings and history, together with their parse and save error paths. The admin panel's load effect also re-runs whenever the timer id changes, and that is left out too. Stored values are instead constructor parameters, or start empty.
- Timers are left out: the 500 ms pauses, the "Saved" status, the copied-index highlight, and `setInterval`/`clearInterval` themselves. Each pause ends with an explicit `SubmitSettled` call, and a timer firing is an `AutoSendTick` call.
- Time is an integer parameter `now`. ISO timestamps and locale date formatting are not modelled. The id and the timestamp of a record are both `now`.
- `Math.random()` is a parameter in [0, 1).
- The Fullscreen API request and exit, the QR-code dialog and its URL, and the settings and history dialogs' open/close flags are not modelled.
- Keyboard handling and typing are modelled indirectly. Pressing Enter in the admin input calls `addQuestion`, which is `AddQuestion`. Typing into the admin input has the same effect on the state as `CopyQuestion`.
- JavaScript number semantics are not modelled. Sizes and dimensions are exact reals, without IEEE rounding. The one explicit integer cut, the layout engine's `~~` on each size, is modelled as the integer part (`EngineSize`), which is what `~~` gives for sizes between 16 and 72.
- The layout engine `d3-cloud` is not part of this model. Its integer cut of each size is what it is taken to do. Because of that cut, a word whose requested size is just above 16 is drawn at 16. Two words whose requested sizes share an integer part are drawn at the same size although their counts differ.
- `Object.keys` is taken as an arbitrary order of the table's keys.
- Words that name function-valued members of `Object.prototype` are not modelled. Examples are "constructor", "toString" and "valueOf". For such a word, `wordFreq[word] || 0` starts from an inherited function, not from 0 (`Cloud.jsx:32`). Its count becomes a string, `Math.max` yields NaN (`Cloud.jsx:35`), and every size in the cloud becomes NaN. The model's table is a plain map, so it counts such words like any other.
- The word `__proto__` is not modelled either, and it behaves differently. `wordFreq["__proto__"]` is `Object.prototype` itself, so the assignment hands a string to the `__proto__` setter, which ignores it, and no key is created (`Cloud.jsx:32`). The word silently drops out of the cloud and nothing becomes NaN. If it is the only word, `Math.max()` gets no arguments and returns -Infinity (`Cloud.jsx:35`), and an empty group is drawn. The model counts `__proto__` like any other word.
- Respond.ResponsePanel.HandleChange: the answer limit of 100 characters is counted in Unicode characters. The browser counts UTF-16 code units, so a value with characters outside the Basic Multilingual Plane is limited to fewer characters than the model allows.
- `currentIndex` in the admin panel is written but never read, so it is not modelled.
- React's scheduling is simplified. A handler's state updates are applied at once, and the double invocation of state updaters in development mode is not modelled. When an auto-send tick's emit and sent-list update happen inside the saved-queue updater, they are applied once.
- Cloud.CloudView.Update: the props are compared by value, where React compares the word array by identity. The two differ only when a question event replaces an already empty word list with a new empty array (`wordcloud.jsx:36`). The drawing effect then runs but returns at once because there are no words (`Cloud.jsx:10`), so the outcome is the same.
- Respond.ResponsePanel.HandleChange: replacing the inner list is modelled by value. The in-place write into the shared inner array is not modelled, because no other holder of that array is ever read.
- Build configuration is not part of this model.
