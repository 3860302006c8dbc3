# Block Negative Comments — a Dafny model

A browser extension blurs live-chat messages on YouTube. It unblurs each message again
unless a sentiment model calls it negative with enough confidence. This project models the
core of that extension in Dafny and proves properties of the model.

- **The content script** (`entrypoints/content.ts`) has two mutation observers. One watches
  `ytd-app` for the live-chat `iframe`; the other watches the chat document for new message
  renderers. It skips the first load, blurs each new message once, and queues one analysis
  request per message. A serial task queue (`TaskQueue`) runs those requests one at a time.
  When a request settles, the script either keeps the message blocked or restores its
  original style. It also has a prefixed, level-filtered `Logger` and a `main` that wires it
  all to the stored settings.
- **The background script** (`entrypoints/background.ts`) answers `analyzeSentiment`. It
  reuses or builds an inference pipeline. For the generative model it builds a two-message
  prompt and parses the last generated message with two regular expressions. For the
  classification model it normalises the returned label.
- **The sandboxed worker** (`sandbox/app/src/worker.ts`) does the same analyses for the
  prompt playground. It substitutes the comment into user-supplied prompt templates, posts
  its progress as status messages, and keeps the first pipeline it builds.
- **The comment history** (`utils/db/comment-history.ts`) is an IndexedDB object store with
  auto-incremented keys and an `analyzedAt` index. It is capped by evicting the oldest record
  inside the same transaction as the insertion.
- **The message protocol** (`utils/messaging.ts`) defines the table of the two supported
  models and the shape of an analysis result.

Modules follow the source: `Messaging`, `Labels` and `OutputParser` (shared by the
background script and the worker), `Inference` (the pipeline as an external collaborator),
`Background`, `Worker`, `Logging`, `TaskQueue`, `Content` and `CommentHistory`. `Text` holds
the string operations the code calls: `trim`, `toLowerCase` and `replaceAll`. `Wrappers` and
`Errors` hold `Option`/`Result` and the errors the code throws.

The background script writes its two prompts as `dedent` template literals
(background.ts:111-127). `DedentTag` models the `dedent` tag on the interpolated text:
split into lines, find the smallest indentation of the indented lines, cut it from every
line that starts with a space or tab, join, trim, then turn each backslash-`n` pair into a
line break. `PromptLines` holds the templates' lines and their 14-column indentation, and
`Prompts` builds the two messages from them and proves what text each message holds.

Loading a pipeline and calling one can both reject. Whether `pipeline(...)` resolves is a
boolean parameter (`loadResolves`), and an `Inference.Backend` call that rejects returns
`None`. A rejected load leaves the cached pipeline unchanged and rejects the handler with
`Errors.LoadFailed`; a rejected call rejects it with `Errors.InferenceFailed`. In the worker
a rejected load happens after "start-initialization" was posted, so "end-initialization" is
not posted and the worker stays without a generator.

The two regular expressions are modelled as deterministic matchers anchored at a position:

- `"?sentiment"?\s*:\s*"?(positive|negative|neutral)"?`
- `"?confidence"?\s*:\s*([0-9]*\.?[0-9]+)`

The backtracking of `[0-9]*\.?[0-9]+` is resolved by hand in `OutputParser.NumberAt`.
`String.prototype.match` without the `g` flag is the leftmost position where the anchored
matcher succeeds (`OutputParser.Leftmost`). A captured confidence is an exact decimal: its
digit strings, with value digits / 10^(fraction length).

Some of the code's behaviour is easy to miss; the model follows the code:

- `applyMosaic` sends `{ comment }` without a `model` (content.ts:240). The background
  handler then reads `model.name` of `undefined` and throws a `TypeError`, so as written
  every request fails and every blurred message stays blurred (`Content.SentRequestsFail`,
  `Content.SettleErrorKeepsMosaic`). The popup's model selector
  (`entrypoints/popup/components/model-settings/model-select.tsx`) stores a model, but
  content.ts never reads it.
- The decision tests only `res.sentiment === "negative" && res.confidence > threshold`
  (content.ts:246). A classification result has no `confidence`, so it is always restored
  (`Content.ClassifierNeverBlocks`). The popup's score-threshold slider
  (`entrypoints/popup/components/model-settings/score-threshold-slider.tsx`) stores a
  `scoreThreshold` that content.ts never reads. The script compares with the confidence
  threshold it holds, which the storage watcher updates (content.ts:303-307).
- `stop()` disconnects both observers but leaves the `iframe` `onload` handlers in place.
  A later load of the chat frame starts the chat observer again while the script is stopped
  (`Content.StopThenFrameLoadObserves`).
- The background script reuses its pipeline whenever the pipeline's kind fits the requested
  task (background.ts:20-26). The worker never replaces its first pipeline, so asking it
  for the other model fails with "Invalid generator type" (`Worker.NoModelSwitch`).
- The worker's user prompt placeholder is `{{text}}` (worker.ts:116), replaced with
  JavaScript's `replaceAll` and a string replacement, so `$` patterns in the input are
  expanded (see Findings). `Worker.GenerateText` uses that substitution as written. The
  background script's fixed prompt interpolates the comment into a `dedent` template
  literal, with no `$` expansion; `dedent` then rewrites the whole text (next bullet).
- `dedent` unescapes backslash-`n` after interpolation, so a comment holding the two
  characters `\` and `n` reaches the generative model with a line break there
  (`Prompts.EscapedCommentUnescaped`).

## Model

| member | source | states |
|---|---|---|
| Messaging.ModelsTable | utils/messaging.ts:3-15 | Exactly two models exist, each keyed by its own name: Phi-3.5 does text generation and tabularisai does text classification; a model is known iff it is one of those two entries. |
| Messaging.LabelTextInjective | utils/messaging.ts:17-32 | Distinct sentiment labels have distinct spellings, so a label is recovered from its text. |
| Labels.Normalise | entrypoints/background.ts:162 | The label transformation keeps the length, maps every space to `_` and lower-cases every other character, so no space or ASCII capital survives. |
| Labels.NormaliseIdempotent | entrypoints/background.ts:162 | Normalising an already normalised label changes nothing. |
| Labels.NormaliseFixed | sandbox/app/src/worker.ts:160 | A label without spaces or capitals is its own normal form. |
| Labels.LabelSpelled | entrypoints/background.ts:163-169 | The `switch` accepts a string iff it spells one of the five labels, and then yields that label. |
| Labels.ParseLabel | entrypoints/background.ts:161-175 | `parseLabel` succeeds iff the normalised label spells one of the five sentiments and returns it; otherwise it fails with "Unknown sentiment label" carrying the normalised text. |
| Labels.ParseLabelOnlySeesNormalForm | sandbox/app/src/worker.ts:159-173 | Two raw labels with the same normal form parse alike. |
| Labels.ParseLabelText | sandbox/app/src/worker.ts:159-173 | Every label's own spelling parses back to that label (round trip). |
| Labels.ParseLabelVeryNegative | entrypoints/background.ts:161-175 | The model's capitalised label "Very Negative" parses to very_negative. |
| Labels.ParseLabelUnknown | entrypoints/background.ts:170-173 | An unknown label is rejected with its normalised spelling in the error. |
| Text.Trim | entrypoints/content.ts:235-238 | The trimmed message text starts and ends with a non-whitespace character and is a contiguous piece of the input with only whitespace cut on either side. |
| Text.TrimPadded | entrypoints/content.ts:235-238 | Trimming whitespace-padded text returns exactly the unpadded core. |
| Text.TrimIdempotent | entrypoints/content.ts:235-238 | Trimming twice equals trimming once. |
| Text.ToLower | entrypoints/content.ts:118 | Lower-casing keeps the length, turns each ASCII capital into its lower-case letter, leaves every other character, and leaves no ASCII capital. |
| Text.ToLowerIdempotent | entrypoints/content.ts:118 | Lower-casing twice equals lower-casing once. |
| Text.ReplaceChar | entrypoints/background.ts:162 | Replacing a character keeps the length and every other character, and leaves none of the replaced character when the replacement differs. |
| Text.ReplaceCharIsReplaceAll | entrypoints/background.ts:162 | The character map equals the left-to-right literal replacement of the one-character pattern. |
| Text.ReplaceCharAsWritten | entrypoints/background.ts:162 | JavaScript's `replaceAll(" ", "_")`, with its `$` substitution rules, yields the character map. |
| Text.ReplaceAllBySelf | sandbox/app/src/worker.ts:116 | Replacing a pattern by itself leaves any text unchanged. |
| Text.ReplaceAllAbsent | sandbox/app/src/worker.ts:116 | Text that does not contain the pattern is left unchanged. |
| Text.ReplaceAllLeading | sandbox/app/src/worker.ts:116 | A leading occurrence is replaced and the scan resumes right after it. |
| Text.ReplaceAllCopiesPrefix | sandbox/app/src/worker.ts:116 | Text before the first possible occurrence is copied verbatim. |
| Text.SubstitutionWithoutDollar | sandbox/app/src/worker.ts:116 | A replacement string without `$` is inserted literally by JavaScript's substitution rules. |
| Text.AsWrittenAgreesWithoutDollar | sandbox/app/src/worker.ts:116 | JavaScript's `replaceAll` with a string replacement agrees with literal replacement whenever the replacement has no `$`. |
| Text.ReplaceAllKeepsSuffix | entrypoints/background.ts:118-127 | Replacing a two-character pattern leaves untouched a tail that never holds its first character and does not open with its second. |
| OutputParser.NumeralValue | entrypoints/background.ts:77 | A captured confidence literal denotes a non-negative number. |
| OutputParser.NumeralAtMostOne | entrypoints/background.ts:79 | A captured confidence is at most 1 iff its digits, read as an integer, are at most 10 to the number of fraction digits. |
| OutputParser.NumberAt | entrypoints/background.ts:59 | Where `[0-9]*\.?[0-9]+` matches, the capture is a valid digits-dot-digits literal that literally occurs at that position. |
| OutputParser.WordAt | entrypoints/background.ts:56 | Where the sentiment alternation matches, it is one of positive, negative, neutral and that word occurs there. |
| OutputParser.AfterKey | entrypoints/background.ts:55-59 | Where the key part matches, the key follows an optional quote at the start position, a colon follows after an optional quote and white space, and the match ends after the white space behind the colon, at the end of the text or a non-space character. |
| OutputParser.SentimentAt | sandbox/app/src/worker.ts:60-62 | An anchored sentiment match captures one of the three generative sentiments, spelled right after the key part and an optional quote. |
| OutputParser.ConfidenceAt | sandbox/app/src/worker.ts:63 | An anchored confidence match captures a valid decimal literal, spelled right after the key part. |
| OutputParser.Leftmost | entrypoints/background.ts:55-60 | A search result is a match at some position at or after the start. |
| OutputParser.LeftmostIsFirst | entrypoints/background.ts:55-60 | `match` finds nothing iff no position matches, and otherwise returns the match at the first matching position. |
| OutputParser.LeftmostSkips | sandbox/app/src/worker.ts:60-63 | Positions where the pattern cannot match can be skipped without changing the search result. |
| OutputParser.ParseOutput | entrypoints/background.ts:47-97 | Missing or empty output is "Output is empty"; the format error happens iff either pattern matches nowhere; a success holds the leftmost sentiment and a confidence within [0, 1]. |
| OutputParser.InvalidConfidenceExceedsOne | entrypoints/background.ts:79-90 | The "Confidence value is invalid" error only ever reports a value above 1: the captured literal cannot be negative or NaN. |
| OutputParserLaws.ParseOutputFound | sandbox/app/src/worker.ts:55-99 | Once both searches succeed, the result is the sentiment with the parsed confidence if that is at most 1, and the invalid-confidence error otherwise. |
| OutputParserLaws.NumberAtNumeral | entrypoints/background.ts:59 | A decimal literal followed by a non-digit is captured whole, so rendering then capturing gives back the literal. |
| OutputParserLaws.SentimentAtRendered | entrypoints/background.ts:56 | `sentiment:<label>` is matched with that label. |
| OutputParserLaws.ConfidenceAtRendered | entrypoints/background.ts:59 | `confidence:<literal>` is matched with that literal. |
| OutputParserLaws.ParseRendered | entrypoints/background.ts:119-122 | The answer in the format the prompt asks for (sentiment line, then confidence line) parses back to its sentiment and confidence, or to the range error when the confidence exceeds 1 (round trip). |
| OutputParserLaws.ParseRenderedConfidenceFirst | sandbox/app/src/worker.ts:60-63 | The two lines in the other order parse the same way, because each pattern is searched in the whole text. |
| OutputParserLaws.ParseExampleNegative | entrypoints/background.ts:47-97 | "sentiment:negative" then "confidence:0.87" parses to negative with 0.87. |
| OutputParserLaws.ParseExampleOutOfRange | entrypoints/background.ts:79-90 | A confidence of 1.5 is rejected with the invalid-confidence error carrying 1.5. |
| OutputParserLaws.ParseExampleMissingConfidence | entrypoints/background.ts:62-74 | Text without a confidence is rejected with the format error. |
| Inference.LastMessageContent | entrypoints/background.ts:134-138 | An empty generation fails with a TypeError (the `generated[0]` access); otherwise the text is the content of the last message of a chat transcript, and it is absent for plain text or an empty transcript. |
| Inference.FirstClassification | entrypoints/background.ts:156-160 | The label and score are taken from the first item of an array result or from the single result, and the format error is raised iff that item or its label or score is missing. |
| Inference.GeneratedText | entrypoints/background.ts:130-138 | A rejected generation call fails with the inference error and an empty generation with a TypeError; nothing else fails. |
| Inference.Classification | entrypoints/background.ts:156-160 | A rejected classification call fails with the inference error; the only other failure is the format error. |
| Background.InitPipeline | entrypoints/background.ts:19-45 | A cached pipeline of the kind the model's task needs is reused; otherwise the requested model is loaded, and the result fails with the load error iff that load rejects. |
| Background.InitPipelineIdempotent | entrypoints/background.ts:19-45 | Initialising again for the same model reuses the pipeline just initialised. |
| Background.SwitchingModelsRebuilds | entrypoints/background.ts:20-26 | Alternating between the two models rebuilds the pipeline each time. |
| Background.GenerateAnswer | entrypoints/background.ts:130-149 | A Phi answer names the requested model, with a generative sentiment and a confidence in [0, 1]; its only errors are a rejected call, the TypeError of an empty generation, and the output parser's errors. |
| Background.ClassifyAnswer | entrypoints/background.ts:152-190 | A classifier answer names the requested model; its only errors are a rejected call, the format error and an unknown label. |
| Background.AnalyzeSentiment | entrypoints/background.ts:99-194 | A request without a model fails with a TypeError and keeps the pipeline; a rejected load fails with the load error and keeps the old pipeline, and otherwise the initialised pipeline is cached; a success answers for the requested model, with a generative confidence in [0, 1]; an unknown model name is refused with "Unknown model"; a known model never gets the wrong-pipeline errors. |
| Background.GeneratedAnswerIsParsed | entrypoints/background.ts:130-149 | For Phi a rejected load fails with the load error; otherwise the answer succeeds iff the generation call succeeds and its last message parses, and then carries the parsed sentiment and confidence; the call's or the parser's error is passed through. |
| Background.ClassifiedAnswerIsLabel | entrypoints/background.ts:152-190 | For tabularisai a rejected load fails with the load error; otherwise the answer succeeds iff the classification call succeeds with a known label, and then carries that label and the backend's score unchanged; the call's error is passed through. |
| Background.MismatchedTaskRefused | entrypoints/background.ts:104-107 | A model whose name and task disagree gets the wrong-pipeline error of its name's branch once its pipeline is initialised. |
| DedentTag.SplitLines | entrypoints/background.ts:111-127 | Splitting on line breaks gives at least one line, no line holds a line break, and joining the lines with line breaks gives the text back. |
| DedentTag.SplitJoin | entrypoints/background.ts:111-127 | Joining lines without line breaks and splitting the result gives the same lines (round trip). |
| DedentTag.MinIndent | entrypoints/background.ts:111-127 | The smallest indentation exists iff some line is indented; it is at most every indented line's indentation and is some line's indentation. |
| DedentTag.DedentTemplate | entrypoints/background.ts:111-127 | A template that opens with a line break, indents each non-blank line by the same positive amount and closes on a line of its own dedents to its lines joined by line breaks, with backslash-`n` pairs unescaped. |
| DedentTag.UnescapeBetween | entrypoints/background.ts:118-127 | Unescaping text between a backslash-free head and a backslash-free tail that opens with a line break changes only the middle. |
| Prompts.PromptMessages | entrypoints/background.ts:108-129 | The prompt is two messages, a system message then a user message. |
| Prompts.SystemPromptDedented | entrypoints/background.ts:108-115 | The system message is the two instruction lines joined by one line break, without the template's indentation or surrounding blank lines. |
| Prompts.UserPromptDedented | entrypoints/background.ts:116-128 | For a comment without a line break, the user message is the fixed instructions up to `Input: `, then the comment with each backslash-`n` pair turned into a line break, then the fixed tail ending in `Output:`. |
| Prompts.UserPromptVerbatim | entrypoints/background.ts:116-128 | A comment without a line break or backslash-`n` pair appears verbatim between the fixed head and tail, which can be cut back out. |
| Prompts.EscapedCommentUnescaped | entrypoints/background.ts:124 | The comment `a\nb` (a backslash and an `n`) reaches the model with a real line break in their place. |
| Worker.InitGenerator | sandbox/app/src/worker.ts:28-53 | "start-initialization" is posted iff there was no generator yet; an existing generator is kept; otherwise the requested model is loaded, and "end-initialization" is posted last iff the load resolves; a rejected load posts only "start-initialization" and fails with the load error. |
| Worker.SubstitutePrompts | sandbox/app/src/worker.ts:112-118 | Prompt count and roles are kept, non-user prompts are untouched, and in user prompts every `{{text}}` is replaced by the input literally. |
| Worker.SubstitutePromptsAsWritten | sandbox/app/src/worker.ts:112-118 | The code's `replaceAll` with a string replacement keeps the prompt count and roles and leaves non-user prompts untouched; see Findings. |
| Worker.PromptsWithoutPlaceholder | sandbox/app/src/worker.ts:112-118 | Prompts without `{{text}}` are sent unchanged. |
| Worker.SubstituteOnePlaceholder | sandbox/app/src/worker.ts:116 | A user prompt with one placeholder becomes the text around it with the input in its place. |
| Worker.AsWrittenAgreesWithoutDollar | sandbox/app/src/worker.ts:112-118 | The code as written and the corrected substitution agree on every input without `$`. |
| Worker.AsWrittenExpandsDollar | sandbox/app/src/worker.ts:116 | The input `$&` is expanded by the code as written into the placeholder itself instead of being inserted. |
| Worker.GenerateText | sandbox/app/src/worker.ts:105-148 | Missing prompts and a classification pipeline are refused with their errors; a record needs at least two prompts and holds the model, the input, a non-empty output text, and a generative sentiment with a confidence in [0, 1]. |
| Worker.GeneratedRecordIsParsed | sandbox/app/src/worker.ts:112-147 | The record exists iff the generation call succeeds, its last message parses and at least two prompts were given; it stores the first two prompts as the code's `$`-expanding `replaceAll` leaves them, which for an input without `$` are the literal substitution, and the parsed output; a rejected call's error is thrown. |
| Worker.ClassifyText | sandbox/app/src/worker.ts:150-188 | A generation pipeline is refused; a record holds the model, the input, no prompts and a label; a classification failure is a rejected call, the format error or an unknown label. |
| Worker.ClassifiedRecordIsLabel | sandbox/app/src/worker.ts:150-188 | The record exists iff the classification call succeeds with a known label; it carries that label, found from the normalised text, and the backend's score unchanged; the call's error is thrown. |
| Worker.GenerateStep | sandbox/app/src/worker.ts:101-190 | The initialisation statuses come first; at most one result is posted after them, for the requested model and input; a thrown error posts no result; an unsupported model does nothing more. |
| Worker.HandleMessage | sandbox/app/src/worker.ts:192-204 | Every message posts something; it posts "end-initialization" iff a generator exists afterwards; an existing generator is kept; without one, a rejected load posts only "start-initialization" and throws the load error; `load` only initialises and throws nothing else. |
| Worker.MessageCounts | sandbox/app/src/worker.ts:28-53 | One message posts "start-initialization" once iff there was no generator and "end-initialization" once iff there is one afterwards, which is the old one or the requested model when its load resolves. |
| Worker.GeneratorNeverReplaced | sandbox/app/src/worker.ts:28-53 | Once a generator exists, no sequence of messages replaces it or posts "start-initialization". |
| Worker.FirstModelSticks | sandbox/app/src/worker.ts:28-53 | From a fresh worker the generator ends as the model of the first message whose load resolves, or absent if none does; "start-initialization" is posted once per message up to and including that one. |
| Worker.EndPostedPerMessage | sandbox/app/src/worker.ts:192-209 | Each handled message posts "end-initialization" exactly once, except the leading messages of a fresh worker whose loads reject. |
| Worker.NoModelSwitch | sandbox/app/src/worker.ts:109-111 | A worker loaded with one model throws "Invalid generator type" when asked to run the other. |
| Logging.Merge | entrypoints/content.ts:14-20 | Spreading partial filters over full ones takes each given flag and keeps the others. |
| Logging.Combine | entrypoints/content.ts:18-20 | Two successive partial overrides combine with the later one winning per level. |
| Logging.NewLogger | entrypoints/content.ts:5-16 | A new logger enables a level unless the constructor's filters turn it off. |
| Logging.SetFilters | entrypoints/content.ts:18-20 | `setFilters` sets exactly the given levels and leaves the rest as they were. |
| Logging.Emit | entrypoints/content.ts:26-44 | A call prints one line iff its level is enabled, tagged with the prefix and carrying the messages; error goes to `console.error`, warn to `console.warn`, the others to `console.log`. |
| Logging.DefaultLoggerEmitsEverything | entrypoints/content.ts:6-11 | With the default filters every level prints. |
| Logging.SetNoFiltersIsIdentity | entrypoints/content.ts:18-20 | `setFilters({})` changes nothing. |
| Logging.SetFiltersIdempotent | entrypoints/content.ts:18-20 | Setting the same filters twice equals setting them once. |
| Logging.SetFiltersCompose | entrypoints/content.ts:18-20 | Two `setFilters` calls equal one call with the combined filters. |
| Logging.ConstructorIsSetFilters | entrypoints/content.ts:14-16 | Constructing with filters equals applying them to the defaults. |
| TaskQueue.ProcessQueue | entrypoints/content.ts:58-65 | An idle queue with waiting tasks starts the first one; otherwise nothing changes; the pending work is the same either way. |
| TaskQueue.Push | entrypoints/content.ts:53-56 | A pushed task is appended to the pending work, and it starts at once iff nothing was running. |
| TaskQueue.Finish | entrypoints/content.ts:66-75 | Finishing (or failing) the running task removes it from the front of the pending work and starts the next one iff one is waiting. |
| TaskQueue.Step | entrypoints/content.ts:49-77 | Every push or completion keeps the queue's invariant (nothing waits while the queue is idle). |
| TaskQueue.StepKeepsPending | entrypoints/content.ts:49-77 | One step appends what it pushes and removes what it finishes, in order. |
| TaskQueue.StepStartsHead | entrypoints/content.ts:58-65 | A step starts the task at the head of the waiting line. |
| TaskQueue.RunIsFifo | entrypoints/content.ts:49-77 | Over any run, the tasks finished followed by those still pending are the initial pending tasks followed by those pushed: first in, first out. |
| TaskQueue.RunStartsInOrder | entrypoints/content.ts:49-77 | Over any run, tasks start in the order they were pushed, one at a time. |
| TaskQueue.Drain | entrypoints/content.ts:58-76 | Letting the queue run to the end finishes exactly the pending tasks, in order, and leaves it idle and empty. |
| Content.KindOf | entrypoints/content.ts:118-119 | A tag is the message renderer or the chat frame iff its lower-cased name equals that selector. |
| Content.Sent | entrypoints/content.ts:239-240 | A started task sends exactly one request, carrying that task's comment and no model; no task started, nothing sent. |
| Content.StartStep | entrypoints/content.ts:208-220 | `start()` does nothing when running; otherwise it runs and observes `ytd-app` iff `ytd-app` exists; no comment state changes. |
| Content.StopStep | entrypoints/content.ts:264-271 | After `stop()` nothing runs and a running script no longer observes the chat; the queue, the styles and the armed frames are kept. |
| Content.PageNodeStep | entrypoints/content.ts:145-205 | A live chat frame seen by the app observer arms its `iframe` when it has one, and only such a frame arms anything; nothing else changes. |
| Content.FrameLoadedStep | entrypoints/content.ts:172-192 | The chat observer is on after a load iff it was on, or the frame is armed and its document is available. |
| Content.ApplyMosaic | entrypoints/content.ts:222-262 | A processed element is left alone; otherwise it is blurred over its original style and one task with its trimmed message text is appended to the queue, and a request is sent iff the queue was idle, then for that trimmed text; requests go out in queue order. |
| Content.ChatNodeStep | entrypoints/content.ts:112-143 | A chat mutation queues at most one task, for an element not processed before, which becomes processed; any request goes out in queue order. |
| Content.TimerStep | entrypoints/content.ts:124-129 | A first-load timer ends the first-load period; no comment state changes. |
| Content.Decide | entrypoints/content.ts:246-255 | A failed request changes nothing; a negative answer above the threshold blocks the element; any other answer restores its original style. |
| Content.SettleStep | entrypoints/content.ts:66-75 | Settling when nothing runs changes nothing; otherwise it removes exactly the running task from the pending ones and sends one request, for the first waiting task, iff one waits; it never queues anything. |
| Content.ThresholdStep | entrypoints/content.ts:303-307 | A threshold change updates the threshold only. |
| Content.EnabledStep | entrypoints/content.ts:295-301 | Enabling reloads the page; disabling is `stop()`. |
| Content.Step | entrypoints/content.ts:104-277 | Only a chat mutation queues work, at most one task for a new element; requests go out for waiting and pushed tasks in queue order, with no model; only enabling reloads. |
| Content.Main | entrypoints/content.ts:280-311 | After `main` the script runs iff it is enabled and `ytd-app` exists; it holds the stored threshold, starts in first-load mode and has an empty queue. |
| Content.MainInv | entrypoints/content.ts:280-311 | The state after `main` satisfies the script's invariant: each queued element is blurred, processed, unblocked and queued once. |
| Content.StepInv | entrypoints/content.ts:104-277 | Every event preserves that invariant and never forgets a processed element. |
| Content.SettleInv | entrypoints/content.ts:66-75 | Settling keeps the invariant and the processed set, and drops only the running task from the pending ones. |
| Content.RequestsFollowQueue | entrypoints/content.ts:49-77 | Over any run, the requests sent are, in order, the comments of the first waiting and newly queued tasks, and the tasks not yet sent are exactly those still waiting. |
| Content.RequestsFromMainInPushOrder | entrypoints/content.ts:222-262 | From `main`, each request carries the comment of the queued task in the same position: every task's request goes out once, in push order. |
| Content.EachElementQueuedOnce | entrypoints/content.ts:135-136 | Over any run of events, every queued element was new and is then processed, and no element is queued twice. |
| Content.SettleDecides | entrypoints/content.ts:239-256 | When the running request answers, its element ends blocked iff the answer is negative above the threshold, and its style is kept blurred in that case and restored otherwise. |
| Content.SettleErrorKeepsMosaic | entrypoints/content.ts:66-70 | When the running request fails, its element stays blurred and nothing is blocked or restored. |
| Content.ClassifierNeverBlocks | entrypoints/content.ts:246 | A classification answer never blocks, whatever its label and score. |
| Content.SentRequestsFail | entrypoints/content.ts:240 | Every request the content script sends is answered by the background script with a TypeError. |
| Content.FirstLoadSkips | entrypoints/content.ts:120-131 | During the first load a new message only schedules a timer; nothing is blurred, queued or sent. |
| Content.ProcessedElementIgnored | entrypoints/content.ts:223-225 | An element already processed is never queued again. |
| Content.StopIdempotent | entrypoints/content.ts:264-271 | A second `stop()` does nothing. |
| Content.StopThenFrameLoadObserves | entrypoints/content.ts:172-183 | After `stop()`, a load of an armed chat frame starts the chat observer again. |
| Content.StopKeepsQueue | entrypoints/content.ts:264-271 | `stop()` keeps the queue, and a request that settles afterwards is still decided. |
| CommentHistory.EmptyStore | utils/db/comment-history.ts:9-19 | The store created by the upgrade is empty and valid, with the key generator at 1. |
| CommentHistory.OldestIndex | utils/db/comment-history.ts:21-32 | The first record of an ascending `analyzedAt` cursor comes before every record by index key, ties by primary key. |
| CommentHistory.Delete | utils/db/comment-history.ts:45-48 | `delete(id)` keeps key order and removes exactly that key. |
| CommentHistory.Insert | utils/db/comment-history.ts:52 | `add` of a fresh key keeps key order and adds exactly that key. |
| CommentHistory.Evict | utils/db/comment-history.ts:43-49 | With at least `maxHistory` records the oldest is removed and the rest kept in order; below the cap, or in an empty store, nothing is removed. |
| CommentHistory.AddCommentToHistory | utils/db/comment-history.ts:34-55 | Adding keeps the store valid; the only failure is the constraint error of an explicit key, and a record without a key is always added. |
| CommentHistory.AddAutoKeyed | utils/db/comment-history.ts:12-15 | A record without a key gets the generator's key, the generator advances by one, and the store holds the survivors of eviction plus the new record. |
| CommentHistory.AddExplicitKey | utils/db/comment-history.ts:34-55 | An added record with its own key moves the key generator past that key when it is not already past it, and the store holds the survivors of eviction plus that record. |
| CommentHistory.AddFailsIffKeyTaken | utils/db/comment-history.ts:34-55 | Adding fails iff the record's explicit key is still in the store after eviction. |
| CommentHistory.EvictsOldest | utils/db/comment-history.ts:43-49 | At the cap, eviction removes exactly one record, one that is oldest by the `analyzedAt` index. |
| CommentHistory.AddCount | utils/db/comment-history.ts:43-52 | A successful add keeps the record count at the cap and otherwise grows it by one. |
| CommentHistory.HistoryStaysCapped | utils/db/comment-history.ts:43-52 | With a positive cap, a store of at most the cap's records still holds at most that many after an add. |
| CommentHistory.SortedAscending | utils/db/comment-history.ts:57-63 | Records are held in strictly ascending key order. |
| CommentHistory.GetAll | utils/db/comment-history.ts:57-63 | `getAll` returns every record exactly once, in ascending key order. |

## Left out

- The DOM, `MutationObserver`, `setTimeout`, `location.reload`, `chrome` messaging and
  extension storage. Their callbacks are events of `Content.Step`, and their results are
  parameters: whether `ytd-app` exists, the `iframe` of a chat frame, whether its
  `contentDocument` is available, and each settled request's result.
- Concurrency: each observer callback, timer and settled request is one atomic step.
  `await`-level interleavings inside the background script and the worker are not modelled.
  Messages are handled one after another.
- The inference library (`@huggingface/transformers`), its `env` flags and the WebGPU
  device. A pipeline is its kind and the name it loaded, and its outputs are functions in
  `Inference.Backend`. The `env` settings only choose where model files come from. Whether
  a load or a call rejects is an input (`loadResolves`, a `None` from the backend); why it
  rejects (network, device, missing files) is not modelled.
- The `dedent` package is not part of this model. `DedentTag.Dedent` follows the algorithm
  of its version 1 for a template without backslashes: it does not model the processing of
  escapes in the raw template text (backslash-newline, escaped backquote, `$` and `{`), and
  the two templates hold no backslash.
- Prompts.PromptMessages: a comment containing a line break is dedented like any other
  text, but no lemma states the result, because its lines take part in the indentation
  computation. Its contract states only the two roles; the message contents are stated by
  `Prompts.SystemPromptDedented` and `Prompts.UserPromptDedented`.
- CSS: the mosaic and the restored style are the `Content.Look` values `Mosaic(original)`
  and `Restored(original)`. Appended `cssText` and the `transition` property are not
  serialised.
- Console output: log lines carry a `Content.Note`. Its fixed text is `Content.NoteText`;
  interpolated element text, results, `console.group` and the arguments of
  `console.error("Error processing task:", error)` are not rendered.
- Background.AnalyzeSentiment: the "Unknown model" message is kept as the model's name.
  The code interpolates the whole model object and prints `[object Object]`.
- Worker.GenerateText: the record's `id` and `timestamp` come from the clock
  (`Date.now`, `new Date`) and are left out. The `outputText ?? ""` default is dead code,
  because a record only exists when the output parsed and was non-empty.
- Worker.SubstitutePromptsAsWritten: its contract states the prompt count, the roles and
  the untouched non-user prompts, not the user prompts' text. The `$`-pattern expansion is shown by `Worker.AsWrittenExpandsDollar`, and the exact
  agreement without `$` by `Worker.AsWrittenAgreesWithoutDollar`.
- `sandbox/app/src/types.ts` is not part of this model. The worker's `Model` uses a `value`
  field and `GenerateParameters`; both are taken as the message protocol's model and a
  `load`/`generate` request.
- OutputParser.ParseOutput: a confidence is its exact decimal value, while `parseFloat`
  rounds to the nearest double. So a literal a hair above 1, such as
  `1.00000000000000001`, is accepted by the code and rejected by the model.
- Text.ToLower: lower-casing is modelled on ASCII. The only other upper-case character
  that lowers to ASCII is the Kelvin sign, and no label contains `k`, so the accepted
  labels are the same.
- CommentHistory.AddCommentToHistory: keys are natural numbers and `analyzedAt` is an
  integer index key. NaN, non-integer and string keys, the IndexedDB key-generator limit of
  2^53 and the `keyPath`-with-explicit-key cases are not modelled. `maxHistory` is a
  `real`, so any numeric setting compares as in the code; NaN is not modelled.
- CommentHistory.EmptyStore: the `upgrade` callback only runs when the database is first
  created. Opening an existing database and the DB version are not modelled.
- Logging.Merge: a filter given explicitly as `undefined` would be spread as
  `undefined` (falsy) by the code; the model treats a missing flag as "not given".
- `utils/messaging.ts` `sendMessage`/`onMessage` are the message transport itself.
  `Content.Sent` builds the request and `Background.AnalyzeSentiment` answers it; the
  transport and its logger are not modelled.
- The popup UI, the settings module, the playground application around the worker, and the
  other message handlers are outside the core.

## Findings

| source | as written | input that shows it | evidently intended | confidence | as-written member | corrected member |
|---|---|---|---|---|---|---|
| sandbox/app/src/worker.ts:116 | `replaceAll("{{text}}", inputText)` with a string replacement, so `$&`, `$$`, `` $` `` and `$'` in the input are expanded as substitution patterns | user prompt `{{text}}` with the input `$&`: the prompt becomes `{{text}}` instead of `$&` | the comment text inserted literally (a replacer function, or `$` escaped as `$$`) | not executed | Worker.SubstitutePromptsAsWritten (shown by Worker.AsWrittenExpandsDollar; used by Worker.GenerateText, as the code runs) | Worker.SubstitutePrompts (agreement without `$`: Worker.AsWrittenAgreesWithoutDollar and Worker.GeneratedRecordIsParsed) |
