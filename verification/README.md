# video-maker-shorts: the text and video stage drivers, modelled in Dafny

The program builds a short narrated video about a search term in two stages that share one stored
content document. The **text stage** (`robots/text.js`) fetches the Wikipedia article, cleans it
(drops blank and `=heading=` lines, joins the rest with spaces, deletes parenthesised groups such as
dates and halves double spaces), splits it into sentence records, keeps the first
`maximumSentences`, asks the keyword service for each sentence's keywords and saves the document.
The **video stage** (`robots/videoffmpeg.js`) converts each sentence's image to a 1920x1080 frame,
renders each sentence's caption with a per-index template, makes the YouTube thumbnail, saves the
render script, runs the renderer and saves the document.

The model:

- `outcomes.dfy`: `Option`, `Result`, `Outcome` and the `Error` values a stage can stop with.
- `strings.dfy`: the JavaScript primitives the stages use. These are `trim()` with the full
  ECMAScript whitespace set, `split` on one character, `join`, and the decimal numeral that a
  template literal prints for an index. The numeral comes with a round-trip proof.
- `sanitize.dfy`: the two pure cleaning functions. The regular expression
  `\((?:\([^()]*\)|[^()])*\)` is modelled by a deterministic scanner. That scanner is proved to
  match exactly the texts the pattern describes.
- `content.dfy`: the stored document (`Document`, a value) and the live object a stage works on
  (`Content`, a class whose fields the text stage reassigns).
- `text_robot.dfy`: each text stage is a method on `Content`. The keyword loop is proved against a
  recursive specification (`AnalyzeAll`), and the stage sequence against `TextRun`.
- `video_robot.dfy`: the template table, the compositor requests, and the two awaited loops. The
  loops are proved against a recursive specification (`RunJobs`). The stage sequence is proved
  against `VideoRun` and the planned trace of a run.

External services are parameters: the article service, the sentence splitter, the keyword service,
the image compositor and the renderer's close event. Each is a total function or value standing
for its answers in one run. Every external request a stage makes is returned as an ordered trace.

Two facts about the cleaning code are worth knowing:

- Sanitization is not idempotent: `(((a)))` becomes `()`, which a second pass deletes, and `a   b`
  becomes `a  b`, then `a b` (`Sanitize.RemoveDatesNotIdempotent`). Only the blank-line and heading
  filter is idempotent (`Sanitize.RemoveBlankLinesAndMarkdownIdempotent`).
- Deleting a group keeps the space in front of it: `Line two (1990). Line three.` becomes
  `Line two . Line three.` (`Sanitize.RemoveDatesExample` proves the same for `two (1990). Three`).

## Model

| member | source | states |
|---|---|---|
| Strings.TrimStart | robots/text.js:55 | dropping leading whitespace never lengthens the line |
| Strings.TrimEnd | robots/text.js:55 | dropping trailing whitespace never lengthens the line |
| Strings.Trim | robots/text.js:55 | `trim()` is no longer than the line, and what is left neither starts nor ends with whitespace |
| Strings.TrimFront | robots/text.js:55 | `trim()` is empty exactly when `trimStart()` is, and otherwise starts with the same character |
| Strings.TrimStartSuffix | robots/text.js:55 | the leading trim is the suffix of the line starting at its first non-whitespace character; everything dropped is ECMAScript whitespace |
| Strings.TrimEndPrefix | robots/text.js:55 | the trailing trim is the prefix ending at the last non-whitespace character; everything dropped is whitespace |
| Strings.TrimEmptyIffBlank | robots/text.js:55 | `line.trim().length === 0` holds exactly when every character of the line is whitespace |
| Strings.TrimFirst | robots/text.js:55 | the first character of `trim()` is the first non-whitespace character, which `startsWith('=')` inspects |
| Strings.TrimStartAppend | robots/text.js:55 | text appended after a non-blank line does not change where its trimmed form starts |
| Strings.Split | robots/text.js:52 | `split('\n')` gives at least one piece, and no piece contains a newline |
| Strings.SplitJoin | robots/text.js:52 | joining the pieces of `split(sep)` with `sep` gives back the text |
| Strings.SplitWithoutSeparator | robots/text.js:52 | text without a newline splits into itself alone |
| Strings.Join | robots/text.js:62 | `join(sep)` starts with the first piece, followed by the separator when there are more pieces |
| Strings.JoinAvoids | robots/text.js:62 | `join(' ')` of newline-free lines contains no newline |
| Strings.NatToString | robots/videoffmpeg.js:27-28 | `${index}` is a non-empty string of decimal digits with no leading zero |
| Strings.NatToStringRoundTrip | robots/videoffmpeg.js:27-28 | reading the numeral of an index back gives the index |
| Strings.NatToStringInjective | robots/videoffmpeg.js:27-28 | different indices print differently |
| Sanitize.IsContentLine | robots/text.js:54-60 | the filter keeps a line exactly when it has a non-whitespace character and the first one is not `=` |
| Sanitize.Filter | robots/text.js:54-60 | `filter` keeps only elements the predicate accepts and never grows the list |
| Sanitize.FilterAvoids | robots/text.js:54-60 | filtering newline-free lines leaves newline-free lines |
| Sanitize.FilterSelectsExactly | robots/text.js:54-60 | the filter result is exactly the accepted elements, at increasing positions of the input, with every accepted position present |
| Sanitize.RemoveBlankLinesAndMarkdown | robots/text.js:51-63 | the cleaned text contains no newline |
| Sanitize.ContentLineExtends | robots/text.js:55 | a kept line is still kept with more text after it |
| Sanitize.JoinedContentLine | robots/text.js:62 | the join of kept lines is itself a line the filter keeps |
| Sanitize.RemoveBlankLinesAndMarkdownIdempotent | robots/text.js:51-63 | cleaning blank and heading lines twice gives the same text as once |
| Sanitize.CloseLen | robots/text.js:67 | a match of `[^()]*\)` ends at a `)` inside the text |
| Sanitize.BodyLen | robots/text.js:67 | a match of the pattern's body and closing `)` ends at a `)` inside the text |
| Sanitize.GroupLen | robots/text.js:67 | a match of the whole pattern starts with `(`, ends with `)` and has length at least 2 |
| Sanitize.CloseLenSound | robots/text.js:67 | what `CloseLen` skips before the `)` holds no parenthesis |
| Sanitize.CloseLenComplete | robots/text.js:67 | a `)` with no parenthesis before it is found by `CloseLen` at that position |
| Sanitize.BodyLenSound | robots/text.js:67 | what `BodyLen` matches before the final `)` is a body of the pattern: plain characters and inner groups |
| Sanitize.BodyLenSoundPlain | robots/text.js:67 | a matched body that starts with a plain character is a body of the pattern |
| Sanitize.InnerGroupAtFront | robots/text.js:67 | after a `(`, what `[^()]*\)` matches closes an inner group `\([^()]*\)` |
| Sanitize.InnerGroupThenBody | robots/text.js:67 | an inner group followed by a body is a body |
| Sanitize.BodyLenSoundInner | robots/text.js:67 | a matched body that starts with an inner group is a body of the pattern |
| Sanitize.BodyLenCompletePlain | robots/text.js:67 | a body that starts with a plain character and is followed by `)` is matched with exactly that length |
| Sanitize.BodyLenCompleteInner | robots/text.js:67 | a body that starts with an inner group and is followed by `)` is matched with exactly that length |
| Sanitize.BodyLenInnerStep | robots/text.js:67 | after a `(`, an inner group closed by `[^()]*\)` and a matched body give a match of their combined length |
| Sanitize.BodyLenComplete | robots/text.js:67 | every body followed by `)` is matched by `BodyLen`, with exactly that length |
| Sanitize.GroupLenMatchesPattern | robots/text.js:67 | the scanner finds a match of length k at the start exactly when that prefix is a group of the pattern, so the match is unique |
| Sanitize.RemoveGroups | robots/text.js:67 | the first replace never lengthens the text |
| Sanitize.RemoveGroupsAvoids | robots/text.js:67 | the first replace introduces no character |
| Sanitize.RemoveGroupsWithoutOpenParen | robots/text.js:67 | text without `(` is left unchanged by the first replace |
| Sanitize.RemoveGroupsSkipsPlainPrefix | robots/text.js:67 | text without `(` in front is kept as it is, and the scan continues after it |
| Sanitize.GroupAtFront | robots/text.js:67 | a group at the start of the text is matched with exactly its length, whatever follows |
| Sanitize.RemoveGroupsLeftmost | robots/text.js:67 | the leftmost group is deleted and the text before it is kept |
| Sanitize.RemoveGroupsKeepsUnmatched | robots/text.js:67 | a `(` that starts no group is kept and the scan resumes after it |
| Sanitize.NoParensIsBody | robots/text.js:67 | a run without parentheses is a body of the pattern |
| Sanitize.PlainGroup | robots/text.js:67 | a parenthesised run without parentheses inside is a group of the pattern |
| Sanitize.TwoLevelGroup | robots/text.js:67 | one level of nesting, `((body))` with a parenthesis-free body, is a group of the pattern |
| Sanitize.NestedHasNoGroupAtFront | robots/text.js:67 | no match of the pattern starts at the outer `(` of `(((a)))` |
| Sanitize.RemoveGroupsDropsPlainGroup | robots/text.js:67 | a parenthesised run without inner parentheses, such as a year, is deleted, and the text around it is kept when that text contains no `(` |
| Sanitize.CollapseDoubleSpaces | robots/text.js:67 | the second replace never lengthens the text |
| Sanitize.CollapseAvoids | robots/text.js:67 | the second replace introduces no character |
| Sanitize.CollapseKeepsNonSpaces | robots/text.js:67 | the second replace deletes only spaces: the other characters stay, in order |
| Sanitize.CollapseChangesIffDoubleSpace | robots/text.js:67 | the second replace changes the text exactly when it has two spaces in a row, and then shortens it |
| Sanitize.CollapseExample | robots/text.js:67 | `two . Three` passes the second replace unchanged |
| Sanitize.RemoveDatesInParentheses | robots/text.js:66-68 | the result is never longer than the input |
| Sanitize.RemoveDatesAvoids | robots/text.js:66-68 | a character absent from the input is absent from the result |
| Sanitize.RemoveDatesUnchanged | robots/text.js:66-68 | text with no `(` and no double space is returned unchanged |
| Sanitize.RemoveDatesNestedExample | robots/text.js:66-68 | `(((a)))` becomes `()`: only two levels of nesting form a group |
| Sanitize.RemoveDatesNotIdempotent | robots/text.js:66-68 | a second pass can still change the text: `(((a)))` becomes `()` and then the empty text, and `a   b` becomes `a  b` and then `a b` |
| Sanitize.EmptyGroupRemoved | robots/text.js:66-68 | the empty group `()` is deleted |
| Sanitize.SpaceRunExample | robots/text.js:66-68 | `a   b` becomes `a  b` after one pass and `a b` after a second |
| Sanitize.RemoveDatesExample | robots/text.js:66-68 | `two (1990). Three` becomes `two . Three`: the space before the date stays |
| Sanitize.SanitizeText | robots/text.js:44-49 | the sanitized text contains no newline and is no longer than the cleaned lines |
| ContentState.Content.Load | robots/text.js:19 | a loaded content object holds exactly the stored document |
| TextRobot.AnalyzeRequest | robots/text.js:99-110 | the keyword request carries the sentence text, the language `pt` and a limit of 2 keywords |
| TextRobot.FreshSentences | robots/text.js:73-80 | one record per splitter sentence, in order, with that sentence as its text and empty keywords and images |
| TextRobot.KeywordTexts | robots/text.js:116-118 | the keyword list has one text per answer entry, in answer order |
| TextRobot.FetchWatsonAndReturnKeywords | robots/text.js:99-125 | a rejection passes through unchanged; otherwise the result is the answer's keyword texts, as many as the answer holds and in its order |
| TextRobot.SliceTo | robots/text.js:84 | `slice(0, n)` is a prefix of length min(n, length) for n ≥ 0, and drops the last -n elements for n < 0 |
| TextRobot.AnalyzeAll | robots/text.js:87-97 | the keyword loop keeps the number of sentences; it makes at most one request per sentence, exactly one per sentence when it passes, and at least one when it fails |
| TextRobot.FirstRejected | robots/text.js:90-93 | locates the first sentence whose keyword request is rejected: all before it are answered |
| TextRobot.AnalyzeAllSentences | robots/text.js:87-97 | the keyword loop keeps the sentence count, every text and image list; sentences before the first rejection get their answer's keyword texts, the rest are untouched |
| TextRobot.AnalyzeAllOutcome | robots/text.js:87-97 | the keyword loop succeeds exactly when no request is rejected, and otherwise fails with the first rejection's reason |
| TextRobot.AnalyzeAllRequests | robots/text.js:87-97 | the keyword loop asks about the sentences in order, up to and including the first rejected one |
| TextRobot.AnalyzeAllStep | robots/text.js:90-96 | an answered sentence is updated and the loop continues with the next one |
| TextRobot.AnalyzeAllStop | robots/text.js:90-93 | a rejected sentence ends the loop with that rejection and leaves the sentences untouched |
| TextRobot.FetchContentFromWikipedia | robots/text.js:29-42 | asks for the search term in `pt`; on success stores the article as the original text, on failure rejects with the service's error and leaves it unchanged |
| TextRobot.SanitizeContent | robots/text.js:44-49 | the sanitized field becomes the sanitized original |
| TextRobot.BreakContentIntoSentences | robots/text.js:70-81 | the sentence list becomes one record per splitter sentence, in order, with that text and empty keywords and images |
| TextRobot.LimitMaximumSentences | robots/text.js:83-85 | the sentence list becomes `slice(0, maximumSentences)` of the old list |
| TextRobot.FetchKeywordsOfAllSentences | robots/text.js:87-97 | outcome, sentence list and requests are those `TextRobot.AnalyzeAll` gives for the old list |
| TextRobot.PreparedDocument | robots/text.js:21-24 | after fetch, sanitize, split and limit, the document keeps its search term and limit, holds the article and its sanitized form, and its sentences are fresh records for the first min(maximumSentences, n) splitter sentences |
| TextRobot.FinishRun | robots/text.js:25-27 | after the fetch request, the run settles as the keyword loop does; on success the last request saves the prepared document with the loop's sentences |
| TextRobot.TextRun | robots/text.js:17-27 | the fetch request comes first; a rejected fetch ends the run with its reason and no other request |
| TextRobot.Run | robots/text.js:17-27 | outcome and requests are those `TextRobot.TextRun` gives for the stored document |
| TextRobot.FinishRunSavesOnlyOnSuccess | robots/text.js:25-27 | after the fetch, the save is the last request and happens exactly when no keyword request is rejected; otherwise the run fails with the first rejection |
| TextRobot.TextRunSavesOnlyOnSuccess | robots/text.js:17-27 | the first request is the fetch; the save happens, as the last request, exactly when the fetch and every keyword request succeed |
| TextRobot.FinishRunSavedDocument | robots/text.js:25-27 | the saved document is the prepared one with each sentence given its answer's keyword texts |
| TextRobot.TextRunSavedDocument | robots/text.js:17-27 | a successful run saves the fetched article, its sanitized form and the first min(maximumSentences, n) splitter sentences, in order, each with its keyword texts and no images |
| TextRobot.FinishRunKeywordRequestsInOrder | robots/text.js:87-97 | after the fetch, the requests are the keyword requests for the prepared sentences one by one, in order, all of them when the loop passes |
| TextRobot.TextRunKeywordRequestsInOrder | robots/text.js:87-97 | between fetch and save a run asks for the keywords of the kept sentences one by one, in order, all of them when it succeeds |
| VideoRobot.TemplateFor | robots/videoffmpeg.js:73-102 | the template table `TemplateSettings` is defined exactly for 0 to 6, and entry i is the layout of i mod 3 (1920x400 center, 1920x1080 center, 800x1080 west) |
| VideoRobot.IndexedPath | robots/videoffmpeg.js:27-28 | an indexed file lies in `./content/` and its name is longer than the suffix, since the index numeral is never empty |
| VideoRobot.ConversionJob | robots/videoffmpeg.js:25-30 | a conversion to a 1920x1080 frame that writes `${i}-converted.png` and never writes over its own input |
| VideoRobot.CaptionJob | robots/videoffmpeg.js:69-120 | for index 0 to 6 the caption writes `${i}-sentence.png` with the sentence text, the table's size and gravity, transparent background, white fill and kerning -1; for index 7 or more it rejects with no write |
| VideoRobot.IndexedPathInjective | robots/videoffmpeg.js:27-28 | two file names with the same suffix are equal only for the same index |
| VideoRobot.OutputsDistinct | robots/videoffmpeg.js:25-71 | distinct indices write distinct converted files and distinct caption files |
| VideoRobot.CaptionAvoidsConvertedImages | robots/videoffmpeg.js:25-71 | a caption file never overwrites a converted image |
| VideoRobot.ThumbnailReadsFirstConversion | robots/videoffmpeg.js:122-124 | the thumbnail write `ThumbnailJob` reads the file written by the conversion of sentence 0 |
| VideoRobot.RunJobs | robots/videoffmpeg.js:19-23 | awaited writes make at most one request per step, and one per step when they all pass |
| VideoRobot.FirstFailure | robots/videoffmpeg.js:19-23 | locates the first write that rejects: all writes before it pass |
| VideoRobot.RunJobsOutcome | robots/videoffmpeg.js:19-23 | a sequence of awaited writes passes exactly when each passes, and otherwise rejects with the first failure's reason |
| VideoRobot.RunJobsEvents | robots/videoffmpeg.js:63-67 | awaited writes are requested in order up to the first failure; a caption with no template is never requested |
| VideoRobot.RunJobsStep | robots/videoffmpeg.js:19-23 | a passing write is followed by the rest of the loop; a failing one ends it |
| VideoRobot.RunJobsRefused | robots/videoffmpeg.js:63-67 | a caption that cannot be built ends the loop at once, with no request |
| VideoRobot.RunJobsRejected | robots/videoffmpeg.js:19-23 | a write the compositor rejects ends the loop after its own request |
| VideoRobot.RunJobsAccepted | robots/videoffmpeg.js:19-23 | a write the compositor accepts is followed by the rest of the loop |
| VideoRobot.ConvertAllImages | robots/videoffmpeg.js:19-61 | outcome and requests are those of the awaited conversions for indices 0 to n-1 |
| VideoRobot.CreateAllSentenceImages | robots/videoffmpeg.js:63-120 | outcome and requests are those of the awaited captions for indices 0 to n-1 with each sentence's text |
| VideoRobot.CreateYouTubeThumbnail | robots/videoffmpeg.js:122-133 | one thumbnail write reading `0-converted.png` and writing `youtube-thumbnail.jpg`, settling as the compositor says |
| VideoRobot.CreateFFmpeg | robots/videoffmpeg.js:135-137 | the render script is saved from the current content |
| VideoRobot.RenderArguments | robots/videoffmpeg.js:141-154 | six arguments; the project file follows `-project`, the output file follows `-output`, both lie under the project root, and they differ |
| VideoRobot.RenderVideoWithFFmpeg | robots/videoffmpeg.js:139-182 | spawns `aerender` with `-comp main -project <root>/templates/1/template.aep -output <root>/content/output.mov`; resolves on close whatever the exit code, stays pending otherwise, never rejects |
| VideoRobot.FinishVideo | robots/videoffmpeg.js:13-17 | after the image stages, the run resolves exactly when the thumbnail write passes and the renderer closes, and rejects exactly when the thumbnail write fails, with its reason |
| VideoRobot.VideoRun | robots/videoffmpeg.js:8-17 | a run stays pending only when the renderer never closes, and resolves only when it closes |
| VideoRobot.Run | robots/videoffmpeg.js:8-17 | settlement and requests are those `VideoRobot.VideoRun` gives for the stored document |
| VideoRobot.CaptionCount | robots/videoffmpeg.js:73-102 | a run can request at most seven captions, one per sentence |
| VideoRobot.ConversionsFollowPlan | robots/videoffmpeg.js:19-28 | the conversion requests are a prefix of the conversions for 0 to n-1 in order; they pass exactly when every conversion is accepted, and then all are made |
| VideoRobot.CaptionsFollowPlan | robots/videoffmpeg.js:63-71 | the caption requests are a prefix of the captions in index order; they pass exactly when there are at most seven sentences and every caption is accepted |
| VideoRobot.CaptionsStopAtEight | robots/videoffmpeg.js:105-106 | with more than seven sentences the captions always reject, with the missing template of index 7 when the first seven succeed |
| VideoRobot.PrefixOfConcat | robots/videoffmpeg.js:8-17 | a prefix of a trace stays a prefix when more requests follow |
| VideoRobot.PrefixAfterCommonFront | robots/videoffmpeg.js:8-17 | prefixes are kept behind a common start of the trace |
| VideoRobot.PlannedEvents | robots/videoffmpeg.js:8-17 | the trace of a run where every request succeeds has one conversion per sentence, one caption per covered sentence and four closing requests, and ends with the state save |
| VideoRobot.VideoRunSettlement | robots/videoffmpeg.js:8-17 | a run rejects exactly when some image write fails or there are more than seven sentences, stays pending exactly when the renderer never closes, and resolves otherwise whatever the exit code |
| VideoRobot.FinishFollowsPlan | robots/videoffmpeg.js:13-17 | after the captions: thumbnail, then script save, render and state save; a failed thumbnail ends the run, and a renderer that never closes leaves out the state save |
| VideoRobot.VideoRunFollowsPlan | robots/videoffmpeg.js:8-17 | every run's requests are a prefix of all conversions, all captions, thumbnail, script save, render, state save; a resolved run makes all of them and a pending one all but the state save |
| VideoRobot.ConversionsFailFollowPlan | robots/videoffmpeg.js:11 | a run whose conversions reject follows the planned trace |
| VideoRobot.CaptionsFailFollowPlan | robots/videoffmpeg.js:12 | a run whose captions reject follows the planned trace |
| VideoRobot.ImageStagesPassFollowPlan | robots/videoffmpeg.js:13-17 | a run whose conversions and captions pass follows the planned trace |
| VideoRobot.PlanLayout | robots/videoffmpeg.js:8-17 | in the planned trace every image write before the thumbnail is a conversion or caption, followed by thumbnail, script save, render and state save |
| VideoRobot.VideoRunFailFast | robots/videoffmpeg.js:52-55 | after a rejected write nothing but image writes has been requested: no script save, render or state save |
| VideoRobot.VideoRunThumbnailOnce | robots/videoffmpeg.js:12-14 | the thumbnail is requested at most once, right after all conversions and captions, and always when the conversions and captions pass, whether or not the thumbnail write succeeds, also with no sentences |
| VideoRobot.VideoRunReachesThumbnail | robots/videoffmpeg.js:12-14 | when the conversions and captions pass, the run goes on past them to the thumbnail request |
| VideoRobot.PlanPrefixThumbnail | robots/videoffmpeg.js:13 | in any prefix of the planned trace the thumbnail appears only right after all conversions and captions |
| VideoRobot.PlanPrefixSaves | robots/videoffmpeg.js:9-17 | every save in a prefix of the planned trace carries the loaded document, and the whole plan ends with the state save |
| VideoRobot.VideoRunSavesLoadedContent | robots/videoffmpeg.js:9-17 | the script save and the state save carry the document as loaded; a resolved run ends with the state save |
| VideoRobot.VideoRunTooManySentences | robots/videoffmpeg.js:105-106 | a document with more than seven sentences whose earlier writes succeed makes the run reject for the missing template of index 7 |

## Left out

- Network clients: the Algorithmia and Watson clients, their credentials, the `timeout=3000` setting and the client set-up (robots/text.js:1-13, 36-38). Each service is a function parameter from request to answer. Two identical requests in one run therefore get the same answer.
- The keyword request's `emotion` and `sentiment` flags are not part of the modelled request. Only the text, the language and the `limit` are. The answer's fields other than each keyword's `text` are not modelled either. The `limit: 2` is not checked against the answer, as in the source.
- `FetchContentFromWikipedia`: the article service answers with the article text directly. The `content` field of the parser's response is not modelled separately.
- The sentence boundary splitter (`sbd`) is a function parameter.
- `robots/state.js` is not part of this model. `load` is the stored document passed in. `save` and `saveScript` are requests in the trace that are assumed to succeed, so their own failures and atomicity are not modelled.
- Image compositor semantics (blur, resize, composite, extent, caption rendering) are not modelled. Each `gm().write` is one request whose outcome the compositor parameter gives.
- The renderer process is not modelled: `spawn`, stdout streaming and the exit code's meaning. Only its close event is modelled, as `Option<int>`, where `None` means the process never closes. A spawn `error` event is not modelled.
- The `new ffmpeg('/path/to/your_movie.avi')` block (robots/videoffmpeg.js:160-175) is not modelled. Its errors are only logged and it never settles the render promise.
- Console output is not modelled.
- `TextRobot.LimitMaximumSentences`: `maximumSentences` is an integer. JavaScript's `slice` on a fraction, `NaN` or `undefined` is not modelled.
- JavaScript strings are sequences of UTF-16 code units, while the model's strings are sequences of Unicode scalar values. Surrogate pairs are therefore not modelled.
- `TextRobot.FetchKeywordsOfAllSentences`: the loop's write to `sentence.keywords` on a shared sentence object is modelled as replacing that element of the `sentences` sequence. Aliasing of sentence objects is not captured.
- Synchronous exceptions of the text stage are not modelled, for example a missing `sourceContentOriginal` when the parser's answer lacks `content`.
