# Inceptra dashboard: a Dafny model of its client-side rules

Inceptra is a React dashboard with four AI tools: an article generator, an image
generator, a background remover and a resume analyzer. It also has a history page
and a usage card. This project models the rules those pages follow on the client:

- **The shared HTTP client.** Its default header map holds the `Authorization`
  credential. `setAuthToken` writes that map in place, and the identity wrapper
  decides what gets written. The client also fixes each request's path, body,
  multipart field name and timeout.
- **The route guards.** One guards every dashboard route; the article page has its
  own.
- **The article page.** It gates on the title and fetches a fresh token before
  posting. It sorts failures by HTTP status, strips `<think>…</think>` blocks from
  the generated text, and builds the download file name.
- **The upload pages.** They validate the picked file and keep a selection and a
  result. The resume page also sorts scores into colour bands and writes a
  plain-text report.
- **The image page.** It gates on the prompt, and its selectors have default values.
- **The pure lookups.** These are the sidebar's active-link rule over its link
  table, the usage card's unlimited, percentage and limit-reached rules, and the
  history page's type and status lookups.

Components whose fields the source updates step by step are modelled as classes
whose methods state the new state:

- the client's header map;
- the article, resume, background and image pages.

Pure decisions are modelled as functions, and lemmas relate them. Network replies
and the identity provider's token are parameters of the handlers (`Outcome`,
`TokenResult`).

Modules: `Common` holds the shared values and JavaScript's `||` on strings, and
`Text` holds the JavaScript string built-ins. The remaining modules each follow one
source file: `Api`, `AuthWrapper`, `ProtectedRoute`, `ArticleGenerator`,
`ResumeAnalyzer`, `BackgroundRemover`, `ImageGenerator`, `UsageDisplay`,
`DashboardSidebar` and `History`.

## Model

| member | source | states |
|---|---|---|
| Common.FirstTruthy | src/components/AuthWrapper.tsx:17 | `a \|\| b \|\| ''` is empty exactly when no operand is a non-empty string; otherwise it is the first non-empty operand |
| Common.FirstOfTwo | src/pages/BackgroundRemover.tsx:19 | the two-operand case: the first non-empty of `a` and `b`, else `''` |
| Text.TrimStart | src/pages/ArticleGenerator.tsx:102 | the result is a suffix of the input; everything cut off is white space; the result does not start with white space |
| Text.TrimEnd | src/pages/ArticleGenerator.tsx:102 | the result is a prefix of the input; everything cut off is white space; the result does not end with white space |
| Text.TrimIsSlice | src/pages/ArticleGenerator.tsx:102 | `trim` keeps one contiguous slice, and everything around it is white space |
| Text.BlankIffAllSpace | src/pages/ArticleGenerator.tsx:102 | `!s.trim()` holds exactly when every character is white space |
| Text.Trim | src/pages/ArticleGenerator.tsx:102 | `trim`: never longer than the input, and the result neither starts nor ends with white space |
| Text.IsBlank | src/pages/ArticleGenerator.tsx:102 | `!s.trim()`: the trimmed string is empty (related to white space only by `BlankIffAllSpace`) |
| Text.TrimIdempotent | src/pages/ImageGenerator.tsx:39 | trimming a trimmed string changes nothing |
| Text.TrimStartRun | src/pages/ArticleGenerator.tsx:221 | a white-space run followed by text trims to the text |
| Text.Lower | src/pages/ArticleGenerator.tsx:221 | `toLowerCase` keeps the length and lowers each character independently |
| Text.Join | src/pages/ResumeAnalyzer.tsx:71-80 | `join(sep)`: no pieces give `""`, one piece is itself, otherwise the first piece, the separator and the join of the rest (its laws are `JoinAppend`, `JoinAvoids` and `SplitJoin`) |
| Text.SplitJoin | src/pages/ResumeAnalyzer.tsx:71 | splitting a joined list at the separator gives the list back, if no piece contains the separator |
| Text.JoinAppend | src/pages/ResumeAnalyzer.tsx:71 | `join` of two non-empty lists back to back is the two joins with one separator between them |
| Text.JoinAvoids | src/pages/ResumeAnalyzer.tsx:77 | a character in no piece and not in the separator is not in the join |
| Text.NatToString | src/lib/api.ts:63 | formatting a count gives a non-empty digit string without a leading zero |
| Text.ParseNatToString | src/lib/api.ts:63 | reading back the formatted count gives the count |
| Text.IntToString | src/pages/ResumeAnalyzer.tsx:68 | an integer in a template literal: never empty, and it starts with `-` exactly when the integer is negative |
| Text.IntToStringInjective | src/pages/ResumeAnalyzer.tsx:68 | two integers with the same text are equal |
| Api.WithAuthToken | src/lib/api.ts:15-21 | a non-empty token gives `Authorization: Bearer <token>`; an empty one removes the key; every other key and value is unchanged |
| Api.LastWriteWins | src/lib/api.ts:15-20 | after two `setAuthToken` calls the map is as after the second alone, so repeating a call is idempotent |
| Api.Intercept | src/lib/api.ts:24-30 | a response passes through unchanged, and an error is rejected again as the same error |
| Api.MergeHeaders | src/lib/api.ts:9-11 | a request carries every header of the three layers; call headers override the instance's, and the instance's override the defaults |
| Api.MessageOr | src/pages/ResumeAnalyzer.tsx:31 | the server's `message` when it is non-empty, else the fallback |
| Api.Client.constructor | src/lib/api.ts:5-12 | the default map starts as the library leaves it; the instance's own headers are `Content-Type: application/json` |
| Api.Client.SetAuthToken | src/lib/api.ts:15-21 | the default map becomes `WithAuthToken` of the old map |
| Api.Client.Send | src/lib/api.ts:5-12 | the credential is read from the default map at send time (`CarriesCredentialOf`); the content type is the call's or JSON; the timeout is the call's or 120000 ms |
| Api.Client.GenerateArticle | src/lib/api.ts:36-39 | POST `/article` with the title and length, as JSON, with the default timeout. The request carries the default map's credential as it stands at send time, or none. |
| Api.Client.GenerateImage | src/lib/api.ts:40-43 | POST `/image` with prompt, style and size, as JSON, with the default timeout. The request carries the default map's credential as it stands at send time, or none. |
| Api.Client.RemoveBackground | src/lib/api.ts:44-52 | POST `/bg-remove` as a one-part multipart form under the field `image`; the 180000 ms timeout is not below the default. The request carries the default map's credential as it stands at send time, or none. |
| Api.Client.AnalyzeResume | src/lib/api.ts:53-61 | POST `/resume` as a one-part multipart form under the field `file`; the 120000 ms timeout is not below the default. The request carries the default map's credential as it stands at send time, or none. |
| Api.Client.GetHistory | src/lib/api.ts:62-65 | GET `/history?limit=` followed by the limit's decimal text without leading zeros, which reads back as the limit; the limit defaults to 50. The request carries the default map's credential as it stands at send time, or none. |
| Api.Client.GetUsage | src/lib/api.ts:66-69 | GET `/history/usage` with the default timeout. The request carries the default map's credential as it stands at send time, or none. |
| AuthWrapper.HeadersAfterUpdate | src/components/AuthWrapper.tsx:12-27 | signed out: no credential. Signed in with a non-empty token: `Bearer <token>`. Absent or empty token: no credential. A throwing token request leaves the map unchanged. No other key is touched. |
| AuthWrapper.UpdateToken | src/components/AuthWrapper.tsx:13-24 | the client's default map becomes `HeadersAfterUpdate` of the old map |
| AuthWrapper.RequestsFollowUpdate | src/components/AuthWrapper.tsx:12-27 | any request sent from the updated map carries `Bearer <token>` after a sign-in that issued a token, and no credential after a sign-out or a sign-in without one |
| ProtectedRoute.Guard | src/components/ProtectedRoute.tsx:16-44 | exactly one of three outcomes. Not loaded: the loader, whatever the sign-in state. Loaded and signed out: a replacing redirect to `/signin` that carries the location. Loaded and signed in: the children. |
| ArticleGenerator.FindClose | src/pages/ArticleGenerator.tsx:68 | the earliest case-insensitive `</think>` at or after a position, or none |
| ArticleGenerator.StripThink | src/pages/ArticleGenerator.tsx:68 | the cleaned text is never longer than the raw text |
| ArticleGenerator.BlockEnd | src/pages/ArticleGenerator.tsx:68 | a removed block spans at least 15 characters and ends with a closing tag |
| ArticleGenerator.NoOpenUnchanged | src/pages/ArticleGenerator.tsx:68 | text with no case-insensitive `<think>` is returned unchanged |
| ArticleGenerator.NoCloseUnchanged | src/pages/ArticleGenerator.tsx:68 | text with no case-insensitive `</think>` is returned unchanged |
| ArticleGenerator.UnclosedKept | src/pages/ArticleGenerator.tsx:68 | a `<think>` with no later `</think>` is kept verbatim, together with everything after it |
| ArticleGenerator.PlainPrefixKept | src/pages/ArticleGenerator.tsx:68 | text before the first `<` passes through, and the scan carries on behind it |
| ArticleGenerator.StripThinkExamples | src/pages/ArticleGenerator.tsx:68 | `"<think>a</think>b"` and `"<THINK>a</Think>b"` both become `"b"` |
| ArticleGenerator.DashRuns | src/pages/ArticleGenerator.tsx:221 | `replace(/\s+/g, '-')` leaves no white space and never lengthens the text |
| ArticleGenerator.DashRunsWord | src/pages/ArticleGenerator.tsx:221 | text without white space is copied unchanged |
| ArticleGenerator.DashRunsRun | src/pages/ArticleGenerator.tsx:221 | a white-space run of any length becomes a single `-` |
| ArticleGenerator.DownloadFilename | src/pages/ArticleGenerator.tsx:221 | the file name contains no white space, ends with `.txt`, and is at most four characters longer than the title |
| ArticleGenerator.FilenameOfOneWord | src/pages/ArticleGenerator.tsx:221 | a title without white space is only lower-cased before `.txt` is added |
| ArticleGenerator.ArticleText | src/pages/ArticleGenerator.tsx:67-68 | a missing or empty `data.data.article` gives the empty article; otherwise the article is never longer than the raw text |
| ArticleGenerator.ClassifyError | src/pages/ArticleGenerator.tsx:72-94 | 401 is checked first and redirects with the location. A 400 with `details.fieldErrors` shows that map. Anything else shows `resData.error` when non-empty, else `'Failed to generate article.'`; the message is never empty. |
| ArticleGenerator.TitleError | src/pages/ArticleGenerator.tsx:154-156 | the paragraph under the title is there exactly when the `title` key is, an empty list included (it is truthy); it holds the first entry, or nothing for an empty list |
| ArticleGenerator.RejectedTitleShown | src/pages/ArticleGenerator.tsx:87-90 | after a 400 whose field map lists title errors, the title paragraph shows the first of them |
| ArticleGenerator.ErrorToast | src/pages/ArticleGenerator.tsx:79-93 | the toast per reaction: `Session expired. Redirecting to sign in…` on 401, `Please fix the errors and try again.` on a 400 with a field map, otherwise the classified message |
| ArticleGenerator.ErrorToastNeverEmpty | src/pages/ArticleGenerator.tsx:79-93 | every classified failure shows a non-empty toast |
| ArticleGenerator.Gate | src/pages/ArticleGenerator.tsx:111-122 | a loader until loaded; then, when signed out, navigation to sign-in that carries the location; otherwise the form |
| ArticleGenerator.MutationFn | src/pages/ArticleGenerator.tsx:56-63 | without a token, or when the token request throws, the call fails with "No token found" or the thrown error. Nothing is written to the header map and no request is sent. With a token, the map gets `Bearer <token>`, the POST to `/article` carries it, and the reply passes through the interceptor. |
| ArticleGenerator.ArticlePage.constructor | src/pages/ArticleGenerator.tsx:29-33 | empty title, article and field errors; length `medium`; not thinking |
| ArticleGenerator.ArticlePage.GenerateDisabled | src/pages/ArticleGenerator.tsx:179 | disabled exactly while pending or while the title is all white space |
| ArticleGenerator.ArticlePage.HandleGenerate | src/pages/ArticleGenerator.tsx:97-109 | clears the article and field errors. A blank title sends nothing, shows `Please enter a title` and leaves `isThinking` false. Otherwise the payload is the trimmed title with the current length, and `isThinking` is set. |
| ArticleGenerator.ArticlePage.OnSuccess | src/pages/ArticleGenerator.tsx:64-71 | clears the field errors and `isThinking`, and shows `ArticleText` of the reply |
| ArticleGenerator.ArticlePage.OnError | src/pages/ArticleGenerator.tsx:72-94 | always clears `isThinking`. Only a 401 schedules the sign-in navigation, and it leaves `fieldErrors` alone. Only a 400 with a map replaces `fieldErrors`. The toast is `ErrorToast` of the reaction. |
| ArticleGenerator.Generate | src/pages/ArticleGenerator.tsx:55-109 | a whole press. `isThinking` always ends false. A blank title sends nothing and leaves the header map unchanged. A non-blank title with an issued non-empty token is sent. A sent body carries the trimmed title. A success shows the stripped article. |
| ResumeAnalyzer.CheckResume | src/pages/ResumeAnalyzer.tsx:38-46 | the type check comes before the size check and needs exactly `application/pdf`; any size up to 5·1024·1024 bytes is accepted, exactly 5 MiB included |
| ResumeAnalyzer.ScoreColor | src/pages/ResumeAnalyzer.tsx:105-109 | green for ≥ 80, yellow for 60–79, red below 60 |
| ResumeAnalyzer.ScoreBg | src/pages/ResumeAnalyzer.tsx:111-115 | green for ≥ 80, yellow for 60–79, red below 60 |
| ResumeAnalyzer.ColorAndBackgroundAgree | src/pages/ResumeAnalyzer.tsx:105-115 | the text colour and the background always come from the same band |
| ResumeAnalyzer.Verdict | src/pages/ResumeAnalyzer.tsx:238-240 | the three sentences follow the same 80 and 60 thresholds, with a zero score counted as falsy |
| ResumeAnalyzer.VerdictMatchesBand | src/pages/ResumeAnalyzer.tsx:230-240 | the verdict sentence agrees with the colour band |
| ResumeAnalyzer.Bulleted | src/pages/ResumeAnalyzer.tsx:71 | one `• item` line per item, in order |
| ResumeAnalyzer.BulletListLines | src/pages/ResumeAnalyzer.tsx:71-80 | a non-empty bullet list of one-line items, cut at its line breaks, gives one `• item` line per item, in order |
| ResumeAnalyzer.KeywordLine | src/pages/ResumeAnalyzer.tsx:77 | the keywords joined with `", "` cut back at the commas into the keywords, each after the first led by one space |
| ResumeAnalyzer.JoinSpaceLed | src/pages/ResumeAnalyzer.tsx:77 | joining with `", "` equals joining the space-led pieces with `","` |
| ResumeAnalyzer.ReportText | src/pages/ResumeAnalyzer.tsx:65-83 | the report opens with its title, the 24-character rule, `Overall Score: <score>/100` and the `Strengths:` heading, and closes with an empty line, `Generated on: <date>` and a line break |
| ResumeAnalyzer.SectionLines | src/pages/ResumeAnalyzer.tsx:71 | a list's section is one `• item` line per item, or one empty line for an empty list |
| ResumeAnalyzer.ReportLines | src/pages/ResumeAnalyzer.tsx:65-83 | the report's lines: title, rule, score, then each heading with its section, the date, and an empty last line for the closing line break |
| ResumeAnalyzer.ReportIsLines | src/pages/ResumeAnalyzer.tsx:65-83 | the report text is exactly `ReportLines` joined with line breaks |
| ResumeAnalyzer.ReportLinesSingle | src/pages/ResumeAnalyzer.tsx:65-83 | when no entry and not the date holds a line break, no line of the report does |
| ResumeAnalyzer.ReportLinesSplit | src/pages/ResumeAnalyzer.tsx:65-83 | under that condition, cutting the report at its line breaks gives back exactly `ReportLines` |
| ResumeAnalyzer.SectionIsBulletList | src/pages/ResumeAnalyzer.tsx:71 | a section's lines joined with line breaks are the `join('\n')` of the bulleted items, the empty list included |
| ResumeAnalyzer.ReportDeterminesScore | src/pages/ResumeAnalyzer.tsx:68 | two reports that agree name the same score |
| ResumeAnalyzer.ErrorMessage | src/pages/ResumeAnalyzer.tsx:30-32 | the server's message, or `'Failed to analyze resume'`, never empty |
| ResumeAnalyzer.ResumePage.constructor | src/pages/ResumeAnalyzer.tsx:20-21 | no selection and no result |
| ResumeAnalyzer.ResumePage.HandleFileSelect | src/pages/ResumeAnalyzer.tsx:35-51 | no file, or a refused one, changes nothing; a refusal shows its reason's message. An accepted file becomes the selection and clears the previous result. |
| ResumeAnalyzer.ResumePage.HandleAnalyzeResume | src/pages/ResumeAnalyzer.tsx:53-60 | without a selection no request is made and the page asks for a file; with one, the file is posted to `/resume` under `file` and nothing is shown; the request carries the credential the default map holds |
| ResumeAnalyzer.ResumePage.OnSuccess | src/pages/ResumeAnalyzer.tsx:26-29 | the reply becomes the result and the selection stays |
| ResumeAnalyzer.ResumePage.DownloadReport | src/pages/ResumeAnalyzer.tsx:62-95 | nothing without a result; otherwise `ReportText` of the result, saved exactly as `resume-analysis-` + the formatted clock + `.txt` |
| ResumeAnalyzer.ResumePage.ClearFile | src/pages/ResumeAnalyzer.tsx:97-103 | both the selection and the result become null |
| BackgroundRemover.CheckImage | src/pages/BackgroundRemover.tsx:30-38 | only types starting with `image/` pass, and the type is checked first; any size up to 10·1024·1024 bytes is accepted, exactly 10 MiB included |
| BackgroundRemover.ProcessedResult | src/pages/BackgroundRemover.tsx:19 | `imageUrl` if non-empty, else `processedImage` if non-empty, else `''` |
| BackgroundRemover.ErrorMessage | src/pages/BackgroundRemover.tsx:22-24 | the server's message, or `'Failed to remove background'`, never empty |
| BackgroundRemover.BackgroundPage.constructor | src/pages/BackgroundRemover.tsx:11-13 | no images and no selection |
| BackgroundRemover.BackgroundPage.HandleFileSelect | src/pages/BackgroundRemover.tsx:27-48 | a refused file changes nothing and shows its reason's message; an accepted one becomes the selection; the images change only once the reader loads |
| BackgroundRemover.BackgroundPage.OnOriginalLoaded | src/pages/BackgroundRemover.tsx:42-45 | the loaded data URL becomes the original and the processed image is cleared |
| BackgroundRemover.BackgroundPage.HandleProcessImage | src/pages/BackgroundRemover.tsx:50-57 | without a selection no request is made and the page asks for an image; with one, the file is posted to `/bg-remove` under `image` and nothing is shown; the request carries the credential the default map holds |
| BackgroundRemover.BackgroundPage.OnSuccess | src/pages/BackgroundRemover.tsx:18-21 | the processed image becomes `ProcessedResult` of the reply |
| BackgroundRemover.BackgroundPage.ClearImages | src/pages/BackgroundRemover.tsx:69-76 | original, processed image and selection are all reset |
| BackgroundRemover.BackgroundPage.ShowsResults | src/pages/BackgroundRemover.tsx:158 | the result panel shows exactly when either image is non-empty |
| BackgroundRemover.SelectAndLoad | src/pages/BackgroundRemover.tsx:27-48 | after an accepted pick has loaded, the selection and original are the new ones and no old result remains; a refused pick changes nothing |
| ImageGenerator.GeneratedResult | src/pages/ImageGenerator.tsx:23 | `imageUrl` if non-empty, else `image` if non-empty, else `''` |
| ImageGenerator.ErrorMessage | src/pages/ImageGenerator.tsx:26-28 | the server's message, or `'Failed to generate image'`, never empty |
| ImageGenerator.ImagePage.constructor | src/pages/ImageGenerator.tsx:15-18 | empty prompt and image, style `realistic`, size `1024x1024` |
| ImageGenerator.ImagePage.GenerateDisabled | src/pages/ImageGenerator.tsx:124 | disabled exactly while pending or while the prompt is all white space |
| ImageGenerator.ImagePage.HandleGenerate | src/pages/ImageGenerator.tsx:31-43 | a blank prompt sends nothing and asks for a prompt; otherwise POST `/image` with the trimmed prompt and the current style and size unchanged, and nothing is shown; the request carries the credential the default map holds |
| ImageGenerator.ImagePage.OnSuccess | src/pages/ImageGenerator.tsx:22-25 | the shown image becomes `GeneratedResult` of the reply |
| ImageGenerator.SentPromptIsTrimmed | src/pages/ImageGenerator.tsx:33-39 | a sent prompt is non-empty, has no white space at either end, and is unchanged by a second trim |
| UsageDisplay.FeatureIcon | src/components/UsageDisplay.tsx:22-30 | unknown features get the article icon |
| UsageDisplay.FeatureLabel | src/components/UsageDisplay.tsx:32-40 | the label differs from the key exactly for the four known keys; any other key is returned unchanged |
| UsageDisplay.KnownFeaturesDistinct | src/components/UsageDisplay.tsx:22-40 | the four known features have four different labels and four different icons |
| UsageDisplay.IsUnlimited | src/components/UsageDisplay.tsx:94 | a limit is unlimited exactly when it is the text `"Unlimited"` or the number infinity |
| UsageDisplay.LimitReached | src/components/UsageDisplay.tsx:115 | the notice condition: a limited entry whose `remaining` is the number 0 |
| UsageDisplay.ItemViewOf | src/components/UsageDisplay.tsx:92-121 | one row: the feature's icon and label; the "Unlimited" tag exactly for unlimited entries, else `used/limit`; a bar exactly for limited entries, at `Percentage(used, limit)`; the notice exactly when `LimitReached` |
| UsageDisplay.ToNumber | src/components/UsageDisplay.tsx:95 | `Number(limit)`: a number is itself; blank text is 0; `"Infinity"` is infinity |
| UsageDisplay.Percentage | src/components/UsageDisplay.tsx:94-95 | 0 for an unlimited entry and never above 100. NaN exactly for a NaN limit or 0/0. At least 0 against a positive limit. Exactly 100 once usage reaches a positive limit. |
| UsageDisplay.PercentageMonotone | src/components/UsageDisplay.tsx:95 | against a positive limit, more usage never gives a smaller bar |
| UsageDisplay.Render | src/components/UsageDisplay.tsx:49-130 | a loading card, an error card, or one row per entry in order. Each row has the feature's icon and label. A row has a progress bar exactly when the entry is limited, at `Percentage(used, limit)`, never above 100. The limit notice shows exactly when the entry is limited and `remaining === 0`. The reset note shows exactly for free accounts. |
| DashboardSidebar.IsActive | src/components/layout/DashboardSidebar.tsx:63-68 | the root link is active exactly on `/dashboard`; any other active link's URL is a prefix of the path |
| DashboardSidebar.NavClass | src/components/layout/DashboardSidebar.tsx:70-74 | one of two class strings, the highlighted one exactly when the link is active |
| DashboardSidebar.TableShape | src/components/layout/DashboardSidebar.tsx:24-55 | six links with distinct titles and URLs; the first is `/dashboard` and the others lie under `/dashboard/` |
| DashboardSidebar.EndFlag | src/components/layout/DashboardSidebar.tsx:101 | a link gets `end` exactly when its URL is `/dashboard` |
| DashboardSidebar.EndFlagOnlyOnRoot | src/components/layout/DashboardSidebar.tsx:101 | only the root link has the `end` flag |
| DashboardSidebar.ActiveShape | src/components/layout/DashboardSidebar.tsx:63-68 | the root link is active only on a path as long as the root; a tool link only where the path's twelfth character matches its URL |
| DashboardSidebar.NoToolUrlIsPrefixOfAnother | src/components/layout/DashboardSidebar.tsx:24-55 | no tool URL is a prefix of another |
| DashboardSidebar.AtMostOneActive | src/components/layout/DashboardSidebar.tsx:24-68 | for every path at most one link is highlighted |
| DashboardSidebar.OwnPageActivates | src/components/layout/DashboardSidebar.tsx:67 | a tool's page, and every path below it, highlights that tool's link |
| History.TypeIcon | src/pages/History.tsx:35-48 | the history icon exactly for unknown types |
| History.TypeColor | src/pages/History.tsx:50-63 | the gray style exactly for unknown types |
| History.TypeLabel | src/pages/History.tsx:78-91 | `'Unknown'` exactly for unknown types |
| History.TypeLookupsAgree | src/pages/History.tsx:35-91 | the three lookups agree on which types are known, and no two known types share a label, icon or colour |
| History.StatusBadge | src/pages/History.tsx:65-76 | completed, processing and failed get their own badges; anything else gets the secondary `Unknown` badge |
| History.DownloadOffered | src/pages/History.tsx:194-199 | Download is offered exactly on cards whose badge reads Completed |
| History.Items | src/pages/History.tsx:137 | missing history data is the empty list |
| History.DescriptionLineAsWritten | src/pages/History.tsx:179-182 | the label, followed by the misread separator and the description when it is non-empty |
| History.DescriptionLine | src/pages/History.tsx:179-182 | the label, followed by ` • ` and the description when it is non-empty |
| History.Utf8ThreeBytes | src/pages/History.tsx:181 | a character from U+0800 to U+FFFF encodes as a lead byte 0xE0–0xEF and two continuation bytes 0x80–0xBF whose payload bits decode back to the character |
| History.SeparatorIsMisreadBullet | src/pages/History.tsx:181 | the written separator is the UTF-8 bytes of `•` read as Windows-1252 |
| History.DescriptionSeparatorDiffers | src/pages/History.tsx:181 | for a described item, the written line has `â` where the bullet belongs |
| History.CardOf | src/pages/History.tsx:162-220 | one card: the type's icon and colour, the title, the status badge, the description line as written, and the Download button exactly on completed entries |
| History.View | src/pages/History.tsx:93-223 | a loader, an error card, the empty placeholder, or one card per entry in order. Each card has the entry's title, type icon, type colour and status badge, and the description line as written. Download appears exactly on completed entries. |
| History.FetchHistory | src/pages/History.tsx:30-33 | the page asks for `limit=50`, with the credential the default map holds |

## Left out

- Text.Lower: `toLowerCase` is modelled for the ASCII letters only. Other letters are kept as they are, so the slug of a title with accented capitals keeps those capitals.
- ArticleGenerator.StripThink: case-insensitive matching folds only ASCII letters. This matches a regular expression without the `u` flag, for the two tags involved.
- UsageDisplay.ToNumber: reads only unsigned decimal digits and `"Infinity"`. Other numeric spellings (a sign, a fraction, an exponent, hexadecimal) come out as NaN.
- UsageDisplay.Percentage: uses exact real arithmetic. Floating-point rounding and the sign of a negative zero are not modelled, and usage counts are whole non-negative numbers.
- ResumeAnalyzer.ReportText, ResumeAnalyzer.ScoreColor, ResumeAnalyzer.ScoreBg, ResumeAnalyzer.Verdict: the score is an integer, while the source's is any JavaScript number. A fractional score such as 79.5 is not modelled.
- Api.Client.GetHistory: the limit is a natural number. The source accepts any value the template literal can print.
- The source keeps no request generation counter, so a reply that arrives late is never told apart from a current one. It has no token-refresh timer and no paginated history either, so the model has none of these. The history and usage queries are retried once by react-query (src/App.tsx:27); the model folds that retry into the `failed` parameter of `History.View` and `UsageDisplay.Render`.
- AuthWrapper.UpdateToken, BackgroundRemover.SelectAndLoad and every page's `OnSuccess`/`OnError`: each asynchronous handler is modelled as one atomic step. Interleaved completions are not modelled. Overlapping `updateToken` runs can settle out of order, so a stale `Bearer` header can outlive a sign-out. A pending removal's reply can land after a new pick has loaded. Two `FileReader` loads can finish out of order.
- The HTTP transport is not modelled: base URL, cookies, react-query caching, retry and staleness. Replies are parameters of the handlers.
- The identity provider's internals are not modelled. A token request is the `TokenResult` it produced.
- The article page's debugging effects only log, so they are not modelled.
- The second `getToken` call in the article page is not modelled apart from the one in `mutationFn`.
- `FileReader`, `Blob`, object URLs, anchor downloads, the clipboard, DOMPurify and toasts are browser services. The model returns the error and validation toasts a handler shows and the text it saves.
- Success toasts are not modelled, because each is a fixed text shown on every success. These are the generation, removal and analysis toasts (ArticleGenerator.tsx:70, BackgroundRemover.tsx:20, ImageGenerator.tsx:24, ResumeAnalyzer.tsx:28), the download toasts, and the copy toast.
- The one-second `setTimeout` before the 401 redirect is not modelled. The redirect is recorded as pending.
- Dates, clocks and formatting are not modelled: `toLocaleDateString`, `toLocaleTimeString`, `formatDistanceToNow` and `Date.now()`. They appear as parameters (`date`, `now`) or not at all.
- MB sizes shown with `toFixed(2)` are not modelled, nor is the `used/limit` counter text.
- The history page's metadata line is not modelled, because `metadata` is untyped.
- The View button has no handler, so it is not modelled.
- JSX layout and styling outside the class strings listed above are not modelled.
- The library's own default headers are not modelled. The client starts from whatever map it is given.
- The other pages are not part of this model, because they have no rules: landing, dashboard overview, sign-up, not-found and the header.
- The route table and build configuration are not part of this model either.

## Findings

| source | as written | input that shows it | evidently intended | confidence | as-written member | corrected member |
|---|---|---|---|---|---|---|
| src/pages/History.tsx:181 | the separator between type label and description is the three characters `â€¢`, the UTF-8 bytes of a bullet read as Windows-1252 | any history item with a non-empty description, e.g. description `"x"` | a bullet `•` between spaces | not executed; the characters are in the file itself, so every browser shows them | History.DescriptionLineAsWritten | History.DescriptionLine |
