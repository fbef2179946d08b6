# UFG tutor: a verified model of the chat, attachment and calendar logic

This project models the behaviour of the core of the UFG academic tutor, a
Next.js application in which students of the Universidad Francisco Gavidia
chat with an AI tutor. It covers:

- **Attachment text extraction** (`src/lib/fileExtractor.ts`, module
  `FileExtractor`). A file is routed to OCR, the Word reader, the PDF reader
  or UTF-8 decoding, by its lower-cased type and name. Each path yields
  trimmed text or a fixed error message; unsupported files yield no text.
- **The tutor request** (`src/lib/ai.ts`, module `Ai`).
  - `chatWithAI` checks the token.
  - It builds the system preamble from the persona, the learner's profile
    and the image notice.
  - It puts the preamble in front of the conversation unless the
    conversation already opens with a system message.
  - It appends each attachment's text, truncated at 2000 characters, or a
    notice, to its message.
  - It asks the four models in order until one gives a non-empty answer;
    otherwise it returns the apology.
- **The chat page** (`src/app/chat/page.tsx`, class `Chat.ChatPage`).
  - A batch of files is admitted as attachments: at most three per message,
    5 MiB per file, with best-effort extraction.
  - An attachment can be removed.
  - Sending a turn is split at its await. `BeginSend` checks the guard,
    appends the user message and clears the input. `FinishSend` appends the
    assistant message. `HandleSend` joins the two around `chatWithAI`.
- **The calendar image listing** (`src/app/api/images/route.ts`, module
  `ImagesRoute`). Names with an image extension are kept, stably sorted by
  the number their digits spell, and prefixed with `/calendario/`. An
  absent directory gives an empty list; a failure gives status 500.
- **The calendar viewer** (`src/components/CalendarCarousel.tsx`, class
  `Carousel.CalendarCarousel`). Covers loading the list, wrap-around
  paging, dot selection with its direction, and the download file name.
- **The slide deck** (`src/app/presentacion/page.tsx`, class
  `Presentation.PresentationPage`). Next, previous and the arrow keys move
  through ten slides and never leave them.

Module `Text` defines the JavaScript string operations the core relies on,
with their ECMAScript meaning: `trim`, `toLowerCase`, `startsWith`,
`endsWith`, `includes`, `join`, number printing and `parseInt` of a digit
string.
Module `Results` holds `Option` and `Result`.

What the program gets from outside becomes parameters:

- The OCR engine, the Word and PDF readers and the UTF-8 decoder are the
  function fields of `FileExtractor.Engines`.
- The remote inference service is a `Ai.Provider` function from model name
  and messages to an outcome.
- The base64 conversion of a file is a `toBase64` function.
- The environment token is an `Option<string>`.
- The directory listing is a `ImagesRoute.Directory` value.
- The attachment ids, which the page takes from the clock and a random
  number, are given as a sequence.

React state updates are modelled as assignments that take effect at once,
in program order.

Proved properties include:

- the extraction route is taken exactly when `canExtractText` holds, and
  every extracted text is trimmed;
- the context sent to the models contains every message of the
  conversation, in order and with its role;
- the fallback returns the first usable answer, after asking exactly the
  models up to and including it, and the reply is never empty;
- a batch never takes the selection above three files, and a refused file
  does not stop the others;
- the listing is ordered by number, is a stable sort, and lists exactly the
  image files;
- a carousel page step wraps modulo the number of images, and a full round
  comes back to the start;
- no sequence of key presses leaves the slide deck.

## Model

| member | source | states |
|---|---|---|
| `Text.Trim` | src/lib/fileExtractor.ts:16 | the result is trimmed (no whitespace at either end) and is the slice of the input left after removing a whitespace run at each end |
| `Text.TrimIdempotent` | src/lib/fileExtractor.ts:16 | trimming a trimmed string changes nothing |
| `Text.TrimEmptyIffAllWhitespace` | src/app/chat/page.tsx:141 | `!input.trim()` holds exactly when the input is all whitespace |
| `Text.ToLowerIdempotent` | src/lib/fileExtractor.ts:100-101 | lower-casing is idempotent, so routing on lower-cased type and name ignores case |
| `Text.NatToString` | src/components/CalendarCarousel.tsx:68 | a printed number is a non-empty string of decimal digits with no leading zero (it starts with `0` only for the number 0) |
| `Text.ParseNatToString` | src/app/api/images/route.ts:19-20 | parsing the digits of a printed number gives the number back |
| `Text.KeepDigits` | src/app/api/images/route.ts:19-20 | `replace(/\D/g, '')` leaves only decimal digits and never lengthens the name |
| `Text.KeepDigitsCounts` | src/app/api/images/route.ts:19-20 | every digit of the name is kept as often as it occurs, and no other character is |
| `Text.KeepDigitsAppend` | src/app/api/images/route.ts:19-20 | the digits of `a + b` are those of `a` followed by those of `b`, so the digits keep their order |
| `Text.KeepDigitsChar` | src/app/api/images/route.ts:19 | a single character is kept exactly when it is a decimal digit |
| `Text.StartsWith` | src/lib/fileExtractor.ts:105 | `startsWith`: the string opens with the prefix |
| `Text.EndsWith` | src/lib/fileExtractor.ts:116 | `endsWith`: the string closes with the suffix |
| `Text.Includes` | src/lib/fileExtractor.ts:116 | `includes`: the part occurs somewhere in the string |
| `Text.TrimStart` | src/lib/fileExtractor.ts:16 | the first half of `trim`: the result is a suffix of the input, what it drops is whitespace, and it does not start with whitespace |
| `Text.TrimEnd` | src/lib/fileExtractor.ts:16 | the second half of `trim`: the result is a prefix of the input, what it drops is whitespace, and it does not end with whitespace |
| `Text.LowerChar` | src/lib/fileExtractor.ts:100-101 | `toLowerCase` on one character: the upper-case letters of Basic Latin and Latin-1 map to their lower-case forms, everything else is unchanged |
| `Text.ToLower` | src/lib/fileExtractor.ts:100-101 | `toLowerCase`: the length is kept and each character is `LowerChar` of the input's character at that position |
| `Text.Join` | src/lib/fileExtractor.ts:57-59 | `join`: the parts with the separator between neighbours, `''` for no parts |
| `Text.ParseDecimal` | src/app/api/images/route.ts:19-20 | `parseInt` of a string of decimal digits: its value in base ten, 0 for the empty string |
| `FileExtractor.CanExtractText` | src/lib/fileExtractor.ts:141-154 | `canExtractText`: on the lower-cased type and name, an `image/` or `text/` type, a type containing `wordprocessingml`, the type `application/pdf`, or a name ending in `.docx`, `.pdf` or `.txt` |
| `FileExtractor.Route` | src/lib/fileExtractor.ts:99-131 | some strategy applies exactly when `canExtractText` holds; an image type always goes to OCR; each strategy is chosen only when its own test holds (OCR an `image/` type, Word a `wordprocessingml` type or `.docx` name, PDF the `application/pdf` type or a `.pdf` name, text a `text/` type or `.txt` name) and every earlier test fails (PDF and text are never chosen when the Word test holds, text never when the PDF test holds) |
| `FileExtractor.RouteIgnoresCase` | src/lib/fileExtractor.ts:141-153 | routing and `canExtractText` give the same answer on lower-cased type and name |
| `FileExtractor.ImageTypeWinsOverPdfName` | src/lib/fileExtractor.ts:105 | an `image/png` named `a.pdf` goes to OCR |
| `FileExtractor.ExtractTextFromImage` | src/lib/fileExtractor.ts:7-21 | succeeds exactly when OCR succeeds, with the recognised text trimmed; otherwise fails with the OCR message |
| `FileExtractor.ExtractTextFromDocx` | src/lib/fileExtractor.ts:26-36 | succeeds exactly when the Word reader does, with its raw text trimmed; otherwise fails with the Word message |
| `FileExtractor.ExtractTextFromTxt` | src/lib/fileExtractor.ts:74-82 | the decoded text trimmed; the result is its own trim |
| `FileExtractor.PagesText` | src/lib/fileExtractor.ts:52-61 | `fullText` after the page loop: each page's items joined by a space and followed by a newline, pages in order |
| `FileExtractor.PagesTextAppend` | src/lib/fileExtractor.ts:54-61 | the accumulated page text of `a + b` is that of `a` then that of `b`, so pages appear in page order |
| `FileExtractor.PagesTextSingle` | src/lib/fileExtractor.ts:57-60 | one page contributes its items joined by single spaces, then a newline |
| `FileExtractor.PdfOutcome` | src/lib/fileExtractor.ts:41-69 | succeeds exactly when the PDF reader does, with trimmed text; otherwise fails with the PDF message |
| `FileExtractor.ExtractTextFromPdf` | src/lib/fileExtractor.ts:41-69 | the page loop yields the trim of all pages' text in page order, each page's items joined by spaces and ended by a newline |
| `FileExtractor.NoPayload` | src/lib/fileExtractor.ts:106 | `!base64Data`: the payload is absent or empty |
| `FileExtractor.ExtractTextFromFile` | src/lib/fileExtractor.ts:99-136 | unsupported files give `''`; an image without payload fails with the payload message; every other route gives exactly its strategy's outcome; any text is trimmed; errors are one of the four fixed messages |
| `Ai.HasImages` | src/lib/ai.ts:51-53 | true exactly when some message has an attachment whose type starts with `image/` |
| `Ai.ProfileClause` | src/lib/ai.ts:59-61 | the clause naming the learner and their career, added when a profile is given |
| `Ai.SystemPreamble` | src/lib/ai.ts:56-65 | opens with the persona; with a profile, persona then profile clause; ends with the image notice exactly when there are images; its length is exactly the persona plus the profile clause when given plus the image notice when there are images, so nothing else is added |
| `Ai.PreamblePrefix` | src/lib/ai.ts:56-61 | the persona, and with a profile the persona and profile clause, head the preamble |
| `Ai.PreambleEnding` | src/lib/ai.ts:63-65 | the preamble ends with the image notice if and only if images were found |
| `Ai.ComposeSystemContent` | src/lib/ai.ts:56-65 | building the preamble clause by clause yields `SystemPreamble` |
| `Ai.WithSystem` | src/lib/ai.ts:67-74 | the result opens with a system message and ends with the whole conversation; it is the conversation itself when that opens with a system message, otherwise the preamble message followed by it |
| `Ai.Truncate` | src/lib/ai.ts:85-87 | text within 2000 characters is unchanged; longer text keeps exactly its first 2000 characters followed by the marker |
| `Ai.TruncationBoundary` | src/lib/ai.ts:85 | 2000 characters pass unchanged and 2001 are cut |
| `Ai.AttachmentBlocksAppend` | src/lib/ai.ts:82-95 | the blocks of `a + b` are those of `a` followed by those of `b`, so blocks follow attachment order |
| `Ai.AttachmentBlock` | src/lib/ai.ts:83-94 | the text one attachment adds to its message: its name and truncated text, or the notice by type |
| `Ai.AttachmentBlockShape` | src/lib/ai.ts:83-94 | an attachment with text gives its name and its text, verbatim up to 2000 characters and otherwise its first 2000 characters followed by the truncation marker; one without gives the `imagen` or `archivo` notice by type |
| `Ai.ProviderContent` | src/lib/ai.ts:78-96 | the content a message carries to the provider: its own content, followed by its attachment blocks when it has attachments |
| `Ai.ToProviderMessage` | src/lib/ai.ts:77-102 | role kept; content kept as a prefix, followed by the blocks of every attachment |
| `Ai.AugmentContent` | src/lib/ai.ts:78-95 | the `forEach` loop yields the content followed by every attachment block in order |
| `Ai.PrepareMessages` | src/lib/ai.ts:77-102 | one provider message per message, in order, each the provider form of its source |
| `Ai.ToProviderMessages` | src/lib/ai.ts:77 | the map is one to one and in order |
| `Ai.BuildContext` | src/lib/ai.ts:55-102 | the context is a system message (the preamble when injected) followed by every message of the conversation in order, with role kept and content at the head |
| `Ai.ContextFacts` | src/lib/ai.ts:72-102 | mapping the conversation with the injected preamble gives a context that carries the conversation |
| `Ai.ContextIsMapped` | src/lib/ai.ts:55-102 | the context is the provider mapping of the conversation with the preamble injected by `WithSystem` |
| `Ai.PlainQuestionContext` | src/lib/ai.ts:56-102 | one plain question without a profile is sent as the persona followed by the question |
| `Ai.ImageOnlyContext` | src/lib/ai.ts:51-65 | a single image attachment makes the preamble the persona followed by the image notice |
| `Ai.Usable` | src/lib/ai.ts:116-118 | `if (response)`: the model answered with a completion whose content is not empty |
| `Ai.FirstUsable` | src/lib/ai.ts:105-129 | the position of the first model whose answer is a non-empty completion, with every earlier one unusable, or none when all are unusable |
| `Ai.FallbackReply` | src/lib/ai.ts:105-133 | the fallback's reply is never empty |
| `Ai.ModelsTried` | src/lib/ai.ts:105-129 | the models asked form a prefix of the list |
| `Ai.ThirdCandidateAnswers` | src/lib/ai.ts:105-129 | when two models fail and the third answers `42`, the reply is `42` after three requests |
| `Ai.TryModels` | src/lib/ai.ts:105-133 | the loop returns the first usable answer after asking exactly the models up to it, or the apology after asking all |
| `Ai.FallbackOutcome` | src/lib/ai.ts:105-133 | every model asked before the last was unusable; the last model asked gives the reply if usable, otherwise all models were asked and the apology is returned |
| `Ai.TokenConfigured` | src/lib/ai.ts:45 | `!HF_TOKEN` is false: a token is present and not empty |
| `Ai.ChatReply` | src/lib/ai.ts:41-134 | the reply is never empty; without a token it is the token message |
| `Ai.ChatModelsTried` | src/lib/ai.ts:45-48 | without a token no model is asked; at most the four are |
| `Ai.PrepareRequest` | src/lib/ai.ts:50-102 | detecting images, composing the preamble, injecting it and mapping every message yields exactly `BuildContext` |
| `Ai.ChatWithAI` | src/lib/ai.ts:41-134 | the token guard, context building and fallback give `ChatReply` after asking `ChatModelsTried` |
| `Chat.AdmitOne` | src/app/chat/page.tsx:76-111 | refused as too large exactly when over 5 MiB; admitted exactly when within size and the payload converts; the fields are copied from the file; extracted text is set exactly when extraction applies, succeeds and is non-empty |
| `Chat.SizeLimitIsInclusive` | src/app/chat/page.tsx:77-80 | a file of exactly 5 MiB is accepted and one byte more is refused |
| `Chat.Admissions` | src/app/chat/page.tsx:76 | one admission per file, the i-th with the i-th id |
| `Chat.Collect` | src/app/chat/page.tsx:74-112 | the attachments and warnings together are as many as the admissions; which file gives which follows from `Chat.CollectAppend` |
| `Chat.CollectAppend` | src/app/chat/page.tsx:76-112 | collecting `a + b` yields the attachments and warnings of `a` followed by those of `b` |
| `Chat.AdmitAll` | src/app/chat/page.tsx:74-112 | the attachments and warnings together are as many as the files; the result for each file is stated by `Chat.AdmitAllAppend` and `Chat.AdmitAllSingle` |
| `Chat.AdmitAllAppend` | src/app/chat/page.tsx:76-112 | a refused file does not stop the rest: the batch `f1 + f2` yields the results of `f1` then those of `f2` |
| `Chat.AdmitAllSingle` | src/app/chat/page.tsx:76-112 | a one-file batch yields that file's admission |
| `Chat.WithoutId` | src/app/chat/page.tsx:135-137 | keeps exactly the attachments with another id, never adding any |
| `Chat.WithoutIdAppend` | src/app/chat/page.tsx:136 | removal keeps the order of the rest |
| `Chat.WithoutAbsentId` | src/app/chat/page.tsx:136 | removing an id no attachment has changes nothing |
| `Chat.CanSend` | src/app/chat/page.tsx:141 | the early return does not happen: nothing is loading, and the trimmed input is non-empty or a file is selected |
| `Chat.UserMessage` | src/app/chat/page.tsx:143-147 | a user message whose content is the input, or the placeholder when the input is empty; attachments present exactly when files are selected |
| `Chat.WhitespaceInputKept` | src/app/chat/page.tsx:141-144 | a whitespace-only input with files is sent as typed, not replaced by the placeholder |
| `Chat.WhitespaceInputAloneIgnored` | src/app/chat/page.tsx:141 | a whitespace-only input without files sends nothing |
| `Chat.AssistantContent` | src/app/chat/page.tsx:162-179 | a non-empty reply is shown as it is, an empty one as the fallback text, a thrown error as the connection message |
| `Chat.TutorReplyShownVerbatim` | src/app/chat/page.tsx:159-164 | since `chatWithAI` never resolves to `''`, the tutor's reply is shown as it is |
| `Chat.ChatPage.constructor` | src/app/chat/page.tsx:24-28 | empty conversation, input and selection, not loading |
| `Chat.ChatPage.SetInput` | src/app/chat/page.tsx:319 | the input becomes the typed text |
| `Chat.ChatPage.ProcessFiles` | src/app/chat/page.tsx:65-115 | a batch going over three pending files is refused whole with one warning; otherwise the batch's attachments are appended in order with its warnings; never more than three pending |
| `Chat.ChatPage.RemoveFile` | src/app/chat/page.tsx:135-137 | the selection loses exactly the attachments with that id |
| `Chat.ChatPage.BeginSend` | src/app/chat/page.tsx:139-151 | when the guard returns early nothing changes; otherwise the user message is appended, input and selection are cleared, loading is set and the conversation to send is returned |
| `Chat.ChatPage.StartTurn` | src/app/chat/page.tsx:143-151 | the user message built from the input and selection is appended, then input and selection are cleared and loading is set |
| `Chat.ChatPage.FinishSend` | src/app/chat/page.tsx:162-182 | the assistant message is appended and loading cleared |
| `Chat.ChatPage.HandleSend` | src/app/chat/page.tsx:139-183 | a full turn: nothing changes when guarded; otherwise the conversation gains the user message and the tutor's reply to the conversation including it, and input, selection and loading are cleared |
| `ImagesRoute.IsCalendarImage` | src/app/api/images/route.ts:16 | the extension test of the filter: the lower-cased name ends with `.jpg`, `.jpeg`, `.png` or `.webp` |
| `ImagesRoute.FilterImages` | src/app/api/images/route.ts:16 | keeps every occurrence of each image name and drops every other name |
| `ImagesRoute.FilterImagesAppend` | src/app/api/images/route.ts:16 | the images of `a + b` are those of `a` followed by those of `b`, so filtering keeps listing order |
| `ImagesRoute.FilterWithKey` | src/app/api/images/route.ts:16-22 | taking the names with one key and filtering the images commute |
| `ImagesRoute.UpperCaseExtensionAccepted` | src/app/api/images/route.ts:16 | `3.JPG` passes the case-insensitive test and `notas.txt` does not |
| `ImagesRoute.SortKey` | src/app/api/images/route.ts:19-20 | the comparator's key: the number the name's digits spell, 0 when there are none |
| `ImagesRoute.Insert` | src/app/api/images/route.ts:17-22 | insertion adds exactly the one name |
| `ImagesRoute.InsertKeepsOrder` | src/app/api/images/route.ts:17-22 | inserting into an ordered list keeps it ordered |
| `ImagesRoute.SortBy` | src/app/api/images/route.ts:17-22 | the result is in ascending key order and a permutation of the input |
| `ImagesRoute.InsertWithKey` | src/app/api/images/route.ts:17-22 | the inserted name comes before every name of the list with its key, and those keep their order |
| `ImagesRoute.SortIsStable` | src/app/api/images/route.ts:17-22 | for every key, the names with that key keep their listing order |
| `ImagesRoute.WithKeyAppend` | src/app/api/images/route.ts:17-22 | selecting by key distributes over concatenation |
| `ImagesRoute.NoDigitsKeyZero` | src/app/api/images/route.ts:19-20 | a name without any digit gets key 0, the fallback of the key expression |
| `ImagesRoute.KeepDigitsOfName` | src/app/api/images/route.ts:19-20 | a numbered name with a digit-free extension keeps exactly its number's digits |
| `ImagesRoute.OneJpgKey` | src/app/api/images/route.ts:18-20 | `1.jpg` has key 1 |
| `ImagesRoute.TenJpgKey` | src/app/api/images/route.ts:18-20 | `10.jpg` has key 10 |
| `ImagesRoute.NumericNotLexicographic` | src/app/api/images/route.ts:18 | `1.jpg` is listed before `10.jpg` |
| `ImagesRoute.PublicUrls` | src/app/api/images/route.ts:23 | each URL is `/calendario/` followed by exactly its file name |
| `ImagesRoute.GetImages` | src/app/api/images/route.ts:5-30 | absent directory gives an empty list; a failure gives the error with status 500; otherwise the URLs name the sorted image files one for one |
| `ImagesRoute.ListingIsComplete` | src/app/api/images/route.ts:13-23 | a URL is listed if and only if it names an image file of the directory |
| `ImagesRoute.ListingOrder` | src/app/api/images/route.ts:15-22 | the listing is in ascending number order, and the names with any one number are exactly the directory's image files with that number, in directory order |
| `Carousel.PaginateTarget` | src/components/CalendarCarousel.tsx:52-57 | always a valid index when there are images; an in-range step is taken; below zero goes to the last, at or past the end to the first |
| `Carousel.PaginateIsModular` | src/components/CalendarCarousel.tsx:50-58 | a single step either way is arithmetic modulo the number of images |
| `Carousel.PaginateInverse` | src/components/CalendarCarousel.tsx:50-58 | a step back undoes a step forward and vice versa |
| `Carousel.ForwardWithinRound` | src/components/CalendarCarousel.tsx:50-58 | within one round, `n` forward steps move `n` images on, wrapping once |
| `Carousel.FullRoundReturns` | src/components/CalendarCarousel.tsx:50-58 | as many forward steps as images return to the start |
| `Carousel.ForwardCompose` | src/components/CalendarCarousel.tsx:50-58 | `a + b` forward steps are `a` steps then `b` steps |
| `Carousel.ForwardPeriodic` | src/components/CalendarCarousel.tsx:50-58 | the position after forward steps repeats with the number of images as period |
| `Carousel.DotDirection` | src/components/CalendarCarousel.tsx:206-207 | the direction is 1 exactly when the dot lies after the shown image, otherwise -1 |
| `Carousel.DownloadName` | src/components/CalendarCarousel.tsx:60-68 | a name exactly when an image with a non-empty URL is shown; it is `calendario-ufg-`, the 1-based position in decimal, with no leading zero, then `.jpg` |
| `Carousel.CalendarCarousel.constructor` | src/components/CalendarCarousel.tsx:15-18 | no images, index 0, direction 0, loading |
| `Carousel.CalendarCarousel.LoadImages` | src/components/CalendarCarousel.tsx:21-37 | the fetched list replaces the images when the body has one, otherwise they stay; loading ends either way |
| `Carousel.CalendarCarousel.Paginate` | src/components/CalendarCarousel.tsx:50-58 | the direction is recorded and the index moves to `PaginateTarget`; the index stays in range while there are images |
| `Carousel.CalendarCarousel.SelectDot` | src/components/CalendarCarousel.tsx:205-209 | the index becomes the dot's and the direction follows `DotDirection` |
| `Carousel.CalendarCarousel.DownloadImage` | src/components/CalendarCarousel.tsx:60-76 | a download is attempted exactly when an image with a URL is shown; a file is saved exactly when it is attempted and the fetch succeeds, and it is named by `DownloadName` |
| `Presentation.NextIndex` | src/app/presentacion/page.tsx:40-44 | moves one slide on except on the last slide, and stays in the deck |
| `Presentation.PrevIndex` | src/app/presentacion/page.tsx:46-50 | moves one slide back except on the first slide, and stays in the deck |
| `Presentation.NextPrevInverse` | src/app/presentacion/page.tsx:40-50 | back undoes next except on the last slide; next undoes back except on the first |
| `Presentation.KeyStep` | src/app/presentacion/page.tsx:147-154 | the right arrow moves next, the left arrow back, any other key does nothing |
| `Presentation.KeysStayInDeck` | src/app/presentacion/page.tsx:146-157 | no sequence of key presses leaves the ten slides |
| `Presentation.RightArrowSaturates` | src/app/presentacion/page.tsx:148-150 | `n` presses of the right arrow move `n` slides on, stopping at the last |
| `Presentation.PresentationPage.constructor` | src/app/presentacion/page.tsx:13 | the deck opens on the first slide |
| `Presentation.PresentationPage.NextSlide` | src/app/presentacion/page.tsx:40-44 | the slide becomes `NextIndex` of the old one and stays in the deck |
| `Presentation.PresentationPage.PrevSlide` | src/app/presentacion/page.tsx:46-50 | the slide becomes `PrevIndex` of the old one and stays in the deck |
| `Presentation.PresentationPage.HandleKeyDown` | src/app/presentacion/page.tsx:147-154 | the slide becomes `KeyStep` of the key and the old slide, and stays in the deck |

## Left out

- I/O: the OCR engine, the Word and PDF readers and the UTF-8 decoder are supplied as function values. Their internals are not modelled.
- I/O: the inference client and its network calls are supplied as a `Provider`. So are the file-system calls of the listing and the `fetch` calls of the viewer.
- Logging, `alert` dialogs and the browser download mechanics (object URL, anchor element, click) are not modelled. Alerts are the returned warnings. For the download, only the saved file's name is modelled.
- The `fileToArrayBuffer` read fails only when the browser cannot read the file. That failure is not modelled.
- The base64 conversion is modelled, as the `toBase64` parameter that may fail.
- The `.txt` error message is not modelled. The decoder the source uses replaces malformed input and does not throw, so that message cannot appear.
- The ids are built from `Date.now()` and `Math.random()` there. Here they are inputs.
- Session loading and redirects are not modelled. The chat page is built with the profile it would restore.
- Drag-and-drop, scrolling, the `isTyping` animation flag and its timer are not modelled.
- Framer Motion animations, fullscreen, PDF export and prefetching are not modelled.
- Concurrency is not modelled. Two turns or batches in flight at once, and the stale closures they would see (`selectedFiles` in `processFiles`, `currentSlide` in `nextSlide`), are outside the model. Each handler runs to completion on the current state.
- `HandleSend` calls `FinishSend` only with a reply. `chatWithAI` converts every provider error into the apology, so the page's connection-error branch is unreachable in the model. `FinishSend` still covers that branch.
- Strings are sequences of code points. JavaScript's UTF-16 length is not modelled, so the 2000-character cut is counted in code points.
- `Text.LowerChar`: lower-casing covers the Latin letters of Basic Latin and Latin-1 only. Other scripts' case mappings are not modelled; they do not affect the extension and type tests, which compare with ASCII text.
- `ImagesRoute.SortKey`: the digits are read as an unbounded integer. The floating-point rounding of `parseInt` on more than fifteen digits is not modelled.
- The comparator returns `numA - numB`. The model sorts on the key itself, because the sort uses only the sign of the comparator.
- The whitespace-only reply case follows the code. A reply of only spaces is non-empty, so `if (response)` accepts it and the model returns it as the answer.
- Components, pages and libraries outside the six files above are not modelled (dashboard, login, progress, resources, UI components).
- Carousel.CalendarCarousel.LoadImages: requires the index to still be 0. The effect runs once, on mount, before any control can move the index. Reloading after navigation is not modelled.
- Carousel.CalendarCarousel.DownloadImage: whether fetching the image and reading its body succeed is the `fetched` parameter. The bytes saved are not modelled, only whether a file is saved and its name.
- Carousel.CalendarCarousel.SelectDot: requires a valid index, because a dot is rendered only for each loaded image.
