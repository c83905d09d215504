# Pictory, modelled in Dafny

Pictory turns a sequence of photos into a short story using a vision-capable
chat model ("gpt-4.1-mini"). It has two front ends:

- `pictory/app.py`, a Streamlit page. It captions every uploaded image in
  upload order. It then asks a *planner* for a story outline, with the tone,
  audience and chosen length. Last, it asks a *writer* for the story,
  passing the outline on verbatim.
- `pictory/main.py`, a command-line script. Its `main` runs on two
  hard-coded paths. It captions each image of that list, reading the file
  and guessing the media type from the extension. Then it asks once for a
  500–800 word story. The script also defines `get_image_paths`, which lists
  the image files of a folder in sorted order. `main` does not call it, but
  it is modelled as well.

The model is split into these modules:

- `Strings`: the Python string operations the code relies on.
- `Base64`: the base64 encoder.
- `Sorting`: `sorted` on names.
- `DataUrls`: the `data:` image URL.
- `Oracle`: the model service, as a `Client` object that logs every request
  with its reply.
- `Captions`: the captioning request and the numbered caption list, shared by
  both front ends.
- `App`: the web pipeline.
- `Cli`: the script.

The reply to a request is arbitrary: `Client.Complete` may return any
string. A pipeline is therefore specified by the exact requests it sends,
given the replies it receives:

- `App.AppTrace` gives these for the web page.
- `Cli.CliTrace` gives these for the script.

Each pipeline method proves that the log it appends matches its trace. The
lemmas then state what the trace contains:

- the order of the calls and their token limits and system messages;
- every caption, the outline and the settings appearing verbatim in the story
  prompts;
- the media type sent for each file;
- data URLs that read back to their parts;
- caption lists that read back to their captions.

## Model

| member | source | states |
|---|---|---|
| Strings.Contains | pictory/app.py:110 | `sub in s`; Strings.ContainsIff ties it to an occurrence at some index |
| Strings.ContainsIff | pictory/app.py:110 | `sub in s` holds exactly when `sub` occurs at some index of `s` |
| Strings.ContainsMiddle | pictory/app.py:110 | a string occurs in any text that has it between two other strings |
| Strings.NotContains | pictory/app.py:110 | a string whose first character is absent from `s` does not occur in `s` |
| Strings.EndsWith | pictory/main.py:12 | `str.endswith`: the last characters are the suffix; Strings.LowerKeepsEnding and Cli.JoinKeepsEnding state which endings survive |
| Strings.Lower | pictory/main.py:27 | `lower()` over ASCII letters; Strings.LowerIdempotent, Strings.LowerConcat and Strings.LowerKeepsEnding state its behaviour |
| Strings.LowerIdempotent | pictory/main.py:12 | lower-casing twice is lower-casing once |
| Strings.LowerConcat | pictory/main.py:27 | lower-casing distributes over concatenation |
| Strings.LowerKeepsEnding | pictory/main.py:12 | a lower-case ending survives lower-casing of the whole name |
| Strings.AfterLastSep | pictory/main.py:27 | the start of the last `.`-segment: no separator after it, a separator right before it |
| Strings.LastSegment | pictory/main.py:27 | `split(".")[-1]`; Strings.LastSegmentSpec states what it is |
| Strings.LastSegmentSpec | pictory/main.py:27 | `split(".")[-1]` has no dot, is a suffix of the text, and is preceded by a dot unless it is the whole text |
| Strings.LastSegmentNoSep | pictory/main.py:27 | a text without a dot is its own last segment |
| Strings.LastSegmentAfter | pictory/main.py:27 | the last segment of `s + "." + t` is `t` when `t` has no dot |
| Strings.Decimal | pictory/main.py:71 | `str(i)` of a natural number: non-empty, digits only, no leading zero |
| Strings.DecimalRoundTrip | pictory/main.py:71 | reading the decimal text back yields the number |
| Strings.DecimalInjective | pictory/main.py:71 | different numbers give different texts |
| Base64.Encode | pictory/main.py:16-19 | `b64encode(...).decode()`: only base64 characters and `=` padding |
| Base64.EncodeLength | pictory/main.py:19 | the text has 4 characters per started 3-byte group |
| Base64.EncodeConcat | pictory/app.py:68-69 | encoding works group by group: whole 3-byte groups encode independently |
| Sorting.LexLeTotal | pictory/main.py:11 | any two names are ordered one way or the other |
| Sorting.LexLeAntisymmetric | pictory/main.py:11 | names ordered both ways are equal |
| Sorting.LexLeTransitive | pictory/main.py:11 | the order on names is transitive |
| Sorting.Insert | pictory/main.py:11 | inserting into a sorted list keeps it sorted and adds exactly one element |
| Sorting.Sort | pictory/main.py:11 | `sorted(...)`: sorted, a permutation of its input |
| Sorting.SortedOrdered | pictory/main.py:11 | in a sorted list every earlier name is at most every later one |
| Sorting.SortedUnique | pictory/main.py:11 | two sorted permutations of the same names are equal, so `Sort` is exactly `sorted` whatever its algorithm |
| DataUrls.DataUrl | pictory/main.py:53 | the text `f"data:{mime_type};base64,{image_b64}"`; DataUrls.DataUrlRoundTrip states that both parts read back |
| DataUrls.ParseDataUrl | pictory/main.py:53 | a parsed URL has a media type without `;` and rebuilds to the same URL |
| DataUrls.DataUrlRoundTrip | pictory/app.py:93 | a `data:` URL reads back as its media type and payload |
| Oracle.LogAppend | pictory/main.py:120-122 | requests and replies of two log parts concatenate |
| Oracle.Client.constructor | pictory/app.py:65 | a new client has an empty log |
| Oracle.Client.Complete | pictory/main.py:43-62 | one call appends exactly one request/reply pair to the log |
| Captions.CaptionRequest | pictory/main.py:37-59 | the captioning request; App.AppTraceOrder and Cli.ImageRequestsFields state its fields over a run, Cli.ImageRequestRoundTrip and App.UploadImageUrlRoundTrip what its image URL carries |
| Captions.CaptionLine | pictory/app.py:108 | the line `f"{i}. {desc}\n"`; Captions.NumberedLine states that, without its newline, it starts with the number and strips back to the description |
| Captions.CaptionList | pictory/main.py:69-71 | the caption list is empty exactly for no descriptions and otherwise ends with a newline |
| Captions.RenderCaptionList | pictory/main.py:69-71 | the `enumerate(..., start=1)` loop builds exactly the caption list |
| Captions.CaptionListPrefix | pictory/app.py:106-108 | the list for the first k descriptions is a prefix of the whole list |
| Captions.CaptionListEntry | pictory/app.py:156-158 | entry k+1 follows the first k entries directly |
| Captions.CaptionListContains | pictory/main.py:71 | every description appears verbatim in the list |
| Captions.JoinLinesAppend | pictory/main.py:71 | appending a line appends it with its newline |
| Captions.SplitJoinLines | pictory/main.py:71 | newline-free lines are recovered by splitting their joined text |
| Captions.SplitLinesCut | pictory/main.py:71 | splitting peels off the text before the first newline |
| Captions.NumberedLine | pictory/main.py:71 | a line `"{i}. {desc}"` starts with the number i and strips back to `desc` |
| Captions.NumberedLineNoNewline | pictory/main.py:71 | a numbered line has a newline only if its description does |
| Captions.CaptionListJoined | pictory/main.py:69-71 | the caption list is the numbered lines, each ended by a newline |
| Captions.CaptionListLines | pictory/main.py:69-71 | newline-free descriptions give exactly one numbered line each, in order |
| Captions.CaptionListNumbering | pictory/main.py:71 | for descriptions without newlines, line j of the list is numbered j+1 |
| Captions.CaptionListRoundTrip | pictory/app.py:156-158 | for descriptions without newlines, parsing the list gives back the descriptions exactly, in order |
| Captions.NumberedLinesNoNewlines | pictory/main.py:71 | descriptions without newlines give numbered lines without newlines |
| Captions.MultilineJoined | pictory/app.py:106-108 | a last description `first + "\n" + second` adds the text of two lines: the numbered `first`, then the bare `second` |
| Captions.MultilineNoNewlines | pictory/app.py:106-108 | those two lines and the numbered lines before them hold no newline |
| Captions.CaptionListMultiline | pictory/app.py:106-108 | a description holding a newline splits into two lines, the second one unnumbered, so the list has one line more than descriptions |
| App.UploadMime | pictory/app.py:75 | `type or "image/jpeg"`: never empty; a declared non-empty type is used as is; otherwise JPEG |
| App.UploadImageUrl | pictory/app.py:93 | the upload's URL; App.UploadImageUrlRoundTrip states what it carries |
| App.UploadImageUrlRoundTrip | pictory/app.py:72-93 | the upload's URL reads back as its base64 bytes and its media type: the declared type when it is non-empty, JPEG otherwise |
| App.DescribeUploadedImage | pictory/app.py:72-102 | one captioning request for the upload; the reply is the description |
| App.PlannerLengthInstruction | pictory/app.py:110-115 | the planner's length wording; App.LengthRule states that "Short" is tested first, then "Long", and anything else is medium |
| App.ComposerLengthInstruction | pictory/app.py:160-165 | the writer's word-count target by the same tests; App.LengthRule states its three branches, and App.LengthInstructionsAgree pairs each target with the planner's wording for the same choice |
| App.LengthRule | pictory/app.py:110-115 | for any choice, in both stages: "Short" anywhere gives short; "Long" without "Short" gives long; neither gives medium |
| App.LengthInstructionsAgree | pictory/app.py:160-165 | planner and writer derive the same length class from the choice: short, long or medium |
| App.ShortTakesPrecedence | pictory/app.py:110-113 | a choice naming both "Short" and "Long" is treated as short in both stages |
| App.ShortOptionResolves | pictory/app.py:224 | the "Short" option yields "short and focused" and "about 300–500 words" |
| App.MediumOptionResolves | pictory/app.py:224 | the "Medium" option falls through to "medium length" and "about 500–800 words" |
| App.LongOptionLacksShort | pictory/app.py:224 | the "Long" option does not contain "Short" |
| App.LongOptionNamesLong | pictory/app.py:224 | the "Long" option contains "Long" |
| App.LongOptionResolves | pictory/app.py:110-115 | the "Long" option yields "detailed and long" and "about 800–1200 words" |
| App.PlannerPrompt | pictory/app.py:117-139 | the planner prompt text; App.PlannerPromptEmbeds states its layout |
| App.PlannerRequest | pictory/app.py:141-148 | the planner request; App.AppTraceOrder states its system message and 600 tokens, App.StoryRequestsCarry that its prompt has every caption |
| App.PlannerPromptEmbeds | pictory/app.py:117-139 | the planner prompt starts with intro plus caption list and has labelled tone, audience and length lines |
| App.PlanStoryOutline | pictory/app.py:105-150 | one planner request (planner system message, 600 tokens); the reply is the outline |
| App.ComposerPrompt | pictory/app.py:167-193 | the writer prompt text; App.ComposerPromptEmbeds states its layout |
| App.ComposerRequest | pictory/app.py:195-202 | the writer request; App.AppTraceOrder states its system message and 1600 tokens, App.StoryRequestsCarry that its prompt has every caption and the outline |
| App.ComposerPromptEmbeds | pictory/app.py:167-193 | the writer prompt starts with intro plus caption list, carries the outline verbatim and labelled tone, audience and target length |
| App.GenerateStory | pictory/app.py:153-204 | a planner request, then a writer request whose outline is the planner's reply |
| App.CaptionStep | pictory/app.py:240-242 | one more captioning exchange extends the captioning trace by that upload's request |
| App.TwoMoreExchanges | pictory/app.py:244 | two appended exchanges extend requests and replies in order |
| App.RunLogTrace | pictory/app.py:238-244 | captioning then story writing gives n+2 exchanges matching the trace, with captions and story in place |
| App.DescribeUploads | pictory/app.py:238-242 | one captioning request per upload, in upload order; the descriptions are the replies |
| App.GenerateFromUploads | pictory/app.py:232-244 | with no uploads nothing is sent; otherwise n captioning requests, planner and writer, matching the trace; the run shows the captions and the writer's reply |
| App.AppTrace | pictory/app.py:238-244 | the requests of a run, given the replies; App.GenerateFromUploads proves the run sends exactly these, and App.AppTraceOrder, App.AppTraceCarriesReplies and App.AppTraceCarriesSettings state their order and contents |
| App.AppTraceOrder | pictory/app.py:238-244 | n captioning requests (200 tokens, no system message), then planner (600 tokens), then writer (1600 tokens) |
| App.AppTraceCarriesReplies | pictory/app.py:154-179 | both story requests carry every caption; the writer request carries the planner's reply |
| App.StoryRequestsCarry | pictory/app.py:156-179 | planner and writer prompts contain every caption, the writer's the outline too |
| App.AppTraceCarriesSettings | pictory/app.py:124-192 | both story requests carry tone, audience and their stage's length wording on labelled lines |
| Cli.IsImageName | pictory/main.py:12 | the extension filter; Cli.IsImageNameIff states which names it keeps |
| Cli.IsImageNameIff | pictory/main.py:12 | a name is kept exactly when its lower-cased form ends with one of the five extensions |
| Cli.IsImageNameIgnoresCase | pictory/main.py:12 | the filter does not depend on letter case |
| Cli.JoinPath | pictory/main.py:13 | `os.path.join`: ends with the name; an absolute name wins; otherwise the folder comes first, with one `/` added when needed; a relative name after a folder ending in `/` (or after no folder) is appended as is |
| Cli.ImageNames | pictory/main.py:11-13 | the kept names are at most the listing |
| Cli.ImageNamesExact | pictory/main.py:12 | a name is kept exactly when it is in the listing and passes the filter |
| Cli.ImageNamesSubsequence | pictory/main.py:11-13 | the filter only deletes: no reordering, no repeats |
| Cli.SubsequenceDropLast | pictory/main.py:11-13 | a subsequence of a prefix is a subsequence of the whole |
| Cli.ImageNamesSorted | pictory/main.py:11-13 | filtering a sorted listing keeps it sorted |
| Cli.JoinAll | pictory/main.py:13 | one joined path per kept name, in order |
| Cli.ImagePaths | pictory/main.py:9-14 | no more paths than listing entries |
| Cli.GetImagePaths | pictory/main.py:9-14 | the loop returns exactly the sorted, filtered, joined paths |
| Cli.ImagePathsStep | pictory/main.py:12-13 | one more listing entry adds its path exactly when it is an image name |
| Cli.ImagePathsSpec | pictory/main.py:9-14 | every path comes from an image name of the listing, every image name yields a path, in ascending order, as a subsequence of the sorted listing |
| Cli.ExtensionMime | pictory/main.py:28-35 | the media type of an extension; Cli.ExtensionMimeCases states its cases |
| Cli.CliMime | pictory/main.py:27-35 | the media type of a path; Cli.CliMimeBySuffix, Cli.CliMimeIgnoresCase and Cli.ImagePathMime state what it depends on |
| Cli.ExtensionMimeCases | pictory/main.py:28-35 | png, webp and avif select their own type; every other extension gives JPEG |
| Cli.LowerNoDot | pictory/main.py:27 | lower-casing adds no dot |
| Cli.CliMimeBySuffix | pictory/main.py:27-35 | the media type depends only on the text after the last dot, in any case |
| Cli.CliMimeNoDot | pictory/main.py:27-35 | a path without a dot is looked up as a whole |
| Cli.CliMimeIgnoresCase | pictory/main.py:27 | case does not change the media type |
| Cli.DoubleExtensionIsWebp | pictory/main.py:105-108 | a name ending ".jpg.webp", like both shipped paths, passes the filter and is sent as WebP |
| Cli.MatchedExtension | pictory/main.py:12 | the extension the filter matched is one of the five and ends the lower-cased name |
| Cli.MatchedExtensionNoDot | pictory/main.py:12 | none of the five extensions holds a dot |
| Cli.JoinKeepsEnding | pictory/main.py:13 | joining a folder in front keeps the lower-cased ending of the name |
| Cli.LastSegmentOfEnding | pictory/main.py:27 | a path ending in "." plus a dot-free extension has that extension as its last segment |
| Cli.ImagePathMime | pictory/main.py:12-35 | every listed image is sent with the type of the extension the filter matched; ".jpg" and ".jpeg" go as JPEG |
| Cli.ImageRequest | pictory/main.py:37-59 | the captioning request for a file; Cli.ImageRequestRoundTrip and Cli.ImageRequestsFields state its URL and fields |
| Cli.ImageRequestRoundTrip | pictory/main.py:27-53 | a file's image URL reads back as the path's media type and the file's base64 text |
| Cli.DescribeImage | pictory/main.py:22-64 | a missing file sends nothing and stops; otherwise one captioning request with the path's type and the file's bytes |
| Cli.StoryPrompt | pictory/main.py:73-88 | the story prompt text; Cli.StoryPromptEmbeds states its layout |
| Cli.StoryRequest | pictory/main.py:90-97 | the story request; Cli.StoryRequestCarries states its system message, token limit and contents |
| Cli.StoryPromptEmbeds | pictory/main.py:73-88 | the story prompt starts with intro plus caption list and always states the 500–800 word target |
| Cli.GenerateStory | pictory/main.py:68-100 | one story request (writer system message, 1200 tokens); the reply is the story |
| Cli.ReadablePrefix | pictory/main.py:120-122 | the leading readable paths end at the first missing one |
| Cli.ImageStep | pictory/main.py:120-122 | one more captioning exchange extends the captioning trace by that path's request |
| Cli.CliRunLogTrace | pictory/main.py:119-126 | captioning every path and asking for the story gives n+1 exchanges matching the trace |
| Cli.RunCli | pictory/main.py:103-126 | an empty list sends nothing; a missing file stops the run at it; otherwise n captioning requests and the story request, matching the trace |
| Cli.RunScript | pictory/main.py:103-112 | the shipped path list is never empty, and the run matches the trace over it |
| Cli.CliTrace | pictory/main.py:119-126 | the requests of a run, given the replies; Cli.RunCli proves the run sends exactly these, and Cli.CliTraceCaptioning, Cli.CliTraceComplete and Cli.CliTraceMissing state their contents |
| Cli.CliTraceCaptioning | pictory/main.py:119-126 | over readable paths, n captioning requests (own file, path's type, 200 tokens) then the story request over the n captions |
| Cli.ImageRequestsFields | pictory/main.py:43-59 | each captioning request is for its own file with its path's media type |
| Cli.StoryRequestCarries | pictory/main.py:73-97 | the story request has the writer system message, 1200 tokens, every caption and the word target |
| Cli.CliTraceComplete | pictory/main.py:119-126 | the last request of a full run carries every one of the n captions |
| Cli.CliTraceMissing | pictory/main.py:17-18 | with an unreadable path, exactly the files of the readable prefix before it are captioned, each with its own request, and no story is requested |

## Left out

- The Streamlit page layout is not modelled: the background image and CSS, titles, selectors, spinner, expander and download button. The run starts from the uploads, the three selector values and a pressed "Generate Story" button.
- The page's texts ask for 2–10 images, but the code runs with any non-empty upload list. `App.GenerateFromUploads` follows the code.
- The uploader's own type restriction (png/jpg/jpeg/webp) is browser-side and is not modelled. Uploads arrive as given.
- Replies are arbitrary strings. Exceptions from the model service, network errors, `None` content and empty choices are not modelled.
- Strings.Lower: lower-cases ASCII letters only; Python's `str.lower` also maps non-ASCII letters.
- Base64 decoding is not part of the model; only the encoder that both front ends call is.
- DataUrls.DataUrlRoundTrip: requires the media type to have no `;`, since a `data:` URL cannot delimit such a type.
- App.UploadImageUrlRoundTrip: requires a declared type without `;`, for the same reason.
- File I/O is a map from readable paths to bytes. A missing path stands for the `FileNotFoundError` that stops the script. Other read errors are not modelled.
- `os.listdir` is given as a list of names. Its errors (missing folder) and hidden ordering are not modelled.
- The listing is sorted under code-point order, which is what `sorted` does on `str`.
- Cli.JoinPath: POSIX `os.path.join` only; Windows drive and separator rules are not modelled.
- `get_image_paths` is modelled, but `main` does not call it. `main` runs on two hard-coded paths (`Cli.RunScript`).
- Printing to the console, the `__main__` guards and writing `story.txt` are not modelled.
- The outline and the log part a run adds are ghost values of the pipeline methods. The code keeps the outline in a local variable and does not show it.
- Captions.CaptionListRoundTrip: requires descriptions without newlines. A reply holding a newline breaks the line structure of the list (Captions.CaptionListMultiline), so the list cannot be read back line by line.
- Captions.CaptionListNumbering: requires descriptions without newlines, for the same reason.
- Cli.DoubleExtensionIsWebp: proved for any stem ending in ".jpg.webp" rather than for the two literal shipped paths.
