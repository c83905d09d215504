/** The web front end's pipeline (pictory/app.py): caption every uploaded
    image in order, ask a planner for an outline, then ask a writer for the
    story, passing the outline on verbatim. */
module App {
  import opened Optional
  import opened Strings
  import opened Base64
  import opened DataUrls
  import opened Oracle
  import opened Captions

  /** An uploaded file: its name, the media type the browser declared (which
      may be missing or empty) and its bytes. */
  datatype Upload = Upload(name: string, declaredType: Option<string>, bytes: seq<Byte>)

  /** `uploaded_file.type or "image/jpeg"`: the declared type unless it is
      missing or empty. */
  function UploadMime(declared: Option<string>): (mime: string)
    ensures mime != ""
    ensures mime == "image/jpeg" || declared == Some(mime)
    ensures declared.Some? && declared.value != "" ==> mime == declared.value
  {
    if declared.Some? && declared.value != "" then declared.value else "image/jpeg"
  }

  /** The image URL sent for an upload. */
  function UploadImageUrl(upload: Upload): string {
    DataUrl(UploadMime(upload.declaredType), Encode(upload.bytes))
  }

  /** The URL carries the media type and the base64 payload, and both can be
      read back from it, provided a declared type has no `;`. */
  lemma UploadImageUrlRoundTrip(upload: Upload)
    requires upload.declaredType.Some? ==> ';' !in upload.declaredType.value
    ensures ParseDataUrl(UploadImageUrl(upload))
         == Some(Parsed(UploadMime(upload.declaredType), Encode(upload.bytes)))
    ensures upload.declaredType == None ==> ParseDataUrl(UploadImageUrl(upload)).value.mime == "image/jpeg"
    ensures upload.declaredType.Some? && upload.declaredType.value != ""
            ==> ParseDataUrl(UploadImageUrl(upload)).value.mime == upload.declaredType.value
  {
    var mime := UploadMime(upload.declaredType);
    assert ';' !in "image/jpeg";
    DataUrlRoundTrip(mime, Encode(upload.bytes));
  }

  /** `describe_uploaded_image`: one captioning request for the upload; the
      reply is the description. */
  method DescribeUploadedImage(client: Client, upload: Upload) returns (description: string)
    modifies client
    ensures client.log == old(client.log) + [Exchange(CaptionRequest(UploadImageUrl(upload)), description)]
  {
    var imageB64 := Encode(upload.bytes);
    var mimeType := UploadMime(upload.declaredType);
    description := client.Complete(CaptionRequest(DataUrl(mimeType, imageB64)));
  }

  // ---------- Length choice ----------

  /** The three options the length selector offers. */
  const LengthOptions: seq<string> := ["Short (300–500 words)", "Medium (500–800 words)", "Long (800–1200 words)"]

  /** The planner's wording of the length: "Short" is checked before "Long",
      anything else is medium. */
  function PlannerLengthInstruction(lengthChoice: string): string {
    if Contains(lengthChoice, "Short") then "short and focused"
    else if Contains(lengthChoice, "Long") then "detailed and long"
    else "medium length"
  }

  /** The writer's word-count target, by the same tests in the same order. */
  function ComposerLengthInstruction(lengthChoice: string): string {
    if Contains(lengthChoice, "Short") then "about 300–500 words"
    else if Contains(lengthChoice, "Long") then "about 800–1200 words"
    else "about 500–800 words"
  }

  /** Both tests, for any choice: "Short" anywhere makes it short, "Long"
      without "Short" makes it long, and a choice naming neither is medium. */
  lemma LengthRule(lengthChoice: string)
    ensures Contains(lengthChoice, "Short")
            ==> PlannerLengthInstruction(lengthChoice) == "short and focused"
                && ComposerLengthInstruction(lengthChoice) == "about 300–500 words"
    ensures !Contains(lengthChoice, "Short") && Contains(lengthChoice, "Long")
            ==> PlannerLengthInstruction(lengthChoice) == "detailed and long"
                && ComposerLengthInstruction(lengthChoice) == "about 800–1200 words"
    ensures !Contains(lengthChoice, "Short") && !Contains(lengthChoice, "Long")
            ==> PlannerLengthInstruction(lengthChoice) == "medium length"
                && ComposerLengthInstruction(lengthChoice) == "about 500–800 words"
  {
  }

  /** The two stages always resolve a choice to the same bucket: each
      planner wording goes with exactly one word-count target. */
  lemma LengthInstructionsAgree(lengthChoice: string)
    ensures PlannerLengthInstruction(lengthChoice) == "short and focused"
        <==> ComposerLengthInstruction(lengthChoice) == "about 300–500 words"
    ensures PlannerLengthInstruction(lengthChoice) == "medium length"
        <==> ComposerLengthInstruction(lengthChoice) == "about 500–800 words"
    ensures PlannerLengthInstruction(lengthChoice) == "detailed and long"
        <==> ComposerLengthInstruction(lengthChoice) == "about 800–1200 words"
  {
  }

  /** A choice naming both "Short" and "Long" counts as short. */
  lemma ShortTakesPrecedence(lengthChoice: string)
    requires Contains(lengthChoice, "Short") && Contains(lengthChoice, "Long")
    ensures PlannerLengthInstruction(lengthChoice) == "short and focused"
    ensures ComposerLengthInstruction(lengthChoice) == "about 300–500 words"
  {
  }

  /** The short option resolves to the short wording in both stages. */
  lemma ShortOptionResolves()
    ensures PlannerLengthInstruction(LengthOptions[0]) == "short and focused"
    ensures ComposerLengthInstruction(LengthOptions[0]) == "about 300–500 words"
  {
    var option := LengthOptions[0];
    ContainsMiddle("", "Short", " (300–500 words)");
    assert "" + "Short" + " (300–500 words)" == option;
  }

  /** The medium option names neither "Short" nor "Long", so it falls
      through to the medium wording in both stages. */
  lemma MediumOptionResolves()
    ensures PlannerLengthInstruction(LengthOptions[1]) == "medium length"
    ensures ComposerLengthInstruction(LengthOptions[1]) == "about 500–800 words"
  {
    var option := LengthOptions[1];
    assert 'S' !in option && 'L' !in option;
    NotContains(option, "Short");
    NotContains(option, "Long");
  }

  lemma LongOptionLacksShort()
    ensures !Contains(LengthOptions[2], "Short")
  {
    var option := LengthOptions[2];
    assert 'S' !in option;
    NotContains(option, "Short");
  }

  lemma LongOptionNamesLong()
    ensures Contains(LengthOptions[2], "Long")
  {
    assert LengthOptions[2][..4] == "Long";
  }

  /** The long option names "Long" but not "Short", so it resolves to the
      long wording in both stages. */
  lemma LongOptionResolves()
    ensures PlannerLengthInstruction(LengthOptions[2]) == "detailed and long"
    ensures ComposerLengthInstruction(LengthOptions[2]) == "about 800–1200 words"
  {
    LongOptionLacksShort();
    LongOptionNamesLong();
  }

  // ---------- Planner ----------

  const PlannerSystem: string := "You are an expert story planner."

  const PlannerIntro: string :=
    "\nYou are a story planner (not the final writer).\n\n"
    + "The user has a sequence of images with these descriptions:\n\n"

  const PlannerFormat: string :=
    "\nYour job is to plan a story outline, NOT to write the full story.\n"
    + "Return a structured outline in this JSON-like format:\n\n"
    + "characters: [list of main character names]\n"
    + "setting: a short description of time and place\n"
    + "plot_beats:\n"
    + "  - one sentence for what happens in image 1\n"
    + "  - one sentence for what happens in image 2\n"
    + "  - ...\n"
    + "theme: a short sentence about the main theme or message\n"

  /** A line of the form `label value` ending in a newline. */
  function Labelled(key: string, value: string): string {
    key + value + "\n"
  }

  /** The planner's f-string template. */
  function PlannerPrompt(captionList: string, tone: string, audience: string, lengthInstruction: string): string {
    PlannerIntro + captionList + "\n\nThe final story should be:\n"
    + Labelled("- Tone: ", tone)
    + Labelled("- Audience: ", audience)
    + Labelled("- Length: ", lengthInstruction)
    + PlannerFormat
  }

  /** The planner prompt opens with the caption list after the fixed intro
      and carries tone, audience and length each on its own labelled line. */
  lemma PlannerPromptEmbeds(captionList: string, tone: string, audience: string, lengthInstruction: string)
    ensures var p := PlannerPrompt(captionList, tone, audience, lengthInstruction);
            && StartsWith(p, PlannerIntro + captionList)
            && Contains(p, captionList)
            && Contains(p, Labelled("- Tone: ", tone))
            && Contains(p, Labelled("- Audience: ", audience))
            && Contains(p, Labelled("- Length: ", lengthInstruction))
  {
    var t, a, l := Labelled("- Tone: ", tone), Labelled("- Audience: ", audience), Labelled("- Length: ", lengthInstruction);
    var x0 := PlannerIntro + captionList;
    var x1 := x0 + "\n\nThe final story should be:\n";
    var x2 := x1 + t;
    var x3 := x2 + a;
    var x4 := x3 + l;
    // the caption list
    assert x0[..|x0|] == x0;
    StartsWithExtend(x0, "\n\nThe final story should be:\n", x0);
    StartsWithExtend(x1, t, x0);
    StartsWithExtend(x2, a, x0);
    StartsWithExtend(x3, l, x0);
    StartsWithExtend(x4, PlannerFormat, x0);
    ContainsSuffix(PlannerIntro, captionList);
    ContainsLeft(x0, "\n\nThe final story should be:\n", captionList);
    ContainsLeft(x1, t, captionList);
    ContainsLeft(x2, a, captionList);
    ContainsLeft(x3, l, captionList);
    ContainsLeft(x4, PlannerFormat, captionList);
    // tone
    ContainsSuffix(x1, t);
    ContainsLeft(x2, a, t);
    ContainsLeft(x3, l, t);
    ContainsLeft(x4, PlannerFormat, t);
    // audience
    ContainsSuffix(x2, a);
    ContainsLeft(x3, l, a);
    ContainsLeft(x4, PlannerFormat, a);
    // length
    ContainsSuffix(x3, l);
    ContainsLeft(x4, PlannerFormat, l);
  }

  /** The request `plan_story_outline` sends: planner system message, the
      planner prompt over the caption list, at most 600 output tokens. */
  function PlannerRequest(descriptions: seq<string>, tone: string, lengthChoice: string, audience: string): Request {
    Request(ModelName, Some(PlannerSystem),
            PlannerPrompt(CaptionList(descriptions), tone, audience, PlannerLengthInstruction(lengthChoice)),
            None, 600)
  }

  /** `plan_story_outline`: one planner request; the reply is the outline. */
  method PlanStoryOutline(client: Client, descriptions: seq<string>, tone: string, lengthChoice: string, audience: string)
    returns (outline: string)
    modifies client
    ensures client.log == old(client.log) + [Exchange(PlannerRequest(descriptions, tone, lengthChoice, audience), outline)]
  {
    var captionList := RenderCaptionList(descriptions);
    var lengthInstruction := PlannerLengthInstruction(lengthChoice);
    var prompt := PlannerPrompt(captionList, tone, audience, lengthInstruction);
    outline := client.Complete(Request(ModelName, Some(PlannerSystem), prompt, None, 600));
  }

  // ---------- Writer ----------

  const ComposerIntro: string :=
    "\nYou are a creative story writer.\n\n"
    + "You will be given:\n"
    + "1) A sequence of image descriptions\n"
    + "2) A story outline created by a planner model\n"
    + "3) Desired tone, audience, and length\n\n"
    + "IMAGE DESCRIPTIONS:\n"

  const ComposerRules: string :=
    "\n\nWrite a single coherent story that:\n"
    + "- Follows the OUTLINE closely\n"
    + "- Uses the images in order as beginning, middle, and end\n"
    + "- Introduces characters and setting clearly\n"
    + "- Creates a problem or adventure in the middle\n"
    + "- Resolves it nicely at the end\n"
    + "- Includes some dialogue and emotions\n"
    + "- Feels like a short storybook.\n\n"

  /** The writer's f-string template. */
  function ComposerPrompt(captionList: string, outline: string, tone: string, audience: string,
                          lengthInstruction: string): string
  {
    ComposerIntro + captionList + "\n\nOUTLINE (from planner model):\n" + outline + ComposerRules
    + Labelled("Tone: ", tone)
    + Labelled("Audience: ", audience)
    + Labelled("Target length: ", lengthInstruction)
  }

  /** The writer prompt opens with the caption list after the fixed intro,
      carries the outline verbatim after its heading, and tone, audience and
      target length on labelled lines. */
  lemma ComposerPromptEmbeds(captionList: string, outline: string, tone: string, audience: string,
                             lengthInstruction: string)
    ensures var p := ComposerPrompt(captionList, outline, tone, audience, lengthInstruction);
            && StartsWith(p, ComposerIntro + captionList)
            && Contains(p, captionList)
            && Contains(p, outline)
            && Contains(p, Labelled("Tone: ", tone))
            && Contains(p, Labelled("Audience: ", audience))
            && Contains(p, Labelled("Target length: ", lengthInstruction))
  {
    var t, a, l := Labelled("Tone: ", tone), Labelled("Audience: ", audience), Labelled("Target length: ", lengthInstruction);
    var heading := "\n\nOUTLINE (from planner model):\n";
    var x0 := ComposerIntro + captionList;
    var x1 := x0 + heading;
    var x2 := x1 + outline;
    var x3 := x2 + ComposerRules;
    var x4 := x3 + t;
    var x5 := x4 + a;
    // the caption list
    assert x0[..|x0|] == x0;
    StartsWithExtend(x0, heading, x0);
    StartsWithExtend(x1, outline, x0);
    StartsWithExtend(x2, ComposerRules, x0);
    StartsWithExtend(x3, t, x0);
    StartsWithExtend(x4, a, x0);
    StartsWithExtend(x5, l, x0);
    ContainsSuffix(ComposerIntro, captionList);
    ContainsLeft(x0, heading, captionList);
    ContainsLeft(x1, outline, captionList);
    ContainsLeft(x2, ComposerRules, captionList);
    ContainsLeft(x3, t, captionList);
    ContainsLeft(x4, a, captionList);
    ContainsLeft(x5, l, captionList);
    // the outline
    ContainsSuffix(x1, outline);
    ContainsLeft(x2, ComposerRules, outline);
    ContainsLeft(x3, t, outline);
    ContainsLeft(x4, a, outline);
    ContainsLeft(x5, l, outline);
    // tone, audience, length
    ContainsSuffix(x3, t);
    ContainsLeft(x4, a, t);
    ContainsLeft(x5, l, t);
    ContainsSuffix(x4, a);
    ContainsLeft(x5, l, a);
    ContainsSuffix(x5, l);
  }

  /** The request `generate_story` sends after planning: writer system
      message, the writer prompt, at most 1600 output tokens. */
  function ComposerRequest(descriptions: seq<string>, outline: string, tone: string, lengthChoice: string,
                           audience: string): Request
  {
    Request(ModelName, Some(WriterSystem),
            ComposerPrompt(CaptionList(descriptions), outline, tone, audience, ComposerLengthInstruction(lengthChoice)),
            None, 1600)
  }

  /** `generate_story`: plan first, then write with the planner's reply as
      the outline; the second reply is the story. `outline` is the planner's
      reply, which the source keeps in a local. */
  method GenerateStory(client: Client, descriptions: seq<string>, tone: string, lengthChoice: string, audience: string)
    returns (story: string, ghost outline: string)
    modifies client
    ensures client.log == old(client.log)
                          + [Exchange(PlannerRequest(descriptions, tone, lengthChoice, audience), outline),
                             Exchange(ComposerRequest(descriptions, outline, tone, lengthChoice, audience), story)]
  {
    var plan := PlanStoryOutline(client, descriptions, tone, lengthChoice, audience);
    outline := plan;
    var captionList := RenderCaptionList(descriptions);
    var lengthInstruction := ComposerLengthInstruction(lengthChoice);
    var storyPrompt := ComposerPrompt(captionList, plan, tone, audience, lengthInstruction);
    story := client.Complete(Request(ModelName, Some(WriterSystem), storyPrompt, None, 1600));
  }

  // ---------- One run ----------

  /** What the page shows after a run: the descriptions, in upload order,
      and the story. */
  datatype StoryRun = StoryRun(descriptions: seq<string>, story: string)

  /** Captioning requests for the uploads, in upload order. */
  function CaptionRequests(uploads: seq<Upload>): seq<Request> {
    seq(|uploads|, i requires 0 <= i < |uploads| => CaptionRequest(UploadImageUrl(uploads[i])))
  }

  /** Every request a run sends, given the replies it receives: nothing when
      there are no uploads; otherwise one captioning request per upload,
      then the planner request over the first replies, then the writer
      request with the next reply as the outline. */
  function AppTrace(uploads: seq<Upload>, tone: string, lengthChoice: string, audience: string,
                    replies: seq<string>): seq<Request>
    requires |uploads| == 0 || |replies| > |uploads|
  {
    var n := |uploads|;
    if n == 0 then []
    else
      CaptionRequests(uploads)
      + [PlannerRequest(replies[..n], tone, lengthChoice, audience),
         ComposerRequest(replies[..n], replies[n], tone, lengthChoice, audience)]
  }

  /** One more captioning exchange extends the captioning trace by the
      next upload's request. */
  lemma CaptionStep(uploads: seq<Upload>, i: nat, made: seq<Exchange>, reply: string)
    requires i < |uploads| && Requests(made) == CaptionRequests(uploads[..i])
    ensures var e := Exchange(CaptionRequest(UploadImageUrl(uploads[i])), reply);
            && Requests(made + [e]) == CaptionRequests(uploads[..i + 1])
            && Replies(made + [e]) == Replies(made) + [reply]
  {
    var e := Exchange(CaptionRequest(UploadImageUrl(uploads[i])), reply);
    LogAppend(made, [e]);
    assert CaptionRequests(uploads[..i + 1]) == CaptionRequests(uploads[..i]) + [e.request];
  }

  /** Two more exchanges add their requests and their replies, in order. */
  lemma TwoMoreExchanges(log: seq<Exchange>, first: Request, firstReply: string, second: Request, secondReply: string)
    ensures var more := log + [Exchange(first, firstReply), Exchange(second, secondReply)];
            && Requests(more) == Requests(log) + [first, second]
            && Replies(more) == Replies(log) + [firstReply, secondReply]
  {
    LogAppend(log, [Exchange(first, firstReply), Exchange(second, secondReply)]);
  }

  /** The exchanges of a run with uploads: the captioning exchanges, then
      the planner's and the writer's. */
  function RunLog(captioning: seq<Exchange>, tone: string, lengthChoice: string, audience: string,
                  outline: string, story: string): seq<Exchange>
  {
    var descriptions := Replies(captioning);
    captioning + [Exchange(PlannerRequest(descriptions, tone, lengthChoice, audience), outline),
                  Exchange(ComposerRequest(descriptions, outline, tone, lengthChoice, audience), story)]
  }

  /** Captioning every upload, then planning and writing, yields the run's
      trace, and the captions and the story are the replies at their places
      in it. */
  lemma RunLogTrace(uploads: seq<Upload>, tone: string, lengthChoice: string, audience: string,
                    captioning: seq<Exchange>, outline: string, story: string)
    requires |uploads| > 0 && Requests(captioning) == CaptionRequests(uploads)
    ensures var made := RunLog(captioning, tone, lengthChoice, audience, outline, story);
            && |made| == |uploads| + 2
            && Requests(made) == AppTrace(uploads, tone, lengthChoice, audience, Replies(made))
            && Replies(made)[..|uploads|] == Replies(captioning)
            && Replies(made)[|uploads| + 1] == story
  {
    var descriptions := Replies(captioning);
    var planner := PlannerRequest(descriptions, tone, lengthChoice, audience);
    var writer := ComposerRequest(descriptions, outline, tone, lengthChoice, audience);
    TwoMoreExchanges(captioning, planner, outline, writer, story);
  }

  /** The loop of `main` over the uploads: one captioning request per
      upload, in order, collecting the replies. `made` is the part of the
      log it adds. */
  method DescribeUploads(client: Client, uploads: seq<Upload>) returns (descriptions: seq<string>, ghost made: seq<Exchange>)
    modifies client
    ensures client.log == old(client.log) + made
    ensures Requests(made) == CaptionRequests(uploads)
    ensures descriptions == Replies(made)
  {
    made := [];
    descriptions := [];
    var i := 0;
    while i < |uploads|
      invariant 0 <= i <= |uploads|
      invariant client.log == old(client.log) + made
      invariant Requests(made) == CaptionRequests(uploads[..i])
      invariant descriptions == Replies(made)
    {
      var description := DescribeUploadedImage(client, uploads[i]);
      CaptionStep(uploads, i, made, description);
      made := made + [Exchange(CaptionRequest(UploadImageUrl(uploads[i])), description)];
      descriptions := descriptions + [description];
      i := i + 1;
    }
    assert uploads[..i] == uploads;
  }

  /** The body of `main` once the button is pressed: describe every upload
      in order, then generate the story from the descriptions. With no
      uploads the page only shows a warning. `made` is the part of the log
      this run adds. */
  method GenerateFromUploads(client: Client, uploads: seq<Upload>, tone: string, lengthChoice: string, audience: string)
    returns (run: Option<StoryRun>, ghost made: seq<Exchange>)
    modifies client
    ensures client.log == old(client.log) + made
    ensures |made| == if |uploads| == 0 then 0 else |uploads| + 2
    ensures Requests(made) == AppTrace(uploads, tone, lengthChoice, audience, Replies(made))
    ensures run.None? <==> |uploads| == 0
    ensures run.Some? ==> run.value == StoryRun(Replies(made)[..|uploads|], Replies(made)[|uploads| + 1])
  {
    if |uploads| == 0 {
      return None, [];
    }
    var descriptions, captioning := DescribeUploads(client, uploads);
    var story, outline := GenerateStory(client, descriptions, tone, lengthChoice, audience);
    run := Some(StoryRun(descriptions, story));
    RunLogTrace(uploads, tone, lengthChoice, audience, captioning, outline, story);
    made := RunLog(captioning, tone, lengthChoice, audience, outline, story);
  }

  // ---------- Properties of a run ----------

  /** A run over n uploads sends exactly n + 2 requests: the captioning
      requests in upload order (200 tokens, no system message, upload k's
      image), then one planner request (600 tokens), then one writer request
      (1600 tokens). */
  lemma AppTraceOrder(uploads: seq<Upload>, tone: string, lengthChoice: string, audience: string,
                      replies: seq<string>)
    requires |uploads| > 0 && |replies| > |uploads|
    ensures var t := AppTrace(uploads, tone, lengthChoice, audience, replies);
            var n := |uploads|;
            && |t| == n + 2
            && (forall k :: 0 <= k < n ==>
                  t[k].imageUrl == Some(UploadImageUrl(uploads[k])) && t[k].maxTokens == 200
                  && t[k].system == None && t[k].text == CaptionInstruction)
            && t[n].system == Some(PlannerSystem) && t[n].maxTokens == 600 && t[n].imageUrl == None
            && t[n + 1].system == Some(WriterSystem) && t[n + 1].maxTokens == 1600 && t[n + 1].imageUrl == None
  {
  }

  /** Both story requests carry every caption reply, and the writer request
      carries the planner's reply verbatim as its outline. */
  lemma AppTraceCarriesReplies(uploads: seq<Upload>, tone: string, lengthChoice: string, audience: string,
                               replies: seq<string>)
    requires |uploads| > 0 && |replies| > |uploads|
    ensures var t := AppTrace(uploads, tone, lengthChoice, audience, replies);
            var n := |uploads|;
            && |t| == n + 2
            && (forall k :: 0 <= k < n ==> Contains(t[n].text, replies[k]) && Contains(t[n + 1].text, replies[k]))
            && Contains(t[n + 1].text, replies[n])
  {
    var n := |uploads|;
    var captions := replies[..n];
    var t := AppTrace(uploads, tone, lengthChoice, audience, replies);
    assert t[n] == PlannerRequest(captions, tone, lengthChoice, audience);
    assert t[n + 1] == ComposerRequest(captions, replies[n], tone, lengthChoice, audience);
    StoryRequestsCarry(captions, replies[n], tone, lengthChoice, audience);
    assert forall k :: 0 <= k < n ==> captions[k] == replies[k];
  }

  /** Both story requests carry every caption; the writer request also
      carries the outline. */
  lemma StoryRequestsCarry(captions: seq<string>, outline: string, tone: string, lengthChoice: string,
                           audience: string)
    ensures var planner := PlannerRequest(captions, tone, lengthChoice, audience).text;
            var writer := ComposerRequest(captions, outline, tone, lengthChoice, audience).text;
            && (forall k :: 0 <= k < |captions| ==> Contains(planner, captions[k]) && Contains(writer, captions[k]))
            && Contains(writer, outline)
  {
    var list := CaptionList(captions);
    var planner := PlannerPrompt(list, tone, audience, PlannerLengthInstruction(lengthChoice));
    var writer := ComposerPrompt(list, outline, tone, audience, ComposerLengthInstruction(lengthChoice));
    PlannerPromptEmbeds(list, tone, audience, PlannerLengthInstruction(lengthChoice));
    ComposerPromptEmbeds(list, outline, tone, audience, ComposerLengthInstruction(lengthChoice));
    forall k | 0 <= k < |captions| ensures Contains(planner, captions[k]) && Contains(writer, captions[k]) {
      CaptionListContains(captions, k);
      ContainsTransitive(planner, list, captions[k]);
      ContainsTransitive(writer, list, captions[k]);
    }
  }

  /** Both story requests carry the tone, the audience and the length
      instruction their stage derives from the length choice. */
  lemma AppTraceCarriesSettings(uploads: seq<Upload>, tone: string, lengthChoice: string, audience: string,
                                replies: seq<string>)
    requires |uploads| > 0 && |replies| > |uploads|
    ensures var t := AppTrace(uploads, tone, lengthChoice, audience, replies);
            var n := |uploads|;
            && |t| == n + 2
            && Contains(t[n].text, Labelled("- Tone: ", tone))
            && Contains(t[n].text, Labelled("- Audience: ", audience))
            && Contains(t[n].text, Labelled("- Length: ", PlannerLengthInstruction(lengthChoice)))
            && Contains(t[n + 1].text, Labelled("Tone: ", tone))
            && Contains(t[n + 1].text, Labelled("Audience: ", audience))
            && Contains(t[n + 1].text, Labelled("Target length: ", ComposerLengthInstruction(lengthChoice)))
  {
    var n := |uploads|;
    var t := AppTrace(uploads, tone, lengthChoice, audience, replies);
    var list := CaptionList(replies[..n]);
    assert t[n].text == PlannerPrompt(list, tone, audience, PlannerLengthInstruction(lengthChoice));
    assert t[n + 1].text == ComposerPrompt(list, replies[n], tone, audience, ComposerLengthInstruction(lengthChoice));
    PlannerPromptEmbeds(list, tone, audience, PlannerLengthInstruction(lengthChoice));
    ComposerPromptEmbeds(list, replies[n], tone, audience, ComposerLengthInstruction(lengthChoice));
  }
}
