/** The command-line script (pictory/main.py): pick the image files out of a
    folder listing, caption each image in order, then ask for one story
    over all the captions. */
module Cli {
  import opened Optional
  import opened Strings
  import opened Sorting
  import opened Base64
  import opened DataUrls
  import opened Oracle
  import opened Captions

  // ---------- Choosing the images ----------

  /** The endings `get_image_paths` accepts, in the order it tries them. */
  const ImageEndings: seq<string> := [".png", ".jpg", ".jpeg", ".webp", ".avif"]

  /** `s.endswith(endings)` for a tuple of endings: any one of them. */
  predicate EndsWithAny(s: string, endings: seq<string>) {
    endings != [] && (EndsWith(s, endings[0]) || EndsWithAny(s, endings[1..]))
  }

  /** `name.lower().endswith((".png", ".jpg", ".jpeg", ".webp", ".avif"))` */
  predicate IsImageName(name: string) {
    EndsWithAny(Lower(name), ImageEndings)
  }

  /** The filter accepts exactly the names whose lower-cased form ends with
      one of the five endings. */
  lemma IsImageNameIff(name: string)
    ensures var n := Lower(name);
            (IsImageName(name) <==>
               (EndsWith(n, ".png") || EndsWith(n, ".jpg") || EndsWith(n, ".jpeg")
                || EndsWith(n, ".webp") || EndsWith(n, ".avif")))
  {
    var n := Lower(name);
    var e1 := ImageEndings[1..];
    var e2 := e1[1..];
    var e3 := e2[1..];
    var e4 := e3[1..];
    assert ImageEndings[0] == ".png" && e1[0] == ".jpg" && e2[0] == ".jpeg" && e3[0] == ".webp";
    assert e4 == [".avif"] && e4[1..] == [];
    assert EndsWithAny(n, e4) <==> EndsWith(n, ".avif");
    assert EndsWithAny(n, e3) <==> EndsWith(n, ".webp") || EndsWithAny(n, e4);
    assert EndsWithAny(n, e2) <==> EndsWith(n, ".jpeg") || EndsWithAny(n, e3);
    assert EndsWithAny(n, e1) <==> EndsWith(n, ".jpg") || EndsWithAny(n, e2);
  }

  /** Case does not matter to the filter. */
  lemma IsImageNameIgnoresCase(name: string)
    ensures IsImageName(Lower(name)) <==> IsImageName(name)
  {
    LowerIdempotent(name);
  }

  /** POSIX `os.path.join(folder, name)`: an absolute name replaces the
      folder; otherwise a `/` is put between them unless the folder is empty
      or already ends with one. */
  function JoinPath(folder: string, name: string): (path: string)
    ensures EndsWith(path, name)
    ensures name != [] && name[0] == '/' ==> path == name
    ensures (name == [] || name[0] != '/') ==> StartsWith(path, folder)
    ensures (name == [] || name[0] != '/') && folder != [] && folder[|folder| - 1] != '/'
            ==> |path| == |folder| + 1 + |name| && path[|folder|] == '/'
    ensures (name == [] || name[0] != '/') && (folder == [] || folder[|folder| - 1] == '/')
            ==> path == folder + name
  {
    if name != [] && name[0] == '/' then name
    else if folder == [] || folder[|folder| - 1] == '/' then folder + name
    else folder + "/" + name
  }

  /** The names the filter keeps, in the order given. */
  function ImageNames(names: seq<string>): (kept: seq<string>)
    ensures |kept| <= |names|
  {
    if names == [] then []
    else
      var last := names[|names| - 1];
      ImageNames(names[..|names| - 1]) + (if IsImageName(last) then [last] else [])
  }

  /** Everything kept is an image name from the input, and every image name
      of the input is kept. */
  lemma {:induction false} ImageNamesExact(names: seq<string>)
    ensures forall x :: x in ImageNames(names) <==> x in names && IsImageName(x)
    decreases |names|
  {
    if names != [] {
      var init := names[..|names| - 1];
      var last := names[|names| - 1];
      ImageNamesExact(init);
      assert names == init + [last];
    }
  }

  /** `a` can be obtained from `b` by deleting elements. */
  predicate Subsequence(a: seq<string>, b: seq<string>)
    decreases |b|
  {
    if a == [] then true
    else if b == [] then false
    else if a[|a| - 1] == b[|b| - 1] then Subsequence(a[..|a| - 1], b[..|b| - 1])
    else Subsequence(a, b[..|b| - 1])
  }

  /** The filter only deletes: it neither reorders nor repeats. */
  lemma {:induction false} ImageNamesSubsequence(names: seq<string>)
    ensures Subsequence(ImageNames(names), names)
    decreases |names|
  {
    if names != [] {
      var init := names[..|names| - 1];
      var last := names[|names| - 1];
      ImageNamesSubsequence(init);
      var kept := ImageNames(names);
      if IsImageName(last) {
        assert kept[..|kept| - 1] == ImageNames(init);
      } else if kept != [] {
        assert kept == ImageNames(init);
        ImageNamesExact(init);
        assert IsImageName(kept[|kept| - 1]);
        SubsequenceDropLast(kept, names);
      }
    }
  }

  /** When the last elements differ, a subsequence of the shorter sequence
      is one of the longer. */
  lemma SubsequenceDropLast(a: seq<string>, b: seq<string>)
    requires a != [] && b != [] && a[|a| - 1] != b[|b| - 1]
    requires Subsequence(a, b[..|b| - 1])
    ensures Subsequence(a, b)
  {
  }

  /** Filtering a sorted listing leaves it sorted. */
  lemma {:induction false} ImageNamesSorted(names: seq<string>)
    requires Sorted(names)
    ensures Sorted(ImageNames(names))
    decreases |names|
  {
    if names != [] {
      var n := |names|;
      var init := names[..n - 1];
      var last := names[n - 1];
      SortedPrefix(names);
      ImageNamesSorted(init);
      var before := ImageNames(init);
      if IsImageName(last) && before != [] {
        var x := before[|before| - 1];
        ImageNamesExact(init);
        assert x in init;
        var k :| 0 <= k < |init| && init[k] == x;
        SortedOrdered(names, k, n - 1);
        SortedAppend(before, last);
      }
    }
  }

  /** The paths `get_image_paths` builds from the kept names. */
  function JoinAll(folder: string, kept: seq<string>): (paths: seq<string>)
    ensures |paths| == |kept|
    ensures forall k :: 0 <= k < |kept| ==> paths[k] == JoinPath(folder, kept[k])
  {
    if kept == [] then []
    else JoinAll(folder, kept[..|kept| - 1]) + [JoinPath(folder, kept[|kept| - 1])]
  }

  /** The paths `get_image_paths` returns for a folder whose listing is
      `listing`: the image names, sorted, each joined to the folder. */
  function ImagePaths(folder: string, listing: seq<string>): (paths: seq<string>)
    ensures |paths| <= |listing|
  {
    JoinAll(folder, ImageNames(Sort(listing)))
  }

  /** `get_image_paths`: walk the sorted listing and append the folder path
      of every image name. */
  method GetImagePaths(folder: string, listing: seq<string>) returns (files: seq<string>)
    ensures files == ImagePaths(folder, listing)
  {
    var names := Sort(listing);
    files := [];
    var i := 0;
    while i < |names|
      invariant 0 <= i <= |names|
      invariant files == JoinAll(folder, ImageNames(names[..i]))
    {
      ImagePathsStep(folder, names, i);
      if IsImageName(names[i]) {
        files := files + [JoinPath(folder, names[i])];
      }
      i := i + 1;
    }
    assert names[..i] == names;
  }

  /** One more name of the listing adds its path exactly when it is an
      image name. */
  lemma ImagePathsStep(folder: string, names: seq<string>, i: nat)
    requires i < |names|
    ensures JoinAll(folder, ImageNames(names[..i + 1]))
            == JoinAll(folder, ImageNames(names[..i]))
               + (if IsImageName(names[i]) then [JoinPath(folder, names[i])] else [])
  {
    var prefix := names[..i + 1];
    assert prefix[..i] == names[..i] && prefix[i] == names[i];
    var kept := ImageNames(prefix);
    if IsImageName(names[i]) {
      assert kept[..|kept| - 1] == ImageNames(names[..i]);
    }
  }

  /** Every returned path is an image name from the listing joined to the
      folder, every image name of the listing yields one, and the names come
      out in ascending order, as a subsequence of the sorted listing. */
  lemma ImagePathsSpec(folder: string, listing: seq<string>)
    ensures var paths := ImagePaths(folder, listing);
            var kept := ImageNames(Sort(listing));
            && |paths| == |kept|
            && (forall i :: 0 <= i < |paths| ==>
                  kept[i] in listing && IsImageName(kept[i]) && paths[i] == JoinPath(folder, kept[i]))
            && (forall x :: x in listing && IsImageName(x) ==> JoinPath(folder, x) in paths)
            && Sorted(kept)
            && Subsequence(kept, Sort(listing))
  {
    var sorted := Sort(listing);
    var kept := ImageNames(sorted);
    var paths := ImagePaths(folder, listing);
    ImageNamesExact(sorted);
    forall i | 0 <= i < |paths| ensures kept[i] in listing {
      assert kept[i] in sorted;
      assert kept[i] in multiset(sorted);
    }
    forall x | x in listing && IsImageName(x) ensures JoinPath(folder, x) in paths {
      assert x in multiset(listing);
      assert x in sorted;
      var i :| 0 <= i < |kept| && kept[i] == x;
      assert paths[i] == JoinPath(folder, x);
    }
    ImageNamesSorted(sorted);
    ImageNamesSubsequence(sorted);
  }

  // ---------- Media type ----------

  /** The if/elif chain on the extension. */
  function ExtensionMime(ext: string): string {
    if ext == "png" then "image/png"
    else if ext == "webp" then "image/webp"
    else if ext == "avif" then "image/avif"
    else "image/jpeg"
  }

  /** Each extension selects exactly one of four media types: PNG, WebP
      and AVIF by name, JPEG for everything else. */
  lemma ExtensionMimeCases(ext: string)
    ensures ExtensionMime(ext) == "image/png" <==> ext == "png"
    ensures ExtensionMime(ext) == "image/webp" <==> ext == "webp"
    ensures ExtensionMime(ext) == "image/avif" <==> ext == "avif"
    ensures ExtensionMime(ext) == "image/jpeg" <==> ext != "png" && ext != "webp" && ext != "avif"
  {
  }

  /** `image_path.lower().split(".")[-1]` mapped through the chain. */
  function CliMime(path: string): string {
    ExtensionMime(LastSegment(Lower(path), '.'))
  }

  /** Lower-casing a dot-free string leaves it dot-free. */
  lemma LowerNoDot(s: string)
    requires '.' !in s
    ensures '.' !in Lower(s)
  {
    forall i | 0 <= i < |s| ensures Lower(s)[i] != '.' {
      assert s[i] != '.';
    }
  }

  /** The media type depends only on the text after the last dot, in any
      case. */
  lemma CliMimeBySuffix(stem: string, ext: string)
    requires '.' !in ext
    ensures CliMime(stem + "." + ext) == ExtensionMime(Lower(ext))
  {
    LowerConcat(stem + ".", ext);
    LowerConcat(stem, ".");
    assert Lower(".") == ['.'];
    LowerNoDot(ext);
    LastSegmentAfter(Lower(stem), '.', Lower(ext));
  }

  /** A path without a dot is its own extension: unless the whole lower-cased
      path is "png", "webp" or "avif" it is sent as JPEG. */
  lemma CliMimeNoDot(path: string)
    requires '.' !in path
    ensures CliMime(path) == ExtensionMime(Lower(path))
  {
    LowerNoDot(path);
    LastSegmentNoSep(Lower(path), '.');
  }

  /** Case does not matter to the media type. */
  lemma CliMimeIgnoresCase(path: string)
    ensures CliMime(Lower(path)) == CliMime(path)
  {
    LowerIdempotent(path);
  }

  /** A double extension such as ".jpg.webp" passes the filter and is sent
      as WebP: only the last extension counts. */
  lemma DoubleExtensionIsWebp(stem: string)
    ensures IsImageName(stem + ".jpg.webp")
    ensures CliMime(stem + ".jpg.webp") == "image/webp"
  {
    var path := stem + ".jpg.webp";
    assert path == (stem + ".jpg") + "." + "webp" == (stem + ".jpg") + ".webp";
    assert Lower("webp") == "webp";
    assert Lower(".webp") == ".webp";
    CliMimeBySuffix(stem + ".jpg", "webp");
    LowerKeepsEnding(stem + ".jpg", ".webp");
    IsImageNameIff(path);
  }

  /** The extension the filter matched, without its dot. */
  function MatchedExtension(name: string): (ext: string)
    requires IsImageName(name)
    ensures EndsWith(Lower(name), "." + ext)
    ensures ext == "png" || ext == "jpg" || ext == "jpeg" || ext == "webp" || ext == "avif"
  {
    IsImageNameIff(name);
    DottedExtensions();
    var n := Lower(name);
    if EndsWith(n, ".png") then "png"
    else if EndsWith(n, ".jpg") then "jpg"
    else if EndsWith(n, ".jpeg") then "jpeg"
    else if EndsWith(n, ".webp") then "webp"
    else "avif"
  }

  /** Each of the five extensions with its dot is the ending the filter tests. */
  lemma DottedExtensions()
    ensures "." + "png" == ".png" && "." + "jpg" == ".jpg" && "." + "jpeg" == ".jpeg"
    ensures "." + "webp" == ".webp" && "." + "avif" == ".avif"
  {
  }

  /** The extension of a lower-cased path that ends with `"." + ext`. */
  lemma LastSegmentOfEnding(path: string, ext: string)
    requires '.' !in ext && EndsWith(Lower(path), "." + ext)
    ensures LastSegment(Lower(path), '.') == ext
  {
    var n := Lower(path);
    var stem := n[..|n| - |ext| - 1];
    assert n == stem + ['.'] + ext;
    LastSegmentAfter(stem, '.', ext);
  }

  /** Every path `get_image_paths` produces is sent with the media type of
      the extension the filter matched, whatever folder it is in: PNG, WebP
      or AVIF for those, JPEG for ".jpg" and ".jpeg". */
  lemma ImagePathMime(folder: string, name: string)
    requires IsImageName(name)
    ensures CliMime(JoinPath(folder, name)) == ExtensionMime(MatchedExtension(name))
  {
    var ext := MatchedExtension(name);
    MatchedExtensionNoDot(name);
    JoinKeepsEnding(folder, name, "." + ext);
    LastSegmentOfEnding(JoinPath(folder, name), ext);
  }

  /** None of the five extensions holds a dot. */
  lemma MatchedExtensionNoDot(name: string)
    requires IsImageName(name)
    ensures '.' !in MatchedExtension(name)
  {
    var ext := MatchedExtension(name);
    assert '.' !in "png" && '.' !in "jpg" && '.' !in "jpeg" && '.' !in "webp" && '.' !in "avif";
  }

  /** Joining a folder in front keeps the lower-cased ending of the name. */
  lemma JoinKeepsEnding(folder: string, name: string, ending: string)
    requires EndsWith(Lower(name), ending)
    ensures EndsWith(Lower(JoinPath(folder, name)), ending)
  {
    var path := JoinPath(folder, name);
    var front := path[..|path| - |name|];
    assert path == front + name;
    LowerConcat(front, name);
    EndsWithExtend(Lower(front), Lower(name), ending);
  }

  // ---------- Captioning one file ----------

  /** The captioning request for a file's path and bytes. */
  function ImageRequest(path: string, bytes: seq<Byte>): Request {
    CaptionRequest(DataUrl(CliMime(path), Encode(bytes)))
  }

  /** The image URL of a file's request reads back as the path's media type
      and the file's base64 text. */
  lemma ImageRequestRoundTrip(path: string, bytes: seq<Byte>)
    ensures ImageRequest(path, bytes).imageUrl.Some?
    ensures ParseDataUrl(ImageRequest(path, bytes).imageUrl.value) == Some(Parsed(CliMime(path), Encode(bytes)))
  {
    var mime := CliMime(path);
    ExtensionMimeCases(LastSegment(Lower(path), '.'));
    assert ';' !in mime;
    DataUrlRoundTrip(mime, Encode(bytes));
  }

  /** `describe_image`: read the file (a missing file raises before anything
      is sent), then send one captioning request with the path's media
      type; the reply is the description. `disk` maps each readable path to
      its contents. */
  method DescribeImage(client: Client, path: string, disk: map<string, seq<Byte>>)
    returns (description: Option<string>)
    modifies client
    ensures path !in disk ==> description == None && client.log == old(client.log)
    ensures path in disk ==> description.Some?
                             && client.log == old(client.log) + [Exchange(ImageRequest(path, disk[path]), description.value)]
  {
    if path !in disk {
      return None;
    }
    var imageB64 := Encode(disk[path]);
    var mimeType := CliMime(path);
    var reply := client.Complete(CaptionRequest(DataUrl(mimeType, imageB64)));
    description := Some(reply);
  }

  // ---------- The story ----------

  const StoryIntro: string := "\nI have a sequence of images with these descriptions:\n\n"

  const StoryRules: string :=
    "\n\nWrite a single coherent story that:\n"
    + "- Uses this order as beginning, middle, and end\n"
    + "- Introduces characters and setting in the first description\n"
    + "- Creates some problem or adventure in the middle\n"
    + "- Resolves it nicely in the end\n"
    + "- Includes some dialogue and emotions\n"
    + "- Feels like a short storybook\n\n"

  /** The fixed length target of the script's story. */
  const TargetLength: string := "Target length: 500–800 words."

  const StoryTone: string := "\nTone: warm, imaginative, slightly cinematic.\n"

  /** The script's story template around the caption list. */
  function StoryPrompt(captionList: string): string {
    StoryIntro + captionList + StoryRules + TargetLength + StoryTone
  }

  /** The story prompt opens with the caption list after the fixed intro and
      always states the 500–800 word target. */
  lemma StoryPromptEmbeds(captionList: string)
    ensures var p := StoryPrompt(captionList);
            && StartsWith(p, StoryIntro + captionList)
            && Contains(p, captionList)
            && Contains(p, TargetLength)
  {
    var x0 := StoryIntro + captionList;
    var x1 := x0 + StoryRules;
    var x2 := x1 + TargetLength;
    assert x0[..|x0|] == x0;
    StartsWithExtend(x0, StoryRules, x0);
    StartsWithExtend(x1, TargetLength, x0);
    StartsWithExtend(x2, StoryTone, x0);
    ContainsSuffix(StoryIntro, captionList);
    ContainsLeft(x0, StoryRules, captionList);
    ContainsLeft(x1, TargetLength, captionList);
    ContainsLeft(x2, StoryTone, captionList);
    ContainsSuffix(x1, TargetLength);
    ContainsLeft(x2, StoryTone, TargetLength);
  }

  /** The script's story request: writer system message, the story prompt,
      at most 1200 output tokens. */
  function StoryRequest(descriptions: seq<string>): Request {
    Request(ModelName, Some(WriterSystem), StoryPrompt(CaptionList(descriptions)), None, 1200)
  }

  /** `generate_story` of the script: one request; the reply is the story. */
  method GenerateStory(client: Client, descriptions: seq<string>) returns (story: string)
    modifies client
    ensures client.log == old(client.log) + [Exchange(StoryRequest(descriptions), story)]
  {
    var captionList := RenderCaptionList(descriptions);
    var storyPrompt := StoryPrompt(captionList);
    story := client.Complete(Request(ModelName, Some(WriterSystem), storyPrompt, None, 1200));
  }

  // ---------- One run ----------

  /** How a run of the script ends. */
  datatype CliOutcome =
    | NoImages
    | MissingFile(path: string)
    | Finished(descriptions: seq<string>, story: string)

  /** How many leading paths can be read. */
  function ReadablePrefix(paths: seq<string>, disk: map<string, seq<Byte>>): (k: nat)
    ensures k <= |paths|
    ensures forall j :: 0 <= j < k ==> paths[j] in disk
    ensures k < |paths| ==> paths[k] !in disk
  {
    if paths == [] || paths[0] !in disk then 0 else 1 + ReadablePrefix(paths[1..], disk)
  }

  /** The captioning requests for readable paths, in list order. */
  function ImageRequests(paths: seq<string>, disk: map<string, seq<Byte>>): seq<Request>
    requires forall j :: 0 <= j < |paths| ==> paths[j] in disk
  {
    seq(|paths|, j requires 0 <= j < |paths| => ImageRequest(paths[j], disk[paths[j]]))
  }

  /** Every request a run sends, given the replies it receives: nothing for
      an empty list; otherwise a captioning request per path until the first
      unreadable one, and the story request over the captions only if every
      path was read. */
  function CliTrace(paths: seq<string>, disk: map<string, seq<Byte>>, replies: seq<string>): seq<Request>
    requires |paths| == 0 || ReadablePrefix(paths, disk) < |paths| || |replies| >= |paths|
  {
    var m := ReadablePrefix(paths, disk);
    if |paths| == 0 then []
    else if m < |paths| then ImageRequests(paths[..m], disk)
    else ImageRequests(paths, disk) + [StoryRequest(replies[..m])]
  }

  /** One more captioning exchange extends the captioning requests by the
      next path's request. */
  lemma ImageStep(paths: seq<string>, disk: map<string, seq<Byte>>, i: nat, made: seq<Exchange>, reply: string)
    requires i < |paths| && forall j :: 0 <= j <= i ==> paths[j] in disk
    requires Requests(made) == ImageRequests(paths[..i], disk)
    ensures var e := Exchange(ImageRequest(paths[i], disk[paths[i]]), reply);
            && Requests(made + [e]) == ImageRequests(paths[..i + 1], disk)
            && Replies(made + [e]) == Replies(made) + [reply]
  {
    var e := Exchange(ImageRequest(paths[i], disk[paths[i]]), reply);
    LogAppend(made, [e]);
    assert paths[..i + 1][..i] == paths[..i];
  }

  /** Captioning every path and then asking for the story yields the run's
      trace, with the captions and the story at their places. */
  lemma CliRunLogTrace(paths: seq<string>, disk: map<string, seq<Byte>>, captioning: seq<Exchange>, story: string)
    requires |paths| > 0 && ReadablePrefix(paths, disk) == |paths|
    requires Requests(captioning) == ImageRequests(paths, disk)
    ensures var made := captioning + [Exchange(StoryRequest(Replies(captioning)), story)];
            && |made| == |paths| + 1
            && Requests(made) == CliTrace(paths, disk, Replies(made))
            && Replies(made)[..|paths|] == Replies(captioning)
            && Replies(made)[|paths|] == story
  {
    var e := Exchange(StoryRequest(Replies(captioning)), story);
    LogAppend(captioning, [e]);
    assert (Replies(captioning) + [story])[..|paths|] == Replies(captioning);
    assert paths[..|paths|] == paths;
  }

  /** `main` of the script over a given path list: stop if the list is
      empty, describe each image in list order (a missing file stops the
      run), then generate the story. `made` is the part of the log the run
      adds. */
  method RunCli(client: Client, imagePaths: seq<string>, disk: map<string, seq<Byte>>)
    returns (outcome: CliOutcome, ghost made: seq<Exchange>)
    modifies client
    ensures client.log == old(client.log) + made
    ensures var m := ReadablePrefix(imagePaths, disk);
            |made| == if |imagePaths| == 0 then 0 else if m < |imagePaths| then m else m + 1
    ensures Requests(made) == CliTrace(imagePaths, disk, Replies(made))
    ensures outcome == NoImages <==> |imagePaths| == 0
    ensures outcome.MissingFile? <==> 0 < |imagePaths| && ReadablePrefix(imagePaths, disk) < |imagePaths|
    ensures outcome.MissingFile? ==> outcome.path == imagePaths[ReadablePrefix(imagePaths, disk)]
    ensures outcome.Finished? ==> outcome == Finished(Replies(made)[..|imagePaths|], Replies(made)[|imagePaths|])
  {
    made := [];
    if |imagePaths| == 0 {
      return NoImages, made;
    }
    var descriptions: seq<string> := [];
    var i := 0;
    while i < |imagePaths|
      invariant 0 <= i <= |imagePaths|
      invariant forall j :: 0 <= j < i ==> imagePaths[j] in disk
      invariant client.log == old(client.log) + made
      invariant Requests(made) == ImageRequests(imagePaths[..i], disk)
      invariant descriptions == Replies(made)
    {
      var path := imagePaths[i];
      var description := DescribeImage(client, path, disk);
      if description.None? {
        return MissingFile(path), made;
      }
      ImageStep(imagePaths, disk, i, made, description.value);
      made := made + [Exchange(ImageRequest(path, disk[path]), description.value)];
      descriptions := descriptions + [description.value];
      i := i + 1;
    }
    assert imagePaths[..i] == imagePaths;
    var story := GenerateStory(client, descriptions);
    outcome := Finished(descriptions, story);
    CliRunLogTrace(imagePaths, disk, made, story);
    made := made + [Exchange(StoryRequest(descriptions), story)];
  }

  // ---------- Properties of a run ----------

  /** A run over n readable paths sends n captioning requests in list
      order, each for its own file with its path's media type and 200
      tokens, then the story request over the n captions. */
  lemma CliTraceCaptioning(paths: seq<string>, disk: map<string, seq<Byte>>, replies: seq<string>)
    requires |paths| > 0 && forall j :: 0 <= j < |paths| ==> paths[j] in disk
    requires |replies| >= |paths|
    ensures var t := CliTrace(paths, disk, replies);
            var n := |paths|;
            && |t| == n + 1
            && (forall k :: 0 <= k < n ==>
                  t[k].imageUrl == Some(DataUrl(CliMime(paths[k]), Encode(disk[paths[k]])))
                  && t[k].maxTokens == 200 && t[k].system == None)
            && t[n] == StoryRequest(replies[..n])
  {
    var n := |paths|;
    assert ReadablePrefix(paths, disk) == n;
    var t := CliTrace(paths, disk, replies);
    var captioning := ImageRequests(paths, disk);
    assert t == captioning + [StoryRequest(replies[..n])];
    assert forall k :: 0 <= k < n ==> t[k] == captioning[k];
    ImageRequestsFields(paths, disk);
  }

  /** Each captioning request is for its own file, with its path's media
      type, 200 tokens and no system message. */
  lemma ImageRequestsFields(paths: seq<string>, disk: map<string, seq<Byte>>)
    requires forall j :: 0 <= j < |paths| ==> paths[j] in disk
    ensures forall k :: 0 <= k < |paths| ==>
              var r := ImageRequests(paths, disk)[k];
              r.imageUrl == Some(DataUrl(CliMime(paths[k]), Encode(disk[paths[k]])))
              && r.maxTokens == 200 && r.system == None
  {
  }

  /** The story request uses the writer system message and 1200 tokens,
      has no image, and carries every caption and the 500–800 word target. */
  lemma StoryRequestCarries(captions: seq<string>)
    ensures var r := StoryRequest(captions);
            && r.system == Some(WriterSystem) && r.maxTokens == 1200 && r.imageUrl == None
            && (forall k :: 0 <= k < |captions| ==> Contains(r.text, captions[k]))
            && Contains(r.text, TargetLength)
  {
    var text := StoryRequest(captions).text;
    var list := CaptionList(captions);
    StoryPromptEmbeds(list);
    forall k | 0 <= k < |captions| ensures Contains(text, captions[k]) {
      CaptionListContains(captions, k);
      ContainsTransitive(text, list, captions[k]);
    }
  }

  /** Over n readable paths the last request of the run is the story
      request, and it carries every one of the n captions. */
  lemma CliTraceComplete(paths: seq<string>, disk: map<string, seq<Byte>>, replies: seq<string>)
    requires |paths| > 0 && forall j :: 0 <= j < |paths| ==> paths[j] in disk
    requires |replies| >= |paths|
    ensures var t := CliTrace(paths, disk, replies);
            var n := |paths|;
            && |t| == n + 1
            && t[n].system == Some(WriterSystem) && t[n].maxTokens == 1200
            && forall k :: 0 <= k < n ==> Contains(t[n].text, replies[k])
  {
    CliTraceCaptioning(paths, disk, replies);
    var n := |paths|;
    StoryRequestCarries(replies[..n]);
    var t := CliTrace(paths, disk, replies);
    assert t[n] == StoryRequest(replies[..n]);
    assert forall k :: 0 <= k < n ==> replies[..n][k] == replies[k];
  }

  /** When a path cannot be read, only the files before it are captioned and
      no story is requested. */
  lemma CliTraceMissing(paths: seq<string>, disk: map<string, seq<Byte>>, replies: seq<string>, j: nat)
    requires j < |paths| && paths[j] !in disk
    ensures var t := CliTrace(paths, disk, replies);
            && |t| <= j
            && forall k :: 0 <= k < |t| ==> t[k].maxTokens == 200
    ensures var t := CliTrace(paths, disk, replies);
            var m := ReadablePrefix(paths, disk);
            && m <= j && |t| == m
            && forall k :: 0 <= k < m ==> paths[k] in disk && t[k] == ImageRequest(paths[k], disk[paths[k]])
  {
  }

  // ---------- The script as shipped ----------

  /** The two paths `main` runs on; the folder listing is not used. */
  const DefaultImagePaths: seq<string> := ["images/1_inv.jpg.webp", "images/2_im.jpg.webp"]

  /** `main` as shipped: the run over the two fixed paths, which never stops
      for an empty list. */
  method RunScript(client: Client, disk: map<string, seq<Byte>>) returns (outcome: CliOutcome, ghost made: seq<Exchange>)
    modifies client
    ensures client.log == old(client.log) + made
    ensures var m := ReadablePrefix(DefaultImagePaths, disk);
            |made| == if m < |DefaultImagePaths| then m else m + 1
    ensures Requests(made) == CliTrace(DefaultImagePaths, disk, Replies(made))
    ensures outcome != NoImages
  {
    outcome, made := RunCli(client, DefaultImagePaths, disk);
  }
}
