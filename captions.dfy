/** Captioning: the fixed instruction sent with every image, and the numbered
    caption list ("1. first\n2. second\n...") that both story prompts embed.
    The web app builds that list twice (pictory/app.py, in the planner and in
    the composer) and the command-line script once, each with the same loop;
    it is modelled once here. */
module Captions {
  import opened Optional
  import opened Strings
  import opened Oracle

  /** The user text of every captioning request. */
  const CaptionInstruction: string :=
    "Describe this image in 2–3 sentences. "
    + "Focus on: who is in the scene, what they are doing, "
    + "the mood or emotion, and the setting (place, time of day)."

  /** The captioning request for one image URL: no system message, the
      instruction plus the image, at most 200 output tokens. */
  function CaptionRequest(imageUrl: string): (r: Request)
    ensures r.model == ModelName && r.system == None && r.text == CaptionInstruction
    ensures r.imageUrl == Some(imageUrl) && r.maxTokens == 200
  {
    Request(ModelName, None, CaptionInstruction, Some(imageUrl), 200)
  }

  /** The system message of every story-writing request, in the web app
      and in the command-line script alike. */
  const WriterSystem: string := "You are a creative story writer."

  /** `f"{i}. {desc}\n"` */
  function CaptionLine(i: nat, desc: string): string {
    Decimal(i) + ". " + desc + "\n"
  }

  /** The caption list after the whole loop: entry `i` (1-based) is
      `CaptionLine(i, descriptions[i - 1])`, in order. */
  function CaptionList(descriptions: seq<string>): (r: string)
    ensures r == [] <==> descriptions == []
    ensures r != [] ==> r[|r| - 1] == '\n'
  {
    if descriptions == [] then ""
    else
      var n := |descriptions|;
      CaptionList(descriptions[..n - 1]) + CaptionLine(n, descriptions[n - 1])
  }

  /** The `for i, desc in enumerate(descriptions, start=1)` loop that appends
      one line per description to an initially empty string. */
  method RenderCaptionList(descriptions: seq<string>) returns (captionList: string)
    ensures captionList == CaptionList(descriptions)
  {
    captionList := "";
    var i := 0;
    while i < |descriptions|
      invariant 0 <= i <= |descriptions|
      invariant captionList == CaptionList(descriptions[..i])
    {
      assert descriptions[..i + 1][..i] == descriptions[..i];
      captionList := captionList + CaptionLine(i + 1, descriptions[i]);
      i := i + 1;
    }
    assert descriptions[..i] == descriptions;
  }

  /** The list for a prefix of the descriptions is a prefix of the list. */
  lemma {:induction false} CaptionListPrefix(descriptions: seq<string>, k: nat)
    requires k <= |descriptions|
    ensures StartsWith(CaptionList(descriptions), CaptionList(descriptions[..k]))
    decreases |descriptions| - k
  {
    var n := |descriptions|;
    if k == n {
      assert descriptions[..k] == descriptions;
    } else {
      var init := descriptions[..n - 1];
      CaptionListPrefix(init, k);
      assert init[..k] == descriptions[..k];
    }
  }

  /** Entry `k + 1` comes right after the first `k` entries. */
  lemma CaptionListEntry(descriptions: seq<string>, k: nat)
    requires k < |descriptions|
    ensures StartsWith(CaptionList(descriptions),
                       CaptionList(descriptions[..k]) + CaptionLine(k + 1, descriptions[k]))
  {
    CaptionListPrefix(descriptions, k + 1);
    var upTo := descriptions[..k + 1];
    assert upTo[..k] == descriptions[..k] && upTo[k] == descriptions[k];
    assert CaptionList(upTo) == CaptionList(upTo[..k]) + CaptionLine(k + 1, upTo[k]);
  }

  /** A description is found inside any text holding its caption line. */
  lemma LineContainsDescription(before: string, i: nat, desc: string, after: string)
    ensures Contains(before + CaptionLine(i, desc) + after, desc)
  {
    assert before + CaptionLine(i, desc) + after
        == (before + Decimal(i) + ". ") + desc + ("\n" + after);
    ContainsMiddle(before + Decimal(i) + ". ", desc, "\n" + after);
  }

  /** Every description appears verbatim in the list. */
  lemma CaptionListContains(descriptions: seq<string>, k: nat)
    requires k < |descriptions|
    ensures Contains(CaptionList(descriptions), descriptions[k])
  {
    CaptionListEntry(descriptions, k);
    var list := CaptionList(descriptions);
    var head := CaptionList(descriptions[..k]) + CaptionLine(k + 1, descriptions[k]);
    var rest := list[|head|..];
    assert list == head + rest;
    LineContainsDescription(CaptionList(descriptions[..k]), k + 1, descriptions[k], rest);
  }

  /** The text read as `\n`-terminated lines (a last line without `\n` is
      kept too). */
  function SplitLines(s: string): seq<string>
    decreases |s|
  {
    if s == [] then []
    else
      var k := FirstIndexOf(s, '\n');
      if k == |s| then [s] else [s[..k]] + SplitLines(s[k + 1..])
  }

  /** A text whose first newline follows `line` splits into `line` and
      the lines of the rest. */
  lemma SplitLinesCut(s: string, line: string, rest: string)
    requires '\n' !in line && s == line + ['\n'] + rest
    ensures SplitLines(s) == [line] + SplitLines(rest)
  {
    FirstIndexOfAfter(line, '\n', rest);
    assert s[..|line|] == line && s[|line| + 1..] == rest;
  }

  /** Each line followed by a newline, in order. */
  function JoinLines(lines: seq<string>): (s: string)
    ensures |lines| > 0 ==> |s| > 0
  {
    if lines == [] then "" else lines[0] + "\n" + JoinLines(lines[1..])
  }

  /** Appending a line to the list appends it, with its newline, to the
      text. */
  lemma {:induction false} JoinLinesAppend(lines: seq<string>, line: string)
    ensures JoinLines(lines + [line]) == JoinLines(lines) + line + "\n"
    decreases |lines|
  {
    if lines == [] {
      assert [] + [line] == [line];
      assert [line][1..] == [];
    } else {
      assert (lines + [line])[1..] == lines[1..] + [line];
      JoinLinesAppend(lines[1..], line);
    }
  }

  /** Splitting undoes joining when no line holds a newline. */
  lemma {:induction false} SplitJoinLines(lines: seq<string>)
    requires forall i :: 0 <= i < |lines| ==> '\n' !in lines[i]
    ensures SplitLines(JoinLines(lines)) == lines
    decreases |lines|
  {
    if lines != [] {
      var rest := JoinLines(lines[1..]);
      assert JoinLines(lines) == lines[0] + ['\n'] + rest;
      SplitLinesCut(JoinLines(lines), lines[0], rest);
      SplitJoinLines(lines[1..]);
    }
  }

  /** Lines as the caption list numbers them, without their newlines. */
  function NumberedLines(descriptions: seq<string>): seq<string> {
    seq(|descriptions|, i requires 0 <= i < |descriptions| => Decimal(i + 1) + ". " + descriptions[i])
  }

  predicate NoNewlines(descriptions: seq<string>) {
    forall i :: 0 <= i < |descriptions| ==> '\n' !in descriptions[i]
  }

  /** The number a line starts with. */
  function LineNumber(line: string): nat {
    DecimalValue(line[..LeadingDigits(line)])
  }

  /** A numbered line starts with its own number and loses exactly its
      "<number>. " prefix to `StripNumber`. */
  lemma NumberedLine(i: nat, desc: string)
    ensures LineNumber(Decimal(i) + ". " + desc) == i
    ensures StripNumber(Decimal(i) + ". " + desc) == desc
  {
    var line := Decimal(i) + ". " + desc;
    assert line == Decimal(i) + (". " + desc);
    LeadingDigitsOf(Decimal(i), ". " + desc);
    assert line[..|Decimal(i)|] == Decimal(i);
    assert line[|Decimal(i)|..] == ". " + desc;
    DecimalRoundTrip(i);
  }

  /** A numbered line has a newline only if its description does. */
  lemma NumberedLineNoNewline(i: nat, desc: string)
    requires '\n' !in desc
    ensures '\n' !in Decimal(i) + ". " + desc
  {
    var line := Decimal(i) + ". " + desc;
    var d := Decimal(i);
    forall j | 0 <= j < |line| ensures line[j] != '\n' {
      if j < |d| {
        assert line[j] == d[j] && IsDigit(d[j]);
      } else if j >= |d| + 2 {
        assert line[j] == desc[j - |d| - 2];
      }
    }
  }

  /** When no description contains a newline, the list consists of exactly
      one newline-terminated line per description: number, ". ",
      description. */
  lemma CaptionListLines(descriptions: seq<string>)
    requires NoNewlines(descriptions)
    ensures SplitLines(CaptionList(descriptions)) == NumberedLines(descriptions)
  {
    var lines := NumberedLines(descriptions);
    CaptionListJoined(descriptions);
    NumberedLinesNoNewlines(descriptions);
    SplitJoinLines(lines);
  }

  /** Newline-free descriptions give newline-free numbered lines. */
  lemma NumberedLinesNoNewlines(descriptions: seq<string>)
    requires NoNewlines(descriptions)
    ensures NoNewlines(NumberedLines(descriptions))
  {
    var lines := NumberedLines(descriptions);
    forall i | 0 <= i < |lines| ensures '\n' !in lines[i] {
      NumberedLineNoNewline(i + 1, descriptions[i]);
    }
  }

  /** The caption list is its numbered lines, each with its newline. */
  lemma {:induction false} CaptionListJoined(descriptions: seq<string>)
    ensures CaptionList(descriptions) == JoinLines(NumberedLines(descriptions))
    decreases |descriptions|
  {
    var n := |descriptions|;
    if n > 0 {
      var init := descriptions[..n - 1];
      var line := Decimal(n) + ". " + descriptions[n - 1];
      CaptionListJoined(init);
      JoinLinesAppend(NumberedLines(init), line);
      assert NumberedLines(init) + [line] == NumberedLines(descriptions);
    } else {
      assert NumberedLines(descriptions) == [];
    }
  }

  /** Line `j` (1-based) of the list starts with the number `j`. */
  lemma CaptionListNumbering(descriptions: seq<string>, j: nat)
    requires NoNewlines(descriptions)
    requires j < |descriptions|
    ensures |SplitLines(CaptionList(descriptions))| == |descriptions|
    ensures LineNumber(SplitLines(CaptionList(descriptions))[j]) == j + 1
  {
    CaptionListLines(descriptions);
    NumberedLine(j + 1, descriptions[j]);
  }

  /** Regrouping a line with a newline inside into two lines. */
  lemma Regroup(prefix: string, first: string, newline: string, second: string)
    ensures prefix + (first + newline + second) + newline == (prefix + first + newline) + (second + newline)
    ensures prefix + first + newline + second + newline == prefix + ((first + newline) + (second + newline))
  {
  }

  /** Without the newline condition the line structure is lost: a last
      caption with a newline inside gives two lines, one more than there
      are descriptions, and the second carries no number. */
  lemma CaptionListMultiline(init: seq<string>, first: string, second: string)
    requires NoNewlines(init) && '\n' !in first && '\n' !in second
    ensures var descriptions := init + [first + "\n" + second];
            SplitLines(CaptionList(descriptions))
            == NumberedLines(init) + [Decimal(|init| + 1) + ". " + first] + [second]
  {
    var n := |init|;
    var line := Decimal(n + 1) + ". " + first;
    var numbered := NumberedLines(init);
    var lines := numbered + [line] + [second];
    MultilineJoined(init, first, second);
    NumberedLinesNoNewlines(init);
    MultilineNoNewlines(init, first, second);
    SplitJoinLines(lines);
  }

  /** The lines of the list with a two-line last caption hold no newline. */
  lemma MultilineNoNewlines(init: seq<string>, first: string, second: string)
    requires NoNewlines(init) && '\n' !in first && '\n' !in second
    ensures NoNewlines(NumberedLines(init) + [Decimal(|init| + 1) + ". " + first] + [second])
  {
    var n := |init|;
    var numbered := NumberedLines(init);
    var lines := numbered + [Decimal(n + 1) + ". " + first] + [second];
    NumberedLinesNoNewlines(init);
    forall i | 0 <= i < |lines| ensures '\n' !in lines[i] {
      if i == n { NumberedLineNoNewline(n + 1, first); }
      else if i < n { assert lines[i] == numbered[i]; }
    }
  }

  /** The list with a two-line last caption, as joined lines. */
  lemma MultilineJoined(init: seq<string>, first: string, second: string)
    ensures CaptionList(init + [first + "\n" + second])
            == JoinLines(NumberedLines(init) + [Decimal(|init| + 1) + ". " + first] + [second])
  {
    var n := |init|;
    var descriptions := init + [first + "\n" + second];
    var line := Decimal(n + 1) + ". " + first;
    var numbered := NumberedLines(init);
    var nl := "\n";
    assert descriptions[..n] == init && descriptions[n] == first + nl + second;
    CaptionListJoined(init);
    JoinLinesAppend(numbered, line);
    JoinLinesAppend(numbered + [line], second);
    calc {
      CaptionList(descriptions);
      CaptionList(init) + CaptionLine(n + 1, first + nl + second);
      JoinLines(numbered) + ((Decimal(n + 1) + ". ") + (first + nl + second) + nl);
      { Regroup(Decimal(n + 1) + ". ", first, nl, second); }
      JoinLines(numbered) + ((line + nl) + (second + nl));
      { Regroup(JoinLines(numbered), line, nl, second); }
      JoinLines(numbered) + line + nl + second + nl;
      JoinLines(numbered + [line] + [second]);
    }
  }

  /** Drops a leading "<digits>. " from a line. */
  function StripNumber(line: string): string {
    var k := LeadingDigits(line);
    if StartsWith(line[k..], ". ") then line[k + 2..] else line
  }

  /** Reads a caption list back into its descriptions. */
  function ParseCaptionList(s: string): seq<string> {
    var lines := SplitLines(s);
    seq(|lines|, i requires 0 <= i < |lines| => StripNumber(lines[i]))
  }

  /** The caption list loses nothing: newline-free descriptions are
      recovered exactly, in order. */
  lemma CaptionListRoundTrip(descriptions: seq<string>)
    requires NoNewlines(descriptions)
    ensures ParseCaptionList(CaptionList(descriptions)) == descriptions
  {
    CaptionListLines(descriptions);
    var lines := NumberedLines(descriptions);
    forall i | 0 <= i < |descriptions| ensures StripNumber(lines[i]) == descriptions[i] {
      NumberedLine(i + 1, descriptions[i]);
    }
  }
}
