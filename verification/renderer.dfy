/** `Renderer`: the output filename of a rendered video, taken from the first
    caption and made safe for a file system. Launching the renderer process
    is not modelled; only the name it is asked to write is. */
module Renderer {
  import opened Wrappers
  import opened Text
  import opened Json

  /** A sanitised title keeps at most this many characters. */
  const MAX_TITLE: nat := 50

  const UNTITLED: string := "untitled"

  /** The characters the pattern `[\\/:*?"<>|$]` deletes. */
  predicate IsForbidden(ch: char) {
    ch == '\\' || ch == '/' || ch == ':' || ch == '*' || ch == '?'
    || ch == '"' || ch == '<' || ch == '>' || ch == '|' || ch == '$'
  }

  predicate NoForbidden(s: string) {
    forall k | 0 <= k < |s| :: !IsForbidden(s[k])
  }

  predicate NoSpace(s: string) {
    forall k | 0 <= k < |s| :: !IsRegexSpace(s[k])
  }

  /** No character at or below the space other than the `\s` ones. */
  predicate NoControl(s: string) {
    forall k | 0 <= k < |s| :: !IsTrimmable(s[k]) || IsRegexSpace(s[k])
  }

  /** `replaceAll("[\\\\/:*?\"<>|$]", "")`. */
  function RemoveForbidden(s: string): (r: string)
    ensures |r| <= |s|
    ensures NoForbidden(r)
  {
    if |s| == 0 then ""
    else
      var rest := RemoveForbidden(s[1..]);
      if IsForbidden(s[0]) then rest else [s[0]] + rest
  }

  /** Deleting characters distributes over concatenation, so the result is
      the input with exactly the forbidden characters taken out, in order. */
  lemma {:induction false} RemoveForbiddenConcat(a: string, b: string)
    ensures RemoveForbidden(a + b) == RemoveForbidden(a) + RemoveForbidden(b)
    decreases |a|
  {
    if |a| == 0 {
      assert a + b == b;
    } else {
      assert (a + b)[0] == a[0];
      assert (a + b)[1..] == a[1..] + b;
      RemoveForbiddenConcat(a[1..], b);
      if !IsForbidden(a[0]) {
        SeqAssoc([a[0]], RemoveForbidden(a[1..]), RemoveForbidden(b));
      }
    }
  }

  lemma RemoveForbiddenOne(ch: char)
    ensures RemoveForbidden([ch]) == if IsForbidden(ch) then "" else [ch]
  {
  }

  /** Text with nothing forbidden passes unchanged, and deleting characters
      introduces no control character. */
  lemma {:induction false} RemoveForbiddenKeeps(s: string)
    ensures NoForbidden(s) ==> RemoveForbidden(s) == s
    ensures NoControl(s) ==> NoControl(RemoveForbidden(s))
    decreases |s|
  {
    if |s| > 0 {
      RemoveForbiddenKeeps(s[1..]);
      assert NoForbidden(s) ==> NoForbidden(s[1..]);
      assert NoControl(s) ==> NoControl(s[1..]);
    }
  }

  /** `replaceAll("\\s+", "_")` applied to the rest of a string; `inRun` says
      whether the text before it ended inside a run of `\s`, whose '_' is
      then already written. */
  function Collapse(s: string, inRun: bool): (r: string)
    ensures |r| <= |s|
    ensures NoSpace(r)
  {
    if |s| == 0 then ""
    else if IsRegexSpace(s[0]) then (if inRun then "" else "_") + Collapse(s[1..], true)
    else [s[0]] + Collapse(s[1..], false)
  }

  /** `replaceAll("\\s+", "_")`: every maximal run of `\s` becomes one '_'. */
  function CollapseSpace(s: string): (r: string)
    ensures |r| <= |s|
    ensures NoSpace(r)
  {
    Collapse(s, false)
  }

  /** Text without `\s` passes unchanged; the only character the collapse
      adds is '_', which is neither forbidden nor a control character. */
  lemma {:induction false} CollapseKeeps(s: string, inRun: bool)
    ensures NoSpace(s) ==> Collapse(s, inRun) == s
    ensures NoForbidden(s) ==> NoForbidden(Collapse(s, inRun))
    ensures NoControl(s) ==> forall k | 0 <= k < |Collapse(s, inRun)| :: !IsTrimmable(Collapse(s, inRun)[k])
    decreases |s|
  {
    if |s| > 0 {
      CollapseKeeps(s[1..], IsRegexSpace(s[0]));
      assert NoSpace(s) ==> NoSpace(s[1..]);
      assert NoForbidden(s) ==> NoForbidden(s[1..]);
      assert NoControl(s) ==> NoControl(s[1..]);
    }
  }

  /** The string `sanitizeForFilename` cuts to length: forbidden characters
      removed, then trimmed, then whitespace runs collapsed. */
  function Cleaned(input: string): string {
    CollapseSpace(Trim(RemoveForbidden(input)))
  }

  /** `sanitizeForFilename(input)`: the first 50 characters of the cleaned
      text, which holds no forbidden character and no `\s`. */
  function Sanitize(input: string): (r: string)
    ensures |r| <= MAX_TITLE && NoForbidden(r) && NoSpace(r)
  {
    var t := Trim(RemoveForbidden(input));
    TrimKeepsClass(RemoveForbidden(input));
    CollapseKeeps(t, false);
    var cleaned := CollapseSpace(t);
    if |cleaned| > MAX_TITLE then cleaned[..MAX_TITLE] else cleaned
  }

  /** The title is the cleaned text cut to its first 50 characters. */
  lemma SanitizeCuts(input: string)
    ensures var r := Sanitize(input);
      && |r| == Min(|Cleaned(input)|, MAX_TITLE)
      && r == Cleaned(input)[..|r|]
  {
  }

  /** Trimming takes a slice, so any property of every character survives. */
  lemma TrimKeepsClass(s: string)
    ensures NoForbidden(s) ==> NoForbidden(Trim(s))
    ensures NoControl(s) ==> NoControl(Trim(s))
  {
    var o := TrimOffset(s);
    assert forall k | 0 <= k < |Trim(s)| :: Trim(s)[k] == s[o + k];
  }

  /** A run of whitespace between two parts that do not touch it becomes
      exactly one '_' and nothing else changes. */
  lemma CollapseRun(a: string, w: string, b: string)
    requires |a| == 0 || !IsRegexSpace(a[|a| - 1])
    requires |w| > 0 && forall k | 0 <= k < |w| :: IsRegexSpace(w[k])
    requires |b| == 0 || !IsRegexSpace(b[0])
    ensures CollapseSpace(a + w + b) == CollapseSpace(a) + ("_" + CollapseSpace(b))
  {
    RunBetween(a, w, b, false);
  }

  lemma {:induction false} RunBetween(a: string, w: string, b: string, inRun: bool)
    requires |a| == 0 ==> !inRun
    requires |a| == 0 || !IsRegexSpace(a[|a| - 1])
    requires |w| > 0 && forall k | 0 <= k < |w| :: IsRegexSpace(w[k])
    requires |b| == 0 || !IsRegexSpace(b[0])
    ensures Collapse(a + w + b, inRun) == Collapse(a, inRun) + ("_" + Collapse(b, false))
    decreases |a|
  {
    if |a| == 0 {
      assert a + w + b == w + b;
      assert (w + b)[1..] == w[1..] + b;
      RunAbsorbed(w[1..], b);
    } else {
      var head := if IsRegexSpace(a[0]) then (if inRun then "" else "_") else [a[0]];
      var tail := "_" + Collapse(b, false);
      assert (a + w + b)[0] == a[0];
      assert (a + w + b)[1..] == a[1..] + w + b;
      RunBetween(a[1..], w, b, IsRegexSpace(a[0]));
      assert Collapse(a + w + b, inRun) == head + (Collapse(a[1..], IsRegexSpace(a[0])) + tail);
      assert Collapse(a, inRun) == head + Collapse(a[1..], IsRegexSpace(a[0]));
      SeqAssoc(head, Collapse(a[1..], IsRegexSpace(a[0])), tail);
    }
  }

  /** Inside a run further `\s` add nothing, and the run ends before a
      character that is not `\s`. */
  lemma {:induction false} RunAbsorbed(w: string, b: string)
    requires forall k | 0 <= k < |w| :: IsRegexSpace(w[k])
    requires |b| == 0 || !IsRegexSpace(b[0])
    ensures Collapse(w + b, true) == Collapse(b, false)
    decreases |w|
  {
    if |w| > 0 {
      assert (w + b)[1..] == w[1..] + b;
      RunAbsorbed(w[1..], b);
    } else if |b| > 0 {
      assert w + b == b;
      assert Collapse(b, true) == [b[0]] + Collapse(b[1..], false);
    } else {
      assert w + b == b;
    }
  }

  /** Sanitising twice is sanitising once, for titles whose only control
      characters are `\s` ones. */
  lemma SanitizeIdempotent(input: string)
    requires NoControl(input)
    ensures Sanitize(Sanitize(input)) == Sanitize(input)
  {
    SanitizeVisible(input);
    SanitizeFixes(Sanitize(input));
  }

  /** Without control characters other than `\s`, the title holds no
      trimmable character at all. */
  lemma SanitizeVisible(input: string)
    requires NoControl(input)
    ensures forall k | 0 <= k < |Sanitize(input)| :: !IsTrimmable(Sanitize(input)[k])
  {
    var removed := RemoveForbidden(input);
    RemoveForbiddenKeeps(input);
    TrimKeepsClass(removed);
    CollapseKeeps(Trim(removed), false);
    SanitizeCuts(input);
  }

  /** A short text with no forbidden, trimmable or `\s` character is its own
      sanitised form. */
  lemma SanitizeFixes(r: string)
    requires |r| <= MAX_TITLE && NoForbidden(r) && NoSpace(r)
    requires forall k | 0 <= k < |r| :: !IsTrimmable(r[k])
    ensures Sanitize(r) == r
  {
    RemoveForbiddenKeeps(r);
    TrimKeeps(r);
    CollapseKeeps(r, false);
  }

  /** The caption text: the first caption's "text", or "untitled" when there
      is no caption or the member is absent or null. `new JSONArray(..)`
      and `getJSONObject(0)` throw a runtime exception that the method
      does not catch. */
  function FirstCaption(doc: Result<Json, string>): (r: Result<string, JsonError>)
    ensures doc == Ok(JArr([])) ==> r == Ok(UNTITLED)
    ensures doc.Ok? && doc.value.JArr? && |doc.value.items| > 0 && doc.value.items[0].JObj? ==>
      r == Ok(OptString(doc.value.items[0].members, "text", UNTITLED))
    ensures r.Err? ==> doc.Err? || !doc.value.JArr? || !doc.value.items[0].JObj?
  {
    if doc.Err? then Err(Unparsable(doc.error))
    else if !doc.value.JArr? then Err(NotAnArrayText)
    else
      var items := doc.value.items;
      if |items| == 0 then Ok(UNTITLED)
      else
        match GetObject(items, 0)
        case Ok(first) => Ok(OptString(first, "text", UNTITLED))
        case Err(e) => Err(e)
  }

  /** The output file name: the sanitised caption, "untitled" when that is
      empty, followed by ".mp4". */
  function OutputFilename(caption: string): (r: string)
    ensures IsMp4(r)
    ensures 5 <= |r| <= MAX_TITLE + 4
    ensures NoForbidden(r) && NoSpace(r)
    ensures r[..|r| - 4] == if Sanitize(caption) == "" then UNTITLED else Sanitize(caption)
  {
    var safe := Sanitize(caption);
    UntitledIsClean();
    var stem := if safe == "" then UNTITLED else safe;
    WithExtension(stem);
    stem + ".mp4"
  }

  /** The fallback stem is a clean name of eight characters. */
  lemma UntitledIsClean()
    ensures |UNTITLED| == 8 && NoForbidden(UNTITLED) && NoSpace(UNTITLED)
  {
    assert forall i | 0 <= i < |UNTITLED| :: 'a' <= UNTITLED[i] <= 'z';
  }

  /** Appending ".mp4" to a clean stem gives a clean `.mp4` name that
      starts with the stem. */
  lemma WithExtension(stem: string)
    requires NoForbidden(stem) && NoSpace(stem)
    ensures IsMp4(stem + ".mp4") && (stem + ".mp4")[..|stem|] == stem
    ensures NoForbidden(stem + ".mp4") && NoSpace(stem + ".mp4")
  {
    CleanConcat(stem, ".mp4");
    assert (stem + ".mp4")[|stem|..] == ".mp4";
  }

  lemma CleanConcat(a: string, b: string)
    requires NoForbidden(a) && NoSpace(a) && NoForbidden(b) && NoSpace(b)
    ensures NoForbidden(a + b) && NoSpace(a + b)
  {
    assert forall k | |a| <= k < |a + b| :: (a + b)[k] == b[k - |a|];
  }

  /** What `renderFinalVideo` does with the captions file: reading it may
      fail (caught, nothing rendered), the JSON accessors may throw (not
      caught), or it names the file to render. */
  datatype Render = ReadFailed | Threw(error: JsonError) | Rendered(filename: string)

  function RenderFinalVideo(captions: Option<Result<Json, string>>): (r: Render)
    ensures captions.None? <==> r == ReadFailed
    ensures r.Threw? <==> captions.Some? && AccessorThrows(captions.value)
    ensures r.Rendered? ==>
      IsMp4(r.filename) && |r.filename| <= MAX_TITLE + 4 && NoForbidden(r.filename) && NoSpace(r.filename)
    ensures captions == Some(Ok(JArr([]))) ==> r == Rendered(UNTITLED + ".mp4")
    ensures captions.Some? && FirstIsObject(captions.value) ==>
      var text := OptString(captions.value.value.items[0].members, "text", UNTITLED);
      && r.Rendered?
      && r.filename[..|r.filename| - 4] == (if Sanitize(text) == "" then UNTITLED else Sanitize(text))
  {
    match captions
    case None => ReadFailed
    case Some(doc) =>
      match FirstCaption(doc)
      case Ok(caption) =>
        UntitledFilename();
        Rendered(OutputFilename(caption))
      case Err(e) => Threw(e)
  }

  /** The captions parse to an array whose first item is an object. */
  predicate FirstIsObject(doc: Result<Json, string>) {
    doc.Ok? && doc.value.JArr? && |doc.value.items| > 0 && doc.value.items[0].JObj?
  }

  /** The accessors of `renderFinalVideo` throw: the text does not parse,
      is not an array, or its first item is not an object. */
  predicate AccessorThrows(doc: Result<Json, string>) {
    || doc.Err?
    || !doc.value.JArr?
    || (|doc.value.items| > 0 && !doc.value.items[0].JObj?)
  }

  /** With no caption the video is rendered to "untitled.mp4". */
  lemma UntitledFilename()
    ensures OutputFilename(UNTITLED) == UNTITLED + ".mp4"
  {
    UntitledSanitized();
    CleanFilename(UNTITLED);
  }

  /** A non-empty stem the sanitiser leaves alone is used as it is. */
  lemma CleanFilename(stem: string)
    requires stem != "" && Sanitize(stem) == stem
    ensures OutputFilename(stem) == stem + ".mp4"
  {
    var r := OutputFilename(stem);
    assert r[..|r| - 4] == stem;
    assert r[|r| - 4..] == ".mp4";
    assert r == r[..|r| - 4] + r[|r| - 4..];
  }

  /** The default title passes the sanitiser unchanged. */
  lemma UntitledSanitized()
    ensures Sanitize(UNTITLED) == UNTITLED
  {
    UntitledIsClean();
    assert forall k | 0 <= k < |UNTITLED| :: !IsTrimmable(UNTITLED[k]);
    SanitizeFixes(UNTITLED);
  }
}
