/** `Builder`: the command line of the video builder. It reads the channel
    (or "all") and a repeat count, picks the channels, reads each channel's
    upload history once, and asks for that many videos per channel, each
    from a prompt that carries the history. Producing a video (script,
    voice, background, captions, rendering) is outside this model: a run is
    described by the sequence of requests it makes. */
module Builder {
  import opened Wrappers
  import opened Text
  import Ledger

  /** The repeat count used when the second argument is not an integer. */
  const DEFAULT_REPEAT: int := 3

  /** The channels of the builder's own configuration, each with its base
      prompt, and the order in which "all" visits them (the order of the
      key set, which Java leaves unspecified). The prompt texts themselves
      are configuration data and stay abstract. */
  datatype Config = Config(order: seq<string>, prompts: map<string, string>)

  /** The key set lists every configured channel exactly once. */
  predicate ValidConfig(cfg: Config) {
    && (forall i, j | 0 <= i < j < |cfg.order| :: cfg.order[i] != cfg.order[j])
    && (forall c | c in cfg.prompts :: c in cfg.order)
    && (forall c | c in cfg.order :: c in cfg.prompts)
  }

  /** What one run of `main` amounts to: the usage message, the unknown
      channel message, or the videos it asked for. */
  datatype Outcome = Usage | UnknownChannel(name: string) | Generated(calls: seq<Call>)

  /** One `generateVid(prompt, channel)`. */
  datatype Call = Call(channel: string, prompt: string)

  /** The upload history file of one channel as the builder finds it. */
  datatype HistoryFile = Missing | Unreadable | Present(lines: seq<string>)

  /** The repeat count: the trimmed second argument as a 32-bit integer, or
      3 when `Integer.parseInt` throws. */
  function RepeatCount(arg: string): (r: int)
    ensures INT_MIN <= r <= INT_MAX
    ensures ParseInt(Trim(arg)).None? ==> r == DEFAULT_REPEAT
  {
    match ParseInt(Trim(arg))
    case Some(n) => n
    case None => DEFAULT_REPEAT
  }

  /** The channels a run visits, or the unknown name. "all" is matched
      ignoring case and selects every configured channel; any other name
      must be a configured channel, matched exactly. */
  function Selection(cfg: Config, arg: string): (r: Result<seq<string>, string>)
    requires ValidConfig(cfg)
    ensures r.Err? <==> !EqualsIgnoreCase(arg, "all") && arg !in cfg.prompts
    ensures r.Err? ==> r.error == arg
    ensures r.Ok? ==> Configured(cfg, r.value)
    ensures r.Ok? ==> forall i, j | 0 <= i < j < |r.value| :: r.value[i] != r.value[j]
    ensures r.Ok? && !EqualsIgnoreCase(arg, "all") ==> r.value == [arg]
    ensures r.Ok? && EqualsIgnoreCase(arg, "all") ==> forall c | c in cfg.prompts :: c in r.value
  {
    if EqualsIgnoreCase(arg, "all") then Ok(cfg.order)
    else if arg in cfg.prompts then Ok([arg])
    else Err(arg)
  }

  /** `readUploadHistory`: the lines joined with "\n", or "" when the file
      is missing or cannot be read. */
  function ReadUploadHistory(f: HistoryFile): (r: string)
    ensures !f.Present? ==> r == ""
  {
    match f
    case Present(lines) => Join(lines, "\n")
    case _ => ""
  }

  /** The fixed text of `buildPrompt` around the history: what comes before
      it and what comes between it and the base prompt. */
  datatype Template = Template(head: string, middle: string)

  /** The text block of `buildPrompt`. The closing delimiter sits at the
      common indentation, so every line loses exactly that indentation; the
      trailing space after "This will be" is stripped, as Java strips it
      from every line of a text block; every line ends with "\n". */
  const PROMPT: Template := Template(
    "Also, remember not to include any links or usernames. This will be\n"
    + "read aloud by a text-to-speech voice, so use natural, spoken English.\n"
    + "\n"
    + "Also, viewer retention is key, so keep it engaging and concise.\n"
    + "\n"
    + "Reminder: ****** NO links, usernames, or external references. ******\n"
    + "think everything is going to be read aloud, so links would not make sense. DO NOT INCLUDE SOURCES, LINKS, OR USERNAMES.\n"
    + "Do not include any personal information, usernames, or links to external sites. doing so could get you shut down by YouTube.\n"
    + "Use proper grammar, punctuation, and capitalization.\n"
    + "\n"
    + "Previously uploaded videos (timestamp, filename):\n",
    "\n\n\nNow generate a *new* story\U{2014}do NOT repeat any of the above.\n")

  /** `buildPrompt(base, history)` with the text block `t`: the base prompt
      alone when the history is blank, otherwise the head, the history, the
      instruction not to repeat it, the base prompt and a final line break. */
  function BuildPrompt(t: Template, base: string, history: string): (r: string)
    ensures IsBlank(history) ==> r == base
    ensures !IsBlank(history) ==>
      && |r| == |t.head| + |history| + |t.middle| + |base| + 1
      && r[..|t.head|] == t.head
      && r[|t.head|..|t.head| + |history|] == history
      && r[|r| - 1 - |base|..|r| - 1] == base
      && r[|r| - 1] == '\n'
  {
    if IsBlank(history) then base
    else
      var r := t.head + history + t.middle + base + "\n";
      assert r[..|t.head|] == t.head;
      assert r[|t.head|..|t.head| + |history|] == history;
      assert r[|r| - 1 - |base|..|r| - 1] == base;
      r
  }

  /** The prompt every video of channel `c` is built from: the history is
      read once per channel, before its videos. */
  function PromptFor(t: Template, cfg: Config, files: map<string, HistoryFile>, c: string): string
    requires c in cfg.prompts
  {
    var f := if c in files then files[c] else Missing;
    BuildPrompt(t, cfg.prompts[c], ReadUploadHistory(f))
  }

  /** `n` copies of one request; none when `n` is not positive. */
  function Repeat(call: Call, n: int): (r: seq<Call>)
    ensures |r| == Max(n, 0)
    ensures forall k | 0 <= k < |r| :: r[k] == call
  {
    seq(Max(n, 0), _ => call)
  }

  /** Every channel in `chs` has a prompt. */
  predicate Configured(cfg: Config, chs: seq<string>) {
    forall k | 0 <= k < |chs| :: chs[k] in cfg.prompts
  }

  /** The requests of the loop over `chs`, channel by channel. */
  function Calls(t: Template, cfg: Config, files: map<string, HistoryFile>, chs: seq<string>, n: int): seq<Call>
    requires Configured(cfg, chs)
  {
    if |chs| == 0 then []
    else
      var last := chs[|chs| - 1];
      Calls(t, cfg, files, chs[..|chs| - 1], n) + Repeat(Call(last, PromptFor(t, cfg, files, last)), n)
  }

  /** `main(args)`, with the text block of `buildPrompt` as written. */
  function Run(cfg: Config, files: map<string, HistoryFile>, args: seq<string>): Outcome
    requires ValidConfig(cfg)
  {
    RunWith(PROMPT, cfg, files, args)
  }

  /** `main(args)` for the text block `t`: the usage message with fewer than
      two arguments, the unknown-channel message for a name that is neither
      "all" nor configured, and otherwise the requests of the loop. */
  function RunWith(t: Template, cfg: Config, files: map<string, HistoryFile>, args: seq<string>): (r: Outcome)
    requires ValidConfig(cfg)
    ensures |args| < 2 <==> r == Usage
    ensures r.UnknownChannel? <==>
      2 <= |args| && !EqualsIgnoreCase(Trim(args[0]), "all") && Trim(args[0]) !in cfg.prompts
    ensures r.UnknownChannel? ==> r.name == Trim(args[0])
  {
    if |args| < 2 then Usage
    else
      var channelArg := Trim(args[0]);
      var n := RepeatCount(args[1]);
      match Selection(cfg, channelArg)
      case Err(name) => UnknownChannel(name)
      case Ok(chs) => Generated(Calls(t, cfg, files, chs, n))
  }

  lemma RunWithUnfold(t: Template, cfg: Config, files: map<string, HistoryFile>, args: seq<string>)
    requires ValidConfig(cfg) && 2 <= |args|
    requires Selection(cfg, Trim(args[0])).Ok?
    ensures RunWith(t, cfg, files, args)
      == Generated(Calls(t, cfg, files, Selection(cfg, Trim(args[0])).value, RepeatCount(args[1])))
  {
  }

  /** A run with a known channel (or "all") asks for the repeat count of
      videos of each selected channel, in selection order. */
  lemma RunGenerates(t: Template, cfg: Config, files: map<string, HistoryFile>, args: seq<string>, c: string)
    requires ValidConfig(cfg) && 2 <= |args|
    requires EqualsIgnoreCase(Trim(args[0]), "all") || Trim(args[0]) in cfg.prompts
    ensures RunWith(t, cfg, files, args).Generated?
    ensures var calls := RunWith(t, cfg, files, args).calls;
      var all := EqualsIgnoreCase(Trim(args[0]), "all");
      var selected := if all then c in cfg.prompts else c == Trim(args[0]);
      && Requests(calls, c) == (if selected then Max(RepeatCount(args[1]), 0) else 0)
      && |calls| == (if all then |cfg.order| else 1) * Max(RepeatCount(args[1]), 0)
      && forall k | 0 <= k < |calls| ::
           calls[k].channel in cfg.prompts && calls[k].prompt == PromptFor(t, cfg, files, calls[k].channel)
  {
    var chs := Selection(cfg, Trim(args[0])).value;
    var n := RepeatCount(args[1]);
    CallsPerChannel(t, cfg, files, chs, n, c);
    CallsCount(t, cfg, files, chs, n);
    CallsPrompts(t, cfg, files, chs, n);
  }

  /** The loop of `main` over the selected channels, as written: read the
      channel's history once, then ask for its `n` videos. */
  method Generate(t: Template, cfg: Config, files: map<string, HistoryFile>, chs: seq<string>, n: int)
    returns (calls: seq<Call>)
    requires Configured(cfg, chs)
    ensures calls == Calls(t, cfg, files, chs, n)
  {
    calls := [];
    var i := 0;
    while i < |chs|
      invariant 0 <= i <= |chs|
      invariant calls == Calls(t, cfg, files, chs[..i], n)
    {
      var c := chs[i];
      var f := if c in files then files[c] else Missing;
      var batch := Batch(t, cfg.prompts[c], c, ReadUploadHistory(f), n);
      CallsStep(t, cfg, files, chs, i, n);
      calls := calls + batch;
      i := i + 1;
    }
    assert chs[..|chs|] == chs;
  }

  lemma CallsStep(t: Template, cfg: Config, files: map<string, HistoryFile>, chs: seq<string>, i: nat, n: int)
    requires Configured(cfg, chs)
    requires i < |chs|
    ensures Configured(cfg, chs[..i])
    ensures Calls(t, cfg, files, chs[..i + 1], n)
      == Calls(t, cfg, files, chs[..i], n) + Repeat(Call(chs[i], PromptFor(t, cfg, files, chs[i])), n)
  {
    assert chs[..i + 1][..i] == chs[..i];
  }

  /** The inner loop: `n` times `generateVid(buildPrompt(base, history), c)`. */
  method Batch(t: Template, base: string, c: string, history: string, n: int) returns (batch: seq<Call>)
    ensures batch == Repeat(Call(c, BuildPrompt(t, base, history)), n)
  {
    batch := [];
    var j := 0;
    while j < n
      invariant 0 <= j <= Max(n, 0)
      invariant batch == Repeat(Call(c, BuildPrompt(t, base, history)), j)
    {
      batch := batch + [Call(c, BuildPrompt(t, base, history))];
      j := j + 1;
    }
  }

  /** A run asks for `n` videos per selected channel. */
  lemma {:induction false} CallsCount(t: Template, cfg: Config, files: map<string, HistoryFile>, chs: seq<string>, n: int)
    requires Configured(cfg, chs)
    ensures |Calls(t, cfg, files, chs, n)| == |chs| * Max(n, 0)
    decreases |chs|
  {
    if |chs| > 0 {
      var init := chs[..|chs| - 1];
      CallsCount(t, cfg, files, init, n);
      MulSucc(|init|, Max(n, 0));
    }
  }

  /** Every request is for a selected channel and carries that channel's
      prompt. */
  lemma {:induction false} CallsPrompts(t: Template, cfg: Config, files: map<string, HistoryFile>, chs: seq<string>, n: int)
    requires Configured(cfg, chs)
    ensures forall k | 0 <= k < |Calls(t, cfg, files, chs, n)| ::
      var call := Calls(t, cfg, files, chs, n)[k];
      call.channel in chs && call.prompt == PromptFor(t, cfg, files, call.channel)
    decreases |chs|
  {
    if |chs| > 0 {
      var init := chs[..|chs| - 1];
      var last := chs[|chs| - 1];
      CallsPrompts(t, cfg, files, init, n);
      var front := Calls(t, cfg, files, init, n);
      var block := Repeat(Call(last, PromptFor(t, cfg, files, last)), n);
      assert Calls(t, cfg, files, chs, n) == front + block;
      assert forall k | 0 <= k < |front| :: (front + block)[k] == front[k];
      assert forall k | |front| <= k < |front + block| :: (front + block)[k] == block[k - |front|];
    }
  }

  /** With no channel listed twice, each selected channel gets exactly `n`
      requests and every other channel none. */
  lemma {:induction false} CallsPerChannel(t: Template, cfg: Config, files: map<string, HistoryFile>, chs: seq<string>, n: int, c: string)
    requires Configured(cfg, chs)
    requires forall i, j | 0 <= i < j < |chs| :: chs[i] != chs[j]
    ensures Requests(Calls(t, cfg, files, chs, n), c) == if c in chs then Max(n, 0) else 0
    decreases |chs|
  {
    if |chs| > 0 {
      var init := chs[..|chs| - 1];
      var last := chs[|chs| - 1];
      CallsPerChannel(t, cfg, files, init, n, c);
      var block := Repeat(Call(last, PromptFor(t, cfg, files, last)), n);
      RequestsConcat(Calls(t, cfg, files, init, n), block, c);
      RequestsRepeat(Call(last, PromptFor(t, cfg, files, last)), n, c);
      assert c in chs <==> c in init || c == last;
      assert last !in init by {
        assert forall i | 0 <= i < |init| :: init[i] == chs[i];
      }
    }
  }

  lemma MulSucc(a: nat, m: int)
    ensures (a + 1) * m == a * m + m
  {
  }

  /** How many requests in `calls` are for channel `c`. */
  function Requests(calls: seq<Call>, c: string): nat {
    if |calls| == 0 then 0
    else Requests(calls[..|calls| - 1], c) + (if calls[|calls| - 1].channel == c then 1 else 0)
  }

  lemma {:induction false} RequestsConcat(a: seq<Call>, b: seq<Call>, c: string)
    ensures Requests(a + b, c) == Requests(a, c) + Requests(b, c)
    decreases |b|
  {
    if |b| == 0 {
      assert a + b == a;
    } else {
      assert (a + b)[..|a + b| - 1] == a + b[..|b| - 1];
      RequestsConcat(a, b[..|b| - 1], c);
    }
  }

  lemma {:induction false} RequestsRepeat(call: Call, n: int, c: string)
    ensures Requests(Repeat(call, n), c) == if call.channel == c then Max(n, 0) else 0
    decreases Max(n, 0)
  {
    if n > 0 {
      assert Repeat(call, n)[..n - 1] == Repeat(call, n - 1);
      RequestsRepeat(call, n - 1, c);
    }
  }

  /** A well-formed integer argument, with or without surrounding blanks, is
      the repeat count. */
  lemma RepeatCountReads(n: int, pad: string)
    requires INT_MIN <= n <= INT_MAX
    requires forall k | 0 <= k < |pad| :: IsTrimmable(pad[k])
    ensures RepeatCount(pad + DecimalText(n) + pad) == n
  {
    var text := DecimalText(n);
    ParseIntRoundTrip(n);
    TrimPadded(pad, text);
  }

  /** A missing or unreadable history, or one with no visible text, leaves
      the base prompt untouched. */
  lemma NoHistoryPlainPrompt(t: Template, cfg: Config, files: map<string, HistoryFile>, c: string)
    requires c in cfg.prompts
    requires c !in files || !files[c].Present? || forall i | 0 <= i < |files[c].lines| :: files[c].lines[i] == ""
    ensures PromptFor(t, cfg, files, c) == cfg.prompts[c]
  {
    var f := if c in files then files[c] else Missing;
    if f.Present? {
      JoinEmptyLines(f.lines);
    }
  }

  lemma {:induction false} JoinEmptyLines(lines: seq<string>)
    requires forall i | 0 <= i < |lines| :: lines[i] == ""
    ensures IsBlank(Join(lines, "\n"))
    decreases |lines|
  {
    if |lines| > 1 {
      JoinEmptyLines(lines[1..]);
      var rest := Join(lines[1..], "\n");
      assert Join(lines, "\n") == "\n" + rest;
      assert forall k | 1 <= k < |"\n" + rest| :: ("\n" + rest)[k] == rest[k - 1];
    }
  }

  /** Where line `k` starts in the joined history. */
  function LineStart(lines: seq<string>, k: nat): nat
    requires k <= |lines|
  {
    if k == 0 then 0 else LineStart(lines, k - 1) + |lines[k - 1]| + 1
  }

  /** Every line of the history appears whole in the joined text, at
      `LineStart`. */
  lemma {:induction false} JoinShowsLine(lines: seq<string>, k: nat)
    requires k < |lines|
    ensures OccursAt(Join(lines, "\n"), LineStart(lines, k), lines[k])
    decreases |lines|
  {
    var j := Join(lines, "\n");
    if |lines| == 1 {
    } else {
      var rest := Join(lines[1..], "\n");
      assert j == lines[0] + "\n" + rest;
      if k == 0 {
        assert j[..|lines[0]|] == lines[0];
      } else {
        JoinShowsLine(lines[1..], k - 1);
        LineStartShift(lines, k);
        var o := LineStart(lines[1..], k - 1);
        assert j[|lines[0]| + 1 + o..|lines[0]| + 1 + o + |lines[k]|] == rest[o..o + |lines[k]|];
      }
    }
  }

  lemma {:induction false} LineStartShift(lines: seq<string>, k: nat)
    requires 0 < k <= |lines|
    ensures LineStart(lines, k) == |lines[0]| + 1 + LineStart(lines[1..], k - 1)
    decreases k
  {
    if k > 1 {
      LineStartShift(lines, k - 1);
      assert lines[1..][k - 2] == lines[k - 1];
    }
  }

  /** The prompt of a channel with a history shows every line of it, so the
      model is told each earlier upload. */
  lemma PromptShowsHistory(t: Template, cfg: Config, files: map<string, HistoryFile>, c: string, k: nat)
    requires c in cfg.prompts && c in files && files[c].Present?
    requires k < |files[c].lines|
    requires !IsBlank(Join(files[c].lines, "\n"))
    ensures OccursAt(PromptFor(t, cfg, files, c), |t.head| + LineStart(files[c].lines, k), files[c].lines[k])
  {
    var lines := files[c].lines;
    assert PromptFor(t, cfg, files, c) == BuildPrompt(t, cfg.prompts[c], Join(lines, "\n"));
    PromptShowsLine(t, cfg.prompts[c], lines, k);
  }

  lemma PromptShowsLine(t: Template, base: string, lines: seq<string>, k: nat)
    requires k < |lines| && !IsBlank(Join(lines, "\n"))
    ensures OccursAt(BuildPrompt(t, base, Join(lines, "\n")), |t.head| + LineStart(lines, k), lines[k])
  {
    JoinShowsLine(lines, k);
    PromptShowsSlice(t, base, Join(lines, "\n"), LineStart(lines, k), lines[k]);
  }

  /** Whatever appears in a non-blank history appears in the prompt,
      shifted by the length of the head. */
  lemma PromptShowsSlice(t: Template, base: string, history: string, o: nat, piece: string)
    requires !IsBlank(history) && OccursAt(history, o, piece)
    ensures OccursAt(BuildPrompt(t, base, history), |t.head| + o, piece)
  {
    SliceOfSlice(BuildPrompt(t, base, history), |t.head|, history, o, |piece|);
  }

  /** A slice of a slice is a slice. */
  lemma SliceOfSlice(p: string, a: nat, h: string, o: nat, n: nat)
    requires a + |h| <= |p| && p[a..a + |h|] == h
    requires o + n <= |h|
    ensures p[a + o..a + o + n] == h[o..o + n]
  {
    assert forall i | 0 <= i < |h| :: h[i] == p[a + i];
  }

  /** After an upload is recorded, the history the builder reads ends with
      that record. */
  lemma HistoryEndsWithRecord(h: Ledger.History, slot: int, name: string)
    ensures var text := ReadUploadHistory(Present(Ledger.Lines(Ledger.Append(h, Ledger.Record(slot, name)))));
      EndsWith(text, Ledger.Record(slot, name))
  {
    var record := Ledger.Record(slot, name);
    var lines := Ledger.Lines(h) + [record];
    assert Ledger.Lines(Ledger.Append(h, record)) == lines;
    assert ReadUploadHistory(Present(lines)) == Join(lines, "\n");
    var last := |lines| - 1;
    assert lines[last] == record;
    JoinShowsLine(lines, last);
    JoinLength(lines, last);
    OccursAtEnd(Join(lines, "\n"), LineStart(lines, last), record);
  }

  /** The last line of a join ends the text. */
  lemma {:induction false} JoinLength(lines: seq<string>, k: nat)
    requires k == |lines| - 1
    ensures |Join(lines, "\n")| == LineStart(lines, k) + |lines[k]|
    decreases |lines|
  {
    if |lines| > 1 {
      JoinLength(lines[1..], k - 1);
      LineStartShift(lines, k);
    }
  }
}
