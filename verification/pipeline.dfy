/** How the two programs meet: the manager's pre-fill starts the builder,
    the builder renders into the channel's pending directory, and the
    manager later publishes the file under a title taken from its name. */
module Pipeline {
  import opened Wrappers
  import opened Text
  import Pending
  import Scheduler
  import Coordinator
  import Renderer
  import Builder

  /** The pre-fill job asks the builder for exactly three videos of the
      channel, all from that channel's prompt. */
  lemma PrefillAsksForThree(t: Builder.Template, cfg: Builder.Config, files: map<string, Builder.HistoryFile>, c: string)
    requires Builder.ValidConfig(cfg)
    requires c in cfg.prompts && Trim(c) == c && !EqualsIgnoreCase(c, "all")
    ensures Builder.RunWith(t, cfg, files, Coordinator.PrefillJob(c))
      == Builder.Generated(Builder.Repeat(Builder.Call(c, Builder.PromptFor(t, cfg, files, c)), 3))
  {
    var args := Coordinator.PrefillJob(c);
    assert args[0] == c && args[1] == Coordinator.PREFILL_COUNT;
    PrefillCount();
    assert Builder.Selection(cfg, c) == Ok([c]);
    Builder.RunWithUnfold(t, cfg, files, args);
    CallsOfOne(t, cfg, files, c, 3);
  }

  /** The pre-fill's count argument reads as 3. */
  lemma PrefillCount()
    ensures Builder.RepeatCount(Coordinator.PREFILL_COUNT) == 3
  {
    ThreeParses();
    TrimKeeps("3");
  }

  lemma ThreeParses()
    ensures ParseInt("3") == Some(3)
  {
    assert AllDigits("3");
    assert "3"[..0] == "";
    assert DigitsValue("3") == 3;
  }

  lemma CallsOfOne(t: Builder.Template, cfg: Builder.Config, files: map<string, Builder.HistoryFile>, c: string, n: int)
    requires c in cfg.prompts
    ensures Builder.Calls(t, cfg, files, [c], n) == Builder.Repeat(Builder.Call(c, Builder.PromptFor(t, cfg, files, c)), n)
  {
    assert [c][..0] == [];
  }

  /** Whatever the caption, the rendered file carries the ".mp4" suffix, so
      once it lands in the pending directory the scheduler queues it. */
  lemma RenderedFileIsQueued(listing: seq<string>, caption: string)
    ensures Renderer.OutputFilename(caption) in Pending.Queue(listing + [Renderer.OutputFilename(caption)])
  {
  }

  /** A caption the sanitiser leaves readable: at most 50 characters, no
      forbidden character and no '_', single spaces between words and no
      other blank or control character. */
  predicate PlainCaption(caption: string) {
    && 0 < |caption| <= Renderer.MAX_TITLE
    && caption[0] != ' ' && caption[|caption| - 1] != ' '
    && (forall k | 0 <= k < |caption| :: !Renderer.IsForbidden(caption[k]) && caption[k] != '_')
    && (forall k | 0 <= k < |caption| :: caption[k] == ' ' || !IsTrimmable(caption[k]))
    && (forall k | 0 <= k < |caption| - 1 :: caption[k] != ' ' || caption[k + 1] != ' ')
  }

  /** The title the uploader publishes for a rendered video is the caption
      it was named after: the renderer turns spaces into '_' and adds
      ".mp4", and the uploader takes both back. */
  lemma TitleRoundTrip(caption: string)
    requires PlainCaption(caption)
    ensures Scheduler.Title(Renderer.OutputFilename(caption)) == caption
  {
    var under := ReplaceChar(caption, ' ', '_');
    SanitizePlain(caption);
    var name := Renderer.OutputFilename(caption);
    assert name[..|name| - 4] == under;
    assert ReplaceChar(under, '_', ' ') == caption;
  }

  /** A plain caption is sanitised by turning its spaces into '_'. */
  lemma SanitizePlain(caption: string)
    requires PlainCaption(caption)
    ensures Renderer.Sanitize(caption) == ReplaceChar(caption, ' ', '_')
  {
    var under := ReplaceChar(caption, ' ', '_');
    PlainCleaned(caption);
    Renderer.SanitizeCuts(caption);
    assert under[..|under|] == under;
  }

  /** Removing forbidden characters and trimming leave a plain caption as
      it is, so the cleaned text is the caption with '_' for each space. */
  lemma PlainCleaned(caption: string)
    requires PlainCaption(caption)
    ensures Renderer.Cleaned(caption) == ReplaceChar(caption, ' ', '_')
    ensures |Renderer.Cleaned(caption)| <= Renderer.MAX_TITLE
  {
    assert Renderer.RemoveForbidden(caption) == caption by {
      assert Renderer.NoForbidden(caption);
      Renderer.RemoveForbiddenKeeps(caption);
    }
    assert Trim(caption) == caption by {
      assert !IsTrimmable(caption[0]) && !IsTrimmable(caption[|caption| - 1]);
      TrimKeeps(caption);
    }
    assert Renderer.Cleaned(caption) == Renderer.Collapse(caption, false);
    SingleSpacesBecomeUnderscores(caption);
  }

  /** On a text whose only blanks are single spaces, collapsing runs is
      replacing each space by '_'. */
  lemma {:induction false} SingleSpacesBecomeUnderscores(s: string)
    requires forall k | 0 <= k < |s| :: s[k] == ' ' || !IsTrimmable(s[k])
    requires forall k | 0 <= k < |s| - 1 :: s[k] != ' ' || s[k + 1] != ' '
    ensures Renderer.Collapse(s, false) == ReplaceChar(s, ' ', '_')
    decreases |s|
  {
    if |s| > 0 {
      var rest := s[1..];
      assert forall k | 0 <= k < |rest| :: rest[k] == s[k + 1];
      SingleSpacesBecomeUnderscores(rest);
      if s[0] == ' ' && |rest| > 0 {
        assert s[1] != ' ';
        RunEndsAtWord(rest);
      }
      assert ReplaceChar(s, ' ', '_') == [if s[0] == ' ' then '_' else s[0]] + ReplaceChar(rest, ' ', '_');
    }
  }

  /** A run ends at a character that is not blank. */
  lemma RunEndsAtWord(s: string)
    requires 0 < |s| && !IsRegexSpace(s[0])
    ensures Renderer.Collapse(s, true) == Renderer.Collapse(s, false)
  {
  }
}
