/** Properties of the upload scheduler that relate several steps or hold
    for every plan: spacing, one upload per claimed video, the quota re-plan,
    the invariant the steps keep, and worked scenarios for a fresh channel
    and for a quota reply. */
module SchedulerProps {
  import opened Wrappers
  import opened Text
  import opened Pending
  import opened Scheduler
  import Ledger
  import Order

  // ---------------------------------------------------------------------
  // Batch planning
  // ---------------------------------------------------------------------

  /** Every planned upload sits a whole number of spacings after the first
      slot, and runs at its slot or at once if that slot has passed. */
  lemma PlannedSpacing(claims: set<Video>, c: string, q: seq<string>, first: int, now: int, t: Task)
    requires t in PlannedFrom(claims, c, q, first, now, 0)
    ensures first <= t.slot && (t.slot - first) % Ledger.SPACING == 0
    ensures t.due == Max(t.slot, now)
    ensures now <= t.due
  {
    var j: nat :| j < |q| && FreshAt(claims, c, q, 0, j) && t == TaskAt(c, q, first, now, j);
    assert t.slot - first == Ledger.SPACING * j;
  }

  /** Any two planned uploads are a whole number of spacings apart. */
  lemma PlannedPairSpacing(claims: set<Video>, c: string, q: seq<string>, first: int, now: int, t1: Task, t2: Task)
    requires t1 in PlannedFrom(claims, c, q, first, now, 0)
    requires t2 in PlannedFrom(claims, c, q, first, now, 0)
    ensures (t2.slot - t1.slot) % Ledger.SPACING == 0
  {
    var j1: nat :| j1 < |q| && FreshAt(claims, c, q, 0, j1) && t1 == TaskAt(c, q, first, now, j1);
    var j2: nat :| j2 < |q| && FreshAt(claims, c, q, 0, j2) && t2 == TaskAt(c, q, first, now, j2);
    assert t2.slot - t1.slot == Ledger.SPACING * (j2 - j1);
  }

  /** A video nobody had claimed gets exactly one upload, at the slot of its
      first position in the queue. */
  lemma PlannedOncePerFreshVideo(claims: set<Video>, c: string, q: seq<string>, first: int, now: int, j: nat)
    requires j < |q| && Video(c, q[j]) !in claims && q[j] !in q[..j]
    ensures TaskAt(c, q, first, now, j) in PlannedFrom(claims, c, q, first, now, 0)
    ensures forall t | t in PlannedFrom(claims, c, q, first, now, 0) && t.video == Video(c, q[j]) ::
      t == TaskAt(c, q, first, now, j)
  {
    assert FreshAt(claims, c, q, 0, j);
    forall t | t in PlannedFrom(claims, c, q, first, now, 0) && t.video == Video(c, q[j])
      ensures t == TaskAt(c, q, first, now, j)
    {
      var k: nat :| k < |q| && FreshAt(claims, c, q, 0, k) && t == TaskAt(c, q, first, now, k);
      FirstOccurrenceUnique(q, j, k);
    }
  }

  /** Two first occurrences of the same name are the same index. */
  lemma FirstOccurrenceUnique(q: seq<string>, j: nat, k: nat)
    requires j < |q| && k < |q| && q[j] == q[k]
    requires q[j] !in q[..j] && q[k] !in q[..k]
    ensures j == k
  {
    assert j <= k by {
      assert forall i :: 0 <= i < j ==> q[..j][i] == q[i];
    }
    assert k <= j by {
      assert forall i :: 0 <= i < k ==> q[..k][i] == q[i];
    }
  }

  /** A video that is already claimed is skipped: the plan submits nothing
      for it. */
  lemma PlannedSkipsClaimed(claims: set<Video>, c: string, q: seq<string>, first: int, now: int, v: Video)
    requires v in claims
    ensures forall t | t in PlannedFrom(claims, c, q, first, now, 0) :: t.video != v
  {
  }

  /** Two passes over the same queue never both claim a video: whatever the
      first pass newly claimed, the second one skips. */
  lemma SecondPassSkipsFirstPassClaims(s: State, c: string, q: seq<string>, first: int, now: int, first2: int, now2: int)
    requires 0 < |q|
    ensures var s1 := PlanFrom(s, c, q, first, now, 0);
      PlannedFrom(s1.claims, c, q, first2, now2, 0) == {}
  {
    PlanFromClaims(s, c, q, first, now, 0);
    var s1 := PlanFrom(s, c, q, first, now, 0);
    forall j: nat | j < |q| ensures !FreshAt(s1.claims, c, q, 0, j) {
      assert Video(c, q[j]) in VideosFrom(c, q, 0);
    }
  }

  // ---------------------------------------------------------------------
  // The quota re-plan
  // ---------------------------------------------------------------------

  /** The re-plan touches only the tail from the failed video on: each new
      upload is for a video at or after `idx`, at one day plus a whole number
      of spacings after `now`, in queue order. */
  lemma ReplanTailOnly(c: string, q: seq<string>, idx: nat, now: int, t: Task)
    requires idx <= |q|
    requires t in ReplannedFrom(c, q, idx, now, idx)
    ensures t.video.channel == c && t.video.name in q[idx..]
    ensures now + Ledger.DAY <= t.slot && (t.slot - now - Ledger.DAY) % Ledger.SPACING == 0
    ensures t.due == t.slot
  {
    var j: nat :| idx <= j < |q| && t == ReplanTask(c, q, idx, now, j);
    assert q[idx..][j - idx] == q[j];
    assert t.slot - now - Ledger.DAY == Ledger.SPACING * (j - idx);
  }

  /** Every video from the failed one on is rescheduled: the re-plan adds an
      upload for index `j` at one day plus `j - idx` spacings. */
  lemma ReplanCoversTail(s: State, v: Video, now: int, q: seq<string>, idx: nat, j: nat)
    requires v.channel in s.folders
    requires q == Queue(s.folders[v.channel].pending)
    requires IndexOf(q, v.name) == Some(idx) && idx <= j < |q|
    ensures var when := now + Ledger.DAY + Ledger.SPACING * (j - idx);
      var r := Replan(s, v, now, false);
      Task(Video(v.channel, q[j]), when, when) in r.tasks && Video(v.channel, q[j]) in r.claims
  {
    ReplanUnfold(s, v, now);
    ReplanFromCovers(s, v.channel, q, idx, now, j);
    ReplanTaskShape(v.channel, q, idx, now, j);
  }

  /** The re-plan started at the failed index holds the upload and the claim
      for every later index. */
  lemma ReplanFromCovers(s: State, c: string, q: seq<string>, idx: nat, now: int, j: nat)
    requires idx <= j < |q|
    ensures ReplanTask(c, q, idx, now, j) in ReplanFrom(s, c, q, idx, now, idx).tasks
    ensures Video(c, q[j]) in ReplanFrom(s, c, q, idx, now, idx).claims
  {
    ReplanFromSpec(s, c, q, idx, now, idx);
    assert ReplanTask(c, q, idx, now, j) in ReplannedFrom(c, q, idx, now, idx);
    assert Video(c, q[j]) in VideosFrom(c, q, idx);
  }

  /** A re-planned upload lies in the future, so it is due at its own slot. */
  lemma ReplanTaskShape(c: string, q: seq<string>, idx: nat, now: int, j: nat)
    requires idx <= j < |q|
    ensures var when := now + Ledger.DAY + Ledger.SPACING * (j - idx);
      ReplanTask(c, q, idx, now, j) == Task(Video(c, q[j]), when, when)
  {
  }

  /** The re-plan claims without looking at earlier claims: a video of the
      tail whose earlier upload still waits in the bag gets a second one. */
  lemma ReplanDoubleSchedules(s: State, v: Video, now: int, q: seq<string>, idx: nat, j: nat, t: Task)
    requires v.channel in s.folders
    requires q == Queue(s.folders[v.channel].pending)
    requires IndexOf(q, v.name) == Some(idx) && idx <= j < |q|
    requires t in s.tasks
    requires t.video == Video(v.channel, q[j])
    ensures var when := now + Ledger.DAY + Ledger.SPACING * (j - idx);
      var r := Replan(s, v, now, false);
      && t in r.tasks
      && Task(t.video, when, when) in r.tasks
  {
    ReplanCoversTail(s, v, now, q, idx, j);
    ReplanUnfold(s, v, now);
    ReplanFromKeeps(s, v.channel, q, idx, now, t);
  }

  /** The re-plan only adds uploads: nothing already submitted is withdrawn. */
  lemma ReplanFromKeeps(s: State, c: string, q: seq<string>, idx: nat, now: int, t: Task)
    requires idx <= |q| && t in s.tasks
    ensures t in ReplanFrom(s, c, q, idx, now, idx).tasks
  {
    ReplanFromSpec(s, c, q, idx, now, idx);
  }

  // ---------------------------------------------------------------------
  // The claim released by the quota branch (see Findings)
  // ---------------------------------------------------------------------

  /** As written, a quota failure on a video that is still pending leaves it
      rescheduled but unclaimed: the re-plan claims it and the `finally`
      block drops that claim again. */
  lemma QuotaAsWrittenLosesClaim(s: State, v: Video, slot: int, a: Attempt)
    requires v.channel in s.folders && IsMp4(v.name)
    requires a.reply == QuotaExceeded && !a.listFails
    requires v.name in Queue(s.folders[v.channel].pending)
    ensures var r := UploadAndArchiveAsWritten(s, v, slot, a);
      v !in r.claims && Task(v, a.now + Ledger.DAY, a.now + Ledger.DAY) in r.tasks
  {
  }

  /** A concrete run of the discrepancy: one pending video, a quota reply,
      and afterwards its upload is in the bag while the claim set is empty. */
  lemma QuotaAsWrittenExample()
    ensures var v := Video("Channel_1", "a.mp4");
      var s := State(map["Channel_1" := Folder(["a.mp4"], {}, None)], {v}, map[], multiset{});
      var a := Attempt(QuotaExceeded, 0, false, false, 0);
      var r := UploadAndArchiveAsWritten(s, v, 0, a);
      r.claims == {} && Task(v, Ledger.DAY, Ledger.DAY) in r.tasks
  {
    var v := Video("Channel_1", "a.mp4");
    var s := State(map["Channel_1" := Folder(["a.mp4"], {}, None)], {v}, map[], multiset{});
    var a := Attempt(QuotaExceeded, 0, false, false, 0);
    assert IsMp4("a.mp4");
    assert "a.mp4" in Queue(["a.mp4"]);
    QuotaAsWrittenLosesClaim(s, v, 0, a);
    assert UploadAndArchiveAsWritten(s, v, 0, a).claims <= {v};
  }

  /** The state the quota example leaves behind: the video's re-planned
      upload is the only one in the bag, nothing is claimed, and the
      channel's next-upload time is one day on. */
  lemma QuotaAsWrittenAfter()
    ensures var v := Video("Channel_1", "a.mp4");
      var s := State(map["Channel_1" := Folder(["a.mp4"], {}, None)], {v}, map[], multiset{});
      UploadAndArchiveAsWritten(s, v, 0, Attempt(QuotaExceeded, 0, false, false, 0)) ==
        State(s.folders, {}, map["Channel_1" := Ledger.DAY], multiset{Task(v, Ledger.DAY, Ledger.DAY)})
  {
    var v := Video("Channel_1", "a.mp4");
    var s := State(map["Channel_1" := Folder(["a.mp4"], {}, None)], {v}, map[], multiset{});
    var q := ["a.mp4"];
    assert IsMp4("a.mp4");
    assert Queue(["a.mp4"]) == q;
    assert IndexOf(q, "a.mp4") == Some(0);
    ReplanUnfold(s, v, 0);
    ReplanFromTasks(s, "Channel_1", q, 0, 0, 0);
    ReplanFromClaims(s, "Channel_1", q, 0, 0, 0);
    ReplannedStep("Channel_1", q, 0, 0, 0);
    assert ReplannedFrom("Channel_1", q, 0, 0, 1) == {};
    assert VideosFrom("Channel_1", q, 0) == {v} by {
      VideosFromStep("Channel_1", q, 0);
      assert VideosFrom("Channel_1", q, 1) == {};
    }
  }

  /** The duplicate in action: at the tick one day after the quota reply,
      the head of the queue is unclaimed and the next-upload time is no
      longer in the future, so `scheduleAll` submits the video again while
      the re-planned upload still waits. */
  lemma QuotaAsWrittenSubmitsTwice()
    ensures var v := Video("Channel_1", "a.mp4");
      var s := State(map["Channel_1" := Folder(["a.mp4"], {}, None)], {v}, map[], multiset{});
      var s1 := UploadAndArchiveAsWritten(s, v, 0, Attempt(QuotaExceeded, 0, false, false, 0));
      var r := ScheduleAll(s1, "Channel_1", Ledger.DAY, false, false);
      r.Ok? && r.value.tasks[Task(v, Ledger.DAY, Ledger.DAY)] == 2
  {
    var v := Video("Channel_1", "a.mp4");
    var s := State(map["Channel_1" := Folder(["a.mp4"], {}, None)], {v}, map[], multiset{});
    var q := ["a.mp4"];
    QuotaAsWrittenAfter();
    var s1 := State(s.folders, {}, map["Channel_1" := Ledger.DAY], multiset{Task(v, Ledger.DAY, Ledger.DAY)});
    assert IsMp4("a.mp4");
    assert Queue(["a.mp4"]) == q;
    ScheduleAllPlans(s1, "Channel_1", Ledger.DAY, Ledger.DAY);
    PlannedTake({}, "Channel_1", q, Ledger.DAY, Ledger.DAY, 0);
    assert PlannedFrom({v}, "Channel_1", q, Ledger.DAY, Ledger.DAY, 1) == {};
    assert TaskAt("Channel_1", q, Ledger.DAY, Ledger.DAY, 0) == Task(v, Ledger.DAY, Ledger.DAY);
  }

  /** With the corrected ordering the same tick finds the video claimed and
      leaves its single upload alone. */
  lemma QuotaIntendedSubmitsOnce()
    ensures var v := Video("Channel_1", "a.mp4");
      var s := State(map["Channel_1" := Folder(["a.mp4"], {}, None)], {v}, map[], multiset{});
      var s1 := UploadAndArchiveIntended(s, v, 0, Attempt(QuotaExceeded, 0, false, false, 0));
      var r := ScheduleAll(s1, "Channel_1", Ledger.DAY, false, false);
      r.Ok? && r.value.tasks[Task(v, Ledger.DAY, Ledger.DAY)] == 1
  {
    var v := Video("Channel_1", "a.mp4");
    var s := State(map["Channel_1" := Folder(["a.mp4"], {}, None)], {v}, map[], multiset{});
    var q := ["a.mp4"];
    QuotaAsWrittenAfter();
    var s1 := State(s.folders, {v}, map["Channel_1" := Ledger.DAY], multiset{Task(v, Ledger.DAY, Ledger.DAY)});
    assert IsMp4("a.mp4");
    assert Queue(["a.mp4"]) == q;
    assert UploadAndArchiveIntended(s, v, 0, Attempt(QuotaExceeded, 0, false, false, 0)) == s1;
    ScheduleAllPlans(s1, "Channel_1", Ledger.DAY, Ledger.DAY);
    PlannedSkip({v}, "Channel_1", q, Ledger.DAY, Ledger.DAY, 0);
    assert PlannedFrom({v}, "Channel_1", q, Ledger.DAY, Ledger.DAY, 1) == {};
  }

  /** With the release ordered before the re-plan, the rescheduled video
      stays claimed for as long as its new upload waits in the bag. */
  lemma QuotaKeepsClaim(s: State, v: Video, slot: int, a: Attempt)
    requires v.channel in s.folders && IsMp4(v.name)
    requires a.reply == QuotaExceeded && !a.listFails
    requires v.name in Queue(s.folders[v.channel].pending)
    ensures var r := UploadAndArchiveIntended(s, v, slot, a);
      v in r.claims && Task(v, a.now + Ledger.DAY, a.now + Ledger.DAY) in r.tasks
      && r.next[v.channel] == a.now + Ledger.DAY
  {
  }

  // ---------------------------------------------------------------------
  // The ledger after an upload
  // ---------------------------------------------------------------------

  /** After a recorded upload of slot `slot`, the channel's next batch starts
      no earlier than `slot` plus the spacing. */
  lemma RecordedUploadSpacesNextBatch(s: State, v: Video, slot: int, a: Attempt, now: int)
    requires v.channel in s.folders && IsMp4(v.name)
    requires Recorded(a)
    ensures var r := UploadAndArchiveAsWritten(s, v, slot, a);
      Ledger.FirstSlot(r.folders[v.channel].history, now) == Ok(Max(slot + Ledger.SPACING, now))
  {
    var r := UploadAndArchiveAsWritten(s, v, slot, a);
    Ledger.FirstSlotAfterRecord(s.folders[v.channel].history, slot, v.name, now);
    assert r.folders[v.channel].history == Ledger.Append(s.folders[v.channel].history, Ledger.Record(slot, v.name));
  }

  // ---------------------------------------------------------------------
  // The invariant every step keeps
  // ---------------------------------------------------------------------

  lemma ScheduleAllKeepsValid(s: State, c: string, now: int, listFails: bool, historyFails: bool)
    requires Valid(s) && c in s.folders
    ensures var r := ScheduleAll(s, c, now, listFails, historyFails);
      r.Ok? ==> Valid(r.value)
  {
    var r := ScheduleAll(s, c, now, listFails, historyFails);
    if r.Ok? && r.value != s {
      var q := Queue(s.folders[c].pending);
      var first := Ledger.FirstSlot(s.folders[c].history, now).value;
      ScheduleAllPlans(s, c, now, first);
      forall t | t in r.value.tasks ensures t.video.channel in s.folders && IsMp4(t.video.name) {
        if t !in s.tasks {
          PlannedNamesQueued(s.claims, c, q, first, now, t);
        }
      }
    }
  }

  /** A planned upload names its own channel and a file of the queue. */
  lemma PlannedNamesQueued(claims: set<Video>, c: string, q: seq<string>, first: int, now: int, t: Task)
    requires t in PlannedFrom(claims, c, q, first, now, 0)
    ensures t.video.channel == c && t.video.name in q
  {
    var j: nat :| j < |q| && FreshAt(claims, c, q, 0, j) && t == TaskAt(c, q, first, now, j);
    assert q[j] in q;
  }

  lemma ReplanKeepsValid(s: State, v: Video, now: int, listFails: bool)
    requires Valid(s) && v.channel in s.folders
    ensures Valid(Replan(s, v, now, listFails))
  {
    var r := Replan(s, v, now, listFails);
    if r != s {
      var q := Queue(s.folders[v.channel].pending);
      var idx := IndexOf(q, v.name).value;
      ReplanFromSpec(s, v.channel, q, idx, now, idx);
      forall t | t in r.tasks ensures t.video.channel in s.folders && IsMp4(t.video.name) {
        if t !in s.tasks {
          ReplannedNamesQueued(v.channel, q, idx, now, t);
        }
      }
    }
  }
  /** A re-planned upload names its own channel and a file of the queue. */
  lemma ReplannedNamesQueued(c: string, q: seq<string>, idx: nat, now: int, t: Task)
    requires idx <= |q| && t in ReplannedFrom(c, q, idx, now, idx)
    ensures t.video.channel == c && t.video.name in q
  {
    var j: nat :| idx <= j < |q| && t == ReplanTask(c, q, idx, now, j);
    assert q[j] in q;
  }


  lemma FireKeepsValid(s: State, t: Task, a: Attempt)
    requires Valid(s) && t in s.tasks
    ensures Valid(Fire(s, t, a))
  {
    var s0 := s.(tasks := s.tasks - multiset{t});
    var v := t.video;
    assert Valid(s0);
    match a.reply
    case Uploaded =>
    case Refused =>
    case QuotaExceeded =>
      ReplanKeepsValid(s0, v, a.now, a.listFails);
  }

  // ---------------------------------------------------------------------
  // A fresh channel
  // ---------------------------------------------------------------------

  /** A channel with no history, nothing claimed and three distinct videos
      queued: the first tick submits them five hours apart starting at
      `now`, claims all three, and sets the next-upload time to `now`. */
  lemma FreshChannelPlan(c: string, listing: seq<string>, now: int)
    requires var q := Queue(listing); |q| == 3 && q[0] != q[1] && q[1] != q[2] && q[0] != q[2]
    ensures var q := Queue(listing);
      var s := State(map[c := Folder(listing, {}, None)], {}, map[], multiset{});
      var r := ScheduleAll(s, c, now, false, false);
      && r.Ok?
      && r.value.claims == {Video(c, q[0]), Video(c, q[1]), Video(c, q[2])}
      && r.value.next == map[c := now]
      && r.value.tasks == multiset({
        Task(Video(c, q[0]), now, now),
        Task(Video(c, q[1]), now + 5 * Ledger.HOUR, now + 5 * Ledger.HOUR),
        Task(Video(c, q[2]), now + 10 * Ledger.HOUR, now + 10 * Ledger.HOUR)})
  {
    var q := Queue(listing);
    var s := State(map[c := Folder(listing, {}, None)], {}, map[], multiset{});
    ScheduleAllPlans(s, c, now, now);
    PlannedThree(c, q, now);
    VideosThree(c, q);
  }

  lemma PlannedThree(c: string, q: seq<string>, now: int)
    requires |q| == 3 && q[0] != q[1] && q[1] != q[2] && q[0] != q[2]
    ensures PlannedFrom({}, c, q, now, now, 0) == {
      Task(Video(c, q[0]), now, now),
      Task(Video(c, q[1]), now + 5 * Ledger.HOUR, now + 5 * Ledger.HOUR),
      Task(Video(c, q[2]), now + 10 * Ledger.HOUR, now + 10 * Ledger.HOUR)}
  {
    var v0, v1, v2 := Video(c, q[0]), Video(c, q[1]), Video(c, q[2]);
    PlannedTake({}, c, q, now, now, 0);
    PlannedTake({v0}, c, q, now, now, 1);
    PlannedTake({v0, v1}, c, q, now, now, 2);
    assert PlannedFrom({v0, v1, v2}, c, q, now, now, 3) == {};
  }

  lemma VideosThree(c: string, q: seq<string>)
    requires |q| == 3
    ensures VideosFrom(c, q, 0) == {Video(c, q[0]), Video(c, q[1]), Video(c, q[2])}
  {
    VideosFromStep(c, q, 0);
    VideosFromStep(c, q, 1);
    VideosFromStep(c, q, 2);
    assert VideosFrom(c, q, 3) == {};
  }

  /** The same for "a.mp4", "b.mp4" and "c.mp4" on "Channel_1". */
  lemma FreshChannelScenario(now: int)
    ensures var c := "Channel_1";
      var s := State(map[c := Folder(["a.mp4", "b.mp4", "c.mp4"], {}, None)], {}, map[], multiset{});
      var r := ScheduleAll(s, c, now, false, false);
      && r.Ok?
      && r.value.tasks == multiset({
        Task(Video(c, "a.mp4"), now, now),
        Task(Video(c, "b.mp4"), now + 5 * Ledger.HOUR, now + 5 * Ledger.HOUR),
        Task(Video(c, "c.mp4"), now + 10 * Ledger.HOUR, now + 10 * Ledger.HOUR)})
  {
    FreshQueue();
    FreshChannelPlan("Channel_1", ["a.mp4", "b.mp4", "c.mp4"], now);
  }

  lemma FreshQueue()
    ensures Queue(["a.mp4", "b.mp4", "c.mp4"]) == ["a.mp4", "b.mp4", "c.mp4"]
  {
    var q := ["a.mp4", "b.mp4", "c.mp4"];
    FreshSorted();
    assert multiset(Queue(q)) == multiset(q) by {
      FreshMp4s();
    }
    Order.SortedUnique(Queue(q), q);
  }

  lemma FreshSorted()
    ensures Order.Sorted(["a.mp4", "b.mp4", "c.mp4"])
  {
    assert Order.Le("a.mp4", "b.mp4");
    assert Order.Le("a.mp4", "c.mp4");
    assert Order.Le("b.mp4", "c.mp4");
  }

  lemma FreshMp4s()
    ensures IsMp4("a.mp4") && IsMp4("b.mp4") && IsMp4("c.mp4")
  {
    assert "a.mp4"[1..] == ".mp4";
    assert "b.mp4"[1..] == ".mp4";
    assert "c.mp4"[1..] == ".mp4";
  }

}
