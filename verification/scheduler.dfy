/** `ChannelScheduler`: batch planning, the upload task with its outcomes,
    and the quota re-plan, as pure steps over an explicit state.

    The state holds what the Java code shares between threads or keeps on
    disk: each channel's folder (pending listing, archive, history file), the
    process-wide claim set `scheduledVideos`, the map `nextScheduledMap`, and
    the bag of uploads submitted to the executor. Every claim-set or map
    operation is one atomic step, as the concurrent collections make it. */
module Scheduler {
  import opened Wrappers
  import opened Text
  import opened Pending
  import Ledger

  /** A pending video: the normalised path `<root>/<channel>/pending/<name>`. */
  datatype Video = Video(channel: string, name: string)

  /** An `uploadAndArchive(video, slot)` submitted to the executor, due to
      run at instant `due` (submission time plus the non-negative delay). */
  datatype Task = Task(video: Video, slot: int, due: int)

  /** One channel's directories: the pending listing in file-system order,
      the names in the archive, and upload_history.txt. */
  datatype Folder = Folder(pending: seq<string>, archive: set<string>, history: Ledger.History)

  datatype State = State(
    folders: map<string, Folder>,
    claims: set<Video>,
    next: map<string, int>,
    tasks: multiset<Task>)

  /** Why `scheduleAll` threw: an I/O failure while listing or reading the
      history, or an unparsable last history line. */
  datatype ScheduleError = ListingFailed | HistoryUnreadable | MalformedHistory(line: string)

  /** Every submitted upload names a configured channel and a ".mp4" file,
      the one demand `uploadAndArchive` makes of its argument. */
  ghost predicate Valid(s: State) {
    forall t | t in s.tasks :: t.video.channel in s.folders && IsMp4(t.video.name)
  }

  /** The instant an upload submitted at `now` for `slot` runs:
      `now + max(slot - now, 0)`. */
  function Due(slot: int, now: int): (r: int)
    ensures now <= r && slot <= r
    ensures slot >= now ==> r == slot
  {
    now + Max(slot - now, 0)
  }

  // ---------------------------------------------------------------------
  // scheduleAll
  // ---------------------------------------------------------------------

  /** The upload the loop of `scheduleAll` submits for index `j`. */
  function TaskAt(c: string, q: seq<string>, first: int, now: int, j: nat): Task
    requires j < |q|
  {
    Task(Video(c, q[j]), first + Ledger.SPACING * j, Due(first + Ledger.SPACING * j, now))
  }

  /** The loop of `scheduleAll` from index `i` on: an item already claimed is
      skipped; otherwise it is claimed, its upload is submitted, and index 0
      records its slot as the channel's next-upload time. */
  function PlanFrom(s: State, c: string, q: seq<string>, first: int, now: int, i: nat): State
    requires i <= |q|
    decreases |q| - i
  {
    if i == |q| then s
    else
      var v := Video(c, q[i]);
      if v in s.claims then PlanFrom(s, c, q, first, now, i + 1)
      else
        var t := TaskAt(c, q, first, now, i);
        var s' := s.(claims := s.claims + {v},
                     tasks := s.tasks + multiset{t},
                     next := if i == 0 then s.next[c := t.slot] else s.next);
        PlanFrom(s', c, q, first, now, i + 1)
  }

  /** Index `j` is claimed by the loop that started at index `i`: nobody held
      its video before, and it is the first occurrence of its name from `i`. */
  ghost predicate FreshAt(claims: set<Video>, c: string, q: seq<string>, i: nat, j: nat)
    requires i <= j < |q|
  {
    Video(c, q[j]) !in claims && q[j] !in q[i..j]
  }

  /** The uploads the loop submits from index `i` on: one per freshly claimed
      index, at the first slot plus the spacing times the index. */
  ghost function PlannedFrom(claims: set<Video>, c: string, q: seq<string>, first: int, now: int, i: nat): set<Task>
    requires i <= |q|
  {
    set j: nat | i <= j < |q| && FreshAt(claims, c, q, i, j) :: TaskAt(c, q, first, now, j)
  }

  /** The videos of `q` from index `i` on. */
  ghost function VideosFrom(c: string, q: seq<string>, i: nat): set<Video>
    requires i <= |q|
  {
    set j: nat | i <= j < |q| :: Video(c, q[j])
  }

  lemma FirstOccurrenceStep(q: seq<string>, i: nat, j: nat)
    requires i < j < |q|
    ensures q[j] !in q[i..j] <==> q[j] != q[i] && q[j] !in q[i + 1..j]
  {
    assert q[i..j] == [q[i]] + q[i + 1..j];
  }

  lemma VideosFromStep(c: string, q: seq<string>, i: nat)
    requires i < |q|
    ensures VideosFrom(c, q, i) == {Video(c, q[i])} + VideosFrom(c, q, i + 1)
  {
  }

  /** An index whose video is already claimed contributes no upload. */
  lemma PlannedSkip(claims: set<Video>, c: string, q: seq<string>, first: int, now: int, i: nat)
    requires i < |q| && Video(c, q[i]) in claims
    ensures PlannedFrom(claims, c, q, first, now, i) == PlannedFrom(claims, c, q, first, now, i + 1)
  {
    var A := PlannedFrom(claims, c, q, first, now, i);
    var B := PlannedFrom(claims, c, q, first, now, i + 1);
    forall t | t in A ensures t in B {
      var j: nat :| i <= j < |q| && FreshAt(claims, c, q, i, j) && t == TaskAt(c, q, first, now, j);
      FirstOccurrenceStep(q, i, j);
      assert FreshAt(claims, c, q, i + 1, j);
    }
    forall t | t in B ensures t in A {
      var j: nat :| i + 1 <= j < |q| && FreshAt(claims, c, q, i + 1, j) && t == TaskAt(c, q, first, now, j);
      FirstOccurrenceStep(q, i, j);
      assert FreshAt(claims, c, q, i, j);
    }
  }

  /** A free index contributes its own upload, and later indices see its
      video as claimed. */
  lemma PlannedTake(claims: set<Video>, c: string, q: seq<string>, first: int, now: int, i: nat)
    requires i < |q| && Video(c, q[i]) !in claims
    ensures var rest := PlannedFrom(claims + {Video(c, q[i])}, c, q, first, now, i + 1);
      && PlannedFrom(claims, c, q, first, now, i) == {TaskAt(c, q, first, now, i)} + rest
      && TaskAt(c, q, first, now, i) !in rest
  {
    var claims' := claims + {Video(c, q[i])};
    var t := TaskAt(c, q, first, now, i);
    var A := PlannedFrom(claims, c, q, first, now, i);
    var B := PlannedFrom(claims', c, q, first, now, i + 1);
    assert FreshAt(claims, c, q, i, i);
    forall u | u in A ensures u in {t} + B {
      var j: nat :| i <= j < |q| && FreshAt(claims, c, q, i, j) && u == TaskAt(c, q, first, now, j);
      if j > i {
        FirstOccurrenceStep(q, i, j);
        assert FreshAt(claims', c, q, i + 1, j);
      }
    }
    forall u | u in B ensures u in A && u != t {
      var j: nat :| i + 1 <= j < |q| && FreshAt(claims', c, q, i + 1, j) && u == TaskAt(c, q, first, now, j);
      FirstOccurrenceStep(q, i, j);
      assert FreshAt(claims, c, q, i, j);
      assert u.slot > t.slot;
    }
  }

  lemma MultisetOfUnion<T>(x: T, rest: set<T>)
    requires x !in rest
    ensures multiset({x} + rest) == multiset{x} + multiset(rest)
  {
  }

  /** One step of the loop: the state after index `i` is handled. */
  function PlanStep(s: State, c: string, q: seq<string>, first: int, now: int, i: nat): State
    requires i < |q|
  {
    var v := Video(c, q[i]);
    if v in s.claims then s
    else
      var t := TaskAt(c, q, first, now, i);
      s.(claims := s.claims + {v},
         tasks := s.tasks + multiset{t},
         next := if i == 0 then s.next[c := t.slot] else s.next)
  }

  lemma PlanFromUnfold(s: State, c: string, q: seq<string>, first: int, now: int, i: nat)
    requires i < |q|
    ensures PlanFrom(s, c, q, first, now, i) == PlanFrom(PlanStep(s, c, q, first, now, i), c, q, first, now, i + 1)
  {
  }

  /** The loop claims every video of the queue from `i` on, sets the
      next-upload time only when index 0 is newly claimed, and touches no
      folder. */
  lemma {:induction false} PlanFromClaims(s: State, c: string, q: seq<string>, first: int, now: int, i: nat)
    requires i <= |q|
    ensures var r := PlanFrom(s, c, q, first, now, i);
      && r.folders == s.folders
      && r.claims == s.claims + VideosFrom(c, q, i)
      && r.next == (if i == 0 && 0 < |q| && Video(c, q[0]) !in s.claims then s.next[c := first] else s.next)
    decreases |q| - i
  {
    if i < |q| {
      PlanFromUnfold(s, c, q, first, now, i);
      PlanFromClaims(PlanStep(s, c, q, first, now, i), c, q, first, now, i + 1);
      VideosFromStep(c, q, i);
    }
  }

  /** The loop submits exactly one upload per freshly claimed index. */
  lemma {:induction false} PlanFromTasks(s: State, c: string, q: seq<string>, first: int, now: int, i: nat)
    requires i <= |q|
    ensures PlanFrom(s, c, q, first, now, i).tasks == s.tasks + multiset(PlannedFrom(s.claims, c, q, first, now, i))
    decreases |q| - i
  {
    if i < |q| {
      var v := Video(c, q[i]);
      var s' := PlanStep(s, c, q, first, now, i);
      PlanFromUnfold(s, c, q, first, now, i);
      PlanFromTasks(s', c, q, first, now, i + 1);
      if v in s.claims {
        PlannedSkip(s.claims, c, q, first, now, i);
      } else {
        PlannedTake(s.claims, c, q, first, now, i);
        MultisetOfUnion(TaskAt(c, q, first, now, i), PlannedFrom(s'.claims, c, q, first, now, i + 1));
      }
    }
  }

  /** `scheduleAll` for channel `c` at instant `now`; `listFails` and
      `historyFails` say whether listing the pending directory or reading the
      history file throws. All reads precede the first write, so an error
      leaves the state as it was. */
  function ScheduleAll(s: State, c: string, now: int, listFails: bool, historyFails: bool): (r: Result<State, ScheduleError>)
    requires c in s.folders
    ensures listFails ==> r == Err(ListingFailed)
    ensures !listFails && Queue(s.folders[c].pending) == [] ==> r == Ok(s)
    ensures r.Err? && !listFails ==>
      r.error == HistoryUnreadable || Ledger.FirstSlot(s.folders[c].history, now).Err?
    ensures r.Ok? && c in s.next && s.next[c] > now ==> r.value == s
    ensures r.Ok? ==>
      && r.value.folders == s.folders
      && s.claims <= r.value.claims
      && s.tasks <= r.value.tasks
      && forall c' | c' != c :: (c' in r.value.next <==> c' in s.next) && (c' in s.next ==> r.value.next[c'] == s.next[c'])
  {
    if listFails then Err(ListingFailed)
    else
      var f := s.folders[c];
      var q := Queue(f.pending);
      if q == [] then Ok(s)
      else if historyFails && f.history.Some? then Err(HistoryUnreadable)
      else
        match Ledger.FirstSlot(f.history, now)
        case Err(line) => Err(MalformedHistory(line))
        case Ok(first) =>
          if c in s.next && s.next[c] > now then Ok(s)
          else
            PlanFromClaims(s, c, q, first, now, 0);
            PlanFromTasks(s, c, q, first, now, 0);
            Ok(PlanFrom(s, c, q, first, now, 0))
  }

  /** What a batch plan does: with a non-empty queue, a readable history
      giving `first`, and no next-upload time after `now`, the pass claims
      every queued video, submits exactly one upload per video it newly
      claimed, and records `first` as the next-upload time only when the
      head of the queue was newly claimed. */
  lemma ScheduleAllPlans(s: State, c: string, now: int, first: int)
    requires c in s.folders
    requires Queue(s.folders[c].pending) != []
    requires Ledger.FirstSlot(s.folders[c].history, now) == Ok(first)
    requires !(c in s.next && s.next[c] > now)
    ensures var q := Queue(s.folders[c].pending);
      ScheduleAll(s, c, now, false, false) == Ok(s.(
        claims := s.claims + VideosFrom(c, q, 0),
        tasks := s.tasks + multiset(PlannedFrom(s.claims, c, q, first, now, 0)),
        next := if Video(c, q[0]) !in s.claims then s.next[c := first] else s.next))
  {
    var q := Queue(s.folders[c].pending);
    PlanFromClaims(s, c, q, first, now, 0);
    PlanFromTasks(s, c, q, first, now, 0);
  }

  // ---------------------------------------------------------------------
  // uploadAndArchive
  // ---------------------------------------------------------------------

  /** What the uploader answers: success, a `GoogleJsonResponseException`
      whose reasons include "uploadLimitExceeded", or any other exception. */
  datatype Reply = Uploaded | QuotaExceeded | Refused

  /** Everything one run of `uploadAndArchive` observes from outside: the
      uploader's reply, how many archive moves fail before one succeeds,
      whether the history append or the pending re-listing throws, and the
      clock. */
  datatype Attempt = Attempt(reply: Reply, moveFailures: nat, appendFails: bool, listFails: bool, now: int)

  /** The archive move is tried at most this many times. */
  const MOVE_ATTEMPTS: nat := 5

  /** The upload succeeded, the move succeeded within its attempts, and the
      history line was written. */
  predicate Recorded(a: Attempt) {
    a.reply == Uploaded && a.moveFailures < MOVE_ATTEMPTS && !a.appendFails
  }

  /** The title sent to the uploader: the file name without its last four
      characters, each '_' replaced by ' '. */
  function Title(name: string): (r: string)
    requires 4 <= |name|
    ensures |r| == |name| - 4
    ensures '_' !in r
    ensures forall k :: 0 <= k < |r| && name[k] != '_' ==> r[k] == name[k]
    ensures forall k :: 0 <= k < |r| && name[k] == '_' ==> r[k] == ' '
  {
    ReplaceChar(name[..|name| - 4], '_', ' ')
  }

  /** The `finally` block: drop the claim on `v`. */
  function Release(s: State, v: Video): State {
    s.(claims := s.claims - {v})
  }

  /** The success branch after the uploader returned: move to the archive
      (up to five tries, the last failure rethrown), append the history line,
      then set the next-upload time to `slot` plus the spacing if ".mp4" files
      remain pending, or remove it. A throw stops the branch where it occurs. */
  function Publish(s: State, v: Video, slot: int, a: Attempt): (r: State)
    requires v.channel in s.folders && a.reply == Uploaded
    ensures r.claims == s.claims && r.tasks == s.tasks
    ensures r.folders.Keys == s.folders.Keys
    ensures forall c | c in s.folders && c != v.channel :: r.folders[c] == s.folders[c]
    ensures forall c | c != v.channel :: (c in r.next <==> c in s.next) && (c in s.next ==> r.next[c] == s.next[c])
    ensures Ledger.Lines(r.folders[v.channel].history) ==
      Ledger.Lines(s.folders[v.channel].history) + (if Recorded(a) then [Ledger.Record(slot, v.name)] else [])
    ensures a.moveFailures < MOVE_ATTEMPTS ==>
      v.name !in r.folders[v.channel].pending && v.name in r.folders[v.channel].archive
    ensures a.moveFailures >= MOVE_ATTEMPTS ==> r == s
    ensures Recorded(a) && !a.listFails ==>
      && (v.channel in r.next <==> HasMp4(r.folders[v.channel].pending))
      && (v.channel in r.next ==> r.next[v.channel] == slot + Ledger.SPACING)
    ensures !(Recorded(a) && !a.listFails) ==> r.next == s.next
  {
    var c := v.channel;
    var f := s.folders[c];
    if a.moveFailures >= MOVE_ATTEMPTS then s
    else
      var moved := f.(pending := RemoveFile(f.pending, v.name), archive := f.archive + {v.name});
      if a.appendFails then s.(folders := s.folders[c := moved])
      else
        var written := moved.(history := Ledger.Append(f.history, Ledger.Record(slot, v.name)));
        assert Ledger.Lines(written.history) == Ledger.Lines(f.history) + [Ledger.Record(slot, v.name)];
        var s' := s.(folders := s.folders[c := written]);
        if a.listFails then s'
        else if HasMp4(written.pending) then s'.(next := s'.next[c := slot + Ledger.SPACING])
        else s'.(next := s'.next - {c})
  }

  /** `rescheduleBatchForTomorrow(v)`: re-list the queue; if `v` is still in
      it at index `idx`, claim every item from `idx` on without checking for
      an earlier claim and submit it at `now` plus one day plus the spacing
      times its distance from `idx`; the first of them sets the channel's
      next-upload time. A listing failure is caught and changes nothing. */
  function Replan(s: State, v: Video, now: int, listFails: bool): (r: State)
    requires v.channel in s.folders
    ensures r.folders == s.folders
    ensures s.claims <= r.claims && s.tasks <= r.tasks
    ensures listFails || v.name !in Queue(s.folders[v.channel].pending) ==> r == s
    ensures !listFails && v.name in Queue(s.folders[v.channel].pending) ==>
      && v in r.claims
      && r.next == s.next[v.channel := now + Ledger.DAY]
      && Task(v, now + Ledger.DAY, now + Ledger.DAY) in r.tasks
  {
    if listFails then s
    else
      var q := Queue(s.folders[v.channel].pending);
      match IndexOf(q, v.name)
      case None => s
      case Some(idx) =>
        ReplanFromSpec(s, v.channel, q, idx, now, idx);
        assert ReplanTask(v.channel, q, idx, now, idx) in ReplannedFrom(v.channel, q, idx, now, idx);
        assert Video(v.channel, q[idx]) in VideosFrom(v.channel, q, idx);
        ReplanFrom(s, v.channel, q, idx, now, idx)
  }

  lemma ReplanUnfold(s: State, v: Video, now: int)
    requires v.channel in s.folders
    requires IndexOf(Queue(s.folders[v.channel].pending), v.name).Some?
    ensures var q := Queue(s.folders[v.channel].pending);
      Replan(s, v, now, false) == ReplanFrom(s, v.channel, q, IndexOf(q, v.name).value, now, IndexOf(q, v.name).value)
  {
  }

  /** The upload the re-plan submits for index `j` of the re-listed queue. */
  function ReplanTask(c: string, q: seq<string>, idx: nat, now: int, j: nat): Task
    requires idx <= j < |q|
  {
    var when := now + Ledger.DAY + Ledger.SPACING * (j - idx);
    Task(Video(c, q[j]), when, Due(when, now))
  }

  /** The uploads the re-plan submits from index `i` on. */
  ghost function ReplannedFrom(c: string, q: seq<string>, idx: nat, now: int, i: nat): set<Task>
    requires idx <= i <= |q|
  {
    set j: nat | i <= j < |q| :: ReplanTask(c, q, idx, now, j)
  }

  function ReplanFrom(s: State, c: string, q: seq<string>, idx: nat, now: int, i: nat): State
    requires idx <= i <= |q|
    decreases |q| - i
  {
    if i == |q| then s
    else ReplanFrom(ReplanStep(s, c, q, idx, now, i), c, q, idx, now, i + 1)
  }

  function ReplanStep(s: State, c: string, q: seq<string>, idx: nat, now: int, i: nat): State
    requires idx <= i < |q|
  {
    var t := ReplanTask(c, q, idx, now, i);
    s.(tasks := s.tasks + multiset{t},
       claims := s.claims + {t.video},
       next := if i == idx then s.next[c := t.slot] else s.next)
  }

  lemma ReplannedStep(c: string, q: seq<string>, idx: nat, now: int, i: nat)
    requires idx <= i < |q|
    ensures ReplannedFrom(c, q, idx, now, i) == {ReplanTask(c, q, idx, now, i)} + ReplannedFrom(c, q, idx, now, i + 1)
    ensures ReplanTask(c, q, idx, now, i) !in ReplannedFrom(c, q, idx, now, i + 1)
  {
    var t := ReplanTask(c, q, idx, now, i);
    forall u | u in ReplannedFrom(c, q, idx, now, i + 1) ensures u.slot > t.slot {
      var j: nat :| i + 1 <= j < |q| && u == ReplanTask(c, q, idx, now, j);
    }
  }

  lemma {:induction false} ReplanFromClaims(s: State, c: string, q: seq<string>, idx: nat, now: int, i: nat)
    requires idx <= i <= |q|
    ensures var r := ReplanFrom(s, c, q, idx, now, i);
      && r.folders == s.folders
      && r.claims == s.claims + VideosFrom(c, q, i)
      && r.next == (if i == idx && i < |q| then s.next[c := now + Ledger.DAY] else s.next)
    decreases |q| - i
  {
    if i < |q| {
      var s' := ReplanStep(s, c, q, idx, now, i);
      assert ReplanFrom(s, c, q, idx, now, i) == ReplanFrom(s', c, q, idx, now, i + 1);
      assert s'.next == (if i == idx then s.next[c := now + Ledger.DAY] else s.next);
      ReplanFromClaims(s', c, q, idx, now, i + 1);
      VideosFromStep(c, q, i);
    }
  }

  lemma {:induction false} ReplanFromTasks(s: State, c: string, q: seq<string>, idx: nat, now: int, i: nat)
    requires idx <= i <= |q|
    ensures ReplanFrom(s, c, q, idx, now, i).tasks == s.tasks + multiset(ReplannedFrom(c, q, idx, now, i))
    decreases |q| - i
  {
    if i < |q| {
      var s' := ReplanStep(s, c, q, idx, now, i);
      assert ReplanFrom(s, c, q, idx, now, i) == ReplanFrom(s', c, q, idx, now, i + 1);
      ReplanFromTasks(s', c, q, idx, now, i + 1);
      ReplannedStep(c, q, idx, now, i);
      MultisetOfUnion(ReplanTask(c, q, idx, now, i), ReplannedFrom(c, q, idx, now, i + 1));
    }
  }

  /** From index `i` on, the re-plan claims every video unconditionally,
      submits exactly the uploads `ReplanTask` describes, sets the
      next-upload time at index `idx` only, and touches no folder. */
  lemma ReplanFromSpec(s: State, c: string, q: seq<string>, idx: nat, now: int, i: nat)
    requires idx <= i <= |q|
    ensures var r := ReplanFrom(s, c, q, idx, now, i);
      && r.folders == s.folders
      && r.claims == s.claims + VideosFrom(c, q, i)
      && r.tasks == s.tasks + multiset(ReplannedFrom(c, q, idx, now, i))
      && r.next == (if i == idx && i < |q| then s.next[c := now + Ledger.DAY] else s.next)
  {
    ReplanFromClaims(s, c, q, idx, now, i);
    ReplanFromTasks(s, c, q, idx, now, i);
  }

  /** `uploadAndArchive(v, slot)` as written. Whatever the outcome, the
      `finally` block drops the claim on `v`, including after a quota
      failure whose re-plan has just claimed `v` again for tomorrow. */
  function UploadAndArchiveAsWritten(s: State, v: Video, slot: int, a: Attempt): (r: State)
    requires v.channel in s.folders && IsMp4(v.name)
    ensures v !in r.claims
    ensures r.folders.Keys == s.folders.Keys
    ensures forall c | c in s.folders && c != v.channel :: r.folders[c] == s.folders[c]
    ensures forall c | c != v.channel :: (c in r.next <==> c in s.next) && (c in s.next ==> r.next[c] == s.next[c])
    ensures a.reply != QuotaExceeded ==> r.claims == s.claims - {v} && r.tasks == s.tasks
    ensures Ledger.Lines(r.folders[v.channel].history) ==
      Ledger.Lines(s.folders[v.channel].history) + (if Recorded(a) then [Ledger.Record(slot, v.name)] else [])
    ensures a.reply == Uploaded && a.moveFailures < MOVE_ATTEMPTS ==>
      v.name !in r.folders[v.channel].pending && v.name in r.folders[v.channel].archive
    ensures a.reply == Refused || (a.reply == Uploaded && a.moveFailures >= MOVE_ATTEMPTS) ==>
      r == s.(claims := s.claims - {v})
    ensures Recorded(a) && !a.listFails ==>
      && (v.channel in r.next <==> HasMp4(r.folders[v.channel].pending))
      && (v.channel in r.next ==> r.next[v.channel] == slot + Ledger.SPACING)
    ensures a.reply == QuotaExceeded ==>
      && r.folders == s.folders
      && s.claims - {v} <= r.claims
      && r.tasks == Replan(s, v, a.now, a.listFails).tasks
      && r.next == Replan(s, v, a.now, a.listFails).next
    ensures a.reply == QuotaExceeded && (a.listFails || v.name !in Queue(s.folders[v.channel].pending)) ==>
      r == s.(claims := s.claims - {v})
    ensures a.reply == QuotaExceeded && !a.listFails && v.name in Queue(s.folders[v.channel].pending) ==>
      && r.next == s.next[v.channel := a.now + Ledger.DAY]
      && Task(v, a.now + Ledger.DAY, a.now + Ledger.DAY) in r.tasks
  {
    match a.reply
    case Uploaded => Release(Publish(s, v, slot, a), v)
    case QuotaExceeded =>
      QuotaBranch(s, v, a);
      Release(Replan(s, v, a.now, a.listFails), v)
    case Refused => Release(s, v)
  }

  /** The quota branch as written: the re-plan, then the release. */
  lemma QuotaBranch(s: State, v: Video, a: Attempt)
    requires v.channel in s.folders
    ensures var p := Replan(s, v, a.now, a.listFails);
      var r := Release(p, v);
      && v !in r.claims && r.folders == s.folders && s.claims - {v} <= r.claims
      && r.tasks == p.tasks && r.next == p.next
      && (!a.listFails && v.name in Queue(s.folders[v.channel].pending) ==>
            && r.next == s.next[v.channel := a.now + Ledger.DAY]
            && Task(v, a.now + Ledger.DAY, a.now + Ledger.DAY) in r.tasks)
      && (a.listFails || v.name !in Queue(s.folders[v.channel].pending) ==> r == s.(claims := s.claims - {v}))
  {
  }

  /** The corrected `uploadAndArchive` (see Findings): the claim of the
      failed attempt is dropped before the re-plan, so a video the re-plan
      reschedules stays claimed. The other branches are as written. */
  function UploadAndArchiveIntended(s: State, v: Video, slot: int, a: Attempt): (r: State)
    requires v.channel in s.folders && IsMp4(v.name)
    ensures a.reply != QuotaExceeded ==> r == UploadAndArchiveAsWritten(s, v, slot, a)
    ensures a.reply == QuotaExceeded ==>
      && r.folders == s.folders
      && r.tasks == UploadAndArchiveAsWritten(s, v, slot, a).tasks
      && r.next == UploadAndArchiveAsWritten(s, v, slot, a).next
      && (v in r.claims <==> !a.listFails && v.name in Queue(s.folders[v.channel].pending))
  {
    match a.reply
    case Uploaded => Release(Publish(s, v, slot, a), v)
    case QuotaExceeded =>
      ReplanIgnoresClaims(s, v, a.now, a.listFails, s.claims - {v});
      Replan(Release(s, v), v, a.now, a.listFails)
    case Refused => Release(s, v)
  }

  /** The uploads the re-plan submits and the next-upload time it sets do
      not depend on which videos were claimed beforehand. */
  lemma ReplanIgnoresClaims(s: State, v: Video, now: int, listFails: bool, claims: set<Video>)
    requires v.channel in s.folders
    ensures Replan(s.(claims := claims), v, now, listFails).tasks == Replan(s, v, now, listFails).tasks
    ensures Replan(s.(claims := claims), v, now, listFails).next == Replan(s, v, now, listFails).next
  {
    var s' := s.(claims := claims);
    var q := Queue(s.folders[v.channel].pending);
    if !listFails && IndexOf(q, v.name).Some? {
      var idx := IndexOf(q, v.name).value;
      ReplanUnfold(s, v, now);
      ReplanUnfold(s', v, now);
      ReplanFromTasks(s, v.channel, q, idx, now, idx);
      ReplanFromTasks(s', v.channel, q, idx, now, idx);
      ReplanFromClaims(s, v.channel, q, idx, now, idx);
      ReplanFromClaims(s', v.channel, q, idx, now, idx);
    }
  }

  /** The executor runs a submitted upload: it leaves the bag and executes
      `uploadAndArchive` as written. */
  function Fire(s: State, t: Task, a: Attempt): (r: State)
    requires t in s.tasks
    requires t.video.channel in s.folders && IsMp4(t.video.name)
    ensures r.folders.Keys == s.folders.Keys
    ensures t.video !in r.claims
    ensures a.reply != QuotaExceeded ==> r.tasks == s.tasks - multiset{t}
    ensures a.reply == QuotaExceeded ==> r.tasks[t] >= s.tasks[t] - 1
    ensures Ledger.Lines(r.folders[t.video.channel].history) ==
      Ledger.Lines(s.folders[t.video.channel].history) + (if Recorded(a) then [Ledger.Record(t.slot, t.video.name)] else [])
  {
    UploadAndArchiveAsWritten(s.(tasks := s.tasks - multiset{t}), t.video, t.slot, a)
  }

  /** `uploadAllNow`: upload every queued video in order, each stamped with
      the instant its attempt starts, without consulting claims or the
      next-upload time. */
  function UploadAllNow(s: State, c: string, listFails: bool, attempts: seq<Attempt>): (r: Result<State, ScheduleError>)
    requires c in s.folders
    requires listFails || |attempts| == |Queue(s.folders[c].pending)|
  {
    if listFails then Err(ListingFailed)
    else Ok(UploadEach(s, c, Queue(s.folders[c].pending), attempts))
  }

  /** The history lines a run over `names` appends: one per recorded
      upload, in order, stamped with the attempt's start instant. */
  function RecordedLines(names: seq<string>, attempts: seq<Attempt>): seq<string>
    requires |names| == |attempts|
  {
    if |names| == 0 then []
    else RecordedLine(names[0], attempts[0]) + RecordedLines(names[1..], attempts[1..])
  }

  /** The history line one attempt at `name` appends, if any. */
  function RecordedLine(name: string, a: Attempt): seq<string> {
    if Recorded(a) then [Ledger.Record(a.now, name)] else []
  }

  /** One upload of `uploadAllNow`, stamped with its attempt's start. */
  function UploadNow(s: State, c: string, name: string, a: Attempt): (r: State)
    requires c in s.folders && IsMp4(name)
    ensures r.folders.Keys == s.folders.Keys
    ensures forall c' | c' in s.folders && c' != c :: r.folders[c'] == s.folders[c']
    ensures Ledger.Lines(r.folders[c].history) == Ledger.Lines(s.folders[c].history) + RecordedLine(name, a)
    ensures Video(c, name) !in r.claims
  {
    UploadAndArchiveAsWritten(s, Video(c, name), a.now, a)
  }

  function UploadEach(s: State, c: string, names: seq<string>, attempts: seq<Attempt>): (r: State)
    requires c in s.folders
    requires |names| == |attempts|
    requires forall k :: 0 <= k < |names| ==> IsMp4(names[k])
    ensures r.folders.Keys == s.folders.Keys
    decreases |names|
  {
    if |names| == 0 then s
    else UploadEach(UploadNow(s, c, names[0], attempts[0]), c, names[1..], attempts[1..])
  }

  /** Uploading a sequence of videos appends one history line per recorded
      upload, in order. */
  lemma {:induction false} UploadEachHistory(s: State, c: string, names: seq<string>, attempts: seq<Attempt>)
    requires c in s.folders
    requires |names| == |attempts|
    requires forall k :: 0 <= k < |names| ==> IsMp4(names[k])
    ensures Ledger.Lines(UploadEach(s, c, names, attempts).folders[c].history)
         == Ledger.Lines(s.folders[c].history) + RecordedLines(names, attempts)
    decreases |names|
  {
    if |names| > 0 {
      var s' := UploadNow(s, c, names[0], attempts[0]);
      var before := Ledger.Lines(s.folders[c].history);
      var here := RecordedLine(names[0], attempts[0]);
      var later := RecordedLines(names[1..], attempts[1..]);
      UploadEachHistory(s', c, names[1..], attempts[1..]);
      SeqAssoc(before, here, later);
    }
  }

  /** Uploading a sequence of one channel's videos leaves every other
      channel's folders alone. */
  lemma {:induction false} UploadEachOthers(s: State, c: string, names: seq<string>, attempts: seq<Attempt>)
    requires c in s.folders
    requires |names| == |attempts|
    requires forall k :: 0 <= k < |names| ==> IsMp4(names[k])
    ensures forall c' | c' in s.folders && c' != c :: UploadEach(s, c, names, attempts).folders[c'] == s.folders[c']
    decreases |names|
  {
    if |names| > 0 {
      UploadEachOthers(UploadNow(s, c, names[0], attempts[0]), c, names[1..], attempts[1..]);
    }
  }
}
