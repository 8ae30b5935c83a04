/** The upload manager's `Main`: the periodic per-channel tick (pre-fill,
    then `scheduleAll`, guarded by a running flag) and the one-minute status
    tick with its countdown and per-channel report.

    Each tick run is one step over a `Manager`, which adds to the scheduler
    state what `Main` itself keeps: the running flags, the shared countdown,
    the builder jobs submitted to the executor, and the channels whose
    periodic task has died of an uncaught exception. */
module Coordinator {
  import opened Wrappers
  import opened Pending
  import opened Scheduler
  import Ledger
  import SchedulerProps

  /** `timeUntilNextCheck`, in seconds, starts at and is reset to 15 minutes. */
  const CHECK_SECONDS: int := 15 * 60

  /** A channel with fewer pending ".mp4" files than this is refilled. */
  const PREFILL_BELOW: nat := 5

  /** The refill asks the video builder for this many videos. */
  const PREFILL_COUNT: string := "3"

  const MINUTE: int := 60_000

  datatype Manager = Manager(
    sched: State,
    running: set<string>,
    countdown: int,
    jobs: seq<seq<string>>,
    stopped: set<string>)

  /** What one run of a channel's tick observes from outside: whether the
      pre-fill listing throws, the two failure points of `scheduleAll`, and
      the clock. */
  datatype Probe = Probe(countFails: bool, listFails: bool, historyFails: bool, now: int)

  /** The builder job of the pre-fill: `vid.builder.Main.main({channel, "3"})`. */
  function PrefillJob(c: string): (r: seq<string>)
    ensures |r| == 2 && r[0] == c
  {
    [c, PREFILL_COUNT]
  }

  /** The body inside `try`: count, maybe submit a refill job, then plan.
      An `IOException` (a failed listing or history read) is caught and
      leaves everything after the throw undone; an unparsable history
      instant is not an `IOException`, escapes the periodic job, and the executor
      never runs this channel's tick again. */
  function TickBody(m: Manager, c: string, p: Probe): (r: Manager)
    requires c in m.sched.folders
    ensures r.running == m.running && r.countdown == m.countdown
    ensures p.countFails ==> r == m
    ensures !p.countFails ==>
      r.jobs == m.jobs + (if Mp4Count(m.sched.folders[c].pending) < PREFILL_BELOW then [PrefillJob(c)] else [])
    ensures !p.countFails ==>
      match ScheduleAll(m.sched, c, p.now, p.listFails, p.historyFails)
      case Ok(s') => r.sched == s' && r.stopped == m.stopped
      case Err(MalformedHistory(_)) => r.sched == m.sched && r.stopped == m.stopped + {c}
      case Err(_) => r.sched == m.sched && r.stopped == m.stopped
  {
    if p.countFails then m
    else
      var refilled :=
        if Mp4Count(m.sched.folders[c].pending) < PREFILL_BELOW
        then m.(jobs := m.jobs + [PrefillJob(c)])
        else m;
      match ScheduleAll(m.sched, c, p.now, p.listFails, p.historyFails)
      case Ok(s') => refilled.(sched := s')
      case Err(MalformedHistory(_)) => refilled.(stopped := refilled.stopped + {c})
      case Err(_) => refilled
  }

  /** One scheduled run of a channel's tick. A dead task does not run; a
      run that finds the flag already set skips; otherwise the flag is set,
      the body runs, and `finally` clears the flag and resets the countdown. */
  function Tick(m: Manager, c: string, p: Probe): (r: Manager)
    requires c in m.sched.folders
    ensures c in m.stopped || c in m.running ==> r == m
    ensures c !in m.stopped && c !in m.running ==>
      && r.running == m.running
      && r.countdown == CHECK_SECONDS
      && m.stopped <= r.stopped
  {
    if c in m.stopped || c in m.running then m
    else
      var body := TickBody(m.(running := m.running + {c}), c, p);
      body.(running := body.running - {c}, countdown := CHECK_SECONDS)
  }

  /** A tick changes the scheduler state only through `scheduleAll`. */
  lemma TickPlansOrKeeps(m: Manager, c: string, p: Probe)
    requires c in m.sched.folders && c !in m.stopped && c !in m.running
    ensures var r := Tick(m, c, p);
      || r.sched == m.sched
      || (!p.countFails && ScheduleAll(m.sched, c, p.now, p.listFails, p.historyFails) == Ok(r.sched))
  {
  }

  /** A run dies exactly when its count succeeds and `scheduleAll` meets an
      unparsable history instant; I/O failures are caught and the channel
      keeps its periodic tick. */
  lemma TickStops(m: Manager, c: string, p: Probe)
    requires c in m.sched.folders && c !in m.stopped && c !in m.running
    ensures var plan := ScheduleAll(m.sched, c, p.now, p.listFails, p.historyFails);
      c in Tick(m, c, p).stopped <==> !p.countFails && plan.Err? && plan.error.MalformedHistory?
  {
  }

  /** A channel whose tick has died is never planned again, and no other
      tick brings it back. */
  lemma StoppedStaysStopped(m: Manager, c: string, d: string, p: Probe)
    requires c in m.sched.folders && d in m.sched.folders
    requires c in m.stopped
    ensures Tick(m, c, p) == m
    ensures c in Tick(m, d, p).stopped
  {
  }

  /** A run refills exactly when its count succeeds and finds fewer than
      five ".mp4" files, and then asks for three more videos of its own
      channel. */
  lemma TickRefills(m: Manager, c: string, p: Probe)
    requires c in m.sched.folders && c !in m.stopped && c !in m.running
    ensures var r := Tick(m, c, p);
      && (!p.countFails && Mp4Count(m.sched.folders[c].pending) < PREFILL_BELOW ==> r.jobs == m.jobs + [[c, "3"]])
      && (p.countFails || Mp4Count(m.sched.folders[c].pending) >= PREFILL_BELOW ==> r.jobs == m.jobs)
  {
  }

  /** The invariant of the scheduler state survives every tick. */
  lemma TickKeepsValid(m: Manager, c: string, p: Probe)
    requires c in m.sched.folders && Valid(m.sched)
    ensures Valid(Tick(m, c, p).sched)
  {
    if c !in m.stopped && c !in m.running && !p.countFails {
      match ScheduleAll(m.sched, c, p.now, p.listFails, p.historyFails)
      case Ok(s') =>
        SchedulerProps.ScheduleAllKeepsValid(m.sched, c, p.now, p.listFails, p.historyFails);
      case Err(_) =>
    }
  }

  // ---------------------------------------------------------------------
  // The status tick
  // ---------------------------------------------------------------------

  /** `getAndAdd(-60)` on the countdown: a positive old value is shown in
      whole minutes and lowered by a minute; otherwise nothing is shown and
      the countdown is pinned at zero. */
  function CountDown(secs: int): (r: (Option<int>, int))
    ensures secs > 0 ==> r.0.Some? && r.0.value * 60 <= secs < (r.0.value + 1) * 60 && r.1 == secs - 60
    ensures secs <= 0 ==> r == (None, 0)
  {
    if secs > 0 then (Some(secs / 60), secs - 60) else (None, 0)
  }

  /** The countdown after `k` status ticks with no channel tick between. */
  function CountDownAfter(secs: int, k: nat): int
    decreases k
  {
    if k == 0 then secs else CountDownAfter(CountDown(secs).1, k - 1)
  }

  /** After a channel tick resets it, the status ticks show 15, 14, ... 1
      minutes, and the countdown then rests at zero. */
  lemma {:induction false} CountDownFromReset(k: nat)
    requires k <= 15
    ensures CountDownAfter(CHECK_SECONDS, k) == CHECK_SECONDS - 60 * k
    ensures k < 15 ==> CountDown(CountDownAfter(CHECK_SECONDS, k)).0 == Some(15 - k)
  {
    if k > 0 {
      CountDownAfterStep(CHECK_SECONDS, k - 1);
      CountDownFromReset(k - 1);
    }
  }

  lemma {:induction false} CountDownAfterStep(secs: int, k: nat)
    ensures CountDownAfter(secs, k + 1) == CountDown(CountDownAfter(secs, k)).1
    decreases k
  {
    if k > 0 {
      CountDownAfterStep(CountDown(secs).1, k - 1);
    }
  }

  /** Once at zero, the countdown stays there and shows nothing. */
  lemma {:induction false} CountDownRests(k: nat)
    ensures CountDownAfter(CHECK_SECONDS, 15 + k) == 0
    ensures CountDown(CountDownAfter(CHECK_SECONDS, 15 + k)).0 == None
  {
    if k == 0 {
      CountDownFromReset(15);
    } else {
      CountDownRests(k - 1);
      CountDownAfterStep(CHECK_SECONDS, 15 + k - 1);
    }
  }

  /** `Math.max(Duration.between(now, at).toMinutes(), 0)`: whole minutes
      until `at`, truncated, and zero when `at` is not in the future. */
  function Minutes(ms: int): (r: nat)
    ensures ms <= 0 ==> r == 0
    ensures ms > 0 ==> r * MINUTE <= ms < (r + 1) * MINUTE
  {
    if ms > 0 then ms / MINUTE else 0
  }

  /** One line of the status report. */
  datatype Line =
    | NextUpload(channel: string, minutes: nat, at: int, name: string)
    | Unassigned(channel: string, minutes: nat, at: int)
    | CheckFailed(channel: string)

  /** The index of the first claimed name of the sorted queue at or after
      `i` (`filter(scheduledVideos::contains).findFirst()`). */
  function FirstClaimed(claims: set<Video>, c: string, q: seq<string>, i: nat): (r: Option<nat>)
    requires i <= |q|
    ensures r.None? <==> forall j | i <= j < |q| :: Video(c, q[j]) !in claims
    ensures r.Some? ==> i <= r.value < |q| && Video(c, q[r.value]) in claims
    ensures r.Some? ==> forall j | i <= j < r.value :: Video(c, q[j]) !in claims
    decreases |q| - i
  {
    if i == |q| then None
    else if Video(c, q[i]) in claims then Some(i)
    else FirstClaimed(claims, c, q, i + 1)
  }

  /** The report line for channel `c`: the first claimed pending video with
      the channel's next-upload time (the clock when none is recorded), else
      the next-upload time alone, else nothing; a failed listing gives an
      error line. */
  function ChannelLine(s: State, c: string, now: int, listFails: bool): (r: Option<Line>)
    requires c in s.folders
    ensures listFails ==> r == Some(CheckFailed(c))
    ensures r.Some? ==> r.value.channel == c
  {
    if listFails then Some(CheckFailed(c))
    else
      var q := Queue(s.folders[c].pending);
      match FirstClaimed(s.claims, c, q, 0)
      case Some(k) =>
        var at := if c in s.next then s.next[c] else now;
        Some(NextUpload(c, Minutes(at - now), at, q[k]))
      case None =>
        if c in s.next then Some(Unassigned(c, Minutes(s.next[c] - now), s.next[c]))
        else None
  }

  /** What a report line says: a named video is the first claimed one of
      the sorted queue, and no line is printed only when nothing of the
      queue is claimed and no time is recorded. */
  lemma ChannelLineMeaning(s: State, c: string, now: int)
    requires c in s.folders
    ensures var r := ChannelLine(s, c, now, false);
      var q := Queue(s.folders[c].pending);
      && (r.None? <==> c !in s.next && forall j | 0 <= j < |q| :: Video(c, q[j]) !in s.claims)
      && (r.Some? && r.value.NextUpload? ==>
            && Video(c, r.value.name) in s.claims && r.value.name in q
            && FirstClaimed(s.claims, c, q, 0).Some?
            && r.value.name == q[FirstClaimed(s.claims, c, q, 0).value]
            && r.value.at == (if c in s.next then s.next[c] else now)
            && r.value.minutes == Minutes(r.value.at - now))
      && (r.Some? && r.value.Unassigned? ==>
            && c in s.next && r.value.at == s.next[c]
            && r.value.minutes == Minutes(s.next[c] - now)
            && forall j | 0 <= j < |q| :: Video(c, q[j]) !in s.claims)
      && !(r.Some? && r.value.CheckFailed?)
  {
  }

  /** The status tick: count down, then report every channel in turn. It
      reads the scheduler state and writes only the countdown. */
  function Status(m: Manager, channels: seq<string>, now: int, failing: set<string>): (r: (Manager, Option<int>, seq<Line>))
    requires forall i | 0 <= i < |channels| :: channels[i] in m.sched.folders
    ensures r.0 == m.(countdown := CountDown(m.countdown).1)
    ensures r.1 == CountDown(m.countdown).0
    ensures r.2 == Report(m.sched, channels, now, failing)
  {
    var cd := CountDown(m.countdown);
    (m.(countdown := cd.1), cd.0, Report(m.sched, channels, now, failing))
  }

  /** The line each channel would print, in channel order. */
  function ChannelLines(s: State, channels: seq<string>, now: int, failing: set<string>): (r: seq<Option<Line>>)
    requires forall i | 0 <= i < |channels| :: channels[i] in s.folders
    ensures |r| == |channels|
    ensures forall i | 0 <= i < |channels| :: r[i] == ChannelLine(s, channels[i], now, channels[i] in failing)
  {
    seq(|channels|, i requires 0 <= i < |channels| => ChannelLine(s, channels[i], now, channels[i] in failing))
  }

  /** The lines of the status tick, in channel order: each line is the one
      `ChannelLine` gives for its channel, every channel that has a line
      contributes it, and listing each channel once gives at most one line
      per channel. */
  function Report(s: State, channels: seq<string>, now: int, failing: set<string>): (r: seq<Line>)
    requires forall i | 0 <= i < |channels| :: channels[i] in s.folders
    ensures |r| <= |channels|
    ensures forall line | line in r ::
      && line.channel in channels && line.channel in s.folders
      && ChannelLine(s, line.channel, now, line.channel in failing) == Some(line)
    ensures forall i | 0 <= i < |channels| ::
      ChannelLine(s, channels[i], now, channels[i] in failing).Some? ==>
        ChannelLine(s, channels[i], now, channels[i] in failing).value in r
    ensures (forall i, j | 0 <= i < j < |channels| :: channels[i] != channels[j]) ==>
      forall i, j | 0 <= i < j < |r| :: r[i].channel != r[j].channel
  {
    var opts := ChannelLines(s, channels, now, failing);
    ReportLines(s, channels, now, failing);
    Keep(opts)
  }

  lemma ReportLines(s: State, channels: seq<string>, now: int, failing: set<string>)
    requires forall i | 0 <= i < |channels| :: channels[i] in s.folders
    ensures var r := Keep(ChannelLines(s, channels, now, failing));
      && (forall i | 0 <= i < |channels| ::
            ChannelLine(s, channels[i], now, channels[i] in failing).Some? ==>
              ChannelLine(s, channels[i], now, channels[i] in failing).value in r)
      && (forall line | line in r ::
            && line.channel in channels && line.channel in s.folders
            && ChannelLine(s, line.channel, now, line.channel in failing) == Some(line))
      && ((forall i, j | 0 <= i < j < |channels| :: channels[i] != channels[j]) ==>
            forall i, j | 0 <= i < j < |r| :: r[i].channel != r[j].channel)
  {
    var opts := ChannelLines(s, channels, now, failing);
    forall line | line in Keep(opts)
      ensures line.channel in channels && line.channel in s.folders
      ensures ChannelLine(s, line.channel, now, line.channel in failing) == Some(line)
    {
      var i :| 0 <= i < |opts| && opts[i] == Some(line);
      assert line.channel == channels[i];
    }
    if forall i, j | 0 <= i < j < |channels| :: channels[i] != channels[j] {
      forall i, j | 0 <= i < j < |opts| && opts[i].Some? && opts[j].Some?
        ensures opts[i].value.channel != opts[j].value.channel
      {
        assert opts[i].value.channel == channels[i] && opts[j].value.channel == channels[j];
      }
      KeepDistinct(opts);
    }
  }

  /** The lines present in `opts`, in order. */
  function Keep(opts: seq<Option<Line>>): (r: seq<Line>)
    ensures |r| <= |opts|
    ensures forall line | line in r :: Some(line) in opts
    ensures forall i | 0 <= i < |opts| && opts[i].Some? :: opts[i].value in r
  {
    if |opts| == 0 then []
    else
      var rest := Keep(opts[1..]);
      assert forall i | 1 <= i < |opts| :: opts[i] == opts[1..][i - 1];
      match opts[0]
      case Some(line) => [line] + rest
      case None => rest
  }

  /** Keeping the lines of distinct channels keeps them distinct. */
  lemma {:induction false} KeepDistinct(opts: seq<Option<Line>>)
    requires forall i, j | 0 <= i < j < |opts| && opts[i].Some? && opts[j].Some? ::
      opts[i].value.channel != opts[j].value.channel
    ensures var r := Keep(opts);
      forall i, j | 0 <= i < j < |r| :: r[i].channel != r[j].channel
    decreases |opts|
  {
    if |opts| > 0 {
      var tail := opts[1..];
      assert forall i | 0 <= i < |tail| :: tail[i] == opts[i + 1];
      KeepDistinct(tail);
      var rest := Keep(tail);
      assert forall i, j | 0 <= i < j < |Keep(tail)| :: Keep(tail)[i].channel != Keep(tail)[j].channel;
      match opts[0]
      case None =>
        assert Keep(opts) == rest;
      case Some(line) =>
        var r := [line] + rest;
        assert Keep(opts) == r;
        forall j | 0 < j < |r| ensures r[j].channel != line.channel {
          assert r[j] == rest[j - 1] && rest[j - 1] in rest;
          var k :| 0 <= k < |tail| && tail[k] == Some(r[j]);
          assert opts[k + 1] == Some(r[j]);
        }
    }
  }

  /** The first plan of a channel claims the head of its queue and records
      the first slot as the channel's next-upload time. */
  lemma PlanClaimsHead(s: State, c: string, now: int, first: int)
    requires c in s.folders
    requires Queue(s.folders[c].pending) != []
    requires Ledger.FirstSlot(s.folders[c].history, now) == Ok(first)
    requires c !in s.next
    requires forall v | v in s.claims :: v.channel != c
    ensures var q := Queue(s.folders[c].pending);
      var r := ScheduleAll(s, c, now, false, false);
      && r.Ok? && r.value.folders == s.folders
      && Video(c, q[0]) in r.value.claims
      && c in r.value.next && r.value.next[c] == first
  {
    var q := Queue(s.folders[c].pending);
    ScheduleAllPlans(s, c, now, first);
    assert Video(c, q[0]) in VideosFrom(c, q, 0);
  }

  /** With the head of the queue claimed, the report names it with the
      minutes until the channel's next-upload time; together with
      `PlanClaimsHead` this is the status a channel shows after its first
      plan. */
  lemma ChannelLineHead(s: State, c: string, now: int)
    requires c in s.folders && c in s.next
    requires var q := Queue(s.folders[c].pending); |q| > 0 && Video(c, q[0]) in s.claims
    ensures ChannelLine(s, c, now, false)
      == Some(NextUpload(c, Minutes(s.next[c] - now), s.next[c], Queue(s.folders[c].pending)[0]))
  {
    FirstClaimedHead(s.claims, c, Queue(s.folders[c].pending));

  }

  lemma FirstClaimedHead(claims: set<Video>, c: string, q: seq<string>)
    requires |q| > 0 && Video(c, q[0]) in claims
    ensures FirstClaimed(claims, c, q, 0) == Some(0)
  {
  }
}
