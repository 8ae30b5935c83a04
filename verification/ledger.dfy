/** The per-channel upload history file, upload_history.txt, and the
    time-slot rule that reads it.

    Time is an integer count of milliseconds. An instant is written into the
    history as signed decimal text in place of Java's ISO-8601 rendering; all
    the model relies on is what both renderings provide: the text contains no
    comma and parses back to the same instant. */
module Ledger {
  import opened Wrappers
  import opened Text

  const HOUR: int := 3_600_000
  /** The minimum spacing between two uploads of one channel: 5 hours. */
  const SPACING: int := 5 * HOUR
  /** The back-off after the upload quota is exhausted: 1 day. */
  const DAY: int := 24 * HOUR

  /** The lines of upload_history.txt, or `None` when the file is absent. */
  type History = Option<seq<string>>

  function Lines(h: History): seq<string> {
    h.GetOr([])
  }

  /** The line `scheduledTime + "," + filename` written after an upload. */
  function Record(slot: int, name: string): string {
    DecimalText(slot) + "," + name
  }

  /** `Files.write(history, record, CREATE, APPEND)`. */
  function Append(h: History, line: string): History {
    Some(Lines(h) + [line])
  }

  /** `readLastUploadTime`: the instant before the first comma of the last
      line; `None` when that text does not parse. */
  function LastUploadTime(lines: seq<string>): Option<int>
    requires 0 < |lines|
  {
    ParseDecimal(BeforeFirstComma(lines[|lines| - 1]))
  }

  /** `firstScheduled` in `scheduleAll`: `now` when the history is missing or
      empty, otherwise the later of the last upload plus the spacing and
      `now`. An unparsable last line is an error carrying that line. */
  function FirstSlot(h: History, now: int): (r: Result<int, string>)
    ensures Lines(h) == [] ==> r == Ok(now)
    ensures r.Ok? ==> now <= r.value
    ensures Lines(h) != [] ==> (r.Err? <==> LastUploadTime(Lines(h)).None?)
    ensures r.Err? ==> r.error == Lines(h)[|Lines(h)| - 1]
    ensures Lines(h) != [] && r.Ok? ==>
      var last := LastUploadTime(Lines(h)).value;
      last + SPACING <= r.value && (r.value == now || r.value == last + SPACING)
  {
    var lines := Lines(h);
    if |lines| == 0 then Ok(now)
    else
      match LastUploadTime(lines)
      case None => Err(lines[|lines| - 1])
      case Some(last) => Ok(Max(last + SPACING, now))
  }

  /** After a record for `slot` is appended, the next batch may start no
      earlier than `slot` plus the spacing: the history round-trips the
      instant it stores, whatever the file name and earlier lines are. */
  lemma FirstSlotAfterRecord(h: History, slot: int, name: string, now: int)
    ensures FirstSlot(Append(h, Record(slot, name)), now) == Ok(Max(slot + SPACING, now))
  {
    var line := Record(slot, name);
    DecimalRoundTrip(slot);
    assert line[|DecimalText(slot)|] == ',';
    assert BeforeFirstComma(line) == DecimalText(slot) by {
      assert line[..|DecimalText(slot)|] == DecimalText(slot);
    }
  }
}
