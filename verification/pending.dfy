/** A channel's pending directory as the scheduler sees it: a listing in the
    order the file system yields it, the ".mp4" filter, and the sorted queue. */
module Pending {
  import opened Wrappers
  import opened Text
  import opened Order

  /** The listing filtered to ".mp4" names, in listing order. */
  function Mp4s(listing: seq<string>): (r: seq<string>)
    ensures forall x :: x in r <==> x in listing && IsMp4(x)
    ensures forall x :: multiset(r)[x] == (if IsMp4(x) then multiset(listing)[x] else 0)
  {
    if |listing| == 0 then []
    else
      assert listing == [listing[0]] + listing[1..];
      (if IsMp4(listing[0]) then [listing[0]] else []) + Mp4s(listing[1..])
  }

  /** The pending queue of `scheduleAll`, `rescheduleBatchForTomorrow` and
      `uploadAllNow`: the ".mp4" files in natural order. */
  function Queue(listing: seq<string>): (r: seq<string>)
    ensures Sorted(r)
    ensures forall x :: x in r <==> x in listing && IsMp4(x)
    ensures forall x :: multiset(r)[x] == (if IsMp4(x) then multiset(listing)[x] else 0)
  {
    var m := Mp4s(listing);
    var r := Sort(m);
    assert forall x :: x in r <==> x in multiset(m);
    r
  }

  /** The queue depends only on which files are pending, not on the order the
      directory is listed in, so a re-listing reproduces the same plan. */
  lemma QueueIgnoresListingOrder(a: seq<string>, b: seq<string>)
    requires multiset(a) == multiset(b)
    ensures Queue(a) == Queue(b)
  {
    assert forall x :: multiset(Queue(a))[x] == multiset(Queue(b))[x];
    assert multiset(Queue(a)) == multiset(Queue(b));
    SortedUnique(Queue(a), Queue(b));
  }

  /** The pre-fill count `Files.list(pending).filter(".mp4").count()`. */
  function Mp4Count(listing: seq<string>): nat {
    |Mp4s(listing)|
  }

  /** `Files.list(pending).anyMatch(".mp4")`. */
  predicate HasMp4(listing: seq<string>) {
    exists k :: 0 <= k < |listing| && IsMp4(listing[k])
  }

  /** The listing after `name` has been moved out of the directory. */
  function RemoveFile(listing: seq<string>, name: string): (r: seq<string>)
    ensures forall x :: x in r <==> x in listing && x != name
    ensures forall x :: x != name ==> multiset(r)[x] == multiset(listing)[x]
  {
    if |listing| == 0 then []
    else
      assert listing == [listing[0]] + listing[1..];
      (if listing[0] == name then [] else [listing[0]]) + RemoveFile(listing[1..], name)
  }

  /** `list.indexOf(name)`: the first position holding `name`. */
  function IndexOf(q: seq<string>, name: string): (r: Option<nat>)
    ensures r.None? <==> name !in q
    ensures r.Some? ==> r.value < |q| && q[r.value] == name && name !in q[..r.value]
  {
    if |q| == 0 then None
    else if q[0] == name then Some(0)
    else
      match IndexOf(q[1..], name)
      case None => None
      case Some(k) =>
        assert q[..k + 1] == [q[0]] + q[1..][..k];
        Some(k + 1)
  }
}
