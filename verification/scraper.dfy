/** `AIscraper`: choosing the script's title and text from the reply of the
    responses endpoint, and the fallbacks when the request or the parse
    fails. The HTTP exchange itself is an input. */
module Scraper {
  import opened Wrappers
  import opened Json

  /** `SearchResult`: a title and a text. */
  datatype SearchResult = SearchResult(title: string, text: string)

  const NO_TITLE: string := "No Title"
  const NOT_FOUND: SearchResult := SearchResult("Not found", "No valid output found in response.")

  /** An object member "type" whose text is `tag`. */
  predicate HasType(item: Json, tag: string) {
    item.JObj? && OptString(item.members, "type", "") == tag
  }

  predicate IsMessage(item: Json) {
    HasType(item, "message")
  }

  predicate IsOutputText(item: Json) {
    HasType(item, "output_text")
  }

  /** The inner loop: the index of the first "output_text" item of a
      message's content from `j` on, failing at the first element that is
      not an object. */
  function FindText(content: seq<Json>, j: nat): (r: Result<Option<nat>, JsonError>)
    requires j <= |content|
    ensures r.Ok? && r.value.Some? ==> j <= r.value.value < |content| && IsOutputText(content[r.value.value])
    decreases |content| - j
  {
    if j == |content| then Ok(None)
    else
      match GetObject(content, j)
      case Err(e) => Err(e)
      case Ok(item) =>
        if IsOutputText(content[j]) then Ok(Some(j))
        else FindText(content, j + 1)
  }

  /** What a message item contributes: its content array, or the error that
      `getJSONArray("content")` throws. */
  function Content(item: Json): Result<seq<Json>, JsonError>
    requires item.JObj?
  {
    GetArray(item.members, "content")
  }

  /** A message item whose content holds no "output_text" item and no
      non-object before the end: the outer loop passes over it. */
  predicate PassesOver(item: Json) {
    item.JObj? && (!IsMessage(item) || (Content(item).Ok? && FindText(Content(item).value, 0) == Ok(None)))
  }

  /** One turn of the outer loop on item `item` at index `i`: the
      exception it throws, the "output_text" index it finds in a message, or
      `None` when the loop moves on. */
  function Look(item: Json, i: nat): (r: Result<Option<nat>, JsonError>)
    ensures r.Ok? && r.value.Some? ==>
      && IsMessage(item) && Content(item).Ok?
      && FindText(Content(item).value, 0) == Ok(Some(r.value.value))
  {
    if !item.JObj? then Err(NotAnObject(i))
    else if !IsMessage(item) then Ok(None)
    else
      match Content(item)
      case Err(e) => Err(e)
      case Ok(content) => FindText(content, 0)
  }

  /** The outer loop: the first output item `i` that is a message whose
      content has an "output_text" item `j`; or the first exception. */
  function FindMessage(output: seq<Json>, i: nat): (r: Result<Option<(nat, nat)>, JsonError>)
    requires i <= |output|
    ensures r.Ok? && r.value.Some? ==>
      var (m, k) := r.value.value;
      && i <= m < |output| && IsMessage(output[m]) && Content(output[m]).Ok?
      && FindText(Content(output[m]).value, 0) == Ok(Some(k))
    decreases |output| - i
  {
    if i == |output| then Ok(None)
    else
      match Look(output[i], i)
      case Err(e) => Err(e)
      case Ok(Some(k)) => Ok(Some((i, k)))
      case Ok(None) => FindMessage(output, i + 1)
  }

  /** The loop moves on over an item exactly when it passes over it. */
  lemma LookPasses(item: Json, i: nat)
    ensures Look(item, i) == Ok(None) <==> PassesOver(item)
  {
  }

  /** A content item the inner loop moves on over. */
  predicate OtherObject(item: Json) {
    item.JObj? && !IsOutputText(item)
  }

  /** The inner loop's match is the first "output_text" item: everything
      before it is an object of another type. */
  lemma {:induction false} FindTextFirst(content: seq<Json>, j: nat)
    requires j <= |content|
    ensures var r := FindText(content, j);
      r.Ok? && r.value.Some? ==> forall k | j <= k < r.value.value :: OtherObject(content[k])
    decreases |content| - j
  {
    if j < |content| && OtherObject(content[j]) {
      FindTextFirst(content, j + 1);
      assert FindText(content, j) == FindText(content, j + 1);
    }
  }

  /** The inner loop finds nothing exactly when every item is an object of
      another type. */
  lemma {:induction false} FindTextNone(content: seq<Json>, j: nat)
    requires j <= |content|
    ensures FindText(content, j) == Ok(None) <==> forall k | j <= k < |content| :: OtherObject(content[k])
    decreases |content| - j
  {
    if j < |content| {
      FindTextNone(content, j + 1);
      if OtherObject(content[j]) {
        assert FindText(content, j) == FindText(content, j + 1);
      } else {
        assert FindText(content, j) != Ok(None);
      }
    }
  }

  /** The inner loop throws at the first non-object, and only when every
      item before it is an object of another type. */
  lemma {:induction false} FindTextError(content: seq<Json>, j: nat)
    requires j <= |content|
    ensures var r := FindText(content, j);
      r.Err? ==>
        && r.error.NotAnObject? && j <= r.error.index < |content| && !content[r.error.index].JObj?
        && forall k | j <= k < r.error.index :: OtherObject(content[k])
    decreases |content| - j
  {
    if j < |content| && OtherObject(content[j]) {
      FindTextError(content, j + 1);
      assert FindText(content, j) == FindText(content, j + 1);
    }
  }

  /** The outer loop's match is the first message with an "output_text"
      item: it passes over everything before it. */
  lemma {:induction false} FindMessageFirst(output: seq<Json>, i: nat)
    requires i <= |output|
    ensures var r := FindMessage(output, i);
      r.Ok? && r.value.Some? ==> forall n | i <= n < r.value.value.0 :: PassesOver(output[n])
    decreases |output| - i
  {
    if i < |output| {
      LookPasses(output[i], i);
      if PassesOver(output[i]) {
        FindMessageFirst(output, i + 1);
        assert FindMessage(output, i) == FindMessage(output, i + 1);
      }
    }
  }

  /** The outer loop finds nothing exactly when it passes over every item. */
  lemma {:induction false} FindMessageNone(output: seq<Json>, i: nat)
    requires i <= |output|
    ensures FindMessage(output, i) == Ok(None) <==> forall n | i <= n < |output| :: PassesOver(output[n])
    decreases |output| - i
  {
    if i < |output| {
      FindMessageNone(output, i + 1);
      LookPasses(output[i], i);
      if PassesOver(output[i]) {
        assert FindMessage(output, i) == FindMessage(output, i + 1);
      } else {
        assert FindMessage(output, i) != Ok(None);
      }
    }
  }

  /** Title and text of the chosen content item: its "text", and the
      "title" of its first annotation when it has a non-empty annotations
      array, else "No Title". */
  function Pick(item: seq<Member>): (r: Result<SearchResult, JsonError>)
    ensures r.Ok? ==> r.value.text == OptString(item, "text", "")
    ensures OptArray(item, "annotations").None? || OptArray(item, "annotations").value == [] ==>
      r == Ok(SearchResult(NO_TITLE, OptString(item, "text", "")))
    ensures r.Ok? && r.value.title != NO_TITLE ==>
      var notes := OptArray(item, "annotations").value;
      |notes| > 0 && notes[0].JObj? && r.value.title == OptString(notes[0].members, "title", "")
    ensures var notes := OptArray(item, "annotations");
      notes.Some? && |notes.value| > 0 ==>
        && (r.Ok? <==> notes.value[0].JObj?)
        && (r.Ok? ==> r.value.title == OptString(notes.value[0].members, "title", ""))
        && (r.Err? ==> r.error == NotAnObject(0))
  {
    var text := OptString(item, "text", "");
    match OptArray(item, "annotations")
    case Some(notes) =>
      if |notes| > 0 then
        match GetObject(notes, 0)
        case Ok(first) => Ok(SearchResult(OptString(first, "title", ""), text))
        case Err(e) => Err(e)
      else Ok(SearchResult(NO_TITLE, text))
    case None => Ok(SearchResult(NO_TITLE, text))
  }

  /** The value of `catch (Exception e)` in the extraction. */
  function ParseError(e: JsonError): (r: SearchResult)
    ensures r.title == "Error"
  {
    SearchResult("Error", "Error parsing JSON: " + Message(e))
  }

  /** `extractTitleAndText(json)`: the response body, given as the tree it
      denotes or the parser's error. Every exception becomes an "Error"
      result; no match gives the fixed "Not found" result. */
  function ExtractTitleAndText(doc: Result<Json, string>): (r: SearchResult)
    ensures doc.Err? ==> r == ParseError(Unparsable(doc.error))
    ensures doc.Ok? && !doc.value.JObj? ==> r == ParseError(NotAnObjectText)
    ensures doc.Ok? && doc.value.JObj? && GetArray(doc.value.members, "output").Err? ==>
      r == ParseError(GetArray(doc.value.members, "output").error)
  {
    match doc
    case Err(m) => ParseError(Unparsable(m))
    case Ok(root) =>
      if !root.JObj? then ParseError(NotAnObjectText)
      else
        match GetArray(root.members, "output")
        case Err(e) => ParseError(e)
        case Ok(output) => FromOutput(output)
  }

  /** The loops over the "output" array and what they choose. */
  function FromOutput(output: seq<Json>): (r: SearchResult)
    ensures FindMessage(output, 0) == Ok(None) ==> r == NOT_FOUND
    ensures FindMessage(output, 0).Err? ==> r == ParseError(FindMessage(output, 0).error)
  {
    match FindMessage(output, 0)
    case Err(e) => ParseError(e)
    case Ok(None) => NOT_FOUND
    case Ok(Some((m, k))) => FromMatch(output[m], k)
  }

  /** The result read from item `k` of a matching message's content. */
  function FromMatch(item: Json, k: nat): SearchResult
    requires IsMessage(item) && Content(item).Ok?
    requires FindText(Content(item).value, 0) == Ok(Some(k))
  {
    match Pick(Content(item).value[k].members)
    case Ok(result) => result
    case Err(e) => ParseError(e)
  }

  /** What the HTTP exchange produced: an exception (whose message may be
      null) or a response body. */
  datatype Exchange = Failed(message: Option<string>) | Body(doc: Result<Json, string>)

  /** `search(prompt)`: a failed exchange gives "Error" with the exception's
      message after "Error occurred: "; any body is handed to the extraction,
      which never throws. */
  function Search(x: Exchange): (r: SearchResult)
    ensures x.Failed? ==> r.title == "Error"
    ensures x.Failed? && x.message.Some? ==> r.text == "Error occurred: " + x.message.value
    ensures x.Body? ==> r == ExtractTitleAndText(x.doc)
  {
    match x
    case Failed(m) => SearchResult("Error", "Error occurred: " + m.GetOr("null"))
    case Body(doc) => ExtractTitleAndText(doc)
  }

  // ---------------------------------------------------------------------
  // The selection rule
  // ---------------------------------------------------------------------

  /** A well-formed reply: the root is an object with an "output" array. */
  function Output(doc: Result<Json, string>): Option<seq<Json>> {
    if doc.Ok? && doc.value.JObj? && GetArray(doc.value.members, "output").Ok?
    then Some(GetArray(doc.value.members, "output").value)
    else None
  }

  /** When every output item is passed over, the result is "Not found". */
  lemma NoMatchGivesNotFound(doc: Result<Json, string>)
    requires Output(doc).Some?
    requires forall n | 0 <= n < |Output(doc).value| :: PassesOver(Output(doc).value[n])
    ensures ExtractTitleAndText(doc) == NOT_FOUND
  {
    FindMessageNone(Output(doc).value, 0);
  }

  /** The selection rule stated directly: if output item `m` is the first
      message with an "output_text" item, `k` is the first such item in its
      content, and everything before them is well-formed, the result is the
      title and text picked from item `k`. */
  lemma PicksFirstMatch(doc: Result<Json, string>, m: nat, k: nat)
    requires Output(doc).Some? && m < |Output(doc).value|
    requires forall n | 0 <= n < m :: PassesOver(Output(doc).value[n])
    requires IsMessage(Output(doc).value[m]) && Content(Output(doc).value[m]).Ok?
    requires var content := Content(Output(doc).value[m]).value;
      && k < |content| && IsOutputText(content[k])
      && forall j | 0 <= j < k :: OtherObject(content[j])
    requires Pick(Content(Output(doc).value[m]).value[k].members).Ok?
    ensures ExtractTitleAndText(doc) == Pick(Content(Output(doc).value[m]).value[k].members).value
  {
    var output := Output(doc).value;
    FindTextAt(Content(output[m]).value, 0, k);
    FindMessageAt(output, 0, m, k);
  }

  lemma {:induction false} FindTextAt(content: seq<Json>, j: nat, k: nat)
    requires j <= k < |content| && IsOutputText(content[k])
    requires forall i | j <= i < k :: OtherObject(content[i])
    ensures FindText(content, j) == Ok(Some(k))
    decreases k - j
  {
    if j < k {
      FindTextAt(content, j + 1, k);
    }
  }

  lemma {:induction false} FindMessageAt(output: seq<Json>, i: nat, m: nat, k: nat)
    requires i <= m < |output|
    requires forall n | i <= n < m :: PassesOver(output[n])
    requires IsMessage(output[m]) && Content(output[m]).Ok?
    requires FindText(Content(output[m]).value, 0) == Ok(Some(k))
    ensures FindMessage(output, i) == Ok(Some((m, k)))
    decreases m - i
  {
    if i < m {
      FindMessageAt(output, i + 1, m, k);
    }
  }

  /** An object item that is not a message, put before the rest, is
      skipped: whenever the rest is read without an exception, the result is
      the one for the rest alone. */
  lemma SkipsNonMessage(root: seq<Member>, x: Json, rest: seq<Json>)
    requires x.JObj? && !IsMessage(x)
    requires forall i | 0 <= i < |root| :: root[i].key != "output"
    requires FindMessage(rest, 0).Ok?
    ensures ExtractTitleAndText(Ok(JObj(root + [Member("output", JArr([x] + rest))])))
         == ExtractTitleAndText(Ok(JObj(root + [Member("output", JArr(rest))])))
  {
    OutputOf(root, [x] + rest);
    OutputOf(root, rest);
    FromOutputSkips(x, rest);
  }

  lemma FromOutputSkips(x: Json, rest: seq<Json>)
    requires x.JObj? && !IsMessage(x)
    requires FindMessage(rest, 0).Ok?
    ensures FromOutput([x] + rest) == FromOutput(rest)
  {
    var all := [x] + rest;
    FindMessageShift(x, rest, 0);
    assert FindMessage(all, 0) == FindMessage(all, 1);
    match FindMessage(rest, 0).value
    case None =>
    case Some((m, k)) =>
      assert all[m + 1] == rest[m];
      FromOutputFound(all, m + 1, k);
      FromOutputFound(rest, m, k);
  }

  lemma FromOutputFound(output: seq<Json>, m: nat, k: nat)
    requires FindMessage(output, 0) == Ok(Some((m, k)))
    ensures m < |output| && IsMessage(output[m]) && Content(output[m]).Ok?
    ensures FindText(Content(output[m]).value, 0) == Ok(Some(k))
    ensures FromOutput(output) == FromMatch(output[m], k)
  {
  }

  /** The "output" member of an object whose earlier members have other keys. */
  lemma OutputOf(root: seq<Member>, output: seq<Json>)
    requires forall i | 0 <= i < |root| :: root[i].key != "output"
    ensures GetArray(root + [Member("output", JArr(output))], "output") == Ok(output)
  {
    LookupPrefix(root, "output", Member("output", JArr(output)), []);
    assert root + [Member("output", JArr(output))] + [] == root + [Member("output", JArr(output))];
  }

  /** The outer loop over `[x] + rest` from `i + 1` is the loop over `rest`
      from `i`, with output indices one higher. */
  lemma {:induction false} FindMessageShift(x: Json, rest: seq<Json>, i: nat)
    requires i <= |rest|
    ensures FindMessage(rest, i).Ok? ==> FindMessage([x] + rest, i + 1) == Ok(ShiftFound(FindMessage(rest, i).value))
    ensures FindMessage(rest, i).Err? ==> FindMessage([x] + rest, i + 1).Err?
    decreases |rest| - i
  {
    var all := [x] + rest;
    if i < |rest| {
      assert all[i + 1] == rest[i];
      LookShift(rest[i], i);
      FindMessageShift(x, rest, i + 1);
    }
  }

  /** The index of an item only shows in the exception for a non-object. */
  lemma LookShift(item: Json, i: nat)
    ensures Look(item, i).Ok? ==> Look(item, i + 1) == Look(item, i)
    ensures Look(item, i).Err? ==> Look(item, i + 1).Err?
  {
  }

  function ShiftFound(found: Option<(nat, nat)>): Option<(nat, nat)> {
    match found
    case Some((m, k)) => Some((m + 1, k))
    case None => None
  }

  /** The first match wins: items after a matching message never change
      the result. */
  lemma FirstMatchWins(root: seq<Member>, output: seq<Json>, more: seq<Json>)
    requires forall i | 0 <= i < |root| :: root[i].key != "output"
    requires FindMessage(output, 0).Ok? && FindMessage(output, 0).value.Some?
    ensures ExtractTitleAndText(Ok(JObj(root + [Member("output", JArr(output + more))])))
         == ExtractTitleAndText(Ok(JObj(root + [Member("output", JArr(output))])))
  {
    OutputOf(root, output + more);
    OutputOf(root, output);
    FindMessageExtend(output, more, 0);
    var m := FindMessage(output, 0).value.value.0;
    assert (output + more)[m] == output[m];
  }

  lemma {:induction false} FindMessageExtend(output: seq<Json>, more: seq<Json>, i: nat)
    requires i <= |output|
    requires FindMessage(output, i).Ok? && FindMessage(output, i).value.Some?
    ensures FindMessage(output + more, i) == FindMessage(output, i)
    decreases |output| - i
  {
    var all := output + more;
    assert all[i] == output[i];
    if FindMessage(output, i).value.value.0 > i {
      FindMessageExtend(output, more, i + 1);
    }
  }
}
