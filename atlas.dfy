/**
 * CommonAtlasProcesses: reading the answers of the Atlas REST API. The
 * `items` entry of a response is the text of a nested list of maps
 * (`[{event=FAILED, message=...}]`); `items` cuts it back into keys and
 * values, and the other helpers read the task-log event and message from it.
 */
module AtlasProcesses {
  import opened Wrappers
  import opened Faults
  import opened JavaText

  /** The events of an Atlas task log (`AtlasEvents`), as their names. */
  const SCHEDULED := "SCHEDULED"
  const STARTED := "STARTED"
  const FAILED := "FAILED"

  /** The job id reported when a response carries none (`RESTAPIEvents.WITHOUT_MONITORING`). */
  const WITHOUT_MONITORING := "WITHOUT_MONITORING"

  /** The characters `items` strips from every piece. */
  const BRACKETS: set<char> := {'[', '{', ']', '}'}

  /** A decoded REST response: each key's value by its `toString` text, None for a null value. */
  type Response = map<string, Option<string>>

  /** One `key=value` piece of the `items` text; the value is None (null) when the piece has no second part. */
  datatype Item = Item(key: string, value: Option<string>)

  /**
   * One comma-separated piece: brackets removed, split at `=`; the key is
   * the trimmed first part, the value the second part if there is one. A
   * piece made only of `=` splits into nothing, and reading its first
   * part is out of bounds.
   */
  function ItemOf(piece: string): (r: Result<Item, Fault>)
    ensures r.Err? ==> r.error == IndexOutOfBounds
    ensures r.Ok? ==> Trim(r.value.key) == r.value.key
  {
    ReadStripped(RemoveChars(piece, BRACKETS))
  }

  /** Reading a piece once its brackets are gone. */
  function ReadStripped(v: string): (r: Result<Item, Fault>)
    ensures r.Err? ==> r.error == IndexOutOfBounds
    ensures r.Ok? ==> Trim(r.value.key) == r.value.key
  {
    var parts := Split(v, '=');
    if |parts| == 0 then Err(IndexOutOfBounds)
    else
      TrimTwice(parts[0]);
      Ok(Item(Trim(parts[0]), if |parts| > 1 then Some(parts[1]) else None))
  }

  /** The text of a piece with its brackets gone is nothing but `=` signs. */
  predicate BareEquals(piece: string)
  {
    var v := RemoveChars(piece, BRACKETS);
    |v| > 0 && forall i :: 0 <= i < |v| ==> v[i] == '='
  }

  /** A piece fails exactly when it is, brackets aside, a non-empty run of `=`. */
  lemma ItemFailsOnBareEquals(piece: string)
    ensures ItemOf(piece).Err? <==> BareEquals(piece)
  {
    SplitAllSeparators(RemoveChars(piece, BRACKETS), '=');
  }

  /** Every piece read on its own. */
  function ItemResults(pieces: seq<string>): (rs: seq<Result<Item, Fault>>)
    ensures |rs| == |pieces|
    ensures forall i :: 0 <= i < |pieces| ==> rs[i] == ItemOf(pieces[i])
  {
    seq(|pieces|, i requires 0 <= i < |pieces| => ItemOf(pieces[i]))
  }

  /** Putting read pieces into a map in order, each later key replacing an earlier one; the first failure is thrown. */
  function Collect(rs: seq<Result<Item, Fault>>): Result<map<string, Option<string>>, Fault>
    decreases |rs|
  {
    if |rs| == 0 then Ok(map[])
    else
      var before := Collect(rs[..|rs| - 1]);
      var item := rs[|rs| - 1];
      if before.Err? then before
      else if item.Err? then Err(item.error)
      else Ok(before.value[item.value.key := item.value.value])
  }

  /** The map `items` builds from the pieces. */
  function ItemsOf(pieces: seq<string>): (r: Result<map<string, Option<string>>, Fault>)
    ensures r.Err? ==> r.error == IndexOutOfBounds
  {
    CollectFailure(ItemResults(pieces));
    Collect(ItemResults(pieces))
  }

  /** `items(response)`: the response split at commas, every piece read in turn into a hash map. */
  method Items(response: string) returns (r: Result<map<string, Option<string>>, Fault>)
    ensures r == ItemsOf(Split(response, ','))
  {
    var temp := Split(response, ',');
    ghost var rs := ItemResults(temp);
    var items: map<string, Option<string>> := map[];
    for i := 0 to |temp|
      invariant Collect(rs[..i]) == Ok(items)
    {
      var item := ItemOf(temp[i]);
      CollectStep(rs, i);
      if item.Err? {
        return Err(item.error);
      }
      items := items[item.value.key := item.value.value];
    }
    assert rs[..|temp|] == rs;
    return Ok(items);
  }

  /** One more item after a prefix that went through. */
  lemma CollectStep(rs: seq<Result<Item, Fault>>, i: int)
    requires 0 <= i < |rs| && Collect(rs[..i]).Ok?
    ensures rs[i].Ok? ==> Collect(rs[..i + 1]) == Ok(Collect(rs[..i]).value[rs[i].value.key := rs[i].value.value])
    ensures rs[i].Err? ==> Collect(rs).Err?
  {
    assert rs[..i + 1][..i] == rs[..i];
    if rs[i].Err? {
      CollectFailure(rs);
    }
  }

  /** Collecting fails exactly when one of the pieces failed, and then with that piece's exception. */
  lemma {:induction false} CollectFailure(rs: seq<Result<Item, Fault>>)
    ensures Collect(rs).Err? <==> exists i :: 0 <= i < |rs| && rs[i].Err?
    ensures Collect(rs).Err? ==> exists i :: 0 <= i < |rs| && rs[i] == Err(Collect(rs).error)
    decreases |rs|
  {
    if |rs| > 0 {
      var init := rs[..|rs| - 1];
      CollectFailure(init);
      if Collect(init).Err? {
        var i :| 0 <= i < |init| && init[i] == Err(Collect(init).error);
        assert rs[i] == init[i];
      }
      if Collect(rs).Ok? {
        forall i | 0 <= i < |rs| ensures rs[i].Ok? {
          if i < |init| {
            assert rs[i] == init[i];
          }
        }
      }
    }
  }

  /** `items` throws exactly when one of the pieces is a bare run of `=`, and then IndexOutOfBounds. */
  lemma ItemsFailure(pieces: seq<string>)
    ensures ItemsOf(pieces).Err? <==> exists i :: 0 <= i < |pieces| && BareEquals(pieces[i])
    ensures ItemsOf(pieces).Err? ==> ItemsOf(pieces).error == IndexOutOfBounds
  {
    var rs := ItemResults(pieces);
    CollectFailure(rs);
    forall i | 0 <= i < |pieces| ensures rs[i].Err? <==> BareEquals(pieces[i]) {
      ItemFailsOnBareEquals(pieces[i]);
    }
  }

  /** When collecting succeeds, every item went through and the keys are exactly the items' keys. */
  lemma {:induction false} CollectKeys(rs: seq<Result<Item, Fault>>)
    requires Collect(rs).Ok?
    ensures forall i :: 0 <= i < |rs| ==> rs[i].Ok?
    ensures Collect(rs).value.Keys == set i | 0 <= i < |rs| :: rs[i].value.key
    decreases |rs|
  {
    CollectFailure(rs);
    if |rs| > 0 {
      var n := |rs| - 1;
      var init := rs[..n];
      CollectKeys(init);
      assert (set i | 0 <= i < |rs| :: rs[i].value.key) == (set i | 0 <= i < n :: init[i].value.key) + {rs[n].value.key} by {
        forall i | 0 <= i < n ensures rs[i] == init[i] { }
      }
    }
  }

  /** When collecting succeeds, each key holds the value of the last item with that key. */
  lemma {:induction false} CollectLastWins(rs: seq<Result<Item, Fault>>, i: int)
    requires Collect(rs).Ok?
    requires 0 <= i < |rs|
    ensures rs[i].Ok?
    ensures (forall j :: i < j < |rs| ==> rs[j].Ok? && rs[j].value.key != rs[i].value.key)
            ==> rs[i].value.key in Collect(rs).value && Collect(rs).value[rs[i].value.key] == rs[i].value.value
    decreases |rs|
  {
    CollectFailure(rs);
    var n := |rs| - 1;
    var init := rs[..n];
    if i < n {
      assert rs[i] == init[i];
      CollectLastWins(init, i);
      if forall j :: i < j < |rs| ==> rs[j].Ok? && rs[j].value.key != rs[i].value.key {
        forall j | i < j < n ensures init[j].Ok? && init[j].value.key != init[i].value.key {
          assert rs[j] == init[j];
        }
      }
    }
  }

  // ---------------------------------------------------------------------------
  // The text `items` is given: a list holding one map, as Java renders it

  /** An entry `items` can read back: no separator, bracket or surrounding blank in the key, a non-empty plain value. */
  predicate Plain(e: Item)
  {
    var stop := BRACKETS + {',', '='};
    e.value.Some? && e.value.value != ""
    && !HasAny(e.key, stop) && !HasAny(e.value.value, stop)
    && Trim(e.key) == e.key
  }

  /** The `key=value` text of one entry. */
  function EntryText(e: Item): string
  {
    e.key + "=" + OrNull(e.value)
  }

  /** `List.toString` of a list holding one map with these entries: `[{k1=v1, k2=v2}]`. */
  function Render(entries: seq<Item>): string
  {
    "[{" + Join(", ", Texts(entries)) + "}]"
  }

  function Texts(entries: seq<Item>): (ts: seq<string>)
    ensures |ts| == |entries|
    ensures forall i :: 0 <= i < |entries| ==> ts[i] == EntryText(entries[i])
  {
    seq(|entries|, i requires 0 <= i < |entries| => EntryText(entries[i]))
  }

  /** What a rendered piece carries before its entry: the opening brackets on the first, a blank on the others. */
  function Front(i: int): string
  {
    if i == 0 then "[{" else " "
  }

  /** What a rendered piece carries after its entry: the closing brackets on the last. */
  function Back(n: int, i: int): string
  {
    if i == n - 1 then "}]" else ""
  }

  /** The comma-separated pieces of a rendered list. */
  function RenderedPiece(entries: seq<Item>, i: int): string
    requires 0 <= i < |entries|
  {
    Front(i) + EntryText(entries[i]) + Back(|entries|, i)
  }

  function RenderedPieces(entries: seq<Item>): (ps: seq<string>)
    ensures |ps| == |entries|
    ensures forall i :: 0 <= i < |entries| ==> ps[i] == RenderedPiece(entries, i)
  {
    seq(|entries|, i requires 0 <= i < |entries| => RenderedPiece(entries, i))
  }

  /** A rendered list is its pieces joined with commas. */
  lemma RenderIsJoin(entries: seq<Item>)
    requires |entries| >= 1
    ensures Render(entries) == Join([','], RenderedPieces(entries))
  {
    var n := |entries|;
    var texts := Texts(entries);
    var indented := [texts[0]] + Indented(texts[1..]);
    var wrapped := ["[{" + indented[0]] + indented[1..];
    assert |indented| == n && |wrapped| == n;
    var ps := wrapped[..n - 1] + [wrapped[n - 1] + "}]"];
    var inner := Join(", ", texts);
    var commas := Join([','], indented);
    var wrappedJoin := Join([','], wrapped);
    assert inner == commas by {
      JoinCommaSpace(texts);
    }
    assert "[{" + commas == wrappedJoin by {
      JoinPrefixFirst([','], "[{", indented);
    }
    assert wrappedJoin + "}]" == Join([','], ps) by {
      JoinSuffixLast([','], wrapped, "}]");
    }
    WrappedPieces(entries, texts, indented, wrapped, ps);
    assert Render(entries) == "[{" + inner + "}]";
  }

  lemma WrappedPieces(entries: seq<Item>, texts: seq<string>, indented: seq<string>, wrapped: seq<string>, ps: seq<string>)
    requires |entries| >= 1 && texts == Texts(entries)
    requires indented == [texts[0]] + Indented(texts[1..])
    requires wrapped == ["[{" + indented[0]] + indented[1..]
    requires ps == wrapped[..|entries| - 1] + [wrapped[|entries| - 1] + "}]"]
    ensures ps == RenderedPieces(entries)
  {
    var n := |entries|;
    WrappedFronts(texts, indented, wrapped);
    ClosedBacks(wrapped, ps);
    forall i | 0 <= i < n ensures ps[i] == RenderedPiece(entries, i) {
      assert ps[i] == Front(i) + texts[i] + Back(n, i);
    }
  }

  /** After the brackets are put on the first text and blanks on the others, each text has its front. */
  lemma WrappedFronts(texts: seq<string>, indented: seq<string>, wrapped: seq<string>)
    requires |texts| >= 1
    requires indented == [texts[0]] + Indented(texts[1..])
    requires wrapped == ["[{" + indented[0]] + indented[1..]
    ensures |wrapped| == |texts|
    ensures forall i :: 0 <= i < |texts| ==> wrapped[i] == Front(i) + texts[i]
  {
    forall i | 0 <= i < |texts| ensures wrapped[i] == Front(i) + texts[i] {
      if i > 0 {
        assert wrapped[i] == indented[i];
      }
    }
  }

  /** After the closing brackets are put on the last piece, each piece has its back. */
  lemma ClosedBacks(wrapped: seq<string>, ps: seq<string>)
    requires |wrapped| >= 1
    requires ps == wrapped[..|wrapped| - 1] + [wrapped[|wrapped| - 1] + "}]"]
    ensures |ps| == |wrapped|
    ensures forall i :: 0 <= i < |wrapped| ==> ps[i] == wrapped[i] + Back(|wrapped|, i)
  {
    forall i | 0 <= i < |wrapped| ensures ps[i] == wrapped[i] + Back(|wrapped|, i) {
      if i < |wrapped| - 1 {
        assert ps[i] == wrapped[i];
      }
    }
  }

  /** The blank that stays in front of an entry once the brackets are stripped. */
  function Lead(i: int): string
  {
    if i == 0 then "" else " "
  }

  /** A plain entry, with or without a blank in front, has no bracket and reads back as itself. */
  lemma EntryReadBack(lead: string, e: Item)
    requires lead == "" || lead == " "
    requires Plain(e)
    ensures !HasAny(lead + EntryText(e), BRACKETS)
    ensures ReadStripped(lead + EntryText(e)) == Ok(e)
  {
    var v := e.value.value;
    var key := lead + e.key;
    var body := key + "=" + v;
    assert lead + EntryText(e) == body;
    assert !HasAny(key, BRACKETS + {'='}) by {
      HasAnyConcat(lead, e.key, BRACKETS + {'='});
    }
    assert !HasAny(body, BRACKETS) by {
      HasAnyConcat(key, "=", BRACKETS);
      HasAnyConcat(key + "=", v, BRACKETS);
    }
    SplitJoin('=', [key, v]);
    assert Join(['='], [key, v]) == body;
    TrimLeadingBlank(lead, e.key);
  }

  /** Stripping the brackets from a rendered piece leaves its entry, with a blank in front on all but the first. */
  lemma PieceStripped(entries: seq<Item>, i: int)
    requires 0 <= i < |entries| && !HasAny(EntryText(entries[i]), BRACKETS)
    ensures RemoveChars(RenderedPiece(entries, i), BRACKETS) == Lead(i) + EntryText(entries[i])
  {
    var body := EntryText(entries[i]);
    RemoveCharsConcat(Front(i), body, Back(|entries|, i), BRACKETS);
    assert RemoveChars(Front(i), BRACKETS) == Lead(i);
    assert RemoveChars(Back(|entries|, i), BRACKETS) == "";
  }

  /** Every piece of a rendered list reads back as its entry. */
  lemma RenderedPieceItem(entries: seq<Item>, i: int)
    requires 0 <= i < |entries| && Plain(entries[i])
    ensures ItemOf(RenderedPiece(entries, i)) == Ok(entries[i])
  {
    var piece := RenderedPiece(entries, i);
    var text := EntryText(entries[i]);
    assert ItemOf(piece) == ReadStripped(RemoveChars(piece, BRACKETS));
    assert RemoveChars(piece, BRACKETS) == Lead(i) + text by {
      assert !HasAny(text, BRACKETS) by {
        EntryReadBack("", entries[i]);
        assert "" + text == text;
      }
      PieceStripped(entries, i);
    }
    EntryReadBack(Lead(i), entries[i]);
  }

  /** No rendered piece holds a comma. */
  lemma PieceCommaFree(entries: seq<Item>, i: int)
    requires 0 <= i < |entries| && Plain(entries[i])
    ensures !HasAny(RenderedPiece(entries, i), {','})
  {
    var e := entries[i];
    HasAnyConcat(e.key, "=", {','});
    HasAnyConcat(e.key + "=", e.value.value, {','});
    HasAnyConcat(Front(i), EntryText(e), {','});
    HasAnyConcat(Front(i) + EntryText(e), Back(|entries|, i), {','});
  }

  /**
   * `items` reads the rendering of a list holding one map back into the
   * map: its keys are the entries' keys, and every key holds the value of
   * the last entry with that key.
   */
  lemma RenderedItems(entries: seq<Item>)
    requires |entries| >= 1
    requires forall i :: 0 <= i < |entries| ==> Plain(entries[i])
    ensures ItemsOf(Split(Render(entries), ',')).Ok?
    ensures ItemsOf(Split(Render(entries), ',')).value.Keys == set i | 0 <= i < |entries| :: entries[i].key
    ensures forall i :: 0 <= i < |entries| && (forall j :: i < j < |entries| ==> entries[j].key != entries[i].key)
              ==> ItemsOf(Split(Render(entries), ',')).value[entries[i].key] == entries[i].value
  {
    RenderedResults(entries);
    CollectEntries(entries);
  }

  /** Every comma-separated piece of a rendered list reads back as its entry. */
  lemma RenderedResults(entries: seq<Item>)
    requires |entries| >= 1
    requires forall i :: 0 <= i < |entries| ==> Plain(entries[i])
    ensures ItemResults(Split(Render(entries), ',')) == Oks(entries)
  {
    RenderedSplit(entries);
    PiecesRead(entries);
  }

  /** A rendered list splits at its commas into its pieces. */
  lemma RenderedSplit(entries: seq<Item>)
    requires |entries| >= 1
    requires forall i :: 0 <= i < |entries| ==> Plain(entries[i])
    ensures Split(Render(entries), ',') == RenderedPieces(entries)
  {
    var n := |entries|;
    var ps := RenderedPieces(entries);
    RenderIsJoin(entries);
    forall i | 0 <= i < n ensures !HasAny(ps[i], {','}) {
      PieceCommaFree(entries, i);
    }
    assert |ps[n - 1]| >= 2;
    SplitJoin(',', ps);
  }

  /** The pieces of a rendered list read back as the entries. */
  lemma PiecesRead(entries: seq<Item>)
    requires forall i :: 0 <= i < |entries| ==> Plain(entries[i])
    ensures ItemResults(RenderedPieces(entries)) == Oks(entries)
  {
    var rs := ItemResults(RenderedPieces(entries));
    forall i | 0 <= i < |entries| ensures rs[i] == Ok(entries[i]) {
      RenderedPieceItem(entries, i);
    }
  }

  /** Entries that all read fine. */
  function Oks(entries: seq<Item>): (rs: seq<Result<Item, Fault>>)
    ensures |rs| == |entries|
    ensures forall i :: 0 <= i < |entries| ==> rs[i] == Ok(entries[i])
  {
    seq(|entries|, i requires 0 <= i < |entries| => Ok(entries[i]))
  }

  /** Collecting entries that all read fine gives their keys, each with its last value. */
  lemma CollectEntries(entries: seq<Item>)
    ensures Collect(Oks(entries)).Ok?
    ensures Collect(Oks(entries)).value.Keys == set i | 0 <= i < |entries| :: entries[i].key
    ensures forall i :: 0 <= i < |entries| && (forall j :: i < j < |entries| ==> entries[j].key != entries[i].key)
              ==> Collect(Oks(entries)).value[entries[i].key] == entries[i].value
  {
    var rs := Oks(entries);
    CollectFailure(rs);
    CollectKeys(rs);
    forall i | 0 <= i < |entries| && (forall j :: i < j < |entries| ==> entries[j].key != entries[i].key)
      ensures Collect(rs).value[entries[i].key] == entries[i].value
    {
      CollectLastWins(rs, i);
    }
  }

  // ---------------------------------------------------------------------------
  // Reading a response

  /** The parsed `items` entry of a response: a missing or null entry is a NullPointerException. */
  function ResponseItems(response: Response): (r: Result<map<string, Option<string>>, Fault>)
    ensures ("items" !in response || response["items"].None?) ==> r == Err(NullPointer)
    ensures ("items" in response && response["items"].Some?) ==> r == ItemsOf(Split(response["items"].value, ','))
  {
    if "items" !in response || response["items"].None? then Err(NullPointer)
    else ItemsOf(Split(response["items"].value, ','))
  }

  /** One value of the parsed items, dereferenced: a missing or null value is a NullPointerException. */
  function ItemText(response: Response, key: string): (r: Result<string, Fault>)
    ensures ResponseItems(response).Err? ==> r == Err(ResponseItems(response).error)
    ensures ResponseItems(response).Ok? ==>
      var m := ResponseItems(response).value;
      (r.Ok? <==> key in m && m[key].Some?) && (r.Ok? ==> r.value == m[key].value)
      && (r.Err? ==> r.error == NullPointer)
  {
    var items := ResponseItems(response);
    if items.Err? then Err(items.error)
    else if key !in items.value || items.value[key].None? then Err(NullPointer)
    else Ok(items.value[key].value)
  }

  /** `getExitCode`: 0 for a FAILED event and -1 for any other. */
  function GetExitCode(response: Response): (r: Result<int, Fault>)
    ensures r.Ok? <==> ItemText(response, "event").Ok?
    ensures r.Ok? ==> (r.value == 0 <==> ItemText(response, "event").value == FAILED)
    ensures r.Ok? ==> r.value == 0 || r.value == -1
    ensures r.Err? ==> r.error == ItemText(response, "event").error
  {
    var event := ItemText(response, "event");
    if event.Err? then Err(event.error)
    else if event.value != FAILED then Ok(-1)
    else Ok(0)
  }

  /** `getMessage`: the text of the `message` item. */
  function GetMessage(response: Response): (r: Result<string, Fault>)
    ensures ResponseItems(response).Ok? && "message" in ResponseItems(response).value
            && ResponseItems(response).value["message"].Some?
            ==> r == Ok(ResponseItems(response).value["message"].value)
    ensures r.Err? ==> r.error == NullPointer || r.error == IndexOutOfBounds
  {
    ItemText(response, "message")
  }

  /** `isComplete`: finished unless the event is SCHEDULED or STARTED. */
  function IsComplete(response: Response): (r: Result<bool, Fault>)
    ensures r.Ok? <==> ItemText(response, "event").Ok?
    ensures r.Ok? ==> (r.value <==> ItemText(response, "event").value !in {SCHEDULED, STARTED})
    ensures r.Err? ==> r.error == ItemText(response, "event").error
  {
    var event := ItemText(response, "event");
    if event.Err? then Err(event.error)
    else Ok(event.value != SCHEDULED && event.value != STARTED)
  }

  /** `getResultValue`: the text of the named entry, or WITHOUT_MONITORING when it is missing or null. */
  function GetResultValue(response: Response, parameters: string): (r: string)
    ensures parameters in response && response[parameters].Some? ==> r == response[parameters].value
    ensures parameters !in response || response[parameters].None? ==> r == WITHOUT_MONITORING
  {
    if parameters in response && response[parameters].Some? then response[parameters].value
    else WITHOUT_MONITORING
  }

  /**
   * What the three readers say about a task log: a FAILED event is complete
   * with exit code 0; a SCHEDULED or STARTED event is not complete and has
   * exit code -1; any other event is complete with exit code -1. Neither
   * reader throws once the event is there.
   */
  lemma EventVerdicts(response: Response)
    requires ItemText(response, "event").Ok?
    ensures var event := ItemText(response, "event").value;
      (event == FAILED ==> GetExitCode(response) == Ok(0) && IsComplete(response) == Ok(true))
      && (event in {SCHEDULED, STARTED} ==> GetExitCode(response) == Ok(-1) && IsComplete(response) == Ok(false))
      && (event !in {FAILED, SCHEDULED, STARTED} ==> GetExitCode(response) == Ok(-1) && IsComplete(response) == Ok(true))
  {
  }

  /** Two entries with different keys, rendered, read back as both keys with their values. */
  lemma TwoEntries(a: Item, b: Item)
    requires Plain(a) && Plain(b) && a.key != b.key
    ensures var r := ItemsOf(Split(Render([a, b]), ','));
      r.Ok? && a.key in r.value && b.key in r.value && r.value[a.key] == a.value && r.value[b.key] == b.value
  {
    var entries := [a, b];
    RenderedItems(entries);
    var m := ItemsOf(Split(Render(entries), ',')).value;
    assert a.key in m.Keys && b.key in m.Keys by {
      assert entries[0].key == a.key && entries[1].key == b.key;
    }
  }

  /**
   * A response whose `items` is the rendering of a task-log entry list
   * holding an event and a message gives that event's verdict and that
   * message back.
   */
  lemma RenderedTaskLog(response: Response, event: string, message: string)
    requires Plain(Item("event", Some(event))) && Plain(Item("message", Some(message)))
    requires "items" in response
    requires response["items"] == Some(Render([Item("event", Some(event)), Item("message", Some(message))]))
    ensures GetExitCode(response) == Ok(if event == FAILED then 0 else -1)
    ensures IsComplete(response) == Ok(event != SCHEDULED && event != STARTED)
    ensures GetMessage(response) == Ok(message)
  {
    var entries := [Item("event", Some(event)), Item("message", Some(message))];
    assert "event" != "message" by {
      assert "event"[0] != "message"[0];
    }
    TwoEntries(entries[0], entries[1]);
    assert ItemText(response, "event") == Ok(event);
    assert ItemText(response, "message") == Ok(message);
  }
}
