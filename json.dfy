/**
 * The manifest text: `{"Entities":[` , the serialized entries with their commas, `]}`.
 * Each entry's own JSON comes from JsonUtility.ToJson and is an opaque string here;
 * an item is None where the loop skipped an object with `continue`.
 */
module JsonText {
  import opened Wrappers

  const Open: string := "{\"Entities\":["
  const Close: string := "]}"

  /**
   * What the loop appends for index `i`: the entry, then a comma whenever `i` is not the
   * last index of the whole list (whether or not later objects are skipped).
   */
  function Piece(items: seq<Option<string>>, i: nat): (r: string)
    requires i < |items|
    ensures items[i].None? ==> r == ""
    ensures items[i].Some? ==> |items[i].value| <= |r| && r[..|items[i].value|] == items[i].value
    ensures items[i].Some? ==> (|r| == |items[i].value| <==> i == |items| - 1)
  {
    match items[i]
    case None => ""
    case Some(s) => s + (if i != |items| - 1 then "," else "")
  }

  /** The builder's content after the loop has run over the first `k` items. */
  function Body(items: seq<Option<string>>, k: nat): (r: string)
    requires k <= |items|
  {
    if k == 0 then "" else Body(items, k - 1) + Piece(items, k - 1)
  }

  /** The text the loop writes, as written. */
  function Document(items: seq<Option<string>>): (r: string)
    ensures |Open| + |Close| <= |r| && r[..|Open|] == Open && r[|r| - |Close|..] == Close
  {
    Open + Body(items, |items|) + Close
  }

  /** The entries actually emitted, in order. */
  function Present(items: seq<Option<string>>): (r: seq<string>)
    ensures |r| <= |items|
    ensures forall s :: s in r <==> Some(s) in items
  {
    if items == [] then []
    else Present(items[..|items| - 1]) + (match items[|items| - 1] case None => [] case Some(s) => [s])
  }

  /** Comma-separated: valid JSON array contents. */
  function Join(parts: seq<string>): (r: string)
    ensures parts != [] ==> |parts[0]| <= |r| && r[..|parts[0]|] == parts[0]
  {
    if |parts| == 0 then ""
    else if |parts| == 1 then parts[0]
    else Join(parts[..|parts| - 1]) + "," + parts[|parts| - 1]
  }

  /** The joined text ends with the last entry: no comma follows it. */
  lemma JoinEndsWithLast(parts: seq<string>)
    requires parts != []
    ensures var last := parts[|parts| - 1]; var r := Join(parts); |last| <= |r| && r[|r| - |last|..] == last
  {
    var last := parts[|parts| - 1];
    if |parts| > 1 {
      var head := Join(parts[..|parts| - 1]) + ",";
      assert (head + last)[|head + last| - |last|..] == last;
    }
  }

  /** Every part followed by a comma. */
  function Terminated(parts: seq<string>): (r: string)
    ensures parts != [] ==> |r| > 0 && r[|r| - 1] == ','
  {
    if parts == [] then "" else Terminated(parts[..|parts| - 1]) + parts[|parts| - 1] + ","
  }

  /** The evidently intended document: the emitted entries separated by commas. */
  function CorrectedDocument(items: seq<Option<string>>): (r: string)
    ensures |Open| + |Close| <= |r| && r[..|Open|] == Open && r[|r| - |Close|..] == Close
    ensures (forall s :: Some(s) !in items) ==> r == Open + Close
  {
    var parts := Present(items);
    assert parts != [] ==> parts[0] in parts;
    Open + Join(parts) + Close
  }

  lemma {:induction false} TerminatedIsJoinComma(parts: seq<string>)
    requires parts != []
    ensures Terminated(parts) == Join(parts) + ","
    decreases |parts|
  {
    if |parts| > 1 {
      TerminatedIsJoinComma(parts[..|parts| - 1]);
    }
  }

  lemma JoinSnoc(parts: seq<string>, s: string)
    ensures Join(parts + [s]) == Terminated(parts) + s
  {
    var all := parts + [s];
    assert all[..|all| - 1] == parts;
    if parts != [] {
      TerminatedIsJoinComma(parts);
    }
  }

  /** Before the last index, every emitted entry has been followed by a comma. */
  lemma {:induction false} BodyBeforeLast(items: seq<Option<string>>, k: nat)
    requires k < |items|
    ensures Body(items, k) == Terminated(Present(items[..k]))
  {
    if k > 0 {
      BodyBeforeLast(items, k - 1);
      PresentStep(items, k);
      var before := Present(items[..k - 1]);
      var head := Body(items, k - 1);
      var last := Piece(items, k - 1);
      assert Body(items, k) == head + last;
      if items[k - 1].Some? {
        var s := items[k - 1].value;
        assert Present(items[..k]) == before + [s];
        TerminatedSnoc(before, s);
        assert last == s + ",";
        assert head + last == Terminated(before) + s + ",";
      } else {
        assert Present(items[..k]) == before;
        assert last == "";
        assert head + last == head;
      }
    }
  }

  /** Present over one more item. */
  lemma PresentStep(items: seq<Option<string>>, k: nat)
    requires 0 < k <= |items|
    ensures Present(items[..k]) == Present(items[..k - 1]) + (if items[k - 1].Some? then [items[k - 1].value] else [])
  {
    var pre := items[..k];
    assert pre[..|pre| - 1] == items[..k - 1];
    assert pre[|pre| - 1] == items[k - 1];
  }

  lemma TerminatedSnoc(parts: seq<string>, s: string)
    ensures Terminated(parts + [s]) == Terminated(parts) + s + ","
  {
    var all := parts + [s];
    assert all[..|all| - 1] == parts;
  }

  /**
   * The as-written text, exactly: a valid comma-separated list, except that when the last
   * object was skipped every emitted entry, the final one included, carries a comma.
   */
  lemma AsWrittenBody(items: seq<Option<string>>)
    ensures Body(items, |items|) ==
      if items != [] && items[|items| - 1].None? then Terminated(Present(items)) else Join(Present(items))
  {
    if items != [] {
      if items[|items| - 1].None? {
        BodyLastSkipped(items);
      } else {
        BodyLastEmitted(items);
      }
    }
  }

  lemma BodyLastSkipped(items: seq<Option<string>>)
    requires items != [] && items[|items| - 1].None?
    ensures Body(items, |items|) == Terminated(Present(items))
  {
    var n := |items|;
    BodyBeforeLast(items, n - 1);
    assert Body(items, n) == Body(items, n - 1) + Piece(items, n - 1);
    assert Piece(items, n - 1) == "";
    assert Present(items) == Present(items[..n - 1]);
  }

  lemma BodyLastEmitted(items: seq<Option<string>>)
    requires items != [] && items[|items| - 1].Some?
    ensures Body(items, |items|) == Join(Present(items))
  {
    var n := |items|;
    var s := items[n - 1].value;
    var before := Present(items[..n - 1]);
    BodyBeforeLast(items, n - 1);
    var head := Body(items, n - 1);
    var last := Piece(items, n - 1);
    assert head == Terminated(before);
    assert last == s by { assert last == s + ""; }
    assert Body(items, n) == head + last;
    assert Present(items) == before + [s];
    JoinSnoc(before, s);
  }

  /** When the last object is emitted (or the list is empty) the text is the intended one. */
  lemma DocumentWhenLastEmitted(items: seq<Option<string>>)
    requires items == [] || items[|items| - 1].Some?
    ensures Document(items) == CorrectedDocument(items)
  {
    AsWrittenBody(items);
  }

  /** When the last object is skipped after another was emitted, the text ends in ",]}". */
  lemma DocumentWhenLastSkipped(items: seq<Option<string>>)
    requires items != [] && items[|items| - 1].None? && Present(items) != []
    ensures Document(items) == Open + Join(Present(items)) + ",]}"
  {
    var parts := Present(items);
    AsWrittenBody(items);
    TerminatedIsJoinComma(parts);
    CommaBeforeClose(Open, Join(parts));
  }

  lemma CommaBeforeClose(pre: string, body: string)
    ensures pre + (body + ",") + Close == pre + body + ",]}"
  {
  }

  /** DocumentWhenLastSkipped, for emitted entries already known to be `parts`. */
  lemma DocumentOfSkippedLast(items: seq<Option<string>>, parts: seq<string>)
    requires items != [] && items[|items| - 1] == None && Present(items) == parts && |parts| > 0
    ensures Document(items) == Open + Join(parts) + ",]}"
  {
    DocumentWhenLastSkipped(items);
  }

  /** One emitted entry followed by one skipped object: "{"Entities":[<entry>,]}". */
  lemma TrailingCommaExample(entry: string)
    ensures Document([Some(entry), None]) == Open + entry + ",]}"
    ensures CorrectedDocument([Some(entry), None]) == Open + entry + Close
  {
    var items := [Some(entry), None];
    assert items[..1] == [Some(entry)];
    assert items[..1][..0] == [];
    assert Present(items) == [entry];
    DocumentWhenLastSkipped(items);
  }

  /** One more turn of the loop: a skipped object adds nothing, an emitted one its piece. */
  lemma BodySnoc(items: seq<Option<string>>, i: nat)
    requires i < |items|
    ensures items[i].None? ==> Body(items, i + 1) == Body(items, i)
    ensures items[i].Some? ==> Body(items, i + 1) == Body(items, i) + items[i].value + (if i != |items| - 1 then "," else "")
  {
    if items[i].Some? {
      var s := items[i].value;
      var c := if i != |items| - 1 then "," else "";
      assert Body(items, i) + (s + c) == Body(items, i) + s + c;
    }
  }

  lemma {:induction false} PresentOfAllPresent(parts: seq<string>)
    ensures Present(AllSome(parts)) == parts
    decreases |parts|
  {
    if parts != [] {
      var items := AllSome(parts);
      var init := parts[..|parts| - 1];
      assert items[..|items| - 1] == AllSome(init);
      PresentOfAllPresent(init);
      assert init + [parts[|parts| - 1]] == parts;
    }
  }

  /** With nothing skipped the as-written text is the comma-separated list. */
  lemma DocumentOfAllPresent(parts: seq<string>)
    ensures Document(AllSome(parts)) == Open + Join(parts) + Close
  {
    PresentOfAllPresent(parts);
    DocumentWhenLastEmitted(AllSome(parts));
  }

  /** One turn of a StringBuilder loop that emits every entry, after the text `pre`. */
  lemma BodyStep(pre: string, parts: seq<string>, i: nat)
    requires i < |parts|
    ensures i != |parts| - 1 ==> pre + Body(AllSome(parts), i + 1) == pre + Body(AllSome(parts), i) + parts[i] + ","
    ensures i == |parts| - 1 ==> pre + Body(AllSome(parts), i + 1) == pre + Body(AllSome(parts), i) + parts[i]
  {
    var b := Body(AllSome(parts), i);
    if i != |parts| - 1 {
      assert pre + (b + (parts[i] + ",")) == pre + b + parts[i] + ",";
    } else {
      assert pre + (b + (parts[i] + "")) == pre + b + parts[i];
    }
  }
}
