/** The newline-delimited ledger of handled event ids in lib/eventStore.js.

    The events file is modelled by its content, a string. `hasSeenEvent` reads
    the file and tests whether the id is one of its non-empty lines;
    `storeEvent` appends the id and a line feed. Read and write failures are
    inputs: the first makes the test fail open (answer false), the second is
    swallowed and leaves the file as it was. */
module EventStore {

  import opened Js
  import opened JsString

  /** `filter(Boolean)` on strings: the pieces that are not empty, in order. */
  function NonEmpty(pieces: seq<string>): (r: seq<string>)
    ensures |r| <= |pieces|
    ensures forall x :: x in r <==> x in pieces && x != ""
  {
    if pieces == [] then []
    else if pieces[0] == "" then NonEmpty(pieces[1..])
    else [pieces[0]] + NonEmpty(pieces[1..])
  }

  lemma {:induction false} NonEmptyAppend(a: seq<string>, b: seq<string>)
    ensures NonEmpty(a + b) == NonEmpty(a) + NonEmpty(b)
  {
    if a == [] {
      assert a + b == b;
    } else {
      assert (a + b)[1..] == a[1..] + b;
      NonEmptyAppend(a[1..], b);
    }
  }

  /** `data.split('\n').filter(Boolean)`: the non-empty lines of the file. */
  function Lines(content: string): seq<string> {
    NonEmpty(Split(content))
  }

  /** `lines.includes(eventId)`. */
  predicate Seen(content: string, id: string) {
    id in Lines(content)
  }

  /** Content that a new line can be appended to without running into the
      last line: empty, or ending in a line feed. */
  predicate EndsLine(content: string) {
    content == [] || content[|content| - 1] == '\n'
  }

  /** An id is seen exactly when it is one of the pieces between line feeds
      and is not empty; in particular it contains no line feed. */
  lemma SeenIffLine(content: string, id: string)
    ensures Seen(content, id) <==> id != "" && id in Split(content)
    ensures Seen(content, id) ==> NoLineFeed(id)
  {
    SplitPiecesHaveNoLineFeed(content);
  }

  /** The empty id is never seen, whatever the file holds. */
  lemma EmptyIdNeverSeen(content: string)
    ensures !Seen(content, "")
  {
  }

  /** Appending to content that ends a line adds the appended lines after the
      existing ones and changes none of them. */
  lemma {:induction false} LinesAfterLineEnd(content: string, s: string)
    requires EndsLine(content)
    ensures Lines(content + s) == Lines(content) + Lines(s)
  {
    if content == [] {
      assert content + s == s;
    } else {
      var p := content[..|content| - 1];
      assert content == p + "\n" + "";
      assert content + s == p + "\n" + s;
      SplitAtLineFeed(p, s);
      SplitAtLineFeed(p, "");
      NonEmptyAppend(Split(p), Split(s));
      NonEmptyAppend(Split(p), Split(""));
    }
  }

  /** The appended text `id + "\n"` is exactly one line, the id, when the id is
      not empty and has no line feed. */
  lemma {:induction false} LinesOfRecord(id: string)
    requires id != "" && NoLineFeed(id)
    ensures Lines(id + "\n") == [id]
  {
    assert id + "\n" == id + "\n" + "";
    SplitAtLineFeed(id, "");
    SplitWithoutLineFeed(id);
    SplitWithoutLineFeed("");
    assert Split(id + "\n") == [id, ""];
    assert [id, ""][1..] == [""];
    assert [""][1..] == [];
    assert NonEmpty([""]) == [];
    assert NonEmpty([id, ""]) == [id] + NonEmpty([""]);
  }

  /** Storing an id in a file that ends a line adds it as the last line and
      keeps every line before it. */
  lemma StoreAppendsLine(content: string, id: string)
    requires EndsLine(content)
    requires id != "" && NoLineFeed(id)
    ensures Lines(content + id + "\n") == Lines(content) + [id]
  {
    assert content + id + "\n" == content + (id + "\n");
    LinesAfterLineEnd(content, id + "\n");
    LinesOfRecord(id);
  }

  /** Round trip: after storing an id, it is seen. */
  lemma StoreThenSeen(content: string, id: string)
    requires EndsLine(content)
    requires id != "" && NoLineFeed(id)
    ensures Seen(content + id + "\n", id)
  {
    StoreAppendsLine(content, id);
  }

  /** Storing never makes an id seen before unseen: membership only grows. */
  lemma StoreKeepsSeen(content: string, id: string, other: string)
    requires EndsLine(content)
    requires id != "" && NoLineFeed(id)
    requires Seen(content, other)
    ensures Seen(content + id + "\n", other)
  {
    StoreAppendsLine(content, id);
  }

  /** Without the precondition the round trip fails: in a file whose last line
      has no line feed, the stored id fuses with that line, and neither the
      old id nor the new one is seen afterwards. */
  lemma FusedWithoutLineEnd()
    ensures Seen("E1", "E1")
    ensures !Seen("E1" + "E2" + "\n", "E2") && !Seen("E1" + "E2" + "\n", "E1")
  {
    SplitWithoutLineFeed("E1");
    assert "E1" + "E2" + "\n" == "E1E2" + "\n" + "";
    SplitAtLineFeed("E1E2", "");
    SplitWithoutLineFeed("E1E2");
    assert Split("E1" + "E2" + "\n") == ["E1E2", ""];
  }

  /** The events file: its content, or `None` when it does not exist. */
  class EventLedger {
    var file: Option<string>

    constructor (file: Option<string>)
      ensures this.file == file
    {
      this.file := file;
    }

    /** `hasSeenEvent(eventId)`; `readFails` says the read threw for a reason
        other than a missing file. A file that cannot be read reports false. */
    function HasSeenEvent(id: string, readFails: bool): (seen: bool)
      reads this
      ensures seen ==> !readFails && file.Some? && id != "" && NoLineFeed(id)
      ensures file.Some? && !readFails ==> (seen <==> id in Split(file.value) && id != "")
    {
      if readFails || file.None? then false
      else
        SeenIffLine(file.value, id);
        Seen(file.value, id)
    }

    /** `storeEvent(eventId)`: appends the id and a line feed, creating the
        file if need be; `writeFails` says the append threw, which is caught.
        When the file ended a line and the id is a non-empty line of its own,
        the id is seen afterwards and every id seen before still is. */
    method StoreEvent(id: string, writeFails: bool)
      modifies this
      ensures writeFails ==> file == old(file)
      ensures !writeFails ==> file == Some(Content(old(file)) + id + "\n")
      ensures !writeFails ==> EndsLine(file.value)
      ensures !writeFails && EndsLine(Content(old(file))) && id != "" && NoLineFeed(id) ==>
        HasSeenEvent(id, false) &&
        forall other :: old(HasSeenEvent(other, false)) ==> HasSeenEvent(other, false)
    {
      if !writeFails {
        var content := if file.None? then "" else file.value;
        file := Some(content + id + "\n");
        if EndsLine(content) && id != "" && NoLineFeed(id) {
          StoreThenSeen(content, id);
          forall other | old(HasSeenEvent(other, false))
            ensures HasSeenEvent(other, false)
          {
            StoreKeepsSeen(content, id, other);
          }
        }
      }
    }
  }

  /** What a missing file holds for appending. */
  function Content(file: Option<string>): string {
    if file.None? then "" else file.value
  }
}
