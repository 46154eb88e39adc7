/**
 * The checkpoint file and the view reconstructed from it. The file is an append-only
 * sequence of records, one conversation log per line, optionally tagged with the index of
 * its conversation. Reading it back gives a positional view: slot `i` holds the log of the
 * last record written for conversation `i`, and a slot nobody wrote is absent (`None`).
 * An untagged record stands for the conversation at its own line number.
 */
module Checkpoint {
  import opened Wrappers
  import opened Json

  type ChatLog = seq<Json>

  datatype Record = Record(chatId: Option<nat>, log: ChatLog)

  type View = seq<Option<ChatLog>>

  /** The conversation a record at line `line` belongs to. */
  function SlotOf(r: Record, line: nat): nat {
    if r.chatId.Some? then r.chatId.value else line
  }

  /** Slot `i` of a view; every slot beyond its end is absent. */
  function SlotAt(view: View, i: nat): Option<ChatLog> {
    if i < |view| then view[i] else None
  }

  /** Overwrites slot `id` with `log`, first padding the view with absent slots up to `id`. */
  function Place(view: View, id: nat, log: ChatLog): (v: View)
    ensures |v| == if id < |view| then |view| else id + 1
    ensures forall i: nat :: SlotAt(v, i) == if i == id then Some(log) else SlotAt(view, i)
  {
    var padded := if id < |view| then view else view + seq(id + 1 - |view|, _ => None);
    padded[id := Some(log)]
  }

  /** The view reconstructed from the records, read in file order. */
  function Load(records: seq<Record>): View
    decreases |records|
  {
    if records == [] then []
    else
      var n := |records| - 1;
      Place(Load(records[..n]), SlotOf(records[n], n), records[n].log)
  }

  /** Line `k` is the last record written for conversation `i`. */
  predicate LastWriteAt(records: seq<Record>, k: int, i: nat) {
    && 0 <= k < |records|
    && SlotOf(records[k], k) == i
    && forall j :: k < j < |records| ==> SlotOf(records[j], j) != i
  }

  /**
   * The view, characterised without replaying the file: a slot is present exactly when some
   * record was written for it, and then it holds the log of the last such record (last
   * write wins, whatever the order of the ids).
   */
  lemma {:induction false} LoadSlot(records: seq<Record>, i: nat)
    ensures SlotAt(Load(records), i).None? <==> forall k :: 0 <= k < |records| ==> SlotOf(records[k], k) != i
    ensures SlotAt(Load(records), i).Some? ==>
      exists k :: LastWriteAt(records, k, i) && SlotAt(Load(records), i) == Some(records[k].log)
    decreases |records|
  {
    if records != [] {
      var n := |records| - 1;
      var prefix := records[..n];
      LoadSlot(prefix, i);
      assert forall k :: 0 <= k < n ==> prefix[k] == records[k];
      if SlotOf(records[n], n) == i {
        assert LastWriteAt(records, n, i);
      } else if SlotAt(Load(prefix), i).Some? {
        var k :| LastWriteAt(prefix, k, i) && SlotAt(Load(prefix), i) == Some(prefix[k].log);
        assert LastWriteAt(records, k, i);
      }
    }
  }

  /** The view is exactly as long as the largest conversation written, plus one. */
  lemma {:induction false} LoadLength(records: seq<Record>)
    ensures forall k :: 0 <= k < |records| ==> SlotOf(records[k], k) < |Load(records)|
    ensures |Load(records)| > 0 ==> exists k :: 0 <= k < |records| && SlotOf(records[k], k) == |Load(records)| - 1
    decreases |records|
  {
    if records != [] {
      var n := |records| - 1;
      var prefix, id := records[..n], SlotOf(records[n], n);
      LoadLength(prefix);
      var v := Load(prefix);
      assert Load(records) == Place(v, id, records[n].log);
      var len := |Load(records)|;
      assert len == if id < |v| then |v| else id + 1;
      forall k | 0 <= k < |records|
        ensures SlotOf(records[k], k) < len
      {
        if k < n {
          assert prefix[k] == records[k];
        }
      }
      if id < |v| {
        var k :| 0 <= k < n && SlotOf(prefix[k], k) == |v| - 1;
        assert prefix[k] == records[k];
      }
    }
  }

  /**
   * Appending a record tagged `id` (what a completed conversation does) fills slot `id`
   * with its log and leaves every other slot as it was.
   */
  lemma AppendTagged(records: seq<Record>, id: nat, log: ChatLog, i: nat)
    ensures SlotAt(Load(records + [Record(Some(id), log)]), i) == if i == id then Some(log) else SlotAt(Load(records), i)
  {
    var extended := records + [Record(Some(id), log)];
    assert extended[..|records|] == records;
  }

  /**
   * Writes for two different conversations commute: the view does not depend on the order
   * in which concurrent tasks complete, only on which records were written.
   */
  lemma TaggedWritesCommute(records: seq<Record>, i: nat, li: ChatLog, j: nat, lj: ChatLog)
    requires i != j
    ensures Load(records + [Record(Some(i), li), Record(Some(j), lj)])
         == Load(records + [Record(Some(j), lj), Record(Some(i), li)])
  {
    var first := records + [Record(Some(i), li)];
    var second := records + [Record(Some(j), lj)];
    var ij := first + [Record(Some(j), lj)];
    var ji := second + [Record(Some(i), li)];
    assert records + [Record(Some(i), li), Record(Some(j), lj)] == ij;
    assert records + [Record(Some(j), lj), Record(Some(i), li)] == ji;
    assert ij[..|first|] == first && first[..|records|] == records;
    assert ji[..|second|] == second && second[..|records|] == records;
    assert Load(first) == Place(Load(records), i, li);
    assert Load(second) == Place(Load(records), j, lj);
    var a := Load(ij);
    var b := Load(ji);
    assert a == Place(Load(first), j, lj);
    assert b == Place(Load(second), i, li);
    forall k | 0 <= k < |a|
      ensures a[k] == b[k]
    {
      assert SlotAt(a, k) == SlotAt(b, k);
    }
  }

  /** The text a conversation's last-message view shows: "" for an empty log. */
  function LastContent(log: ChatLog): (c: Result<Json, Error>)
    ensures log == [] ==> c == Success(JStr(""))
    ensures log != [] ==> (c.Success? <==> log[|log| - 1].JObject? && "content" in log[|log| - 1].fields)
    ensures log != [] && c.Success? ==> c == Success(log[|log| - 1].fields["content"])
  {
    if log == [] then Success(JStr("")) else Get(log[|log| - 1], Key("content"))
  }

  /**
   * The last-message projection of a view: the last message's content per slot, "" for an
   * empty log and `None` for an absent slot.
   */
  function LastMessages(view: View): (r: Result<seq<Option<Json>>, Error>)
    ensures r.Success? <==> forall i :: 0 <= i < |view| && view[i].Some? ==> LastContent(view[i].value).Success?
    ensures r.Success? ==> |r.value| == |view|
    ensures r.Success? ==> forall i :: 0 <= i < |view| ==>
      r.value[i] == if view[i].None? then None else Some(LastContent(view[i].value).value)
    decreases |view|
  {
    if view == [] then Success([])
    else
      var rest := LastMessages(view[1..]);
      if view[0].None? then
        (if rest.Failure? then Failure(rest.error) else Success([None] + rest.value))
      else
        var first := LastContent(view[0].value);
        if first.Failure? then Failure(first.error)
        else if rest.Failure? then Failure(rest.error)
        else Success([Some(first.value)] + rest.value)
  }

  /** Conversation logs of tests/test_checkpoint.py: "hello!" and then the assistant reply. */
  function User(text: string): Json {
    Message("user", text)
  }

  function Assistant(text: string): Json {
    Message("assistant", text)
  }

  /**
   * Untagged saves of [], [user], [user, assistant] reconstruct positionally, and their last
   * messages are "", the user text and the assistant text.
   */
  lemma UntaggedSavesArePositional(u: string, a: string)
    ensures var records := [Record(None, []), Record(None, [User(u)]), Record(None, [User(u), Assistant(a)])];
      && Load(records) == [Some([]), Some([User(u)]), Some([User(u), Assistant(a)])]
      && LastMessages(Load(records)) == Success([Some(JStr("")), Some(JStr(u)), Some(JStr(a))])
  {
    var records := [Record(None, []), Record(None, [User(u)]), Record(None, [User(u), Assistant(a)])];
    assert records[..2][..1] == [Record(None, [])];
    assert records[..2] == [Record(None, []), Record(None, [User(u)])];
    assert Load(records[..2][..1]) == [Some([])];
    assert Load(records[..2]) == [Some([]), Some([User(u)])];
    var view := Load(records);
    assert view == [Some([]), Some([User(u)]), Some([User(u), Assistant(a)])];
    assert view[1..] == [Some([User(u)]), Some([User(u), Assistant(a)])];
    assert view[1..][1..] == [Some([User(u), Assistant(a)])];
    assert LastContent([User(u), Assistant(a)]) == Success(JStr(a));
    assert LastContent([User(u)]) == Success(JStr(u));
    assert LastContent([]) == Success(JStr(""));
    var last := LastMessages(view);
    assert last.Success?;
    assert last.value[0] == Some(JStr("")) && last.value[1] == Some(JStr(u)) && last.value[2] == Some(JStr(a));
    assert last.value == [Some(JStr("")), Some(JStr(u)), Some(JStr(a))];
  }

  /**
   * Saves tagged 0, 3 and 2 give a four-slot view with slot 1 absent; the last messages are
   * "", <absent>, the assistant text and the user text.
   */
  lemma TaggedSavesOverwriteSlots(u: string, a: string)
    ensures var records := [Record(Some(0), []), Record(Some(3), [User(u)]), Record(Some(2), [User(u), Assistant(a)])];
      && Load(records) == [Some([]), None, Some([User(u), Assistant(a)]), Some([User(u)])]
      && LastMessages(Load(records)) == Success([Some(JStr("")), None, Some(JStr(a)), Some(JStr(u))])
  {
    var records := [Record(Some(0), []), Record(Some(3), [User(u)]), Record(Some(2), [User(u), Assistant(a)])];
    assert records[..2][..1] == [Record(Some(0), [])];
    assert records[..2] == [Record(Some(0), []), Record(Some(3), [User(u)])];
    assert Load(records[..2][..1]) == [Some([])];
    assert Load(records[..2]) == [Some([]), None, None, Some([User(u)])];
    var view := Load(records);
    assert view == [Some([]), None, Some([User(u), Assistant(a)]), Some([User(u)])];
    assert view[1..] == [None, Some([User(u), Assistant(a)]), Some([User(u)])];
    assert view[1..][1..] == [Some([User(u), Assistant(a)]), Some([User(u)])];
    assert view[1..][1..][1..] == [Some([User(u)])];
    assert LastContent([User(u), Assistant(a)]) == Success(JStr(a));
    assert LastContent([User(u)]) == Success(JStr(u));
    assert LastContent([]) == Success(JStr(""));
    var last := LastMessages(view);
    assert last.Success?;
    assert last.value[0] == Some(JStr("")) && last.value[1] == None;
    assert last.value[2] == Some(JStr(a)) && last.value[3] == Some(JStr(u));
    assert last.value == [Some(JStr("")), None, Some(JStr(a)), Some(JStr(u))];
  }
}
