/**
 * The transcript: the list of chat messages the widget shows, and the four ways
 * its event handlers rewrite it.
 */
module Transcript {
  import opened Wrappers
  import opened Js
  import opened ChatSdk

  /** The position of the first message with id `id`: what `findIndex(m => m.id === id)` finds. */
  function IndexOfId(msgs: seq<Message>, id: JsValue): (r: Option<nat>)
    ensures r.Some? ==> r.value < |msgs| && msgs[r.value].id == id
                        && forall j :: 0 <= j < r.value ==> msgs[j].id != id
    ensures r.None? <==> forall j :: 0 <= j < |msgs| ==> msgs[j].id != id
  {
    if msgs == [] then None
    else if msgs[0].id == id then Some(0)
    else
      match IndexOfId(msgs[1..], id)
      case None =>
        assert forall j :: 1 <= j < |msgs| ==> msgs[j] == msgs[1..][j - 1];
        None
      case Some(k) =>
        assert forall j :: 1 <= j < |msgs| ==> msgs[j] == msgs[1..][j - 1];
        Some(k + 1)
  }

  /** `findIndex`, as the loop it performs: -1 when no message has the id. */
  method FindIndex(msgs: seq<Message>, id: JsValue) returns (index: int)
    ensures -1 <= index < |msgs|
    ensures index == -1 <==> IndexOfId(msgs, id).None?
    ensures index >= 0 ==> IndexOfId(msgs, id) == Some(index)
  {
    var i := 0;
    while i < |msgs|
      invariant 0 <= i <= |msgs|
      invariant forall j :: 0 <= j < i ==> msgs[j].id != id
    {
      if msgs[i].id == id {
        return i;
      }
      i := i + 1;
    }
    return -1;
  }

  /**
   * The update of an arriving message: it replaces the first message with the same id,
   * or is appended when there is none.
   */
  function Upserted(msgs: seq<Message>, m: Message): (r: seq<Message>)
    ensures IndexOfId(msgs, m.id).None? ==> r == msgs + [m]
    ensures IndexOfId(msgs, m.id).Some? ==>
              |r| == |msgs| && r[IndexOfId(msgs, m.id).value] == m
              && forall j :: 0 <= j < |msgs| && j != IndexOfId(msgs, m.id).value ==> r[j] == msgs[j]
  {
    match IndexOfId(msgs, m.id)
    case None => msgs + [m]
    case Some(k) => msgs[k := m]
  }

  /** After an upsert the message is present, at its old place if it had one. */
  lemma UpsertedFinds(msgs: seq<Message>, m: Message)
    ensures IndexOfId(Upserted(msgs, m), m.id).Some?
    ensures IndexOfId(msgs, m.id).Some? ==> IndexOfId(Upserted(msgs, m), m.id) == IndexOfId(msgs, m.id)
    ensures IndexOfId(msgs, m.id).None? ==> IndexOfId(Upserted(msgs, m), m.id) == Some(|msgs|)
  {
    var r := Upserted(msgs, m);
    match IndexOfId(msgs, m.id)
    case None =>
      assert r[|msgs|] == m;
      assert forall j :: 0 <= j < |msgs| ==> r[j].id != m.id;
    case Some(k) =>
      assert r[k] == m;
      assert forall j :: 0 <= j < k ==> r[j].id != m.id;
  }

  /** Applying the same message twice gives the same transcript as applying it once. */
  lemma UpsertIdempotent(msgs: seq<Message>, m: Message)
    ensures Upserted(Upserted(msgs, m), m) == Upserted(msgs, m)
  {
    UpsertedFinds(msgs, m);
    var r := Upserted(msgs, m);
    var k := IndexOfId(r, m.id).value;
    assert r[k] == m;
    assert r[k := m] == r;
  }

  /** An upsert never removes a message and adds at most one. */
  lemma UpsertLength(msgs: seq<Message>, m: Message)
    ensures |Upserted(msgs, m)| == |msgs| + (if IndexOfId(msgs, m.id).None? then 1 else 0)
  {
  }

  /** `prev.map(msg => msg.id === id ? { ...msg, uploading: false } : msg)` */
  function FlipUploaded(msgs: seq<Message>, id: JsValue): (r: seq<Message>)
    ensures |r| == |msgs|
    ensures forall j :: 0 <= j < |msgs| ==>
              if msgs[j].id == id then r[j] == msgs[j].(uploading := Some(false)) else r[j] == msgs[j]
  {
    if msgs == [] then []
    else
      var head := if msgs[0].id == id then msgs[0].(uploading := Some(false)) else msgs[0];
      var rest := FlipUploaded(msgs[1..], id);
      assert forall j :: 1 <= j < |msgs| ==> msgs[j] == msgs[1..][j - 1];
      [head] + rest
  }

  /** `prev.filter(msg => msg.id !== id)` */
  function RemoveId(msgs: seq<Message>, id: JsValue): (r: seq<Message>)
    ensures forall j :: 0 <= j < |r| ==> r[j].id != id
    ensures |r| <= |msgs|
    ensures forall m :: m in msgs && m.id != id ==> m in r
    ensures forall m :: m in r ==> m in msgs
    ensures IndexOfId(msgs, id).None? ==> r == msgs
  {
    if msgs == [] then []
    else
      var rest := RemoveId(msgs[1..], id);
      assert forall m :: m in msgs ==> m == msgs[0] || m in msgs[1..];
      if msgs[0].id == id then rest
      else
        assert IndexOfId(msgs, id).None? ==> IndexOfId(msgs[1..], id).None?;
        [msgs[0]] + rest
  }

  /** Removing messages keeps the order of those that stay: the rest of the transcript is a subsequence. */
  lemma {:induction false} RemoveIdKeepsOrder(msgs: seq<Message>, id: JsValue, extra: seq<Message>)
    requires forall j :: 0 <= j < |extra| ==> extra[j].id != id
    ensures RemoveId(msgs + extra, id) == RemoveId(msgs, id) + extra
  {
    if msgs == [] {
      assert msgs + extra == extra;
      RemoveNone(extra, id);
    } else {
      assert (msgs + extra)[1..] == msgs[1..] + extra;
      assert (msgs + extra)[0] == msgs[0];
      RemoveIdKeepsOrder(msgs[1..], id, extra);
    }
  }

  lemma RemoveNone(msgs: seq<Message>, id: JsValue)
    requires forall j :: 0 <= j < |msgs| ==> msgs[j].id != id
    ensures RemoveId(msgs, id) == msgs
  {
    assert IndexOfId(msgs, id).None?;
  }

  /**
   * A message appended with an id no other message has keeps that id to itself: a
   * later flip by that id changes it and nothing else.
   */
  lemma FlipOwnId(before: seq<Message>, m: Message, after: seq<Message>)
    requires IndexOfId(before, m.id).None?
    requires forall j :: 0 <= j < |after| ==> after[j].id != m.id
    ensures FlipUploaded(before + [m] + after, m.id) == before + [m.(uploading := Some(false))] + after
  {
    var m' := m.(uploading := Some(false));
    var xs := before + [m] + after;
    var ys := before + [m'] + after;
    forall j | 0 <= j < |xs| ensures ys[j] == FlippedAt(xs[j], m.id) {
      if j < |before| {
        assert xs[j] == before[j] && ys[j] == before[j];
      } else if j > |before| {
        assert xs[j] == after[j - |before| - 1] && ys[j] == after[j - |before| - 1];
      }
    }
    FlipPointwise(xs, ys, m.id);
  }

  /** One message under the flip. */
  function FlippedAt(msg: Message, id: JsValue): Message {
    if msg.id == id then msg.(uploading := Some(false)) else msg
  }

  /** The flip is determined message by message. */
  lemma FlipPointwise(xs: seq<Message>, ys: seq<Message>, id: JsValue)
    requires |xs| == |ys| && forall j :: 0 <= j < |xs| ==> ys[j] == FlippedAt(xs[j], id)
    ensures FlipUploaded(xs, id) == ys
  {
  }

  lemma FlipNone(msgs: seq<Message>, id: JsValue)
    requires forall j :: 0 <= j < |msgs| ==> msgs[j].id != id
    ensures FlipUploaded(msgs, id) == msgs
  {
  }

  /** The flip distributes over concatenation. */
  lemma {:induction false} FlipConcat(a: seq<Message>, b: seq<Message>, id: JsValue)
    ensures FlipUploaded(a + b, id) == FlipUploaded(a, id) + FlipUploaded(b, id)
  {
    if a == [] {
      assert a + b == b;
    } else {
      assert (a + b)[1..] == a[1..] + b;
      assert (a + b)[0] == a[0];
      FlipConcat(a[1..], b, id);
    }
  }

  /** ... and a later removal by that id removes it and nothing else. */
  lemma RemoveOwnId(before: seq<Message>, m: Message, after: seq<Message>)
    requires IndexOfId(before, m.id).None?
    requires forall j :: 0 <= j < |after| ==> after[j].id != m.id
    ensures RemoveId(before + [m] + after, m.id) == before + after
  {
    RemoveIdKeepsOrder(before + [m], m.id, after);
    RemoveIdConcat(before, [m], m.id);
    RemoveNone(before, m.id);
    assert RemoveId([m], m.id) == [];
    assert before + [] == before;
  }

  /** Removal distributes over concatenation. */
  lemma {:induction false} RemoveIdConcat(a: seq<Message>, b: seq<Message>, id: JsValue)
    ensures RemoveId(a + b, id) == RemoveId(a, id) + RemoveId(b, id)
  {
    if a == [] {
      assert a + b == b;
    } else {
      assert (a + b)[1..] == a[1..] + b;
      assert (a + b)[0] == a[0];
      RemoveIdConcat(a[1..], b, id);
    }
  }
}
