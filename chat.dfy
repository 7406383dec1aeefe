/** The chat transcript of the page: the children of the `chatHistory`
    element, modelled as a sequence of (sender, text) records instead of DOM
    nodes. A message's sender is the CSS class `<sender>-message` it carries. */
module Chat {
  import opened Wrappers

  /** The three senders the page uses: "user", "ai" and "error". */
  datatype Sender = User | Ai | Error

  datatype Message = Message(sender: Sender, text: string)

  type History = seq<Message>

  /** `addMessage`: a new bubble is appended after every existing one. */
  function AddMessage(h: History, text: string, sender: Sender): (r: History)
    ensures |r| == |h| + 1 && r[..|h|] == h && r[|h|] == Message(sender, text)
    ensures LastOf(r, sender) == Some(|h|)
  {
    h + [Message(sender, text)]
  }

  /** Some message in `h` was sent by `sender`. */
  predicate HasMessageFrom(h: History, sender: Sender)
  {
    exists j :: 0 <= j < |h| && h[j].sender == sender
  }

  /** `querySelectorAll('.<sender>-message')`: the positions of that sender's
      messages, in document order. */
  function MessagesOf(h: History, sender: Sender): (r: seq<nat>)
    ensures forall k :: 0 <= k < |r| ==> r[k] < |h| && h[r[k]].sender == sender
    ensures forall k, l :: 0 <= k < l < |r| ==> r[k] < r[l]
    decreases |h|
  {
    if |h| == 0 then []
    else
      MessagesOf(h[..|h| - 1], sender) + (if h[|h| - 1].sender == sender then [|h| - 1] else [])
  }

  /** The query misses none of the sender's messages. */
  lemma {:induction false} MessagesOfComplete(h: History, sender: Sender, i: nat)
    requires i < |h| && h[i].sender == sender
    ensures i in MessagesOf(h, sender)
    decreases |h|
  {
    if i < |h| - 1 {
      MessagesOfComplete(h[..|h| - 1], sender, i);
    }
  }

  /** Reference definition: the position of the most recent message of
      `sender`, if there is one. */
  function LastOf(h: History, sender: Sender): (r: Option<nat>)
    ensures r.Some? ==> r.value < |h| && h[r.value].sender == sender
    ensures r.Some? ==> forall j :: r.value < j < |h| ==> h[j].sender != sender
    ensures r.None? <==> !HasMessageFrom(h, sender)
    decreases |h|
  {
    if |h| == 0 then None
    else if h[|h| - 1].sender == sender then Some(|h| - 1)
    else LastOf(h[..|h| - 1], sender)
  }

  /** `appendToLastMessage`: extend the most recent message of the same
      sender (later messages of other senders do not matter); only when that
      sender has no message yet, start a new one. */
  function AppendToLastMessage(h: History, text: string, sender: Sender): (r: History)
    ensures |r| == (if HasMessageFrom(h, sender) then |h| else |h| + 1)
    ensures forall j :: 0 <= j < |h| ==> r[j].sender == h[j].sender
    ensures HasMessageFrom(r, sender)
  {
    match LastOf(h, sender)
    case None => AddMessage(h, text, sender)
    case Some(i) => h[i := h[i].(text := h[i].text + text)]
  }

  /** The texts of all of `sender`'s messages, concatenated in document order. */
  function Transcript(h: History, sender: Sender): string
    decreases |h|
  {
    if |h| == 0 then ""
    else
      Transcript(h[..|h| - 1], sender) + (if h[|h| - 1].sender == sender then h[|h| - 1].text else "")
  }

  /** A message of `sender` with no later message of `sender` is the one
      LastOf finds. */
  lemma LastOfUnique(h: History, sender: Sender, i: nat)
    requires i < |h| && h[i].sender == sender
    requires forall j :: i < j < |h| ==> h[j].sender != sender
    ensures LastOf(h, sender) == Some(i)
  {
    assert HasMessageFrom(h, sender);
  }

  /** The element `appendToLastMessage` picks from the query result (its last
      one) is the most recent message of the sender, and the query is empty
      exactly when that sender has no message. */
  lemma {:induction false} LastSelectedIsLastOf(h: History, sender: Sender)
    ensures |MessagesOf(h, sender)| > 0 <==> LastOf(h, sender).Some?
    ensures |MessagesOf(h, sender)| > 0 ==>
              LastOf(h, sender) == Some(MessagesOf(h, sender)[|MessagesOf(h, sender)| - 1])
    decreases |h|
  {
    if |h| == 0 {
      assert MessagesOf(h, sender) == [];
    } else {
      var init := h[..|h| - 1];
      if h[|h| - 1].sender == sender {
        var r := MessagesOf(h, sender);
        assert r == MessagesOf(init, sender) + [|h| - 1];
        assert r[|r| - 1] == |h| - 1;
        assert LastOf(h, sender) == Some(|h| - 1);
      } else {
        assert MessagesOf(h, sender) == MessagesOf(init, sender);
        assert LastOf(h, sender) == LastOf(init, sender);
        LastSelectedIsLastOf(init, sender);
      }
    }
  }

  /** When `sender` already has a message, appending text keeps the length,
      extends exactly the most recent message of `sender`, and leaves every
      other message as it was. */
  lemma AppendExtendsLatest(h: History, text: string, sender: Sender, i: nat)
    requires i < |h| && h[i].sender == sender
    requires forall j :: i < j < |h| ==> h[j].sender != sender
    ensures |AppendToLastMessage(h, text, sender)| == |h|
    ensures AppendToLastMessage(h, text, sender)[i] == Message(sender, h[i].text + text)
    ensures forall j :: 0 <= j < |h| && j != i ==> AppendToLastMessage(h, text, sender)[j] == h[j]
  {
    LastOfUnique(h, sender, i);
  }

  /** When `sender` has no message yet, appending text adds exactly one new
      message of `sender` at the end. */
  lemma AppendStartsMessage(h: History, text: string, sender: Sender)
    requires !HasMessageFrom(h, sender)
    ensures AppendToLastMessage(h, text, sender) == h + [Message(sender, text)]
  {
  }

  /** Whatever the history, appending text extends `sender`'s transcript by
      exactly that text and leaves every other sender's transcript alone. */
  lemma {:induction false} AppendExtendsTranscript(h: History, text: string, sender: Sender, other: Sender)
    ensures Transcript(AppendToLastMessage(h, text, sender), sender) == Transcript(h, sender) + text
    ensures other != sender ==>
              Transcript(AppendToLastMessage(h, text, sender), other) == Transcript(h, other)
    decreases |h|
  {
    var r := AppendToLastMessage(h, text, sender);
    var n := |h|;
    match LastOf(h, sender)
    case None =>
      assert r[..n] == h;
    case Some(i) =>
      if i == n - 1 {
        assert r[..n - 1] == h[..n - 1];
      } else {
        assert LastOf(h[..n - 1], sender) == Some(i);
        assert r[..n - 1] == AppendToLastMessage(h[..n - 1], text, sender);
        AppendExtendsTranscript(h[..n - 1], text, sender, other);
      }
  }

  /** Two successive appends for one sender are one append of the
      concatenated text: deltas accumulate in arrival order. */
  lemma AppendsCompose(h: History, first: string, second: string, sender: Sender)
    ensures AppendToLastMessage(AppendToLastMessage(h, first, sender), second, sender)
            == AppendToLastMessage(h, first + second, sender)
  {
    var h1 := AppendToLastMessage(h, first, sender);
    match LastOf(h, sender)
    case None =>
      LastOfUnique(h1, sender, |h|);
      assert h1[|h|].text + second == first + second;
    case Some(i) =>
      LastOfUnique(h1, sender, i);
      assert h1[i].text + second == h[i].text + (first + second);
  }

  /** A message of another sender arriving after `sender`'s latest message
      does not redirect the next append: it still extends the earlier
      message, above the newer one. */
  lemma AppendSkipsOtherSenders(h: History, text: string, sender: Sender, t: string, other: Sender)
    requires other != sender && HasMessageFrom(h, sender)
    ensures AppendToLastMessage(AddMessage(h, t, other), text, sender)
            == AddMessage(AppendToLastMessage(h, text, sender), t, other)
  {
    var i := LastOf(h, sender).value;
    LastOfUnique(AddMessage(h, t, other), sender, i);
  }
}
