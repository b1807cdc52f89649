/**
 * The conversation transcript: an ordered list of role-tagged messages, the
 * fragment application the render loop performs on it, and the element-wise
 * copy (`ChatHistory::clone`) handed to the streaming task.
 */
module Transcript {

  /** One chat message; the role is a plain string, as in the JSON the server expects. */
  datatype Message = Message(role: string, content: string)

  const USER_ROLE: string := "user"
  const ASSISTANT_ROLE: string := "assistant"

  /** The role the message at position `i` has in a well-formed conversation. */
  function RoleAt(i: nat): string
  {
    if i % 2 == 0 then USER_ROLE else ASSISTANT_ROLE
  }

  /** The history is a sequence of whole turns: user, assistant, user, assistant, ... */
  predicate Alternating(msgs: seq<Message>)
  {
    |msgs| % 2 == 0 &&
    forall i :: 0 <= i < |msgs| ==> msgs[i].role == RoleAt(i)
  }

  /** The last message exists and is an assistant message (the one fragments grow). */
  predicate HasAssistantTail(msgs: seq<Message>)
  {
    |msgs| > 0 && msgs[|msgs| - 1].role == ASSISTANT_ROLE
  }

  /** Two histories agree on length and on every role. */
  predicate SameRoles(a: seq<Message>, b: seq<Message>)
  {
    |a| == |b| && forall i :: 0 <= i < |a| ==> a[i].role == b[i].role
  }

  /**
   * Apply one streamed fragment: it is appended to the content of the last
   * message when that message is an assistant message; otherwise (empty
   * history, or a user message last) it is discarded.
   */
  function ApplyFragment(msgs: seq<Message>, fragment: string): (r: seq<Message>)
    ensures SameRoles(r, msgs)
    ensures forall i :: 0 <= i < |msgs| - 1 ==> r[i] == msgs[i]
    ensures HasAssistantTail(msgs) ==> r[|r| - 1].content == msgs[|msgs| - 1].content + fragment
    ensures !HasAssistantTail(msgs) ==> r == msgs
  {
    if HasAssistantTail(msgs) then
      var last := msgs[|msgs| - 1];
      msgs[|msgs| - 1 := last.(content := last.content + fragment)]
    else
      msgs
  }

  /** Apply the fragments in queue order. */
  function ApplyFragments(msgs: seq<Message>, fragments: seq<string>): (r: seq<Message>)
    ensures SameRoles(r, msgs)
    decreases |fragments|
  {
    if fragments == [] then msgs
    else ApplyFragments(ApplyFragment(msgs, fragments[0]), fragments[1..])
  }

  /** The concatenation `f1 + f2 + ... + fn` of a fragment sequence. */
  function Concat(fragments: seq<string>): string
    decreases |fragments|
  {
    if fragments == [] then "" else fragments[0] + Concat(fragments[1..])
  }

  /** Drain a sequence of batches one after the other. */
  function ApplyBatches(msgs: seq<Message>, batches: seq<seq<string>>): seq<Message>
    decreases |batches|
  {
    if batches == [] then msgs
    else ApplyBatches(ApplyFragments(msgs, batches[0]), batches[1..])
  }

  /** All batches laid end to end. */
  function Flatten(batches: seq<seq<string>>): seq<string>
    decreases |batches|
  {
    if batches == [] then [] else batches[0] + Flatten(batches[1..])
  }

  /**
   * `ChatHistory::clone`: a fresh history built message by message, copying
   * role and content. The copy equals the original, position by position.
   */
  function Snapshot(msgs: seq<Message>): (copy: seq<Message>)
    ensures |copy| == |msgs|
    ensures forall i :: 0 <= i < |msgs| ==>
      copy[i].role == msgs[i].role && copy[i].content == msgs[i].content
    decreases |msgs|
  {
    if msgs == [] then []
    else [Message(msgs[0].role, msgs[0].content)] + Snapshot(msgs[1..])
  }

  /** The snapshot is the live history itself (same length, roles and contents in order). */
  lemma SnapshotIsCopy(msgs: seq<Message>)
    ensures Snapshot(msgs) == msgs
  {
  }

  /** Draining f1..fn onto an assistant tail appends `f1 + ... + fn` to it and changes nothing else. */
  lemma {:induction false} ApplyFragmentsOnAssistantTail(msgs: seq<Message>, fragments: seq<string>)
    requires HasAssistantTail(msgs)
    ensures ApplyFragments(msgs, fragments) ==
      msgs[|msgs| - 1 := Message(ASSISTANT_ROLE, msgs[|msgs| - 1].content + Concat(fragments))]
    decreases |fragments|
  {
    var n := |msgs|;
    if fragments == [] {
      assert msgs[n - 1].content + Concat(fragments) == msgs[n - 1].content;
    } else {
      var next := ApplyFragment(msgs, fragments[0]);
      assert HasAssistantTail(next);
      ApplyFragmentsOnAssistantTail(next, fragments[1..]);
      assert next[n - 1].content + Concat(fragments[1..]) == msgs[n - 1].content + Concat(fragments);
    }
  }

  /** With no assistant message last (including the empty history), every fragment is discarded. */
  lemma {:induction false} ApplyFragmentsWithoutAssistantTail(msgs: seq<Message>, fragments: seq<string>)
    requires !HasAssistantTail(msgs)
    ensures ApplyFragments(msgs, fragments) == msgs
    decreases |fragments|
  {
    if fragments != [] {
      ApplyFragmentsWithoutAssistantTail(msgs, fragments[1..]);
    }
  }

  /** Draining a queue in two parts gives what draining it at once gives. */
  lemma {:induction false} ApplyFragmentsSplit(msgs: seq<Message>, a: seq<string>, b: seq<string>)
    ensures ApplyFragments(msgs, a + b) == ApplyFragments(ApplyFragments(msgs, a), b)
    decreases |a|
  {
    if a != [] {
      assert (a + b)[0] == a[0];
      assert (a + b)[1..] == a[1..] + b;
      ApplyFragmentsSplit(ApplyFragment(msgs, a[0]), a[1..], b);
    } else {
      assert a + b == b;
    }
  }

  /** Batching invariance: however the queue was cut into drains, the result is that of one drain. */
  lemma {:induction false} ApplyBatchesFlatten(msgs: seq<Message>, batches: seq<seq<string>>)
    ensures ApplyBatches(msgs, batches) == ApplyFragments(msgs, Flatten(batches))
    decreases |batches|
  {
    if batches != [] {
      ApplyFragmentsSplit(msgs, batches[0], Flatten(batches[1..]));
      ApplyBatchesFlatten(ApplyFragments(msgs, batches[0]), batches[1..]);
    }
  }

  /** Fragment application never changes length or roles, so it keeps the history alternating. */
  lemma ApplyFragmentsKeepsAlternating(msgs: seq<Message>, fragments: seq<string>)
    requires Alternating(msgs)
    ensures Alternating(ApplyFragments(msgs, fragments))
  {
  }

  /** An alternating, non-empty history ends with an assistant message. */
  lemma AlternatingTail(msgs: seq<Message>)
    requires Alternating(msgs) && msgs != []
    ensures HasAssistantTail(msgs)
  {
  }
}
