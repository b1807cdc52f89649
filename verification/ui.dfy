/**
 * The reference semantics of the terminal loop in `main`, on values: the UI
 * state, what one key does to it, what one loop iteration (drain, then one
 * key) does, and what a whole run of iterations does. The class in module App
 * is proved to behave exactly like these functions.
 */
module Ui {
  import opened Wrappers
  import opened Transcript

  /** The key codes the loop distinguishes; `Other` stands for every other key. */
  datatype Key = Enter | Char(c: char) | Backspace | Esc | PageUp | PageDown | Other

  /** The loop's variables: the chat history, the input line, `scroll_offset`, and whether the loop goes on. */
  datatype UiState = UiState(messages: seq<Message>, input: string, scroll: nat, running: bool)

  /**
   * What one key leads to: the next state together with the history copy a
   * submit hands to the streaming task, or a panic from `usize` arithmetic
   * that overflows (the checked arithmetic of a debug build).
   */
  datatype Step = Next(state: UiState, request: Option<seq<Message>>) | Panic

  /** One loop iteration: the fragments that arrived since the last drain, and the key polled (if any). */
  datatype Tick = Tick(arrivals: seq<string>, event: Option<Key>)

  /** A run of iterations: the final state and every request handed out, in order; or a panic. */
  datatype Run = Done(state: UiState, requests: seq<seq<Message>>) | Aborted

  const SCROLL_STEP: nat := 5
  const USIZE_MAX: nat := 0xFFFF_FFFF_FFFF_FFFF

  /** The state before the first iteration: empty history and input, offset 0, running. */
  const INITIAL: UiState := UiState([], "", 0, true)

  /** The invariant the loop keeps: whole alternating turns, and an offset that is a multiple of the step within `usize`. */
  predicate Valid(s: UiState)
  {
    Alternating(s.messages) && s.scroll % SCROLL_STEP == 0 && s.scroll <= USIZE_MAX
  }

  /** What one key does. */
  function Dispatch(s: UiState, k: Key): (r: Step)
    ensures r.Panic? ==> k.PageUp? || k.PageDown?
    ensures r.Next? ==> |r.state.messages| == |s.messages| + (if k.Enter? then 2 else 0)
    ensures r.Next? ==> (r.request.Some? <==> k.Enter?)
    ensures r.Next? && k.Enter? ==> r.request == Some(r.state.messages)
  {
    match k
    case Enter =>
      var msgs := s.messages + [Message(USER_ROLE, s.input)] + [Message(ASSISTANT_ROLE, "")];
      SnapshotIsCopy(msgs);
      Next(s.(messages := msgs, input := ""), Some(Snapshot(msgs)))
    case Char(c) => Next(s.(input := s.input + [c]), None)
    case Backspace => Next(s.(input := if s.input == [] then [] else s.input[..|s.input| - 1]), None)
    case Esc => Next(s.(running := false), None)
    case PageUp =>
      if s.scroll == 0 then Next(s, None)
      else if s.scroll < SCROLL_STEP then Panic
      else Next(s.(scroll := s.scroll - SCROLL_STEP), None)
    case PageDown =>
      if s.scroll + SCROLL_STEP > USIZE_MAX then Panic
      else Next(s.(scroll := s.scroll + SCROLL_STEP), None)
    case Other => Next(s, None)
  }

  /** One iteration after the redraw: drain every arrived fragment, then handle the polled key. */
  function TickStep(s: UiState, t: Tick): (r: Step)
    ensures r.Panic? ==> t.event == Some(PageUp) || t.event == Some(PageDown)
    ensures r.Next? ==> |r.state.messages| == |s.messages| + (if t.event == Some(Enter) then 2 else 0)
    ensures r.Next? ==> (r.request.Some? <==> t.event == Some(Enter))
  {
    var drained := s.(messages := ApplyFragments(s.messages, t.arrivals));
    match t.event
    case None => Next(drained, None)
    case Some(k) => Dispatch(drained, k)
  }

  /** The run so far followed by one more iteration, unless it has already stopped or panicked. */
  function Advance(r: Run, t: Tick): (a: Run)
    ensures r.Aborted? ==> a.Aborted?
    ensures r.Done? && !r.state.running ==> a == r
    ensures a.Done? ==> r.Done? && |r.requests| <= |a.requests| <= |r.requests| + 1 && a.requests[..|r.requests|] == r.requests
    ensures a.Done? ==> |a.state.messages| == |r.state.messages| + 2 * (|a.requests| - |r.requests|)
  {
    match r
    case Aborted => Aborted
    case Done(u, reqs) =>
      if !u.running then r
      else
        match TickStep(u, t)
        case Panic => Aborted
        case Next(v, req) => Done(v, reqs + (if req.Some? then [req.value] else []))
  }

  /** One more iteration of a running loop is one TickStep. */
  lemma AdvanceRunning(s: UiState, reqs: seq<seq<Message>>, t: Tick)
    requires s.running
    ensures Advance(Done(s, reqs), t) ==
      match TickStep(s, t)
      case Panic => Aborted
      case Next(v, req) => Done(v, reqs + (if req.Some? then [req.value] else []))
  {
  }

  /** Iterations in order, until `Esc` stops the loop or arithmetic panics. */
  function RunTicks(s: UiState, ticks: seq<Tick>): (r: Run)
    ensures r.Done? ==> |r.requests| <= |ticks|
    ensures r.Done? ==> |r.state.messages| == |s.messages| + 2 * |r.requests|
    decreases |ticks|
  {
    if ticks == [] then Done(s, [])
    else Advance(RunTicks(s, ticks[..|ticks| - 1]), ticks[|ticks| - 1])
  }

  /** Enter appends exactly `{user, input}` then `{assistant, ""}` (empty input included), clears the input, and hands out a copy of the new history. */
  lemma EnterSubmitsTurn(s: UiState)
    ensures Dispatch(s, Enter).Next?
    ensures var t := Dispatch(s, Enter).state;
      t.messages == s.messages + [Message(USER_ROLE, s.input), Message(ASSISTANT_ROLE, "")] &&
      t.input == "" && t.scroll == s.scroll && t.running == s.running &&
      Dispatch(s, Enter).request == Some(t.messages) &&
      HasAssistantTail(t.messages)
  {
    var msgs := s.messages + [Message(USER_ROLE, s.input)] + [Message(ASSISTANT_ROLE, "")];
    SnapshotIsCopy(msgs);
  }

  /** Char appends its character, Backspace drops the last one (nothing when empty); no other key edits the input. */
  lemma KeysEditInput(s: UiState, k: Key)
    requires Dispatch(s, k).Next?
    ensures var t := Dispatch(s, k).state;
      (k.Char? ==> t.input == s.input + [k.c]) &&
      (k.Backspace? && s.input != [] ==> t.input + [s.input[|s.input| - 1]] == s.input) &&
      (k.Backspace? && s.input == [] ==> t.input == []) &&
      (!k.Char? && !k.Backspace? && !k.Enter? ==> t.input == s.input)
  {
  }

  /** Only Enter adds messages, and only by one whole turn; every other key keeps the history. */
  lemma KeysKeepHistory(s: UiState, k: Key)
    requires Dispatch(s, k).Next?
    ensures !k.Enter? ==> Dispatch(s, k).state.messages == s.messages && Dispatch(s, k).request == None
    ensures k.Enter? ==> Dispatch(s, k).state.messages[..|s.messages|] == s.messages
  {
  }

  /** The offset moves only on PageUp (down by the step, when positive) and PageDown (up by the step). */
  lemma ScrollMovesByStep(s: UiState, k: Key)
    requires Dispatch(s, k).Next?
    ensures var t := Dispatch(s, k).state;
      (k.PageUp? && s.scroll > 0 ==> t.scroll + SCROLL_STEP == s.scroll) &&
      (k.PageUp? && s.scroll == 0 ==> t.scroll == 0) &&
      (k.PageDown? ==> t.scroll == s.scroll + SCROLL_STEP) &&
      (!k.PageUp? && !k.PageDown? ==> t.scroll == s.scroll)
  {
  }

  /** Escape stops the loop; no other key does. */
  lemma EscStops(s: UiState, k: Key)
    requires Dispatch(s, k).Next?
    ensures Dispatch(s, k).state.running == (s.running && !k.Esc?)
  {
  }

  /** Every key keeps the invariant. */
  lemma DispatchKeepsValid(s: UiState, k: Key)
    requires Valid(s)
    ensures Dispatch(s, k).Next? ==> Valid(Dispatch(s, k).state)
    ensures Dispatch(s, k).Next? && Dispatch(s, k).request.Some? ==>
      var q := Dispatch(s, k).request.value; Alternating(q) && HasAssistantTail(q)
  {
  }

  /**
   * Under the invariant PageUp never underflows: the only key that can panic
   * is PageDown at the very top of `usize`.
   */
  lemma PanicsOnlyAtUsizeMax(s: UiState, k: Key)
    requires Valid(s)
    ensures Dispatch(s, k).Panic? <==> k.PageDown? && s.scroll == USIZE_MAX
  {
  }

  /** Without the invariant PageUp would underflow: an offset of 3 panics. */
  lemma PageUpUnderflowsOffStep()
    ensures Dispatch(UiState([], "", 3, true), PageUp) == Panic
  {
  }

  /** A run keeps the invariant, and every request it hands out is whole turns ending with the assistant placeholder. */
  lemma {:induction false} RunKeepsValid(s: UiState, ticks: seq<Tick>)
    requires Valid(s)
    ensures RunTicks(s, ticks).Done? ==>
      var r := RunTicks(s, ticks);
      Valid(r.state) &&
      forall j :: 0 <= j < |r.requests| ==> Alternating(r.requests[j]) && HasAssistantTail(r.requests[j])
    decreases |ticks|
  {
    if ticks != [] {
      var init := ticks[..|ticks| - 1];
      RunKeepsValid(s, init);
      var prev := RunTicks(s, init);
      if prev.Done? && prev.state.running {
        var t := prev.state;
        var tick := ticks[|ticks| - 1];
        ApplyFragmentsKeepsAlternating(t.messages, tick.arrivals);
        var drained := t.(messages := ApplyFragments(t.messages, tick.arrivals));
        if tick.event.Some? {
          DispatchKeepsValid(drained, tick.event.value);
        }
      }
    }
  }

  /** Fewer iterations than it takes PageDown to reach the top of `usize`: the run cannot panic. */
  lemma {:induction false} RunCannotPanicEarly(s: UiState, ticks: seq<Tick>)
    requires Valid(s)
    requires s.scroll + SCROLL_STEP * |ticks| <= USIZE_MAX
    ensures RunTicks(s, ticks).Done?
    ensures RunTicks(s, ticks).state.scroll <= s.scroll + SCROLL_STEP * |ticks|
    decreases |ticks|
  {
    if ticks != [] {
      var init := ticks[..|ticks| - 1];
      RunCannotPanicEarly(s, init);
      RunKeepsValid(s, init);
      var t := RunTicks(s, init).state;
      if t.running {
        var tick := ticks[|ticks| - 1];
        var drained := t.(messages := ApplyFragments(t.messages, tick.arrivals));
        if tick.event.Some? {
          var k := tick.event.value;
          PanicsOnlyAtUsizeMax(drained, k);
          if Dispatch(drained, k).Next? {
            ScrollMovesByStep(drained, k);
          }
        }
      }
    }
  }

  /** Once stopped or panicked, further iterations change nothing. */
  lemma {:induction false} RunFinished(s: UiState, ticks: seq<Tick>, more: seq<Tick>)
    requires RunTicks(s, ticks).Aborted? || !RunTicks(s, ticks).state.running
    ensures RunTicks(s, ticks + more) == RunTicks(s, ticks)
    decreases |more|
  {
    if more == [] {
      assert ticks + more == ticks;
    } else {
      var init := more[..|more| - 1];
      RunFinished(s, ticks, init);
      assert (ticks + more)[..|ticks + more| - 1] == ticks + init;
    }
  }

  /** A run that is still going saw no Escape in any iteration. */
  lemma {:induction false} RunningMeansNoEsc(s: UiState, ticks: seq<Tick>)
    requires s.running
    requires RunTicks(s, ticks).Done? && RunTicks(s, ticks).state.running
    ensures forall j :: 0 <= j < |ticks| ==> ticks[j].event != Some(Esc)
    decreases |ticks|
  {
    if ticks != [] {
      var init := ticks[..|ticks| - 1];
      var prev := RunTicks(s, init);
      RunningMeansNoEsc(s, init);
      var tick := ticks[|ticks| - 1];
      if tick.event == Some(Esc) {
        var drained := prev.state.(messages := ApplyFragments(prev.state.messages, tick.arrivals));
        EscStops(drained, Esc);
      }
      forall j | 0 <= j < |ticks|
        ensures ticks[j].event != Some(Esc)
      {
        if j < |init| {
          assert ticks[j] == init[j];
        }
      }
    }
  }

  /** Typing "hi", submitting, then receiving "Hel" and "lo!" gives `[{user, "hi"}, {assistant, "Hello!"}]`. */
  lemma HelloScenario()
    ensures RunTicks(INITIAL, [
      Tick([], Some(Char('h'))), Tick([], Some(Char('i'))), Tick([], Some(Enter)), Tick(["Hel", "lo!"], None)])
      == Done(UiState([Message("user", "hi"), Message("assistant", "Hello!")], "", 0, true),
              [[Message("user", "hi"), Message("assistant", "")]])
  {
    var t0 := Tick([], Some(Char('h')));
    var t1 := Tick([], Some(Char('i')));
    var t2 := Tick([], Some(Enter));
    var t3 := Tick(["Hel", "lo!"], None);
    var ticks := [t0, t1, t2, t3];
    assert ticks[..3] == [t0, t1, t2];
    assert [t0, t1, t2][..2] == [t0, t1];
    assert [t0, t1][..1] == [t0];
    assert [t0][..0] == [];
    assert RunTicks(INITIAL, [t0]) == Done(UiState([], "h", 0, true), []);
    assert RunTicks(INITIAL, [t0, t1]) == Done(UiState([], "hi", 0, true), []);
    var msgs := [Message("user", "hi"), Message("assistant", "")];
    SnapshotIsCopy(msgs);
    assert RunTicks(INITIAL, [t0, t1, t2]) == Done(UiState(msgs, "", 0, true), [msgs]);
    ApplyFragmentsOnAssistantTail(msgs, ["Hel", "lo!"]);
    assert Concat(["Hel", "lo!"]) == "Hello!";
    var final := [Message("user", "hi"), Message("assistant", "Hello!")];
    assert msgs[1].content + Concat(["Hel", "lo!"]) == "Hello!";
    assert msgs[1 := Message(ASSISTANT_ROLE, "Hello!")] == final;
    assert ApplyFragments(msgs, ["Hel", "lo!"]) == final;
    assert TickStep(UiState(msgs, "", 0, true), t3) == Next(UiState(final, "", 0, true), None);
  }

  /** When no fragment ever arrives (a failed request), the placeholder stays empty while the loop keeps running. */
  lemma SilentFailureScenario(n: nat)
    ensures var submitted := UiState([Message("user", "hi"), Message("assistant", "")], "", 0, true);
      RunTicks(submitted, seq(n, _ => Tick([], None))) == Done(submitted, [])
  {
    var submitted := UiState([Message("user", "hi"), Message("assistant", "")], "", 0, true);
    var k := 0;
    while k < n
      invariant k <= n
      invariant RunTicks(submitted, seq(k, _ => Tick([], None))) == Done(submitted, [])
    {
      assert seq(k + 1, _ => Tick([], None))[..k] == seq(k, _ => Tick([], None));
      k := k + 1;
    }
  }
}
