/**
 * The terminal loop of `main` as an object: the variables the loop updates
 * in place (history, input line, scroll offset, whether it goes on), the
 * drain of the update channel, the key dispatch, one iteration, and the loop
 * itself. Each method is proved to do what the functions of module Ui say.
 */
module App {
  import opened Wrappers
  import opened Transcript
  import Render
  import Ui
  import Channel

  class ChatSession {
    var messages: seq<Message>
    var input: string
    var scroll: nat
    var running: bool

    /** The loop's variables as a value. */
    function State(): Ui.UiState
      reads this
    {
      Ui.UiState(messages, input, scroll, running)
    }

    ghost predicate Valid()
      reads this
    {
      Ui.Valid(State())
    }

    /** `String::new()`, `ChatHistory { messages: vec![] }`, `scroll_offset = 0`. */
    constructor ()
      ensures State() == Ui.INITIAL && Valid()
    {
      messages := [];
      input := "";
      scroll := 0;
      running := true;
    }

    /** `last_mut()` and `push_str`: grow the last message when it is an assistant message. */
    method ApplyFragment(fragment: string)
      modifies this`messages
      ensures messages == Transcript.ApplyFragment(old(messages), fragment)
    {
      if |messages| > 0 && messages[|messages| - 1].role == ASSISTANT_ROLE {
        var last := messages[|messages| - 1];
        messages := messages[|messages| - 1 := last.(content := last.content + fragment)];
      }
    }

    /** `while let Ok(content) = rx.try_recv()`: apply every pending fragment, oldest first. */
    method Drain(rx: Channel.FragmentQueue)
      requires Valid()
      modifies this, rx
      ensures Valid()
      ensures rx.pending == []
      ensures messages == ApplyFragments(old(messages), old(rx.pending))
      ensures input == old(input) && scroll == old(scroll) && running == old(running)
    {
      ghost var target := ApplyFragments(messages, rx.pending);
      var next := rx.TryRecv();
      while next.Some?
        invariant next.Some? ==> ApplyFragments(messages, [next.value] + rx.pending) == target
        invariant next.None? ==> rx.pending == [] && messages == target
        invariant input == old(input) && scroll == old(scroll) && running == old(running)
        decreases |rx.pending| + (if next.Some? then 1 else 0)
      {
        ghost var rest := rx.pending;
        assert ([next.value] + rest)[1..] == rest;
        ApplyFragment(next.value);
        next := rx.TryRecv();
        if next.Some? {
          assert [next.value] + rx.pending == rest;
        }
      }
      ApplyFragmentsKeepsAlternating(old(messages), old(rx.pending));
    }

    /** Handle one key; `request` is the history copy a submit hands to the streaming task. */
    method HandleKey(k: Ui.Key) returns (request: Option<seq<Message>>, panicked: bool)
      requires Valid()
      modifies this
      ensures panicked ==> Ui.Dispatch(old(State()), k) == Ui.Panic && State() == old(State())
      ensures !panicked ==> Ui.Dispatch(old(State()), k) == Ui.Next(State(), request) && Valid()
    {
      request, panicked := None, false;
      ghost var s := State();
      match k {
        case Enter =>
          messages := messages + [Message(USER_ROLE, input)];
          messages := messages + [Message(ASSISTANT_ROLE, "")];
          request := Some(Snapshot(messages));
          input := "";
        case Char(c) =>
          input := input + [c];
        case Backspace =>
          if |input| > 0 {
            input := input[..|input| - 1];
          }
        case Esc =>
          running := false;
        case PageUp =>
          if scroll > 0 {
            scroll := scroll - Ui.SCROLL_STEP;
          }
        case PageDown =>
          if scroll + Ui.SCROLL_STEP <= Ui.USIZE_MAX {
            scroll := scroll + Ui.SCROLL_STEP;
          } else {
            panicked := true;
          }
        case Other =>
      }
      Ui.DispatchKeepsValid(s, k);
      Ui.PanicsOnlyAtUsizeMax(s, k);
    }

    /** One loop iteration: compute the text to draw, drain the channel, then handle the polled key if there is one. */
    method Tick(rx: Channel.FragmentQueue, event: Option<Ui.Key>)
      returns (displayed: string, request: Option<seq<Message>>, panicked: bool)
      requires Valid()
      modifies this, rx
      ensures displayed == Render.DisplayedText(old(messages), old(scroll))
      ensures rx.pending == []
      ensures (if panicked then Ui.Panic else Ui.Next(State(), request)) ==
        Ui.TickStep(old(State()), Ui.Tick(old(rx.pending), event))
      ensures !panicked ==> Valid()
    {
      displayed := Render.DisplayedText(messages, scroll);
      Drain(rx);
      if event.Some? {
        request, panicked := HandleKey(event.value);
      } else {
        request, panicked := None, false;
      }
    }

    /** The streaming side delivers this iteration's fragments, then the iteration runs. */
    method Iterate(rx: Channel.FragmentQueue, tick: Ui.Tick) returns (request: Option<seq<Message>>, panicked: bool)
      requires Valid()
      requires rx.pending == []
      modifies this, rx
      ensures rx.pending == []
      ensures (if panicked then Ui.Panic else Ui.Next(State(), request)) == Ui.TickStep(old(State()), tick)
      ensures !panicked ==> Valid()
    {
      rx.SendAll(tick.arrivals);
      assert [] + tick.arrivals == tick.arrivals;
      var displayed;
      displayed, request, panicked := Tick(rx, tick.event);
    }

    /**
     * The loop: before each iteration the streaming side delivers that
     * iteration's fragments; iterations go on until Escape (or a panic).
     * `requests` are the history copies handed out by submits, in order.
     */
    method Run(rx: Channel.FragmentQueue, schedule: seq<Ui.Tick>)
      returns (requests: seq<seq<Message>>, panicked: bool)
      requires Valid()
      requires rx.pending == []
      modifies this, rx
      ensures (if panicked then Ui.Aborted else Ui.Done(State(), requests)) == Ui.RunTicks(old(State()), schedule)
    {
      ghost var s0 := State();
      requests, panicked := [], false;
      var i := 0;
      while i < |schedule| && running && !panicked
        invariant 0 <= i <= |schedule|
        invariant rx.pending == []
        invariant !panicked ==> Valid()
        invariant (if panicked then Ui.Aborted else Ui.Done(State(), requests)) == Ui.RunTicks(s0, schedule[..i])
      {
        var tick := schedule[i];
        ghost var before := State();
        ghost var done := requests;
        var request;
        request, panicked := Iterate(rx, tick);
        if request.Some? {
          requests := requests + [request.value];
        }
        Ui.AdvanceRunning(before, done, tick);
        assert schedule[..i + 1][..i] == schedule[..i];
        i := i + 1;
      }
      if i < |schedule| {
        Ui.RunFinished(s0, schedule[..i], schedule[i..]);
        assert schedule[..i] + schedule[i..] == schedule;
      } else {
        assert schedule[..i] == schedule;
      }
    }
  }
}
