/**
 * The text the history pane shows: every message formatted as
 * "role: content", joined with newlines, cut into lines, and the window of
 * lines that starts at the scroll offset (clamped to the line count).
 * Everything here is a function of the history and the offset: computing it
 * changes no state, and two computations on the same state agree.
 */
module Render {
  import opened Transcript

  const NEWLINE: char := '\n'

  /** `format!("{}: {}", role, content)` */
  function FormatMessage(m: Message): (line: string)
    ensures |line| == |m.role| + 2 + |m.content|
    ensures line[..|m.role|] == m.role && line[|m.role|..|m.role| + 2] == ": " && line[|m.role| + 2..] == m.content
    ensures NEWLINE !in line <==> NEWLINE !in m.role && NEWLINE !in m.content
  {
    m.role + ": " + m.content
  }

  /** The formatted messages, in history order (`iter().map(...).collect()`). */
  function FormatAll(msgs: seq<Message>): (lines: seq<string>)
    ensures |lines| == |msgs|
  {
    seq(|msgs|, i requires 0 <= i < |msgs| => FormatMessage(msgs[i]))
  }

  /** `join(sep)`: the parts with one separator between neighbours; no parts give "". */
  function Join(parts: seq<string>, sep: char): (r: string)
    ensures parts == [] ==> r == []
    ensures parts != [] ==> |parts[0]| <= |r| && r[..|parts[0]|] == parts[0]
    decreases |parts|
  {
    if |parts| == 0 then ""
    else if |parts| == 1 then parts[0]
    else parts[0] + [sep] + Join(parts[1..], sep)
  }

  /** Cut `s` at every `sep`; there is always one more part than separators. */
  function Split(s: string, sep: char): (parts: seq<string>)
    ensures |parts| >= 1
    ensures forall i :: 0 <= i < |parts| ==> sep !in parts[i]
    decreases |s|
  {
    if s == [] then [[]]
    else
      var rest := Split(s[1..], sep);
      if s[0] == sep then [[]] + rest
      else [[s[0]] + rest[0]] + rest[1..]
  }

  /**
   * `str::lines`: the newline-separated segments, without the empty segment
   * that a final newline (or the empty text) leaves at the end.
   */
  function Lines(text: string): (lines: seq<string>)
    ensures forall i :: 0 <= i < |lines| ==> NEWLINE !in lines[i]
  {
    var parts := Split(text, NEWLINE);
    if parts[|parts| - 1] == [] then parts[..|parts| - 1] else parts
  }

  /** The whole history as one text. */
  function HistoryText(msgs: seq<Message>): (text: string)
    ensures text == [] <==> msgs == []
  {
    Join(FormatAll(msgs), NEWLINE)
  }

  /** `scroll_offset.min(total_lines)` */
  function DisplayStart(scroll: nat, total: nat): (start: nat)
    ensures start <= total && start <= scroll
    ensures start == scroll || start == total
    ensures start < scroll ==> start == total
  {
    if scroll < total then scroll else total
  }

  /**
   * `lines[display_start..display_end]`: always a valid slice; the lines from
   * the clamped offset to the end, and nothing once the offset reaches the
   * line count.
   */
  function Window(lines: seq<string>, scroll: nat): (w: seq<string>)
    ensures |w| == |lines| - DisplayStart(scroll, |lines|)
    ensures forall i :: 0 <= i < |w| ==> w[i] == lines[DisplayStart(scroll, |lines|) + i]
    ensures scroll >= |lines| <==> w == []
    ensures scroll == 0 ==> w == lines
  {
    lines[DisplayStart(scroll, |lines|)..]
  }

  /** The lines of the history pane for a given history and offset. */
  function VisibleLines(msgs: seq<Message>, scroll: nat): (lines: seq<string>)
    ensures |lines| <= |Lines(HistoryText(msgs))|
    ensures scroll >= |Lines(HistoryText(msgs))| ==> lines == []
    ensures forall i :: 0 <= i < |lines| ==> NEWLINE !in lines[i]
    ensures msgs == [] ==> lines == []
  {
    Window(Lines(HistoryText(msgs)), scroll)
  }

  /** The text handed to the history paragraph. */
  function DisplayedText(msgs: seq<Message>, scroll: nat): (text: string)
    ensures scroll >= |Lines(HistoryText(msgs))| ==> text == []
    ensures scroll == 0 ==>
      var all := HistoryText(msgs);
      if |all| > 0 && all[|all| - 1] == NEWLINE then text + [NEWLINE] == all else text == all
  {
    LinesRejoin(HistoryText(msgs));
    Join(VisibleLines(msgs, scroll), NEWLINE)
  }

  /** Appending one part to a non-empty list adds one separator and the part. */
  lemma {:induction false} JoinSnoc(parts: seq<string>, last: string, sep: char)
    requires |parts| >= 1
    ensures Join(parts + [last], sep) == Join(parts, sep) + [sep] + last
    decreases |parts|
  {
    if |parts| > 1 {
      assert (parts + [last])[1..] == parts[1..] + [last];
      JoinSnoc(parts[1..], last, sep);
    }
  }

  /** A text without the separator is one part. */
  lemma {:induction false} SplitSingle(p: string, sep: char)
    requires sep !in p
    ensures Split(p, sep) == [p]
    decreases |p|
  {
    if p != [] {
      SplitSingle(p[1..], sep);
      assert [p[0]] + p[1..] == p;
    }
  }

  /** A separator-free first part followed by a separator splits off as exactly that part. */
  lemma {:induction false} SplitCons(p: string, t: string, sep: char)
    requires sep !in p
    ensures Split(p + [sep] + t, sep) == [p] + Split(t, sep)
    decreases |p|
  {
    var s := p + [sep] + t;
    if p == [] {
      assert s[0] == sep && s[1..] == t;
    } else {
      assert s[0] == p[0] && s[1..] == p[1..] + [sep] + t;
      SplitCons(p[1..], t, sep);
      assert [p[0]] + p[1..] == p;
    }
  }

  /** Splitting undoes joining, when no part holds the separator. */
  lemma {:induction false} SplitJoin(parts: seq<string>, sep: char)
    requires |parts| >= 1
    requires forall i :: 0 <= i < |parts| ==> sep !in parts[i]
    ensures Split(Join(parts, sep), sep) == parts
    decreases |parts|
  {
    if |parts| == 1 {
      SplitSingle(parts[0], sep);
    } else {
      SplitJoin(parts[1..], sep);
      SplitCons(parts[0], Join(parts[1..], sep), sep);
      assert [parts[0]] + parts[1..] == parts;
    }
  }

  /** Joining undoes splitting. */
  lemma {:induction false} JoinSplit(s: string, sep: char)
    ensures Join(Split(s, sep), sep) == s
    decreases |s|
  {
    if s != [] {
      var rest := Split(s[1..], sep);
      JoinSplit(s[1..], sep);
      if s[0] == sep {
        assert ([[]] + rest)[1..] == rest;
        assert s == [sep] + s[1..];
      } else {
        var parts := [[s[0]] + rest[0]] + rest[1..];
        if |rest| > 1 {
          assert parts[1..] == rest[1..];
        }
        assert s == [s[0]] + s[1..];
      }
    }
  }

  /** A split ends with an empty part exactly when the text is empty or ends with the separator. */
  lemma {:induction false} SplitLastEmpty(s: string, sep: char)
    ensures var parts := Split(s, sep); parts[|parts| - 1] == [] <==> s == [] || s[|s| - 1] == sep
    decreases |s|
  {
    if s != [] {
      var tail := s[1..];
      var rest := Split(tail, sep);
      var parts := Split(s, sep);
      SplitLastEmpty(tail, sep);
      if tail != [] {
        assert s[|s| - 1] == tail[|tail| - 1];
      }
      if s[0] == sep {
        assert parts == [[]] + rest;
        assert parts[|parts| - 1] == rest[|rest| - 1];
      } else if |rest| == 1 {
        assert parts == [[s[0]] + rest[0]];
        if tail != [] {
          JoinSplit(tail, sep);
          assert tail == rest[0];
        }
      } else {
        assert parts == [[s[0]] + rest[0]] + rest[1..];
        assert parts[|parts| - 1] == rest[|rest| - 1];
      }
    }
  }

  /**
   * The displayed lines, joined again, give back the text, except that a
   * final newline is dropped, exactly when the text ends with one.
   */
  lemma LinesRejoin(text: string)
    ensures if |text| > 0 && text[|text| - 1] == NEWLINE
      then Join(Lines(text), NEWLINE) + [NEWLINE] == text
      else Join(Lines(text), NEWLINE) == text
  {
    var parts := Split(text, NEWLINE);
    var n := |parts|;
    JoinSplit(text, NEWLINE);
    SplitLastEmpty(text, NEWLINE);
    if parts[n - 1] != [] {
      assert Lines(text) == parts;
    } else if n == 1 {
      assert Lines(text) == [];
      assert text == Join(parts, NEWLINE) == [];
    } else {
      var init := parts[..n - 1];
      assert Lines(text) == init;
      assert parts == init + [[]];
      JoinSnoc(init, [], NEWLINE);
      assert Join(init, NEWLINE) + [NEWLINE] == text;
    }
  }

  /** A history without newlines inside roles or contents shows one line per message. */
  lemma LinesOfHistory(msgs: seq<Message>)
    requires forall i :: 0 <= i < |msgs| ==> NEWLINE !in msgs[i].role && NEWLINE !in msgs[i].content
    ensures Lines(HistoryText(msgs)) == FormatAll(msgs)
  {
    var parts := FormatAll(msgs);
    if msgs != [] {
      forall i | 0 <= i < |parts|
        ensures NEWLINE !in parts[i]
      {
        assert parts[i] == FormatMessage(msgs[i]);
      }
      SplitJoin(parts, NEWLINE);
      assert |parts[|parts| - 1]| >= 2;
      assert Split(HistoryText(msgs), NEWLINE) == parts;
    }
  }

  /** For such a history the window starts at message number min(scroll, |msgs|). */
  lemma VisibleMessages(msgs: seq<Message>, scroll: nat)
    requires forall i :: 0 <= i < |msgs| ==> NEWLINE !in msgs[i].role && NEWLINE !in msgs[i].content
    ensures VisibleLines(msgs, scroll) == FormatAll(msgs)[DisplayStart(scroll, |msgs|)..]
  {
    LinesOfHistory(msgs);
  }
}
