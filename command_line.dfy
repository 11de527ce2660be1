/**
 * src/utilities/command_line.rs, without colours and terminal I/O: trimming a
 * typed line, and the safety gate's reading of the user's answers.
 */
module CommandLine {
  import opened Outcomes

  /** Rust's `char::is_whitespace`: the Unicode White_Space property. */
  predicate IsWhitespace(c: char) {
    || ('\U{9}' <= c <= '\U{D}')
    || c == ' '
    || c == '\U{85}'
    || c == '\U{A0}'
    || c == '\U{1680}'
    || ('\U{2000}' <= c <= '\U{200A}')
    || c == '\U{2028}'
    || c == '\U{2029}'
    || c == '\U{202F}'
    || c == '\U{205F}'
    || c == '\U{3000}'
  }

  predicate AllWhitespace(s: string) {
    forall i :: 0 <= i < |s| ==> IsWhitespace(s[i])
  }

  /** `str::trim_start`: drop the leading whitespace. */
  function TrimStart(s: string): string {
    if |s| > 0 && IsWhitespace(s[0]) then TrimStart(s[1..]) else s
  }

  /** `str::trim_end`: drop the trailing whitespace. */
  function TrimEnd(s: string): string {
    if |s| > 0 && IsWhitespace(s[|s| - 1]) then TrimEnd(s[..|s| - 1]) else s
  }

  /** `str::trim`, as `get_user_response` returns the typed line. */
  function Trim(s: string): string {
    TrimEnd(TrimStart(s))
  }

  /** trim_start keeps a suffix of the line, cut after leading whitespace only, and starting with non-whitespace. */
  lemma {:induction false} TrimStartSpec(s: string)
    ensures |TrimStart(s)| <= |s| && TrimStart(s) == s[|s| - |TrimStart(s)|..]
    ensures AllWhitespace(s[..|s| - |TrimStart(s)|])
    ensures TrimStart(s) == [] || !IsWhitespace(TrimStart(s)[0])
    decreases |s|
  {
    if |s| > 0 && IsWhitespace(s[0]) {
      TrimStartSpec(s[1..]);
    }
  }

  /** trim_end keeps a prefix of the line, cut before trailing whitespace only, and ending with non-whitespace. */
  lemma {:induction false} TrimEndSpec(s: string)
    ensures |TrimEnd(s)| <= |s| && TrimEnd(s) == s[..|TrimEnd(s)|]
    ensures AllWhitespace(s[|TrimEnd(s)|..])
    ensures TrimEnd(s) == [] || !IsWhitespace(TrimEnd(s)[|TrimEnd(s)| - 1])
    decreases |s|
  {
    if |s| > 0 && IsWhitespace(s[|s| - 1]) {
      var t := s[..|s| - 1];
      TrimEndSpec(t);
      var k := |TrimEnd(t)|;
      assert TrimEnd(s) == TrimEnd(t);
      assert s[..k] == t[..k];
      assert s[k..] == t[k..] + [s[|s| - 1]];
    }
  }

  /** `r` is `s` with the whitespace before index i and after i + |r| removed. */
  predicate TrimmedAt(s: string, r: string, i: nat) {
    i + |r| <= |s| && s[i..i + |r|] == r && AllWhitespace(s[..i]) && AllWhitespace(s[i + |r|..])
  }

  /**
   * Trimming removes whitespace and nothing else: the result is a slice of the
   * line with only whitespace around it, and it neither begins nor ends with
   * whitespace.
   */
  lemma TrimSpec(s: string)
    ensures exists i: nat :: TrimmedAt(s, Trim(s), i)
    ensures Trim(s) == [] || (!IsWhitespace(Trim(s)[0]) && !IsWhitespace(Trim(s)[|Trim(s)| - 1]))
  {
    var a := TrimStart(s);
    var r := TrimEnd(a);
    TrimStartSpec(s);
    TrimEndSpec(a);
    var i := |s| - |a|;
    assert s[i..i + |r|] == r by {
      assert s[i..] == a;
    }
    assert s[i + |r|..] == a[|r|..];
    assert Trim(s) == r;
    assert TrimmedAt(s, r, i);
    if r != [] {
      assert r[0] == a[0];
    }
  }

  /**
   * Lower-casing as `str::to_lowercase` affects the answers we match: ASCII
   * letters, and KELVIN SIGN, whose lower case is the ASCII letter k. Every
   * other character either has no lower case or a lower case that is not
   * ASCII, so leaving it unchanged does not change which answers match.
   */
  function LowerChar(c: char): char {
    if 'A' <= c <= 'Z' then (c as int + 32) as char
    else if c == '\U{212A}' then 'k'
    else c
  }

  function ToLower(s: string): (r: string)
    ensures |r| == |s| && forall i :: 0 <= i < |s| ==> r[i] == LowerChar(s[i])
  {
    seq(|s|, i requires 0 <= i < |s| => LowerChar(s[i]))
  }

  /** The sanitised answer: trimmed, then lower-cased. */
  function Sanitize(line: string): string {
    ToLower(Trim(line))
  }

  const AcceptAnswers: set<string> := {"1", "ok", "y"}
  const DeclineAnswers: set<string> := {"2", "no", "n"}

  /**
   * The verdict on a sanitised answer: Some(true) to go on, Some(false) to
   * stop, None for an answer in neither set.
   */
  function Verdict(answer: string): (r: Option<bool>)
    ensures r == Some(true) <==> answer in AcceptAnswers
    ensures r == Some(false) <==> answer in DeclineAnswers
    ensures r == None <==> answer !in AcceptAnswers && answer !in DeclineAnswers
  {
    if answer == "1" || answer == "ok" || answer == "y" then Some(true)
    else if answer == "2" || answer == "no" || answer == "n" then Some(false)
    else None
  }

  /** One answer to the safety gate; None means the gate asks again. */
  function Classify(line: string): Option<bool> {
    Verdict(Sanitize(line))
  }

  /**
   * The gate over the typed lines from index `from` on: the classification of
   * the first recognised line and the index after it, or None and the end of
   * the lines when none is recognised.
   */
  function FirstDecision(lines: seq<string>, from: nat): (Option<bool>, nat) {
    FirstRecognised(Classify, lines, from)
  }

  /** The first line from index `from` on that `classify` recognises, and the index after it. */
  function FirstRecognised(classify: string -> Option<bool>, lines: seq<string>, from: nat): (Option<bool>, nat)
    decreases |lines| - from
  {
    if from >= |lines| then (None, from)
    else if classify(lines[from]).Some? then (classify(lines[from]), from + 1)
    else FirstRecognised(classify, lines, from + 1)
  }

  /**
   * `confirm_safe_code`: read lines until one is recognised. The terminal is
   * the sequence `lines`, read from index `from`; `next` is the index after
   * the last line read.
   */
  method ConfirmSafeCode(lines: seq<string>, from: nat) returns (answer: Option<bool>, next: nat)
    ensures (answer, next) == FirstDecision(lines, from)
  {
    next := from;
    while next < |lines|
      invariant from <= next
      invariant FirstRecognised(Classify, lines, next) == FirstDecision(lines, from)
      decreases |lines| - next
    {
      var verdict := Classify(lines[next]);
      next := next + 1;
      if verdict.Some? {
        answer := verdict;
        return;
      }
    }
    answer := None;
  }

  /**
   * What the gate's answer means: a decision is the classification of the
   * first recognised line, every line before it being unrecognised; no
   * decision means no line from `from` on is recognised.
   */
  lemma {:induction false} FirstDecisionIsFirstRecognised(lines: seq<string>, from: nat)
    requires from <= |lines|
    ensures var (answer, next) := FirstDecision(lines, from);
      from <= next <= |lines| &&
      (forall k :: from <= k < next - 1 ==> Classify(lines[k]).None?) &&
      (answer.Some? ==> from < next && answer == Classify(lines[next - 1])) &&
      (answer.None? ==> next == |lines| && forall k :: from <= k < |lines| ==> Classify(lines[k]).None?)
    decreases |lines| - from
  {
    FirstRecognisedSpec(Classify, lines, from);
  }

  lemma {:induction false} FirstRecognisedSpec(classify: string -> Option<bool>, lines: seq<string>, from: nat)
    requires from <= |lines|
    ensures var (answer, next) := FirstRecognised(classify, lines, from);
      from <= next <= |lines| &&
      (forall k :: from <= k < next - 1 ==> classify(lines[k]).None?) &&
      (answer.Some? ==> from < next && answer == classify(lines[next - 1])) &&
      (answer.None? ==> next == |lines| && forall k :: from <= k < |lines| ==> classify(lines[k]).None?)
    decreases |lines| - from
  {
    if from < |lines| && classify(lines[from]).None? {
      FirstRecognisedSpec(classify, lines, from + 1);
    }
  }

  /** Removing leading whitespace ignores any extra whitespace put in front. */
  lemma {:induction false} TrimStartSkipsWhitespace(ws: string, s: string)
    requires AllWhitespace(ws)
    ensures TrimStart(ws + s) == TrimStart(s)
    decreases |ws|
  {
    if ws != [] {
      assert (ws + s)[1..] == ws[1..] + s;
      TrimStartSkipsWhitespace(ws[1..], s);
    } else {
      assert ws + s == s;
    }
  }

  /** Removing trailing whitespace ignores any extra whitespace put behind. */
  lemma {:induction false} TrimEndSkipsWhitespace(s: string, ws: string)
    requires AllWhitespace(ws)
    ensures TrimEnd(s + ws) == TrimEnd(s)
    decreases |ws|
  {
    if ws != [] {
      assert (s + ws)[..|s + ws| - 1] == s + ws[..|ws| - 1];
      TrimEndSkipsWhitespace(s, ws[..|ws| - 1]);
    } else {
      assert s + ws == s;
    }
  }

  /** Trailing whitespace is kept by trim_start unless everything is whitespace. */
  lemma {:induction false} TrimStartThenWhitespace(s: string, ws: string)
    requires AllWhitespace(ws)
    ensures TrimStart(s + ws) == TrimStart(s) + ws || (TrimStart(s) == [] && AllWhitespace(TrimStart(s + ws)))
    decreases |s|
  {
    if s == [] {
      assert s + ws == ws;
      TrimStartSpec(ws);
    } else if IsWhitespace(s[0]) {
      assert (s + ws)[1..] == s[1..] + ws;
      TrimStartThenWhitespace(s[1..], ws);
    }
  }

  /** Trimming a line ignores any whitespace added around it. */
  lemma TrimIgnoresSurroundingWhitespace(a: string, s: string, b: string)
    requires AllWhitespace(a) && AllWhitespace(b)
    ensures Trim(a + s + b) == Trim(s)
  {
    assert a + s + b == a + (s + b);
    TrimStartSkipsWhitespace(a, s + b);
    TrimStartThenWhitespace(s, b);
    if TrimStart(s + b) == TrimStart(s) + b {
      TrimEndSkipsWhitespace(TrimStart(s), b);
    } else {
      var t := TrimStart(s + b);
      TrimEndSpec(t);
    }
  }

  /** The gate's verdict on a line ignores any whitespace around it. */
  lemma ClassifyIgnoresSurroundingWhitespace(a: string, s: string, b: string)
    requires AllWhitespace(a) && AllWhitespace(b)
    ensures Classify(a + s + b) == Classify(s)
  {
    TrimIgnoresSurroundingWhitespace(a, s, b);
  }

  /** Lower-casing never creates nor removes whitespace, so it commutes with trimming. */
  lemma {:induction false} TrimStartLower(s: string)
    ensures TrimStart(ToLower(s)) == ToLower(TrimStart(s))
    decreases |s|
  {
    if |s| > 0 && IsWhitespace(s[0]) {
      assert ToLower(s)[1..] == ToLower(s[1..]);
      TrimStartLower(s[1..]);
    }
  }

  lemma {:induction false} TrimEndLower(s: string)
    ensures TrimEnd(ToLower(s)) == ToLower(TrimEnd(s))
    decreases |s|
  {
    if |s| > 0 && IsWhitespace(s[|s| - 1]) {
      assert ToLower(s)[..|s| - 1] == ToLower(s[..|s| - 1]);
      TrimEndLower(s[..|s| - 1]);
    }
  }

  /** Two lines that differ only in the case of their letters get the same verdict. */
  lemma ClassifyIgnoresCase(s: string, t: string)
    requires ToLower(s) == ToLower(t)
    ensures Classify(s) == Classify(t)
  {
    TrimStartLower(s);
    TrimEndLower(TrimStart(s));
    TrimStartLower(t);
    TrimEndLower(TrimStart(t));
  }

  /** A padded, upper-case "y" accepts. */
  lemma ClassifyPaddedUpperCase()
    ensures Classify(" Y\n") == Some(true)
  {
    assert Trim(" Y\n") == "Y" by {
      TrimIgnoresSurroundingWhitespace(" ", "Y", "\n");
      assert " " + "Y" + "\n" == " Y\n";
    }
    assert ToLower("Y") == "y";
  }

  /** "OK" accepts and "No" declines. */
  lemma ClassifyMixedCase()
    ensures Classify("OK") == Some(true)
    ensures Classify("No") == Some(false)
  {
    assert ToLower("OK") == "ok";
    assert ToLower("No") == "no";
  }

  /** "yes" and the empty line are not answers: the gate asks again. */
  lemma ClassifyUnrecognised()
    ensures Classify("yes") == None
    ensures Classify("") == None
  {
    assert Sanitize("yes") == "yes";
  }

  // ---------------------------------------------------------------------
  // The gate as written, once input has ended

  /** What `read_line` leaves in the buffer at read number k: the typed line, or "" once input has ended. */
  function ReadAt(lines: seq<string>, k: nat): string {
    if k < |lines| then lines[k] else ""
  }

  /**
   * `confirm_safe_code` as written, for at most `rounds` prompts from read
   * number `from`: past the end of input it goes on reading "".
   */
  function GateRounds(lines: seq<string>, from: nat, rounds: nat): Option<bool>
    decreases rounds
  {
    if rounds == 0 then None
    else match Classify(ReadAt(lines, from))
      case Some(b) => Some(b)
      case None => GateRounds(lines, from + 1, rounds - 1)
  }

  /**
   * Closed input: when no typed line from `from` on is recognised, no number
   * of prompts gives a decision, so the loop as written never ends.
   */
  lemma {:induction false} ClosedInputNeverDecides(lines: seq<string>, from: nat, rounds: nat)
    requires forall k :: from <= k < |lines| ==> Classify(lines[k]).None?
    ensures GateRounds(lines, from, rounds) == None
    decreases rounds
  {
    if rounds > 0 {
      ClassifyUnrecognised();
      ClosedInputNeverDecides(lines, from + 1, rounds - 1);
    }
  }

  /**
   * While a recognised line is still to come, the gate as written and
   * `FirstDecision` agree: enough prompts give the same decision.
   */
  lemma {:induction false} GateRoundsAgrees(lines: seq<string>, from: nat, rounds: nat)
    requires FirstDecision(lines, from).0.Some?
    requires from + rounds >= FirstDecision(lines, from).1
    ensures GateRounds(lines, from, rounds) == FirstDecision(lines, from).0
    decreases rounds
  {
    if Classify(lines[from]).None? {
      assert FirstDecision(lines, from) == FirstDecision(lines, from + 1);
      FirstRecognisedSpec(Classify, lines, from + 1);
      GateRoundsAgrees(lines, from + 1, rounds - 1);
    }
  }
}
