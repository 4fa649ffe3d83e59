/**
 * The reader of the worker's standard output: every line read is trimmed,
 * blank lines are dropped, a line that parses as JSON is forwarded as that
 * value and any other line as a log event; a failed read is reported once
 * and ends the loop; an exit event always comes last.
 *
 * The JSON parser (serde_json::from_str) and Rust's notion of whitespace
 * are parameters: parse and isSpace.
 */
module EventRelay {
  import opened Wrappers
  import opened Wire

  /** One item of reader.lines(): a line without its terminator, or a read failure. */
  datatype ReadResult = Read(text: string) | ReadFailed(message: string)

  /** The number of leading whitespace characters of s. */
  function TrimStartIndex(s: string, isSpace: char -> bool): (i: nat)
    ensures i <= |s|
    ensures forall k :: 0 <= k < i ==> isSpace(s[k])
    ensures i < |s| ==> !isSpace(s[i])
    decreases |s|
  {
    if s == [] || !isSpace(s[0]) then 0 else 1 + TrimStartIndex(s[1..], isSpace)
  }

  /** The length of s without its trailing whitespace. */
  function TrimEndIndex(s: string, isSpace: char -> bool): (j: nat)
    ensures j <= |s|
    ensures forall k :: j <= k < |s| ==> isSpace(s[k])
    ensures 0 < j ==> !isSpace(s[j - 1])
    decreases |s|
  {
    if s == [] || !isSpace(s[|s| - 1]) then |s| else TrimEndIndex(s[..|s| - 1], isSpace)
  }

  /** str::trim: s without leading and trailing whitespace. */
  function Trim(s: string, isSpace: char -> bool): (t: string)
  {
    var rest := s[TrimStartIndex(s, isSpace)..];
    rest[..TrimEndIndex(rest, isSpace)]
  }

  ghost predicate Blank(s: string, isSpace: char -> bool)
  {
    forall k :: 0 <= k < |s| ==> isSpace(s[k])
  }

  /**
   * What trimming keeps: a piece of s that neither starts nor ends with
   * whitespace, empty exactly when s is all whitespace, and s itself when s
   * has no whitespace at either end.
   */
  lemma TrimSpec(s: string, isSpace: char -> bool)
    ensures var t := Trim(s, isSpace);
      && (t == [] <==> Blank(s, isSpace))
      && (t != [] ==> !isSpace(t[0]) && !isSpace(t[|t| - 1]))
      && (s != [] && !isSpace(s[0]) && !isSpace(s[|s| - 1]) ==> t == s)
  {
    var i := TrimStartIndex(s, isSpace);
    var rest := s[i..];
    var j := TrimEndIndex(rest, isSpace);
    var t := Trim(s, isSpace);
    assert t == rest[..j];
    if t == [] {
      assert i == |s|;
    }
    if Blank(s, isSpace) {
      assert i == |s|;
    }
    if s != [] && !isSpace(s[0]) && !isSpace(s[|s| - 1]) {
      assert i == 0 && rest == s;
      assert j == |s|;
    }
  }

  /** Trimming twice is trimming once. */
  lemma TrimIdempotent(s: string, isSpace: char -> bool)
    ensures Trim(Trim(s, isSpace), isSpace) == Trim(s, isSpace)
  {
    TrimSpec(s, isSpace);
    var t := Trim(s, isSpace);
    if t != [] {
      TrimSpec(t, isSpace);
    }
  }

  /**
   * The events one successfully read line produces: none for a blank line,
   * otherwise one event built from the trimmed text: the parsed value when
   * it parses, a log event carrying the trimmed text when it does not.
   */
  function LineEvents(text: string, parse: string -> Option<Json>, isSpace: char -> bool): (es: seq<Json>)
    ensures |es| <= 1
    ensures es == [] <==> Blank(text, isSpace)
    ensures es != [] && parse(Trim(text, isSpace)).Some? ==> es == [parse(Trim(text, isSpace)).value]
    ensures es != [] && parse(Trim(text, isSpace)).None? ==> es == [LogEvent(Trim(text, isSpace))]
  {
    TrimSpec(text, isSpace);
    var trimmed := Trim(text, isSpace);
    if trimmed == [] then []
    else
      match parse(trimmed)
      case Some(json) => [json]
      case None => [LogEvent(trimmed)]
  }

  /** The events of a run of successfully read lines, in reading order. */
  function Forwarded(texts: seq<string>, parse: string -> Option<Json>, isSpace: char -> bool): seq<Json>
    decreases |texts|
  {
    if texts == [] then [] else LineEvents(texts[0], parse, isSpace) + Forwarded(texts[1..], parse, isSpace)
  }

  /** The index of the first failed read, or the number of results when none fails. */
  function FirstFailure(results: seq<ReadResult>): (k: nat)
    ensures k <= |results|
    ensures forall i :: 0 <= i < k ==> results[i].Read?
    ensures k < |results| ==> results[k].ReadFailed?
    decreases |results|
  {
    if results == [] || results[0].ReadFailed? then 0 else 1 + FirstFailure(results[1..])
  }

  /** The texts of the lines read before the first failure. */
  function TextsBeforeFailure(results: seq<ReadResult>): (texts: seq<string>)
    ensures |texts| == FirstFailure(results)
    ensures forall i :: 0 <= i < |texts| ==> texts[i] == results[i].text
  {
    var k := FirstFailure(results);
    seq(k, i requires 0 <= i < k => results[i].text)
  }

  /** How many read results the loop takes from the reader: it stops after the first failure. */
  function Consumed(results: seq<ReadResult>): nat
  {
    var k := FirstFailure(results);
    if k < |results| then k + 1 else |results|
  }

  /**
   * The whole event stream of one relay run: the events of the lines read
   * before the first failure, then one read-error event if a read failed,
   * then the exit event.
   */
  function RelayEvents(results: seq<ReadResult>, parse: string -> Option<Json>, isSpace: char -> bool): seq<Json>
  {
    var k := FirstFailure(results);
    Forwarded(TextsBeforeFailure(results), parse, isSpace)
    + (if k < |results| then [ReadErrorEvent(results[k].message)] else [])
    + [ExitEvent()]
  }

  /** The events of a run of lines, extended by one more line. */
  lemma {:induction false} ForwardedSnoc(texts: seq<string>, text: string,
                                         parse: string -> Option<Json>, isSpace: char -> bool)
    ensures Forwarded(texts + [text], parse, isSpace)
         == Forwarded(texts, parse, isSpace) + LineEvents(text, parse, isSpace)
    decreases |texts|
  {
    if texts == [] {
      assert [] + [text] == [text];
    } else {
      assert (texts + [text])[1..] == texts[1..] + [text];
      ForwardedSnoc(texts[1..], text, parse, isSpace);
    }
  }

  /** Lines are handled one at a time: the events of two runs are the concatenation of each's. */
  lemma {:induction false} ForwardedAppend(a: seq<string>, b: seq<string>,
                                           parse: string -> Option<Json>, isSpace: char -> bool)
    ensures Forwarded(a + b, parse, isSpace) == Forwarded(a, parse, isSpace) + Forwarded(b, parse, isSpace)
    decreases |a|
  {
    if a == [] {
      assert a + b == b;
    } else {
      assert (a + b)[1..] == a[1..] + b;
      ForwardedAppend(a[1..], b, parse, isSpace);
    }
  }

  /** The number of lines in texts that are not all whitespace. */
  function NonBlankCount(texts: seq<string>, isSpace: char -> bool): nat
    decreases |texts|
  {
    if texts == [] then 0
    else (if Trim(texts[0], isSpace) == [] then 0 else 1) + NonBlankCount(texts[1..], isSpace)
  }

  /** Each non-blank line yields exactly one event and each blank line none. */
  lemma {:induction false} ForwardedLength(texts: seq<string>, parse: string -> Option<Json>, isSpace: char -> bool)
    ensures |Forwarded(texts, parse, isSpace)| == NonBlankCount(texts, isSpace)
    decreases |texts|
  {
    if texts != [] {
      TrimSpec(texts[0], isSpace);
      ForwardedLength(texts[1..], parse, isSpace);
    }
  }

  /**
   * The number of events of a relay run: one per non-blank line read before
   * the first failure, one for the failure if there is one, and one for the
   * exit.
   */
  lemma RelayEventCount(results: seq<ReadResult>, parse: string -> Option<Json>, isSpace: char -> bool)
    ensures |RelayEvents(results, parse, isSpace)|
         == NonBlankCount(TextsBeforeFailure(results), isSpace)
            + (if FirstFailure(results) < |results| then 1 else 0) + 1
  {
    ForwardedLength(TextsBeforeFailure(results), parse, isSpace);
  }

  /** Whatever is read, the exit event comes last, and a failed read is reported just before it. */
  lemma RelayEndsWithExit(results: seq<ReadResult>, parse: string -> Option<Json>, isSpace: char -> bool)
    ensures var es := RelayEvents(results, parse, isSpace);
      && |es| >= 1 && es[|es| - 1] == ExitEvent()
      && (FirstFailure(results) < |results| ==>
            |es| >= 2 && es[|es| - 2] == ReadErrorEvent(results[FirstFailure(results)].message))
  {
  }

  /**
   * Nothing read after the first failure matters: the events depend only on
   * the read results the loop consumes.
   */
  lemma RelayStopsAtFailure(results: seq<ReadResult>, parse: string -> Option<Json>, isSpace: char -> bool)
    ensures Consumed(results) <= |results|
    ensures RelayEvents(results, parse, isSpace) == RelayEvents(results[..Consumed(results)], parse, isSpace)
  {
    var n := Consumed(results);
    var cut := results[..n];
    var k := FirstFailure(results);
    FirstFailureOfPrefix(results, n);
    assert TextsBeforeFailure(cut) == TextsBeforeFailure(results);
  }

  /** Cutting the results anywhere after the first failure keeps the first failure where it is. */
  lemma {:induction false} FirstFailureOfPrefix(results: seq<ReadResult>, n: nat)
    requires FirstFailure(results) < n <= |results| || n == |results|
    ensures FirstFailure(results[..n]) == FirstFailure(results)
    decreases |results|
  {
    if results != [] && results[0].Read? && n > 0 {
      assert results[..n][1..] == results[1..][..n - 1];
      FirstFailureOfPrefix(results[1..], n - 1);
    } else if n == 0 {
      assert results == [];
    }
  }

  /**
   * When no line the worker prints before the first failed read is itself
   * the exit event, the exit event appears exactly once, at the end of the
   * stream.
   */
  lemma ExitEventOnlyLast(results: seq<ReadResult>, parse: string -> Option<Json>, isSpace: char -> bool)
    requires forall i :: 0 <= i < FirstFailure(results) ==>
               parse(Trim(results[i].text, isSpace)) != Some(ExitEvent())
    ensures var es := RelayEvents(results, parse, isSpace);
      forall i :: 0 <= i < |es| ==> (es[i] == ExitEvent() <==> i == |es| - 1)
  {
    var texts := TextsBeforeFailure(results);
    NoExitForwarded(texts, parse, isSpace);
    var k := FirstFailure(results);
    if k < |results| {
      ExitEventIsDistinct("", results[k].message);
    }
  }

  /** Lines none of which parses as the exit event forward no exit event. */
  lemma {:induction false} NoExitForwarded(texts: seq<string>, parse: string -> Option<Json>, isSpace: char -> bool)
    requires forall i :: 0 <= i < |texts| ==> parse(Trim(texts[i], isSpace)) != Some(ExitEvent())
    ensures ExitEvent() !in Forwarded(texts, parse, isSpace)
    decreases |texts|
  {
    if texts != [] {
      ExitEventIsDistinct(Trim(texts[0], isSpace), "");
      assert parse(Trim(texts[0], isSpace)) != Some(ExitEvent());
      assert forall i :: 0 <= i < |texts[1..]| ==> texts[1..][i] == texts[i + 1];
      NoExitForwarded(texts[1..], parse, isSpace);
    }
  }

  /**
   * A line with no whitespace at either end that is not JSON, such as
   * "hello world", is forwarded as exactly {"type":"log","message":<line>}.
   */
  lemma NonJsonLineIsLogged(line: string, parse: string -> Option<Json>, isSpace: char -> bool)
    requires line != [] && !isSpace(line[0]) && !isSpace(line[|line| - 1])
    requires parse(line).None?
    ensures RelayEvents([Read(line)], parse, isSpace) == [LogEvent(line), ExitEvent()]
  {
    TrimSpec(line, isSpace);
    assert FirstFailure([Read(line)]) == 1;
    assert TextsBeforeFailure([Read(line)]) == [line];
    assert Forwarded([line], parse, isSpace) == LineEvents(line, parse, isSpace) + Forwarded([], parse, isSpace);
  }

  /**
   * The reader loop of the relay thread. Each element of results is one item
   * of reader.lines(); emit appends to the returned sequence. Returns the
   * events emitted and how many read results were consumed.
   */
  method RelayLines(results: seq<ReadResult>, parse: string -> Option<Json>, isSpace: char -> bool)
    returns (emitted: seq<Json>, consumed: nat)
    ensures emitted == RelayEvents(results, parse, isSpace)
    ensures consumed == Consumed(results)
  {
    emitted := [];
    consumed := 0;
    ghost var texts := TextsBeforeFailure(results);
    while consumed < |results|
      invariant consumed <= FirstFailure(results)
      invariant emitted == Forwarded(texts[..consumed], parse, isSpace)
    {
      match results[consumed]
      case Read(text) =>
        ghost var done := texts[..consumed];
        assert texts[..consumed + 1] == done + [text];
        ForwardedSnoc(done, text, parse, isSpace);
        consumed := consumed + 1;
        var trimmed := Trim(text, isSpace);
        if trimmed == [] {
          continue;
        }
        match parse(trimmed) {
          case Some(json) =>
            emitted := emitted + [json];
          case None =>
            emitted := emitted + [LogEvent(trimmed)];
        }
        assert emitted == Forwarded(done, parse, isSpace) + LineEvents(text, parse, isSpace);
      case ReadFailed(message) =>
        assert texts[..consumed] == texts;
        emitted := emitted + [ReadErrorEvent(message)];
        consumed := consumed + 1;
        break;
    }
    if consumed <= |texts| {
      assert texts[..consumed] == texts;
    }
    emitted := emitted + [ExitEvent()];
  }
}
