/**
 The bounded buffer of an exec session's output, against the whole unread log that it
 stands for.
 */
module HeadTailBuffer {
  import opened Basics

  function Min(a: nat, b: nat): nat {
    if a < b then a else b
  }

  /** The first `limit / 2` and the last `limit - limit / 2` characters of a longer text. */
  function FitText(text: string, limit: nat): (r: string)
    ensures |r| == Min(|text|, limit)
  {
    if |text| <= limit then text else text[..limit / 2] + text[|text| - (limit - limit / 2)..]
  }

  function Last(text: string, n: nat): string {
    if n <= |text| then text[|text| - n..] else text
  }

  /** The two regions that stand for a log. */
  function HeadOf(log: string, capacity: nat): string {
    if |log| <= capacity then log else log[..capacity / 2]
  }

  function TailOf(log: string, capacity: nat): string {
    if |log| <= capacity then "" else Last(log, capacity - capacity / 2)
  }

  lemma RegionsFit(log: string, capacity: nat)
    ensures HeadOf(log, capacity) + TailOf(log, capacity) == FitText(log, capacity)
  {
  }

  lemma RegionsAre(log: string, capacity: nat)
    ensures |log| <= capacity ==> HeadOf(log, capacity) == log && TailOf(log, capacity) == ""
    ensures |log| > capacity ==>
              && HeadOf(log, capacity) == log[..capacity / 2]
              && TailOf(log, capacity) == Last(log, capacity - capacity / 2)
  {
  }

  lemma EmptyRegions(capacity: nat)
    ensures HeadOf("", capacity) == TailOf("", capacity) == ""
  {
  }

  lemma FitsWhole(text: string, limit: nat)
    ensures FitText(text, limit) == text <==> |text| <= limit
  {
  }

  lemma CutResponse(text: string, limit: nat)
    ensures FitText(text, limit) == if |text| > limit then text[..limit / 2] + Last(text, limit - limit / 2) else text
  {
  }

  lemma TailGrows(log: string, text: string, capacity: nat)
    requires |log| > capacity
    ensures TailOf(log + text, capacity) == Last(TailOf(log, capacity) + text, capacity - capacity / 2)
    ensures HeadOf(log + text, capacity) == HeadOf(log, capacity)
  {
    var n := capacity - capacity / 2;
    var tail := TailOf(log, capacity);
    assert |tail| == n;
    assert log + text == log[..|log| - n] + (tail + text);
  }

  predicate OccursAt(part: string, text: string, i: nat) {
    i + |part| <= |text| && text[i..i + |part|] == part
  }

  predicate Occurs(part: string, text: string) {
    exists i | 0 <= i <= |text| - |part| :: OccursAt(part, text, i)
  }

  function Ends(text: string, head: nat, tail: nat): (r: string)
    requires head + tail <= |text|
    ensures |r| == head + tail
  {
    text[..head] + text[|text| - tail..]
  }

  /** The ends of a text that was cut are the ends of the text. */
  lemma EndsOfEnds(text: string, head: nat, tail: nat, start: nat, end: nat)
    requires head + tail <= |text| && start <= head && end <= tail
    ensures Ends(Ends(text, head, tail), start, end) == Ends(text, start, end)
  {
    var once := Ends(text, head, tail);
    assert once[..start] == text[..start];
    assert once[|once| - end..] == text[|text| - end..];
  }

  function Half(n: nat): (h: nat)
    ensures h <= n
  {
    n / 2
  }

  lemma HalvesShrink(wide: nat, narrow: nat)
    requires narrow <= wide
    ensures Half(narrow) <= Half(wide) && narrow - Half(narrow) <= wide - Half(wide)
  {
  }

  lemma FitIsEnds(text: string, limit: nat)
    requires |text| > limit
    ensures FitText(text, limit) == Ends(text, Half(limit), limit - Half(limit))
  {
  }

  /** Cutting what was already cut is cutting the original to the smaller size. */
  lemma FitTwice(text: string, wide: nat, narrow: nat)
    ensures FitText(FitText(text, wide), narrow) == FitText(text, Min(wide, narrow))
  {
    hide FitText, Ends, Half;
    var once := FitText(text, wide);
    FitsWhole(text, wide);
    FitsWhole(text, narrow);
    FitsWhole(once, narrow);
    if |text| > wide > narrow {
      FitIsEnds(text, wide);
      FitIsEnds(text, narrow);
      FitIsEnds(once, narrow);
      HalvesShrink(wide, narrow);
      EndsOfEnds(text, Half(wide), wide - Half(wide), Half(narrow), narrow - Half(narrow));
    }
  }

  lemma OccursInPart(part: string, text: string, lo: nat, hi: nat)
    requires lo <= hi <= |text| && Occurs(part, text[lo..hi])
    ensures Occurs(part, text)
  {
    var inner := text[lo..hi];
    var i :| 0 <= i <= |inner| - |part| && OccursAt(part, inner, i);
    var j := lo + i;
    assert text[j..j + |part|] == part by {
      forall k | 0 <= k < |part| ensures text[j..j + |part|][k] == part[k] {
        assert part[k] == inner[i..i + |part|][k] == inner[i + k] == text[j + k];
      }
    }
    assert OccursAt(part, text, j);
  }

  lemma RegionsOccur(part: string, log: string, capacity: nat)
    requires capacity > 0
    ensures Occurs(part, HeadOf(log, capacity)) ==> Occurs(part, log)
    ensures |log| > capacity && Occurs(part, TailOf(log, capacity)) ==> Occurs(part, log)
  {
    if |log| > capacity {
      var h, t := capacity / 2, |log| - (capacity - capacity / 2);
      assert log[0..h] == HeadOf(log, capacity) && log[t..|log|] == TailOf(log, capacity);
      if Occurs(part, log[0..h]) { OccursInPart(part, log, 0, h); }
      if Occurs(part, log[t..|log|]) { OccursInPart(part, log, t, |log|); }
    }
  }

  datatype BufferSnapshot = BufferSnapshot(
    text: string,
    droppedChars: nat,
    totalDroppedChars: nat,
    responseTruncatedChars: nat,
    truncated: bool)

  datatype ValueError = ValueError

  class HeadTailBuffer {
    const capacity: nat
    const headLimit: nat
    const tailLimit: nat
    var head: string
    var tail: string
    var unreadChars: nat
    var totalDroppedChars: nat

    ghost var log: string         // everything appended since the last consume
    ghost var appended: nat       // characters over the buffer's whole life
    ghost var delivered: nat
    ghost var responseTruncated: nat

    ghost predicate Valid()
      reads this
    {
      && capacity >= 1 && headLimit == capacity / 2 && tailLimit == capacity - headLimit
      && unreadChars == |log|
      && head == HeadOf(log, capacity)
      && tail == TailOf(log, capacity)
      && appended == delivered + responseTruncated + totalDroppedChars + Min(|log|, capacity)
    }

    constructor (capacity: nat)
      requires capacity >= 1
      ensures Valid() && this.capacity == capacity && log == "" && appended == delivered == 0
    {
      this.capacity := capacity;
      headLimit, tailLimit := capacity / 2, capacity - capacity / 2;
      head, tail, unreadChars, totalDroppedChars := "", "", 0, 0;
      log, appended, delivered, responseTruncated := "", 0, 0, 0;
    }

    method Append(text: string)
      requires Valid()
      modifies this
      ensures Valid() && log == old(log) + text && appended == old(appended) + |text|
      ensures delivered == old(delivered) && responseTruncated == old(responseTruncated)
    {
      hide HeadOf, TailOf, Last;
      RegionsAre(log, capacity);
      RegionsAre(log + text, capacity);
      if text == "" {
        assert log + text == log;
        return;
      }
      var previousDropped := if unreadChars > capacity then unreadChars - capacity else 0;
      if unreadChars <= capacity {
        var combined := head + text;
        if |combined| <= capacity {
          head := combined;
        } else {
          head := combined[..headLimit];
          tail := Last(combined, tailLimit);
        }
        assert combined == log + text;
      } else {
        TailGrows(log, text, capacity);
        tail := Last(tail + text, tailLimit);
      }
      unreadChars := unreadChars + |text|;
      var currentDropped := if unreadChars > capacity then unreadChars - capacity else 0;
      totalDroppedChars := totalDroppedChars + currentDropped - previousDropped;
      log, appended := log + text, appended + |text|;
    }

    /** Delivers the log cut to the smaller of the limit and the capacity, and empties it. */
    method Consume(maxChars: int) returns (r: Result<BufferSnapshot, ValueError>)
      requires Valid()
      modifies this
      ensures Valid() && appended == old(appended)
      ensures maxChars < 1 ==> r == Err(ValueError) && log == old(log) && delivered == old(delivered)
      ensures maxChars >= 1 ==>
                && r.Ok? && log == ""
                && r.value.text == FitText(old(log), Min(maxChars, capacity))
                && r.value.droppedChars == |old(log)| - Min(|old(log)|, capacity)
                && r.value.totalDroppedChars == totalDroppedChars
                && |r.value.text| + r.value.responseTruncatedChars + r.value.droppedChars == |old(log)|
                && (r.value.truncated <==> r.value.text != old(log))
                && delivered == old(delivered) + |r.value.text|
                && responseTruncated == old(responseTruncated) + r.value.responseTruncatedChars
    {
      hide HeadOf, TailOf, FitText;
      if maxChars < 1 {
        return Err(ValueError);
      }
      var dropped := if unreadChars > capacity then unreadChars - capacity else 0;
      var retained := Peek();
      FitTwice(log, capacity, maxChars);
      FitsWhole(log, Min(maxChars, capacity));
      var cut := if |retained| > maxChars then |retained| - maxChars else 0;
      CutResponse(retained, maxChars);
      if cut != 0 {
        retained := retained[..maxChars / 2] + Last(retained, maxChars - maxChars / 2);
      }
      r := Ok(BufferSnapshot(retained, dropped, totalDroppedChars, cut, dropped != 0 || cut != 0));
      head, tail, unreadChars := "", "", 0;
      log, delivered, responseTruncated := "", delivered + |retained|, responseTruncated + cut;
      EmptyRegions(capacity);
    }

    method Peek() returns (text: string)
      requires Valid()
      ensures text == FitText(log, capacity)
    {
      RegionsFit(log, capacity);
      if unreadChars <= capacity {
        return head;
      }
      text := head + tail;
    }

    /** Never finds text that is not in the log; misses some only after characters were dropped. */
    method Contains(expected: string) returns (found: bool)
      requires Valid()
      ensures found ==> Occurs(expected, log)
      ensures |log| <= capacity ==> (found <==> Occurs(expected, log))
      ensures |log| > capacity ==>
                (found <==> Occurs(expected, log[..headLimit]) || Occurs(expected, Last(log, tailLimit)))
    {
      if expected == "" {
        assert OccursAt(expected, log, 0) && OccursAt(expected, head, 0);
        return true;
      }
      found := Occurs(expected, head) || (unreadChars > capacity && Occurs(expected, tail));
      RegionsOccur(expected, log, capacity);
    }
  }

  // ---- Two streams in one response ------------------------------------------

  function AggregateOutput(stdout: string, stderr: string, limit: nat): (r: (string, string, nat, nat)) {
    if |stdout| + |stderr| <= limit then (stdout, stderr, 0, 0)
    else
      var firstShare := Min(|stdout|, (limit + 1) / 2);
      var stderrBudget := Min(|stderr|, limit - firstShare);
      var remaining := limit - firstShare - stderrBudget;
      var stdoutBudget := if remaining > 0 then Min(|stdout|, firstShare + remaining) else firstShare;
      var out := FitText(stdout, stdoutBudget);
      var err := FitText(stderr, stderrBudget);
      (out, err, |stdout| - |out|, |stderr| - |err|)
  }

  /**
   The response wastes none of its limit, gives neither stream less than half of it
   while that stream has more, and its counts say exactly what is missing.
   */
  lemma AggregateIsTight(stdout: string, stderr: string, limit: nat)
    ensures var (out, err, outCut, errCut) := AggregateOutput(stdout, stderr, limit);
            && |out| + |err| == Min(|stdout| + |stderr|, limit)
            && |out| >= Min(|stdout|, limit / 2) && |err| >= Min(|stderr|, limit / 2)
            && out == FitText(stdout, |out|) && err == FitText(stderr, |err|)
            && |out| + outCut == |stdout| && |err| + errCut == |stderr|
  {
  }

  /** What a pipe session reports is cut straight from the two logs. */
  lemma ReportCutsTheLogs(stdoutLog: string, stderrLog: string, capacity: nat, limit: nat)
    ensures var (out, err, _, _) := AggregateOutput(FitText(stdoutLog, capacity), FitText(stderrLog, capacity), limit);
            out == FitText(stdoutLog, |out|) && err == FitText(stderrLog, |err|)
  {
    var kept, keptErr := FitText(stdoutLog, capacity), FitText(stderrLog, capacity);
    AggregateIsTight(kept, keptErr, limit);
    var (out, err, _, _) := AggregateOutput(kept, keptErr, limit);
    FitTwice(stdoutLog, capacity, |out|);
    FitTwice(stderrLog, capacity, |err|);
  }
}
