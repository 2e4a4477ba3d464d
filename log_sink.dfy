/**
 * The installation log kept by the wizard (`installLogs`): a list of at most
 * 200 lines, oldest first, fed one line at a time by `installLogMsg` and
 * several at a time by `installBatchLogsMsg`; and the scan of a batch for the
 * success and failure markers.
 */
module LogSink {
  import opened Text

  /** The number of lines the wizard retains. */
  const MaxLogLines: nat := 200

  /** The last `n` elements of `s`, or all of `s` when it is shorter. */
  function Last(n: nat, s: seq<string>): (r: seq<string>)
    ensures |r| == if |s| <= n then |s| else n
    ensures r == s[|s| - |r|..]
  {
    if |s| <= n then s else s[|s| - n..]
  }

  /** `installLogMsg`: append one line; when that passes 200 lines, drop the first. */
  function AppendLine(logs: seq<string>, line: string): (r: seq<string>)
    ensures |logs| < MaxLogLines ==> r == logs + [line]
    ensures |logs| >= MaxLogLines ==> r == logs[1..] + [line]
  {
    var grown := logs + [line];
    if |grown| > MaxLogLines then grown[1..] else grown
  }

  /** `installBatchLogsMsg`: append every line of the batch, then keep only the last 200. */
  function AppendBatch(logs: seq<string>, batch: seq<string>): (r: seq<string>)
    ensures |r| <= MaxLogLines
    ensures |logs + batch| <= MaxLogLines ==> r == logs + batch
    ensures |logs + batch| > MaxLogLines ==> |r| == MaxLogLines
    ensures r == (logs + batch)[|logs + batch| - |r|..]
  {
    var grown := logs + batch;
    if |grown| > MaxLogLines then grown[|grown| - MaxLogLines..] else grown
  }

  /** A single append keeps a log of at most 200 lines within 200 lines, dropping exactly the oldest line on overflow. */
  lemma AppendLineBounded(logs: seq<string>, line: string)
    requires |logs| <= MaxLogLines
    ensures |AppendLine(logs, line)| <= MaxLogLines
    ensures AppendLine(logs, line) == Last(MaxLogLines, logs + [line])
  {
  }

  /** Appending lines one at a time, as a sequence of `installLogMsg` does. */
  function AppendLines(logs: seq<string>, lines: seq<string>): seq<string>
    decreases |lines|
  {
    if |lines| == 0 then logs else AppendLines(AppendLine(logs, lines[0]), lines[1..])
  }

  /** Keeping the last `n` of a text's last `n`, followed by more, is keeping the last `n` of the whole. */
  lemma LastOfLast(n: nat, a: seq<string>, b: seq<string>)
    ensures Last(n, Last(n, a) + b) == Last(n, a + b)
  {
    if |a| > n {
      var k := |a| - n;
      var t := a[k..] + b;
      assert t == (a + b)[k..];
      if |b| > 0 {
        assert Last(n, t) == t[|b|..];
        assert Last(n, a + b) == (a + b)[k + |b|..];
        assert (a + b)[k..][|b|..] == (a + b)[k + |b|..];
      }
    }
  }

  /**
   * One batch has the same effect on a log of at most 200 lines as the same
   * lines appended one at a time.
   */
  lemma {:induction false} BatchIsRepeatedAppend(logs: seq<string>, batch: seq<string>)
    requires |logs| <= MaxLogLines
    ensures AppendBatch(logs, batch) == AppendLines(logs, batch)
    decreases |batch|
  {
    if |batch| == 0 {
      assert logs + batch == logs;
    } else {
      var next := AppendLine(logs, batch[0]);
      AppendLineBounded(logs, batch[0]);
      BatchIsRepeatedAppend(next, batch[1..]);
      BatchAfterLine(logs, batch);
    }
  }

  /** Appending a batch's first line alone and then the rest of the batch is appending the whole batch. */
  lemma BatchAfterLine(logs: seq<string>, batch: seq<string>)
    requires |logs| <= MaxLogLines && |batch| > 0
    ensures AppendBatch(AppendLine(logs, batch[0]), batch[1..]) == AppendBatch(logs, batch)
  {
    var first, rest := batch[0], batch[1..];
    var next := AppendLine(logs, first);
    AppendLineBounded(logs, first);
    assert logs + [first] + rest == logs + batch;
    calc {
      AppendBatch(next, rest);
      { BatchIsLast(next, rest); }
      Last(MaxLogLines, Last(MaxLogLines, logs + [first]) + rest);
      { LastOfLast(MaxLogLines, logs + [first], rest); }
      Last(MaxLogLines, logs + batch);
      { BatchIsLast(logs, batch); }
      AppendBatch(logs, batch);
    }
  }

  /** A batch append keeps the last 200 lines of the old log followed by the batch. */
  lemma BatchIsLast(logs: seq<string>, batch: seq<string>)
    ensures AppendBatch(logs, batch) == Last(MaxLogLines, logs + batch)
  {
  }

  /** Lines appended one at a time to a log of at most 200 lines leave its last 200 lines of everything, in order. */
  lemma AppendLinesKeepsLast(logs: seq<string>, lines: seq<string>)
    requires |logs| <= MaxLogLines
    ensures AppendLines(logs, lines) == Last(MaxLogLines, logs + lines)
    ensures |AppendLines(logs, lines)| <= MaxLogLines
  {
    BatchIsRepeatedAppend(logs, lines);
  }

  /** The text whose presence in a batch line reports success. */
  const SuccessMarker := "🎉 Installation completed successfully!"

  /** The text whose presence in a batch line reports failure. */
  const ErrorMarker := "Error"

  /** The outcome a batch line can report. */
  datatype Signal = Completed | Failed

  /** What a single batch line reports: success is checked before failure. */
  function LineSignal(line: string): (r: Option<Signal>)
    ensures r == Some(Completed) <==> Contains(line, SuccessMarker)
    ensures r == Some(Failed) <==> !Contains(line, SuccessMarker) && Contains(line, ErrorMarker)
  {
    if Contains(line, SuccessMarker) then Some(Completed)
    else if Contains(line, ErrorMarker) then Some(Failed)
    else None
  }

  /** What a batch reports: the report of its first line that reports anything. */
  function FirstSignal(batch: seq<string>): (r: Option<Signal>)
    ensures r.None? <==> forall j :: 0 <= j < |batch| ==> LineSignal(batch[j]).None?
    ensures r.Some? ==> exists i :: 0 <= i < |batch| && LineSignal(batch[i]) == r
    decreases |batch|
  {
    if |batch| == 0 then None
    else if LineSignal(batch[0]).Some? then LineSignal(batch[0])
    else FirstSignal(batch[1..])
  }

  /**
   * A batch reports `r` exactly when some line reports `r` and no earlier
   * line reports anything; it reports nothing exactly when no line does.
   */
  lemma {:induction false} FirstSignalIsFirst(batch: seq<string>, r: Signal)
    ensures FirstSignal(batch) == Some(r) <==>
            exists i :: 0 <= i < |batch| && LineSignal(batch[i]) == Some(r) &&
                        forall j :: 0 <= j < i ==> LineSignal(batch[j]).None?
    ensures FirstSignal(batch).None? <==> forall j :: 0 <= j < |batch| ==> LineSignal(batch[j]).None?
    decreases |batch|
  {
    if |batch| > 0 {
      FirstSignalIsFirst(batch[1..], r);
      if LineSignal(batch[0]).None? {
        if FirstSignal(batch) == Some(r) {
          var i :| 0 <= i < |batch[1..]| && LineSignal(batch[1..][i]) == Some(r) &&
                   forall j :: 0 <= j < i ==> LineSignal(batch[1..][j]).None?;
          assert LineSignal(batch[i + 1]) == Some(r);
          assert forall j :: 0 <= j < i + 1 ==> LineSignal(batch[j]).None? by {
            forall j | 0 <= j < i + 1 ensures LineSignal(batch[j]).None? {
              if j > 0 { assert batch[j] == batch[1..][j - 1]; }
            }
          }
        }
        if exists i :: 0 <= i < |batch| && LineSignal(batch[i]) == Some(r) &&
                       forall j :: 0 <= j < i ==> LineSignal(batch[j]).None? {
          var i :| 0 <= i < |batch| && LineSignal(batch[i]) == Some(r) &&
                   forall j :: 0 <= j < i ==> LineSignal(batch[j]).None?;
          assert i > 0;
          assert LineSignal(batch[1..][i - 1]) == Some(r);
        }
        assert (forall j :: 0 <= j < |batch| ==> LineSignal(batch[j]).None?) ==>
               (forall j :: 0 <= j < |batch[1..]| ==> LineSignal(batch[1..][j]).None?);
      }
    }
  }

  /** The completion scan of an `installBatchLogsMsg` over the lines of the batch. */
  method ScanBatch(batch: seq<string>) returns (r: Option<Signal>)
    ensures r == FirstSignal(batch)
    ensures r.None? ==> forall j :: 0 <= j < |batch| ==> LineSignal(batch[j]).None?
    ensures r.Some? ==> exists i :: 0 <= i < |batch| && LineSignal(batch[i]) == r &&
                                    forall j :: 0 <= j < i ==> LineSignal(batch[j]).None?
  {
    var i := 0;
    while i < |batch|
      invariant 0 <= i <= |batch|
      invariant forall j :: 0 <= j < i ==> LineSignal(batch[j]).None?
      invariant FirstSignal(batch) == FirstSignal(batch[i..])
    {
      if Contains(batch[i], SuccessMarker) {
        return Some(Completed);
      }
      if Contains(batch[i], ErrorMarker) {
        return Some(Failed);
      }
      assert batch[i..][1..] == batch[i + 1..];
      i := i + 1;
    }
    return None;
  }
}
