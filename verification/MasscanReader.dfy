/** Reading the output file of masscan: in one go, and while it is still being written. */
module MasscanReader {
  import opened Common
  import opened Text

  datatype MasscanResult = MasscanResult(ip: string, port: int)

  datatype StreamBatch = StreamBatch(results: seq<MasscanResult>, done: bool)

  /**
   What one line says, if anything. Trimming a line and asking whether it is empty or starts with `#`
   is asking about its first field.
   */
  function LineOf(line: string): Option<MasscanResult> {
    var fields := Fields(line);
    if |fields| < 4 || fields[0][0] == '#' || fields[0] != "open" || fields[1] != "tcp" then None
    else
      var port := Atoi(fields[2]);
      if port.None? then None else Some(MasscanResult(fields[3], port.value))
  }

  /** A line as masscan writes it. */
  function Record(r: MasscanResult, stamp: string): string
    requires r.port >= 0
  {
    "open" + " " + ("tcp" + " " + (Decimal(r.port) + " " + (r.ip + " " + stamp)))
  }

  lemma RecordFields(r: MasscanResult, stamp: string)
    requires r.port >= 0 && IsWord(r.ip)
    ensures Fields(Record(r, stamp)) == ["open", "tcp", Decimal(r.port), r.ip] + Fields(stamp)
  {
    DecimalIsWord(r.port);
    FourFields("open", "tcp", Decimal(r.port), r.ip, stamp);
  }

  lemma DecimalIsWord(n: nat)
    ensures IsWord(Decimal(n))
  {
    var d := Decimal(n);
    assert forall i | 0 <= i < |d| :: IsDigit(d[i]);
  }

  /** A line as masscan writes it is read back, whatever follows the address. */
  lemma LineRoundTrip(r: MasscanResult, stamp: string)
    requires 0 <= r.port < 0x8000_0000_0000_0000 && IsWord(r.ip)
    ensures LineOf(Record(r, stamp)) == Some(r)
  {
    RecordFields(r, stamp);
    AtoiOfDecimal(r.port);
  }

  /** The readers below work with any way of reading a line; the code uses `LineOf` in both. */
  type LineReader = string -> Option<MasscanResult>

  function Ips(rs: seq<MasscanResult>): set<string> {
    set r | r in rs :: r.ip
  }

  /** The results of a file: per address the first line that mentions it. */
  function FirstSeen(lines: seq<string>, lineOf: LineReader): seq<MasscanResult> {
    if lines == [] then []
    else
      var pre := FirstSeen(lines[..|lines| - 1], lineOf);
      var r := lineOf(lines[|lines| - 1]);
      if r.None? || r.value.ip in Ips(pre) then pre else pre + [r.value]
  }

  method ParseMasscanOutput(lines: seq<string>, lineOf: LineReader) returns (results: seq<MasscanResult>)
    ensures results == FirstSeen(lines, lineOf)
  {
    var seen: set<string> := {};
    results := [];
    for i := 0 to |lines|
      invariant results == FirstSeen(lines[..i], lineOf) && seen == Ips(results)
    {
      assert lines[..i + 1][..i] == lines[..i];
      var r := lineOf(lines[i]);
      if r.None? || r.value.ip in seen {
        continue;
      }
      seen := seen + {r.value.ip};
      results := results + [r.value];
    }
    assert lines[..|lines|] == lines;
  }

  // ---- Streaming ----

  /** All results of a stream, in order. */
  function Results(out: seq<StreamBatch>): seq<MasscanResult> {
    if out == [] then [] else Results(out[..|out| - 1]) + out[|out| - 1].results
  }

  /** The number of results after which a batch is sent. */
  function Full(batchSize: int): nat {
    if batchSize < 1 then 1 else batchSize
  }

  /** What one poll finds: nothing while the file cannot be opened, or its lines so far. */
  type Poll = Option<seq<string>>

  function Lines(p: Poll): seq<string> {
    if p.Some? then p.value else []
  }

  /** The file only grows, and a poll sees whole lines. */
  ghost predicate Grows(polls: seq<Poll>, final: Poll) {
    && (forall i, j | 0 <= i < j < |polls| && polls[i].Some? && polls[j].Some? :: polls[i].value <= polls[j].value)
    && (forall i | 0 <= i < |polls| && polls[i].Some? :: final.Some? && polls[i].value <= final.value)
  }

  ghost predicate FullBatches(out: seq<StreamBatch>, batchSize: int) {
    forall i | 0 <= i < |out| :: !out[i].done && |out[i].results| == Full(batchSize)
  }

  lemma NextLine(file: seq<string>, k: nat, lineOf: LineReader)
    requires k < |file|
    ensures var pre := FirstSeen(file[..k], lineOf); var r := lineOf(file[k]);
      FirstSeen(file[..k + 1], lineOf) == if r.None? || r.value.ip in Ips(pre) then pre else pre + [r.value]
  {
    assert file[..k + 1][..k] == file[..k];
  }

  lemma ResultsAppend(out: seq<StreamBatch>, b: StreamBatch)
    ensures Results(out + [b]) == Results(out) + b.results
  {
    assert (out + [b])[..|out|] == out;
  }

  /** The reader has seen `rs`: all of it is sent in full batches except what waits in `batch`. */
  ghost predicate Reading(seen: set<string>, batch: seq<MasscanResult>, out: seq<StreamBatch>, rs: seq<MasscanResult>,
                          batchSize: int) {
    && seen == Ips(rs)
    && Results(out) + batch == rs
    && FullBatches(out, batchSize)
    && |batch| < Full(batchSize)
  }

  lemma ReadingGoesOn(seen: set<string>, batch: seq<MasscanResult>, out: seq<StreamBatch>, rs: seq<MasscanResult>,
                      batchSize: int, r: MasscanResult)
    requires Reading(seen, batch, out, rs, batchSize)
    ensures if |batch| + 1 >= batchSize
            then Reading(seen + {r.ip}, [], out + [StreamBatch(batch + [r], false)], rs + [r], batchSize)
            else Reading(seen + {r.ip}, batch + [r], out, rs + [r], batchSize)
  {
    assert Ips(rs + [r]) == Ips(rs) + {r.ip};
    assert Results(out) + (batch + [r]) == rs + [r];
    ResultsAppend(out, StreamBatch(batch + [r], false));
  }

  /** The rest of the file as one poll reads it. */
  method ReadPoll(file: seq<string>, offset: nat, batchSize: int,
                  seen0: set<string>, batch0: seq<MasscanResult>, out0: seq<StreamBatch>,
                  lineOf: LineReader)
    returns (seen: set<string>, batch: seq<MasscanResult>, out: seq<StreamBatch>)
    requires offset <= |file| && Reading(seen0, batch0, out0, FirstSeen(file[..offset], lineOf), batchSize)
    ensures Reading(seen, batch, out, FirstSeen(file, lineOf), batchSize)
  {
    seen, batch, out := seen0, batch0, out0;
    ghost var rs := FirstSeen(file[..offset], lineOf);
    for k := offset to |file|
      invariant rs == FirstSeen(file[..k], lineOf) && Reading(seen, batch, out, rs, batchSize)
    {
      NextLine(file, k, lineOf);
      var r := lineOf(file[k]);
      if r.None? || r.value.ip in seen {
        continue;
      }
      ReadingGoesOn(seen, batch, out, rs, batchSize, r.value);
      rs := rs + [r.value];
      seen := seen + {r.value.ip};
      batch := batch + [r.value];
      if |batch| >= batchSize {
        out := out + [StreamBatch(batch, false)];
        batch := [];
      }
    }
    assert file[..|file|] == file;
  }

  /** The last read, after the loop: everything left goes into one batch. */
  method ReadRemaining(file: seq<string>, offset: nat, seen0: set<string>, ghost before: seq<MasscanResult>,
                       lineOf: LineReader)
    returns (remaining: seq<MasscanResult>)
    requires offset <= |file| && before == FirstSeen(file[..offset], lineOf) && seen0 == Ips(before)
    ensures before + remaining == FirstSeen(file, lineOf)
  {
    var seen := seen0;
    remaining := [];
    for k := offset to |file|
      invariant seen == Ips(FirstSeen(file[..k], lineOf)) && before + remaining == FirstSeen(file[..k], lineOf)
    {
      assert file[..k + 1][..k] == file[..k];
      var r := lineOf(file[k]);
      if r.None? || r.value.ip in seen {
        continue;
      }
      seen := seen + {r.value.ip};
      remaining := remaining + [r.value];
    }
    assert file[..|file|] == file;
  }

  /** The loop of the reader, up to the pass that notices that masscan has exited. */
  method PollLoop(polls: seq<Poll>, ghost final: Poll, batchSize: int, lineOf: LineReader)
    returns (seen: set<string>, batch: seq<MasscanResult>, out: seq<StreamBatch>, offset: nat, ghost read: seq<string>)
    requires Grows(polls, final)
    ensures offset == |read| && read <= Lines(final)
    ensures Reading(seen, batch, out, FirstSeen(read, lineOf), batchSize)
  {
    seen, batch, out, offset, read := {}, [], [], 0, [];
    for i := 0 to |polls|
      invariant offset == |read| && read <= Lines(final)
      invariant forall j | i <= j < |polls| && polls[j].Some? :: read <= polls[j].value
      invariant Reading(seen, batch, out, FirstSeen(read, lineOf), batchSize)
    {
      if polls[i].None? {
        continue;
      }
      var file := polls[i].value;
      assert file[..offset] == read;
      seen, batch, out := ReadPoll(file, offset, batchSize, seen, batch, out, lineOf);
      offset, read := |file|, file;
    }
  }

  /**
   The reader goroutine. `polls` is what the passes of its loop find, up to the pass that notices that
   masscan has exited; `final` is what the read after the loop finds. The first `n` batches are the
   ones sent from inside the loop.
   */
  method Stream(polls: seq<Poll>, final: Poll, batchSize: int, lineOf: LineReader)
    returns (out: seq<StreamBatch>, ghost n: nat)
    requires Grows(polls, final)
    ensures Results(out) == FirstSeen(Lines(final), lineOf)
    ensures out != [] && out[|out| - 1] == StreamBatch([], true)
    ensures forall i | 0 <= i < |out| - 1 :: !out[i].done && out[i].results != []
    ensures n < |out| <= n + 3 && FullBatches(out[..n], batchSize)
  {
    ghost var read;
    var seen, batch, offset;
    seen, batch, out, offset, read := PollLoop(polls, final, batchSize, lineOf);
    n := |out|;
    ghost var full := out;
    if |batch| > 0 {
      out := out + [StreamBatch(batch, false)];
    }
    TailResults(full, batch, out);
    ghost var flushed := out;
    var remaining := [];
    if final.Some? {
      assert final.value[..offset] == read;
      remaining := ReadRemaining(final.value, offset, seen, FirstSeen(read, lineOf), lineOf);
      if |remaining| > 0 {
        out := out + [StreamBatch(remaining, false)];
      }
    }
    TailResults(flushed, remaining, out);
    StreamShape(full, batch, flushed, remaining, out, batchSize);
    out := out + [StreamBatch([], true)];
  }

  /** One more batch, if there is anything to put into it. */
  ghost predicate Flushed(out: seq<StreamBatch>, batch: seq<MasscanResult>, next: seq<StreamBatch>) {
    next == if |batch| > 0 then out + [StreamBatch(batch, false)] else out
  }

  lemma StreamShape(full: seq<StreamBatch>, batch: seq<MasscanResult>, flushed: seq<StreamBatch>,
                    remaining: seq<MasscanResult>, last: seq<StreamBatch>, batchSize: int)
    requires FullBatches(full, batchSize) && Flushed(full, batch, flushed) && Flushed(flushed, remaining, last)
    ensures var out := last + [StreamBatch([], true)]; var n := |full|;
      && n < |out| <= n + 3 && out[..n] == full
      && Results(out) == Results(last)
      && forall i | 0 <= i < |out| - 1 :: !out[i].done && out[i].results != []
  {
    ResultsAppend(last, StreamBatch([], true));
  }

  lemma TailResults(out: seq<StreamBatch>, batch: seq<MasscanResult>, next: seq<StreamBatch>)
    requires Flushed(out, batch, next)
    ensures Results(next) == Results(out) + batch
  {
    if |batch| > 0 {
      ResultsAppend(out, StreamBatch(batch, false));
    }
  }

  // ---- What the results are ----

  /** Line `i` is the first to mention the address of `r`, and it gives `r`. */
  ghost predicate FirstMention(lines: seq<string>, i: nat, r: MasscanResult, lineOf: LineReader) {
    && i < |lines| && lineOf(lines[i]) == Some(r)
    && forall j | 0 <= j < i :: lineOf(lines[j]).None? || lineOf(lines[j]).value.ip != r.ip
  }

  /** An address is in the results exactly when some line mentions it. */
  lemma {:induction false} SeenIps(lines: seq<string>, ip: string, lineOf: LineReader)
    ensures ip in Ips(FirstSeen(lines, lineOf)) <==>
            exists i :: 0 <= i < |lines| && lineOf(lines[i]).Some? && lineOf(lines[i]).value.ip == ip
  {
    if lines != [] {
      var last := |lines| - 1;
      var pre := lines[..last];
      SeenIps(pre, ip, lineOf);
      if i :| 0 <= i < last && lineOf(lines[i]).Some? && lineOf(lines[i]).value.ip == ip {
        assert lineOf(pre[i]).Some? && lineOf(pre[i]).value.ip == ip;
      }
      if i :| 0 <= i < last && lineOf(pre[i]).Some? && lineOf(pre[i]).value.ip == ip {
        assert lines[i] == pre[i];
      }
      var r := lineOf(lines[last]);
      if r.Some? && r.value.ip !in Ips(FirstSeen(pre, lineOf)) {
        assert FirstSeen(lines, lineOf) == FirstSeen(pre, lineOf) + [r.value];
        assert Ips(FirstSeen(lines, lineOf)) == Ips(FirstSeen(pre, lineOf)) + {r.value.ip};
      }
    }
  }

  /** The results are exactly the first mentions, with the port of the first line. */
  lemma {:induction false} ResultsAreFirstMentions(lines: seq<string>, r: MasscanResult, lineOf: LineReader)
    ensures r in FirstSeen(lines, lineOf) <==> exists i: nat :: FirstMention(lines, i, r, lineOf)
  {
    if lines != [] {
      var last := |lines| - 1;
      var pre := lines[..last];
      ResultsAreFirstMentions(pre, r, lineOf);
      SeenIps(pre, r.ip, lineOf);
      if i: nat :| FirstMention(pre, i, r, lineOf) {
        assert FirstMention(lines, i, r, lineOf);
      }
      if i: nat :| FirstMention(lines, i, r, lineOf) {
        if i < last {
          assert FirstMention(pre, i, r, lineOf);
        } else {
          assert forall j | 0 <= j < last :: pre[j] == lines[j];
        }
      }
      if lineOf(lines[last]) == Some(r) && r.ip !in Ips(FirstSeen(pre, lineOf)) {
        assert forall j | 0 <= j < last :: pre[j] == lines[j];
        assert FirstMention(lines, last, r, lineOf);
      }
    }
  }

  /** A result of the earlier lines was first mentioned there. */
  lemma MentionedBefore(lines: seq<string>, a: nat, r: MasscanResult, lineOf: LineReader)
    requires lines != [] && r in FirstSeen(lines[..|lines| - 1], lineOf) && FirstMention(lines, a, r, lineOf)
    ensures FirstMention(lines[..|lines| - 1], a, r, lineOf)
  {
    var pre := lines[..|lines| - 1];
    ResultsAreFirstMentions(pre, r, lineOf);
    var b: nat :| FirstMention(pre, b, r, lineOf);
    assert lineOf(lines[b]) == Some(r);
    assert a <= b;
    assert forall k | 0 <= k < |pre| :: pre[k] == lines[k];
  }

  /** Each address comes once, and the results come in the order of their first lines. */
  lemma {:induction false} ResultsInOrder(lines: seq<string>, i: nat, j: nat, a: nat, b: nat, lineOf: LineReader)
    requires i < j < |FirstSeen(lines, lineOf)|
    ensures FirstSeen(lines, lineOf)[i].ip != FirstSeen(lines, lineOf)[j].ip
    ensures var rs := FirstSeen(lines, lineOf);
      (FirstMention(lines, a, rs[i], lineOf) && FirstMention(lines, b, rs[j], lineOf)) ==> a < b
    decreases |lines|
  {
    var last := |lines| - 1;
    var pre, found, rs := lines[..last], FirstSeen(lines[..last], lineOf), FirstSeen(lines, lineOf);
    assert i < |found| && rs[i] == found[i] && found[i] in found;
    if j < |found| {
      ResultsInOrder(pre, i, j, a, b, lineOf);
      assert found[j] in found;
      if FirstMention(lines, a, rs[i], lineOf) && FirstMention(lines, b, rs[j], lineOf) {
        MentionedBefore(lines, a, rs[i], lineOf);
        MentionedBefore(lines, b, rs[j], lineOf);
      }
    } else {
      assert lineOf(lines[last]) == Some(rs[j]) && rs[j].ip !in Ips(found);
      if FirstMention(lines, a, rs[i], lineOf) && FirstMention(lines, b, rs[j], lineOf) {
        MentionedBefore(lines, a, rs[i], lineOf);
        SeenIps(pre, rs[j].ip, lineOf);
      }
    }
  }

  /** Reading on only appends: results come in the order of the file. */
  lemma {:induction false} ReadingOnAppends(lines: seq<string>, more: seq<string>, lineOf: LineReader)
    ensures FirstSeen(lines, lineOf) <= FirstSeen(lines + more, lineOf)
    decreases |more|
  {
    if more == [] {
      assert lines + more == lines;
    } else {
      var m := more[..|more| - 1];
      ReadingOnAppends(lines, m, lineOf);
      assert (lines + more)[..|lines + more| - 1] == lines + m;
    }
  }
}
