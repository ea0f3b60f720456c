/** Line framing on the shell's IPC socket (mindwm/src/ipc.rs): a reader that takes bytes in
    whatever pieces they arrive, and a writer that pushes out what the socket takes.

    Bytes become text by a decoder the model leaves open (the source's lossy UTF-8). */
module Framing {
  import opened Text

  const MAX_LINE: nat := 64 * 1024
  const MAX_PENDING: nat := 4 * 1024 * 1024

  type byte = n: int | 0 <= n < 256
  type Bytes = seq<byte>
  const NEWLINE: byte := 10

  // ------------------------------------------------------------------ splitting

  /** The complete lines in `b`, without their newlines. */
  function RawLines(b: Bytes): seq<Bytes> {
    RawFrom([], b)
  }

  /** `cur` is the line begun so far. */
  function RawFrom(cur: Bytes, b: Bytes): seq<Bytes>
    decreases b
  {
    if b == [] then []
    else if b[0] == NEWLINE then [cur] + RawFrom([], b[1..])
    else RawFrom(cur + [b[0]], b[1..])
  }

  /** What follows the last newline. */
  function Rest(b: Bytes): Bytes {
    RestFrom([], b)
  }

  function RestFrom(cur: Bytes, b: Bytes): Bytes
    decreases b
  {
    if b == [] then cur
    else if b[0] == NEWLINE then RestFrom([], b[1..])
    else RestFrom(cur + [b[0]], b[1..])
  }

  /** Trimmed text of the lines, blank ones skipped. */
  function Texts(decode: Bytes -> string, raw: seq<Bytes>): seq<string> {
    if raw == [] then []
    else
      var t := Trim(decode(raw[0]));
      (if t == "" then [] else [t]) + Texts(decode, raw[1..])
  }

  lemma {:induction false} RawConcat(cur: Bytes, a: Bytes, b: Bytes)
    ensures RawFrom(cur, a + b) == RawFrom(cur, a) + RawFrom(RestFrom(cur, a), b)
    ensures RestFrom(cur, a + b) == RestFrom(RestFrom(cur, a), b)
    decreases a
  {
    if a == [] {
      assert a + b == b;
    } else {
      assert (a + b)[1..] == a[1..] + b;
      if a[0] == NEWLINE { RawConcat([], a[1..], b); } else { RawConcat(cur + [a[0]], a[1..], b); }
    }
  }

  lemma {:induction false} RawPrefixed(cur: Bytes, b: Bytes)
    requires NEWLINE !in cur
    ensures RawFrom([], cur + b) == RawFrom(cur, b) && RestFrom([], cur + b) == RestFrom(cur, b)
    decreases |cur|
  {
    RawOpen([], cur);
    RawConcat([], cur, b);
    assert [] + cur == cur;
  }

  lemma {:induction false} RawOpen(cur: Bytes, a: Bytes)
    requires NEWLINE !in a
    ensures RawFrom(cur, a) == [] && RestFrom(cur, a) == cur + a
    decreases a
  {
    if a != [] {
      RawOpen(cur + [a[0]], a[1..]);
      assert cur + [a[0]] + a[1..] == cur + a;
    }
  }

  lemma {:induction false} RestHasNoNewline(cur: Bytes, b: Bytes)
    requires NEWLINE !in cur
    ensures NEWLINE !in RestFrom(cur, b)
    decreases b
  {
    if b != [] { RestHasNoNewline(if b[0] == NEWLINE then [] else cur + [b[0]], b[1..]); }
  }

  lemma {:induction false} TextsConcat(decode: Bytes -> string, a: seq<Bytes>, b: seq<Bytes>)
    ensures Texts(decode, a + b) == Texts(decode, a) + Texts(decode, b)
  {
    if a == [] {
      assert a + b == b;
    } else {
      assert (a + b)[1..] == a[1..] + b;
      TextsConcat(decode, a[1..], b);
    }
  }

  // ------------------------------------------------------------------ the reader

  class LineBuffer {
    const decode: Bytes -> string
    var buf: Bytes

    constructor (d: Bytes -> string)
      ensures decode == d && buf == []
    {
      decode, buf := d, [];
    }

    /** Every complete line of what was left over and what came in; an error when what is
        left over is longer than a line may be. */
    method Push(bytes: Bytes) returns (ok: bool, lines: seq<string>)
      requires NEWLINE !in buf
      modifies this
      ensures NEWLINE !in buf && buf == Rest(old(buf) + bytes)
      ensures lines == Texts(decode, RawLines(old(buf) + bytes))
      ensures ok <==> |buf| <= MAX_LINE
    {
      buf := buf + bytes;
      ghost var all := buf;
      ghost var raw := [];
      lines := [];
      var pos: nat := FindNewline(buf);
      while pos < |buf|
        invariant pos <= |buf| && NEWLINE !in buf[..pos] && (pos < |buf| ==> buf[pos] == NEWLINE)
        invariant raw + RawLines(buf) == RawLines(all) && Rest(buf) == Rest(all)
        invariant lines == Texts(decode, raw)
        decreases |buf|
      {
        FirstLine(decode, raw, buf, pos);
        hide RawLines, Rest, Texts;
        var text := Trim(decode(buf[..pos]));
        raw := raw + [buf[..pos]];
        buf := buf[pos + 1..];
        if text != "" {
          lines := lines + [text];
        }
        pos := FindNewline(buf);
      }
      assert buf[..pos] == buf;
      NoLine(buf);
      assert raw + [] == raw;
      ok := |buf| <= MAX_LINE;
    }
  }

  /** Taking the first line off the front. */
  lemma FirstLine(decode: Bytes -> string, raw: seq<Bytes>, b: Bytes, pos: nat)
    requires pos < |b| && NEWLINE !in b[..pos] && b[pos] == NEWLINE
    ensures raw + RawLines(b) == raw + [b[..pos]] + RawLines(b[pos + 1..]) && Rest(b) == Rest(b[pos + 1..])
    ensures var t := Trim(decode(b[..pos]));
      Texts(decode, raw + [b[..pos]]) == if t == "" then Texts(decode, raw) else Texts(decode, raw) + [t]
  {
    var line := b[..pos];
    assert b == line + b[pos..] && b[pos..][1..] == b[pos + 1..];
    RawPrefixed(line, b[pos..]);
    assert RawLines(b) == [line] + RawLines(b[pos + 1..]);
    TextsConcat(decode, raw, [line]);
  }

  lemma NoLine(b: Bytes)
    requires NEWLINE !in b
    ensures RawLines(b) == [] && Rest(b) == b
  {
    RawOpen([], b);
    assert [] + b == b;
  }

  method FindNewline(b: Bytes) returns (pos: nat)
    ensures pos <= |b| && NEWLINE !in b[..pos] && (pos < |b| ==> b[pos] == NEWLINE)
  {
    pos := 0;
    while pos < |b| && b[pos] != NEWLINE
      invariant pos <= |b| && NEWLINE !in b[..pos]
    {
      pos := pos + 1;
    }
  }

  /** A line is handed out trimmed, and a blank one not at all. */
  lemma TextsOne(decode: Bytes -> string, line: Bytes)
    ensures Texts(decode, [line]) == if Trim(decode(line)) == "" then [] else [Trim(decode(line))]
    ensures forall t :: t in Texts(decode, [line]) ==> t != "" && Trimmed(t)
  {
    TrimTrims(decode(line));
    assert [line][1..] == [];
  }

  // ------------------------------------------------------------------ the writer

  /** What the socket answers to a write: `Took(0)` is an end of file. */
  datatype Wrote = Took(n: nat) | WouldBlock | Interrupted | Broken

  /** Of `n` bytes: how many are left when the socket stops taking them, and whether the
      client is worth keeping. A script with no more to say would block. */
  function Drain(n: nat, script: seq<Wrote>): (nat, bool)
    decreases script
  {
    if n == 0 then (0, true)
    else if script == [] then (n, n <= MAX_PENDING)
    else match script[0]
         case Took(k) => if k == 0 then (n, false) else Drain(if k <= n then n - k else 0, script[1..])
         case WouldBlock => (n, n <= MAX_PENDING)
         case Interrupted => Drain(n, script[1..])
         case Broken => (n, false)
  }

  function TakenIn(script: seq<Wrote>): nat {
    if script == [] then 0 else (if script[0].Took? then script[0].n else 0) + TakenIn(script[1..])
  }

  /** A client that survives has at most MAX_PENDING bytes left; one is given up only when
      its socket failed or it is further behind than that; and a willing socket gets all it
      has room for. */
  lemma {:induction false} DrainMeans(n: nat, script: seq<Wrote>)
    ensures var (left, ok) := Drain(n, script);
      && left <= n
      && (ok ==> left <= MAX_PENDING)
      && (!ok ==> left > MAX_PENDING || Broken in script || Took(0) in script)
      && ((forall w :: w in script ==> w.Interrupted? || (w.Took? && w.n > 0)) ==>
            left == if TakenIn(script) >= n then 0 else n - TakenIn(script))
    decreases script
  {
    if n > 0 && script != [] {
      match script[0]
      case Took(k) => if k > 0 { DrainMeans(if k <= n then n - k else 0, script[1..]); }
      case Interrupted => DrainMeans(n, script[1..]);
      case _ =>
    }
  }

  class Client {
    var pending: Bytes
    var written: Bytes     // what the socket has taken so far

    constructor ()
      ensures pending == [] && written == []
    {
      pending, written := [], [];
    }

    /** Push out as much as the socket takes; nothing is lost, doubled or reordered. */
    method Flush(script: seq<Wrote>) returns (ok: bool)
      modifies this
      ensures written + pending == old(written + pending) && old(written) <= written
      ensures (|pending|, ok) == Drain(old(|pending|), script)
    {
      ghost var all := written + pending;
      var i := 0;
      while pending != []
        invariant written + pending == all && old(written) <= written
        invariant 0 <= i <= |script|
        invariant Drain(|pending|, script[i..]) == Drain(old(|pending|), script)
        decreases |script| - i
      {
        var answer := if i < |script| then script[i] else WouldBlock;
        match answer {
          case Took(n) =>
            if n == 0 {
              return false;
            }
            var k := if n <= |pending| then n else |pending|;
            assert written + pending == (written + pending[..k]) + pending[k..];
            written := written + pending[..k];
            pending := pending[k..];
          case WouldBlock => return |pending| <= MAX_PENDING;
          case Interrupted =>
          case Broken => return false;
        }
        i := i + 1;
      }
      return true;
    }

    method Send(line: Bytes, script: seq<Wrote>) returns (ok: bool)
      modifies this
      ensures written + pending == old(written + pending) + line + [NEWLINE]
      ensures old(written) <= written
      ensures (|pending|, ok) == Drain(old(|pending|) + |line| + 1, script)
    {
      assert written + (pending + line + [NEWLINE]) == (written + pending) + line + [NEWLINE];
      pending := pending + line + [NEWLINE];
      ok := Flush(script);
    }
  }

  // ------------------------------------------------------- both ends of the wire

  /** Lines as they go out. */
  function Encode(lines: seq<Bytes>): Bytes {
    if lines == [] then [] else lines[0] + [NEWLINE] + Encode(lines[1..])
  }

  ghost predicate Sendable(decode: Bytes -> string, line: Bytes) {
    NEWLINE !in line && |line| <= MAX_LINE && Trimmed(decode(line)) && decode(line) != ""
  }

  function Decoded(decode: Bytes -> string, lines: seq<Bytes>): seq<string> {
    if lines == [] then [] else [decode(lines[0])] + Decoded(decode, lines[1..])
  }

  /** Everything written, what arrived of it, and what the reader made of that. */
  datatype Pipe = Pipe(
    lines: seq<Bytes>,      // every line queued
    pending: Bytes,         // not yet taken by the socket
    transit: Bytes,         // taken, not yet read
    buf: Bytes,             // the reader's leftover
    out: seq<string>,       // the lines it handed out
    failed: bool)

  datatype Step =
    | Queue(line: Bytes)
    | Take(n: nat)          // the socket takes some of the pending bytes
    | Arrive(n: nat)        // a chunk is read and pushed

  function Advance(decode: Bytes -> string, p: Pipe, s: Step): Pipe {
    match s
    case Queue(line) => p.(lines := p.lines + [line], pending := p.pending + line + [NEWLINE])
    case Take(n) =>
      var k := if n <= |p.pending| then n else |p.pending|;
      p.(pending := p.pending[k..], transit := p.transit + p.pending[..k])
    case Arrive(n) =>
      var k := if n <= |p.transit| then n else |p.transit|;
      var b := p.buf + p.transit[..k];
      p.(transit := p.transit[k..], buf := Rest(b), out := p.out + Texts(decode, RawLines(b)),
         failed := p.failed || |Rest(b)| > MAX_LINE)
  }

  /** What the reader has seen so far explains what it holds and has handed out. */
  ghost predicate Faithful(decode: Bytes -> string, p: Pipe, seen: Bytes) {
    && seen + p.transit + p.pending == Encode(p.lines)
    && p.buf == Rest(seen) && p.out == Texts(decode, RawLines(seen))
    && !p.failed
  }

  lemma {:induction false} EncodeSnoc(lines: seq<Bytes>, line: Bytes)
    ensures Encode(lines + [line]) == Encode(lines) + line + [NEWLINE]
  {
    if lines == [] {
      assert lines + [line] == [line];
    } else {
      assert (lines + [line])[1..] == lines[1..] + [line];
      EncodeSnoc(lines[1..], line);
    }
  }

  /** Of encoded lines, a reader holds at any moment the lines that are complete and the
      beginning of the next. */
  lemma {:induction false} PrefixSplits(decode: Bytes -> string, lines: seq<Bytes>, seen: Bytes)
    requires (forall i :: 0 <= i < |lines| ==> Sendable(decode, lines[i])) && seen <= Encode(lines)
    ensures |Rest(seen)| <= MAX_LINE
    ensures RawLines(seen) <= lines
    ensures Texts(decode, RawLines(seen)) == Decoded(decode, RawLines(seen))
    ensures seen == Encode(lines) ==> RawLines(seen) == lines && Rest(seen) == []
    decreases |lines|
  {
    if lines != [] {
      var line := lines[0];
      var whole := line + [NEWLINE];
      assert Sendable(decode, line);
      if |seen| <= |line| {
        assert seen == Encode(lines)[..|seen|] == line[..|seen|];
        assert forall x :: x in seen ==> x in line;
        RawOpen([], seen);
        assert seen != Encode(lines);
      } else {
        var tail := seen[|line| + 1..];
        assert Encode(lines)[..|line| + 1] == whole && seen[..|line| + 1] == whole;
        assert seen == whole + tail == line + ([NEWLINE] + tail);
        assert Encode(lines)[|line| + 1..] == Encode(lines[1..]) && tail <= Encode(lines[1..]);
        assert forall i :: 0 <= i < |lines[1..]| ==> lines[1..][i] == lines[i + 1];
        PrefixSplits(decode, lines[1..], tail);
        RawPrefixed(line, [NEWLINE] + tail);
        assert ([NEWLINE] + tail)[1..] == tail;
        assert RawLines(seen) == [line] + RawLines(tail);
      }
    }
  }

  lemma AdvanceFaithful(decode: Bytes -> string, p: Pipe, s: Step, seen: Bytes) returns (seen': Bytes)
    requires Faithful(decode, p, seen)
    requires forall i :: 0 <= i < |p.lines| ==> Sendable(decode, p.lines[i])
    requires s.Queue? ==> Sendable(decode, s.line)
    ensures Faithful(decode, Advance(decode, p, s), seen')
  {
    seen' := seen;
    match s
    case Queue(line) =>
      EncodeSnoc(p.lines, line);
      assert seen + p.transit + (p.pending + line + [NEWLINE]) == (seen + p.transit + p.pending) + line + [NEWLINE];
    case Take(n) =>
      var k := if n <= |p.pending| then n else |p.pending|;
      assert seen + (p.transit + p.pending[..k]) + p.pending[k..] == seen + p.transit + p.pending;
    case Arrive(n) =>
      var k := if n <= |p.transit| then n else |p.transit|;
      seen' := seen + p.transit[..k];
      ArriveFaithful(decode, p, k, seen);
  }

  lemma ArriveFaithful(decode: Bytes -> string, p: Pipe, k: nat, seen: Bytes)
    requires Faithful(decode, p, seen) && k <= |p.transit|
    requires forall i :: 0 <= i < |p.lines| ==> Sendable(decode, p.lines[i])
    ensures Faithful(decode, Advance(decode, p, Arrive(k)), seen + p.transit[..k])
  {
    var chunk := p.transit[..k];
    var seen' := seen + chunk;
    assert seen' + p.transit[k..] + p.pending == seen + p.transit + p.pending;
    assert seen' <= Encode(p.lines);
    hide Encode, Sendable, Trim;
    StepIn(decode, seen, chunk);
    PrefixSplits(decode, p.lines, seen');
    hide RawFrom, RestFrom, Texts;
  }

  /** What `Client` and `LineBuffer` promise is what the steps do: a flush is a `Take` of the
      bytes written, a send is a `Queue` and then a `Take`, a push is an `Arrive`. */
  lemma EndsAreSteps(decode: Bytes -> string, p: Pipe, written: Bytes, written': Bytes, pending': Bytes, line: Bytes)
    requires written <= written'
    ensures written' + pending' == written + p.pending ==>
      var q := Advance(decode, p, Take(|written'| - |written|));
      q == p.(pending := pending', transit := p.transit + written'[|written|..])
    ensures written' + pending' == written + p.pending + line + [NEWLINE] ==>
      var q := Advance(decode, Advance(decode, p, Queue(line)), Take(|written'| - |written|));
      q == p.(lines := p.lines + [line], pending := pending', transit := p.transit + written'[|written|..])
    ensures forall n :: 0 <= n <= |p.transit| ==>
      var (q, b) := (Advance(decode, p, Arrive(n)), p.buf + p.transit[..n]);
      q.buf == Rest(b) && q.out == p.out + Texts(decode, RawLines(b)) &&
        (q.failed <==> p.failed || !(|q.buf| <= MAX_LINE))
  {
    hide Rest, Texts, RawLines;
    if written' + pending' == written + p.pending { SplitAlike(written, p.pending, written', pending'); }
    if written' + pending' == written + p.pending + line + [NEWLINE] {
      assert written + (p.pending + line + [NEWLINE]) == written + p.pending + line + [NEWLINE];
      SplitAlike(written, p.pending + line + [NEWLINE], written', pending');
    }
  }

  lemma SplitAlike(a: Bytes, b: Bytes, a': Bytes, b': Bytes)
    requires a <= a' && a' + b' == a + b
    ensures |a'| - |a| <= |b| && b[|a'| - |a|..] == b' && b[..|a'| - |a|] == a'[|a|..]
  {
    var k := |a'| - |a|;
    assert b == (a + b)[|a|..] && b' == (a' + b')[|a'|..];
    assert a'[|a|..] == (a' + b')[|a|..|a'|];
  }

  ghost predicate Runs(decode: Bytes -> string, pipes: seq<Pipe>, steps: seq<Step>) {
    && |pipes| == |steps| + 1
    && pipes[0] == Pipe([], [], [], [], [], false)
    && forall i :: 0 <= i < |steps| ==>
         pipes[i + 1] == Advance(decode, pipes[i], steps[i]) && (steps[i].Queue? ==> Sendable(decode, steps[i].line))
  }

  lemma {:induction false} FaithfulAlways(decode: Bytes -> string, pipes: seq<Pipe>, steps: seq<Step>, i: nat)
      returns (seen: Bytes)
    requires Runs(decode, pipes, steps) && i < |pipes|
    ensures Faithful(decode, pipes[i], seen)
    ensures forall k :: 0 <= k < |pipes[i].lines| ==> Sendable(decode, pipes[i].lines[k])
  {
    if i == 0 {
      seen := [];
    } else {
      var before := FaithfulAlways(decode, pipes, steps, i - 1);
      hide Sendable, Faithful;
      seen := AdvanceFaithful(decode, pipes[i - 1], steps[i - 1], before);
    }
  }

  /** The round trip: however the socket takes the bytes and however they arrive, no push
      fails, the lines handed out are the first of the lines queued, in order, and once
      nothing is pending or under way they are all of them. */
  lemma FramingRoundTrip(decode: Bytes -> string, pipes: seq<Pipe>, steps: seq<Step>, i: nat)
    requires Runs(decode, pipes, steps) && i < |pipes|
    ensures !pipes[i].failed
    ensures exists n :: 0 <= n <= |pipes[i].lines| && pipes[i].out == Decoded(decode, pipes[i].lines[..n])
    ensures pipes[i].pending == [] && pipes[i].transit == [] ==>
              pipes[i].out == Decoded(decode, pipes[i].lines) && pipes[i].buf == []
  {
    var seen := FaithfulAlways(decode, pipes, steps, i);
    var p := pipes[i];
    assert seen <= Encode(p.lines);
    hide Sendable;
    PrefixSplits(decode, p.lines, seen);
    var n := |RawLines(seen)|;
    assert RawLines(seen) == p.lines[..n];
    if p.pending == [] && p.transit == [] { assert seen + [] + [] == seen; }
  }

  // ------------------------------------------------------------ any chunks at all

  /** Feeding chunks one after another: the lines handed out, or None once a push fails. */
  datatype Fed = Fed(buf: Bytes, lines: seq<string>) | Refused

  function Feed(decode: Bytes -> string, buf: Bytes, chunks: seq<Bytes>): Fed
    decreases chunks
  {
    if chunks == [] then Fed(buf, [])
    else
      var b := buf + chunks[0];
      if |Rest(b)| > MAX_LINE then Refused
      else match Feed(decode, Rest(b), chunks[1..])
           case Refused => Refused
           case Fed(end, lines) => Fed(end, Texts(decode, RawLines(b)) + lines)
  }

  function Join(chunks: seq<Bytes>): Bytes {
    if chunks == [] then [] else chunks[0] + Join(chunks[1..])
  }

  /** The unfinished line after each of the chunks fits. */
  ghost predicate TailsFit(buf: Bytes, chunks: seq<Bytes>) {
    forall i :: 0 < i <= |chunks| ==> |Rest(buf + Join(chunks[..i]))| <= MAX_LINE
  }

  lemma TailAt(buf: Bytes, chunks: seq<Bytes>, i: nat)
    requires 0 < i <= |chunks|
    ensures Rest(buf + Join(chunks[..i])) == Rest(Rest(buf + chunks[0]) + Join(chunks[1..][..i - 1]))
  {
    var b, more := buf + chunks[0], Join(chunks[1..][..i - 1]);
    assert chunks[..i][1..] == chunks[1..][..i - 1];
    assert buf + Join(chunks[..i]) == b + more;
    StepIn(_ => "", b, more);
  }

  lemma TailsFitNext(buf: Bytes, chunks: seq<Bytes>)
    requires chunks != []
    ensures TailsFit(buf, chunks) <==>
      |Rest(buf + chunks[0])| <= MAX_LINE && TailsFit(Rest(buf + chunks[0]), chunks[1..])
  {
    var b := buf + chunks[0];
    TailAt(buf, chunks, 1);
    RestTwice(b);
    assert Join(chunks[1..][..0]) == [];
    forall i | 0 < i <= |chunks|
      ensures Rest(buf + Join(chunks[..i])) == Rest(Rest(b) + Join(chunks[1..][..i - 1]))
    {
      TailAt(buf, chunks, i);
    }
    hide Rest, Join;
    if TailsFit(buf, chunks) {
      forall i | 0 < i <= |chunks[1..]| ensures |Rest(Rest(b) + Join(chunks[1..][..i]))| <= MAX_LINE {
        assert |Rest(buf + Join(chunks[..i + 1]))| <= MAX_LINE;
      }
    }
    if |Rest(b)| <= MAX_LINE && TailsFit(Rest(b), chunks[1..]) {
      forall i | 0 < i <= |chunks| ensures |Rest(buf + Join(chunks[..i]))| <= MAX_LINE {
        if i > 1 { assert |Rest(Rest(b) + Join(chunks[1..][..i - 1]))| <= MAX_LINE; }
      }
    }
  }

  /** How bytes were cut into chunks cannot be told from the lines; whether a push fails
      depends on nothing but the unfinished line at the end of some chunk. */
  lemma {:induction false} ChunksDoNotMatter(decode: Bytes -> string, buf: Bytes, chunks: seq<Bytes>)
    requires NEWLINE !in buf
    ensures Feed(decode, buf, chunks) ==
      if TailsFit(buf, chunks) then Fed(Rest(buf + Join(chunks)), Texts(decode, RawLines(buf + Join(chunks))))
      else Refused
    decreases chunks
  {
    if chunks == [] {
      assert buf + [] == buf;
      NoLine(buf);
    } else {
      var b := buf + chunks[0];
      TailsFitNext(buf, chunks);
      RestHasNoNewline([], b);
      assert buf + Join(chunks) == b + Join(chunks[1..]);
      StepIn(decode, b, Join(chunks[1..]));
      ChunksDoNotMatter(decode, Rest(b), chunks[1..]);
      hide TailsFit, Rest, RawLines, Texts;
    }
  }

  lemma RestTwice(b: Bytes)
    ensures Rest(Rest(b)) == Rest(b) && Rest(b) + [] == Rest(b)
  {
    RestHasNoNewline([], b);
    RawOpen([], Rest(b));
  }

  lemma StepIn(decode: Bytes -> string, b: Bytes, more: Bytes)
    ensures Rest(b + more) == Rest(Rest(b) + more)
    ensures Texts(decode, RawLines(b + more)) == Texts(decode, RawLines(b)) + Texts(decode, RawLines(Rest(b) + more))
  {
    RestHasNoNewline([], b);
    RawConcat([], b, more);
    RawPrefixed(Rest(b), more);
    TextsConcat(decode, RawLines(b), RawLines(Rest(b) + more));
  }
}
