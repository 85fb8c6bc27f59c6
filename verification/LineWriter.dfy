/** The streaming line splitter that routes a scanner's output to the log. */
module LineWriter {

  type byte = b: int | 0 <= b < 256

  const NEWLINE: byte := 10

  /** Position of the first newline, or the length. */
  function FirstNewline(s: seq<byte>): (k: nat)
    ensures k <= |s| && (forall i | 0 <= i < k :: s[i] != NEWLINE) && (k < |s| ==> s[k] == NEWLINE)
  {
    if s == [] || s[0] == NEWLINE then 0 else 1 + FirstNewline(s[1..])
  }

  /** All complete lines of a stream, without their newlines. */
  function Lines(s: seq<byte>): seq<seq<byte>>
    decreases |s|
  {
    var k := FirstNewline(s);
    if k == |s| then [] else [s[..k]] + Lines(s[k + 1..])
  }

  /** What follows the last newline. */
  function Tail(s: seq<byte>): seq<byte>
    decreases |s|
  {
    var k := FirstNewline(s);
    if k == |s| then s else Tail(s[k + 1..])
  }

  function NonEmpty(ls: seq<seq<byte>>): seq<seq<byte>> {
    if ls == [] then [] else (if ls[0] == [] then [] else [ls[0]]) + NonEmpty(ls[1..])
  }

  function Prefixed(prefix: seq<byte>, ls: seq<seq<byte>>): seq<seq<byte>> {
    if ls == [] then [] else [prefix + ls[0]] + Prefixed(prefix, ls[1..])
  }

  /** What one complete line adds to the log. */
  function Entry(prefix: seq<byte>, line: seq<byte>): seq<seq<byte>> {
    if line == [] then [] else [prefix + line]
  }

  /** What a writer with this prefix logs for a stream; LoggedMeaning says which lines these are. */
  function Logged(prefix: seq<byte>, s: seq<byte>): seq<seq<byte>>
    decreases |s|
  {
    var k := FirstNewline(s);
    if k == |s| then [] else Entry(prefix, s[..k]) + Logged(prefix, s[k + 1..])
  }

  lemma {:induction false} LoggedMeaning(prefix: seq<byte>, s: seq<byte>)
    ensures Logged(prefix, s) == Prefixed(prefix, NonEmpty(Lines(s)))
    decreases |s|
  {
    var k := FirstNewline(s);
    if k < |s| {
      LoggedMeaning(prefix, s[k + 1..]);
      PrefixedLine(prefix, s[..k], Lines(s[k + 1..]));
    }
  }

  lemma {:induction false} PrefixedLine(prefix: seq<byte>, line: seq<byte>, ls: seq<seq<byte>>)
    ensures Prefixed(prefix, NonEmpty([line] + ls)) == Entry(prefix, line) + Prefixed(prefix, NonEmpty(ls))
  {
    var head := if line == [] then [] else [line];
    assert ([line] + ls)[1..] == ls;
    PrefixedCons(prefix, head, NonEmpty(ls));
  }

  function Join(ls: seq<seq<byte>>): seq<byte> {
    if ls == [] then [] else ls[0] + [NEWLINE] + Join(ls[1..])
  }

  /** Lines and tail are the one decomposition of a stream at its newlines: they rebuild it, they hold no newline,
      and no other lines and tail do. */
  lemma {:induction false} SplitJoin(s: seq<byte>)
    ensures Join(Lines(s)) + Tail(s) == s
    decreases |s|
  {
    var k := FirstNewline(s);
    if k < |s| {
      var rest := s[k + 1..];
      SplitJoin(rest);
      calc {
        Join(Lines(s)) + Tail(s);
        { assert Lines(s)[1..] == Lines(rest); }
        (s[..k] + [NEWLINE] + Join(Lines(rest))) + Tail(rest);
        { Assoc(s[..k] + [NEWLINE], Join(Lines(rest)), Tail(rest)); }
        s[..k] + [NEWLINE] + rest;
        { Cut(s, k); }
        s;
      }
    }
  }

  lemma {:induction false} NoNewlines(s: seq<byte>)
    ensures NEWLINE !in Tail(s) && forall l <- Lines(s) :: NEWLINE !in l
    decreases |s|
  {
    var k := FirstNewline(s);
    if k < |s| {
      NoNewlines(s[k + 1..]);
    } else {
      assert s[..k] == s;
    }
  }

  lemma Cut(s: seq<byte>, k: nat)
    requires k < |s|
    ensures s == s[..k] + [s[k]] + s[k + 1..]
  {}

  lemma Assoc<T>(a: seq<T>, b: seq<T>, c: seq<T>)
    ensures (a + b) + c == a + (b + c)
  {}

  lemma {:induction false} SplitUnique(ls: seq<seq<byte>>, tail: seq<byte>)
    requires NEWLINE !in tail && forall l <- ls :: NEWLINE !in l
    ensures Lines(Join(ls) + tail) == ls && Tail(Join(ls) + tail) == tail
  {
    if ls == [] {
      FirstNewlineAt(tail, []);
      assert Join(ls) + tail == tail;
    } else {
      var rest := Join(ls[1..]) + tail;
      Assoc(ls[0] + [NEWLINE], Join(ls[1..]), tail);
      FirstLine(ls[0], rest);
      SplitUnique(ls[1..], tail);
    }
  }

  /** A newline-free line followed by a newline is split off first. */
  lemma FirstLine(line: seq<byte>, rest: seq<byte>)
    requires NEWLINE !in line
    ensures Lines(line + [NEWLINE] + rest) == [line] + Lines(rest) && Tail(line + [NEWLINE] + rest) == Tail(rest)
  {
    var s := line + [NEWLINE] + rest;
    assert s == line + ([NEWLINE] + rest);
    FirstNewlineAt(line, [NEWLINE] + rest);
    assert s[|line| + 1..] == rest && s[..|line|] == line;
  }

  lemma {:induction false} FirstNewlineAt(a: seq<byte>, b: seq<byte>)
    requires NEWLINE !in a && (b != [] ==> b[0] == NEWLINE)
    ensures FirstNewline(a + b) == |a|
  {
    if a == [] {
      assert a + b == b;
    } else {
      assert (a + b)[1..] == a[1..] + b;
      FirstNewlineAt(a[1..], b);
    }
  }

  /** Later bytes never disturb complete lines: splitting resumes from the buffered tail. */
  lemma {:induction false} SplitResumes(a: seq<byte>, b: seq<byte>)
    ensures Lines(a + b) == Lines(a) + Lines(Tail(a) + b)
    ensures Tail(a + b) == Tail(Tail(a) + b)
  {
    SplitJoin(a);
    SplitJoin(Tail(a) + b);
    NoNewlines(a);
    NoNewlines(Tail(a) + b);
    var more, tail := Lines(Tail(a) + b), Tail(Tail(a) + b);
    JoinAppend(Lines(a), more);
    Assoc(Join(Lines(a)), Tail(a), b);
    Assoc(Join(Lines(a)), Join(more), tail);
    assert a + b == Join(Lines(a) + more) + tail;
    SplitUnique(Lines(a) + more, tail);
  }

  lemma {:induction false} JoinAppend(xs: seq<seq<byte>>, ys: seq<seq<byte>>)
    ensures Join(xs + ys) == Join(xs) + Join(ys)
  {
    if xs == [] {
      assert xs + ys == ys;
    } else {
      JoinAppend(xs[1..], ys);
      assert (xs + ys)[1..] == xs[1..] + ys;
      Assoc(xs[0] + [NEWLINE], Join(xs[1..]), Join(ys));
    }
  }

  lemma {:induction false} LoggedAppend(prefix: seq<byte>, xs: seq<seq<byte>>, ys: seq<seq<byte>>)
    ensures Prefixed(prefix, NonEmpty(xs + ys)) == Prefixed(prefix, NonEmpty(xs)) + Prefixed(prefix, NonEmpty(ys))
  {
    if xs == [] {
      assert xs + ys == ys;
    } else {
      LoggedAppend(prefix, xs[1..], ys);
      assert xs + ys == [xs[0]] + (xs[1..] + ys) && xs == [xs[0]] + xs[1..];
      PrefixedLine(prefix, xs[0], xs[1..] + ys);
      PrefixedLine(prefix, xs[0], xs[1..]);
      Assoc(Entry(prefix, xs[0]), Prefixed(prefix, NonEmpty(xs[1..])), Prefixed(prefix, NonEmpty(ys)));
    }
  }

  lemma {:induction false} PrefixedCons(prefix: seq<byte>, head: seq<seq<byte>>, rest: seq<seq<byte>>)
    requires |head| <= 1
    ensures Prefixed(prefix, head + rest) == Prefixed(prefix, head) + Prefixed(prefix, rest)
  {
    if head == [] { assert head + rest == rest; } else { assert (head + rest)[1..] == rest; }
  }

  lemma {:induction false} LoggedResumes(prefix: seq<byte>, stream: seq<byte>, p: seq<byte>)
    ensures Logged(prefix, stream + p) == Logged(prefix, stream) + Logged(prefix, Tail(stream) + p)
    ensures Tail(stream + p) == Tail(Tail(stream) + p)
  {
    SplitResumes(stream, p);
    LoggedAppend(prefix, Lines(stream), Lines(Tail(stream) + p));
    LoggedMeaning(prefix, stream);
    LoggedMeaning(prefix, Tail(stream) + p);
    LoggedMeaning(prefix, stream + p);
  }

  lemma {:induction false} LoggedStep(prefix: seq<byte>, buf: seq<byte>)
    requires FirstNewline(buf) < |buf|
    ensures var k := FirstNewline(buf); Logged(prefix, buf) == Entry(prefix, buf[..k]) + Logged(prefix, buf[k + 1..])
  {}

  /** The log with what the buffer still holds for it. */
  ghost function Due(prefix: seq<byte>, logging: bool, log: seq<seq<byte>>, buf: seq<byte>): seq<seq<byte>> {
    if logging then log + Logged(prefix, buf) else log
  }

  lemma Regroup<T>(log: seq<T>, whole: seq<T>, a: seq<T>, b: seq<T>)
    requires whole == a + b
    ensures log + whole == log + a + b
  {}

  lemma {:induction false} DueStep(prefix: seq<byte>, logging: bool, log: seq<seq<byte>>, buf: seq<byte>, line: seq<byte>, rest: seq<byte>)
    requires FirstNewline(buf) < |buf| && line == buf[..FirstNewline(buf)] && rest == buf[FirstNewline(buf) + 1..]
    ensures Due(prefix, logging, log, buf) == Due(prefix, logging, if logging then log + Entry(prefix, line) else log, rest)
  {
    LoggedStep(prefix, buf);
    Regroup(log, Logged(prefix, buf), Entry(prefix, line), Logged(prefix, rest));
  }

  lemma {:induction false} TailStep(buf: seq<byte>)
    requires FirstNewline(buf) < |buf|
    ensures Tail(buf) == Tail(buf[FirstNewline(buf) + 1..])
  {}

  lemma {:induction false} DueDone(prefix: seq<byte>, logging: bool, log: seq<seq<byte>>, buf: seq<byte>)
    requires FirstNewline(buf) == |buf|
    ensures Due(prefix, logging, log, buf) == log && Tail(buf) == buf
  {
    assert log + [] == log;
  }

  /** The log after a whole stream. */
  ghost function Shown(prefix: seq<byte>, logging: bool, stream: seq<byte>): seq<seq<byte>> {
    if logging then Logged(prefix, stream) else []
  }

  lemma {:induction false} DueResumes(prefix: seq<byte>, logging: bool, stream: seq<byte>, p: seq<byte>)
    ensures Due(prefix, logging, Shown(prefix, logging, stream), Tail(stream) + p) == Shown(prefix, logging, stream + p)
    ensures Tail(Tail(stream) + p) == Tail(stream + p)
  {
    LoggedResumes(prefix, stream, p);
  }

  class Writer {
    const prefix: seq<byte>
    const logging: bool             // whether a log function is set
    var buf: seq<byte>
    var log: seq<seq<byte>>         // the lines handed to the log function
    ghost var stream: seq<byte>     // all bytes written

    ghost predicate Valid()
      reads this
    {
      && buf == Tail(stream)
      && log == Shown(prefix, logging, stream)
    }

    constructor (prefix: seq<byte>, logging: bool)
      ensures Valid() && stream == [] && this.prefix == prefix && this.logging == logging
    {
      this.prefix, this.logging := prefix, logging;
      buf, log, stream := [], [], [];
    }

    /** One turn of the loop: a complete line leaves the buffer and is logged unless it is empty. */
    method TakeLine() returns (more: bool)
      modifies this`buf, this`log
      ensures more ==> |buf| < |old(buf)| && Tail(buf) == Tail(old(buf))
      ensures more ==> Due(prefix, logging, log, buf) == Due(prefix, logging, old(log), old(buf))
      ensures !more ==> buf == old(buf) == Tail(buf) && log == old(log) == Due(prefix, logging, log, buf)
    {
      var idx := FirstNewline(buf);
      if idx == |buf| {
        DueDone(prefix, logging, log, buf);
        return false;
      }
      var line := buf[..idx];
      DueStep(prefix, logging, log, buf, line, buf[idx + 1..]);
      TailStep(buf);
      buf := buf[idx + 1..];
      if line == [] {
        assert log + [] == log;
        return true;
      }
      if logging {
        log := log + [prefix + line];
      }
      return true;
    }

    /** Whatever the division of the stream into writes, the logged lines are the non-empty complete lines of the
        whole stream in order, and the buffer is its tail. */
    method Write(p: seq<byte>) returns (n: nat)
      requires Valid()
      modifies this
      ensures Valid() && stream == old(stream) + p && n == |p|
    {
      DueResumes(prefix, logging, stream, p);
      ghost var target, tail := Shown(prefix, logging, stream + p), Tail(stream + p);
      buf := buf + p;
      var more := true;
      while more
        invariant stream == old(stream) && Tail(buf) == tail && Due(prefix, logging, log, buf) == target
        invariant !more ==> buf == tail && log == target
        decreases |buf|, more
      {
        more := TakeLine();
      }
      stream := stream + p;
      n := |p|;
    }
  }
}
