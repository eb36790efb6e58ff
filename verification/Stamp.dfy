/** The stamping of a forwarded machine's output: lines that are events get its name, the rest passes. */
module Stamps {
  import opened Edge
  import opened Lines

  const PARTIAL_LIMIT: int := 65536
  const BRACE: Byte := 123

  /** What a line becomes, or None if it is not an event without a machine. */
  type Stamper = Bytes -> Option<Bytes>

  function One(stamp: Stamper, line: Bytes): Bytes {
    if stamp(line).Some? then stamp(line).value else line
  }

  predicate Blank(b: Byte) { b == 32 || b == 9 || b == CR || b == LF }

  function TrimLeft(s: Bytes): Bytes {
    if s != [] && Blank(s[0]) then TrimLeft(s[1..]) else s
  }

  /** Whether a partial line is passed on at once: it cannot be an event, or it is too long to keep. */
  predicate Passes(rest: Bytes) {
    var t := TrimLeft(rest);
    t != [] && !(t[0] == BRACE && |rest| <= PARTIAL_LIMIT)
  }

  // ----- what a stream becomes, as values

  datatype Stream = Stream(buf: Bytes, out: Bytes)

  ghost function Outs(stamp: Stamper, lines: seq<Bytes>): Bytes {
    if lines == [] then [] else Outs(stamp, lines[..|lines| - 1]) + One(stamp, lines[|lines| - 1] + [LF])
  }

  ghost function PassedOn(s: Stream): Stream {
    if Passes(s.buf) then Stream([], s.out + s.buf) else s
  }

  ghost function Written(stamp: Stamper, s: Stream, p: Bytes): Stream {
    PassedOn(Stream(Rest(s.buf + p), s.out + Outs(stamp, Raw(s.buf + p))))
  }

  ghost function Flushed(stamp: Stamper, s: Stream): Stream {
    if s.buf == [] then s else Stream([], s.out + One(stamp, s.buf))
  }

  ghost function Fed(stamp: Stamper, chunks: seq<Bytes>): Stream {
    if chunks == [] then Stream([], [])
    else Written(stamp, Fed(stamp, chunks[..|chunks| - 1]), chunks[|chunks| - 1])
  }

  ghost function Output(stamp: Stamper, chunks: seq<Bytes>): Bytes { Flushed(stamp, Fed(stamp, chunks)).out }

  class MachineStamp {
    const stamp: Stamper
    var buf: Bytes
    var out: Bytes

    constructor (stamp: Stamper)
      ensures this.stamp == stamp && buf == [] && out == []
    {
      this.stamp, buf, out := stamp, [], [];
    }

    method Line(line: Bytes)
      modifies `out
      ensures out == old(out) + One(stamp, line)
    {
      var stamped := stamp(line);
      if stamped.Some? {
        out := out + stamped.value;
      } else {
        out := out + line;
      }
    }

    method Write(p: Bytes)
      modifies `buf, `out
      ensures Stream(buf, out) == Written(stamp, old(Stream(buf, out)), p)
    {
      hide Raw, Rest, Outs, Passes;
      buf := buf + p;
      ghost var all, done := buf, [];
      NothingOut(stamp);
      while true
        invariant done + buf == all && LF !in Rest(done) && Rest(done) == []
        invariant out == old(out) + Outs(stamp, Raw(done))
        decreases |buf|
      {
        var i := IndexOf(buf, LF);
        if i < 0 { break; }
        var line := buf[..i + 1];
        NextLine(done, buf, i);
        OutsMore(stamp, Raw(done), buf[..i]);
        assert Rest(done) + buf[..i] == buf[..i] && line == buf[..i] + [LF];
        Regroup(old(out), Outs(stamp, Raw(done)), One(stamp, line));
        done := done + line;
        buf := buf[i + 1..];
        Line(line);
      }
      NoEnd(done, buf);
      assert Rest(done) + buf == buf;
      PassPartial();
    }

    method PassPartial()
      modifies `buf, `out
      ensures Stream(buf, out) == PassedOn(old(Stream(buf, out)))
    {
      var trimmed := TrimLeft(buf);
      if |trimmed| == 0 { return; }
      if trimmed[0] == BRACE && |buf| <= PARTIAL_LIMIT { return; }
      out := out + buf;
      buf := [];
    }

    method Flush()
      modifies `buf, `out
      ensures Stream(buf, out) == Flushed(stamp, old(Stream(buf, out)))
    {
      if |buf| == 0 { return; }
      Line(buf);
      buf := [];
    }
  }

  lemma NothingOut(stamp: Stamper)
    ensures Raw([]) == [] && Rest([]) == [] && Outs(stamp, []) == []
  {
  }

  lemma OutsMore(stamp: Stamper, lines: seq<Bytes>, line: Bytes)
    ensures Outs(stamp, lines + [line]) == Outs(stamp, lines) + One(stamp, line + [LF])
  {
    assert (lines + [line])[..|lines|] == lines;
  }

  // ----- in order, each piece as it came or stamped

  datatype Segment = Segment(input: Bytes, stamped: bool)

  ghost function Inputs(segs: seq<Segment>): Bytes {
    if segs == [] then [] else Inputs(segs[..|segs| - 1]) + segs[|segs| - 1].input
  }

  ghost function Shape(stamp: Stamper, g: Segment): Bytes {
    if g.stamped && stamp(g.input).Some? then stamp(g.input).value else g.input
  }

  ghost function Shapes(stamp: Stamper, segs: seq<Segment>): Bytes {
    if segs == [] then [] else Shapes(stamp, segs[..|segs| - 1]) + Shape(stamp, segs[|segs| - 1])
  }

  /** Only what can be stamped is, and nothing is empty. */
  ghost predicate Proper(stamp: Stamper, segs: seq<Segment>) {
    forall i :: 0 <= i < |segs| ==> segs[i].input != [] && (segs[i].stamped ==> stamp(segs[i].input).Some?)
  }

  lemma SegmentMore(stamp: Stamper, segs: seq<Segment>, g: Segment)
    ensures Inputs(segs + [g]) == Inputs(segs) + g.input
    ensures Shapes(stamp, segs + [g]) == Shapes(stamp, segs) + Shape(stamp, g)
  {
    assert (segs + [g])[..|segs|] == segs;
  }

  lemma LineUnfolds(stamp: Stamper, lines: seq<Bytes>)
    requires lines != []
    ensures var n := |lines| - 1;
      && Glued(lines) == Glued(lines[..n]) + (lines[n] + [LF])
      && Outs(stamp, lines) == Outs(stamp, lines[..n]) + One(stamp, lines[n] + [LF])
  {
    var n := |lines| - 1;
    Regroup(Glued(lines[..n]), lines[n], [LF]);
  }

  lemma Regroup(a: Bytes, b: Bytes, c: Bytes)
    ensures a + b + c == a + (b + c)
  {
  }

  lemma {:induction false} LineSegments(stamp: Stamper, segs: seq<Segment>, lines: seq<Bytes>) returns (r: seq<Segment>)
    requires Proper(stamp, segs)
    ensures Proper(stamp, r) && Inputs(r) == Inputs(segs) + Glued(lines)
    ensures Shapes(stamp, r) == Shapes(stamp, segs) + Outs(stamp, lines)
  {
    hide Inputs, Shapes, Glued, Outs, Proper;
    r := segs;
    if lines == [] {
      NoLines(stamp);
    } else {
      var n := |lines| - 1;
      var init := LineSegments(stamp, segs, lines[..n]);
      r := OneLine(stamp, init, lines[n] + [LF]);
      LineUnfolds(stamp, lines);
      Regroup(Inputs(segs), Glued(lines[..n]), lines[n] + [LF]);
      Regroup(Shapes(stamp, segs), Outs(stamp, lines[..n]), One(stamp, lines[n] + [LF]));
    }
  }

  lemma NoLines(stamp: Stamper)
    ensures Glued([]) == [] && Outs(stamp, []) == []
  {
  }

  lemma OneLine(stamp: Stamper, segs: seq<Segment>, line: Bytes) returns (r: seq<Segment>)
    requires Proper(stamp, segs) && line != []
    ensures Proper(stamp, r) && Inputs(r) == Inputs(segs) + line
    ensures Shapes(stamp, r) == Shapes(stamp, segs) + One(stamp, line)
  {
    hide Inputs, Shapes;
    var g := Segment(line, stamp(line).Some?);
    SegmentMore(stamp, segs, g);
    r := segs + [g];
  }

  lemma FedMore(stamp: Stamper, chunks: seq<Bytes>)
    requires chunks != []
    ensures var n := |chunks| - 1;
      Fed(stamp, chunks) == Written(stamp, Fed(stamp, chunks[..n]), chunks[n]) && Joined(chunks) == Joined(chunks[..n]) + chunks[n]
  {
  }

  lemma WrittenInSegments(stamp: Stamper, segs: seq<Segment>, s: Stream, p: Bytes) returns (r: seq<Segment>)
    requires Proper(stamp, segs) && Shapes(stamp, segs) == s.out
    ensures Proper(stamp, r) && Shapes(stamp, r) == Written(stamp, s, p).out
    ensures Inputs(r) + Written(stamp, s, p).buf == Inputs(segs) + (s.buf + p)
  {
    hide Raw, Rest, Inputs, Shapes, Outs, Glued;
    var b := s.buf + p;
    RawIsTheStream(b);
    r := LineSegments(stamp, segs, Raw(b));
    Regroup(Inputs(segs), Glued(Raw(b)), Rest(b));
    if Passes(Rest(b)) {
      var g := Segment(Rest(b), false);
      PassedNonEmpty(Rest(b));
      SegmentMore(stamp, r, g);
      r := r + [g];
    }
  }

  /** What came in is what has gone out, in order and piece by piece, and what is kept. */
  lemma {:induction false} FedInSegments(stamp: Stamper, chunks: seq<Bytes>) returns (segs: seq<Segment>)
    ensures Proper(stamp, segs) && Inputs(segs) + Fed(stamp, chunks).buf == Joined(chunks)
    ensures Shapes(stamp, segs) == Fed(stamp, chunks).out
  {
    if chunks == [] {
      segs := [];
    } else {
      var n := |chunks| - 1;
      var init := FedInSegments(stamp, chunks[..n]);
      var s := Fed(stamp, chunks[..n]);
      hide Fed, Raw, Rest, Inputs, Shapes, Outs, Glued;
      segs := WrittenInSegments(stamp, init, s, chunks[n]);
      Regroup(Inputs(init), s.buf, chunks[n]);
      FedMore(stamp, chunks);
    }
  }

  lemma PassedNonEmpty(rest: Bytes)
    requires Passes(rest)
    ensures rest != []
  {
  }

  /** However the stream is cut into writes, its output is the stream in order, pieces of it stamped. */
  lemma OutputInSegments(stamp: Stamper, chunks: seq<Bytes>) returns (segs: seq<Segment>)
    ensures Proper(stamp, segs) && Inputs(segs) == Joined(chunks) && Shapes(stamp, segs) == Output(stamp, chunks)
  {
    hide Fed;
    segs := FedInSegments(stamp, chunks);
    var b := Fed(stamp, chunks).buf;
    if b != [] {
      var g := Segment(b, stamp(b).Some?);
      SegmentMore(stamp, segs, g);
      segs := segs + [g];
    }
  }

  lemma {:induction false} UnstampedShapes(stamp: Stamper, segs: seq<Segment>)
    requires Proper(stamp, segs) && forall i :: 0 <= i < |segs| ==> stamp(segs[i].input).None?
    ensures Shapes(stamp, segs) == Inputs(segs)
  {
    if segs != [] { UnstampedShapes(stamp, segs[..|segs| - 1]); }
  }

  /** With nothing to stamp the output is the input. */
  lemma NothingToStamp(stamp: Stamper, chunks: seq<Bytes>)
    requires forall x :: stamp(x).None?
    ensures Output(stamp, chunks) == Joined(chunks)
  {
    hide Output;
    var segs := OutputInSegments(stamp, chunks);
    UnstampedShapes(stamp, segs);
  }
  // ----- when the cuts do not matter

  ghost predicate Braced(line: Bytes) { TrimLeft(line) != [] && TrimLeft(line)[0] == BRACE }

  /** What becomes of a last line without an end. */
  ghost function RestOut(stamp: Stamper, rest: Bytes): Bytes {
    if rest == [] || Passes(rest) then rest else One(stamp, rest)
  }

  /** The output of a stream written in one piece. */
  ghost function InOnePiece(stamp: Stamper, s: Bytes): Bytes { Outs(stamp, Raw(s)) + RestOut(stamp, Rest(s)) }

  /** Wherever a first part of the line is passed on, what is left becomes what it would have been anyway. */
  ghost predicate SteadyLine(stamp: Stamper, line: Bytes) {
    forall a :: 0 < a < |line| && Passes(line[..a]) ==> line[..a] + One(stamp, line[a..]) == One(stamp, line)
  }

  ghost predicate SteadyRest(stamp: Stamper, rest: Bytes) {
    forall a :: 0 < a < |rest| && Passes(rest[..a]) ==> RestOut(stamp, rest[a..]) == rest[a..]
  }

  ghost predicate SteadyLines(stamp: Stamper, lines: seq<Bytes>) {
    forall i :: 0 <= i < |lines| ==> SteadyLine(stamp, lines[i] + [LF])
  }

  ghost predicate Steady(stamp: Stamper, s: Bytes) {
    SteadyLines(stamp, Raw(s)) && SteadyRest(stamp, Rest(s))
  }

  lemma {:induction false} TrimLeftPrefix(line: Bytes, b: nat)
    requires b <= |line| && TrimLeft(line[..b]) != []
    ensures TrimLeft(line) != [] && TrimLeft(line)[0] == TrimLeft(line[..b])[0]
  {
    if b > 0 && Blank(line[0]) {
      assert line[..b][1..] == line[1..][..b - 1];
      TrimLeftPrefix(line[1..], b - 1);
    }
  }

  lemma {:induction false} OutsConcat(stamp: Stamper, a: seq<Bytes>, b: seq<Bytes>)
    ensures Outs(stamp, a + b) == Outs(stamp, a) + Outs(stamp, b)
  {
    if b == [] {
      assert a + b == a;
    } else {
      var n := |b| - 1;
      OutsConcat(stamp, a, b[..n]);
      assert (a + b)[..|a + b| - 1] == a + b[..n];
      Regroup(Outs(stamp, a), Outs(stamp, b[..n]), One(stamp, b[n] + [LF]));
    }
  }

  lemma {:induction false} GluedBehind(x: Bytes, lines: seq<Bytes>)
    requires lines != []
    ensures x + Glued(lines) == Glued([x + lines[0]] + lines[1..])
  {
    var n := |lines| - 1;
    var longer := [x + lines[0]] + lines[1..];
    if n == 0 {
      assert lines[..0] == [] && longer[..0] == [] && longer[0] == x + lines[0];
      Regroup(x, lines[0], [LF]);
    } else {
      GluedBehind(x, lines[..n]);
      assert longer[..n] == [x + lines[0]] + lines[..n][1..] && longer[n] == lines[n];
      hide Glued;
      LineUnfolds(_ => None, lines);
      LineUnfolds(_ => None, longer);
      Regroup(x, Glued(lines[..n]), lines[n] + [LF]);
    }
  }

  /** Bytes without an end before a stream go into its first line. */
  lemma Prepend(x: Bytes, c: Bytes)
    requires LF !in x
    ensures Raw(c) == [] ==> Rest(c) == c && Raw(x + c) == [] && Rest(x + c) == x + c
    ensures Raw(c) != [] ==> Raw(x + c) == [x + Raw(c)[0]] + Raw(c)[1..] && Rest(x + c) == Rest(c)
  {
    RawIsTheStream(c);
    var lines := Raw(c);
    if lines == [] {
      assert [] + c == c;
      OnlyOneSplit([], x + c);
      assert [] + (x + c) == x + c;
    } else {
      hide Raw, Rest, Glued;
      var longer := [x + lines[0]] + lines[1..];
      GluedBehind(x, lines);
      Regroup(x, Glued(lines), Rest(c));
      assert forall i :: 0 < i < |longer| ==> longer[i] == lines[i];
      OnlyOneSplit(longer, Rest(c));
    }
  }

  lemma OutsOne(stamp: Stamper, line: Bytes)
    ensures Outs(stamp, [line]) == One(stamp, line + [LF])
  {
    assert [line][..0] == [];
    NoLines(stamp);
  }

  lemma FedOne(stamp: Stamper, p: Bytes)
    ensures Fed(stamp, [p]) == PassedOn(Stream(Rest(p), Outs(stamp, Raw(p)))) && Joined([p]) == p
  {
    hide Raw, Rest, Outs;
    FedMore(stamp, [p]);
    assert [p][..0] == [] && [] + p == p;
    assert [] + Outs(stamp, Raw(p)) == Outs(stamp, Raw(p));
  }

  /** What is passed on is passed on in any longer form. */
  lemma PassesMore(x: Bytes, y: Bytes)
    requires Passes(x)
    ensures Passes(x + y)
  {
    assert (x + y)[..|x|] == x;
    TrimLeftPrefix(x + y, |x|);
  }

  lemma FlushRest(stamp: Stamper, rest: Bytes, out: Bytes)
    ensures Flushed(stamp, PassedOn(Stream(rest, out))).out == out + RestOut(stamp, rest)
  {
  }

  lemma OneWrite(stamp: Stamper, s: Bytes)
    ensures Output(stamp, [s]) == InOnePiece(stamp, s) && Joined([s]) == s
  {
    hide Fed, Raw, Rest, Outs;
    FedOne(stamp, s);
    FlushRest(stamp, Rest(s), Outs(stamp, Raw(s)));
  }

  // -- steady streams

  /** Part of the current line has been passed on already, the rest is kept. */
  ghost predicate Midway(stamp: Stamper, s: Bytes, st: Stream, passed: Bytes) {
    && Rest(s) == passed + st.buf && st.out == Outs(stamp, Raw(s)) + passed
    && (passed == [] || Passes(passed)) && !Passes(st.buf)
  }

  lemma PassMidway(stamp: Stamper, s: Bytes, st: Stream, passed: Bytes) returns (passed': Bytes)
    requires Rest(s) == passed + st.buf && st.out == Outs(stamp, Raw(s)) + passed && (passed == [] || Passes(passed))
    ensures Midway(stamp, s, PassedOn(st), passed')
  {
    hide Raw, Rest, Outs;
    passed' := passed;
    if Passes(st.buf) {
      passed' := passed + st.buf;
      Regroup(Outs(stamp, Raw(s)), passed, st.buf);
      if passed == [] {
        assert passed' == st.buf;
      } else {
        PassesMore(passed, st.buf);
      }
      assert passed' == passed' + [];
    }
  }

  /** One more write. */
  lemma WriteMidway(stamp: Stamper, s: Bytes, st: Stream, passed: Bytes, p: Bytes) returns (passed': Bytes)
    requires Midway(stamp, s, st, passed) && SteadyLines(stamp, Raw(s + p))
    ensures Midway(stamp, s + p, Written(stamp, st, p), passed')
  {
    hide Raw, Rest, Outs, Passes;
    var c := st.buf + p;
    var mid := Stream(Rest(c), st.out + Outs(stamp, Raw(c)));
    RawIsTheStream(s);
    Cut(s, p);
    Regroup(passed, st.buf, p);
    Prepend(passed, c);
    var kept: Bytes := passed;
    if Raw(c) == [] {
      NoLines(stamp);
      assert Raw(s) + [] == Raw(s);
      assert mid == Stream(c, st.out);
    } else {
      kept := [];
      FirstLine(stamp, Raw(s), Raw(c), passed, Raw(s + p));
      Regroup(Outs(stamp, Raw(s)), passed, Outs(stamp, Raw(c)));
      assert mid.out == Outs(stamp, Raw(s + p)) + [];
      assert Rest(s + p) == [] + mid.buf;
    }
    passed' := PassMidway(stamp, s + p, mid, kept);
  }

  lemma FirstLine(stamp: Stamper, done: seq<Bytes>, lines: seq<Bytes>, passed: Bytes, all: seq<Bytes>)
    requires lines != [] && all == done + ([passed + lines[0]] + lines[1..]) && SteadyLines(stamp, all)
    requires passed == [] || Passes(passed)
    ensures Outs(stamp, all) == Outs(stamp, done) + (passed + Outs(stamp, lines))
  {
    hide Outs, Passes;
    var first := passed + lines[0];
    assert all[|done|] == first;
    SteadyFirst(stamp, all, |done|, passed, lines[0]);
    OutsConcat(stamp, done, [first] + lines[1..]);
    OutsConcat(stamp, [first], lines[1..]);
    OutsConcat(stamp, [lines[0]], lines[1..]);
    assert [lines[0]] + lines[1..] == lines;
    OutsOne(stamp, first);
    OutsOne(stamp, lines[0]);
    Regroup(passed, One(stamp, lines[0] + [LF]), Outs(stamp, lines[1..]));
  }

  lemma SteadyFirst(stamp: Stamper, all: seq<Bytes>, k: nat, passed: Bytes, line: Bytes)
    requires SteadyLines(stamp, all) && k < |all| && all[k] == passed + line && (passed == [] || Passes(passed))
    ensures passed + One(stamp, line + [LF]) == One(stamp, passed + line + [LF])
  {
    hide Passes;
    var whole := all[k] + [LF];
    assert SteadyLine(stamp, whole);
    Regroup(passed, line, [LF]);
    assert whole[..|passed|] == passed && whole[|passed|..] == line + [LF];
    if passed == [] { assert whole == line + [LF]; }
  }

  lemma SteadyPrefix(stamp: Stamper, s: Bytes, p: Bytes)
    requires SteadyLines(stamp, Raw(s + p))
    ensures SteadyLines(stamp, Raw(s))
  {
    hide Raw, Rest, SteadyLine;
    Cut(s, p);
    forall i | 0 <= i < |Raw(s)| ensures SteadyLine(stamp, Raw(s)[i] + [LF]) {
      assert Raw(s + p)[i] == Raw(s)[i];
    }
  }

  lemma {:induction false} FedMidway(stamp: Stamper, chunks: seq<Bytes>) returns (passed: Bytes)
    requires SteadyLines(stamp, Raw(Joined(chunks)))
    ensures Midway(stamp, Joined(chunks), Fed(stamp, chunks), passed)
  {
    if chunks == [] {
      passed := [];
    } else {
      var n := |chunks| - 1;
      FedMore(stamp, chunks);
      hide Fed, Joined, Raw, Rest, Outs, SteadyLines, Midway;
      SteadyPrefix(stamp, Joined(chunks[..n]), chunks[n]);
      var x := FedMidway(stamp, chunks[..n]);
      passed := WriteMidway(stamp, Joined(chunks[..n]), Fed(stamp, chunks[..n]), x, chunks[n]);
    }
  }

  /** However a steady stream is cut into writes, its output is that of the stream in one piece. */
  lemma SteadyCuts(stamp: Stamper, chunks: seq<Bytes>)
    requires Steady(stamp, Joined(chunks))
    ensures Output(stamp, chunks) == InOnePiece(stamp, Joined(chunks))
  {
    hide Fed, Raw, Rest, Outs, SteadyLines, Passes;
    var s, st := Joined(chunks), Fed(stamp, chunks);
    var passed := FedMidway(stamp, chunks);
    var r := Rest(s);
    if st.buf == [] {
      assert r == passed;
    } else if passed == [] {
      assert r == st.buf;
      assert Outs(stamp, Raw(s)) + [] == Outs(stamp, Raw(s));
    } else {
      assert r[..|passed|] == passed && r[|passed|..] == st.buf;
      PassesMore(passed, st.buf);
      Regroup(Outs(stamp, Raw(s)), passed, st.buf);
    }
  }

  // -- a cut that matters

  lemma Cancel(a: Bytes, x: Bytes, y: Bytes, b: Bytes)
    requires a + x + b == a + y + b
    ensures x == y
  {
    assert |x| == |y|;
    assert (a + x + b)[|a|..|a| + |x|] == x;
    assert (a + y + b)[|a|..|a| + |y|] == y;
  }

  /** The output of a stream cut inside one of its lines, after a part that is passed on. */
  lemma CutInLine(stamp: Stamper, before: seq<Bytes>, line: Bytes, after: seq<Bytes>, rest: Bytes, a: nat)
    requires (forall i :: 0 <= i < |before| ==> LF !in before[i]) && LF !in line && (forall i :: 0 <= i < |after| ==> LF !in after[i])
    requires LF !in rest && 0 < a <= |line| && Passes(line[..a])
    ensures var chunks := [Glued(before) + line[..a], line[a..] + [LF] + (Glued(after) + rest)];
      && Output(stamp, chunks)
         == Outs(stamp, before) + (line[..a] + One(stamp, line[a..] + [LF])) + (Outs(stamp, after) + RestOut(stamp, rest))
      && Joined(chunks) == Glued(before) + (line + [LF]) + (Glued(after) + rest)
  {
    hide Fed, Raw, Rest, Outs, Glued, Passes;
    var first, second := Glued(before) + line[..a], line[a..] + [LF] + (Glued(after) + rest);
    var lines := [line[a..]] + after;
    OnlyOneSplit(before, line[..a]);
    GluedMore(line[a..], after);
    Regroup(line[a..] + [LF], Glued(after), rest);
    OnlyOneSplit(lines, rest);
    FedOne(stamp, first);
    FedMore(stamp, [first, second]);
    assert [first, second][..1] == [first];
    assert [] + second == second;
    OutsConcat(stamp, [line[a..]], after);
    OutsOne(stamp, line[a..]);
    var o := Outs(stamp, before) + line[..a];
    FlushRest(stamp, rest, o + Outs(stamp, lines));
    Reassemble(Outs(stamp, before), line[..a], One(stamp, line[a..] + [LF]), Outs(stamp, after), RestOut(stamp, rest));
    assert line == line[..a] + line[a..];
    Reassemble(Glued(before), line[..a], line[a..] + [LF], Glued(after), rest);
    Regroup(line[..a], line[a..], [LF]);
  }

  lemma GluedMore(line: Bytes, after: seq<Bytes>)
    ensures Glued([line] + after) == line + [LF] + Glued(after)
  {
    GluedConcat([line], after);
    assert [line][..0] == [];
    assert [] + line + [LF] == line + [LF];
  }

  lemma {:induction false} GluedConcat(a: seq<Bytes>, b: seq<Bytes>)
    ensures Glued(a + b) == Glued(a) + Glued(b)
  {
    if b == [] {
      assert a + b == a;
    } else {
      var n := |b| - 1;
      GluedConcat(a, b[..n]);
      assert (a + b)[..|a + b| - 1] == a + b[..n];
      LineUnfolds(_ => None, a + b);
      LineUnfolds(_ => None, b);
      hide Glued;
      Regroup(Glued(a), Glued(b[..n]), b[n] + [LF]);
    }
  }

  lemma Reassemble(a: Bytes, b: Bytes, c: Bytes, d: Bytes, e: Bytes)
    ensures a + b + (c + d) + e == a + (b + c) + (d + e)
    ensures a + b + (c + (d + e)) == a + (b + c) + (d + e)
  {
  }

  /** A line that is not steady: some cut inside it shows. */
  lemma UnsteadyLine(stamp: Stamper, s: Bytes, k: nat, a: nat) returns (chunks: seq<Bytes>)
    requires k < |Raw(s)| && 0 < a <= |Raw(s)[k]| && Passes(Raw(s)[k][..a])
    requires var line := Raw(s)[k]; line[..a] + One(stamp, line[a..] + [LF]) != One(stamp, line + [LF])
    ensures Joined(chunks) == s && Output(stamp, chunks) != InOnePiece(stamp, s)
  {
    hide Raw, Rest, Outs, Glued, Output, Passes;
    var lines, rest := Raw(s), Rest(s);
    var before, line, after := lines[..k], lines[k], lines[k + 1..];
    RawIsTheStream(s);
    CutInLine(stamp, before, line, after, rest, a);
    chunks := [Glued(before) + line[..a], line[a..] + [LF] + (Glued(after) + rest)];
    assert lines == before + ([line] + after);
    GluedConcat(before, [line] + after);
    GluedMore(line, after);
    Reassemble(Glued(before), line + [LF], Glued(after), [], rest);
    OutsConcat(stamp, before, [line] + after);
    OutsConcat(stamp, [line], after);
    OutsOne(stamp, line);
    SameWhole(Glued(before), line + [LF], Glued(after), rest);
    SameWhole(Outs(stamp, before), One(stamp, line + [LF]), Outs(stamp, after), RestOut(stamp, rest));
    if Output(stamp, chunks) == InOnePiece(stamp, s) {
      Cancel(Outs(stamp, before), line[..a] + One(stamp, line[a..] + [LF]), One(stamp, line + [LF]),
             Outs(stamp, after) + RestOut(stamp, rest));
      assert false;
    }
  }

  lemma SameWhole(a: Bytes, b: Bytes, c: Bytes, d: Bytes)
    ensures a + (b + c) + d == a + b + (c + d)
  {
  }

  lemma CancelLeft(a: Bytes, x: Bytes, y: Bytes)
    ensures a + x == a + y ==> x == y
  {
    assert (a + x)[|a|..] == x && (a + y)[|a|..] == y;
  }

  /** The output of a stream cut inside its rest, after a part that is passed on. */
  lemma CutInRest(stamp: Stamper, lines: seq<Bytes>, head: Bytes, tail: Bytes)
    requires (forall i :: 0 <= i < |lines| ==> LF !in lines[i]) && LF !in head && LF !in tail && Passes(head)
    ensures var chunks := [Glued(lines) + head, tail];
      && Output(stamp, chunks) == Outs(stamp, lines) + head + RestOut(stamp, tail)
      && Joined(chunks) == Glued(lines) + head + tail
  {
    hide Raw, Rest, Outs, Glued, Fed, Passes, Joined;
    var first := Glued(lines) + head;
    OnlyOneSplit(lines, head);
    FedTwo(stamp, first, tail);
    LastWrite(stamp, Outs(stamp, lines) + head, tail);
  }

  lemma Unended(s: Bytes)
    requires LF !in s
    ensures Raw(s) == [] && Rest(s) == s
  {
    NoEnd([], s);
    assert [] + s == s;
  }

  lemma FedTwo(stamp: Stamper, first: Bytes, second: Bytes)
    ensures Fed(stamp, [first, second]) == Written(stamp, PassedOn(Stream(Rest(first), Outs(stamp, Raw(first)))), second)
    ensures Joined([first, second]) == first + second
  {
    hide Raw, Rest, Outs;
    FedOne(stamp, first);
    FedMore(stamp, [first, second]);
    assert [first, second][..1] == [first];
  }

  lemma LastWrite(stamp: Stamper, out: Bytes, p: Bytes)
    requires LF !in p
    ensures Flushed(stamp, Written(stamp, Stream([], out), p)).out == out + RestOut(stamp, p)
  {
    hide Raw, Rest, Outs, Passes;
    Unended(p);
    NoLines(stamp);
    assert [] + p == p && out + [] == out;
    FlushRest(stamp, p, out);
  }

  /** A rest that is not steady: some cut inside it shows. */
  lemma UnsteadyRest(stamp: Stamper, s: Bytes, a: nat) returns (chunks: seq<Bytes>)
    requires 0 < a < |Rest(s)| && Passes(Rest(s)[..a]) && RestOut(stamp, Rest(s)[a..]) != Rest(s)[a..]
    ensures Joined(chunks) == s && Output(stamp, chunks) != InOnePiece(stamp, s)
  {
    hide Raw, Rest, Outs, Glued, Output, Passes, Joined;
    var lines, rest := Raw(s), Rest(s);
    RawIsTheStream(s);
    var head, tail := rest[..a], rest[a..];
    assert rest == head + tail;
    CutInRest(stamp, lines, head, tail);
    chunks := [Glued(lines) + head, tail];
    PassesMore(head, tail);
    Regroup(Glued(lines), head, tail);
    Regroup(Outs(stamp, lines), head, tail);
    CancelLeft(Outs(stamp, lines) + head, RestOut(stamp, tail), tail);
  }

  /**
   The output is the same for every cut of a stream into writes if and only if the stream is steady:
   wherever the first part of a line would be passed on, what is left of it becomes what it would
   have been anyway.
   */
  lemma CutsDoNotMatter(stamp: Stamper, s: Bytes)
    ensures Output(stamp, [s]) == InOnePiece(stamp, s)
    ensures (forall chunks :: Joined(chunks) == s ==> Output(stamp, chunks) == Output(stamp, [s])) <==> Steady(stamp, s)
  {
    hide Output, InOnePiece, Joined, Raw, Rest;
    OneWrite(stamp, s);
    if Steady(stamp, s) {
      forall chunks | Joined(chunks) == s ensures Output(stamp, chunks) == InOnePiece(stamp, s) {
        SteadyCuts(stamp, chunks);
      }
    } else {
      var chunks := SomeCutMatters(stamp, s);
      assert Joined(chunks) == s && Output(stamp, chunks) != InOnePiece(stamp, s);
    }
  }

  lemma SomeCutMatters(stamp: Stamper, s: Bytes) returns (chunks: seq<Bytes>)
    requires !Steady(stamp, s)
    ensures Joined(chunks) == s && Output(stamp, chunks) != InOnePiece(stamp, s)
  {
    hide Output, InOnePiece, Joined, Raw, Rest, Passes, SteadyLine;
    if !SteadyLines(stamp, Raw(s)) {
      var k :| 0 <= k < |Raw(s)| && !SteadyLine(stamp, Raw(s)[k] + [LF]);
      var a := WhereUnsteady(stamp, Raw(s)[k]);
      chunks := UnsteadyLine(stamp, s, k, a);
    } else {
      var a :| 0 < a < |Rest(s)| && Passes(Rest(s)[..a]) && RestOut(stamp, Rest(s)[a..]) != Rest(s)[a..];
      chunks := UnsteadyRest(stamp, s, a);
    }
  }

  lemma WhereUnsteady(stamp: Stamper, line: Bytes) returns (a: nat)
    requires !SteadyLine(stamp, line + [LF])
    ensures 0 < a <= |line| && Passes(line[..a]) && line[..a] + One(stamp, line[a..] + [LF]) != One(stamp, line + [LF])
  {
    hide Passes;
    var whole := line + [LF];
    var i :| 0 < i < |whole| && Passes(whole[..i]) && whole[..i] + One(stamp, whole[i..]) != One(stamp, whole);
    assert whole[..i] == line[..i] && whole[i..] == line[i..] + [LF];
    a := i;
  }

  // -- what is kept, byte by byte

  ghost predicate Blanks(s: Bytes) { forall i :: 0 <= i < |s| ==> s[i] == 32 || s[i] == 9 || s[i] == 13 || s[i] == 10 }

  lemma {:induction false} Untrimmed(s: Bytes) returns (n: nat)
    ensures n <= |s| && Blanks(s[..n]) && TrimLeft(s) == s[n..]
    ensures n < |s| ==> !Blanks([s[n]])
  {
    if s != [] && Blank(s[0]) {
      var m := Untrimmed(s[1..]);
      n := m + 1;
      assert s[..n] == [s[0]] + s[1..][..m] && s[n..] == s[1..][m..];
    } else {
      n := 0;
      if s != [] { assert [s[0]][0] == s[0]; }
    }
  }

  lemma OneFirst(s: Bytes, n: nat, k: nat)
    requires n < |s| && k < |s| && Blanks(s[..n]) && Blanks(s[..k]) && !Blanks([s[n]]) && s[k] == 123
    ensures k == n
  {
    assert forall i :: 0 <= i < k ==> s[..k][i] == s[i];
    assert forall i :: 0 <= i < n ==> s[..n][i] == s[i];
  }

  /**
   A partial line is kept if and only if it is all blanks, or an open brace is the first byte that is
   not one and it is at most 64 KiB long.
   */
  lemma PartialKeptIff(rest: Bytes)
    ensures !Passes(rest) <==>
      Blanks(rest) || (|rest| <= 65536 && exists n :: 0 <= n < |rest| && Blanks(rest[..n]) && rest[n] == 123)
  {
    var n := Untrimmed(rest);
    assert n == |rest| ==> rest[..n] == rest;
    if n < |rest| {
      assert !Blanks(rest) by { assert [rest[n]][0] == rest[n]; }
      forall k | 0 <= k < |rest| && Blanks(rest[..k]) && rest[k] == 123 ensures k == n {
        OneFirst(rest, n, k);
      }
    }
  }

  // -- which lines are steady

  /** A line that opens with a brace after any blanks and is short enough to be kept is steady. */
  lemma BracedIsSteady(stamp: Stamper, line: Bytes)
    requires Braced(line) && |line| <= PARTIAL_LIMIT + 1
    ensures SteadyLine(stamp, line)
  {
    forall a | 0 < a < |line| ensures !Passes(line[..a]) {
      if TrimLeft(line[..a]) != [] { TrimLeftPrefix(line, a); }
    }
  }

  /** No end of the line, nor all of it, is an event. */
  ghost predicate NoEvent(stamp: Stamper, line: Bytes) {
    forall a :: 0 <= a < |line| ==> stamp(line[a..]).None?
  }

  lemma PlainIsSteady(stamp: Stamper, line: Bytes)
    requires NoEvent(stamp, line)
    ensures SteadyLine(stamp, line)
  {
    assert line[0..] == line;
    forall a | 0 < a < |line| ensures line[..a] + One(stamp, line[a..]) == line {
      assert line == line[..a] + line[a..];
    }
  }

  /** Every line is an event's own, short enough to be kept, or has no event in it. */
  ghost predicate EventsApart(stamp: Stamper, lines: seq<Bytes>) {
    forall i :: 0 <= i < |lines| ==>
      (Braced(lines[i] + [LF]) && |lines[i]| <= PARTIAL_LIMIT) || NoEvent(stamp, lines[i] + [LF])
  }

  /** Every line with its end, replaced by its stamped form if it is an event. */
  ghost function LineByLine(stamp: Stamper, lines: seq<Bytes>): Bytes {
    if lines == [] then []
    else
      var line := lines[0] + [LF];
      (match stamp(line) case Some(stamped) => stamped case None => line) + LineByLine(stamp, lines[1..])
  }

  lemma {:induction false} OutsLineByLine(stamp: Stamper, lines: seq<Bytes>)
    ensures Outs(stamp, lines) == LineByLine(stamp, lines)
  {
    if lines != [] {
      var first := lines[..1];
      assert lines == first + lines[1..] && first[..0] == [] && first == [lines[0]];
      OutsConcat(stamp, first, lines[1..]);
      OutsLineByLine(stamp, lines[1..]);
      assert Outs(stamp, first) == Outs(stamp, first[..0]) + One(stamp, lines[0] + [LF]);
      assert [] + One(stamp, lines[0] + [LF]) == One(stamp, lines[0] + [LF]);
    }
  }

  /**
   Output whose events stand on lines of their own, and whose last line is ended, comes out the same
   however it is cut: every event line stamped, every other as it is.
   */
  lemma EventsOnOwnLines(stamp: Stamper, s: Bytes, chunks: seq<Bytes>)
    requires EventsApart(stamp, Raw(s)) && Rest(s) == [] && Joined(chunks) == s
    ensures Output(stamp, chunks) == LineByLine(stamp, Raw(s))
  {
    OutsLineByLine(stamp, Raw(s));
    var lines := Raw(s);
    forall i | 0 <= i < |lines| ensures SteadyLine(stamp, lines[i] + [LF]) {
      if NoEvent(stamp, lines[i] + [LF]) {
        PlainIsSteady(stamp, lines[i] + [LF]);
      } else {
        BracedIsSteady(stamp, lines[i] + [LF]);
      }
    }
    hide Output, Joined, Raw, Rest, SteadyLine, Outs;
    CutsDoNotMatter(stamp, s);
  }

  lemma LineOf(stamp: Stamper, line: Bytes)
    requires LF !in line
    ensures Raw(line + [LF]) == [line] && (Steady(stamp, line + [LF]) <==> SteadyLine(stamp, line + [LF]))
  {
    SplitLine([], line);
    assert [] + (line + [LF]) == line + [LF];
    hide Raw, Rest, SteadyLine;
    assert [line][0] == line;
  }

  /** An event behind other text is not steady: cut between them, it is stamped; uncut, it is not. */
  lemma CutsCanMatter(stamp: Stamper, text: Bytes, event: Bytes)
    requires LF !in text && LF !in event && Passes(text)
    requires stamp(text + event + [LF]).None? && stamp(event + [LF]).Some? && stamp(event + [LF]).value != event + [LF]
    ensures !Steady(stamp, text + event + [LF])
  {
    hide Steady, Passes;
    LineOf(stamp, text + event);
    var whole := text + event + [LF];
    Regroup(text, event, [LF]);
    var a := |text|;
    assert whole[..a] == text && whole[a..] == event + [LF];
    assert a > 0 by { PassedNonEmpty(text); }
    CancelLeft(text, One(stamp, event + [LF]), event + [LF]);
  }

  /** Nor is an event longer than what is kept: cut before its end it goes out unstamped. */
  lemma LongEventsCanPass(stamp: Stamper, event: Bytes)
    requires LF !in event && Braced(event) && |event| > PARTIAL_LIMIT && stamp([LF]).None?
    requires stamp(event + [LF]).Some? && stamp(event + [LF]).value != event + [LF]
    ensures !Steady(stamp, event + [LF])
  {
    assert Passes(event);
    hide Steady, Passes;
    LineOf(stamp, event);
    var whole, a := event + [LF], |event|;
    assert whole[..a] == event && whole[a..] == [LF];
  }

  lemma SplitLine(x: Bytes, line: Bytes)
    requires LF !in line && x == []
    ensures Raw(x + (line + [LF])) == [line] && Rest(x + (line + [LF])) == []
  {
    NoEnd([], line);
    LineEnd(line);
    assert [] + line == line && x + (line + [LF]) == line + [LF];
  }
}
