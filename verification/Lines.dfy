/** Splitting a byte stream into lines, however it is cut into writes. */
module Lines {

  newtype Byte = x: int | 0 <= x < 256

  type Bytes = seq<Byte>

  const LF: Byte := 10
  const CR: Byte := 13

  /** The terminated lines of a stream, without their ends. */
  ghost function Raw(s: Bytes): seq<Bytes> {
    if s == [] then []
    else
      var n := |s| - 1;
      if s[n] == LF then Raw(s[..n]) + [Rest(s[..n])] else Raw(s[..n])
  }

  /** What follows the last line end. */
  ghost function Rest(s: Bytes): Bytes {
    if s == [] || s[|s| - 1] == LF then [] else Rest(s[..|s| - 1]) + [s[|s| - 1]]
  }

  ghost function Glued(lines: seq<Bytes>): Bytes {
    if lines == [] then [] else Glued(lines[..|lines| - 1]) + lines[|lines| - 1] + [LF]
  }

  /** Lines and rest are the stream: put the ends back and it is whole, and there is no end inside. */
  lemma {:induction false} RawIsTheStream(s: Bytes)
    ensures Glued(Raw(s)) + Rest(s) == s
    ensures LF !in Rest(s) && forall i :: 0 <= i < |Raw(s)| ==> LF !in Raw(s)[i]
  {
    if s != [] {
      var n := |s| - 1;
      RawIsTheStream(s[..n]);
      assert s == s[..n] + [s[n]];
      if s[n] == LF {
        assert Raw(s)[..|Raw(s)| - 1] == Raw(s[..n]);
      }
    }
  }

  /** Only one list of lines and one rest make up a stream. */
  lemma {:induction false} OnlyOneSplit(lines: seq<Bytes>, rest: Bytes)
    requires LF !in rest && forall i :: 0 <= i < |lines| ==> LF !in lines[i]
    ensures Raw(Glued(lines) + rest) == lines && Rest(Glued(lines) + rest) == rest
  {
    var s := Glued(lines);
    if lines == [] {
      NoEnd([], rest);
    } else {
      var n := |lines| - 1;
      OnlyOneSplit(lines[..n], lines[n]);
      LineEnd(Glued(lines[..n]) + lines[n]);
      NoEnd(s, rest);
      assert lines == lines[..n] + [lines[n]];
    }
  }

  lemma {:induction false} NoEnd(s: Bytes, t: Bytes)
    requires LF !in t
    ensures Raw(s + t) == Raw(s) && Rest(s + t) == Rest(s) + t
  {
    if t == [] {
      assert s + t == s;
    } else {
      var n := |t| - 1;
      NoEnd(s, t[..n]);
      assert (s + t)[..|s + t| - 1] == s + t[..n];
      assert t == t[..n] + [t[n]];
    }
  }

  lemma LineEnd(s: Bytes)
    ensures Raw(s + [LF]) == Raw(s) + [Rest(s)] && Rest(s + [LF]) == []
  {
    assert (s + [LF])[..|s|] == s;
  }

  lemma NextLine(s: Bytes, text: Bytes, i: nat)
    requires i < |text| && text[i] == LF && LF !in text[..i]
    ensures Raw(s + text[..i + 1]) == Raw(s) + [Rest(s) + text[..i]] && Rest(s + text[..i + 1]) == []
    ensures s + text[..i + 1] + text[i + 1..] == s + text
  {
    hide Raw, Rest;
    NoEnd(s, text[..i]);
    LineEnd(s + text[..i]);
    assert s + text[..i + 1] == s + text[..i] + [LF];
  }

  /** Cutting a stream in two: the rest of the first part goes before the second. */
  lemma {:induction false} Cut(s: Bytes, t: Bytes)
    ensures Raw(s + t) == Raw(s) + Raw(Rest(s) + t) && Rest(s + t) == Rest(Rest(s) + t)
  {
    RawIsTheStream(s);
    hide Raw, Rest;
    if t == [] {
      Nothing();
      NoEnd([], Rest(s));
      assert [] + Rest(s) == Rest(s) == Rest(s) + t;
      assert s + t == s;
    } else {
      var init, c := t[..|t| - 1], t[|t| - 1];
      Cut(s, init);
      assert s + t == s + init + [c] && Rest(s) + t == Rest(s) + init + [c];
      if c == LF {
        LineEnd(s + init);
        LineEnd(Rest(s) + init);
        assert Raw(s) + (Raw(Rest(s) + init) + [Rest(s + init)]) == Raw(s) + Raw(Rest(s) + init) + [Rest(s + init)];
      } else {
        NoEnd(s + init, [c]);
        NoEnd(Rest(s) + init, [c]);
      }
    }
  }

  lemma Nothing()
    ensures Raw([]) == [] && Rest([]) == []
  {
  }

  function Trimmed(line: Bytes): Bytes {
    if line != [] && line[|line| - 1] == CR then line[..|line| - 1] else line
  }

  ghost function TrimmedAll(lines: seq<Bytes>): (r: seq<Bytes>)
    ensures |r| == |lines| && forall i :: 0 <= i < |lines| ==> r[i] == Trimmed(lines[i])
  {
    seq(|lines|, i requires 0 <= i < |lines| => Trimmed(lines[i]))
  }

  /** What a log shows of a whole stream: its lines, and an unfinished last one as it is. */
  ghost function LogLines(s: Bytes): seq<Bytes> {
    TrimmedAll(Raw(s)) + if Rest(s) == [] then [] else [Rest(s)]
  }

  method IndexOf(b: Bytes, c: Byte) returns (i: int)
    ensures i < 0 ==> c !in b
    ensures i >= 0 ==> i < |b| && b[i] == c && c !in b[..i]
  {
    for k := 0 to |b|
      invariant c !in b[..k]
    {
      if b[k] == c { return k; }
      assert b[..k + 1] == b[..k] + [b[k]];
    }
    assert b[..|b|] == b;
    return -1;
  }

  class LogWriter {
    var partial: Bytes
    var out: seq<Bytes>

    /** Written since the last flush, and the lines out by then. */
    ghost var seen: Bytes
    ghost var before: seq<Bytes>

    ghost predicate Valid()
      reads this
    {
      partial == Rest(seen) && out == before + TrimmedAll(Raw(seen))
    }

    constructor ()
      ensures Valid() && seen == [] && before == [] && out == []
    {
      partial, out, seen, before := [], [], [], [];
    }

    /** One write, of any size: the lines out are always those of all that was written. */
    method Write(p: Bytes)
      requires Valid()
      modifies this
      ensures Valid() && seen == old(seen) + p && before == old(before)
    {
      var text := p;
      ghost var all := seen + p;
      hide Raw, Rest, TrimmedAll;
      while true
        invariant Valid() && seen + text == all && before == old(before)
        decreases |text|
      {
        var i := IndexOf(text, LF);
        if i < 0 {
          NoEnd(seen, text);
          partial := partial + text;
          seen := all;
          return;
        }
        var line := partial + text[..i];
        NextLine(seen, text, i);
        TrimmedMore(Raw(seen), line);
        partial := [];
        out := out + [Trimmed(line)];
        seen := seen + text[..i + 1];
        text := text[i + 1..];
      }
    }

    method Flush()
      requires Valid()
      modifies this
      ensures Valid() && seen == [] && before == out
      ensures out == old(before) + LogLines(old(seen))
    {
      if partial != [] {
        out := out + [partial];
        partial := [];
      }
      seen, before := [], out;
    }
  }

  lemma TrimmedMore(lines: seq<Bytes>, line: Bytes)
    ensures TrimmedAll(lines + [line]) == TrimmedAll(lines) + [Trimmed(line)]
  {
  }

  /** Lines may end in LF or in CR LF: the log shows the same. */
  lemma EitherEnd(lines: seq<Bytes>, ends: seq<Bytes>)
    requires |ends| == |lines| && forall i :: 0 <= i < |lines| ==> LF !in lines[i] && EndsIn(ends[i], lines[i])
    ensures LogLines(Glued(ends)) == lines
  {
    hide Trimmed, EndsIn, Raw, Rest, Glued;
    forall i | 0 <= i < |ends| ensures LF !in ends[i] && Trimmed(ends[i]) == lines[i] {
      EndIsCut(ends[i], lines[i]);
    }
    OnlyOneSplit(ends, []);
    assert Glued(ends) + [] == Glued(ends);
  }

  lemma EndIsCut(raw: Bytes, line: Bytes)
    requires EndsIn(raw, line) && LF !in line
    ensures Trimmed(raw) == line && LF !in raw
  {
  }

  ghost predicate EndsIn(raw: Bytes, line: Bytes) {
    raw == line + [CR] || (raw == line && (line == [] || line[|line| - 1] != CR))
  }

  ghost function Joined(chunks: seq<Bytes>): Bytes {
    if chunks == [] then [] else Joined(chunks[..|chunks| - 1]) + chunks[|chunks| - 1]
  }

  /** However a stream is cut into writes, flushing it leaves the lines of the whole stream. */
  method LogAll(chunks: seq<Bytes>) returns (lines: seq<Bytes>)
    ensures lines == LogLines(Joined(chunks))
  {
    hide Raw, Rest, LogLines;
    var w := new LogWriter();
    for i := 0 to |chunks|
      invariant w.Valid() && w.before == [] && w.seen == Joined(chunks[..i]) && fresh(w)
    {
      w.Write(chunks[i]);
      assert chunks[..i + 1][..i] == chunks[..i];
    }
    assert chunks[..|chunks|] == chunks;
    w.Flush();
    lines := w.out;
  }
}
