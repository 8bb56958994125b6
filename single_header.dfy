/**
 * The single-header assembler (singleheader.py). It writes the public header,
 * a fixed banner, an implementation guard, the body of every source file in
 * list order, the closing guard and the license inside a comment. Files are
 * passed in as their text contents.
 */
module SingleHeader {

  /** A full-width rule line of the banner. */
  const Rule: string := " * -----------------------------------------------------------------------------\n"

  /** The banner written between the header and the implementation guard. */
  const Separator: string :=
    "\n/*\n" + Rule + " * ----| IMPLEMENTATION |-------------------------------------------------------\n" + Rule + " */\n"

  /** str.upper() restricted to ASCII: 'a'..'z' become 'A'..'Z'. */
  function UpperChar(c: char): char
  {
    if 'a' <= c <= 'z' then (c as int - 32) as char else c
  }

  function Upper(s: string): (r: string)
    ensures |r| == |s|
  {
    seq(|s|, i requires 0 <= i < |s| => UpperChar(s[i]))
  }

  /** The guard token NAME_IMPLEMENTATION. */
  function Guard(name: string): string
  {
    Upper(name) + "_IMPLEMENTATION"
  }

  // ---------------------------------------------------------------------------
  // Lines of a file, as readlines() returns them: every line keeps its '\n',
  // and a last line without one is kept as it is.

  /** Length of the first line of f, its '\n' included. */
  function LineEnd(f: string): (k: nat)
    ensures k <= |f|
    ensures f != [] ==> 0 < k
  {
    if f == [] then 0
    else if f[0] == '\n' then 1
    else 1 + LineEnd(f[1..])
  }

  function Lines(f: string): seq<string>
    decreases |f|
  {
    if f == [] then [] else [f[..LineEnd(f)]] + Lines(f[LineEnd(f)..])
  }

  /** writelines: the lines written one after the other. */
  function Concat(lines: seq<string>): string
  {
    if lines == [] then [] else lines[0] + Concat(lines[1..])
  }

  /** readlines()[1:]: every line but the first (none of an empty file). */
  function DropFirst(lines: seq<string>): seq<string>
  {
    if lines == [] then [] else lines[1..]
  }

  /** What the assembler copies of a source file. */
  function Body(f: string): string
  {
    Concat(DropFirst(Lines(f)))
  }

  /** One source file's segment: its body and a blank line. */
  function Segment(f: string): string
  {
    Body(f) + "\n\n"
  }

  function Segments(files: seq<string>): string
  {
    if files == [] then [] else Segment(files[0]) + Segments(files[1..])
  }

  function IfdefLine(name: string): string
  {
    "#ifdef " + Guard(name) + "\n"
  }

  function EndifLine(name: string): string
  {
    "#endif /* !" + Guard(name) + " */\n\n"
  }

  function LicenseBlock(license: string): string
  {
    "/*\n" + license + "*/"
  }

  /** The whole generated file. */
  function Assemble(name: string, header: string, sources: seq<string>, license: string): string
  {
    header + Separator + IfdefLine(name) + Segments(sources) + EndifLine(name) + LicenseBlock(license)
  }

  /**
   * createSingleheader: writes the pieces to the output one after the other.
   * The output handle is the returned string.
   */
  method CreateSingleheader(name: string, header: string, sources: seq<string>, license: string)
    returns (out: string)
    ensures out == Assemble(name, header, sources, license)
  {
    out := header;
    out := out + Separator;
    var define := Guard(name);
    out := out + ("#ifdef " + define + "\n");
    ghost var front := out;
    for i := 0 to |sources|
      invariant out == front + Segments(sources[..i])
    {
      out := out + Concat(DropFirst(Lines(sources[i])));
      out := out + "\n\n";
      SegmentWritten(front, sources[..i], sources[i], out);
      assert sources[..i + 1] == sources[..i] + [sources[i]];
    }
    assert sources[..|sources|] == sources;
    out := out + ("#endif /* !" + define + " */\n\n");
    ghost var closed := out;
    out := out + "/*\n";
    out := out + license;
    out := out + "*/";
    TrailerWritten(closed, license, out);
  }

  /** One pass of the loop in CreateSingleheader extends the written segments by one. */
  lemma SegmentWritten(front: string, done: seq<string>, f: string, out: string)
    requires out == front + Segments(done) + Body(f) + "\n\n"
    ensures out == front + Segments(done + [f])
  {
    SegmentsSnoc(done, f);
    Regroup(front, Segments(done), Body(f), "\n\n");
  }

  lemma Regroup(a: string, b: string, c: string, d: string)
    ensures a + b + c + d == a + (b + (c + d))
  {
  }

  /** Appending a file to the list appends its segment. */
  lemma SegmentsSnoc(done: seq<string>, f: string)
    ensures Segments(done + [f]) == Segments(done) + Segment(f)
  {
    SegmentsAppend(done, [f]);
    assert [f][1..] == [];
  }

  /** The three writes of the license, after the closing guard, add the license block. */
  lemma TrailerWritten(closed: string, license: string, out: string)
    requires out == closed + "/*\n" + license + "*/"
    ensures out == closed + LicenseBlock(license)
  {
    var open, close := "/*\n", "*/";
    assert closed + open + license + close == closed + (open + license + close);
  }

  // ---------------------------------------------------------------------------
  // Properties

  /** readlines loses nothing: the lines put back together are the file. */
  lemma {:induction false} LinesRebuild(f: string)
    ensures Concat(Lines(f)) == f
    decreases |f|
  {
    if f != [] {
      var k := LineEnd(f);
      LinesRebuild(f[k..]);
      assert f == f[..k] + f[k..];
    }
  }

  /** The first line ends at the first '\n', or at the end of a file that has none. */
  lemma {:induction false} FirstLineEnds(f: string)
    ensures '\n' !in f ==> LineEnd(f) == |f|
    ensures '\n' in f ==> 0 < LineEnd(f) && f[LineEnd(f) - 1] == '\n' && '\n' !in f[..LineEnd(f) - 1]
  {
    if f != [] && f[0] != '\n' {
      FirstLineEnds(f[1..]);
      assert f == [f[0]] + f[1..];
      if '\n' in f {
        assert f[..LineEnd(f) - 1] == [f[0]] + f[1..][..LineEnd(f[1..]) - 1];
      }
    }
  }

  /**
   * A file's body is everything after its first line terminator; a file
   * without a '\n' contributes nothing (but still gets its blank line).
   */
  lemma BodyAfterFirstLine(f: string)
    ensures '\n' !in f ==> Body(f) == []
    ensures '\n' in f ==>
      var k := LineEnd(f);
      f[k - 1] == '\n' && '\n' !in f[..k - 1] && Body(f) == f[k..]
  {
    FirstLineEnds(f);
    if f != [] {
      var k := LineEnd(f);
      assert Lines(f) == [f[..k]] + Lines(f[k..]);
      assert DropFirst(Lines(f)) == Lines(f[k..]);
      LinesRebuild(f[k..]);
    }
  }

  /** Segments are written in list order, one per entry: no merging, no deduplication. */
  lemma {:induction false} SegmentsAppend(a: seq<string>, b: seq<string>)
    ensures Segments(a + b) == Segments(a) + Segments(b)
  {
    if a == [] {
      assert a + b == b;
    } else {
      assert (a + b)[0] == a[0];
      assert (a + b)[1..] == a[1..] + b;
      SegmentsAppend(a[1..], b);
    }
  }

  /** A file listed twice is copied twice. */
  lemma DuplicateCopiedTwice(f: string)
    ensures Segments([f, f]) == Segment(f) + Segment(f)
  {
    SegmentsAppend([f], [f]);
    assert [f, f] == [f] + [f];
  }

  /** The output starts with the header verbatim, immediately followed by the banner. */
  lemma StartsWithHeader(name: string, header: string, sources: seq<string>, license: string)
    ensures var out := Assemble(name, header, sources, license);
      |header| + |Separator| <= |out| && out[..|header| + |Separator|] == header + Separator
  {
    var out := Assemble(name, header, sources, license);
    var rest := IfdefLine(name) + Segments(sources) + EndifLine(name) + LicenseBlock(license);
    assert out == (header + Separator) + rest;
  }

  /** The banner opens and closes a C comment. */
  lemma SeparatorIsComment()
    ensures Separator[..3] == "\n/*"
    ensures Separator[|Separator| - 4..] == " */\n"
  {
  }

  /** The guard token is upper case, and names that differ only in case give the same token. */
  lemma {:induction false} GuardUpperCase(name: string, other: string)
    ensures forall c :: c in Guard(name) ==> !('a' <= c <= 'z')
    ensures |name| == |other| && (forall i :: 0 <= i < |name| ==> UpperChar(name[i]) == UpperChar(other[i]))
      ==> Guard(name) == Guard(other)
  {
    forall c | c in Guard(name) ensures !('a' <= c <= 'z') {
      var i :| 0 <= i < |Guard(name)| && Guard(name)[i] == c;
      if i >= |name| {
        assert c in "_IMPLEMENTATION";
      }
    }
  }

  /** With no source files, nothing lies between the two guard lines. */
  lemma EmptySourceList(name: string, header: string, license: string)
    ensures Assemble(name, header, [], license)
      == header + Separator + "#ifdef " + Guard(name) + "\n" + "#endif /* !" + Guard(name) + " */\n\n" + LicenseBlock(license)
  {
  }

  /** The output ends with the license inside "/*\n" … "*/", with no newline after it. */
  lemma EndsWithLicense(name: string, header: string, sources: seq<string>, license: string)
    ensures var out := Assemble(name, header, sources, license);
      var n := |out|;
      |license| + 5 <= n &&
      out[n - 2..] == "*/" &&
      out[n - 2 - |license|..n - 2] == license &&
      out[n - 5 - |license|..n - 2 - |license|] == "/*\n"
  {
    var out := Assemble(name, header, sources, license);
    var front := header + Separator + IfdefLine(name) + Segments(sources) + EndifLine(name);
    assert out == front + "/*\n" + license + "*/";
  }

  /**
   * The implementation section can be cut back out of the output knowing only
   * the header, the name and the license: it is exactly the source segments.
   */
  lemma SectionRecovered(name: string, header: string, sources: seq<string>, license: string)
    ensures var out := Assemble(name, header, sources, license);
      var start := |header| + |Separator| + |IfdefLine(name)|;
      var tail := |EndifLine(name)| + |LicenseBlock(license)|;
      start + tail <= |out| && out[start..|out| - tail] == Segments(sources)
  {
    var out := Assemble(name, header, sources, license);
    var front := header + Separator + IfdefLine(name);
    var back := EndifLine(name) + LicenseBlock(license);
    assert out == front + Segments(sources) + back;
  }
}
