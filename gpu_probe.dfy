/** The parse step of `get_gpu_memory_usage`: the exit status and standard
    output of `nvidia-smi --query-gpu=memory.used,memory.total,memory.free,
    utilization.gpu --format=csv,noheader,nounits` become a sample of four
    integers, or no sample (the empty dictionary) when anything fails. */
module GpuProbe {
  import opened Wrappers
  import opened Text

  datatype GpuStats = GpuStats(memoryUsedMb: int, memoryTotalMb: int, memoryFreeMb: int, gpuUtilization: int)

  const FieldSeparator: string := ", "

  /** `values = stdout.strip().split(', ')` followed by `int(values[0])` ..
      `int(values[3])`; a non-zero exit status, fewer than four fields or a
      field that `int` rejects give `None`. Fields after the fourth are ignored. */
  function ParseGpuStats(returnCode: int, stdout: string): (r: Option<GpuStats>)
    ensures returnCode != 0 ==> r == None
    ensures r.Some? ==>
      var values := Split(Strip(stdout), FieldSeparator);
      && |values| >= 4
      && ParseInt(values[0]) == Some(r.value.memoryUsedMb)
      && ParseInt(values[1]) == Some(r.value.memoryTotalMb)
      && ParseInt(values[2]) == Some(r.value.memoryFreeMb)
      && ParseInt(values[3]) == Some(r.value.gpuUtilization)
    ensures returnCode == 0 ==>
      var values := Split(Strip(stdout), FieldSeparator);
      |values| >= 4
      && ParseInt(values[0]).Some? && ParseInt(values[1]).Some?
      && ParseInt(values[2]).Some? && ParseInt(values[3]).Some?
      ==> r.Some?
  {
    if returnCode != 0 then None
    else
      var values := Split(Strip(stdout), FieldSeparator);
      if |values| < 4 then None
      else
        match (ParseInt(values[0]), ParseInt(values[1]), ParseInt(values[2]), ParseInt(values[3]))
        case (Some(used), Some(total), Some(free), Some(util)) => Some(GpuStats(used, total, free, util))
        case _ => None
  }

  /** The four numbers as `nvidia-smi` prints them for one GPU, without the newline. */
  function Fields(s: GpuStats): seq<string> {
    [IntToDecimal(s.memoryUsedMb), IntToDecimal(s.memoryTotalMb),
     IntToDecimal(s.memoryFreeMb), IntToDecimal(s.gpuUtilization)]
  }

  function Line(s: GpuStats): string {
    Join(Fields(s), FieldSeparator)
  }

  lemma FieldsAreClean(s: GpuStats)
    ensures forall i :: 0 <= i < 4 ==> ',' !in Fields(s)[i]
    ensures forall i :: 0 <= i < 4 ==> |Fields(s)[i]| > 0
    ensures forall i, k :: 0 <= i < 4 && 0 <= k < |Fields(s)[i]| ==> !IsSpace(Fields(s)[i][k])
  {
    DecimalHasNoComma(s.memoryUsedMb);
    DecimalHasNoComma(s.memoryTotalMb);
    DecimalHasNoComma(s.memoryFreeMb);
    DecimalHasNoComma(s.gpuUtilization);
  }

  lemma LineShape(s: GpuStats)
    ensures var f := Fields(s);
      Line(s) == f[0] + FieldSeparator + f[1] + FieldSeparator + f[2] + FieldSeparator + f[3]
  {
    var f := Fields(s);
    var sep := FieldSeparator;
    assert Join(f[3..], sep) == f[3];
    assert Join(f[2..], sep) == f[2] + sep + Join(f[3..], sep);
    assert Join(f[1..], sep) == f[1] + sep + Join(f[2..], sep);
  }

  /** Strip of a printed line plus its newline is the line itself. */
  lemma StripLine(s: GpuStats, tail: string)
    requires AllSpace(tail)
    ensures Strip(Line(s) + tail) == Line(s)
  {
    var f := Fields(s);
    FieldsAreClean(s);
    LineShape(s);
    var l := Line(s);
    assert l[0] == f[0][0];
    assert l[|l| - 1] == f[3][|f[3]| - 1];
    StripPadded("", l, tail);
    assert "" + l + tail == l + tail;
  }

  /** What one GPU's output line parses to: the sample that was printed. */
  lemma {:induction false} ParsePrintedLine(s: GpuStats)
    ensures ParseGpuStats(0, Line(s) + "\n") == Some(s)
  {
    var stdout := Line(s) + "\n";
    StripLine(s, "\n");
    LineSplits(s);
    ParseOfFields(stdout, s);
  }

  /** A printed line splits back into its four numbers. */
  lemma LineSplits(s: GpuStats)
    ensures Split(Line(s), FieldSeparator) == Fields(s)
  {
    FieldsAreClean(s);
    SplitJoin(Fields(s), FieldSeparator);
  }

  /** Output whose fields are the printed numbers parses to that sample. */
  lemma ParseOfFields(stdout: string, s: GpuStats)
    requires Split(Strip(stdout), FieldSeparator) == Fields(s)
    ensures ParseGpuStats(0, stdout) == Some(s)
  {
    ParseIntRoundTrip(s.memoryUsedMb);
    ParseIntRoundTrip(s.memoryTotalMb);
    ParseIntRoundTrip(s.memoryFreeMb);
    ParseIntRoundTrip(s.gpuUtilization);
  }

  /** With two GPUs `nvidia-smi` prints two lines; the newline lands inside
      the fourth field, which `int` rejects, so no sample is taken. */
  lemma TwoGpusGiveNoSample(s1: GpuStats, s2: GpuStats)
    ensures ParseGpuStats(0, Line(s1) + "\n" + Line(s2) + "\n") == None
  {
    var stdout := Line(s1) + "\n" + Line(s2) + "\n";
    TwoLinesStrip(s1, s2);
    TwoLinesSplit(s1, s2);
    MergedFieldRejected(s1, s2);
    var values := Split(Strip(stdout), FieldSeparator);
    assert values == TwoLinePieces(s1, s2);
    assert ParseInt(values[3]) == None;
  }

  function MergedField(s1: GpuStats, s2: GpuStats): string {
    Fields(s1)[3] + "\n" + Fields(s2)[0]
  }

  function TwoLinePieces(s1: GpuStats, s2: GpuStats): seq<string> {
    Fields(s1)[..3] + [MergedField(s1, s2)] + Fields(s2)[1..]
  }

  lemma TwoLinesStrip(s1: GpuStats, s2: GpuStats)
    ensures Strip(Line(s1) + "\n" + Line(s2) + "\n") == Line(s1) + "\n" + Line(s2)
  {
    var f1, f2 := Fields(s1), Fields(s2);
    FieldsAreClean(s1);
    FieldsAreClean(s2);
    LineShape(s1);
    LineShape(s2);
    var text := Line(s1) + "\n" + Line(s2);
    assert text[0] == f1[0][0];
    assert text[|text| - 1] == f2[3][|f2[3]| - 1];
    StripPadded("", text, "\n");
    assert "" + text + "\n" == Line(s1) + "\n" + Line(s2) + "\n";
  }

  lemma TwoLinesSplit(s1: GpuStats, s2: GpuStats)
    ensures Split(Line(s1) + "\n" + Line(s2), FieldSeparator) == TwoLinePieces(s1, s2)
  {
    var f1, f2 := Fields(s1), Fields(s2);
    var parts := TwoLinePieces(s1, s2);
    FieldsAreClean(s1);
    FieldsAreClean(s2);
    assert f1 == f1[..3] + [f1[3]];
    assert f2 == [f2[0]] + f2[1..];
    JoinGlue(f1[..3], f1[3], "\n", f2[0], f2[1..], FieldSeparator);
    assert |parts| == 7;
    forall i | 0 <= i < 7
      ensures ',' !in parts[i]
    {
      if i < 3 {
        assert parts[i] == f1[i];
      } else if i > 3 {
        assert parts[i] == f2[i - 3];
      }
    }
    SplitJoin(parts, FieldSeparator);
  }

  lemma MergedFieldRejected(s1: GpuStats, s2: GpuStats)
    ensures ParseInt(MergedField(s1, s2)) == None
  {
    var f1, f2 := Fields(s1), Fields(s2);
    var mid := MergedField(s1, s2);
    var cut := |f1[3]|;
    assert 0 < cut && mid[0] == f1[3][0] && !IsSpace(mid[0]) by {
      FieldsAreClean(s1);
    }
    assert !IsSpace(mid[|mid| - 1]) by {
      FieldsAreClean(s2);
      assert mid[|mid| - 1] == f2[0][|f2[0]| - 1];
    }
    assert Strip(mid) == mid by {
      StripPadded("", mid, "");
      assert "" + mid + "" == mid;
    }
    assert mid[cut] == '\n';
    ParseIntRejectsInnerJunk(mid, cut);
  }
}
