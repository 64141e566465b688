/** What the decode loop guarantees, proved against the reference meaning
    `Expected`: the output is the valid records in line order up to the
    first halting line; blank lines are inert wherever they sit; silent
    validation errors are dropped; the first halting line ends everything;
    the reported line is the zero-based physical line. */
module PipelineFacts {
  import opened Base
  import opened Fields
  import opened Pipeline
  import JsonValues
  import Text

  // ------------------------------------------------------------ Kept and order

  lemma {:induction false} KeptAppend<R>(a: seq<LineResult<R>>, b: seq<LineResult<R>>)
    ensures Kept(a + b) == Kept(a) + Kept(b)
    decreases |a|
  {
    if |a| > 0 {
      assert (a + b)[1..] == a[1..] + b;
      KeptAppend(a[1..], b);
    } else {
      assert a + b == b;
    }
  }

  /** The output records are exactly the records of the valid lines, one
      for each, in increasing line order. */
  lemma {:induction false} KeptFollowsValidPositions<R>(rs: seq<LineResult<R>>)
    ensures |Kept(rs)| == |ValidPositions(rs)|
    ensures forall i :: 0 <= i < |Kept(rs)| ==> Kept(rs)[i] == rs[ValidPositions(rs)[i]].record
    decreases |rs|
  {
    if |rs| > 0 {
      var last := |rs| - 1;
      var init := rs[..last];
      KeptFollowsValidPositions(init);
      assert rs == init + [rs[last]];
      KeptAppend(init, [rs[last]]);
      assert Kept([rs[last]]) == (if rs[last].Valid? then [rs[last].record] else []);
      var ps := ValidPositions(init);
      forall i | 0 <= i < |ps|
        ensures init[ps[i]] == rs[ps[i]]
      {
      }
    }
  }

  /** Every kept record is the record of some valid line. */
  lemma KeptComesFromValidLines<R>(rs: seq<LineResult<R>>)
    ensures forall x :: x in Kept(rs) ==> exists p :: 0 <= p < |rs| && rs[p] == Valid(x)
  {
    KeptFollowsValidPositions(rs);
    forall x | x in Kept(rs)
      ensures exists p :: 0 <= p < |rs| && rs[p] == Valid(x)
    {
      var i :| 0 <= i < |Kept(rs)| && Kept(rs)[i] == x;
      var p := ValidPositions(rs)[i];
      assert rs[p] == Valid(x);
    }
  }

  // ------------------------------------------------- the loop meets its meaning

  lemma {:induction false} RunOffset<R>(rs: seq<LineResult<R>>, silent: bool, at: nat)
    ensures Run(rs, silent, at) == Offset(Run(rs, silent, 0), at)
    decreases |rs|
  {
    if |rs| > 0 {
      RunOffset(rs[1..], silent, at + 1);
      RunOffset(rs[1..], silent, 1);
    }
  }

  /** The loop produces exactly `Expected`: the valid records before the
      first halting line, that line's zero-based position and its failure;
      or, when no line halts, every valid record. */
  lemma {:induction false} RunMeetsExpected<R>(rs: seq<LineResult<R>>, silent: bool)
    ensures Run(rs, silent, 0) == Expected(rs, silent)
    decreases |rs|
  {
    if |rs| > 0 {
      var tail := rs[1..];
      RunMeetsExpected(tail, silent);
      RunOffset(tail, silent, 1);
      assert rs == [rs[0]] + tail;
      KeptAppend([rs[0]], tail);
      if !Halts(rs[0], silent) {
        match FirstHalt(tail, silent)
        case None =>
        case Some(k) =>
          assert rs[..k + 1] == [rs[0]] + tail[..k];
          KeptAppend([rs[0]], tail[..k]);
      }
    }
  }

  /** A failed run names a real physical line: the zero-based position of
      the first line that halts, counting blank lines; the records already
      yielded are exactly the valid lines before it. */
  lemma FailedAtFirstHalt<R>(rs: seq<LineResult<R>>, silent: bool)
    ensures var o := Run(rs, silent, 0);
      o.Failed? ==>
        && o.line < |rs|
        && Halts(rs[o.line], silent)
        && o.failure == FailureOf(rs[o.line])
        && (forall j :: 0 <= j < o.line ==> !Halts(rs[j], silent))
        && o.records == Kept(rs[..o.line])
    ensures Run(rs, silent, 0).Completed? <==> forall j :: 0 <= j < |rs| ==> !Halts(rs[j], silent)
    ensures Run(rs, silent, 0).Completed? ==> Run(rs, silent, 0).records == Kept(rs)
  {
    RunMeetsExpected(rs, silent);
  }

  // ---------------------------------------------------------------- blank lines

  /** The outcome with line number `p` and every later line number one
      higher: what an extra line inserted at `p` does to a failure report. */
  function ShiftFrom<R>(o: Outcome<R>, p: nat): Outcome<R>
  {
    match o
    case Completed(rs) => Completed(rs)
    case Failed(rs, l, f) => Failed(rs, if l >= p then l + 1 else l, f)
  }

  lemma {:induction false} BlankInertFrom<R>(a: seq<LineResult<R>>, b: seq<LineResult<R>>, silent: bool, at: nat)
    ensures Run(a + [Blank] + b, silent, at) == ShiftFrom(Run(a + b, silent, at), at + |a|)
    decreases |a|
  {
    if |a| == 0 {
      assert a + [Blank] + b == [Blank] + b;
      assert ([Blank] + b)[1..] == b;
      assert a + b == b;
      RunOffset(b, silent, at + 1);
      RunOffset(b, silent, at);
    } else {
      assert (a + [Blank] + b)[0] == a[0];
      assert (a + [Blank] + b)[1..] == a[1..] + [Blank] + b;
      assert (a + b)[0] == a[0];
      assert (a + b)[1..] == a[1..] + b;
      BlankInertFrom(a[1..], b, silent, at + 1);
    }
  }

  /** A blank line is never yielded and never fails, wherever it sits: the
      records and the failure are those of the member without it, and only
      the line number of a failure after it moves by one. */
  lemma BlankLinesInert<R>(a: seq<LineResult<R>>, b: seq<LineResult<R>>, silent: bool)
    ensures Run(a + [Blank] + b, silent, 0) == ShiftFrom(Run(a + b, silent, 0), |a|)
  {
    BlankInertFrom(a, b, silent, 0);
  }

  // ------------------------------------------------------------------- policy

  lemma {:induction false} SilentDropFrom<R>(a: seq<LineResult<R>>, b: seq<LineResult<R>>, e: ValidationError, at: nat)
    ensures Run(a + [Invalid(e)] + b, true, at) == Run(a + [Blank] + b, true, at)
    decreases |a|
  {
    if |a| == 0 {
      assert a + [Invalid(e)] + b == [Invalid(e)] + b;
      assert a + [Blank] + b == [Blank] + b;
      assert ([Invalid(e)] + b)[1..] == b;
      assert ([Blank] + b)[1..] == b;
    } else {
      assert (a + [Invalid(e)] + b)[1..] == a[1..] + [Invalid(e)] + b;
      assert (a + [Blank] + b)[1..] == a[1..] + [Blank] + b;
      SilentDropFrom(a[1..], b, e, at + 1);
    }
  }

  /** With silent validation errors, a line that fails validation is
      dropped exactly as if it were blank, and iteration goes on. */
  lemma SilentDropsInvalid<R>(a: seq<LineResult<R>>, b: seq<LineResult<R>>, e: ValidationError)
    ensures Run(a + [Invalid(e)] + b, true, 0) == Run(a + [Blank] + b, true, 0)
  {
    SilentDropFrom(a, b, e, 0);
  }

  /** With silent validation errors and no other failure, the run completes
      with one record per valid line, in order. */
  lemma SilentCompletes<R>(rs: seq<LineResult<R>>)
    requires forall j :: 0 <= j < |rs| ==> !rs[j].Broken?
    ensures Run(rs, true, 0) == Completed(Kept(rs))
    ensures |Run(rs, true, 0).records| == |ValidPositions(rs)|
  {
    RunMeetsExpected(rs, true);
    KeptFollowsValidPositions(rs);
  }

  /** Without silent validation errors, the first line that is neither
      blank nor valid ends the run at that line, after exactly the valid
      records before it. */
  lemma FailFast<R>(rs: seq<LineResult<R>>, k: nat)
    requires k < |rs| && (rs[k].Invalid? || rs[k].Broken?)
    requires forall j :: 0 <= j < k ==> rs[j].Blank? || rs[j].Valid?
    ensures Run(rs, false, 0) == Failed(Kept(rs[..k]), k, FailureOf(rs[k]))
  {
    RunMeetsExpected(rs, false);
    var h := FirstHalt(rs, false);
    assert Halts(rs[k], false);
    assert h == Some(k);
  }

  /** A line that is not valid UTF-8 always ends the run, whatever the
      silent flag: at that line, or at an earlier halting line. */
  lemma UnexpectedAlwaysHalts<R>(rs: seq<LineResult<R>>, k: nat, silent: bool)
    requires k < |rs| && rs[k].Broken?
    ensures Run(rs, silent, 0).Failed? && Run(rs, silent, 0).line <= k
    ensures (forall j :: 0 <= j < k ==> !rs[j].Broken? && !rs[j].Invalid?) ==>
              Run(rs, silent, 0) == Failed(Kept(rs[..k]), k, UnexpectedFailure(rs[k].cause))
  {
    RunMeetsExpected(rs, silent);
    var h := FirstHalt(rs, silent);
    assert Halts(rs[k], silent);
    assert h.Some? && h.value <= k;
  }

  /** Once the run has failed, no later line is read: appending any lines
      leaves the outcome unchanged. */
  lemma {:induction false} HaltIgnoresRest<R>(rs: seq<LineResult<R>>, more: seq<LineResult<R>>, silent: bool, at: nat)
    requires Run(rs, silent, at).Failed?
    ensures Run(rs + more, silent, at) == Run(rs, silent, at)
    decreases |rs|
  {
    assert |rs| > 0;
    assert (rs + more)[0] == rs[0];
    assert (rs + more)[1..] == rs[1..] + more;
    match rs[0]
    case Blank => HaltIgnoresRest(rs[1..], more, silent, at + 1);
    case Valid(_) => HaltIgnoresRest(rs[1..], more, silent, at + 1);
    case Invalid(_) =>
      if silent {
        HaltIgnoresRest(rs[1..], more, silent, at + 1);
      }
    case Broken(_) =>
  }

  // ----------------------------------------------------------- record mapping

  function MapLine<R, S>(r: LineResult<R>, f: R -> S): LineResult<S>
  {
    match r
    case Blank => Blank
    case Valid(rec) => Valid(f(rec))
    case Invalid(e) => Invalid(e)
    case Broken(c) => Broken(c)
  }

  function MapOutcome<R, S>(o: Outcome<R>, f: R -> S): Outcome<S>
  {
    match o
    case Completed(rs) => Completed(seq(|rs|, i requires 0 <= i < |rs| => f(rs[i])))
    case Failed(rs, l, f') => Failed(seq(|rs|, i requires 0 <= i < |rs| => f(rs[i])), l, f')
  }

  /** Validating into a wider record type only wraps the records: the loop
      takes the same course and fails at the same line. */
  lemma {:induction false} RunMapsRecords<R, S>(rs: seq<LineResult<R>>, f: R -> S, silent: bool, at: nat)
    ensures Run(seq(|rs|, i requires 0 <= i < |rs| => MapLine(rs[i], f)), silent, at)
            == MapOutcome(Run(rs, silent, at), f)
    decreases |rs|
  {
    var ms := seq(|rs|, i requires 0 <= i < |rs| => MapLine(rs[i], f));
    if |rs| > 0 {
      assert ms[1..] == seq(|rs[1..]|, i requires 0 <= i < |rs[1..]| => MapLine(rs[1..][i], f));
      RunMapsRecords(rs[1..], f, silent, at + 1);
      var tail := Run(rs[1..], silent, at + 1);
      if rs[0].Valid? {
        var x := rs[0].record;
        assert Run(rs, silent, at) == Prepend(x, tail);
        match tail
        case Completed(t) =>
          assert seq(|[x] + t|, i requires 0 <= i < |[x] + t| => f(([x] + t)[i]))
                 == [f(x)] + seq(|t|, i requires 0 <= i < |t| => f(t[i]));
        case Failed(t, _, _) =>
          assert seq(|[x] + t|, i requires 0 <= i < |[x] + t| => f(([x] + t)[i]))
                 == [f(x)] + seq(|t|, i requires 0 <= i < |t| => f(t[i]));
      }
    }
  }

  /** One line classified with a validator that wraps another's records is
      the line classified with the other, wrapped. */
  lemma ClassifyMapsLine<R, S>(codec: Codec, v: JsonValues.Object -> Result<R, ValidationError>,
                               w: JsonValues.Object -> Result<S, ValidationError>, f: R -> S,
                               line: seq<Text.byte>)
    requires forall o :: w(o) == v(o).MapValue(f)
    ensures Classify(codec, w, line) == MapLine(Classify(codec, v, line), f)
  {
    match codec.decodeUtf8(line)
    case None =>
    case Some(text) =>
      var t := Text.Strip(text);
      match codec.parseJson(t)
      case None =>
      case Some(j) =>
        if j.JObject? {
          assert w(j.fields) == v(j.fields).MapValue(f);
        }
  }

  /** Classifying with a validator that wraps another's records is
      classifying with the other and wrapping. */
  lemma ClassifyMapsRecords<R, S>(codec: Codec, v: JsonValues.Object -> Result<R, ValidationError>,
                                  w: JsonValues.Object -> Result<S, ValidationError>, f: R -> S,
                                  lines: seq<seq<Text.byte>>)
    requires forall o :: w(o) == v(o).MapValue(f)
    ensures ClassifyAll(codec, w, lines)
            == seq(|lines|, i requires 0 <= i < |lines| => MapLine(ClassifyAll(codec, v, lines)[i], f))
  {
    forall i | 0 <= i < |lines|
      ensures ClassifyAll(codec, w, lines)[i] == MapLine(ClassifyAll(codec, v, lines)[i], f)
    {
      ClassifyMapsLine(codec, v, w, f, lines[i]);
    }
  }
}
