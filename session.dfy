/**
 * One store_png call: rb_store_png (png_ext.c:92-161) and store_png_blocking
 * (png_ext.c:67-87).
 *
 * The specification `Run` describes the call as a linear schedule of eleven
 * libpng calls. The first call that fails decides the outcome: the recovery point
 * armed for it names the exception, the error string holds every diagnostic
 * reported up to and including that call, and some paths release the libpng
 * structures first. When no call fails, the output buffer is returned after
 * png_destroy_write_struct. The methods below follow the C code step by step and
 * are proved to produce exactly what `Run` describes.
 */
module Session {
  import opened Words
  import opened Wrappers
  import opened Diagnostics
  import opened Output
  import opened Failures
  import opened Validation
  import opened Rows
  import opened Libpng

  /** A scheduled libpng call and its effect. */
  datatype Step = Step(call: LibCall, effect: Effect)

  /** The IHDR fields of lines 133-135: a non-interlaced grayscale image with default methods. */
  function Ihdr(w: u32, h: u32, d: u32): Header
  {
    Header(w, h, d, ColorTypeGray, InterlaceNone, CompressionTypeDefault, FilterTypeDefault)
  }

  /**
   * Every libpng call of a store_png call, in order:
   *   0 png_create_write_struct   (117)   6 png_write_info     (140)
   *   1 png_create_info_struct    (121)   7 png_set_swap       (81)
   *   2 png_set_write_fn          (131)   8 png_write_image    (82)
   *   3 png_set_IHDR              (133)   9 png_write_end      (84)
   *   4 png_set_filter            (137)  10 png_destroy_write_struct (159)
   *   5 png_set_compression_level (138)
   */
  function Schedule(w: u32, h: u32, d: u32, lib: Behaviour): (s: seq<Step>)
    ensures |s| == 11
    ensures s[0].call == CreateWriteStruct && s[10].call == DestroyWriteStruct(true)
  {
    [ Step(CreateWriteStruct, Quiet(lib.createWrite)),
      Step(CreateInfoStruct, Quiet(lib.createInfo)),
      Step(SetWriteFn, Quiet(lib.setWriteFn)),
      Step(SetIhdr(Ihdr(w, h, d)), Quiet(lib.setIhdr)),
      Step(SetFilter(0, FilterSub), Quiet(lib.setFilter)),
      Step(SetCompressionLevel(BestSpeed), Quiet(lib.setCompressionLevel)),
      Step(WriteInfo, lib.writeInfo),
      Step(SetSwap, Quiet(lib.setSwap)),
      Step(WriteImage(RowOffsets(0, h, Span(w, d))), lib.writeImage),
      Step(WriteEnd, lib.writeEnd),
      Step(DestroyWriteStruct(true), Quiet(lib.destroy)) ]
  }

  /** s is the schedule, entry by entry (used in place of the literal in the step-by-step proofs). */
  ghost predicate Scheduled(s: seq<Step>, w: u32, h: u32, d: u32, lib: Behaviour)
  {
    && |s| == 11
    && s[0] == Step(CreateWriteStruct, Quiet(lib.createWrite))
    && s[1] == Step(CreateInfoStruct, Quiet(lib.createInfo))
    && SetupScheduled(s, w, h, d, lib)
    && StreamScheduled(s, w, h, d, lib)
  }

  /** Steps 2-6 of the schedule: lines 131-140. */
  ghost predicate SetupScheduled(s: seq<Step>, w: u32, h: u32, d: u32, lib: Behaviour)
  {
    && |s| == 11
    && s[2] == Step(SetWriteFn, Quiet(lib.setWriteFn))
    && s[3] == Step(SetIhdr(Ihdr(w, h, d)), Quiet(lib.setIhdr))
    && s[4] == Step(SetFilter(0, FilterSub), Quiet(lib.setFilter))
    && s[5] == Step(SetCompressionLevel(BestSpeed), Quiet(lib.setCompressionLevel))
    && s[6] == Step(WriteInfo, lib.writeInfo)
  }

  /** Steps 7-10 of the schedule: lines 81-84 and 159. */
  ghost predicate StreamScheduled(s: seq<Step>, w: u32, h: u32, d: u32, lib: Behaviour)
  {
    && |s| == 11
    && s[7] == Step(SetSwap, Quiet(lib.setSwap))
    && s[8] == Step(WriteImage(RowOffsets(0, h, Span(w, d))), lib.writeImage)
    && s[9] == Step(WriteEnd, lib.writeEnd)
    && s[10] == Step(DestroyWriteStruct(true), Quiet(lib.destroy))
  }

  lemma ScheduleIsScheduled(w: u32, h: u32, d: u32, lib: Behaviour)
    ensures Scheduled(Schedule(w, h, d, lib), w, h, d, lib)
  {
  }

  function CallsOf(s: seq<Step>): seq<LibCall>
  {
    if s == [] then [] else CallsOf(s[..|s| - 1]) + [s[|s| - 1].call]
  }

  function DiagnosticsOf(s: seq<Step>): seq<Diagnostic>
  {
    if s == [] then [] else DiagnosticsOf(s[..|s| - 1]) + s[|s| - 1].effect.diagnostics
  }

  function ChunksOf(s: seq<Step>): seq<Chunk>
  {
    if s == [] then [] else ChunksOf(s[..|s| - 1]) + s[|s| - 1].effect.chunks
  }

  /** The index of the first failing step, or |s| when none fails. */
  function FirstFailure(s: seq<Step>): (k: nat)
    ensures k <= |s|
    ensures k < |s| ==> s[k].effect.fails
    ensures forall i :: 0 <= i < k ==> !s[i].effect.fails
  {
    if s == [] then 0 else if s[0].effect.fails then 0 else 1 + FirstFailure(s[1..])
  }

  /** The exception raised when step k fails, carrying the error string `text`. */
  function Raised(k: nat, text: string): (e: EncodeError)
    ensures ClassOf(e) == StandardError && e.text == text
    ensures e.WriteFailed? <==> 7 <= k <= 9
  {
    if k == 0 then WriterInitFailed(text)       // line 118
    else if k == 1 then InfoInitFailed(text)    // line 123
    else if k <= 6 then LibpngError(text)       // recovery point of line 126
    else if k <= 9 then WriteFailed(text)       // recovery point of line 74, raised at 152
    else LibpngError(text)                      // recovery point of line 155
  }

  /** The structures released before raising when step k fails. */
  function Cleanup(k: nat): (c: seq<LibCall>)
    ensures |c| <= 1
    ensures c != [] <==> 1 <= k <= 6
    ensures forall x <- c :: x == DestroyWriteStruct(k != 1)
  {
    if k == 1 then [DestroyWriteStruct(false)]     // line 122
    else if 2 <= k <= 6 then [DestroyWriteStruct(true)]  // line 127
    else []
  }

  /** What one store_png call does: the libpng calls it makes, then what it returns or raises. */
  datatype Trace = Trace(calls: seq<LibCall>, result: Result<seq<byte>, EncodeError>)

  /** What running the steps of s does: stop at the first failing step, or return every chunk written. */
  function Perform(s: seq<Step>): (t: Trace)
    ensures t.result.Success? <==> FirstFailure(s) == |s|
    ensures t.result.Failure? ==> ClassOf(t.result.error) == StandardError
    ensures s != [] ==> t.calls != []
  {
    var k := FirstFailure(s);
    if k == |s| then Trace(CallsOf(s), Success(Concat(ChunksOf(s))))
    else Trace(CallsOf(s[..k + 1]) + Cleanup(k), Failure(Raised(k, Render(DiagnosticsOf(s[..k + 1])))))
  }

  function Run(w: u32, h: u32, d: u32, data: seq<byte>, lib: Behaviour): (t: Trace)
    ensures Validate(w, h, d, |data|).Failure? <==> t.calls == []
    ensures Validate(w, h, d, |data|).Failure? <==> t.result.Failure? && ClassOf(t.result.error) == ArgumentError
  {
    match Validate(w, h, d, |data|)
    case Failure(e) => Trace([], Failure(e))
    case Success(_) => Perform(Schedule(w, h, d, lib))
  }

  // ---------------------------------------------------------------------------
  // Properties of the specification

  lemma {:induction false} CallsOfAt(s: seq<Step>)
    ensures |CallsOf(s)| == |s|
    ensures forall i :: 0 <= i < |s| ==> CallsOf(s)[i] == s[i].call
  {
    if s != [] {
      CallsOfAt(s[..|s| - 1]);
    }
  }

  /** A depth other than 8 or 16 is rejected before any buffer or libpng structure exists. */
  lemma RejectsUnsupportedDepth(w: u32, h: u32, d: u32, data: seq<byte>, lib: Behaviour)
    requires !DepthSupported(d)
    ensures Run(w, h, d, data, lib) == Trace([], Failure(InvalidDepth(d)))
  {
  }

  /** Data shorter than the 32-bit product w*h*(d/8) is rejected before any allocation. */
  lemma RejectsShortData(w: u32, h: u32, d: u32, data: seq<byte>, lib: Behaviour)
    requires DepthSupported(d) && |data| < RequiredBytes(w, h, d)
    ensures Run(w, h, d, data, lib) == Trace([], Failure(DataTooShort(RequiredBytes(w, h, d), |data|)))
  {
  }

  /** No libpng call fails. */
  predicate NoCallFails(lib: Behaviour)
  {
    && !lib.createWrite.fails && !lib.createInfo.fails && !lib.setWriteFn.fails
    && !lib.setIhdr.fails && !lib.setFilter.fails && !lib.setCompressionLevel.fails
    && !lib.writeInfo.fails && !lib.setSwap.fails && !lib.writeImage.fails
    && !lib.writeEnd.fails && !lib.destroy.fails
  }

  lemma NoFailureInSchedule(w: u32, h: u32, d: u32, lib: Behaviour)
    ensures NoCallFails(lib) <==> FirstFailure(Schedule(w, h, d, lib)) == 11
  {
    var s := Schedule(w, h, d, lib);
    if NoCallFails(lib) {
      assert forall i :: 0 <= i < 11 ==> !s[i].effect.fails;
    }
    if FirstFailure(s) == 11 {
      assert !s[0].effect.fails && !s[1].effect.fails && !s[2].effect.fails && !s[3].effect.fails;
      assert !s[4].effect.fails && !s[5].effect.fails && !s[6].effect.fails && !s[7].effect.fails;
      assert !s[8].effect.fails && !s[9].effect.fails && !s[10].effect.fails;
    }
  }

  /** The call returns a value exactly when validation passes and no libpng call fails. */
  lemma SucceedsIffNoCallFails(w: u32, h: u32, d: u32, data: seq<byte>, lib: Behaviour)
    ensures Run(w, h, d, data, lib).result.Success? <==>
      Validate(w, h, d, |data|).Success? && NoCallFails(lib)
  {
    NoFailureInSchedule(w, h, d, lib);
  }

  /**
   * On success the result is every chunk libpng wrote, in order (the header, the
   * rows, the trailer), and it is returned only after png_destroy_write_struct.
   */
  lemma {:induction false} SuccessReturnsOutputAfterDestroy(w: u32, h: u32, d: u32, data: seq<byte>, lib: Behaviour)
    requires Run(w, h, d, data, lib).result.Success?
    ensures Run(w, h, d, data, lib).result.value ==
      Concat(lib.writeInfo.chunks) + Concat(lib.writeImage.chunks) + Concat(lib.writeEnd.chunks)
    ensures Run(w, h, d, data, lib).calls == CallsOf(Schedule(w, h, d, lib))
    ensures |Run(w, h, d, data, lib).calls| == 11
    ensures Run(w, h, d, data, lib).calls[10] == DestroyWriteStruct(true)
  {
    var s := Schedule(w, h, d, lib);
    ScheduleIsScheduled(w, h, d, lib);
    SucceedsIffNoCallFails(w, h, d, data, lib);
    NoFailureInSchedule(w, h, d, lib);
    assert Run(w, h, d, data, lib) == Trace(CallsOf(s), Success(Concat(ChunksOf(s))));
    CallsOfAt(s);
    ScheduleChunks(s, w, h, d, lib);
    ConcatAppend(lib.writeInfo.chunks, lib.writeImage.chunks);
    ConcatAppend(lib.writeInfo.chunks + lib.writeImage.chunks, lib.writeEnd.chunks);
  }

  /** Only png_write_info, png_write_image and png_write_end write chunks, in that order. */
  lemma ScheduleChunks(s: seq<Step>, w: u32, h: u32, d: u32, lib: Behaviour)
    requires Scheduled(s, w, h, d, lib)
    ensures ChunksOf(s) == lib.writeInfo.chunks + lib.writeImage.chunks + lib.writeEnd.chunks
  {
    assert ChunksOf(s[..6]) == [] by {
      assert s[..1][..0] == [];
      assert ChunksOf(s[..1]) == [];
      assert s[..2][..1] == s[..1];
      assert ChunksOf(s[..2]) == [];
      assert s[..3][..2] == s[..2];
      assert ChunksOf(s[..3]) == [];
      assert s[..4][..3] == s[..3];
      assert ChunksOf(s[..4]) == [];
      assert s[..5][..4] == s[..4];
      assert ChunksOf(s[..5]) == [];
      assert s[..6][..5] == s[..5];
    }
    assert s[..7][..6] == s[..6];
    assert ChunksOf(s[..7]) == lib.writeInfo.chunks;
    assert s[..8][..7] == s[..7];
    assert ChunksOf(s[..8]) == lib.writeInfo.chunks;
    assert s[..9][..8] == s[..8];
    assert ChunksOf(s[..9]) == lib.writeInfo.chunks + lib.writeImage.chunks;
    assert s[..10][..9] == s[..9];
    assert s[..10] == s[..|s| - 1];
    assert ChunksOf(s[..10]) == lib.writeInfo.chunks + lib.writeImage.chunks + lib.writeEnd.chunks;
  }

  /**
   * A libpng failure raises a StandardError carrying the error string: every
   * diagnostic reported up to the failing call, joined in order.
   */
  lemma FailureCarriesErrorText(w: u32, h: u32, d: u32, data: seq<byte>, lib: Behaviour)
    requires Validate(w, h, d, |data|).Success? && !NoCallFails(lib)
    ensures Run(w, h, d, data, lib).result.Failure?
    ensures var s := Schedule(w, h, d, lib);
      var k := FirstFailure(s);
      var e := Run(w, h, d, data, lib).result.error;
      && k < |s| && s[k].effect.fails
      && ClassOf(e) == StandardError
      && e.text == Joined(DiagnosticsOf(s[..k + 1]))
  {
    var s := Schedule(w, h, d, lib);
    SucceedsIffNoCallFails(w, h, d, data, lib);
    var k := FirstFailure(s);
    assert k < |s|;
    var text := Render(DiagnosticsOf(s[..k + 1]));
    assert Run(w, h, d, data, lib).result.error == Raised(k, text);
    RenderIsJoined(DiagnosticsOf(s[..k + 1]));
  }

  /** When png_create_write_struct fails nothing else is called (line 118). */
  lemma WriterFailureCallsNothingElse(w: u32, h: u32, d: u32, data: seq<byte>, lib: Behaviour)
    requires Validate(w, h, d, |data|).Success? && lib.createWrite.fails
    ensures Run(w, h, d, data, lib) ==
      Trace([CreateWriteStruct], Failure(WriterInitFailed(Joined(lib.createWrite.diagnostics))))
  {
    var s := Schedule(w, h, d, lib);
    assert FirstFailure(s) == 0;
    assert s[..1][..0] == [];
    assert CallsOf(s[..1]) == [CreateWriteStruct];
    assert DiagnosticsOf(s[..1]) == lib.createWrite.diagnostics;
    RenderIsJoined(lib.createWrite.diagnostics);
  }

  /** When png_create_info_struct fails the write structure is destroyed first (lines 122-123). */
  lemma InfoFailureDestroysWriteStruct(w: u32, h: u32, d: u32, data: seq<byte>, lib: Behaviour)
    requires Validate(w, h, d, |data|).Success? && !lib.createWrite.fails && lib.createInfo.fails
    ensures Run(w, h, d, data, lib) ==
      Trace([CreateWriteStruct, CreateInfoStruct, DestroyWriteStruct(false)],
            Failure(InfoInitFailed(Joined(lib.createWrite.diagnostics + lib.createInfo.diagnostics))))
  {
    var s := Schedule(w, h, d, lib);
    assert FirstFailure(s[1..]) == 0;
    assert FirstFailure(s) == 1;
    assert s[..2][..1] == s[..1];
    assert s[..1][..0] == [];
    assert CallsOf(s[..1]) == [CreateWriteStruct];
    assert DiagnosticsOf(s[..1]) == lib.createWrite.diagnostics;
    assert CallsOf(s[..2]) == [CreateWriteStruct, CreateInfoStruct];
    assert DiagnosticsOf(s[..2]) == lib.createWrite.diagnostics + lib.createInfo.diagnostics;
    RenderIsJoined(lib.createWrite.diagnostics + lib.createInfo.diagnostics);
  }

  /** The parameters of lines 133-138 and the row pointers of lines 70-80, for whichever call c is. */
  predicate AsRequested(c: LibCall, w: u32, h: u32, d: u32)
  {
    && (c.SetIhdr? ==> c.header == Ihdr(w, h, d))
    && (c.SetFilter? ==> c == SetFilter(0, FilterSub))
    && (c.SetCompressionLevel? ==> c.level == BestSpeed)
    && (c.WriteImage? ==> c.rows == RowOffsets(0, h, Span(w, d)))
  }

  lemma ScheduleAsRequested(s: seq<Step>, w: u32, h: u32, d: u32, lib: Behaviour)
    requires Scheduled(s, w, h, d, lib)
    ensures forall i :: 0 <= i < |s| ==> AsRequested(s[i].call, w, h, d)
  {
    forall i | 0 <= i < |s| ensures AsRequested(s[i].call, w, h, d) {
      assert i == 0 || i == 1 || i == 2 || i == 3 || i == 4 || i == 5 || i == 6 || i == 7 || i == 8 || i == 9 || i == 10;
    }
  }

  /** The calls of the first n steps, for n up to 10: png_destroy_write_struct is not among them. */
  lemma EarlyCallsKeepStructures(s: seq<Step>, w: u32, h: u32, d: u32, lib: Behaviour, n: nat)
    requires Scheduled(s, w, h, d, lib) && n <= 10
    ensures forall c <- CallsOf(s[..n]) :: !c.DestroyWriteStruct?
  {
    CallsOfAt(s[..n]);
    forall c <- CallsOf(s[..n]) ensures !c.DestroyWriteStruct? {
      var i :| 0 <= i < n && CallsOf(s[..n])[i] == c;
      assert c == s[i].call;
      assert i == 0 || i == 1 || i == 2 || i == 3 || i == 4 || i == 5 || i == 6 || i == 7 || i == 8 || i == 9;
    }
  }

  /** Every call of a prefix of s is one of the calls of s. */
  lemma PrefixCallsAsRequested(s: seq<Step>, w: u32, h: u32, d: u32, n: nat)
    requires n <= |s| && forall i :: 0 <= i < |s| ==> AsRequested(s[i].call, w, h, d)
    ensures forall c <- CallsOf(s[..n]) :: AsRequested(c, w, h, d)
  {
    CallsOfAt(s[..n]);
    forall c <- CallsOf(s[..n]) ensures AsRequested(c, w, h, d) {
      var i :| 0 <= i < n && CallsOf(s[..n])[i] == c;
      assert c == s[i].call;
    }
  }

  /** Every request made of libpng carries the parameters rb_store_png and store_png_blocking set. */
  lemma RequestsAsSpecified(w: u32, h: u32, d: u32, data: seq<byte>, lib: Behaviour)
    ensures forall c <- Run(w, h, d, data, lib).calls :: AsRequested(c, w, h, d)
  {
    if Validate(w, h, d, |data|).Success? {
      var s := Schedule(w, h, d, lib);
      ScheduleIsScheduled(w, h, d, lib);
      ScheduleAsRequested(s, w, h, d, lib);
      var k := FirstFailure(s);
      if k == |s| {
        assert s[..|s|] == s;
        PrefixCallsAsRequested(s, w, h, d, |s|);
      } else {
        PrefixCallsAsRequested(s, w, h, d, k + 1);
        assert forall c <- Cleanup(k) :: AsRequested(c, w, h, d);
      }
    }
  }

  /**
   * When the 32-bit product w*h*(d/8) does not wrap, every row handed to
   * png_write_image lies inside the caller's data.
   */
  lemma WriteImageRowsInBounds(w: u32, h: u32, d: u32, data: seq<byte>, lib: Behaviour)
    requires w * h * (d / 8) < U32Limit
    ensures forall c <- Run(w, h, d, data, lib).calls :: c.WriteImage? ==>
      |c.rows| == h && forall i :: 0 <= i < |c.rows| ==> c.rows[i] + RowBytes(w, d) <= |data|
  {
    RequestsAsSpecified(w, h, d, data, lib);
    assert forall c <- Run(w, h, d, data, lib).calls :: AsRequested(c, w, h, d);
    if Validate(w, h, d, |data|).Success? {
      AcceptedRowsInBounds(w, h, d, |data|);
    }
  }

  /**
   * A failure inside store_png_blocking (line 152) raises without releasing the
   * libpng structures: png_destroy_write_struct is never called.
   */
  lemma StreamingFailureSkipsDestroy(w: u32, h: u32, d: u32, data: seq<byte>, lib: Behaviour)
    requires Validate(w, h, d, |data|).Success?
    requires 7 <= FirstFailure(Schedule(w, h, d, lib)) <= 9
    ensures Run(w, h, d, data, lib).result.Failure?
    ensures Run(w, h, d, data, lib).result.error.WriteFailed?
    ensures forall c <- Run(w, h, d, data, lib).calls :: !c.DestroyWriteStruct?
  {
    var s := Schedule(w, h, d, lib);
    ScheduleIsScheduled(w, h, d, lib);
    var k := FirstFailure(s);
    assert Cleanup(k) == [] && CallsOf(s[..k + 1]) + [] == CallsOf(s[..k + 1]);
    EarlyCallsKeepStructures(s, w, h, d, lib, k + 1);
  }

  /**
   * The exception raised when step k fails, as the C code builds it: errstr is
   * what `&errstr` (line 117) pointed at, the callbacks deliver `ds` to it, and the
   * message then reads RSTRING_PTR(errstr). None when either reads an
   * indeterminate errstr.
   */
  function RaisedFrom(k: nat, e: ErrStr, ds: seq<Diagnostic>): (r: Option<EncodeError>)
    ensures e == DeclaredErrStr ==> r == None
    ensures e == InitialisedErrStr ==> r == Some(Raised(k, Joined(ds)))
  {
    InitialisedDeliveryIsDefined(ds);
    match DeliverAll(e, ds)
    case Some(Holds(t)) => Some(Raised(k, t))
    case _ => None
  }

  /**
   * As written (errstr declared at line 95 and never assigned), every libpng
   * failure is undefined: the callbacks read errstr when diagnostics arrived, and
   * the raise reads it even when none did.
   */
  lemma AsWrittenFailureIsUndefined(w: u32, h: u32, d: u32, data: seq<byte>, lib: Behaviour)
    requires Validate(w, h, d, |data|).Success? && !NoCallFails(lib)
    ensures var s := Schedule(w, h, d, lib); var k := FirstFailure(s);
      k < |s| && RaisedFrom(k, DeclaredErrStr, DiagnosticsOf(s[..k + 1])) == None
  {
    var s := Schedule(w, h, d, lib);
    NoFailureInSchedule(w, h, d, lib);
    var ds := DiagnosticsOf(s[..FirstFailure(s) + 1]);
    if ds != [] {
      AsWrittenDiagnosticIsUndefined(ds);
    }
  }

  /** With errstr initialised to "", the same failure raises exactly the exception of `Run`. */
  lemma InitialisedFailureIsRaised(w: u32, h: u32, d: u32, data: seq<byte>, lib: Behaviour)
    requires Validate(w, h, d, |data|).Success? && !NoCallFails(lib)
    ensures var s := Schedule(w, h, d, lib); var k := FirstFailure(s);
      k < |s| && RaisedFrom(k, InitialisedErrStr, DiagnosticsOf(s[..k + 1])) == Some(Run(w, h, d, data, lib).result.error)
  {
    var s := Schedule(w, h, d, lib);
    NoFailureInSchedule(w, h, d, lib);
    var ds := DiagnosticsOf(s[..FirstFailure(s) + 1]);
    InitialisedDeliveryIsDefined(ds);
    RenderIsJoined(ds);
  }

  // ---------------------------------------------------------------------------
  // The C code, step by step

  /** The observable state after the first n steps of s: the libpng log, the diagnostics, the chunks. */
  ghost predicate Mirrors(s: seq<Step>, n: nat, calls: seq<LibCall>, reports: seq<Diagnostic>, chunks: seq<Chunk>)
  {
    && n <= |s|
    && calls == CallsOf(s[..n])
    && reports == DiagnosticsOf(s[..n])
    && chunks == ChunksOf(s[..n])
  }

  ghost predicate NoFailureBefore(s: seq<Step>, n: nat)
  {
    forall i :: 0 <= i < n && i < |s| ==> !s[i].effect.fails
  }

  /** Performing step n extends the mirrored state by that step's call, diagnostics and chunks. */
  lemma Advance(s: seq<Step>, n: nat, calls: seq<LibCall>, reports: seq<Diagnostic>, chunks: seq<Chunk>)
    requires n < |s| && Mirrors(s, n, calls, reports, chunks)
    ensures Mirrors(s, n + 1, calls + [s[n].call], reports + s[n].effect.diagnostics, chunks + s[n].effect.chunks)
  {
    assert s[..n + 1][..n] == s[..n];
  }

  lemma StopsAt(s: seq<Step>, n: nat)
    requires n < |s| && NoFailureBefore(s, n) && s[n].effect.fails
    ensures FirstFailure(s) == n
  {
  }

  /** The objects after steps 0..n-1 of s all succeeded, with the write function installed. */
  ghost predicate Reached(png: PngStruct, outbuf: OutputBuffer, s: seq<Step>, n: nat)
    reads png, png.errorPtr, outbuf
  {
    && png.ioPtr == outbuf && png.Valid()
    && Mirrors(s, n, png.calls, png.errorPtr.reports, outbuf.chunks)
    && NoFailureBefore(s, n)
  }

  /** The objects after step n of s failed, all earlier steps having succeeded. */
  ghost predicate Stopped(png: PngStruct, outbuf: OutputBuffer, s: seq<Step>, n: nat)
    reads png, png.errorPtr, outbuf
  {
    && png.ioPtr == outbuf && png.Valid()
    && n < |s| && FirstFailure(s) == n
    && Mirrors(s, n + 1, png.calls, png.errorPtr.reports, outbuf.chunks)
  }

  /**
   * Step n of the schedule once the write function is installed: the libpng call
   * runs its effect, and a failure is a jump to the armed recovery point.
   */
  method Guarded(png: PngStruct, outbuf: OutputBuffer, ghost s: seq<Step>, ghost n: nat, c: LibCall, e: Effect)
    returns (ok: bool)
    requires n < |s| && s[n] == Step(c, e)
    requires Reached(png, outbuf, s, n)
    modifies png`calls, png.errorPtr, outbuf
    ensures ok ==> Reached(png, outbuf, s, n + 1)
    ensures !ok ==> Stopped(png, outbuf, s, n)
  {
    ghost var c0, r0, k0 := png.calls, png.errorPtr.reports, outbuf.chunks;
    ok := png.Invoke(c, e);
    Advance(s, n, c0, r0, k0);
    if !ok {
      StopsAt(s, n);
    }
  }

  /** Line 131, under the recovery point of line 126: install write_func and flush_func on the output buffer. */
  method InstallWriteFn(png: PngStruct, outbuf: OutputBuffer, ghost s: seq<Step>, o: Outcome) returns (ok: bool)
    requires 2 < |s| && s[2] == Step(SetWriteFn, Quiet(o))
    requires png.Valid() && png.ioPtr == null && outbuf.Valid()
    requires Mirrors(s, 2, png.calls, png.errorPtr.reports, outbuf.chunks) && NoFailureBefore(s, 2)
    modifies png, png.errorPtr
    ensures ok ==> Reached(png, outbuf, s, 3)
    ensures !ok ==> Stopped(png, outbuf, s, 2)
  {
    ghost var c, r, k := png.calls, png.errorPtr.reports, outbuf.chunks;
    ok := png.PngSetWriteFn(outbuf, o);
    Advance(s, 2, c, r, k);
    if !ok {
      StopsAt(s, 2);
    }
  }

  /** Lines 133-138: the header fields, the SUB filter and the fastest zlib level. */
  method SetParameters(png: PngStruct, outbuf: OutputBuffer, w: u32, h: u32, d: u32, lib: Behaviour,
                       ghost s: seq<Step>) returns (ok: bool, ghost n: nat)
    requires SetupScheduled(s, w, h, d, lib)
    requires Reached(png, outbuf, s, 3)
    modifies png`calls, png.errorPtr, outbuf
    ensures ok ==> Reached(png, outbuf, s, 6)
    ensures !ok ==> 3 <= n <= 5 && Stopped(png, outbuf, s, n)
  {
    n := 3;
    ok := Guarded(png, outbuf, s, 3, SetIhdr(Ihdr(w, h, d)), Quiet(lib.setIhdr));
    if !ok {
      return;
    }
    n := 4;
    ok := Guarded(png, outbuf, s, 4, SetFilter(0, FilterSub), Quiet(lib.setFilter));
    if !ok {
      return;
    }
    n := 5;
    ok := Guarded(png, outbuf, s, 5, SetCompressionLevel(BestSpeed), Quiet(lib.setCompressionLevel));
  }

  /**
   * Lines 131-140, under the recovery point of line 126: install the write
   * function, set the header, the filter and the compression level, and write
   * the PNG header. Stops at the first libpng call that fails.
   */
  method Configure(png: PngStruct, outbuf: OutputBuffer, w: u32, h: u32, d: u32, lib: Behaviour,
                   ghost s: seq<Step>) returns (ok: bool, ghost n: nat)
    requires SetupScheduled(s, w, h, d, lib)
    requires png.Valid() && png.ioPtr == null && outbuf.Valid()
    requires Mirrors(s, 2, png.calls, png.errorPtr.reports, outbuf.chunks) && NoFailureBefore(s, 2)
    modifies png, png.errorPtr, outbuf
    ensures ok ==> Reached(png, outbuf, s, 7)
    ensures !ok ==> 2 <= n <= 6 && Stopped(png, outbuf, s, n)
  {
    n := 2;
    ok := InstallWriteFn(png, outbuf, s, lib.setWriteFn);
    if !ok {
      return;
    }
    ok, n := SetParameters(png, outbuf, w, h, d, lib, s);
    if !ok {
      return;
    }
    n := 6;
    ok := Guarded(png, outbuf, s, 6, WriteInfo, lib.writeInfo);
  }

  /**
   * store_png_blocking (lines 67-87), run as a plain call: build the row pointers,
   * request the 16-bit byte swap, write the rows and the trailer. false is the
   * NULL return of its recovery point (line 75).
   */
  method StoreRows(png: PngStruct, outbuf: OutputBuffer, w: u32, h: u32, d: u32, lib: Behaviour,
                   ghost s: seq<Step>) returns (ok: bool, ghost n: nat)
    requires StreamScheduled(s, w, h, d, lib)
    requires Reached(png, outbuf, s, 7)
    modifies png`calls, png.errorPtr, outbuf
    ensures ok ==> Reached(png, outbuf, s, 10)
    ensures !ok ==> 7 <= n <= 9 && Stopped(png, outbuf, s, n)
  {
    var rows := RowPointers(0, h, Span(w, d));
    var table := rows[..];
    n := 7;
    ok := Guarded(png, outbuf, s, 7, SetSwap, Quiet(lib.setSwap));
    if !ok {
      return;
    }
    n := 8;
    ok := Guarded(png, outbuf, s, 8, WriteImage(table), lib.writeImage);
    if !ok {
      return;
    }
    n := 9;
    ok := Guarded(png, outbuf, s, 9, WriteEnd, lib.writeEnd);
  }

  /** When step n is the first to fail, the call raises with the cleanup and error text of that step. */
  lemma PerformStopped(s: seq<Step>, n: nat, calls: seq<LibCall>, reports: seq<Diagnostic>, chunks: seq<Chunk>)
    requires n < |s| && FirstFailure(s) == n && Mirrors(s, n + 1, calls, reports, chunks)
    ensures Perform(s) == Trace(calls + Cleanup(n), Failure(Raised(n, Render(reports))))
  {
    assert calls == CallsOf(s[..n + 1]) && reports == DiagnosticsOf(s[..n + 1]);
  }

  /** When no step fails, the call returns every chunk written. */
  lemma PerformCompleted(s: seq<Step>, calls: seq<LibCall>, reports: seq<Diagnostic>, chunks: seq<Chunk>)
    requires Mirrors(s, |s|, calls, reports, chunks) && NoFailureBefore(s, |s|)
    ensures Perform(s) == Trace(calls, Success(Concat(chunks)))
  {
    assert s[..|s|] == s;
  }

  /**
   * Lines 126-161, once both structures exist: configure and write the header
   * under the recovery point of line 126 (a failure there destroys both
   * structures and raises at line 128), then `Complete`.
   */
  method Finish(png: PngStruct, outbuf: OutputBuffer, w: u32, h: u32, d: u32, lib: Behaviour,
                ghost s: seq<Step>) returns (r: Result<seq<byte>, EncodeError>)
    requires SetupScheduled(s, w, h, d, lib) && StreamScheduled(s, w, h, d, lib)
    requires png.Valid() && png.ioPtr == null && outbuf.Valid()
    requires Mirrors(s, 2, png.calls, png.errorPtr.reports, outbuf.chunks) && NoFailureBefore(s, 2)
    modifies png, png.errorPtr, outbuf
    ensures Trace(png.calls, r) == Perform(s)
  {
    var ok, n := Configure(png, outbuf, w, h, d, lib, s);
    if !ok {
      ghost var c := png.calls;
      png.Destroy(true);
      PerformStopped(s, n, c, png.errorPtr.reports, outbuf.chunks);
      assert Cleanup(n) == [DestroyWriteStruct(true)];
      return Failure(LibpngError(png.errorPtr.text));
    }
    r := Complete(png, outbuf, w, h, d, lib, s);
  }

  /**
   * Lines 143-161: stream the rows (store_png_blocking; a failure there raises at
   * line 152 without releasing the structures), then `Release`.
   */
  method Complete(png: PngStruct, outbuf: OutputBuffer, w: u32, h: u32, d: u32, lib: Behaviour,
                  ghost s: seq<Step>) returns (r: Result<seq<byte>, EncodeError>)
    requires StreamScheduled(s, w, h, d, lib)
    requires Reached(png, outbuf, s, 7)
    modifies png`calls, png.errorPtr, outbuf
    ensures Trace(png.calls, r) == Perform(s)
  {
    var ok, n := StoreRows(png, outbuf, w, h, d, lib, s);
    if !ok {
      PerformStopped(s, n, png.calls, png.errorPtr.reports, outbuf.chunks);
      assert Cleanup(n) == [];
      return Failure(WriteFailed(png.errorPtr.text));
    }
    r := Release(png, outbuf, lib.destroy, s);
  }

  /**
   * Lines 155-161: png_destroy_write_struct under the recovery point of line 155,
   * then the output buffer is returned.
   */
  method Release(png: PngStruct, outbuf: OutputBuffer, o: Outcome, ghost s: seq<Step>)
    returns (r: Result<seq<byte>, EncodeError>)
    requires |s| == 11 && s[10] == Step(DestroyWriteStruct(true), Quiet(o))
    requires Reached(png, outbuf, s, 10)
    modifies png`calls, png.errorPtr, outbuf
    ensures Trace(png.calls, r) == Perform(s)
  {
    var ok := Guarded(png, outbuf, s, 10, DestroyWriteStruct(true), Quiet(o));
    if !ok {
      PerformStopped(s, 10, png.calls, png.errorPtr.reports, outbuf.chunks);
      assert Cleanup(10) == [];
      return Failure(LibpngError(png.errorPtr.text));
    }
    PerformCompleted(s, png.calls, png.errorPtr.reports, outbuf.chunks);
    return Success(outbuf.bytes);
  }

  /**
   * Lines 115-119 after validation: the output buffer, the error string
   * (initialised, unlike `DeclaredErrStr`) and the write structure, a failure
   * raising at line 118; then `Open`.
   */
  method Encode(w: u32, h: u32, d: u32, lib: Behaviour, ghost s: seq<Step>)
    returns (r: Result<seq<byte>, EncodeError>, ghost calls: seq<LibCall>, ghost out: OutputBuffer)
    requires Scheduled(s, w, h, d, lib)
    ensures r == Perform(s).result
    ensures calls == Perform(s).calls
    ensures fresh(out)
  {
    var outbuf := new OutputBuffer();
    out := outbuf;
    var errstr := new ErrorText();
    assert s[..0] == [];
    var png := PngCreateWriteStruct(errstr, lib.createWrite);
    Advance(s, 0, [], [], []);
    if png == null {
      StopsAt(s, 0);
      PerformStopped(s, 0, [CreateWriteStruct], errstr.reports, []);
      return Failure(WriterInitFailed(errstr.text)), [CreateWriteStruct], outbuf;
    }
    r := Open(png, outbuf, w, h, d, lib, s);
    calls := png.calls;
  }

  /**
   * Lines 121-161: the info structure (a failure releasing the write structure
   * at line 122 and raising at line 123), then `Finish`.
   */
  method Open(png: PngStruct, outbuf: OutputBuffer, w: u32, h: u32, d: u32, lib: Behaviour,
              ghost s: seq<Step>) returns (r: Result<seq<byte>, EncodeError>)
    requires SetupScheduled(s, w, h, d, lib) && StreamScheduled(s, w, h, d, lib)
    requires s[1] == Step(CreateInfoStruct, Quiet(lib.createInfo))
    requires png.Valid() && png.ioPtr == null && outbuf.Valid() && outbuf.chunks == []
    requires Mirrors(s, 1, png.calls, png.errorPtr.reports, []) && NoFailureBefore(s, 1)
    modifies png, png.errorPtr, outbuf
    ensures Trace(png.calls, r) == Perform(s)
  {
    ghost var c, e := png.calls, png.errorPtr.reports;
    var ok := png.Invoke(CreateInfoStruct, Quiet(lib.createInfo));
    Advance(s, 1, c, e, []);
    if !ok {
      StopsAt(s, 1);
      PerformStopped(s, 1, png.calls, png.errorPtr.reports, []);
      png.Destroy(false);
      return Failure(InfoInitFailed(png.errorPtr.text));
    }
    r := Finish(png, outbuf, w, h, d, lib, s);
  }

  /**
   * rb_store_png (lines 92-161): the arguments are validated before anything is
   * allocated, then the schedule of libpng calls runs; every failure raises, and
   * the output buffer is returned only on success. `out` is the output buffer of
   * line 115, null when validation rejected the call before allocating it.
   */
  method StorePng(w: u32, h: u32, d: u32, data: seq<byte>, lib: Behaviour)
    returns (r: Result<seq<byte>, EncodeError>, ghost calls: seq<LibCall>, ghost out: OutputBuffer?)
    ensures r == Run(w, h, d, data, lib).result
    ensures calls == Run(w, h, d, data, lib).calls
    ensures out == null <==> Validate(w, h, d, |data|).Failure?
    ensures out != null ==> fresh(out)
  {
    var v := Validate(w, h, d, |data|);
    if v.Failure? {
      return Failure(v.error), [], null;
    }
    ScheduleIsScheduled(w, h, d, lib);
    r, calls, out := Encode(w, h, d, lib, Schedule(w, h, d, lib));
  }
}
