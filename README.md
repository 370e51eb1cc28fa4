# nl-fast_png store_png, modelled in Dafny

`PngExt.store_png(width, height, depth, data)` turns a buffer of raw grayscale
pixels (8 bits per sample, or 16 bits in little-endian order) into a PNG file
held in a Ruby string. The C extension `ext/nl-fast_png/png_ext.c` does this by
driving libpng with fixed settings: a non-interlaced grayscale image, the SUB
filter, zlib's fastest compression level, and the 16-bit byte swap.

This project models that C code:

- `Words`: 32-bit `unsigned int` values and the wrapping product the C code uses.
- `Diagnostics`: the error string that libpng's error and warning callbacks
  (`error_func`, `warn_func`) append to. It is a class `ErrorText`. Its ghost
  list of reports determines the text.
- `Output`: the output buffer that `write_func` appends to. It is a class
  `OutputBuffer`. Its ghost list of chunks determines the bytes. `flush_func`
  does nothing.
- `Failures`: the exceptions `rb_store_png` raises, with their exact messages.
- `Validation`: the depth check and the data-length check. Both run before
  anything is allocated.
- `Rows`: the row-pointer loop of `store_png_blocking`, an imperative loop over
  an `array`, and the bounds its rows respect.
- `ByteOrder`: what the requested 16-bit swap does to the samples
  (section 7.1 of the PNG specification stores 16-bit samples most significant
  byte first).
- `Libpng`: the libpng structure as a class `PngStruct`. Its error pointer is
  an `ErrorText` and its I/O pointer an `OutputBuffer`. A log records every
  libpng call made on it. Each libpng call's behaviour (the diagnostics it
  reports, the chunks it writes, whether it fails) is an input, a `Behaviour`
  record.
- `Session`: `rb_store_png` itself. `Run` is the specification: a linear
  schedule of eleven libpng calls, in which the first failing call decides the
  exception, the error text and the cleanup. The imperative `StorePng`
  follows the C code step by step, split at its recovery points (`Encode`,
  `Open`, `Finish`, `Configure`, `Complete`, `StoreRows`, `Release`, each libpng
  call through `Guarded`). Its contract says its libpng calls and its result
  equal `Run`. The lemmas beside `Run` state what the C code promises.

A longjmp out of libpng to an armed `setjmp` is a failing call in this model.
The step that fails picks the recovery point:

- the write structure fails: raise at line 118.
- the info structure fails: destroy the write structure, raise at line 123.
- set-up (lines 131-140) fails: destroy both structures, raise at line 128.
- streaming (lines 81-84) fails: raise at line 152 and release nothing.
- the final destroy fails: raise at line 156.

Two points where the code is followed as written:

- `png_set_swap` is requested for every depth, not only for 16-bit images. libpng
  ignores it for 8-bit samples.
- A failure while streaming, and a failure of the final
  `png_destroy_write_struct`, raise without releasing the libpng structures
  (`StreamingFailureSkipsDestroy`).

The length check compares against the 32-bit product `w * h * (d / 8)`, which
wraps (`RequiredBytesIsWrappedProduct`). When it does not wrap, every row passed
to `png_write_image` lies inside the data (`WriteImageRowsInBounds`). When it
wraps, a short buffer can pass the check and the rows run past its end
(`WrappedCheckAdmitsOverread`: width 65536, height 65537, depth 8, 65536 bytes).
The session keeps the check as written. The intended check, against the true
product (`WideCheckPasses`), keeps every row inside the data
(`WideCheckRowsInBounds`); it is listed under "## Findings".

## Model

| member | source | states |
|---|---|---|
| `Diagnostics.Tag` | ext/nl-fast_png/png_ext.c:35-49 | each callback's tag ("Err: " at line 35, "Warn: " at line 49) ends in ": " before the message |
| `Diagnostics.Appended` | ext/nl-fast_png/png_ext.c:32-36 | an empty error string becomes tag + message; a non-empty one keeps its text and gains " - " + tag + message; the old text is always a prefix |
| `Diagnostics.Entry` | ext/nl-fast_png/png_ext.c:35-36 | an entry is the severity tag followed by the message, so it is longer than the message |
| `Diagnostics.RenderIsJoined` | ext/nl-fast_png/png_ext.c:26-51 | the text the callbacks build, one diagnostic at a time, is the entries of all diagnostics joined by " - " in report order |
| `Diagnostics.JoinedSnoc` | ext/nl-fast_png/png_ext.c:32-36 | joining one more diagnostic onto a non-empty list adds " - " then its entry |
| `Diagnostics.RenderExtends` | ext/nl-fast_png/png_ext.c:32-36 | later diagnostics only extend the error string: earlier text is a prefix |
| `Diagnostics.Render` | ext/nl-fast_png/png_ext.c:26-51 | the error string after a run of callbacks, starting from ""; `ErrorText.Valid` ties the class's text to it and `RenderIsJoined` gives its closed form |
| `Diagnostics.Deliver` | ext/nl-fast_png/png_ext.c:28-36 | one callback on errstr is defined exactly when errstr holds a string, and then strictly extends it |
| `Diagnostics.DeliverAll` | ext/nl-fast_png/png_ext.c:26-51 | a run of callbacks leaves a defined string exactly when errstr started as one, extending it; on the never-assigned errstr any diagnostic is undefined |
| `Diagnostics.AsWrittenDiagnosticIsUndefined` | ext/nl-fast_png/png_ext.c:95 | with errstr left uninitialised, the first diagnostic libpng delivers reads an indeterminate value |
| `Diagnostics.DeliverAllFrom` | ext/nl-fast_png/png_ext.c:26-51 | delivering diagnostics to a defined error string stays defined and appends their entries |
| `Diagnostics.InitialisedDeliveryIsDefined` | ext/nl-fast_png/png_ext.c:95 | with errstr initialised to "", every run of callbacks is defined and leaves the joined entries |
| `Diagnostics.ErrorText.constructor` | ext/nl-fast_png/png_ext.c:95 | the error string starts empty, which is the corrected initial state |
| `Diagnostics.ErrorText.ErrorFunc` | ext/nl-fast_png/png_ext.c:26-37 | error_func appends "Err: " + message, after " - " if the text was non-empty, and records the report |
| `Diagnostics.ErrorText.WarnFunc` | ext/nl-fast_png/png_ext.c:40-51 | warn_func appends "Warn: " + message in the same way |
| `Diagnostics.ErrorText.Receive` | ext/nl-fast_png/png_ext.c:26-51 | a diagnostic goes to error_func or warn_func according to its severity and is appended with its tag |
| `Diagnostics.ErrorText.ReceiveAll` | ext/nl-fast_png/png_ext.c:26-51 | each diagnostic goes to the callback for its severity, in order; the old text stays a prefix |
| `Output.ConcatAppend` | ext/nl-fast_png/png_ext.c:59 | the output of two runs of writes is the output of the first followed by the output of the second |
| `Output.OutputBuffer.constructor` | ext/nl-fast_png/png_ext.c:115 | the output buffer starts empty |
| `Output.OutputBuffer.Write` | ext/nl-fast_png/png_ext.c:54-60 | write_func appends exactly the given bytes and changes nothing already written |
| `Output.OutputBuffer.Flush` | ext/nl-fast_png/png_ext.c:63-65 | flush_func leaves the buffer unchanged |
| `Output.OutputBuffer.WriteAll` | ext/nl-fast_png/png_ext.c:54-60 | a run of writes leaves the old bytes followed by all chunks in order |
| `Words.MulU32` | ext/nl-fast_png/png_ext.c:71 | an `unsigned int` product never exceeds the true product, and equals it when it fits in 32 bits |
| `Failures.ClassOf` | ext/nl-fast_png/png_ext.c:108-156 | `rb_eStandardError` exactly for the four libpng failures of lines 118-156; `rb_eArgError` for the two argument errors of lines 108 and 112 |
| `Failures.Message` | ext/nl-fast_png/png_ext.c:108-156 | each raise's format string: the argument errors end in ".", every libpng failure ends in a newline |
| `Failures.Decimal` | ext/nl-fast_png/png_ext.c:108 | the %u rendering of a number is a non-empty string of digits with no leading zero |
| `Failures.ParseDecimalInverts` | ext/nl-fast_png/png_ext.c:108 | reading the %u rendering back gives the number |
| `Failures.InvalidDepthMessageNamesDepth` | ext/nl-fast_png/png_ext.c:108 | the depth message holds, between "(got " and ").", exactly the rejected depth, which reads back |
| `Failures.LibraryMessageEndsWithErrorText` | ext/nl-fast_png/png_ext.c:118-156 | every StandardError message ends with the error string followed by a newline |
| `Validation.DepthSupported` | ext/nl-fast_png/png_ext.c:107 | the depth test: exactly 8 and 16 pass |
| `Validation.RequiredBytes` | ext/nl-fast_png/png_ext.c:111 | the length line 111 demands, evaluated left to right in `unsigned int`, is never more than w*h*(d/8): the wrap can only lower it |
| `Validation.Validate` | ext/nl-fast_png/png_ext.c:107-113 | the depth check first, then the length check against the wrapped product; a pass means a supported depth and enough data, and every rejection is an ArgumentError |
| `Validation.WideCheckAgrees` | ext/nl-fast_png/png_ext.c:111 | the length check against the true product is never weaker than the written one and agrees with it when the product fits in 32 bits |
| `Validation.RequiredBytesIsWrappedProduct` | ext/nl-fast_png/png_ext.c:111 | the required length is w*h*(d/8) reduced modulo 2^32, and exactly that product when it fits |
| `Validation.UnsupportedDepthRejected` | ext/nl-fast_png/png_ext.c:107-109 | a depth other than 8 or 16 raises ArgumentError naming the depth |
| `Validation.AcceptedIff` | ext/nl-fast_png/png_ext.c:107-113 | arguments pass exactly when the depth is 8 or 16 and the data holds the required length; otherwise a short buffer is reported with both lengths |
| `Validation.AcceptedHoldsImage` | ext/nl-fast_png/png_ext.c:111 | when the product does not wrap, accepted data holds at least w*h*(d/8) bytes |
| `Rows.Span` | ext/nl-fast_png/png_ext.c:71 | the 32-bit `span` is never more than a row's bytes, and equals them when w*(d/8) fits in 32 bits |
| `Rows.RowPointers` | ext/nl-fast_png/png_ext.c:70-80 | the row table has h entries and entry i is the data start plus i*span |
| `Rows.RowOffsetsIncrease` | ext/nl-fast_png/png_ext.c:78-80 | with a non-zero span the row starts strictly increase |
| `Rows.RowOffsetsStep` | ext/nl-fast_png/png_ext.c:78 | each row starts exactly span bytes after the previous one |
| `Rows.AcceptedRowsInBounds` | ext/nl-fast_png/png_ext.c:71-80 | when the check passed and the product does not wrap, span is w*(d/8) and every row lies inside the data |
| `Rows.WideCheckRowsInBounds` | ext/nl-fast_png/png_ext.c:70-82 | with the length checked against the true product, every row libpng reads lies inside the data, wrapped `span` or not |
| `Rows.WrappedCheckAdmitsOverread` | ext/nl-fast_png/png_ext.c:111 | a wrapped product lets a 65536-byte buffer pass for a 65536x65537 image whose second row already lies past the end |
| `ByteOrder.SwapPairs` | ext/nl-fast_png/png_ext.c:81 | the swap exchanges the two bytes of every sample and keeps the length |
| `ByteOrder.SwapMakesBigEndian` | ext/nl-fast_png/png_ext.c:89-91 | swapped little-endian input reads as the same 16-bit samples in PNG's big-endian order |
| `ByteOrder.SwapPairsInvolutive` | ext/nl-fast_png/png_ext.c:81 | swapping twice restores the samples |
| `Libpng.PngCreateWriteStruct` | ext/nl-fast_png/png_ext.c:117 | the write structure is null exactly when creation fails; otherwise it is new, uses errstr as error pointer, and logs its creation |
| `Libpng.PngStruct.constructor` | ext/nl-fast_png/png_ext.c:117 | a new structure has the given error pointer, no I/O pointer, and only its creation logged |
| `Libpng.PngStruct.Invoke` | ext/nl-fast_png/png_ext.c:121-140 | a libpng call is logged, its diagnostics reach the error string, its chunks reach the output buffer, and it succeeds exactly when it does not fail |
| `Libpng.PngStruct.PngSetWriteFn` | ext/nl-fast_png/png_ext.c:131 | installs the output buffer as I/O pointer and logs the call |
| `Libpng.PngStruct.Destroy` | ext/nl-fast_png/png_ext.c:122 | logs the release, with or without the info structure |
| `Session.Ihdr` | ext/nl-fast_png/png_ext.c:133-135 | the png_set_IHDR arguments: w, h and d with grayscale, no interlacing and the default compression and filter types |
| `Session.Schedule` | ext/nl-fast_png/png_ext.c:115-159 | the eleven libpng calls of a store_png call in the order the code makes them, from png_create_write_struct to png_destroy_write_struct with both structures |
| `Session.Raised` | ext/nl-fast_png/png_ext.c:117-156 | the recovery point of the failing step picks the exception: always a StandardError carrying the error string, and the write error exactly for steps inside store_png_blocking |
| `Session.Cleanup` | ext/nl-fast_png/png_ext.c:121-128 | structures are released before raising exactly for failures at steps 1-6: the write structure alone at line 122, both at line 127 |
| `Session.Perform` | ext/nl-fast_png/png_ext.c:115-161 | running the schedule returns a value exactly when no step fails; every failure is a StandardError; at least one libpng call is made |
| `Session.Run` | ext/nl-fast_png/png_ext.c:92-161 | rb_store_png as a whole: an ArgumentError exactly when validation fails, and then no libpng call at all |
| `Session.FirstFailure` | ext/nl-fast_png/png_ext.c:117-157 | the index of the first failing step: every earlier step succeeded, and it fails unless it is past the end |
| `Session.CallsOfAt` | ext/nl-fast_png/png_ext.c:115-161 | the call log of a schedule has one entry per step, in order |
| `Session.RejectsUnsupportedDepth` | ext/nl-fast_png/png_ext.c:107-109 | a bad depth raises ArgumentError with no libpng call; `StorePng`'s contract adds that no output buffer is allocated |
| `Session.RejectsShortData` | ext/nl-fast_png/png_ext.c:111-113 | short data raises ArgumentError with the 32-bit required length and no libpng call; `StorePng`'s contract adds that no output buffer is allocated |
| `Session.NoFailureInSchedule` | ext/nl-fast_png/png_ext.c:115-161 | no scheduled call fails exactly when no libpng call fails |
| `Session.SucceedsIffNoCallFails` | ext/nl-fast_png/png_ext.c:92-161 | store_png returns a string exactly when validation passes and no libpng call fails |
| `Session.SuccessReturnsOutputAfterDestroy` | ext/nl-fast_png/png_ext.c:155-161 | on success the result is header, rows and trailer as written, and png_destroy_write_struct is the last of the eleven calls |
| `Session.FailureCarriesErrorText` | ext/nl-fast_png/png_ext.c:117-156 | a libpng failure raises StandardError whose text is every diagnostic up to the failing call, joined in order |
| `Session.WriterFailureCallsNothingElse` | ext/nl-fast_png/png_ext.c:117-119 | a failed write-structure creation makes no other libpng call and raises with its diagnostics |
| `Session.InfoFailureDestroysWriteStruct` | ext/nl-fast_png/png_ext.c:121-124 | a failed info-structure creation destroys the write structure alone, then raises |
| `Session.RequestsAsSpecified` | ext/nl-fast_png/png_ext.c:133-138 | every header request is w, h, d, grayscale, non-interlaced, default methods; the filter is SUB; the level is the fastest; and the rows are the row table |
| `Session.WriteImageRowsInBounds` | ext/nl-fast_png/png_ext.c:70-82 | without wrap-around, every row handed to png_write_image has h entries and lies inside the caller's data |
| `Session.StreamingFailureSkipsDestroy` | ext/nl-fast_png/png_ext.c:151-153 | a failure while streaming raises the write error and never destroys the structures |
| `Session.RaisedFrom` | ext/nl-fast_png/png_ext.c:117-156 | the exception of a recovery point, read through `RSTRING_PTR(errstr)` after the callbacks: undefined for the never-assigned errstr; for errstr = "" the exception carrying the joined diagnostics |
| `Session.AsWrittenFailureIsUndefined` | ext/nl-fast_png/png_ext.c:95-156 | with errstr never assigned, every libpng failure is undefined: the callbacks read errstr, and the raise reads it through RSTRING_PTR even when no diagnostic arrived |
| `Session.InitialisedFailureIsRaised` | ext/nl-fast_png/png_ext.c:95-156 | with errstr initialised to "", the callbacks and the raise of every libpng failure are defined and give the exception `Run` gives |
| `Session.Guarded` | ext/nl-fast_png/png_ext.c:126-157 | one scheduled call under a recovery point either advances the state or stops it at that step |
| `Session.InstallWriteFn` | ext/nl-fast_png/png_ext.c:131 | installing the write functions either advances to the header step or stops there, with the output buffer as I/O pointer |
| `Session.SetParameters` | ext/nl-fast_png/png_ext.c:133-138 | the header, filter and compression requests either all succeed or stop at the first that fails |
| `Session.Configure` | ext/nl-fast_png/png_ext.c:126-140 | set-up either completes the first seven steps or stops at the first failing one among them |
| `Session.StoreRows` | ext/nl-fast_png/png_ext.c:67-87 | store_png_blocking either completes the swap, image and trailer steps or stops at the first that fails |
| `Session.Complete` | ext/nl-fast_png/png_ext.c:143-161 | from streaming to the return, the calls made and the outcome are what the schedule prescribes |
| `Session.Release` | ext/nl-fast_png/png_ext.c:155-161 | the final destroy either fails and raises with the error string, or the buffer of every written chunk is returned |
| `Session.Finish` | ext/nl-fast_png/png_ext.c:126-161 | from set-up to the return, the calls made and the outcome are what the schedule prescribes |
| `Session.Open` | ext/nl-fast_png/png_ext.c:121-124 | from the info structure on, the calls made and the outcome are what the schedule prescribes |
| `Session.Encode` | ext/nl-fast_png/png_ext.c:115-119 | after validation, a fresh output buffer is allocated, and the calls made and the outcome are what the schedule prescribes |
| `Session.StorePng` | ext/nl-fast_png/png_ext.c:92-161 | rb_store_png makes exactly the libpng calls of `Run` and returns or raises what `Run` says; the output buffer of line 115 is allocated, fresh, exactly when validation passes |

## Left out

- libpng and zlib internals: how IHDR, filtering, compression and the trailer become bytes. Each libpng call's diagnostics, written chunks and failure are inputs (`Behaviour`).
- `setjmp`/`longjmp`: a longjmp to a recovery point is a failing call, handled by the recovery point of its step.
- `rb_warning` (lines 30 and 44): it goes to Ruby's warning stream, which is I/O.
- `rb_thread_call_without_gvl` (lines 143-150): GVL release and threading; `store_png_blocking` runs as a plain call.
- `Check_Type` and `NUM2UINT` (lines 102-105): Ruby type conversion; the model takes `u32` arguments and a byte sequence.
- `rb_raise` is a `Failure` result; Ruby exceptions and stack unwinding are not modelled.
- `Init_png_ext`, `lib/nl/fast_png.rb`, `bin/benchmark.rb` and `extconf.rb` are not part of this model.
- Row pointers are byte offsets from the start of `data`, not machine addresses. The pointer addition at line 78 does not wrap, but the 32-bit `span` does.
- The signed loop counter `int i` at line 72 compared with an unsigned `h`: the model counts with an unbounded index. The stack-allocated row table at line 70 is not modelled for huge `h`.
- Allocation failure of `rb_str_buf_new` and of the Ruby strings.
- ByteOrder.SwapPairs: libpng performs the swap inside `png_write_image`. That call's output is an input, so the model does not connect the swapped samples to the written bytes.
- Libpng.PngStruct.Destroy: the cleanup calls at lines 122 and 127 are infallible in the model and report no diagnostics, so they add nothing to the error string before the raise reads it. Line 122 runs before any `setjmp`. Line 127 runs with the recovery point of line 126 still armed, so a failure there would jump back to line 126, run the destroy of line 127 again, and then raise at line 128. The final destroy at line 159 can fail, under the recovery point armed at line 155.

## Findings

| source | as written | input that shows it | evidently intended | confidence | as-written member | corrected member |
|---|---|---|---|---|---|---|
| ext/nl-fast_png/png_ext.c:95 | `errstr` is declared and never assigned. Its address goes to libpng as the error pointer (line 117), and the callbacks and every failure message read it | any failing libpng call, even one that reports nothing, e.g. `png_create_info_struct` returning NULL without a diagnostic, which raises at line 123 by reading `RSTRING_PTR(errstr)`; also any warning or error delivered to the callbacks | `errstr` starts as an empty Ruby string, like `outbuf` at line 115 | high, not executed | `Session.AsWrittenFailureIsUndefined` | `Session.InitialisedFailureIsRaised` |
| ext/nl-fast_png/png_ext.c:111 | the length check compares with `w * h * (d / 8)` in 32-bit `unsigned int`, which wraps; `png_write_image` then reads `h` rows of `w * (d / 8)` bytes from the data | width 65536, height 65537, depth 8 and 65536 bytes of data: the product wraps to 65536, the check passes, and row 1 starts at the end of the data | the check rejects data shorter than the true product, so libpng never reads past the caller's buffer | high, not executed | `Rows.WrappedCheckAdmitsOverread` | `Rows.WideCheckRowsInBounds` |
