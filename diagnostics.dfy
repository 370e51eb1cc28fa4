/**
 * The error string of one store_png call (png_ext.c:26-51): libpng reports each
 * warning and each fatal error through a callback, and the callback appends the
 * message, tagged with its severity, to one Ruby string.
 */
module Diagnostics {
  import opened Wrappers

  datatype Severity = Err | Warn

  /** One message libpng hands to error_func (Err) or warn_func (Warn). */
  datatype Diagnostic = Diagnostic(severity: Severity, msg: string)

  /** The tag each callback writes before the message. */
  function Tag(s: Severity): (t: string)
    ensures |t| > 2 && t[|t| - 2] == ':' && t[|t| - 1] == ' '
  {
    match s
    case Err => "Err: "
    case Warn => "Warn: "
  }

  /** What a callback writes between the existing text and the new entry. */
  const Separator: string := " - "

  /** A diagnostic as it appears in the error string, without any separator. */
  function Entry(d: Diagnostic): (e: string)
    ensures |e| > |d.msg|
  {
    Tag(d.severity) + d.msg
  }

  /** The error string after one callback: a separator only when the string was non-empty. */
  function Appended(text: string, d: Diagnostic): (r: string)
    ensures text == [] ==> r == Entry(d)
    ensures text != [] ==> r == text + Separator + Entry(d)
    ensures text <= r && r != []
  {
    (if |text| > 0 then text + Separator else text) + Entry(d)
  }

  /** The error string after the given callbacks, starting from an empty string. */
  function Render(ds: seq<Diagnostic>): string
  {
    if ds == [] then "" else Appended(Render(ds[..|ds| - 1]), ds[|ds| - 1])
  }

  /** Reference definition: the entries of the diagnostics, in order, joined by the separator. */
  function Joined(ds: seq<Diagnostic>): string
  {
    if ds == [] then ""
    else if |ds| == 1 then Entry(ds[0])
    else Entry(ds[0]) + Separator + Joined(ds[1..])
  }

  lemma {:induction false} JoinedSnoc(ds: seq<Diagnostic>, d: Diagnostic)
    requires ds != []
    ensures Joined(ds + [d]) == Joined(ds) + Separator + Entry(d)
  {
    var e := ds + [d];
    assert e[0] == ds[0];
    if |ds| == 1 {
      assert e[1..] == [d];
      assert Joined(e) == Entry(ds[0]) + Separator + Entry(d);
    } else {
      assert e[1..] == ds[1..] + [d];
      JoinedSnoc(ds[1..], d);
      var head, rest := Entry(ds[0]) + Separator, Joined(ds[1..]);
      calc {
        Joined(e);
        head + Joined(ds[1..] + [d]);
        head + (rest + Separator + Entry(d));
        { assert head + (rest + Separator + Entry(d)) == (head + rest) + Separator + Entry(d); }
        (head + rest) + Separator + Entry(d);
        Joined(ds) + Separator + Entry(d);
      }
    }
  }

  /** The accumulated error string is exactly the tagged messages joined by " - ". */
  lemma {:induction false} RenderIsJoined(ds: seq<Diagnostic>)
    ensures Render(ds) == Joined(ds)
  {
    if ds != [] {
      var init, last := ds[..|ds| - 1], ds[|ds| - 1];
      assert ds == init + [last];
      RenderIsJoined(init);
      if init != [] {
        JoinedSnoc(init, last);
      }
    }
  }

  /** Reporting more diagnostics only ever extends the error string. */
  lemma {:induction false} RenderExtends(ds: seq<Diagnostic>, more: seq<Diagnostic>)
    ensures Render(ds) <= Render(ds + more)
  {
    if more == [] {
      assert ds + more == ds;
    } else {
      var init := more[..|more| - 1];
      assert (ds + more)[..|ds + more| - 1] == ds + init;
      RenderExtends(ds, init);
      assert Render(ds + init) <= Render(ds + more);
    }
  }

  /**
   * The `errstr` variable of rb_store_png (png_ext.c:95). As written it is declared
   * and never assigned, yet its address is handed to libpng as the error pointer
   * (line 117) and it is read by every callback and every failure message.
   */
  datatype ErrStr = Indeterminate | Holds(text: string)

  /** errstr as written: never initialised. */
  const DeclaredErrStr: ErrStr := Indeterminate

  /** errstr as evidently intended: an empty Ruby string. */
  const InitialisedErrStr: ErrStr := Holds("")

  /** One callback on errstr; None when it reads an indeterminate VALUE (undefined behaviour). */
  function Deliver(e: ErrStr, d: Diagnostic): (r: Option<ErrStr>)
    ensures r.Some? <==> e.Holds?
    ensures r.Some? ==> r.value.Holds? && e.text < r.value.text
  {
    match e
    case Indeterminate => None
    case Holds(t) => Some(Holds(Appended(t, d)))
  }

  /** The callbacks in order, stopping at the first undefined step. */
  function DeliverAll(e: ErrStr, ds: seq<Diagnostic>): (r: Option<ErrStr>)
    ensures r.Some? && r.value.Holds? <==> e.Holds?
    ensures ds != [] && e.Indeterminate? ==> r == None
    ensures e.Holds? ==> e.text <= r.value.text
    decreases |ds|
  {
    if ds == [] then Some(e)
    else match Deliver(e, ds[0])
      case None => None
      case Some(e') => DeliverAll(e', ds[1..])
  }

  /** As written, the very first diagnostic libpng reports is undefined behaviour. */
  lemma AsWrittenDiagnosticIsUndefined(ds: seq<Diagnostic>)
    requires ds != []
    ensures DeliverAll(DeclaredErrStr, ds) == None
  {
  }

  lemma {:induction false} DeliverAllFrom(pre: seq<Diagnostic>, ds: seq<Diagnostic>)
    ensures DeliverAll(Holds(Render(pre)), ds) == Some(Holds(Render(pre + ds)))
    decreases |ds|
  {
    if ds == [] {
      assert pre + ds == pre;
    } else {
      var pre' := pre + [ds[0]];
      assert pre'[..|pre'| - 1] == pre;
      assert pre' + ds[1..] == pre + ds;
      DeliverAllFrom(pre', ds[1..]);
    }
  }

  /** With errstr initialised, every sequence of callbacks is defined and leaves the joined entries. */
  lemma InitialisedDeliveryIsDefined(ds: seq<Diagnostic>)
    ensures DeliverAll(InitialisedErrStr, ds) == Some(Holds(Joined(ds)))
  {
    DeliverAllFrom([], ds);
    assert [] + ds == ds;
    RenderIsJoined(ds);
  }

  /**
   * The error string as a mutable Ruby string (with errstr initialised). The ghost
   * `reports` lists every diagnostic delivered so far; Valid ties the text to it.
   */
  class ErrorText {
    var text: string
    ghost var reports: seq<Diagnostic>

    ghost predicate Valid()
      reads this
    {
      text == Render(reports)
    }

    /** errstr initialised as evidently intended (see `InitialisedErrStr`). */
    constructor ()
      ensures Valid() && reports == [] && text == ""
      ensures Holds(text) == InitialisedErrStr
    {
      text := "";
      reports := [];
    }

    /** error_func (png_ext.c:26-37). */
    method ErrorFunc(msg: string)
      requires Valid()
      modifies this
      ensures Valid()
      ensures reports == old(reports) + [Diagnostic(Err, msg)]
      ensures text == Appended(old(text), Diagnostic(Err, msg))
    {
      if |text| > 0 {
        text := text + " - ";
      }
      text := text + "Err: ";
      text := text + msg;
      reports := reports + [Diagnostic(Err, msg)];
      assert reports[..|reports| - 1] == old(reports);
    }

    /** warn_func (png_ext.c:40-51). */
    method WarnFunc(msg: string)
      requires Valid()
      modifies this
      ensures Valid()
      ensures reports == old(reports) + [Diagnostic(Warn, msg)]
      ensures text == Appended(old(text), Diagnostic(Warn, msg))
    {
      if |text| > 0 {
        text := text + " - ";
      }
      text := text + "Warn: ";
      text := text + msg;
      reports := reports + [Diagnostic(Warn, msg)];
      assert reports[..|reports| - 1] == old(reports);
    }

    /** libpng reporting one diagnostic: it goes to the callback of its severity. */
    method Receive(d: Diagnostic)
      requires Valid()
      modifies this
      ensures Valid()
      ensures reports == old(reports) + [d]
      ensures text == Appended(old(text), d)
    {
      if d.severity == Err {
        ErrorFunc(d.msg);
      } else {
        WarnFunc(d.msg);
      }
    }

    /** libpng reporting several diagnostics, one callback each, in order. */
    method ReceiveAll(ds: seq<Diagnostic>)
      requires Valid()
      modifies this
      ensures Valid()
      ensures reports == old(reports) + ds
      ensures old(text) <= text
      decreases |ds|
    {
      if ds != [] {
        ghost var r0 := reports;
        Receive(ds[0]);
        ghost var t1 := text;
        ReceiveAll(ds[1..]);
        assert r0 + [ds[0]] + ds[1..] == r0 + ds;
        assert t1 <= text;
      }
    }
  }
}
