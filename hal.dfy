/** The hardware the driver drives, reduced to what the driver does with it: an ordered log of
    control-line changes, delays, busy-line waits and SPI transfers. A recording fake stands for the
    pins, the delay source and the SPI device; each SPI transfer may fail. */
module Hal {
  import opened Lib

  /** The error an SPI transfer reports; the driver passes it on unchanged. */
  datatype SpiError = SpiError(code: nat)

  /** `Result<(), SPI::Error>`. */
  datatype Status = Ok | Err(error: SpiError)

  datatype Event =
    | Dc(high: bool)                                 // data/command select driven (high = data)
    | Rst(high: bool)                                // reset line driven
    | DelayUs(us: nat)                               // `delay_us`
    | WaitBusy(high: bool)                           // suspended until the busy input is at this level
    | Write(bytes: seq<bv8>)                         // one SPI transfer that succeeded
    | WriteFailed(bytes: seq<bv8>, error: SpiError)  // one SPI transfer that reported `error`

  /** A recording fake of the pins, the delay and the SPI device. Pin and wait errors are discarded
      by the driver, so those calls report nothing; an SPI transfer succeeds or fails as the
      device decides. */
  class Hardware {
    ghost var log: seq<Event>

    constructor ()
      ensures log == []
    {
      log := [];
    }

    method SetDc(high: bool)
      modifies this
      ensures log == old(log) + [Dc(high)]
    {
      log := log + [Dc(high)];
    }

    method SetRst(high: bool)
      modifies this
      ensures log == old(log) + [Rst(high)]
    {
      log := log + [Rst(high)];
    }

    method Delay(us: u32)
      modifies this
      ensures log == old(log) + [DelayUs(us)]
    {
      log := log + [DelayUs(us)];
    }

    method WaitFor(high: bool)
      modifies this
      ensures log == old(log) + [WaitBusy(high)]
    {
      log := log + [WaitBusy(high)];
    }

    /** `spi.write(bytes)`: the outcome is the device's. */
    method SpiWrite(bytes: seq<bv8>) returns (r: Status)
      modifies this
      ensures log == old(log) + [if r.Ok? then Write(bytes) else WriteFailed(bytes, r.error)]
    {
      var failed: bool := *;
      var code: nat := *;
      if failed {
        r := Err(SpiError(code));
        log := log + [WriteFailed(bytes, r.error)];
      } else {
        r := Ok;
        log := log + [Write(bytes)];
      }
    }
  }

  /** `emitted` is what running `plan` (which holds successful writes only) produced with outcome `r`:
      on success the whole plan; on an error the plan up to and including the write that failed,
      logged as failed with the very error returned, and nothing after it. */
  predicate Performed(emitted: seq<Event>, plan: seq<Event>, r: Status)
  {
    match r
    case Ok => emitted == plan
    case Err(e) =>
      var n := |emitted|;
      && 0 < n <= |plan|
      && emitted[..n - 1] == plan[..n - 1]
      && plan[n - 1].Write?
      && emitted[n - 1] == WriteFailed(plan[n - 1].bytes, e)
  }

  /** The log went from `before` to `after` by performing `plan` with outcome `r`. */
  predicate Emits(before: seq<Event>, after: seq<Event>, plan: seq<Event>, r: Status)
  {
    match r
    case Ok => after == before + plan
    case Err(_) => |before| <= |after| && after[..|before|] == before && Performed(after[|before|..], plan, r)
  }

  /** One infallible event is a plan of its own. */
  lemma EmitsEvent(before: seq<Event>, e: Event)
    ensures Emits(before, before + [e], [e], Ok)
  {
    assert (before + [e])[|before|..] == [e];
  }

  /** One SPI transfer performs the plan that writes its bytes. */
  lemma EmitsWrite(before: seq<Event>, after: seq<Event>, bytes: seq<bv8>, r: Status)
    requires after == before + [if r.Ok? then Write(bytes) else WriteFailed(bytes, r.error)]
    ensures Emits(before, after, [Write(bytes)], r)
  {
    assert after[|before|..] == [after[|before|]];
  }

  /** Running two plans one after the other, the first succeeding, performs their concatenation. */
  lemma EmitsThen(a: seq<Event>, b: seq<Event>, c: seq<Event>, p1: seq<Event>, p2: seq<Event>, r: Status)
    requires Emits(a, b, p1, Ok) && Emits(b, c, p2, r)
    ensures Emits(a, c, p1 + p2, r)
  {
    assert c[..|a|] == b[..|a|];
    var e1, e2 := b[|a|..], c[|b|..];
    assert c[|a|..] == e1 + e2;
    if r.Err? {
      var n := |e2|;
      assert (e1 + e2)[..|e1| + n - 1] == e1 + e2[..n - 1];
      assert (p1 + p2)[..|p1| + n - 1] == p1 + p2[..n - 1];
    }
  }

  /** An error aborts the whole operation: a failed run of a prefix is a failed run of the whole. */
  lemma EmitsAbort(a: seq<Event>, b: seq<Event>, p: seq<Event>, full: seq<Event>, e: SpiError)
    requires Emits(a, b, p, Err(e)) && p <= full
    ensures Emits(a, b, full, Err(e))
  {
    var n := |b| - |a|;
    assert full[..n - 1] == p[..n - 1];
  }

  /** Part way through `whole`: what was logged since `a` followed by `rest` is `whole`. */
  predicate Leads(a: seq<Event>, b: seq<Event>, rest: seq<Event>, whole: seq<Event>)
  {
    |a| <= |b| && b[..|a|] == a && whole == b[|a|..] + rest
  }

  /** Before anything runs, all of `whole` is still to come. */
  lemma LeadsStart(a: seq<Event>, whole: seq<Event>)
    ensures Leads(a, a, whole, whole)
  {
    assert a[|a|..] == [];
  }

  /** Running the next part of `whole`: on success the rest is still to come; on an error the
      whole plan has been aborted there. */
  lemma LeadsStep(a: seq<Event>, b: seq<Event>, c: seq<Event>, part: seq<Event>, rest: seq<Event>, whole: seq<Event>, r: Status)
    requires Leads(a, b, part + rest, whole) && Emits(b, c, part, r)
    ensures r.Ok? ==> Leads(a, c, rest, whole)
    ensures r.Err? ==> Emits(a, c, whole, r)
  {
    var done := b[|a|..];
    assert c[..|a|] == a by {
      assert c[..|b|] == b;
      assert c[..|a|] == b[..|a|];
    }
    if r.Ok? {
      assert c[|a|..] == done + part;
    } else {
      assert Emits(a, b, done, Ok);
      EmitsThen(a, b, c, done, part, r);
      EmitsAbort(a, c, done + part, whole, r.error);
    }
  }

  /** Nothing left to run: the whole plan has run. */
  lemma LeadsDone(a: seq<Event>, b: seq<Event>, whole: seq<Event>)
    requires Leads(a, b, [], whole)
    ensures Emits(a, b, whole, Ok)
  {
    assert b[|a|..] + [] == b[|a|..];
  }

  /** Stepping through a plan given as a sequence of steps: after step `k` the steps up to `k` have
      run; an error there is an aborted run of the whole plan. */
  lemma Advance(a: seq<Event>, b: seq<Event>, c: seq<Event>, steps: seq<seq<Event>>, k: nat, r: Status)
    requires k < |steps|
    requires Emits(a, b, Concat(steps[..k]), Ok) && Emits(b, c, steps[k], r)
    ensures Emits(a, c, Concat(steps[..k + 1]), r)
    ensures r.Err? ==> Emits(a, c, Concat(steps), r)
  {
    assert steps[..k + 1][..k] == steps[..k];
    EmitsThen(a, b, c, Concat(steps[..k]), steps[k], r);
    if r.Err? {
      ConcatPrefix(steps, k + 1);
      EmitsAbort(a, c, Concat(steps[..k + 1]), Concat(steps), r.error);
    }
  }

  /** A byte as the panel controller latches it: a command opcode when the DC line is low, a data
      byte when it is high. */
  datatype Wire = OpByte(b: bv8) | DataByte(b: bv8)

  /** Bytes sent while the DC line is at one level. */
  function Tagged(bytes: seq<bv8>, data: bool): (r: seq<Wire>)
    decreases |bytes|
  {
    if bytes == [] then []
    else [if data then DataByte(bytes[0]) else OpByte(bytes[0])] + Tagged(bytes[1..], data)
  }

  lemma {:induction false} TaggedAppend(a: seq<bv8>, b: seq<bv8>, data: bool)
    ensures Tagged(a + b, data) == Tagged(a, data) + Tagged(b, data)
    decreases |a|
  {
    if a != [] {
      assert (a + b)[1..] == a[1..] + b;
      TaggedAppend(a[1..], b, data);
    } else {
      assert a + b == b;
    }
  }

  /** The byte stream the panel controller receives from a log, starting with the DC line at
      `dcHigh`: the bytes of every successful transfer, in order, tagged by the DC level in force. */
  function Stream(events: seq<Event>, dcHigh: bool): seq<Wire>
    decreases |events|
  {
    if events == [] then []
    else
      match events[0]
      case Dc(high) => Stream(events[1..], high)
      case Write(bytes) => Tagged(bytes, dcHigh) + Stream(events[1..], dcHigh)
      case _ => Stream(events[1..], dcHigh)
  }

  /** The DC level after a log. */
  function DcAfter(events: seq<Event>, dcHigh: bool): bool
    decreases |events|
  {
    if events == [] then dcHigh
    else
      match events[0]
      case Dc(high) => DcAfter(events[1..], high)
      case _ => DcAfter(events[1..], dcHigh)
  }

  /** The stream of two logs in a row is the first's stream followed by the second's, the second
      starting at the DC level the first left. */
  lemma {:induction false} StreamAppend(a: seq<Event>, b: seq<Event>, dcHigh: bool)
    ensures Stream(a + b, dcHigh) == Stream(a, dcHigh) + Stream(b, DcAfter(a, dcHigh))
    ensures DcAfter(a + b, dcHigh) == DcAfter(b, DcAfter(a, dcHigh))
    decreases |a|
  {
    if a == [] {
      assert a + b == b;
    } else {
      assert (a + b)[1..] == a[1..] + b;
      var next := if a[0].Dc? then a[0].high else dcHigh;
      StreamAppend(a[1..], b, next);
    }
  }

  /** A log that neither moves the DC line nor transfers anything delivers no byte. */
  lemma {:induction false} QuietStream(events: seq<Event>, dcHigh: bool)
    requires forall e <- events :: !e.Dc? && !e.Write?
    ensures Stream(events, dcHigh) == [] && DcAfter(events, dcHigh) == dcHigh
    decreases |events|
  {
    if events != [] {
      assert forall e <- events[1..] :: e in events;
      QuietStream(events[1..], dcHigh);
    }
  }
}
