/** `DisplayInterface`: the link to the panel controller. A command byte is sent with the DC line
    low, data bytes with it high; the reset line is pulsed with fixed delays; the busy line is
    waited on. Every multi-step operation stops at the first SPI error and returns it. */
module Interface {
  import opened Lib
  import opened Hal

  /** The branch of `write` a build takes. */
  datatype WritePath =
    | Chunked  // `target_os = "linux"`: one transfer per chunk of at most 4096 bytes
    | Direct   // other targets without the `simulator` feature: one transfer of all the bytes
    | Discard  // the `simulator` feature off Linux: nothing is sent

  /** The chunk size of the Linux path of `write`. */
  const CHUNK_SIZE: nat := 4096

  /** `data.chunks(4096)`: consecutive pieces that put back together give `data`; none is empty or
      longer than 4096 bytes, and every piece but the last is exactly 4096 bytes long. */
  function Chunks(data: seq<bv8>): (r: seq<seq<bv8>>)
    ensures Concat(r) == data
    ensures forall k | 0 <= k < |r| :: 0 < |r[k]| <= CHUNK_SIZE
    ensures forall k | 0 <= k < |r| - 1 :: |r[k]| == CHUNK_SIZE
    decreases |data|
  {
    if data == [] then []
    else
      var n := if |data| < CHUNK_SIZE then |data| else CHUNK_SIZE;
      var rest := Chunks(data[n..]);
      ConcatAppend([data[..n]], rest);
      assert Concat([data[..n]]) == data[..n] by {
        assert [data[..n]][..0] == [];
      }
      [data[..n]] + rest
  }

  /** One transfer per piece, in order. */
  function WriteSteps(pieces: seq<seq<bv8>>): (r: seq<seq<Event>>)
    ensures |r| == |pieces|
    ensures forall k | 0 <= k < |r| :: r[k] == [Write(pieces[k])]
  {
    seq(|pieces|, k requires 0 <= k < |pieces| => [Write(pieces[k])])
  }

  /** What `write(data)` sends on each path. */
  function WritePlan(path: WritePath, data: seq<bv8>): seq<Event>
  {
    match path
    case Chunked => Concat(WriteSteps(Chunks(data)))
    case Direct => [Write(data)]
    case Discard => []
  }

  /** `cmd`: DC low, then the one opcode byte. */
  function CmdPlan(path: WritePath, address: bv8): seq<Event>
  {
    [Dc(false)] + WritePlan(path, [address])
  }

  /** `data`: DC high, then the bytes. */
  function DataPlan(path: WritePath, data: seq<bv8>): seq<Event>
  {
    [Dc(true)] + WritePlan(path, data)
  }

  /** `cmd_with_data`: the command, then its payload. */
  function CmdDataPlan(path: WritePath, address: bv8, data: seq<bv8>): seq<Event>
  {
    CmdPlan(path, address) + DataPlan(path, data)
  }

  /** `data_x_times` as steps: DC high, then one single-byte write per repetition. */
  function DataXTimesSteps(path: WritePath, value: bv8, repetitions: nat): (r: seq<seq<Event>>)
    ensures |r| == repetitions + 1 && r[0] == [Dc(true)]
    ensures forall k | 1 <= k < |r| :: r[k] == WritePlan(path, [value])
  {
    [[Dc(true)]] + seq(repetitions, _ => WritePlan(path, [value]))
  }

  function DataXTimesPlan(path: WritePath, value: bv8, repetitions: nat): seq<Event>
  {
    Concat(DataXTimesSteps(path, value, repetitions))
  }

  /** `wait_until_idle(is_busy_low)`: waits for the busy line to go high when the panel signals busy
      with a low level, and for it to go low otherwise. */
  function IdlePlan(isBusyLow: bool): seq<Event>
  {
    [WaitBusy(isBusyLow)]
  }

  /** `reset(initial_delay, duration)`: reset high, wait, low for `duration`, high, then 200 ms. */
  function ResetPlan(initialDelay: nat, duration: nat): seq<Event>
  {
    [Rst(true), DelayUs(initialDelay), Rst(false), DelayUs(duration), Rst(true), DelayUs(200_000)]
  }

  /** What the panel controller latches for a command with its payload: the opcode, then the
      payload as data. */
  function Sent(address: bv8, data: seq<bv8>): seq<Wire>
  {
    [OpByte(address)] + Tagged(data, true)
  }

  /** Chunking is invisible to the panel: on every path that sends, it receives exactly `data`,
      as data or as command bytes by the DC level, and the DC level is left as it was. */
  lemma WriteStream(path: WritePath, data: seq<bv8>, dcHigh: bool)
    requires path != Discard
    ensures Stream(WritePlan(path, data), dcHigh) == Tagged(data, dcHigh)
    ensures DcAfter(WritePlan(path, data), dcHigh) == dcHigh
  {
    match path
    case Direct =>
      assert [Write(data)][1..] == [];
      assert Tagged(data, dcHigh) + [] == Tagged(data, dcHigh);
    case Chunked =>
      PiecesStream(Chunks(data), dcHigh);
  }

  lemma {:induction false} PiecesStream(pieces: seq<seq<bv8>>, dcHigh: bool)
    ensures Stream(Concat(WriteSteps(pieces)), dcHigh) == Tagged(Concat(pieces), dcHigh)
    ensures DcAfter(Concat(WriteSteps(pieces)), dcHigh) == dcHigh
    decreases |pieces|
  {
    if pieces != [] {
      var n := |pieces| - 1;
      var steps := WriteSteps(pieces);
      assert steps[..n] == WriteSteps(pieces[..n]);
      PiecesStream(pieces[..n], dcHigh);
      var before := Concat(steps[..n]);
      StreamAppend(before, [Write(pieces[n])], dcHigh);
      assert [Write(pieces[n])][1..] == [];
      TaggedAppend(Concat(pieces[..n]), pieces[n], dcHigh);
    }
  }

  /** Whatever `write` does with it, the DC level is unchanged. */
  lemma WriteKeepsDc(path: WritePath, data: seq<bv8>, dcHigh: bool)
    ensures DcAfter(WritePlan(path, data), dcHigh) == dcHigh
  {
    if path != Discard {
      WriteStream(path, data, dcHigh);
    }
  }

  /** The panel receives one opcode byte from `cmd` and the payload as data from `data`, whatever the
      DC level was before. */
  lemma CmdDataStream(path: WritePath, address: bv8, data: seq<bv8>, dcHigh: bool)
    requires path != Discard
    ensures Stream(CmdPlan(path, address), dcHigh) == [OpByte(address)]
    ensures DcAfter(CmdPlan(path, address), dcHigh) == false
    ensures Stream(DataPlan(path, data), dcHigh) == Tagged(data, true)
    ensures DcAfter(DataPlan(path, data), dcHigh) == true
    ensures Stream(CmdDataPlan(path, address, data), dcHigh) == Sent(address, data)
  {
    WriteStream(path, [address], false);
    WriteStream(path, data, true);
    assert CmdPlan(path, address)[1..] == WritePlan(path, [address]);
    assert DataPlan(path, data)[1..] == WritePlan(path, data);
    assert Tagged([address], false) == [OpByte(address)] by {
      assert [address][1..] == [];
    }
    StreamAppend(CmdPlan(path, address), DataPlan(path, data), dcHigh);
  }

  /** `data_x_times(value, n)` delivers `n` data bytes equal to `value`. */
  lemma {:induction false} DataXTimesStream(path: WritePath, value: bv8, repetitions: nat, dcHigh: bool)
    requires path != Discard
    ensures Stream(DataXTimesPlan(path, value, repetitions), dcHigh) == Tagged(seq(repetitions, _ => value), true)
    ensures DcAfter(DataXTimesPlan(path, value, repetitions), dcHigh) == true
    decreases repetitions
  {
    var steps := DataXTimesSteps(path, value, repetitions);
    if repetitions == 0 {
      assert steps == [[Dc(true)]];
      assert steps[..0] == [];
      assert Concat(steps) == [Dc(true)];
      assert [Dc(true)][1..] == [];
    } else {
      var n := repetitions - 1;
      assert steps[..repetitions] == DataXTimesSteps(path, value, n);
      DataXTimesStream(path, value, n, dcHigh);
      var before := DataXTimesPlan(path, value, n);
      StreamAppend(before, WritePlan(path, [value]), dcHigh);
      WriteStream(path, [value], true);
      assert Tagged([value], true) == [DataByte(value)] by {
        assert [value][1..] == [];
      }
      TaggedAppend(seq(n, _ => value), [value], true);
      assert seq(n, _ => value) + [value] == seq(repetitions, _ => value);
    }
  }

  class DisplayInterface {
    /** The busy, DC and reset pins and the SPI device, as one recording object. */
    const hw: Hardware
    const path: WritePath

    /** `DisplayInterface::new(busy, dc, rst)`: takes the pins; nothing is driven yet. */
    constructor (hw: Hardware, path: WritePath)
      ensures this.hw == hw && this.path == path
      ensures hw.log == old(hw.log)
    {
      this.hw := hw;
      this.path := path;
    }

    /** `write(data)`: on the Linux path one transfer per chunk, stopping at the first failure. */
    method Write(data: seq<bv8>) returns (r: Status)
      modifies hw
      ensures Emits(old(hw.log), hw.log, WritePlan(path, data), r)
    {
      match path {
        case Chunked =>
          var chunks := Chunks(data);
          ghost var steps := WriteSteps(chunks);
          for k := 0 to |chunks|
            invariant Emits(old(hw.log), hw.log, Concat(steps[..k]), Ok)
          {
            ghost var before := hw.log;
            r := hw.SpiWrite(chunks[k]);
            EmitsWrite(before, hw.log, chunks[k], r);
            Advance(old(hw.log), before, hw.log, steps, k, r);
            if r.Err? {
              return;
            }
          }
          assert steps[..|chunks|] == steps;
          r := Ok;
        case Direct =>
          ghost var before := hw.log;
          r := hw.SpiWrite(data);
          EmitsWrite(before, hw.log, data, r);
        case Discard =>
          assert hw.log[|hw.log|..] == [];
          r := Ok;
      }
    }

    /** `cmd(command)`: DC low, then the opcode; the transfer's outcome is returned. */
    method Cmd(address: bv8) returns (r: Status)
      modifies hw
      ensures Emits(old(hw.log), hw.log, CmdPlan(path, address), r)
    {
      hw.SetDc(false);
      EmitsEvent(old(hw.log), Dc(false));
      ghost var mid := hw.log;
      r := Write([address]);
      EmitsThen(old(hw.log), mid, hw.log, [Dc(false)], WritePlan(path, [address]), r);
    }

    /** `data(data)`: DC high, then the bytes; a transfer error is returned unchanged. */
    method Data(data: seq<bv8>) returns (r: Status)
      modifies hw
      ensures Emits(old(hw.log), hw.log, DataPlan(path, data), r)
    {
      hw.SetDc(true);
      EmitsEvent(old(hw.log), Dc(true));
      ghost var mid := hw.log;
      r := Write(data);
      EmitsThen(old(hw.log), mid, hw.log, [Dc(true)], WritePlan(path, data), r);
    }

    /** `cmd_with_data(command, data)`: if the command fails, neither DC high nor any data follows. */
    method CmdWithData(address: bv8, data: seq<bv8>) returns (r: Status)
      modifies hw
      ensures Emits(old(hw.log), hw.log, CmdDataPlan(path, address, data), r)
    {
      r := Cmd(address);
      if r.Err? {
        EmitsAbort(old(hw.log), hw.log, CmdPlan(path, address), CmdDataPlan(path, address, data), r.error);
        return;
      }
      ghost var mid := hw.log;
      r := Data(data);
      EmitsThen(old(hw.log), mid, hw.log, CmdPlan(path, address), DataPlan(path, data), r);
    }

    /** `data_x_times(value, repetitions)`: DC high, then one single-byte write per repetition,
        stopping at the first that fails. */
    method DataXTimes(value: bv8, repetitions: u32) returns (r: Status)
      modifies hw
      ensures Emits(old(hw.log), hw.log, DataXTimesPlan(path, value, repetitions), r)
    {
      ghost var steps := DataXTimesSteps(path, value, repetitions);
      hw.SetDc(true);
      EmitsEvent(old(hw.log), Dc(true));
      assert steps[..0] == [] && steps[..1] == [[Dc(true)]];
      assert Concat(steps[..1]) == [Dc(true)] by {
        assert [[Dc(true)]][..0] == [];
      }
      for i := 0 to repetitions
        invariant Emits(old(hw.log), hw.log, Concat(steps[..i + 1]), Ok)
      {
        ghost var before := hw.log;
        r := Write([value]);
        Advance(old(hw.log), before, hw.log, steps, i + 1, r);
        if r.Err? {
          return;
        }
      }
      assert steps[..repetitions + 1] == steps;
      r := Ok;
    }

    /** `wait_until_idle(is_busy_low)`; errors of the pin are discarded. */
    method WaitUntilIdle(isBusyLow: bool)
      modifies hw
      ensures Emits(old(hw.log), hw.log, IdlePlan(isBusyLow), Ok)
    {
      if isBusyLow {
        hw.WaitFor(true);
      } else {
        hw.WaitFor(false);
      }
      EmitsEvent(old(hw.log), WaitBusy(isBusyLow));
    }

    /** `reset(delay, initial_delay, duration)`; errors of the pin are discarded. */
    method Reset(initialDelay: u32, duration: u32)
      modifies hw
      ensures Emits(old(hw.log), hw.log, ResetPlan(initialDelay, duration), Ok)
    {
      hw.SetRst(true);
      hw.Delay(initialDelay);
      hw.SetRst(false);
      hw.Delay(duration);
      hw.SetRst(true);
      hw.Delay(200_000);
      assert hw.log == old(hw.log) + ResetPlan(initialDelay, duration);
      assert hw.log[|old(hw.log)|..] == ResetPlan(initialDelay, duration);
    }
  }
}
