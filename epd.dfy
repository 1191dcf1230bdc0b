/** `Epd7in5`: the driver of the 7.5 inch, 800 x 480, four-colour YRD0750RYF665F60 panel. Every
    operation is a fixed series of interface steps, each aborting the operation on an SPI error. */
module Epd {
  import opened Lib
  import opened Color
  import opened Graphics
  import opened Hal
  import opened Interface

  const WIDTH: u32 := 800
  const HEIGHT: u32 := 480

  /** The panel pulls the busy line low while it works. */
  const IS_BUSY_LOW: bool := true

  /** The bytes of one frame at two bits per pixel, `WIDTH / 4 * HEIGHT`. */
  const FRAME_BYTES: nat := 96_000

  datatype Option<T> = None | Some(value: T)

  /** The controller's command set. */
  datatype Command =
    | PanelSetting | PowerSetting | PowerOff | PowerOn | BoosterSoftStart | DeepSleep
    | DataStartTransmission1 | DataStop | DisplayRefresh | PllControl
    | TemperatureSensor | TemperatureCalibration | TemperatureSensorWrite | TemperatureSensorRead
    | MisteryCommand1 | VcomAndDataIntervalSetting | LowPowerDetection | TconResolution
    | SpiFlashControl | Revision | AutoMeasurementVcom | ReadVcomValue | VcmDcSetting
    | PartialWindow | ProgramMode | ActiveProgram | ReadMTPData | MtpProgramConfig
    | CascadeSetting | PowerSavingSetting | LvdVoltageSelect | MisteryCommand2
  {
    /** `address()`: the opcode, the variant's discriminant; it names the command back. */
    function Address(): (r: bv8)
      ensures FromAddress(r) == Some(this)
    {
      match this
      case PanelSetting => 0x00
      case PowerSetting => 0x01
      case PowerOff => 0x02
      case PowerOn => 0x04
      case BoosterSoftStart => 0x06
      case DeepSleep => 0x07
      case DataStartTransmission1 => 0x10
      case DataStop => 0x11
      case DisplayRefresh => 0x12
      case PllControl => 0x30
      case TemperatureSensor => 0x40
      case TemperatureCalibration => 0x41
      case TemperatureSensorWrite => 0x42
      case TemperatureSensorRead => 0x43
      case MisteryCommand1 => 0x4D
      case VcomAndDataIntervalSetting => 0x50
      case LowPowerDetection => 0x51
      case TconResolution => 0x61
      case SpiFlashControl => 0x65
      case Revision => 0x70
      case AutoMeasurementVcom => 0x80
      case ReadVcomValue => 0x81
      case VcmDcSetting => 0x82
      case PartialWindow => 0x83
      case ProgramMode => 0x90
      case ActiveProgram => 0x91
      case ReadMTPData => 0x92
      case MtpProgramConfig => 0xA2
      case CascadeSetting => 0xE0
      case PowerSavingSetting => 0xE3
      case LvdVoltageSelect => 0xE4
      case MisteryCommand2 => 0xE9
    }
  }

  /** The command an opcode names, if any. */
  function FromAddress(b: bv8): Option<Command>
  {
    match b
    case 0x00 => Some(PanelSetting)
    case 0x01 => Some(PowerSetting)
    case 0x02 => Some(PowerOff)
    case 0x04 => Some(PowerOn)
    case 0x06 => Some(BoosterSoftStart)
    case 0x07 => Some(DeepSleep)
    case 0x10 => Some(DataStartTransmission1)
    case 0x11 => Some(DataStop)
    case 0x12 => Some(DisplayRefresh)
    case 0x30 => Some(PllControl)
    case 0x40 => Some(TemperatureSensor)
    case 0x41 => Some(TemperatureCalibration)
    case 0x42 => Some(TemperatureSensorWrite)
    case 0x43 => Some(TemperatureSensorRead)
    case 0x4D => Some(MisteryCommand1)
    case 0x50 => Some(VcomAndDataIntervalSetting)
    case 0x51 => Some(LowPowerDetection)
    case 0x61 => Some(TconResolution)
    case 0x65 => Some(SpiFlashControl)
    case 0x70 => Some(Revision)
    case 0x80 => Some(AutoMeasurementVcom)
    case 0x81 => Some(ReadVcomValue)
    case 0x82 => Some(VcmDcSetting)
    case 0x83 => Some(PartialWindow)
    case 0x90 => Some(ProgramMode)
    case 0x91 => Some(ActiveProgram)
    case 0x92 => Some(ReadMTPData)
    case 0xA2 => Some(MtpProgramConfig)
    case 0xE0 => Some(CascadeSetting)
    case 0xE3 => Some(PowerSavingSetting)
    case 0xE4 => Some(LvdVoltageSelect)
    case 0xE9 => Some(MisteryCommand2)
    case _ => None
  }

  /** No two commands share an opcode. */
  lemma AddressDistinct(c: Command, d: Command)
    ensures c.Address() == d.Address() ==> c == d
  {
  }

  /** The opcodes of the commands `init` sends. */
  lemma InitOpcodes()
    ensures MisteryCommand1.Address() == 0x4D && PanelSetting.Address() == 0x00
    ensures VcomAndDataIntervalSetting.Address() == 0x50 && SpiFlashControl.Address() == 0x65
    ensures PowerSavingSetting.Address() == 0xE3 && MisteryCommand2.Address() == 0xE9
    ensures PllControl.Address() == 0x30 && PowerOn.Address() == 0x04
  {
    FirstInitOpcodes();
  }

  /** The opcodes of the first four commands `init` sends. */
  lemma FirstInitOpcodes()
    ensures MisteryCommand1.Address() == 0x4D && PanelSetting.Address() == 0x00
    ensures VcomAndDataIntervalSetting.Address() == 0x50 && SpiFlashControl.Address() == 0x65
  {
  }

  /** The opcodes of the commands the other operations send. */
  lemma FrameOpcodes()
    ensures PowerOff.Address() == 0x02 && DeepSleep.Address() == 0x07
    ensures DataStartTransmission1.Address() == 0x10 && DataStop.Address() == 0x11
    ensures DisplayRefresh.Address() == 0x12 && PowerOn.Address() == 0x04
  {
  }

  /** The panel's geometry: `Display7in5` is sized `buffer_len(WIDTH, 2 * HEIGHT)`, which is the
      bound `WIDTH / 4 * HEIGHT` of the slice `update_frame` sends and the repetition count
      `WIDTH * HEIGHT / 4` of `clear_frame`; one row takes 200 bytes. */
  lemma FrameGeometry()
    ensures BufferLen(WIDTH, 2 * HEIGHT) == FRAME_BYTES
    ensures WIDTH / 4 * HEIGHT == FRAME_BYTES && WIDTH * HEIGHT / 4 == FRAME_BYTES
    ensures LineBytes(WIDTH, BITS_PER_PIXEL) == 200
    ensures LineBytes(WIDTH, BITS_PER_PIXEL) * HEIGHT == FRAME_BYTES
  {
    BufferLenWholeBytes(WIDTH, 2 * HEIGHT);
  }

  /** A `Display7in5` contains the byte of every pixel inside the frame, so no `set_pixel` on it
      indexes out of bounds. */
  lemma Display7in5Fits(pixels: seq<Pixel>)
    ensures AllFit(FRAME_BYTES, WIDTH, HEIGHT, pixels)
  {
    FrameGeometry();
    forall p <- pixels | InFrame(p, WIDTH, HEIGHT)
      ensures PixelIndex(p.x, p.y, WIDTH) < FRAME_BYTES
    {
      IndexInBounds(p, WIDTH, HEIGHT);
    }
  }

  /** The bytes of `Display7in5::default()`. */
  function BlankFrame(): (r: seq<bv8>)
    ensures |r| == FRAME_BYTES
  {
    seq(FRAME_BYTES, _ => DefaultColorByte())
  }

  // ----- the operations, as series of interface steps -----

  /** The driver operations that run a fixed series of interface steps. */
  datatype Operation =
    | Init
    | Sleep
    | UpdateFrame(buffer: seq<bv8>)
    | DisplayFrame
    | ClearFrame

  /** An operation the driver can run without panicking: the frame upload slices the first
      `FRAME_BYTES` bytes of its buffer. */
  predicate Runnable(op: Operation)
  {
    op.UpdateFrame? ==> |op.buffer| >= FRAME_BYTES
  }

  /** How many interface steps an operation takes. */
  function StepCount(op: Operation): nat
  {
    match op
    case Init => 11
    case Sleep => 4
    case UpdateFrame(_) => 2
    case DisplayFrame => 2
    case ClearFrame => 5
  }

  /** Step `k` of an operation: what the interface call it makes performs. Waits never fail; every
      other step aborts the operation on an SPI error. */
  function Step(path: WritePath, op: Operation, k: nat): seq<Event>
    requires Runnable(op) && k < StepCount(op)
  {
    match op
    case Init =>
      (match k
       case 0 => ResetPlan(20_000, 20_000)
       case 1 => IdlePlan(IS_BUSY_LOW)
       case 2 => CmdDataPlan(path, 0x4D, [0x78])  // MisteryCommand1
       case 3 => CmdDataPlan(path, 0x00, [0x2F, 0x29])  // PanelSetting
       case 4 => CmdDataPlan(path, 0x50, [0x37])  // VcomAndDataIntervalSetting
       case 5 => CmdDataPlan(path, 0x65, [0x00, 0x00, 0x00, 0x00])  // SpiFlashControl
       case 6 => CmdDataPlan(path, 0xE3, [0x88])  // PowerSavingSetting
       case 7 => CmdDataPlan(path, 0xE9, [0x01])  // MisteryCommand2
       case 8 => CmdDataPlan(path, 0x30, [0x08])  // PllControl
       case 9 => CmdPlan(path, 0x04)  // PowerOn
       case _ => IdlePlan(IS_BUSY_LOW))
    case Sleep =>
      (match k
       case 0 => IdlePlan(IS_BUSY_LOW)
       case 1 => CmdDataPlan(path, 0x02, [0x00])  // PowerOff
       case 2 => IdlePlan(IS_BUSY_LOW)
       case _ => CmdDataPlan(path, 0x07, [0xA5]))  // DeepSleep
    case UpdateFrame(buffer) =>
      if k == 0 then IdlePlan(IS_BUSY_LOW)
      else CmdDataPlan(path, 0x10, buffer[..FRAME_BYTES])  // DataStartTransmission1
    case DisplayFrame =>
      if k == 0 then CmdDataPlan(path, 0x12, [0x00])  // DisplayRefresh
      else IdlePlan(IS_BUSY_LOW)
    case ClearFrame =>
      // the refresh carries no payload and is not waited for
      (match k
       case 0 => IdlePlan(IS_BUSY_LOW)
       case 1 => CmdPlan(path, 0x10)  // DataStartTransmission1
       case 2 => DataXTimesPlan(path, DefaultColorByte(), WIDTH * HEIGHT / 4)
       case 3 => CmdPlan(path, 0x11)  // DataStop
       case _ => CmdPlan(path, 0x12))  // DisplayRefresh
  }

  /** The steps of an operation from step `k` on. */
  function PlanFrom(path: WritePath, op: Operation, k: nat): seq<Event>
    requires Runnable(op) && k <= StepCount(op)
    decreases StepCount(op) - k
  {
    if k == StepCount(op) then [] else Step(path, op, k) + PlanFrom(path, op, k + 1)
  }

  /** The plan of `init`, step by step. */
  lemma InitSteps(path: WritePath)
    ensures PlanFrom(path, Operation.Init, 0) == ResetPlan(20_000, 20_000) + PlanFrom(path, Operation.Init, 1)
    ensures PlanFrom(path, Operation.Init, 1) == IdlePlan(IS_BUSY_LOW) + PlanFrom(path, Operation.Init, 2)
    ensures PlanFrom(path, Operation.Init, 2) == CmdDataPlan(path, 0x4D, [0x78]) + PlanFrom(path, Operation.Init, 3)
    ensures PlanFrom(path, Operation.Init, 3) == CmdDataPlan(path, 0x00, [0x2F, 0x29]) + PlanFrom(path, Operation.Init, 4)
    ensures PlanFrom(path, Operation.Init, 4) == CmdDataPlan(path, 0x50, [0x37]) + PlanFrom(path, Operation.Init, 5)
    ensures PlanFrom(path, Operation.Init, 5) == CmdDataPlan(path, 0x65, [0x00, 0x00, 0x00, 0x00]) + PlanFrom(path, Operation.Init, 6)
    ensures PlanFrom(path, Operation.Init, 6) == CmdDataPlan(path, 0xE3, [0x88]) + PlanFrom(path, Operation.Init, 7)
    ensures PlanFrom(path, Operation.Init, 7) == CmdDataPlan(path, 0xE9, [0x01]) + PlanFrom(path, Operation.Init, 8)
    ensures PlanFrom(path, Operation.Init, 8) == CmdDataPlan(path, 0x30, [0x08]) + PlanFrom(path, Operation.Init, 9)
    ensures PlanFrom(path, Operation.Init, 9) == CmdPlan(path, 0x04) + PlanFrom(path, Operation.Init, 10)
    ensures PlanFrom(path, Operation.Init, 10) == IdlePlan(IS_BUSY_LOW) + PlanFrom(path, Operation.Init, 11)
    ensures PlanFrom(path, Operation.Init, 11) == []
  {
    assert Step(path, Operation.Init, 0) == ResetPlan(20_000, 20_000);
    assert Step(path, Operation.Init, 1) == IdlePlan(IS_BUSY_LOW);
    assert Step(path, Operation.Init, 2) == CmdDataPlan(path, 0x4D, [0x78]);
    assert Step(path, Operation.Init, 3) == CmdDataPlan(path, 0x00, [0x2F, 0x29]);
    assert Step(path, Operation.Init, 4) == CmdDataPlan(path, 0x50, [0x37]);
    assert Step(path, Operation.Init, 5) == CmdDataPlan(path, 0x65, [0x00, 0x00, 0x00, 0x00]);
    assert Step(path, Operation.Init, 6) == CmdDataPlan(path, 0xE3, [0x88]);
    assert Step(path, Operation.Init, 7) == CmdDataPlan(path, 0xE9, [0x01]);
    assert Step(path, Operation.Init, 8) == CmdDataPlan(path, 0x30, [0x08]);
    assert Step(path, Operation.Init, 9) == CmdPlan(path, 0x04);
    assert Step(path, Operation.Init, 10) == IdlePlan(IS_BUSY_LOW);
  }

  /** The plan of `sleep`, step by step. */
  lemma SleepSteps(path: WritePath)
    ensures PlanFrom(path, Operation.Sleep, 0) == IdlePlan(IS_BUSY_LOW) + PlanFrom(path, Operation.Sleep, 1)
    ensures PlanFrom(path, Operation.Sleep, 1) == CmdDataPlan(path, 0x02, [0x00]) + PlanFrom(path, Operation.Sleep, 2)
    ensures PlanFrom(path, Operation.Sleep, 2) == IdlePlan(IS_BUSY_LOW) + PlanFrom(path, Operation.Sleep, 3)
    ensures PlanFrom(path, Operation.Sleep, 3) == CmdDataPlan(path, 0x07, [0xA5]) + PlanFrom(path, Operation.Sleep, 4)
    ensures PlanFrom(path, Operation.Sleep, 4) == []
  {
    assert Step(path, Operation.Sleep, 0) == IdlePlan(IS_BUSY_LOW);
    assert Step(path, Operation.Sleep, 1) == CmdDataPlan(path, 0x02, [0x00]);
    assert Step(path, Operation.Sleep, 2) == IdlePlan(IS_BUSY_LOW);
    assert Step(path, Operation.Sleep, 3) == CmdDataPlan(path, 0x07, [0xA5]);
  }

  /** The plan of `update_frame`, step by step. */
  lemma UpdateSteps(path: WritePath, buffer: seq<bv8>)
    requires |buffer| >= FRAME_BYTES
    ensures PlanFrom(path, Operation.UpdateFrame(buffer), 0) == IdlePlan(IS_BUSY_LOW) + PlanFrom(path, Operation.UpdateFrame(buffer), 1)
    ensures PlanFrom(path, Operation.UpdateFrame(buffer), 1) == CmdDataPlan(path, 0x10, buffer[..FRAME_BYTES]) + PlanFrom(path, Operation.UpdateFrame(buffer), 2)
    ensures PlanFrom(path, Operation.UpdateFrame(buffer), 2) == []
  {
    assert Step(path, Operation.UpdateFrame(buffer), 0) == IdlePlan(IS_BUSY_LOW);
    assert Step(path, Operation.UpdateFrame(buffer), 1) == CmdDataPlan(path, 0x10, buffer[..FRAME_BYTES]);
  }

  /** The plan of `display_frame`, step by step. */
  lemma DisplaySteps(path: WritePath)
    ensures PlanFrom(path, Operation.DisplayFrame, 0) == CmdDataPlan(path, 0x12, [0x00]) + PlanFrom(path, Operation.DisplayFrame, 1)
    ensures PlanFrom(path, Operation.DisplayFrame, 1) == IdlePlan(IS_BUSY_LOW) + PlanFrom(path, Operation.DisplayFrame, 2)
    ensures PlanFrom(path, Operation.DisplayFrame, 2) == []
  {
    assert Step(path, Operation.DisplayFrame, 0) == CmdDataPlan(path, 0x12, [0x00]);
    assert Step(path, Operation.DisplayFrame, 1) == IdlePlan(IS_BUSY_LOW);
  }

  /** The plan of `clear_frame`, step by step. */
  lemma ClearSteps(path: WritePath)
    ensures PlanFrom(path, Operation.ClearFrame, 0) == IdlePlan(IS_BUSY_LOW) + PlanFrom(path, Operation.ClearFrame, 1)
    ensures PlanFrom(path, Operation.ClearFrame, 1) == CmdPlan(path, 0x10) + PlanFrom(path, Operation.ClearFrame, 2)
    ensures PlanFrom(path, Operation.ClearFrame, 2) == DataXTimesPlan(path, DefaultColorByte(), WIDTH * HEIGHT / 4) + PlanFrom(path, Operation.ClearFrame, 3)
    ensures PlanFrom(path, Operation.ClearFrame, 3) == CmdPlan(path, 0x11) + PlanFrom(path, Operation.ClearFrame, 4)
    ensures PlanFrom(path, Operation.ClearFrame, 4) == CmdPlan(path, 0x12) + PlanFrom(path, Operation.ClearFrame, 5)
    ensures PlanFrom(path, Operation.ClearFrame, 5) == []
  {
    assert Step(path, Operation.ClearFrame, 0) == IdlePlan(IS_BUSY_LOW);
    assert Step(path, Operation.ClearFrame, 1) == CmdPlan(path, 0x10);
    assert Step(path, Operation.ClearFrame, 2) == DataXTimesPlan(path, DefaultColorByte(), WIDTH * HEIGHT / 4);
    assert Step(path, Operation.ClearFrame, 3) == CmdPlan(path, 0x11);
    assert Step(path, Operation.ClearFrame, 4) == CmdPlan(path, 0x12);
  }

  /** The whole plan of an operation. */
  function Plan(path: WritePath, op: Operation): seq<Event>
    requires Runnable(op)
  {
    PlanFrom(path, op, 0)
  }

  /** `update_and_display_frame`: the upload, power-on, then the refresh; no wait between the
      upload and power-on. */
  function UpdateAndDisplayPlan(path: WritePath, buffer: seq<bv8>): seq<Event>
    requires |buffer| >= FRAME_BYTES
  {
    Plan(path, UpdateFrame(buffer)) + CmdPlan(path, 0x04) + Plan(path, DisplayFrame)
  }

  // ----- what the controller receives -----

  /** The bytes step `k` of an operation delivers, with the opcodes written out. */
  function WireStep(op: Operation, k: nat): seq<Wire>
    requires Runnable(op) && k < StepCount(op)
  {
    match op
    case Init =>
      (match k
       case 2 => Sent(0x4D, [0x78])
       case 3 => Sent(0x00, [0x2F, 0x29])
       case 4 => Sent(0x50, [0x37])
       case 5 => Sent(0x65, [0x00, 0x00, 0x00, 0x00])
       case 6 => Sent(0xE3, [0x88])
       case 7 => Sent(0xE9, [0x01])
       case 8 => Sent(0x30, [0x08])
       case 9 => [OpByte(0x04)]
       case _ => [])
    case Sleep =>
      (match k
       case 1 => Sent(0x02, [0x00])
       case 3 => Sent(0x07, [0xA5])
       case _ => [])
    case UpdateFrame(buffer) =>
      if k == 0 then [] else Sent(0x10, buffer[..FRAME_BYTES])
    case DisplayFrame =>
      if k == 0 then Sent(0x12, [0x00]) else []
    case ClearFrame =>
      (match k
       case 1 => [OpByte(0x10)]
       case 2 => Tagged(BlankFrame(), true)
       case 3 => [OpByte(0x11)]
       case 4 => [OpByte(0x12)]
       case _ => [])
  }

  /** The bytes of the steps of an operation from step `k` on. */
  function WireFrom(op: Operation, k: nat): seq<Wire>
    requires Runnable(op) && k <= StepCount(op)
    decreases StepCount(op) - k
  {
    if k == StepCount(op) then [] else WireStep(op, k) + WireFrom(op, k + 1)
  }

  /** Each step delivers its bytes, whatever the DC level before it. */
  lemma StepStream(path: WritePath, op: Operation, k: nat, dcHigh: bool)
    requires path != Discard && Runnable(op) && k < StepCount(op)
    ensures Stream(Step(path, op, k), dcHigh) == WireStep(op, k)
  {
    match op
    case Init => InitStepStream(path, k, dcHigh);
    case Sleep =>
      if k == 0 || k == 2 {
        QuietStream(IdlePlan(IS_BUSY_LOW), dcHigh);
      } else if k == 1 {
        CmdDataStream(path, 0x02, [0x00], dcHigh);
      } else {
        CmdDataStream(path, 0x07, [0xA5], dcHigh);
      }
    case UpdateFrame(buffer) =>
      if k == 0 {
        QuietStream(IdlePlan(IS_BUSY_LOW), dcHigh);
      } else {
        CmdDataStream(path, 0x10, buffer[..FRAME_BYTES], dcHigh);
      }
    case DisplayFrame =>
      if k == 0 {
        CmdDataStream(path, 0x12, [0x00], dcHigh);
      } else {
        QuietStream(IdlePlan(IS_BUSY_LOW), dcHigh);
      }
    case ClearFrame => ClearStepStream(path, k, dcHigh);
  }

  lemma InitStepStream(path: WritePath, k: nat, dcHigh: bool)
    requires path != Discard && k < StepCount(Init)
    ensures Stream(Step(path, Init, k), dcHigh) == WireStep(Init, k)
  {
    match k {
      case 0 => QuietStream(ResetPlan(20_000, 20_000), dcHigh);
      case 1 => QuietStream(IdlePlan(IS_BUSY_LOW), dcHigh);
      case 2 => CmdDataStream(path, 0x4D, [0x78], dcHigh);
      case 3 => CmdDataStream(path, 0x00, [0x2F, 0x29], dcHigh);
      case 4 => CmdDataStream(path, 0x50, [0x37], dcHigh);
      case 5 => CmdDataStream(path, 0x65, [0x00, 0x00, 0x00, 0x00], dcHigh);
      case 6 => CmdDataStream(path, 0xE3, [0x88], dcHigh);
      case 7 => CmdDataStream(path, 0xE9, [0x01], dcHigh);
      case 8 => CmdDataStream(path, 0x30, [0x08], dcHigh);
      case 9 => CmdDataStream(path, 0x04, [], dcHigh);
      case _ => QuietStream(IdlePlan(IS_BUSY_LOW), dcHigh);
    }
  }

  lemma ClearStepStream(path: WritePath, k: nat, dcHigh: bool)
    requires path != Discard && k < StepCount(ClearFrame)
    ensures Stream(Step(path, ClearFrame, k), dcHigh) == WireStep(ClearFrame, k)
  {
    match k {
      case 0 => QuietStream(IdlePlan(IS_BUSY_LOW), dcHigh);
      case 1 => CmdDataStream(path, 0x10, [], dcHigh);
      case 2 =>
        FrameGeometry();
        DataXTimesStream(path, DefaultColorByte(), FRAME_BYTES, dcHigh);
      case 3 => CmdDataStream(path, 0x11, [], dcHigh);
      case _ => CmdDataStream(path, 0x12, [], dcHigh);
    }
  }

  /** The steps from `k` on deliver their bytes in order, whatever the DC level before them. */
  lemma {:induction false} StreamFrom(path: WritePath, op: Operation, k: nat, dcHigh: bool)
    requires path != Discard && Runnable(op) && k <= StepCount(op)
    ensures Stream(PlanFrom(path, op, k), dcHigh) == WireFrom(op, k)
    decreases StepCount(op) - k, 1
  {
    if k < StepCount(op) {
      match op {
        case Init => StreamStep(path, Init, k, dcHigh);
        case Sleep => StreamStep(path, Sleep, k, dcHigh);
        case UpdateFrame(buffer) => StreamStep(path, UpdateFrame(buffer), k, dcHigh);
        case DisplayFrame => StreamStep(path, DisplayFrame, k, dcHigh);
        case ClearFrame => StreamStep(path, ClearFrame, k, dcHigh);
      }
    }
  }

  lemma StreamStep(path: WritePath, op: Operation, k: nat, dcHigh: bool)
    requires path != Discard && Runnable(op) && k < StepCount(op)
    ensures Stream(PlanFrom(path, op, k), dcHigh) == WireFrom(op, k)
    decreases StepCount(op) - k, 0
  {
    var step := Step(path, op, k);
    StepStream(path, op, k, dcHigh);
    StreamFrom(path, op, k + 1, DcAfter(step, dcHigh));
    StreamAppend(step, PlanFrom(path, op, k + 1), dcHigh);
  }

  /** An operation delivers the bytes of its steps, in order. */
  lemma PlanStream(path: WritePath, op: Operation, dcHigh: bool)
    requires path != Discard && Runnable(op)
    ensures Stream(Plan(path, op), dcHigh) == WireFrom(op, 0)
  {
    StreamFrom(path, op, 0, dcHigh);
  }

  /** `update_frame` delivers opcode `0x10` and then exactly the first `FRAME_BYTES` bytes of the
      buffer as data; bytes beyond them are never sent. */
  lemma UpdateStream(path: WritePath, buffer: seq<bv8>, dcHigh: bool)
    requires path != Discard && |buffer| >= FRAME_BYTES
    ensures Stream(Plan(path, UpdateFrame(buffer)), dcHigh) == Sent(0x10, buffer[..FRAME_BYTES])
  {
    PlanStream(path, UpdateFrame(buffer), dcHigh);
    assert WireFrom(UpdateFrame(buffer), 1) == Sent(0x10, buffer[..FRAME_BYTES]);
  }

  /** `display_frame` delivers the refresh with payload `0x00`. */
  lemma DisplayStream(path: WritePath, dcHigh: bool)
    requires path != Discard
    ensures Stream(Plan(path, DisplayFrame), dcHigh) == Sent(0x12, [0x00])
  {
    PlanStream(path, DisplayFrame, dcHigh);
    assert WireFrom(DisplayFrame, 1) == [];
  }

  /** `update_and_display_frame` delivers the frame, power-on, and a refresh with payload `0x00`. */
  lemma UpdateAndDisplayStream(path: WritePath, buffer: seq<bv8>, dcHigh: bool)
    requires path != Discard && |buffer| >= FRAME_BYTES
    ensures Stream(UpdateAndDisplayPlan(path, buffer), dcHigh)
         == Sent(0x10, buffer[..FRAME_BYTES]) + [OpByte(0x04)] + Sent(0x12, [0x00])
  {
    var upload, powerOn := Plan(path, UpdateFrame(buffer)), CmdPlan(path, 0x04);
    UpdateStream(path, buffer, dcHigh);
    StreamAppend(upload, powerOn, dcHigh);
    CmdDataStream(path, 0x04, [], DcAfter(upload, dcHigh));
    DisplayStream(path, DcAfter(upload + powerOn, dcHigh));
    StreamAppend(upload + powerOn, Plan(path, DisplayFrame), dcHigh);
  }

  /** `clear_frame` uploads `FRAME_BYTES` data bytes of `0x55`, the bytes of a default
      `Display7in5`, then stops the transfer and refreshes: the same bytes as an `update_frame` of a
      blank display, followed by the two opcodes. */
  lemma ClearIsBlankUpdate(path: WritePath, dcHigh: bool)
    requires path != Discard
    ensures Stream(Plan(path, ClearFrame), dcHigh)
         == Stream(Plan(path, UpdateFrame(BlankFrame())), dcHigh) + [OpByte(0x11), OpByte(0x12)]
  {
    PlanStream(path, ClearFrame, dcHigh);
    ClearWire();
    UpdateStream(path, BlankFrame(), dcHigh);
  }

  /** The bytes of the steps of `clear_frame`, joined. */
  lemma ClearWire()
    ensures WireFrom(ClearFrame, 0) == Sent(0x10, BlankFrame()[..FRAME_BYTES]) + [OpByte(0x11), OpByte(0x12)]
  {
    assert BlankFrame()[..FRAME_BYTES] == BlankFrame();
    assert WireFrom(ClearFrame, 3) == [OpByte(0x11), OpByte(0x12)];
  }

  // ----- the simulator build's decoding of a frame -----

  /** The field shifts the simulator reads a byte at, in order: 0, 2, 4, 6. */
  function FieldShift(j: nat): (s: bv8)
    requires j < 4
    ensures s <= 6
  {
    if j == 0 then 0 else if j == 1 then 2 else if j == 2 then 4 else 6
  }

  /** The simulator reads pixel `x`'s field where the simulator build's `set_pixel` writes it. */
  lemma FieldShiftIsLsbFirst(x: u32)
    ensures FieldShift(x % 4) == Shift(LsbFirst, x)
  {
  }

  /** The four colours of one byte, lowest field first. */
  function ByteColors(b: bv8): seq<QuadColor>
  {
    [FromBits(FieldAt(b, 0)), FromBits(FieldAt(b, 2)), FromBits(FieldAt(b, 4)), FromBits(FieldAt(b, 6))]
  }

  /** The colour stream of the simulator `update_frame`: four colours per byte; colour `i` is the
      field of byte `i / 4` at shift `2 * (i % 4)`. */
  function FrameColors(buffer: seq<bv8>): (r: seq<QuadColor>)
    ensures |r| == 4 * |buffer|
    ensures forall i | 0 <= i < |r| :: r[i] == FromBits(FieldAt(buffer[i / 4], FieldShift(i % 4)))
    decreases |buffer|
  {
    if buffer == [] then []
    else
      var n := |buffer| - 1;
      var init := FrameColors(buffer[..n]);
      var r := init + ByteColors(buffer[n]);
      assert forall i | 4 * n <= i < 4 * n + 4 :: i / 4 == n && i % 4 == i - 4 * n;
      r
  }

  /** The pixels the simulator `update_frame` draws: colour `i` at `(i % WIDTH, i / WIDTH)`. */
  function FramePixels(buffer: seq<bv8>): (r: seq<Pixel>)
    ensures |r| == 4 * |buffer|
  {
    var colors := FrameColors(buffer);
    seq(|colors|, i requires 0 <= i < |colors| =>
      Pixel(UsizeAsI32(i % WIDTH as nat), UsizeAsI32(i / WIDTH as nat), colors[i]))
  }

  /** Decoding inverts the simulator build's packing: for every pixel whose byte is in the
      buffer, the pixel drawn at `(x, y)` has the colour `set_pixel` stored for it. */
  lemma FrameDecodes(buffer: seq<bv8>, x: u32, y: nat)
    requires x < WIDTH && y < 0x8000_0000
    requires PixelIndex(x, y, WIDTH) < |buffer|
    ensures y * WIDTH + x < |FramePixels(buffer)|
    ensures FramePixels(buffer)[y * WIDTH + x] == Pixel(x, y, PixelAt(buffer, WIDTH, x, y, LsbFirst))
  {
    FrameGeometry();
    var i := y * WIDTH + x;
    assert PixelIndex(x, y, WIDTH) == y * 200 + x / 4;
    assert i / 4 == y * 200 + x / 4 && i % 4 == x % 4;
    assert i % WIDTH as nat == x && i / WIDTH as nat == y;
    FieldShiftIsLsbFirst(x);
  }

  /** In a buffer no longer than a frame, no two of the pixels the simulator draws share a
      position, so each position shows the one pixel drawn there. */
  lemma FramePixelsDistinct(buffer: seq<bv8>, i: nat, j: nat)
    requires |buffer| <= FRAME_BYTES
    requires i < 4 * |buffer| && j < 4 * |buffer|
    requires FramePixels(buffer)[i].x == FramePixels(buffer)[j].x
    requires FramePixels(buffer)[i].y == FramePixels(buffer)[j].y
    ensures i == j
  {
    var w := WIDTH as nat;
    assert i % w == FramePixels(buffer)[i].x && i / w == FramePixels(buffer)[i].y;
    assert j % w == FramePixels(buffer)[j].x && j / w == FramePixels(buffer)[j].y;
    assert i == i / w * w + i % w && j == j / w * w + j % w;
  }

  /** What the simulator shows of a drawn `Display7in5`: after `draw_iter` on a blank display,
      the pixel at the place of the last in-frame write to it has that write's colour. */
  lemma SimulatorShowsDrawn(pixels: seq<Pixel>, k: nat)
    requires k < |pixels| && InFrame(pixels[k], WIDTH, HEIGHT)
    requires forall j | k < j < |pixels| ::
      !(InFrame(pixels[j], WIDTH, HEIGHT) && pixels[j].x == pixels[k].x && pixels[j].y == pixels[k].y)
    ensures AllFit(FRAME_BYTES, WIDTH, HEIGHT, pixels)
    ensures var frame := FramePixels(DrawAll(BlankFrame(), WIDTH, HEIGHT, pixels, LsbFirst));
      && pixels[k].y * WIDTH + pixels[k].x < |frame|
      && frame[pixels[k].y * WIDTH + pixels[k].x] == pixels[k]
  {
    Display7in5Fits(pixels);
    var drawn := DrawAll(BlankFrame(), WIDTH, HEIGHT, pixels, LsbFirst);
    DrawLastWins(BlankFrame(), WIDTH, HEIGHT, pixels, LsbFirst, k);
    FrameDecodes(drawn, pixels[k].x, pixels[k].y);
  }

  // ----- the driver -----

  class Epd7in5 {
    const iface: DisplayInterface

    /** `new(spi, busy, dc, rst, delay)`: wraps the pins in a `DisplayInterface` and touches nothing. */
    constructor New(hw: Hardware, path: WritePath)
      ensures iface.hw == hw && iface.path == path
      ensures hw.log == old(hw.log)
    {
      iface := new DisplayInterface(hw, path);
    }

    /** `width()`: whole bytes per row, four pixels to a byte. */
    function Width(): (r: u32)
      ensures r % 4 == 0 && r / 4 * HEIGHT == FRAME_BYTES
    {
      WIDTH
    }

    /** `height()`: rows of `WIDTH / 4` bytes fill the frame exactly. */
    function Height(): (r: u32)
      ensures LineBytes(WIDTH, BITS_PER_PIXEL) * r == FRAME_BYTES
    {
      FrameGeometry();
      HEIGHT
    }

    /** `wait_until_idle()`: waits for the busy line to go high and always succeeds. */
    method WaitUntilIdle() returns (r: Status)
      modifies iface.hw
      ensures r == Ok
      ensures Emits(old(iface.hw.log), iface.hw.log, IdlePlan(IS_BUSY_LOW), r)
    {
      iface.WaitUntilIdle(IS_BUSY_LOW);
      r := Ok;
    }

    /** `init()`: the reset pulse, then the configuration commands, then power-on. */
    method Init() returns (r: Status)
      modifies iface.hw
      ensures Emits(old(iface.hw.log), iface.hw.log, Plan(iface.path, Operation.Init), r)
    {
      ghost var start := iface.hw.log;
      ghost var whole := Plan(iface.path, Operation.Init);
      InitOpcodes();
      InitSteps(iface.path);
      ghost var mid := start;
      LeadsStart(start, whole);
      iface.Reset(20_000, 20_000);
      LeadsStep(start, mid, iface.hw.log, ResetPlan(20_000, 20_000), PlanFrom(iface.path, Operation.Init, 1), whole, Ok);
      mid := iface.hw.log;
      r := WaitUntilIdle();
      LeadsStep(start, mid, iface.hw.log, IdlePlan(IS_BUSY_LOW), PlanFrom(iface.path, Operation.Init, 2), whole, r);
      mid := iface.hw.log;
      r := iface.CmdWithData(MisteryCommand1.Address(), [0x78]);
      LeadsStep(start, mid, iface.hw.log, CmdDataPlan(iface.path, 0x4D, [0x78]), PlanFrom(iface.path, Operation.Init, 3), whole, r);
      if r.Err? { return; }
      mid := iface.hw.log;
      r := iface.CmdWithData(PanelSetting.Address(), [0x2F, 0x29]);
      LeadsStep(start, mid, iface.hw.log, CmdDataPlan(iface.path, 0x00, [0x2F, 0x29]), PlanFrom(iface.path, Operation.Init, 4), whole, r);
      if r.Err? { return; }
      mid := iface.hw.log;
      r := iface.CmdWithData(VcomAndDataIntervalSetting.Address(), [0x37]);
      LeadsStep(start, mid, iface.hw.log, CmdDataPlan(iface.path, 0x50, [0x37]), PlanFrom(iface.path, Operation.Init, 5), whole, r);
      if r.Err? { return; }
      mid := iface.hw.log;
      r := iface.CmdWithData(SpiFlashControl.Address(), [0x00, 0x00, 0x00, 0x00]);
      LeadsStep(start, mid, iface.hw.log, CmdDataPlan(iface.path, 0x65, [0x00, 0x00, 0x00, 0x00]), PlanFrom(iface.path, Operation.Init, 6), whole, r);
      if r.Err? { return; }
      mid := iface.hw.log;
      r := iface.CmdWithData(PowerSavingSetting.Address(), [0x88]);
      LeadsStep(start, mid, iface.hw.log, CmdDataPlan(iface.path, 0xE3, [0x88]), PlanFrom(iface.path, Operation.Init, 7), whole, r);
      if r.Err? { return; }
      mid := iface.hw.log;
      r := iface.CmdWithData(MisteryCommand2.Address(), [0x01]);
      LeadsStep(start, mid, iface.hw.log, CmdDataPlan(iface.path, 0xE9, [0x01]), PlanFrom(iface.path, Operation.Init, 8), whole, r);
      if r.Err? { return; }
      mid := iface.hw.log;
      r := iface.CmdWithData(PllControl.Address(), [0x08]);
      LeadsStep(start, mid, iface.hw.log, CmdDataPlan(iface.path, 0x30, [0x08]), PlanFrom(iface.path, Operation.Init, 9), whole, r);
      if r.Err? { return; }
      mid := iface.hw.log;
      r := iface.Cmd(PowerOn.Address());
      LeadsStep(start, mid, iface.hw.log, CmdPlan(iface.path, 0x04), PlanFrom(iface.path, Operation.Init, 10), whole, r);
      if r.Err? { return; }
      mid := iface.hw.log;
      r := WaitUntilIdle();
      LeadsStep(start, mid, iface.hw.log, IdlePlan(IS_BUSY_LOW), PlanFrom(iface.path, Operation.Init, 11), whole, r);
      if r.Ok? {
        LeadsDone(start, iface.hw.log, whole);
      }
    }

    /** `wake_up()`: initialises the panel again. */
    method WakeUp() returns (r: Status)
      modifies iface.hw
      ensures Emits(old(iface.hw.log), iface.hw.log, Plan(iface.path, Operation.Init), r)
    {
      r := Init();
    }

    /** `sleep()`: power off, then deep sleep. */
    method Sleep() returns (r: Status)
      modifies iface.hw
      ensures Emits(old(iface.hw.log), iface.hw.log, Plan(iface.path, Operation.Sleep), r)
    {
      ghost var start := iface.hw.log;
      ghost var whole := Plan(iface.path, Operation.Sleep);
      FrameOpcodes();
      SleepSteps(iface.path);
      ghost var mid := start;
      LeadsStart(start, whole);
      r := WaitUntilIdle();
      LeadsStep(start, mid, iface.hw.log, IdlePlan(IS_BUSY_LOW), PlanFrom(iface.path, Operation.Sleep, 1), whole, r);
      mid := iface.hw.log;
      r := iface.CmdWithData(PowerOff.Address(), [0x00]);
      LeadsStep(start, mid, iface.hw.log, CmdDataPlan(iface.path, 0x02, [0x00]), PlanFrom(iface.path, Operation.Sleep, 2), whole, r);
      if r.Err? { return; }
      mid := iface.hw.log;
      r := WaitUntilIdle();
      LeadsStep(start, mid, iface.hw.log, IdlePlan(IS_BUSY_LOW), PlanFrom(iface.path, Operation.Sleep, 3), whole, r);
      mid := iface.hw.log;
      r := iface.CmdWithData(DeepSleep.Address(), [0xA5]);
      LeadsStep(start, mid, iface.hw.log, CmdDataPlan(iface.path, 0x07, [0xA5]), PlanFrom(iface.path, Operation.Sleep, 4), whole, r);
      if r.Ok? {
        LeadsDone(start, iface.hw.log, whole);
      }
    }

    /** `update_frame(buffer)` of the hardware build: the first `FRAME_BYTES` bytes of the buffer
        go to the controller's frame memory; a shorter buffer makes the slice panic. */
    method UpdateFrame(buffer: seq<bv8>) returns (r: Status)
      requires iface.path != Discard
      requires |buffer| >= FRAME_BYTES
      modifies iface.hw
      ensures Emits(old(iface.hw.log), iface.hw.log, Plan(iface.path, Operation.UpdateFrame(buffer)), r)
    {
      ghost var start := iface.hw.log;
      ghost var whole := Plan(iface.path, Operation.UpdateFrame(buffer));
      FrameOpcodes();
      UpdateSteps(iface.path, buffer);
      LeadsStart(start, whole);
      r := WaitUntilIdle();
      LeadsStep(start, start, iface.hw.log, IdlePlan(IS_BUSY_LOW), PlanFrom(iface.path, Operation.UpdateFrame(buffer), 1), whole, r);
      ghost var mid := iface.hw.log;
      r := iface.CmdWithData(DataStartTransmission1.Address(), buffer[..FRAME_BYTES]);
      LeadsStep(start, mid, iface.hw.log, CmdDataPlan(iface.path, 0x10, buffer[..FRAME_BYTES]), PlanFrom(iface.path, Operation.UpdateFrame(buffer), 2), whole, r);
      if r.Ok? {
        LeadsDone(start, iface.hw.log, whole);
      }
    }

    /** `display_frame()` of the hardware build: refresh, then wait for the panel. */
    method DisplayFrame() returns (r: Status)
      requires iface.path != Discard
      modifies iface.hw
      ensures Emits(old(iface.hw.log), iface.hw.log, Plan(iface.path, Operation.DisplayFrame), r)
    {
      ghost var start := iface.hw.log;
      ghost var whole := Plan(iface.path, Operation.DisplayFrame);
      FrameOpcodes();
      DisplaySteps(iface.path);
      LeadsStart(start, whole);
      r := iface.CmdWithData(DisplayRefresh.Address(), [0x00]);
      LeadsStep(start, start, iface.hw.log, CmdDataPlan(iface.path, 0x12, [0x00]), PlanFrom(iface.path, Operation.DisplayFrame, 1), whole, r);
      if r.Err? { return; }
      ghost var mid := iface.hw.log;
      r := WaitUntilIdle();
      LeadsStep(start, mid, iface.hw.log, IdlePlan(IS_BUSY_LOW), PlanFrom(iface.path, Operation.DisplayFrame, 2), whole, r);
      if r.Ok? {
        LeadsDone(start, iface.hw.log, whole);
      }
    }

    /** `update_and_display_frame(buffer)`: upload, power on, display. */
    method UpdateAndDisplayFrame(buffer: seq<bv8>) returns (r: Status)
      requires iface.path != Discard
      requires |buffer| >= FRAME_BYTES
      modifies iface.hw
      ensures Emits(old(iface.hw.log), iface.hw.log, UpdateAndDisplayPlan(iface.path, buffer), r)
    {
      ghost var start := iface.hw.log;
      ghost var upload := Plan(iface.path, Operation.UpdateFrame(buffer));
      ghost var powerOn := CmdPlan(iface.path, 0x04);
      ghost var whole := upload + powerOn + Plan(iface.path, Operation.DisplayFrame);
      FrameOpcodes();
      r := UpdateFrame(buffer);
      if r.Err? {
        EmitsAbort(start, iface.hw.log, upload, whole, r.error);
        return;
      }
      ghost var mid := iface.hw.log;
      r := iface.Cmd(PowerOn.Address());
      EmitsThen(start, mid, iface.hw.log, upload, powerOn, r);
      if r.Err? {
        EmitsAbort(start, iface.hw.log, upload + powerOn, whole, r.error);
        return;
      }
      mid := iface.hw.log;
      r := DisplayFrame();
      EmitsThen(start, mid, iface.hw.log, upload + powerOn, Plan(iface.path, Operation.DisplayFrame), r);
    }

    /** `clear_frame()`: fills the frame memory with the default colour and refreshes. */
    method ClearFrame() returns (r: Status)
      modifies iface.hw
      ensures Emits(old(iface.hw.log), iface.hw.log, Plan(iface.path, Operation.ClearFrame), r)
    {
      ghost var start := iface.hw.log;
      ghost var whole := Plan(iface.path, Operation.ClearFrame);
      FrameOpcodes();
      ClearSteps(iface.path);
      ghost var mid := start;
      LeadsStart(start, whole);
      r := WaitUntilIdle();
      LeadsStep(start, mid, iface.hw.log, IdlePlan(IS_BUSY_LOW), PlanFrom(iface.path, Operation.ClearFrame, 1), whole, r);
      mid := iface.hw.log;
      r := iface.Cmd(DataStartTransmission1.Address());
      LeadsStep(start, mid, iface.hw.log, CmdPlan(iface.path, 0x10), PlanFrom(iface.path, Operation.ClearFrame, 2), whole, r);
      if r.Err? { return; }
      mid := iface.hw.log;
      r := iface.DataXTimes(DefaultColorByte(), WIDTH * HEIGHT / 4);
      LeadsStep(start, mid, iface.hw.log, DataXTimesPlan(iface.path, DefaultColorByte(), WIDTH * HEIGHT / 4), PlanFrom(iface.path, Operation.ClearFrame, 3), whole, r);
      if r.Err? { return; }
      mid := iface.hw.log;
      r := iface.Cmd(DataStop.Address());
      LeadsStep(start, mid, iface.hw.log, CmdPlan(iface.path, 0x11), PlanFrom(iface.path, Operation.ClearFrame, 4), whole, r);
      if r.Err? { return; }
      mid := iface.hw.log;
      r := iface.Cmd(DisplayRefresh.Address());
      LeadsStep(start, mid, iface.hw.log, CmdPlan(iface.path, 0x12), PlanFrom(iface.path, Operation.ClearFrame, 5), whole, r);
      if r.Ok? {
        LeadsDone(start, iface.hw.log, whole);
      }
    }
  }
}
