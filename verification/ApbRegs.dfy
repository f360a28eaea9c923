/** The request, interrupt and fault registers behind the APB: MODE_REQ with its arm pulse,
    IRQ_STATUS and FAULT_INFO. */
module ApbRegs {
  import opened PmuTypes

  const ADDR_MODE_REQ: nat := 0x008
  const ADDR_IRQ_STATUS: nat := 0x080

  /** The APB inputs of one cycle; a zero-wait-state write happens in its access phase. */
  datatype Bus = Bus(psel: bool, penable: bool, pwrite: bool, paddr: u12, pwdata: u32)

  datatype Irq = Irq(wake: bool, fault: bool, deny: bool, done: bool)

  /** FAULT_INFO; DOMAIN is a two-bit field. */
  datatype FaultInfo = FaultInfo(valid: bool, step: FaultStep, dom: nat)

  const NO_FAULT: FaultInfo := FaultInfo(false, NoStep, 0)

  datatype Bank = Bank(modeReq: Mode, arm: bool, irq: Irq, info: FaultInfo)

  const RESET_BANK: Bank := Bank(Run, false, Irq(false, false, false, false), NO_FAULT)

  /** Events from the rest of the unit. */
  datatype Events = Events(
    wakeEvt: bool, wakeMode: Mode, done: bool, deny: bool, faults: seq<bool>, steps: seq<FaultStep>)

  /** What a transfer means at the pins, independently of the block's own decode: a write in its
      access phase to one of the four bytes from `word` on. */
  predicate Transfer(b: Bus, word: nat) {
    b.psel && b.penable && b.pwrite && word <= b.paddr < word + 4
  }

  /** Software asks for a mode: a transfer to 0x008 with one of the codes 0 to 4 in its low bits. */
  predicate Commands(b: Bus) {
    Transfer(b, 0x008) && b.pwdata % 8 <= 4
  }

  /** The code of a mode in the register map. */
  function PackageCode(m: Mode): nat {
    match m
    case Run => 0
    case Idle => 1
    case Sleep => 2
    case DeepSleep => 3
    case Shutdown => 4
  }

  /** A write in its access phase to the word at a; address bits 1 and 0 are ignored. */
  predicate WriteTo(b: Bus, a: nat) {
    b.psel && b.penable && b.pwrite && b.paddr - b.paddr % 4 == a
  }

  function ModeOf(code: nat): Mode {
    if code == 0 then Run else if code == 1 then Idle else if code == 2 then Sleep
    else if code == 3 then DeepSleep else Shutdown
  }

  /** A software mode request that takes effect: the values 5 to 7 are errors and change nothing. */
  predicate ModeWrite(b: Bus) {
    WriteTo(b, ADDR_MODE_REQ) && b.pwdata % 8 <= 4
  }

  /** Bit n of a write to IRQ_STATUS. */
  predicate ClearBit(b: Bus, weight: nat)
    requires weight > 0
  {
    WriteTo(b, ADDR_IRQ_STATUS) && b.pwdata / weight % 2 == 1
  }

  /** IRQ_STATUS.FAULT written 1. */
  predicate FaultClear(b: Bus) {
    ClearBit(b, 4)
  }

  /** The block decodes the bus as the pins mean it. */
  lemma DecodesTransfers(b: Bus)
    ensures ModeWrite(b) <==> Commands(b)
    ensures Commands(b) ==> PackageCode(ModeOf(b.pwdata % 8)) == b.pwdata % 8
    ensures FaultClear(b) <==> Transfer(b, 0x080) && b.pwdata / 4 % 2 == 1
  {
  }

  /** A new request is registered at this edge: by software or by a wake event. */
  predicate Requests(b: Bus, e: Events) {
    ModeWrite(b) || e.wakeEvt
  }

  /** The lowest-index fault pulse from index d on, or |faults|. */
  function FirstFault(faults: seq<bool>, d: nat): (r: nat)
    requires d <= |faults|
    ensures d <= r <= |faults|
    ensures r < |faults| ==> faults[r]
    ensures forall j :: d <= j < r ==> !faults[j]
    decreases |faults| - d
  {
    if d == |faults| || faults[d] then d else FirstFault(faults, d + 1)
  }

  function NextInfo(info: FaultInfo, clear: bool, faults: seq<bool>, steps: seq<FaultStep>): FaultInfo
    requires |faults| == |steps|
  {
    var d := FirstFault(faults, 0);
    if d < |faults| && (!info.valid || clear) then FaultInfo(true, steps[d], d % 4)
    else if clear then NO_FAULT
    else info
  }

  function NextBank(r: Bank, b: Bus, e: Events): Bank
    requires |e.faults| == |e.steps|
  {
    Bank(
      if ModeWrite(b) then ModeOf(b.pwdata % 8) else if e.wakeEvt then e.wakeMode else r.modeReq,
      Requests(b, e),
      Irq((r.irq.wake && !ClearBit(b, 8)) || e.wakeEvt,
          (r.irq.fault && !ClearBit(b, 4)) || FirstFault(e.faults, 0) < |e.faults|,
          (r.irq.deny && !ClearBit(b, 2)) || e.deny,
          (r.irq.done && !ClearBit(b, 1)) || e.done),
      NextInfo(r.info, FaultClear(b), e.faults, e.steps))
  }

  class RegisterBlock {
    var r: Bank

    constructor ()
      ensures r == RESET_BANK
    {
      r := RESET_BANK;
    }

    method Reset()
      modifies this
      ensures r == RESET_BANK
    {
      r := RESET_BANK;
    }

    /** The priority loop runs downwards, so the lowest-index domain is the last to write. */
    method Encode(faults: seq<bool>, steps: seq<FaultStep>) returns (any: bool, dom: nat, step: FaultStep)
      requires |faults| == |steps|
      ensures any <==> FirstFault(faults, 0) < |faults|
      ensures any ==> dom == FirstFault(faults, 0) % 4 && step == steps[FirstFault(faults, 0)]
    {
      any, dom, step := false, 0, NoStep;
      for d := |faults| downto 0
        invariant any <==> FirstFault(faults, d) < |faults|
        invariant any ==> dom == FirstFault(faults, d) % 4 && step == steps[FirstFault(faults, d)]
      {
        if faults[d] {
          any, dom, step := true, d % 4, steps[d];
        }
      }
    }

    method Tick(b: Bus, e: Events)
      requires |e.faults| == |e.steps|
      modifies this
      ensures r == NextBank(old(r), b, e)
      ensures r.arm <==> Commands(b) || e.wakeEvt
      ensures if Commands(b) then PackageCode(r.modeReq) == b.pwdata % 8
              else r.modeReq == if e.wakeEvt then e.wakeMode else old(r.modeReq)
      ensures r.irq.done <==> e.done || (old(r.irq.done) && !(Transfer(b, 0x080) && b.pwdata % 2 == 1))
      ensures r.irq.deny <==> e.deny || (old(r.irq.deny) && !(Transfer(b, 0x080) && b.pwdata / 2 % 2 == 1))
      ensures r.irq.fault <==>
                true in e.faults || (old(r.irq.fault) && !(Transfer(b, 0x080) && b.pwdata / 4 % 2 == 1))
      ensures r.irq.wake <==> e.wakeEvt || (old(r.irq.wake) && !(Transfer(b, 0x080) && b.pwdata / 8 % 2 == 1))
    {
      var any, dom, step := Encode(e.faults, e.steps);
      var clear := FaultClear(b);
      var n := r.(arm := false);
      if ModeWrite(b) {
        n := n.(modeReq := ModeOf(b.pwdata % 8), arm := true);
      } else if e.wakeEvt {
        n := n.(modeReq := e.wakeMode, arm := true);
      }
      n := n.(irq := Irq((r.irq.wake && !ClearBit(b, 8)) || e.wakeEvt,
                         (r.irq.fault && !ClearBit(b, 4)) || any,
                         (r.irq.deny && !ClearBit(b, 2)) || e.deny,
                         (r.irq.done && !ClearBit(b, 1)) || e.done));
      if any && (!r.info.valid || clear) {
        n := n.(info := FaultInfo(true, step, dom));
      } else if clear {
        n := n.(info := NO_FAULT);
      }
      r := n;
    }
  }
}
