/**
 * The OpenADC register space as the ADC controller (adc.go) sees it through
 * `Fpga.Mem`: registers at small addresses, each read or written as a whole
 * little-endian value. The register file keeps the last value stored at each
 * address and records every access; accesses to addresses in `faulty` fail,
 * standing for any failure of the underlying memory protocol.
 *
 * Some registers change on their own: the status register, the CLKGEN
 * done and lock flags in the advanced-clock register, the FIFO count. For
 * those, `updates` holds the readings the hardware has in store, one per
 * read: the next read of the address takes the first of them, which is
 * either the value the register now holds or a failed read. Once an
 * address has no readings left it keeps what was last stored.
 *
 * A write with validation reads the register back; here the read-back is the
 * value just stored, so validation fails only when the mask is malformed,
 * as `Memory.Write` reports it.
 */
module AdcBus {
  import opened Base
  import ExtMemory

  /** A register address of adc.go (`Address` values 0 to 55). */
  type Address = nat

  datatype Access =
    | Load(addr: Address, len: nat)
    | Store(addr: Address, data: seq<byte>, validate: bool, mask: Option<seq<byte>>)

  /** One read of a register the hardware changes: its new value, or `None` for a read that fails. */
  type Reading = Option<seq<byte>>

  datatype Regs = Regs(contents: map<Address, seq<byte>>, faulty: set<Address>,
                       updates: map<Address, seq<Reading>>, log: seq<Access>)

  /** `s` cut or zero-extended to `len` bytes: a register read into a `len`-byte value. */
  function Fit(s: seq<byte>, len: nat): (r: seq<byte>)
    ensures |r| == len
    ensures forall i :: 0 <= i < len ==> r[i] == if i < |s| then s[i] else 0
  {
    seq(len, i requires 0 <= i < len => if i < |s| then s[i] else 0)
  }

  /** The bytes stored at `addr`; a register never written reads as zeros. */
  function Value(m: Regs, addr: Address): seq<byte>
  {
    if addr in m.contents then m.contents[addr] else []
  }

  /** The readings the hardware still has in store at `addr`, the next one first. */
  function Due(m: Regs, addr: Address): seq<Reading>
  {
    if addr in m.updates then m.updates[addr] else []
  }

  /** The next read of `addr` succeeds. */
  predicate Readable(m: Regs, addr: Address)
  {
    if Due(m, addr) == [] then addr !in m.faulty else Due(m, addr)[0].Some?
  }

  /** `addr` neither fails nor changes on its own: it reads back what was last stored. */
  predicate Steady(m: Regs, addr: Address)
  {
    addr !in m.faulty && Due(m, addr) == []
  }

  /** A register file in which no register fails or changes on its own. */
  predicate Quiet(m: Regs)
  {
    m.faulty == {} && m.updates == map[]
  }

  /** The register file once the hardware has made the change due at `addr`, if any. */
  function Advance(m: Regs, addr: Address): Regs
  {
    var due := Due(m, addr);
    if due == [] then m
    else
      m.(contents := if due[0].Some? then m.contents[addr := due[0].value] else m.contents,
         updates := m.updates[addr := due[1..]])
  }

  /**
   * The change the hardware makes takes the first reading due at `addr`; a
   * new value replaces the register's contents; nothing else changes.
   */
  lemma AdvanceEffect(m: Regs, addr: Address)
    ensures var r := Advance(m, addr);
      && r.faulty == m.faulty && r.log == m.log
      && (Due(m, addr) == [] ==> r == m)
      && (Due(m, addr) != [] ==> Due(r, addr) == Due(m, addr)[1..])
      && (forall a :: a != addr ==> Due(r, a) == Due(m, a) && Value(r, a) == Value(m, a))
      && (Due(m, addr) != [] && Due(m, addr)[0].Some? ==> Value(r, addr) == Due(m, addr)[0].value)
      && (Due(m, addr) != [] && Due(m, addr)[0].None? ==> Value(r, addr) == Value(m, addr))
  {
  }

  /**
   * `Mem.Read(addr, v)` with a `len`-byte `v`: the hardware first makes the
   * change due at `addr`; the read then fails as that reading says, or as
   * `faulty` says once no reading is due, and otherwise returns the value
   * the register now holds.
   */
  function ReadReg(m: Regs, addr: Address, len: nat): (r: (Result<seq<byte>>, Regs))
    ensures r.1 == Advance(m, addr).(log := m.log + [Load(addr, len)])
    ensures r.0.Ok? <==> Readable(m, addr)
    ensures r.0.Ok? ==> r.0.value == Fit(Value(r.1, addr), len)
  {
    var m' := Advance(m, addr).(log := m.log + [Load(addr, len)]);
    if Readable(m, addr) then (Ok(Fit(Value(m', addr), len)), m') else (Err(RegisterAccessFailed), m')
  }

  /** A steady register reads as what it holds, and the read changes nothing but the log. */
  lemma ReadSteady(m: Regs, addr: Address, len: nat)
    requires Steady(m, addr)
    ensures ReadReg(m, addr, len) == (Ok(Fit(Value(m, addr), len)), m.(log := m.log + [Load(addr, len)]))
  {
  }

  /** `Mem.Write(addr, v, validate, mask)`. */
  function WriteReg(m: Regs, addr: Address, data: seq<byte>, validate: bool, mask: Option<seq<byte>>): (r: (Outcome, Regs))
    ensures r.1.log == m.log + [Store(addr, data, validate, mask)] && r.1.faulty == m.faulty && r.1.updates == m.updates
    ensures r.1.contents == if addr in m.faulty then m.contents else m.contents[addr := data]
    ensures r.0.Pass? <==> addr !in m.faulty && !(validate && mask.Some? && |mask.value| != |data|)
  {
    var logged := m.log + [Store(addr, data, validate, mask)];
    if addr in m.faulty then (Fail(RegisterAccessFailed), m.(log := logged))
    else
      var m' := m.(contents := m.contents[addr := data], log := logged);
      (if validate then ExtMemory.Verdict(data, data, mask) else Pass, m')
  }

  /** A steady register reads back what was last written to it, and the others are untouched. */
  lemma ReadAfterWrite(m: Regs, addr: Address, data: seq<byte>, validate: bool, mask: Option<seq<byte>>, other: Address, len: nat)
    requires Steady(m, addr)
    ensures var m1 := WriteReg(m, addr, data, validate, mask).1;
      && ReadReg(m1, addr, |data|).0 == Ok(data)
      && (other != addr ==> ReadReg(m1, other, len).0 == ReadReg(m, other, len).0)
  {
    var m1 := WriteReg(m, addr, data, validate, mask).1;
    assert Value(m1, addr) == data;
    assert Fit(data, |data|) == data;
  }

  /** A register whose next reading is a new value returns that value, whatever was stored. */
  lemma ReadSeesChange(m: Regs, addr: Address, v: seq<byte>, later: seq<Reading>)
    requires Due(m, addr) == [Some(v)] + later
    ensures var r := ReadReg(m, addr, |v|);
      && r.0 == Ok(v) && Value(r.1, addr) == v && Due(r.1, addr) == later && r.1.faulty == m.faulty
      && r.1.log == m.log + [Load(addr, |v|)]
      && (forall a :: a != addr ==> Due(r.1, a) == Due(m, a) && Value(r.1, a) == Value(m, a))
  {
    AdvanceEffect(m, addr);
    assert Fit(v, |v|) == v;
    assert ([Some(v)] + later)[1..] == later;
  }

  class RegisterFile {
    var contents: map<Address, seq<byte>>
    const faulty: set<Address>
    var updates: map<Address, seq<Reading>>
    var log: seq<Access>

    function State(): Regs
      reads this
    {
      Regs(contents, faulty, updates, log)
    }

    constructor (contents: map<Address, seq<byte>>, faulty: set<Address>, updates: map<Address, seq<Reading>>)
      ensures State() == Regs(contents, faulty, updates, [])
    {
      this.contents, this.faulty, this.updates, log := contents, faulty, updates, [];
    }

    method Read(addr: Address, len: nat) returns (r: Result<seq<byte>>)
      modifies this
      ensures (r, State()) == ReadReg(old(State()), addr, len)
    {
      log := log + [Load(addr, len)];
      var due := if addr in updates then updates[addr] else [];
      if due == [] {
        if addr in faulty {
          return Err(RegisterAccessFailed);
        }
      } else {
        updates := updates[addr := due[1..]];
        if due[0].None? {
          return Err(RegisterAccessFailed);
        }
        contents := contents[addr := due[0].value];
      }
      var stored := if addr in contents then contents[addr] else [];
      r := Ok(Fit(stored, len));
    }

    method Write(addr: Address, data: seq<byte>, validate: bool, mask: Option<seq<byte>>) returns (o: Outcome)
      modifies this
      ensures (o, State()) == WriteReg(old(State()), addr, data, validate, mask)
    {
      log := log + [Store(addr, data, validate, mask)];
      if addr in faulty {
        return Fail(RegisterAccessFailed);
      }
      contents := contents[addr := data];
      o := Pass;
      if validate {
        o := ExtMemory.CompareMasked(data, data, mask);
      }
    }
  }
}
