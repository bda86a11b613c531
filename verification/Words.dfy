/**
 The vocabulary shared by every component: bytes, 32-bit words, guest physical
 memory, and the outcome of monitor code, which either returns or panics.
 */
module Words {

  type Byte = b: int | 0 <= b < 0x100
  type Word = w: int | 0 <= w < 0x1_0000_0000

  datatype Option<+T> = None | Some(value: T)

  /** `monpanic` never returns to its caller, so a panic is a halting outcome. */
  datatype Outcome<+T> = Ok(value: T) | Panic {
    predicate IsFailure() {
      Panic?
    }

    function PropagateFailure<U>(): Outcome<U>
      requires Panic?
    {
      Panic
    }

    function Extract(): T
      requires Ok?
    {
      value
    }
  }

  /** Unsigned 32-bit wrap-around. */
  function Wrap(x: int): Word {
    x % 0x1_0000_0000
  }

  function Bit(b: bool): nat {
    if b then 1 else 0
  }

  function Max(a: nat, b: nat): nat {
    if a < b then b else a
  }

  /** Guest physical memory, byte by byte. */
  type Memory = seq<Byte>

  /** The unsigned value of a little-endian byte string. */
  function LittleEndian(bytes: seq<Byte>): nat {
    if bytes == [] then 0 else bytes[0] + 0x100 * LittleEndian(bytes[1..])
  }

  function Join2(b0: int, b1: int): int {
    b0 + 0x100 * b1
  }

  function Join4(b0: int, b1: int, b2: int, b3: int): int {
    b0 + 0x100 * b1 + 0x1_0000 * b2 + 0x100_0000 * b3
  }

  /** The x86 dword at a physical address. */
  function Dword(m: Memory, a: nat): Word
    requires a + 4 <= |m|
  {
    Join4(m[a], m[a + 1], m[a + 2], m[a + 3])
  }

  /** The x86 word at a physical address. */
  function Word16(m: Memory, a: nat): nat
    requires a + 2 <= |m|
  {
    Join2(m[a], m[a + 1])
  }

  lemma LowHalf(m: Memory, a: nat)
    requires a + 4 <= |m|
    ensures Dword(m, a) % 0x1_0000 == Word16(m, a)
  {
    assert Dword(m, a) == Word16(m, a) + 0x1_0000 * Join2(m[a + 2], m[a + 3]);
    LowPart(Word16(m, a), Join2(m[a + 2], m[a + 3]));
  }

  lemma LowPart(low: nat, high: nat)
    requires low < 0x1_0000
    ensures (low + 0x1_0000 * high) % 0x1_0000 == low
  {
  }

  function PutDword(m: Memory, a: nat, v: Word): (r: Memory)
    requires a + 4 <= |m|
    ensures |r| == |m|
  {
    m[a := v % 0x100][a + 1 := v / 0x100 % 0x100][a + 2 := v / 0x1_0000 % 0x100][a + 3 := v / 0x100_0000]
  }

  /** The four bytes of a word. */
  lemma FourBytes(v: Word)
    ensures v == Join4(v % 0x100, v / 0x100 % 0x100, v / 0x1_0000 % 0x100, v / 0x100_0000)
    ensures v % 0x1_0000 == Join2(v % 0x100, v / 0x100 % 0x100)
  {
    var q := v / 0x100;
    var r := q / 0x100;
    assert v == 0x100 * q + v % 0x100 && q == 0x100 * r + q % 0x100 && r == 0x100 * (r / 0x100) + r % 0x100;
    assert v / 0x1_0000 == r && v / 0x100_0000 == r / 0x100;
    LowPart(Join2(v % 0x100, q % 0x100), r);
  }

  /** A store is read back, and touches no byte but its own four. */
  lemma PutDwordExact(m: Memory, a: nat, v: Word)
    requires a + 4 <= |m|
    ensures Dword(PutDword(m, a, v), a) == v
    ensures Word16(PutDword(m, a, v), a) == v % 0x1_0000
    ensures forall i | 0 <= i < |m| && !(a <= i < a + 4) :: PutDword(m, a, v)[i] == m[i]
  {
    hide Join2, Join4;
    FourBytes(v);
  }

  lemma LittleEndianUnfolds(bytes: seq<Byte>)
    ensures |bytes| == 2 ==> LittleEndian(bytes) == Join2(bytes[0], bytes[1])
    ensures |bytes| == 4 ==> LittleEndian(bytes) == Join4(bytes[0], bytes[1], bytes[2], bytes[3])
  {
    if |bytes| == 2 {
      assert bytes[1..][1..] == [];
      assert LittleEndian(bytes[1..]) == bytes[1];
    } else if |bytes| == 4 {
      assert bytes[1..][1..] == bytes[2..] && bytes[2..][1..] == bytes[3..] && bytes[3..][1..] == [];
      assert LittleEndian(bytes[3..]) == bytes[3];
      assert LittleEndian(bytes[2..]) == Join2(bytes[2], bytes[3]);
    }
  }

  function AsFlags(w: Word): bv32 {
    w as bv32
  }

  function AsWord(e: bv32): Word {
    e as int
  }

  /** EFLAGS are handled as a bit vector and stored in guest memory as a dword. */
  lemma FlagsSurviveMemory(e: bv32)
    ensures AsFlags(AsWord(e)) == e
  {
  }
}
