/** The two pieces of command-line logic that compute something: the range
  * check on a flash duration and the decoding of the board's reply to the
  * state request into one flag per relay. */
module Cli {
  import opened Bits
  import opened ModbusCrc

  datatype Result<T> = Ok(value: T) | Err(message: string)

  const DurationError := "Duration must be between 1 and 65535"

  /** `duration_type` (relay.py:139-143): a flash duration, in 100 ms steps,
    * must fit the 16-bit value field and must not be 0. */
  function DurationType(value: int): (r: Result<int>)
    ensures r.Ok? <==> 1 <= value <= 65535
    ensures r.Ok? ==> r.value == value
    ensures r.Err? ==> r.message == DurationError
  {
    if value < 1 || value > 65535 then Err(DurationError) else Ok(value)
  }

  /** `[(relay_state_byte & (1 << i)) != 0 for i in range(8)]`
    * (relay.py:164): one flag per relay, relay 1 in the lowest bit. */
  function RelayStates(stateByte: Byte): (states: seq<bool>)
    ensures |states| == 8
    ensures forall i :: 0 <= i < 8 ==> (states[i] <==> BitSet(stateByte, i))
  {
    SingleBits(stateByte);
    seq(8, i requires 0 <= i < 8 => And(stateByte, ShiftLeft(1, i)) != 0)
  }

  lemma SingleBits(a: nat)
    ensures forall i: nat :: And(a, ShiftLeft(1, i)) != 0 <==> BitSet(a, i)
  {
    forall i: nat
      ensures And(a, ShiftLeft(1, i)) != 0 <==> BitSet(a, i)
    {
      AndSingleBit(a, i);
    }
  }

  /** The state reply handling (relay.py:163-164): the state byte is
    * `response[3]`; a reply shorter than four bytes has none, which Python
    * reports as an `IndexError`. */
  function DecodeStates(response: seq<Byte>): (r: Result<seq<bool>>)
    ensures r.Ok? <==> |response| >= 4
    ensures r.Ok? ==> |r.value| == 8
    ensures r.Ok? ==> forall i :: 0 <= i < 8 ==> (r.value[i] <==> BitSet(response[3], i))
  {
    if |response| < 4 then Err("index out of range") else Ok(RelayStates(response[3]))
  }

  /** The state byte that reports `states`, relay 1 in the lowest bit: the
    * inverse of the decoding. */
  function Pack(states: seq<bool>): (b: nat)
    ensures b < Pow2(|states|)
  {
    if states == [] then 0 else (if states[0] then 1 else 0) + 2 * Pack(states[1..])
  }

  lemma {:induction false} PackBits(states: seq<bool>, i: nat)
    requires i < |states|
    ensures BitSet(Pack(states), i) <==> states[i]
    decreases i
  {
    if i > 0 {
      PackBits(states[1..], i - 1);
    }
  }

  /** Decoding a packed byte gives back the eight relay states. */
  lemma DecodePack(states: seq<bool>)
    requires |states| == 8
    ensures Pack(states) < 256
    ensures RelayStates(Pack(states)) == states
  {
    assert Pow2(8) == 256;
    forall i | 0 <= i < 8
      ensures RelayStates(Pack(states))[i] == states[i]
    {
      PackBits(states, i);
    }
  }

  /** The bits of `a` below position k, lowest first. */
  function LowBits(a: nat, k: nat): (bits: seq<bool>)
    ensures |bits| == k
    ensures forall i :: 0 <= i < k ==> (bits[i] <==> BitSet(a, i))
  {
    if k == 0 then [] else [a % 2 == 1] + LowBits(a / 2, k - 1)
  }

  lemma {:induction false} PackLowBits(a: nat, k: nat)
    requires a < Pow2(k)
    ensures Pack(LowBits(a, k)) == a
    decreases k
  {
    if k > 0 {
      PackLowBits(a / 2, k - 1);
      assert LowBits(a, k)[1..] == LowBits(a / 2, k - 1);
    }
  }

  /** Packing the decoded states gives back the state byte. */
  lemma PackDecode(stateByte: Byte)
    ensures Pack(RelayStates(stateByte)) == stateByte
  {
    assert Pow2(8) == 256;
    PackLowBits(stateByte, 8);
    assert RelayStates(stateByte) == LowBits(stateByte, 8);
  }

  /** A reply whose state byte is 0x05 reports relays 1 and 3 on. */
  lemma DecodeExample()
    ensures DecodeStates([0x01, 0x01, 0x01, 0x05]) ==
      Ok([true, false, true, false, false, false, false, false])
  {
    var s := [true, false, true, false, false, false, false, false];
    assert Pack(s) == 5;
    DecodePack(s);
  }
}
