/** The serialized form of the two record types and that it can be read back from the start of a
    slot: the codecs the record lists use. */
module Codecs {
  import opened Base
  import opened Model
  import opened RecordList

  type u8 = x: nat | x <= 255
  type u32 = x: nat | x <= U32_MAX
  type u64 = x: nat | x <= U64_MAX
  type Pubkey = s: seq<byte> | |s| == 32 witness seq(32, _ => 0)

  // ---------- little-endian integers ----------

  function Power256(n: nat): nat {
    if n == 0 then 1 else 256 * Power256(n - 1)
  }

  function ToBytes(x: nat, n: nat): (s: seq<byte>)
    ensures |s| == n
  {
    if n == 0 then [] else [(x % 256) as byte] + ToBytes(x / 256, n - 1)
  }

  function FromBytes(s: seq<byte>): nat {
    if s == [] then 0 else s[0] as nat + 256 * FromBytes(s[1..])
  }

  lemma {:induction false} BytesRoundTrip(x: nat, n: nat)
    requires x < Power256(n)
    ensures FromBytes(ToBytes(x, n)) == x
  {
    if n > 0 {
      BytesRoundTrip(x / 256, n - 1);
      assert ToBytes(x, n)[1..] == ToBytes(x / 256, n - 1);
    }
  }

  /** Every value of the width survives. */
  lemma WidthsRoundTrip()
    ensures forall x: nat :: x <= U64_MAX ==> FromBytes(ToBytes(x, 8)) == x
    ensures forall x: nat :: x <= U32_MAX ==> FromBytes(ToBytes(x, 4)) == x
  {
    assert Power256(1) == 256 && Power256(2) == 0x1_0000 && Power256(3) == 0x100_0000;
    assert Power256(4) == 0x1_0000_0000 && Power256(5) == 0x100_0000_0000 && Power256(6) == 0x1_0000_0000_0000;
    assert Power256(7) == 0x100_0000_0000_0000 && Power256(8) == U64_MAX + 1;
    forall x: nat | x <= U64_MAX ensures FromBytes(ToBytes(x, 8)) == x {
      BytesRoundTrip(x, 8);
    }
    forall x: nat | x <= U32_MAX ensures FromBytes(ToBytes(x, 4)) == x {
      BytesRoundTrip(x, 4);
    }
  }

  lemma {:induction false} FromBytesBound(s: seq<byte>)
    ensures FromBytes(s) < Power256(|s|)
  {
    if s != [] {
      FromBytesBound(s[1..]);
    }
  }

  /** A 64-bit and a 32-bit field. */
  function Read64(s: seq<byte>): (x: u64)
    requires |s| == 8
  {
    FromBytesBound(s);
    Power256Of8();
    FromBytes(s)
  }

  function Read32(s: seq<byte>): (x: u32)
    requires |s| == 4
  {
    FromBytesBound(s);
    assert Power256(4) == 256 * (256 * (256 * (256 * Power256(0))));
    FromBytes(s)
  }

  lemma Power256Of8()
    ensures Power256(8) == U64_MAX + 1
  {
    assert Power256(4) == 0x1_0000_0000;
    assert Power256(8) == 256 * (256 * (256 * (256 * Power256(4))));
  }

  // ---------- stake records ----------

  datatype StakeEntry = StakeEntry(account: Pubkey, lamports: u64, epoch: u64, emergency: bool, status: StakeStatus)

  const STAKE_BYTES: nat := 50

  function StatusByte(s: StakeStatus): byte {
    match s
    case Unknown => 0
    case Active => 1
    case Deactivating => 2
  }

  function EncodeStake(r: StakeEntry): (s: seq<byte>)
    ensures |s| == STAKE_BYTES
  {
    r.account + ToBytes(r.lamports, 8) + ToBytes(r.epoch, 8) + [if r.emergency then 1 else 0] + [StatusByte(r.status)]
  }

  function DecodeStake(s: seq<byte>): Option<StakeEntry> {
    if |s| < STAKE_BYTES || s[48] > 1 || s[49] > 2 then None
    else
      var status := if s[49] == 0 then Unknown else if s[49] == 1 then Active else Deactivating;
      Some(StakeEntry(s[..32], Read64(s[32..40]), Read64(s[40..48]), s[48] == 1, status))
  }

  lemma StakeRoundTrip(r: StakeEntry, tail: seq<byte>)
    ensures DecodeStake(EncodeStake(r) + tail) == Some(r)
  {
    var s := EncodeStake(r) + tail;
    WidthsRoundTrip();
    assert s[..32] == r.account;
    assert s[32..40] == ToBytes(r.lamports, 8);
    assert s[40..48] == ToBytes(r.epoch, 8);
  }

  // ---------- validator records ----------

  datatype ValidatorEntry = ValidatorEntry(vote: Pubkey, balance: u64, score: u32, deltaEpoch: u64, bump: u8,
                                           upgraderBalance: u64)

  const VALIDATOR_BYTES: nat := 61

  function EncodeValidator(v: ValidatorEntry): (s: seq<byte>)
    ensures |s| == VALIDATOR_BYTES
  {
    v.vote + ToBytes(v.balance, 8) + ToBytes(v.score, 4) + ToBytes(v.deltaEpoch, 8) + [v.bump as byte]
    + ToBytes(v.upgraderBalance, 8)
  }

  function DecodeValidator(s: seq<byte>): Option<ValidatorEntry> {
    if |s| < VALIDATOR_BYTES then None
    else
      Some(ValidatorEntry(s[..32], Read64(s[32..40]), Read32(s[40..44]), Read64(s[44..52]), s[52] as nat,
                          Read64(s[53..61])))
  }

  lemma ValidatorRoundTrip(v: ValidatorEntry, tail: seq<byte>)
    ensures DecodeValidator(EncodeValidator(v) + tail) == Some(v)
  {
    var s := EncodeValidator(v) + tail;
    WidthsRoundTrip();
    assert s[..32] == v.vote;
    assert s[32..40] == ToBytes(v.balance, 8);
    assert s[40..44] == ToBytes(v.score, 4);
    assert s[44..52] == ToBytes(v.deltaEpoch, 8);
    assert s[53..61] == ToBytes(v.upgraderBalance, 8);
  }

  /** Both record types meet what the lists ask of their codecs. */
  lemma CodecsAreLawful()
    ensures Lawful(Codec(EncodeStake, DecodeStake))
    ensures Lawful(Codec(EncodeValidator, DecodeValidator))
  {
    forall r, tail ensures DecodeStake(EncodeStake(r) + tail) == Some(r) {
      StakeRoundTrip(r, tail);
    }
    forall v, tail ensures DecodeValidator(EncodeValidator(v) + tail) == Some(v) {
      ValidatorRoundTrip(v, tail);
    }
  }
}
