/**
 * Identifiers: raw byte strings, addresses, the ids of positions and of
 * synthetic transfer records, and the string ids of snapshots
 * (`<entity id in hex>-<timestamp in decimal>`).
 */
module Ids {
  import opened Wrappers

  /** graph-ts `Bytes`. */
  type Bytes = seq<bv8>

  /** An Ethereum address: exactly twenty bytes. */
  type Address = b: Bytes | |b| == 20 witness seq(20, _ => 0 as bv8)

  /** The zero address, the counterparty of mint and burn transfers. */
  const ZeroAddress: Address := [0, 0, 0, 0, 0, 0, 0, 0, 0, 0, 0, 0, 0, 0, 0, 0, 0, 0, 0, 0]

  /** graph-ts `Bytes.fromI32` for a non-negative value: four bytes, least significant first. */
  function FromI32(x: nat): (r: Bytes)
    requires x < 0x8000_0000
    ensures |r| == 4
    ensures x < 256 ==> r == [x as bv8, 0, 0, 0]
  {
    var x1 := x / 256;
    var x2 := x1 / 256;
    assert x2 / 256 < 128 by {
      assert x1 < 0x80_0000;
      assert x2 < 0x8000;
    }
    [(x % 256) as bv8, (x1 % 256) as bv8, (x2 % 256) as bv8, (x2 / 256) as bv8]
  }

  /** Id of the Position of `user` in `market`: the market id followed by the address. */
  function PositionId(market: Bytes, user: Address): Bytes {
    market + user
  }

  /** Id of the VaultPosition of `user` in `vault`: the vault address followed by the user address. */
  function VaultPositionId(vault: Address, user: Address): Bytes {
    vault + user
  }

  /**
   * A scope followed by an address determines both: because every address is
   * twenty bytes long, no two (scope, user) pairs share an id.
   */
  lemma ScopedIdInjective(scope1: Bytes, user1: Address, scope2: Bytes, user2: Address)
    ensures scope1 + user1 == scope2 + user2 <==> scope1 == scope2 && user1 == user2
  {
    if scope1 + user1 == scope2 + user2 {
      var id := scope1 + user1;
      assert |scope1| == |scope2|;
      assert scope1 == id[..|scope1|];
      assert scope2 == id[..|scope2|];
      assert user1 == id[|scope1|..];
      assert user2 == id[|scope2|..];
    }
  }

  /** Suffix of the sender-side record of a two-sided transfer. */
  const FromSide: nat := 1
  /** Suffix of the receiver-side record of a two-sided transfer. */
  const ToSide: nat := 2

  /** Id of one side of a transfer: the event's log id followed by `Bytes.fromI32(side)`. */
  function TransferTxId(logId: Bytes, side: nat): Bytes
    requires side == FromSide || side == ToSide
  {
    logId + FromI32(side)
  }

  /** The two sides of one transfer never share an id, and neither reuses the bare log id. */
  lemma TransferTxIdsDistinct(logId: Bytes)
    ensures TransferTxId(logId, FromSide) != TransferTxId(logId, ToSide)
    ensures TransferTxId(logId, FromSide) != logId && TransferTxId(logId, ToSide) != logId
  {
    var a, b := TransferTxId(logId, FromSide), TransferTxId(logId, ToSide);
    assert a[|logId|] == 1 && b[|logId|] == 2;
  }

  // ---------------------------------------------------------------------------
  // Hexadecimal rendering of bytes (graph-ts `Bytes.toHexString`)

  function HexDigit(n: nat): char
    requires n < 16
  {
    if n < 10 then ('0' as int + n) as char else ('a' as int + n - 10) as char
  }

  function HexDigitValue(c: char): (r: Option<nat>)
    ensures r.Some? ==> r.value < 16
  {
    if '0' <= c <= '9' then Some(c as int - '0' as int)
    else if 'a' <= c <= 'f' then Some(c as int - 'a' as int + 10)
    else None
  }

  /** Two lower-case hex digits per byte, most significant nibble first. */
  function HexOfBytes(bs: Bytes): string {
    if bs == [] then []
    else [HexDigit(bs[0] as int / 16), HexDigit(bs[0] as int % 16)] + HexOfBytes(bs[1..])
  }

  function ToHexString(bs: Bytes): string {
    "0x" + HexOfBytes(bs)
  }

  function ParseHexBytes(s: string): Option<Bytes>
    decreases |s|
  {
    if |s| == 0 then Some([])
    else if |s| == 1 then None
    else
      var hi :- HexDigitValue(s[0]);
      var lo :- HexDigitValue(s[1]);
      var rest :- ParseHexBytes(s[2..]);
      Some([(hi * 16 + lo) as bv8] + rest)
  }

  lemma {:induction false} HexRoundTrip(bs: Bytes)
    ensures ParseHexBytes(HexOfBytes(bs)) == Some(bs)
  {
    if bs != [] {
      var hi, lo := bs[0] as int / 16, bs[0] as int % 16;
      var s := HexOfBytes(bs);
      assert s[0] == HexDigit(hi) && s[1] == HexDigit(lo);
      assert s[2..] == HexOfBytes(bs[1..]);
      HexDigitRoundTrip(hi);
      HexDigitRoundTrip(lo);
      HexRoundTrip(bs[1..]);
      NibblesRecombine(bs[0]);
      assert [bs[0]] + bs[1..] == bs;
    }
  }

  lemma HexDigitRoundTrip(n: nat)
    requires n < 16
    ensures HexDigitValue(HexDigit(n)) == Some(n)
  {
  }

  lemma NibblesRecombine(b: bv8)
    ensures (b as int / 16 * 16 + b as int % 16) as bv8 == b
  {
    var n := b as int;
    assert n == n / 16 * 16 + n % 16;
  }

  lemma {:induction false} HexHasNoDash(bs: Bytes)
    ensures '-' !in HexOfBytes(bs)
  {
    if bs != [] {
      HexHasNoDash(bs[1..]);
    }
  }

  // ---------------------------------------------------------------------------
  // Decimal rendering of integers (graph-ts `BigInt.toString`)

  function DigitChar(d: nat): char
    requires d < 10
  {
    ('0' as int + d) as char
  }

  function DigitValue(c: char): (r: Option<nat>)
    ensures r.Some? ==> r.value < 10
  {
    if '0' <= c <= '9' then Some(c as int - '0' as int) else None
  }

  function NatDigits(n: nat): string
    decreases n
  {
    if n < 10 then [DigitChar(n)] else NatDigits(n / 10) + [DigitChar(n % 10)]
  }

  /** Decimal digits, with a leading minus sign for a negative value. */
  function DecimalString(x: int): string {
    if x < 0 then "-" + NatDigits(-x) else NatDigits(x)
  }

  function ParseNatDigits(s: string): Option<nat>
    decreases |s|
  {
    if |s| == 0 then None
    else if |s| == 1 then DigitValue(s[0])
    else
      var high :- ParseNatDigits(s[..|s| - 1]);
      var low :- DigitValue(s[|s| - 1]);
      Some(high * 10 + low)
  }

  function ParseDecimal(s: string): Option<int> {
    if |s| > 0 && s[0] == '-' then
      var n :- ParseNatDigits(s[1..]);
      Some(-(n as int))
    else ParseNatDigits(s)
  }

  lemma {:induction false} NatDigitsRoundTrip(n: nat)
    ensures |NatDigits(n)| >= 1 && NatDigits(n)[0] != '-'
    ensures ParseNatDigits(NatDigits(n)) == Some(n)
    decreases n
  {
    if n >= 10 {
      NatDigitsRoundTrip(n / 10);
      var s := NatDigits(n);
      assert s[..|s| - 1] == NatDigits(n / 10);
    }
  }

  lemma DecimalRoundTrip(x: int)
    ensures ParseDecimal(DecimalString(x)) == Some(x)
  {
    if x < 0 {
      NatDigitsRoundTrip(-x);
      assert DecimalString(x)[1..] == NatDigits(-x);
    } else {
      NatDigitsRoundTrip(x);
    }
  }

  // ---------------------------------------------------------------------------
  // Snapshot ids

  /** Id of the snapshot of entity `entity` at `timestamp` (snapshots.ts). */
  function SnapshotId(entity: Bytes, timestamp: int): string {
    ToHexString(entity) + "-" + DecimalString(timestamp)
  }

  /** Splits at the first dash. */
  function SplitAtDash(s: string): Option<(string, string)> {
    if s == [] then None
    else if s[0] == '-' then Some(([], s[1..]))
    else
      var parts :- SplitAtDash(s[1..]);
      Some(([s[0]] + parts.0, parts.1))
  }

  function ParseSnapshotId(id: string): Option<(Bytes, int)> {
    var parts :- SplitAtDash(id);
    if |parts.0| < 2 || parts.0[..2] != "0x" then None
    else
      var entity :- ParseHexBytes(parts.0[2..]);
      var timestamp :- ParseDecimal(parts.1);
      Some((entity, timestamp))
  }

  lemma {:induction false} SplitAtFirstDash(a: string, b: string)
    requires '-' !in a
    ensures SplitAtDash(a + "-" + b) == Some((a, b))
  {
    if a != [] {
      assert a[0] in a;
      assert '-' !in a[1..] by {
        forall i | 0 <= i < |a[1..]| ensures a[1..][i] != '-' {
          assert a[1..][i] == a[i + 1];
        }
      }
      SplitAtFirstDash(a[1..], b);
      assert (a + "-" + b)[1..] == a[1..] + "-" + b;
      assert [a[0]] + a[1..] == a;
    }
  }

  /** A snapshot id decodes back to the entity id and the timestamp it was built from. */
  lemma SnapshotIdRoundTrip(entity: Bytes, timestamp: int)
    ensures ParseSnapshotId(SnapshotId(entity, timestamp)) == Some((entity, timestamp))
  {
    var hex := ToHexString(entity);
    HexHasNoDash(entity);
    assert '-' !in hex by {
      forall i | 0 <= i < |hex| ensures hex[i] != '-' {
        if i >= 2 { assert hex[i] == HexOfBytes(entity)[i - 2]; }
      }
    }
    SplitAtFirstDash(hex, DecimalString(timestamp));
    assert hex[2..] == HexOfBytes(entity);
    HexRoundTrip(entity);
    DecimalRoundTrip(timestamp);
  }

  /**
   * At most one snapshot per (entity, timestamp): two snapshot ids coincide
   * exactly when both the entity id and the timestamp coincide.
   */
  lemma SnapshotIdInjective(e1: Bytes, t1: int, e2: Bytes, t2: int)
    ensures SnapshotId(e1, t1) == SnapshotId(e2, t2) <==> e1 == e2 && t1 == t2
  {
    SnapshotIdRoundTrip(e1, t1);
    SnapshotIdRoundTrip(e2, t2);
  }
}
