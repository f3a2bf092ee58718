/**
 * The ring of recent move commands: the command for outgoing sequence
 * number n lives at slot `n & (CMD_BACKUP - 1)`.
 */
module CmdRing {
  import opened UserCmds

  /** Number of slots in the ring; a power of two, so the mask below selects a slot. */
  const CmdBackup: nat := 64

  /**
   * The slot of sequence number n: the remainder by the ring size, which
   * SlotIsMask shows to be what masking the sequence number's two's
   * complement bits with CMD_BACKUP - 1 gives, also for the sequence numbers
   * below zero that the first frames read back.
   */
  function SlotOf(sequence: int): (i: nat)
    ensures i < CmdBackup
  {
    sequence % CmdBackup
  }

  /** Masking a byte with 63 keeps its remainder by 64. */
  lemma MaskIsRemainder(x: bv8)
    ensures (x & 63) as int == x as int % 64
  {
  }

  lemma {:induction false} RemainderOfRemainder(n: int)
    ensures (n % 256) % 64 == n % 64
  {
    var q := n / 256;
    assert n == 256 * q + n % 256;
    assert 256 * q == 64 * (4 * q);
  }

  /**
   * The mask `n & (CMD_BACKUP - 1)` only sees the lowest byte of the
   * sequence number's two's complement bits, which is its remainder by 256
   * also below zero; on that byte it selects the same slot as SlotOf.
   */
  lemma SlotIsMask(sequence: int, low: bv8)
    requires low as int == sequence % 256
    ensures SlotOf(sequence) == (low & 63) as int
  {
    MaskIsRemainder(low);
    RemainderOfRemainder(sequence);
  }

  /** Sequence numbers less than a ring apart never share a slot. */
  lemma DistinctSlots(m: int, n: int)
    requires m < n < m + CmdBackup
    ensures SlotOf(m) != SlotOf(n)
  {
    var d := n / CmdBackup - m / CmdBackup;
    assert n == CmdBackup * (n / CmdBackup) + SlotOf(n);
    assert m == CmdBackup * (m / CmdBackup) + SlotOf(m);
    assert (n - m) - (SlotOf(n) - SlotOf(m)) == CmdBackup * d;
    if d <= 0 {
      assert CmdBackup * d <= 0;
      assert SlotOf(n) - SlotOf(m) >= n - m > 0;
    } else {
      assert CmdBackup * d >= CmdBackup;
      assert SlotOf(n) - SlotOf(m) <= n - m - CmdBackup < 0;
    }
  }

  /** The ring after the command for sequence n is stored. */
  function Store(ring: seq<UserCmd>, n: int, c: UserCmd): (r: seq<UserCmd>)
    requires |ring| == CmdBackup
    ensures |r| == CmdBackup
    ensures r[SlotOf(n)] == c
    ensures forall j :: 0 <= j < CmdBackup && j != SlotOf(n) ==> r[j] == ring[j]
  {
    ring[SlotOf(n) := c]
  }

  /** The ring after storing `cs[i]` for sequence `start + i`, in order. */
  function StoreRun(ring: seq<UserCmd>, start: int, cs: seq<UserCmd>): (r: seq<UserCmd>)
    requires |ring| == CmdBackup
    ensures |r| == CmdBackup
    decreases |cs|
  {
    if cs == [] then ring else StoreRun(Store(ring, start, cs[0]), start + 1, cs[1..])
  }

  /** Slots that no stored sequence number maps to keep their contents. */
  lemma {:induction false} StoreRunKeeps(ring: seq<UserCmd>, start: int, cs: seq<UserCmd>, j: int)
    requires |ring| == CmdBackup && 0 <= j < CmdBackup
    requires forall n :: start <= n < start + |cs| ==> SlotOf(n) != j
    ensures StoreRun(ring, start, cs)[j] == ring[j]
    decreases |cs|
  {
    if cs != [] {
      assert SlotOf(start) != j;
      StoreRunKeeps(Store(ring, start, cs[0]), start + 1, cs[1..], j);
    }
  }

  /**
   * After consecutive commands are stored, the ring holds each of the last
   * CMD_BACKUP of them at its own sequence number's slot.
   */
  lemma {:induction false} RingHoldsLastCommands(ring: seq<UserCmd>, start: int, cs: seq<UserCmd>, k: int)
    requires |ring| == CmdBackup
    requires 0 <= k < |cs| && |cs| - k <= CmdBackup
    ensures StoreRun(ring, start, cs)[SlotOf(start + k)] == cs[k]
    decreases |cs|
  {
    var ring1 := Store(ring, start, cs[0]);
    if k == 0 {
      forall n | start + 1 <= n < start + |cs| ensures SlotOf(n) != SlotOf(start) {
        DistinctSlots(start, n);
      }
      StoreRunKeeps(ring1, start + 1, cs[1..], SlotOf(start));
    } else {
      RingHoldsLastCommands(ring1, start + 1, cs[1..], k - 1);
      assert start + 1 + (k - 1) == start + k;
    }
  }

  /**
   * The three commands a move packet carries, read at sequence numbers
   * n-2, n-1 and n, are the last three commands stored.
   */
  lemma LastThreeAreSent(ring: seq<UserCmd>, start: int, cs: seq<UserCmd>)
    requires |ring| == CmdBackup && |cs| >= 3
    ensures var n := start + |cs| - 1;
            var r := StoreRun(ring, start, cs);
            r[SlotOf(n - 2)] == cs[|cs| - 3] &&
            r[SlotOf(n - 1)] == cs[|cs| - 2] &&
            r[SlotOf(n)] == cs[|cs| - 1]
  {
    var n := start + |cs| - 1;
    var k2, k1, k0 := |cs| - 3, |cs| - 2, |cs| - 1;
    assert start + k2 == n - 2 && start + k1 == n - 1 && start + k0 == n;
    RingHoldsLastCommands(ring, start, cs, k2);
    RingHoldsLastCommands(ring, start, cs, k1);
    RingHoldsLastCommands(ring, start, cs, k0);
  }
}
