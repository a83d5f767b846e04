/** Values shared by the memory controller, its command queue and the ranks. */
module DramTypes {

  datatype Kind = READ | READ_P | WRITE | WRITE_P | ACTIVATE | PRECHARGE | REFRESH | DATA

  datatype Status = Idle | RowActive | Precharging | Refreshing | PowerDown

  // `seqno` is a modelling tag: the acceptance number of the transaction a
  // packet was split from.  No decision ever reads it.
  datatype Packet = Packet(kind: Kind, address: nat, row: nat, rank: nat, bank: nat, seqno: nat)

  datatype Transaction = Transaction(isRead: bool, address: nat, seqno: nat)

  // One record type serves the controller's shadow table and the device's own table.
  datatype BankState = BankState(
    status: Status, openRow: nat,
    nextRead: nat, nextWrite: nat, nextActivate: nat, nextPrecharge: nat, nextPowerUp: nat,
    last: Kind, countdown: nat)

  const INITIAL_BANK := BankState(Idle, 0, 0, 0, 0, 0, 0, READ, 0)

  datatype Location = Location(rank: nat, bank: nat, row: nat)

  datatype Params = Params(
    ranks: nat, banks: nat,
    CL: nat, AL: nat, BL: nat, tRAS: nat, tRCD: nat, tRRD: nat, tRC: nat, tRP: nat, tCCD: nat,
    tRTP: nat, tWTR: nat, tWR: nat, tRTRS: nat, tRFC: nat, tFAW: nat, tCKE: nat, tXP: nat, tCMD: nat,
    refreshCycles: nat,   // REFRESH_PERIOD/tCK
    refreshStagger: nat,  // (REFRESH_PERIOD/tCK)/NUM_RANKS
    queueDepth: nat, transDepth: nat, totalRowAccesses: nat,
    closePage: bool, perBank: bool, rankFirst: bool, lowPower: bool,
    locate: nat -> Location)

  // The value an unsigned rank index takes when it is set to -1.
  const NO_RANK: nat := 0xFFFF_FFFF

  function Max(a: int, b: int): int { if a < b then b else a }

  // `x--` on a 32-bit unsigned.
  function Dec(x: nat): nat { if x == 0 then 0xFFFF_FFFF else x - 1 }

  // The source's loops that decrement every counter of a vector.
  function DecAll(counts: seq<nat>): (d: seq<nat>)
    ensures |d| == |counts| && forall i :: 0 <= i < |counts| ==> d[i] == Dec(counts[i])
  {
    seq(|counts|, i requires 0 <= i < |counts| => Dec(counts[i]))
  }

  function ReadLatency(P: Params): nat { P.CL + P.AL }

  function WriteLatency(P: Params): int { ReadLatency(P) - 1 }

  function ReadToPre(P: Params): nat { P.AL + P.BL / 2 + Max(P.tRTP, P.tCCD) - P.tCCD }

  function WriteToPre(P: Params): int { WriteLatency(P) + P.BL / 2 + P.tWR }

  function ReadToWrite(P: Params): int { ReadLatency(P) + P.BL / 2 + P.tRTRS - WriteLatency(P) }

  function ReadAutoPre(P: Params): nat { P.AL + P.tRTP + P.tRP }

  function WriteAutoPre(P: Params): int { WriteLatency(P) + P.BL / 2 + P.tWR + P.tRP }

  function WriteToReadSameRank(P: Params): int { WriteLatency(P) + P.BL / 2 + P.tWTR }

  function WriteToReadOtherRank(P: Params): int { WriteLatency(P) + P.BL / 2 + P.tRTRS - ReadLatency(P) }

  function Burst(P: Params): nat { P.BL / 2 }

  // What the configuration must satisfy for the unsigned delay macros to mean
  // what they say and for the one-slot buses to work.
  ghost predicate ValidParams(P: Params)
  {
    && 1 <= P.ranks < NO_RANK && 1 <= P.banks
    && P.tCMD == 1
    && P.AL <= P.tRCD && P.BL % 2 == 0 && 2 <= P.BL
    && 1 <= P.tRP && 1 <= P.tRFC && 1 <= P.tFAW && 1 <= WriteLatency(P)
    && ReadToPre(P) <= ReadAutoPre(P)
    && Burst(P) <= 1 + P.tRCD - P.AL
    && 1 <= P.totalRowAccesses
    && (forall a: nat :: P.locate(a).rank < P.ranks && P.locate(a).bank < P.banks)
  }

  // What the refresh schedule asks of it besides: every rank has its turn within one period.
  ghost predicate ValidRefresh(P: Params)
  {
    1 <= P.refreshStagger && P.ranks * P.refreshStagger <= P.refreshCycles
  }

  function IsColumn(k: Kind): bool { k.READ? || k.READ_P? || k.WRITE? || k.WRITE_P? }

  function IsRead(k: Kind): bool { k.READ? || k.READ_P? }

  function IsWrite(k: Kind): bool { k.WRITE? || k.WRITE_P? }
}
