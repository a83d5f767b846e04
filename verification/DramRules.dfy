/** The timing rules between commands, in raw parameters, over the log of every run. */
module DramRules {
  import opened DramTypes
  import opened CommandQueueSpec
  import opened MemorySystemSpec
  import opened DramSafety
  import opened DramBus

  datatype Target = ToActivate | ToPrecharge | ToRead | ToWrite

  // The page policy sends commands of this kind.
  predicate Sent(P: Params, k: Kind)
  {
    match k
    case READ | WRITE | PRECHARGE => !P.closePage
    case READ_P | WRITE_P => P.closePage
    case ACTIVATE | REFRESH => true
    case DATA => false
  }

  // How long after `first` the device rules keep a command of the target kind from bank b of rank r; at most 0 when
  // no rule binds.
  function Spacing(P: Params, first: Packet, target: Target, r: nat, b: nat): int
  {
    var own := first.rank == r && first.bank == b;
    var data := P.BL / 2;
    match first.kind
    case ACTIVATE =>
      if first.rank != r then 0
      else if first.bank != b then (if target == ToActivate then P.tRRD else 0)
      else (match target case ToActivate => P.tRC case ToPrecharge => P.tRAS case _ => P.tRCD - P.AL)
    case PRECHARGE => if own && target == ToActivate then P.tRP else 0
    case REFRESH => if first.rank == r && target == ToActivate then P.tRFC else 0
    case DATA => 0
    case READ | READ_P =>
      (match target
       case ToRead => if first.rank == r then Max(P.tCCD, data) else data + P.tRTRS
       case ToWrite => data + P.tRTRS + 1
       case ToPrecharge => if own && first.kind == READ then P.AL + data + Max(P.tRTP, P.tCCD) - P.tCCD else 0
       case ToActivate => if own && first.kind == READ_P then P.AL + P.tRTP + P.tRP else 0)
    case WRITE | WRITE_P =>
      (match target
       case ToRead => if first.rank == r then P.CL + P.AL - 1 + data + P.tWTR else data + P.tRTRS - 1
       case ToWrite => if first.rank == r then Max(P.tCCD, data) else data + P.tRTRS
       case ToPrecharge => if own && first.kind == WRITE then P.CL + P.AL - 1 + data + P.tWR else 0
       case ToActivate => if own && first.kind == WRITE_P then P.CL + P.AL - 1 + data + P.tWR + P.tRP else 0)
  }

  // What the rules make of a command.
  function TargetOf(k: Kind): Target
  {
    match k
    case READ | READ_P => ToRead
    case WRITE | WRITE_P => ToWrite
    case PRECHARGE => ToPrecharge
    case _ => ToActivate
  }

  // ---------- what the controller forgets

  function Least(a: int, b: int): int { if a < b then a else b }

  // From an access with auto-precharge to the first column access after its bank was opened again.
  function Reopened(P: Params, isRead: bool): int
  {
    (if isRead then P.AL + P.tRTP else P.CL + P.AL - 1 + P.BL / 2 + P.tWR) + P.tRP + P.tRCD - P.AL
  }

  // From a command to the cycle its bank may be at rest.
  function AtRest(P: Params, k: Kind): int
  {
    match k
    case ACTIVATE =>
      if P.closePage then P.tRCD - P.AL + Least(RestAfterRead(P), RestAfterWrite(P)) else P.tRAS + P.tRP
    case PRECHARGE => P.tRP
    case REFRESH => P.tRFC
    case READ | READ_P => RestAfterRead(P)
    case WRITE | WRITE_P => RestAfterWrite(P)
    case DATA => 0
  }

  function RestAfterRead(P: Params): int
  {
    var closed := P.AL + P.BL / 2 + Max(P.tRTP, P.tCCD) - P.tCCD + P.tRP;
    if P.closePage then Least(closed, P.AL + P.tRTP + P.tRP + P.tRFC) else closed
  }

  function RestAfterWrite(P: Params): int { P.CL + P.AL - 1 + P.BL / 2 + P.tWR + P.tRP }

  // From a command to the first activate after its rank slept and woke.
  function Awake(P: Params, k: Kind): int { AtRest(P, k) + P.tCKE + P.tXP }

  // What the controller keeps of the gap.  Waking up sets a new earliest activate, and an auto-precharge sets new
  // earliest accesses for its bank, so a longer gap lasts no longer than it takes to sleep or to reopen the row.
  function Distance(P: Params, first: Packet, target: Target, r: nat, b: nat): int
  {
    var gap := Spacing(P, first, target, r, b);
    match target
    case ToPrecharge => gap
    case ToActivate => if P.lowPower then Least(gap, Awake(P, first.kind)) else gap
    case _ =>
      if first.rank != r || !P.closePage then gap
      else
        var left := Least(gap, Reopened(P, target == ToWrite));
        var own := if first.bank == b then Least(left, Reopened(P, IsRead(first.kind))) else left;
        if P.lowPower then Least(own, Awake(P, first.kind) + P.tRCD - P.AL) else own
  }

  // ---------- what a bank keeps of an earlier command

  predicate IsAccess(target: Target) { target == ToRead || target == ToWrite }

  function Earliest(m: BankState, target: Target): nat
  {
    match target
    case ToActivate => m.nextActivate
    case ToPrecharge => m.nextPrecharge
    case ToRead => m.nextRead
    case ToWrite => m.nextWrite
  }

  // Nothing of the target kind is sent to bank m of rank r before the rule of command e is over.  An access to
  // another rank is no concern of a row opened later.
  predicate Keeps(P: Params, e: Issue, reopened: bool, r: nat, b: nat, m: BankState, target: Target)
  {
    var d := Distance(P, e.packet, target, r, b);
    d > 0 ==>
      var x := e.time + d;
      if !IsAccess(target) then x <= Earliest(m, target)
      else if e.packet.rank != r then reopened || !Usable(m) || x <= Earliest(m, target)
      else x <= Earliest(m, target) || (P.closePage && !Usable(m) && x <= m.nextActivate + P.tRCD - P.AL)
  }

  // As of cycle t, the bank is not at rest before cycle x.
  predicate RestsFrom(P: Params, m: BankState, x: int, t: int)
  {
    match m.status
    case Idle => x <= t
    case PowerDown => x + P.tCKE <= m.nextPowerUp
    case Precharging => x <= t + m.countdown && x <= m.nextActivate + P.tRFC
    case Refreshing => x <= t + m.countdown
    case RowActive =>
      if m.countdown > 0 then x <= t + m.countdown + P.tRP && x <= m.nextActivate + P.tRFC
      else if P.closePage then x <= m.nextRead + RestAfterRead(P) && x <= m.nextWrite + RestAfterWrite(P)
      else x <= m.nextPrecharge + P.tRP
  }

  lemma CountDownKeeps(P: Params, e: Issue, reopened: bool, r: nat, b: nat, m: BankState, d: BankState, target: Target,
    t: int)
    requires ValidParams(P) && SimBank(P, m, d, t) && Keeps(P, e, reopened, r, b, m, target)
    ensures Keeps(P, e, reopened, r, b, CountDownBank(P, m), target)
  {
  }

  lemma CountDownRests(P: Params, m: BankState, d: BankState, x: int, t: int)
    requires ValidParams(P) && SimBank(P, m, d, t) && RestsFrom(P, m, x, t)
    ensures RestsFrom(P, CountDownBank(P, m), x, t + 1)
  {
  }

  predicate Opens(p: Packet, r: nat, b: nat) { p.kind == ACTIVATE && p.rank == r && p.bank == b }

  // A rule for row commands stays kept whatever may be issued.
  lemma IssueKeepsRow(P: Params, p: Packet, e: Issue, reopened: bool, r: nat, b: nat, m: BankState, d: BankState,
    target: Target, now: nat)
    requires ValidParams(P) && SimBank(P, m, d, now) && Keeps(P, e, reopened, r, b, m, target) && !IsAccess(target)
    requires r == p.rank && (b == p.bank || p.kind == REFRESH) ==> MayIssue(P, p, m, now)
    ensures Keeps(P, e, reopened, r, b, IssueBank(P, p, r, b, m, now), target)
  {
  }

  // So does one for accesses, as long as it is remembered.
  lemma ReadKeepsAccess(P: Params, p: Packet, e: Issue, reopened: bool, r: nat, b: nat, m: BankState, d: BankState,
    target: Target, now: nat)
    requires ValidParams(P) && SimBank(P, m, d, now) && Keeps(P, e, reopened, r, b, m, target) && IsAccess(target)
    requires r == p.rank && (b == p.bank || p.kind == REFRESH) ==> MayIssue(P, p, m, now)
    requires e.time <= now && IsRead(p.kind)
    ensures Keeps(P, e, reopened || Opens(p, r, b), r, b, IssueBank(P, p, r, b, m, now), target)
  {
  }

  lemma WriteKeepsAccess(P: Params, p: Packet, e: Issue, reopened: bool, r: nat, b: nat, m: BankState, d: BankState,
    target: Target, now: nat)
    requires ValidParams(P) && SimBank(P, m, d, now) && Keeps(P, e, reopened, r, b, m, target) && IsAccess(target)
    requires r == p.rank && (b == p.bank || p.kind == REFRESH) ==> MayIssue(P, p, m, now)
    requires e.time <= now && IsWrite(p.kind)
    ensures Keeps(P, e, reopened || Opens(p, r, b), r, b, IssueBank(P, p, r, b, m, now), target)
  {
  }

  lemma RowKeepsAccess(P: Params, p: Packet, e: Issue, reopened: bool, r: nat, b: nat, m: BankState, d: BankState,
    target: Target, now: nat)
    requires ValidParams(P) && SimBank(P, m, d, now) && Keeps(P, e, reopened, r, b, m, target) && IsAccess(target)
    requires r == p.rank && (b == p.bank || p.kind == REFRESH) ==> MayIssue(P, p, m, now)
    requires e.time <= now && !IsColumn(p.kind)
    ensures Keeps(P, e, reopened || Opens(p, r, b), r, b, IssueBank(P, p, r, b, m, now), target)
  {
  }

  lemma IssueKeepsAccess(P: Params, p: Packet, e: Issue, reopened: bool, r: nat, b: nat, m: BankState, d: BankState,
    target: Target, now: nat)
    requires ValidParams(P) && SimBank(P, m, d, now) && Keeps(P, e, reopened, r, b, m, target) && IsAccess(target)
    requires r == p.rank && (b == p.bank || p.kind == REFRESH) ==> MayIssue(P, p, m, now)
    requires e.time <= now
    ensures Keeps(P, e, reopened || Opens(p, r, b), r, b, IssueBank(P, p, r, b, m, now), target)
  {
    if IsRead(p.kind) {
      ReadKeepsAccess(P, p, e, reopened, r, b, m, d, target, now);
    } else if IsWrite(p.kind) {
      WriteKeepsAccess(P, p, e, reopened, r, b, m, d, target, now);
    } else {
      RowKeepsAccess(P, p, e, reopened, r, b, m, d, target, now);
    }
  }

  lemma ColumnRests(P: Params, p: Packet, r: nat, i: nat, m: BankState, d: BankState, x: int, now: nat)
    requires ValidParams(P) && SimBank(P, m, d, now) && RestsFrom(P, m, x, now) && IsColumn(p.kind)
    requires r == p.rank && (i == p.bank || p.kind == REFRESH) ==> MayIssue(P, p, m, now)
    ensures RestsFrom(P, IssueBank(P, p, r, i, m, now), x, now)
  {
  }

  lemma RowRests(P: Params, p: Packet, r: nat, i: nat, m: BankState, d: BankState, x: int, now: nat)
    requires ValidParams(P) && SimBank(P, m, d, now) && RestsFrom(P, m, x, now) && !IsColumn(p.kind)
    requires r == p.rank && (i == p.bank || p.kind == REFRESH) ==> MayIssue(P, p, m, now)
    ensures RestsFrom(P, IssueBank(P, p, r, i, m, now), x, now)
  {
  }

  lemma IssueRests(P: Params, p: Packet, r: nat, i: nat, m: BankState, d: BankState, x: int, now: nat)
    requires ValidParams(P) && SimBank(P, m, d, now) && RestsFrom(P, m, x, now)
    requires r == p.rank && (i == p.bank || p.kind == REFRESH) ==> MayIssue(P, p, m, now)
    ensures RestsFrom(P, IssueBank(P, p, r, i, m, now), x, now)
  {
    if IsColumn(p.kind) {
      ColumnRests(P, p, r, i, m, d, x, now);
    } else {
      RowRests(P, p, r, i, m, d, x, now);
    }
  }

  // The command just issued is booked in every bank.
  lemma IssuedKeepsRow(P: Params, p: Packet, r: nat, b: nat, m: BankState, d: BankState, target: Target, now: nat)
    requires ValidParams(P) && SimBank(P, m, d, now) && !IsAccess(target)
    requires r == p.rank && (b == p.bank || p.kind == REFRESH) ==> MayIssue(P, p, m, now)
    ensures Keeps(P, Issue(now, p), false, r, b, IssueBank(P, p, r, b, m, now), target)
  {
  }

  lemma ReadKept(P: Params, p: Packet, r: nat, b: nat, m: BankState, d: BankState, target: Target, now: nat)
    requires ValidParams(P) && SimBank(P, m, d, now) && IsAccess(target) && IsRead(p.kind)
    requires r == p.rank && (b == p.bank || p.kind == REFRESH) ==> MayIssue(P, p, m, now)
    ensures Keeps(P, Issue(now, p), false, r, b, IssueBank(P, p, r, b, m, now), target)
  {
  }

  lemma WriteKept(P: Params, p: Packet, r: nat, b: nat, m: BankState, d: BankState, target: Target, now: nat)
    requires ValidParams(P) && SimBank(P, m, d, now) && IsAccess(target) && IsWrite(p.kind)
    requires r == p.rank && (b == p.bank || p.kind == REFRESH) ==> MayIssue(P, p, m, now)
    ensures Keeps(P, Issue(now, p), false, r, b, IssueBank(P, p, r, b, m, now), target)
  {
  }

  lemma IssuedKeepsAccess(P: Params, p: Packet, r: nat, b: nat, m: BankState, d: BankState, target: Target, now: nat)
    requires ValidParams(P) && SimBank(P, m, d, now) && IsAccess(target)
    requires r == p.rank && (b == p.bank || p.kind == REFRESH) ==> MayIssue(P, p, m, now)
    ensures Keeps(P, Issue(now, p), false, r, b, IssueBank(P, p, r, b, m, now), target)
  {
    if IsRead(p.kind) {
      ReadKept(P, p, r, b, m, d, target, now);
    } else if IsWrite(p.kind) {
      WriteKept(P, p, r, b, m, d, target, now);
    }
  }

  lemma IssuedRests(P: Params, p: Packet, m: BankState, d: BankState, now: nat)
    requires ValidParams(P) && SimBank(P, m, d, now) && MayIssue(P, p, m, now)
    ensures RestsFrom(P, IssueBank(P, p, p.rank, p.bank, m, now), now + AtRest(P, p.kind), now)
  {
  }

  // Waking up keeps what it takes to sleep and wake.
  lemma WakeKeeps(P: Params, e: Issue, reopened: bool, r: nat, b: nat, m: BankState, target: Target, now: nat)
    requires ValidParams(P) && P.lowPower && m.status == PowerDown && Keeps(P, e, reopened, r, b, m, target)
    requires e.packet.rank == r ==> e.time + AtRest(P, e.packet.kind) + P.tCKE <= now
    ensures Keeps(P, e, reopened, r, b, m.(status := Idle, nextActivate := now + P.tXP), target)
  {
  }
}
