/** server/src/common/embedded.rs: extraction of one payload to one target path by any number of
    callers, in any interleaving, with crashes, I/O errors and failed locks. */
module Extraction {
  import opened Wrappers

  type byte = bv8

  datatype File = File(bytes: seq<byte>, executable: bool)

  /** The directory: open handles refer to inodes, so that what is written through a handle
      follows the file when it is renamed. A caller's temp file is named by its pid. */
  datatype Disk = Disk(inodes: seq<File>, target: Option<nat>, temps: map<nat, nat>)

  /** Where a caller is; the names say what it has done last. */
  datatype Pc =
    | Start
    | Absent
    | Admitted
    | Confirmed
    | Writing(off: nat)
    | Synced
    | Executable
    | Returned(ok: bool)
    | Crashed

  datatype Caller = Caller(pc: Pc, locked: bool, handle: nat, cleanupFailed: bool)

  datatype State = State(disk: Disk, callers: seq<Caller>, holder: Option<nat>, stale: set<nat>)

  /** The callers' pids (threads of one process share theirs), and whose lock may fail. */
  datatype Setup = Setup(payload: seq<byte>, pids: seq<nat>, lockMayFail: seq<bool>) {
    ghost predicate Valid() { |lockMayFail| == |pids| }
  }

  /** `create` and `write` may fail, and so may any later step; then the temp file is removed, if
      that succeeds. */
  datatype Action =
    | Look(i: nat)
    | Lock(i: nat)
    | LockFails(i: nat)
    | Recheck(i: nat)
    | Create(i: nat)
    | Write(i: nat, n: nat)
    | Sync(i: nat)
    | MakeExecutable(i: nat)
    | Rename(i: nat)
    | Fail(i: nat, removed: bool)
    | Crash(i: nat)

  // ----- the directory -----

  ghost predicate ValidDisk(d: Disk) {
    && (d.target.Some? ==> d.target.value < |d.inodes|)
    && (forall p :: p in d.temps ==> d.temps[p] < |d.inodes| && d.target != Some(d.temps[p]))
    && (forall p, q :: p in d.temps && q in d.temps && d.temps[p] == d.temps[q] ==> p == q)
  }

  function TargetFile(d: Disk): Option<File> {
    if d.target.Some? && d.target.value < |d.inodes| then Some(d.inodes[d.target.value]) else None
  }

  /** `is_intact`: the length is all that is compared. */
  predicate IsIntact(d: Disk, expectedLen: nat) {
    TargetFile(d).Some? && |TargetFile(d).value.bytes| == expectedLen
  }

  /** Write `chunk` at `off`: a gap reads as zeros. */
  function Put(bytes: seq<byte>, off: nat, chunk: seq<byte>): seq<byte> {
    (if off <= |bytes| then bytes[..off] else bytes + seq(off - |bytes|, i => 0 as byte))
    + chunk
    + (if off + |chunk| <= |bytes| then bytes[off + |chunk|..] else [])
  }

  function SetInode(d: Disk, ino: nat, f: File): Disk {
    if ino < |d.inodes| then d.(inodes := d.inodes[ino := f]) else d
  }

  function Inode(d: Disk, ino: nat): File {
    if ino < |d.inodes| then d.inodes[ino] else File([], false)
  }

  /** `File::create`: an existing file is truncated in place. */
  function CreateTemp(d: Disk, pid: nat): (r: (Disk, nat)) {
    if pid in d.temps then (SetInode(d, d.temps[pid], Inode(d, d.temps[pid]).(bytes := [])), d.temps[pid])
    else (Disk(d.inodes + [File([], false)], d.target, d.temps[pid := |d.inodes|]), |d.inodes|)
  }

  function RemoveTemp(d: Disk, pid: nat): Disk { d.(temps := d.temps - {pid}) }

  // ----- the steps -----

  predicate IsLive(p: Pc) { !p.Returned? && !p.Crashed? }

  predicate Enabled(c: Setup, s: State, a: Action) {
    && |s.callers| == |c.pids| == |c.lockMayFail| && a.i < |c.pids|
    && var me, pid := s.callers[a.i], c.pids[a.i];
       match a
       case Look(_) => me.pc == Start
       case Lock(_) => me.pc == Absent && s.holder == None
       case LockFails(i) => me.pc == Absent && c.lockMayFail[i]
       case Recheck(_) => me.pc == Admitted
       case Create(_) => me.pc == Confirmed
       case Write(_, n) => me.pc.Writing? && 0 < n && me.pc.off + n <= |c.payload|
       case Sync(_) => me.pc == Writing(|c.payload|)
       case MakeExecutable(_) => me.pc == Synced && pid in s.disk.temps
       case Rename(_) => me.pc == Executable && pid in s.disk.temps
       case Fail(_, removed) => (me.pc == Confirmed && !removed)
                                || (IsWriter(me.pc) && (removed ==> pid in s.disk.temps))
       case Crash(_) => IsLive(me.pc)
  }

  /** The caller's next program point; the lock goes with a return or a crash. */
  function Goto(s: State, i: nat, pc: Pc): State
    requires i < |s.callers|
  {
    var me := s.callers[i];
    if IsLive(pc) then s.(callers := s.callers[i := me.(pc := pc)])
    else s.(callers := s.callers[i := me.(pc := pc, locked := false)], holder := if me.locked then None else s.holder)
  }

  function Step(c: Setup, s: State, a: Action): State
    requires Enabled(c, s, a)
  {
    var i, me, pid := a.i, s.callers[a.i], c.pids[a.i];
    match a
    case Look(_) => Goto(s, i, if IsIntact(s.disk, |c.payload|) then Returned(true) else Absent)
    case Lock(_) => s.(callers := s.callers[i := me.(pc := Admitted, locked := true)], holder := Some(i))
    case LockFails(_) => Goto(s, i, Admitted)
    case Recheck(_) => Goto(s, i, if IsIntact(s.disk, |c.payload|) then Returned(true) else Confirmed)
    case Create(_) =>
      var (disk, handle) := CreateTemp(s.disk, pid);
      State(disk, s.callers[i := me.(pc := Writing(0), handle := handle)], s.holder, s.stale - {pid})
    case Write(_, n) =>
      var off, f := me.pc.off, Inode(s.disk, me.handle);
      var written := f.(bytes := Put(f.bytes, off, c.payload[off..off + n]));
      Goto(s.(disk := SetInode(s.disk, me.handle, written)), i, Writing(off + n))
    case Sync(_) => Goto(s, i, Synced)
    case MakeExecutable(_) =>
      var ino := s.disk.temps[pid];
      Goto(s.(disk := SetInode(s.disk, ino, Inode(s.disk, ino).(executable := true))), i, Executable)
    case Rename(_) =>
      Goto(s.(disk := RemoveTemp(s.disk, pid).(target := Some(s.disk.temps[pid]))), i, Returned(true))
    case Fail(_, removed) =>
      var disk := if removed then RemoveTemp(s.disk, pid) else s.disk;
      var callers := s.callers[i := me.(cleanupFailed := me.cleanupFailed || (me.pc != Confirmed && !removed))];
      Goto(s.(disk := disk, callers := callers), i, Returned(false))
    case Crash(_) => Goto(s, i, Crashed)
  }

  predicate IsSchedule(c: Setup, s: State, actions: seq<Action>)
    decreases |actions|
  {
    actions == [] || (Enabled(c, s, actions[0]) && IsSchedule(c, Step(c, s, actions[0]), actions[1..]))
  }

  function RunSchedule(c: Setup, s: State, actions: seq<Action>): State
    requires IsSchedule(c, s, actions)
    decreases |actions|
  {
    if actions == [] then s else RunSchedule(c, Step(c, s, actions[0]), actions[1..])
  }

  /** Before anything ran; temp files may be left over from earlier crashes. */
  function Init(c: Setup, disk: Disk): State {
    State(disk, seq(|c.pids|, i => Caller(Start, false, 0, false)), None, disk.temps.Keys)
  }

  // ----- the promise -----

  function Full(c: Setup): Option<File> { Some(File(c.payload, true)) }

  predicate Shared(c: Setup, i: nat, j: nat) {
    i < |c.pids| && j < |c.pids| && i != j && c.pids[i] == c.pids[j]
  }

  /** Callers that share a pid never go on without the lock. */
  ghost predicate Separate(c: Setup) {
    forall i: nat, j: nat :: Shared(c, i, j) && i < |c.lockMayFail| ==> !c.lockMayFail[i]
  }

  /** The target starts absent, equal, or of another length. */
  ghost predicate IsFair(c: Setup, target: Option<File>) {
    target.Some? && |target.value.bytes| == |c.payload| ==> target.value.bytes == c.payload
  }

  /** The target is what it was at first, or the executable payload. */
  ghost predicate Untorn(c: Setup, first: Option<File>, s: State) {
    TargetFile(s.disk) == first || TargetFile(s.disk) == Full(c)
  }

  ghost predicate HoldsPayload(c: Setup, s: State) {
    TargetFile(s.disk).Some? && TargetFile(s.disk).value.bytes == c.payload
  }

  // ----- the invariant -----

  predicate IsWriter(p: Pc) { p.Writing? || p == Synced || p == Executable }

  /** Past the lock, by holding it or by failing to get it. */
  predicate IsInside(p: Pc) { p == Admitted || p == Confirmed || IsWriter(p) }

  /** What a writer has put into its temp file so far. */
  ghost predicate WriterFits(c: Setup, s: State, i: nat)
    requires i < |s.callers| && |s.callers| == |c.pids|
  {
    var me, pid := s.callers[i], c.pids[i];
    IsWriter(me.pc) ==>
      && pid in s.disk.temps && s.disk.temps[pid] == me.handle && pid !in s.stale
      && Inode(s.disk, me.handle).bytes
         == (if me.pc.Writing? && me.pc.off <= |c.payload| then c.payload[..me.pc.off] else c.payload)
      && (me.pc.Writing? ==> me.pc.off <= |c.payload|)
      && (me.pc == Executable ==> Inode(s.disk, me.handle).executable)
  }

  ghost predicate LockFits(c: Setup, s: State) {
    && |s.callers| == |c.pids| == |c.lockMayFail|
    && (s.holder.Some? ==> s.holder.value < |s.callers|)
    && (s.holder.Some? ==> s.callers[s.holder.value].locked && IsInside(s.callers[s.holder.value].pc))
    && forall i :: 0 <= i < |s.callers| ==>
         && (s.callers[i].locked ==> s.holder == Some(i))
         && (IsInside(s.callers[i].pc) ==> s.callers[i].locked || c.lockMayFail[i])
  }

  /** Where a temp file comes from: left over from before, or from a caller that writes it,
      crashed, or could not remove it. */
  ghost predicate IsOwner(c: Setup, s: State, i: nat, pid: nat) {
    && i < |s.callers| && i < |c.pids| && c.pids[i] == pid
    && (IsWriter(s.callers[i].pc) || s.callers[i].pc == Crashed || s.callers[i].cleanupFailed)
  }

  ghost predicate Accounted(c: Setup, s: State, pid: nat) {
    pid in s.stale || exists i :: IsOwner(c, s, i, pid)
  }

  ghost predicate Inv(c: Setup, first: Option<File>, s: State) {
    && LockFits(c, s) && ValidDisk(s.disk) && Untorn(c, first, s)
    && (forall i :: 0 <= i < |s.callers| ==> WriterFits(c, s, i))
    && (forall i :: 0 <= i < |s.callers| && s.callers[i].pc == Returned(true) ==> HoldsPayload(c, s))
    && (forall pid :: pid in s.disk.temps ==> Accounted(c, s, pid))
  }

  /** Two callers past the lock have two pids. */
  lemma InsidersApart(c: Setup, s: State, i: nat, j: nat)
    requires Separate(c) && LockFits(c, s) && i < |s.callers| && j < |s.callers| && i != j
    requires IsInside(s.callers[i].pc) && IsInside(s.callers[j].pc)
    ensures c.pids[i] != c.pids[j]
  {
    if c.pids[i] == c.pids[j] { assert Shared(c, i, j) && Shared(c, j, i); }
  }

  lemma InitInv(c: Setup, disk: Disk)
    requires c.Valid() && ValidDisk(disk)
    ensures Inv(c, TargetFile(disk), Init(c, disk))
  {
  }

  /** A caller is unaffected by a step that leaves its temp file alone. */
  ghost predicate Undisturbed(c: Setup, s: State, s': State, j: nat)
    requires |s.callers| == |s'.callers| == |c.pids| && j < |c.pids|
  {
    var me, pid := s.callers[j], c.pids[j];
    && s'.callers[j] == me && s'.stale <= s.stale
    && (IsWriter(me.pc) ==>
         && (pid in s.disk.temps ==> pid in s'.disk.temps && s'.disk.temps[pid] == s.disk.temps[pid])
         && Inode(s'.disk, me.handle) == Inode(s.disk, me.handle))
  }

  /** One caller moves; its own part of the invariant remains to be shown. */
  lemma OthersFit(c: Setup, s: State, s': State, i: nat)
    requires |s.callers| == |s'.callers| == |c.pids| && i < |c.pids|
    requires forall j :: 0 <= j < |c.pids| ==> WriterFits(c, s, j)
    requires forall j :: 0 <= j < |c.pids| && j != i ==> Undisturbed(c, s, s', j)
    requires WriterFits(c, s', i)
    ensures forall j :: 0 <= j < |c.pids| ==> WriterFits(c, s', j)
  {
    forall j | 0 <= j < |c.pids|
      ensures WriterFits(c, s', j)
    {
      if j != i { assert WriterFits(c, s, j) && Undisturbed(c, s, s', j); }
    }
  }

  /** Temp files stay accounted for: nothing new but the mover's own, nobody else stops owning. */
  lemma StillAccounted(c: Setup, s: State, s': State, i: nat)
    requires |s.callers| == |s'.callers| == |c.pids| && i < |c.pids|
    requires forall pid :: pid in s.disk.temps ==> Accounted(c, s, pid)
    requires forall j :: 0 <= j < |c.pids| && j != i ==> s'.callers[j] == s.callers[j]
    requires forall pid :: pid in s'.disk.temps && pid != c.pids[i] ==> pid in s.disk.temps
    requires s.stale - {c.pids[i]} <= s'.stale
    requires c.pids[i] in s'.disk.temps ==>
               || IsOwner(c, s', i, c.pids[i])
               || (c.pids[i] in s.disk.temps && s'.stale == s.stale && !IsOwner(c, s, i, c.pids[i]))
    ensures forall pid :: pid in s'.disk.temps ==> Accounted(c, s', pid)
  {
    forall pid | pid in s'.disk.temps
      ensures Accounted(c, s', pid)
    {
      if !IsOwner(c, s', i, pid) {
        assert pid in s.disk.temps && Accounted(c, s, pid);
        if pid !in s'.stale {
          var j :| IsOwner(c, s, j, pid);
          assert IsOwner(c, s', j, pid);
        }
      }
    }
  }

  // ----- every step keeps the invariant -----

  lemma IntactIsPayload(c: Setup, first: Option<File>, s: State)
    requires Untorn(c, first, s) && IsFair(c, first) && IsIntact(s.disk, |c.payload|)
    ensures HoldsPayload(c, s)
  {
  }

  /** A caller that touches no file: only the lock and its own program point change. */
  lemma IdleInv(c: Setup, first: Option<File>, s: State, s': State, i: nat)
    requires Inv(c, first, s) && i < |s.callers| && s'.disk == s.disk && s'.stale == s.stale
    requires LockFits(c, s') && forall j :: 0 <= j < |s.callers| && j != i ==> s'.callers[j] == s.callers[j]
    requires !IsWriter(s'.callers[i].pc) && (s'.callers[i].pc == Returned(true) ==> HoldsPayload(c, s))
    requires IsOwner(c, s, i, c.pids[i]) ==> IsOwner(c, s', i, c.pids[i])
    ensures Inv(c, first, s')
  {
    OthersFit(c, s, s', i);
    StillAccounted(c, s, s', i);
  }

  lemma LookInv(c: Setup, first: Option<File>, s: State, a: Action)
    requires Inv(c, first, s) && IsFair(c, first) && Enabled(c, s, a) && (a.Look? || a.Recheck?)
    ensures Inv(c, first, Step(c, s, a))
  {
    if IsIntact(s.disk, |c.payload|) { IntactIsPayload(c, first, s); }
    IdleInv(c, first, s, Step(c, s, a), a.i);
  }

  lemma LockInv(c: Setup, first: Option<File>, s: State, a: Action)
    requires Inv(c, first, s) && Enabled(c, s, a) && (a.Lock? || a.LockFails?)
    ensures Inv(c, first, Step(c, s, a))
  {
    IdleInv(c, first, s, Step(c, s, a), a.i);
  }

  lemma CreateInv(c: Setup, first: Option<File>, s: State, i: nat)
    requires Inv(c, first, s) && Separate(c) && Enabled(c, s, Create(i))
    ensures Inv(c, first, Step(c, s, Create(i)))
  {
    var s' := Step(c, s, Create(i));
    forall j | 0 <= j < |c.pids| && j != i
      ensures Undisturbed(c, s, s', j)
    {
      if IsWriter(s.callers[j].pc) {
        InsidersApart(c, s, i, j);
        assert WriterFits(c, s, j);
      }
    }
    OthersFit(c, s, s', i);
    StillAccounted(c, s, s', i);
  }

  /** Changing the inode behind one temp file changes no other file. */
  lemma OwnInode(d: Disk, d': Disk, pid: nat, ino: nat)
    requires ValidDisk(d) && pid in d.temps && d.temps[pid] == ino
    requires d' == d.(inodes := d'.inodes) && |d'.inodes| == |d.inodes|
    requires forall k :: 0 <= k < |d.inodes| && k != ino ==> d'.inodes[k] == d.inodes[k]
    ensures ValidDisk(d') && TargetFile(d') == TargetFile(d)
  {
  }

  lemma PutExtends(payload: seq<byte>, off: nat, n: nat)
    requires off + n <= |payload|
    ensures Put(payload[..off], off, payload[off..off + n]) == payload[..off + n]
  {
    assert payload[..off + n] == payload[..off] + payload[off..off + n];
  }

  /** A writer that changes nothing but its own file. */
  lemma OwnFileInv(c: Setup, first: Option<File>, s: State, s': State, i: nat)
    requires Inv(c, first, s) && Separate(c) && i < |s.callers| && IsWriter(s.callers[i].pc)
    requires s' == s.(disk := s'.disk, callers := s'.callers) && s'.disk == s.disk.(inodes := s'.disk.inodes)
    requires |s'.disk.inodes| == |s.disk.inodes|
    requires forall k :: 0 <= k < |s.disk.inodes| && k != s.callers[i].handle ==> s'.disk.inodes[k] == s.disk.inodes[k]
    requires |s'.callers| == |s.callers| && s'.callers[i] == s.callers[i].(pc := s'.callers[i].pc)
    requires forall j :: 0 <= j < |s.callers| && j != i ==> s'.callers[j] == s.callers[j]
    requires IsWriter(s'.callers[i].pc) && WriterFits(c, s', i)
    ensures Inv(c, first, s') && TargetFile(s'.disk) == TargetFile(s.disk)
  {
    assert WriterFits(c, s, i);
    OwnInode(s.disk, s'.disk, c.pids[i], s.callers[i].handle);
    forall j | 0 <= j < |c.pids| && j != i
      ensures Undisturbed(c, s, s', j)
    {
      if IsWriter(s.callers[j].pc) {
        InsidersApart(c, s, i, j);
        assert WriterFits(c, s, j);
      }
    }
    OthersFit(c, s, s', i);
    StillAccounted(c, s, s', i);
  }

  lemma WriterStepInv(c: Setup, first: Option<File>, s: State, a: Action)
    requires Inv(c, first, s) && Separate(c) && Enabled(c, s, a) && (a.Write? || a.Sync? || a.MakeExecutable?)
    ensures Inv(c, first, Step(c, s, a)) && TargetFile(Step(c, s, a).disk) == TargetFile(s.disk)
  {
    var i := a.i;
    assert WriterFits(c, s, i);
    if a.Write? { PutExtends(c.payload, s.callers[i].pc.off, a.n); }
    OwnFileInv(c, first, s, Step(c, s, a), i);
  }

  lemma RenameInv(c: Setup, first: Option<File>, s: State, i: nat)
    requires Inv(c, first, s) && Separate(c) && Enabled(c, s, Rename(i))
    ensures Inv(c, first, Step(c, s, Rename(i))) && TargetFile(Step(c, s, Rename(i)).disk) == Full(c)
  {
    var s' := Step(c, s, Rename(i));
    assert WriterFits(c, s, i);
    forall j | 0 <= j < |c.pids| && j != i
      ensures Undisturbed(c, s, s', j)
    {
      if IsWriter(s.callers[j].pc) { InsidersApart(c, s, i, j); }
    }
    OthersFit(c, s, s', i);
    StillAccounted(c, s, s', i);
  }

  /** A caller that ends and leaves its file, if any, behind. */
  lemma EndInv(c: Setup, first: Option<File>, s: State, a: Action)
    requires Inv(c, first, s) && Enabled(c, s, a) && (a.Crash? || (a.Fail? && !a.removed))
    ensures Inv(c, first, Step(c, s, a))
  {
    IdleInv(c, first, s, Step(c, s, a), a.i);
  }

  /** A caller that removes its file and gives up. */
  lemma RemovalInv(c: Setup, first: Option<File>, s: State, i: nat)
    requires Inv(c, first, s) && Separate(c) && Enabled(c, s, Action.Fail(i, true))
    ensures Inv(c, first, Step(c, s, Action.Fail(i, true)))
  {
    var s' := Step(c, s, Action.Fail(i, true));
    forall j | 0 <= j < |c.pids| && j != i
      ensures Undisturbed(c, s, s', j)
    {
      if IsWriter(s.callers[j].pc) { InsidersApart(c, s, i, j); }
    }
    OthersFit(c, s, s', i);
    StillAccounted(c, s, s', i);
  }

  lemma StepInv(c: Setup, first: Option<File>, s: State, a: Action)
    requires Inv(c, first, s) && IsFair(c, first) && Separate(c) && Enabled(c, s, a)
    ensures Inv(c, first, Step(c, s, a))
    ensures HoldsPayload(c, s) ==> HoldsPayload(c, Step(c, s, a))
  {
    match a
    case Look(_) => LookInv(c, first, s, a);
    case Recheck(_) => LookInv(c, first, s, a);
    case Lock(_) => LockInv(c, first, s, a);
    case LockFails(_) => LockInv(c, first, s, a);
    case Create(i) => CreateInv(c, first, s, i);
    case Rename(i) => RenameInv(c, first, s, i);
    case Fail(i, removed) => if removed { RemovalInv(c, first, s, i); } else { EndInv(c, first, s, a); }
    case Crash(_) => EndInv(c, first, s, a);
    case _ => WriterStepInv(c, first, s, a);
  }

  // ----- whole runs -----

  lemma {:induction false} RunInv(c: Setup, first: Option<File>, s: State, actions: seq<Action>)
    requires Inv(c, first, s) && IsFair(c, first) && Separate(c) && IsSchedule(c, s, actions)
    ensures Inv(c, first, RunSchedule(c, s, actions)) && RunSchedule(c, s, actions).stale <= s.stale
    ensures HoldsPayload(c, s) ==> HoldsPayload(c, RunSchedule(c, s, actions))
    decreases |actions|
  {
    if actions != [] {
      StepInv(c, first, s, actions[0]);
      RunInv(c, first, Step(c, s, actions[0]), actions[1..]);
    }
  }

  /** What is promised at every moment: the target is whole, and it is the payload once any
      caller has returned Ok. */
  ghost predicate Sound(c: Setup, first: Option<File>, s: State) {
    && Untorn(c, first, s)
    && forall i :: 0 <= i < |s.callers| && s.callers[i].pc == Returned(true) ==> HoldsPayload(c, s)
  }

  lemma AlwaysSound(c: Setup, disk: Disk, actions: seq<Action>)
    requires c.Valid() && ValidDisk(disk) && IsFair(c, TargetFile(disk)) && Separate(c)
    requires IsSchedule(c, Init(c, disk), actions)
    ensures Sound(c, TargetFile(disk), RunSchedule(c, Init(c, disk), actions))
  {
    InitInv(c, disk);
    RunInv(c, TargetFile(disk), Init(c, disk), actions);
  }

  /** After an Ok the target holds the payload for good. */
  lemma OkIsForGood(c: Setup, disk: Disk, before: seq<Action>, after: seq<Action>, i: nat)
    requires c.Valid() && ValidDisk(disk) && IsFair(c, TargetFile(disk)) && Separate(c)
    requires IsSchedule(c, Init(c, disk), before) && IsSchedule(c, RunSchedule(c, Init(c, disk), before), after)
    requires i < |RunSchedule(c, Init(c, disk), before).callers|
    requires RunSchedule(c, Init(c, disk), before).callers[i].pc == Returned(true)
    ensures HoldsPayload(c, RunSchedule(c, RunSchedule(c, Init(c, disk), before), after))
  {
    InitInv(c, disk);
    RunInv(c, TargetFile(disk), Init(c, disk), before);
    RunInv(c, TargetFile(disk), RunSchedule(c, Init(c, disk), before), after);
  }

  /** A caller with a pid of its own that returned, and did not fail to clean up. */
  ghost predicate IsDone(c: Setup, s: State, i: nat) {
    && i < |c.pids| && i < |s.callers| && s.callers[i].pc.Returned? && !s.callers[i].cleanupFailed
    && forall j: nat :: !Shared(c, i, j)
  }

  /** Where a temp file can come from at any moment: left over from an earlier crash and touched
      by nobody since; or its pid's caller writes it, crashed, or could not remove it. So a caller
      with a pid of its own that has returned leaves none, but for the last reason or where it
      never got as far as to create one over a leftover. */
  lemma NoTempLeft(c: Setup, disk: Disk, actions: seq<Action>, pid: nat)
    requires c.Valid() && ValidDisk(disk) && IsFair(c, TargetFile(disk)) && Separate(c)
    requires IsSchedule(c, Init(c, disk), actions)
    ensures var s := RunSchedule(c, Init(c, disk), actions);
            && |s.callers| == |c.pids| && s.stale <= disk.temps.Keys
            && (pid in s.disk.temps ==> Accounted(c, s, pid))
            && forall i: nat :: IsDone(c, s, i) && c.pids[i] == pid && pid in s.disk.temps ==> pid in s.stale
  {
    InitInv(c, disk);
    RunInv(c, TargetFile(disk), Init(c, disk), actions);
    var s := RunSchedule(c, Init(c, disk), actions);
    forall i: nat | IsDone(c, s, i) && c.pids[i] == pid && pid in s.disk.temps
      ensures pid in s.stale
    {
      OnlyOwner(c, s, i);
    }
  }

  /** A pid of one's own has no other owner. */
  lemma OnlyOwner(c: Setup, s: State, i: nat)
    requires i < |c.pids| && i < |s.callers| && forall j: nat :: !Shared(c, i, j)
    ensures Accounted(c, s, c.pids[i]) <==> c.pids[i] in s.stale || IsOwner(c, s, i, c.pids[i])
  {
    if c.pids[i] !in s.stale && Accounted(c, s, c.pids[i]) {
      var j :| IsOwner(c, s, j, c.pids[i]);
      assert !Shared(c, i, j);
    }
  }

  // ----- progress -----

  predicate IsFault(a: Action) { a.LockFails? || a.Fail? || a.Crash? }

  /** As long as a caller is under way, some caller can take a step that is no fault. */
  lemma SomeStepEnabled(c: Setup, first: Option<File>, s: State, i: nat) returns (a: Action)
    requires Inv(c, first, s) && i < |s.callers| && IsLive(s.callers[i].pc)
    ensures Enabled(c, s, a) && !IsFault(a)
  {
    var k := if s.callers[i].pc == Absent && s.holder.Some? then s.holder.value else i;
    assert WriterFits(c, s, k);
    match s.callers[k].pc {
      case Start => a := Look(k);
      case Absent => a := Lock(k);
      case Admitted => a := Recheck(k);
      case Confirmed => a := Create(k);
      case Writing(off) => a := if off == |c.payload| then Sync(k) else Write(k, |c.payload| - off);
      case Synced => a := MakeExecutable(k);
      case Executable => a := Rename(k);
    }
  }

  /** The steps a caller may still take, at most. */
  function Rank(c: Setup, p: Pc): nat {
    var n := |c.payload|;
    match p
    case Start => n + 7
    case Absent => n + 6
    case Admitted => n + 5
    case Confirmed => n + 4
    case Writing(off) => SaturatingSub(n, off) + 3
    case Synced => 2
    case Executable => 1
    case _ => 0
  }

  function TotalRank(c: Setup, callers: seq<Caller>): nat {
    if callers == [] then 0 else Rank(c, callers[0].pc) + TotalRank(c, callers[1..])
  }

  lemma {:induction false} RankUpdate(c: Setup, callers: seq<Caller>, i: nat, me: Caller)
    requires i < |callers|
    ensures TotalRank(c, callers[i := me]) == TotalRank(c, callers) - Rank(c, callers[i].pc) + Rank(c, me.pc)
  {
    if i > 0 {
      assert callers[i := me][1..] == callers[1..][i - 1 := me];
      RankUpdate(c, callers[1..], i - 1, me);
    } else {
      assert callers[0 := me][1..] == callers[1..];
    }
  }

  lemma CallerRank(c: Setup, s: State, a: Action)
    requires Enabled(c, s, a)
    ensures Rank(c, Step(c, s, a).callers[a.i].pc) < Rank(c, s.callers[a.i].pc)
    ensures Step(c, s, a).callers == s.callers[a.i := Step(c, s, a).callers[a.i]]
  {
  }

  lemma StepRank(c: Setup, s: State, a: Action)
    requires Enabled(c, s, a)
    ensures TotalRank(c, Step(c, s, a).callers) < TotalRank(c, s.callers)
  {
    CallerRank(c, s, a);
    RankUpdate(c, s.callers, a.i, Step(c, s, a).callers[a.i]);
  }

  lemma {:induction false} RunRank(c: Setup, s: State, actions: seq<Action>)
    requires IsSchedule(c, s, actions)
    ensures |actions| + TotalRank(c, RunSchedule(c, s, actions).callers) <= TotalRank(c, s.callers)
    decreases |actions|
  {
    if actions != [] {
      StepRank(c, s, actions[0]);
      RunRank(c, Step(c, s, actions[0]), actions[1..]);
    }
  }

  lemma {:induction false} StartRank(c: Setup, callers: seq<Caller>)
    requires forall i :: 0 <= i < |callers| ==> callers[i].pc == Start
    ensures TotalRank(c, callers) == |callers| * (|c.payload| + 7)
  {
    if callers != [] {
      StartRank(c, callers[1..]);
      assert |callers| * (|c.payload| + 7) == |callers[1..]| * (|c.payload| + 7) + (|c.payload| + 7);
    }
  }

  ghost predicate NoneFailed(s: State) {
    forall i :: 0 <= i < |s.callers| ==> s.callers[i].pc != Crashed && s.callers[i].pc != Returned(false)
  }

  lemma {:induction false} StaysUnfailed(c: Setup, s: State, actions: seq<Action>)
    requires IsSchedule(c, s, actions) && NoneFailed(s)
    requires forall a :: a in actions ==> !a.Fail? && !a.Crash?
    ensures NoneFailed(RunSchedule(c, s, actions))
    decreases |actions|
  {
    if actions != [] {
      assert actions[0] in actions;
      StaysUnfailed(c, Step(c, s, actions[0]), actions[1..]);
    }
  }

  /** Every schedule ends within a bound, and where it can go no further every caller is done;
      without I/O errors and crashes each of them, locked or not, has returned Ok. */
  lemma EveryScheduleEnds(c: Setup, disk: Disk, actions: seq<Action>)
    requires c.Valid() && ValidDisk(disk) && IsFair(c, TargetFile(disk)) && Separate(c)
    requires IsSchedule(c, Init(c, disk), actions)
    ensures |actions| <= |c.pids| * (|c.payload| + 7)
    ensures var s := RunSchedule(c, Init(c, disk), actions);
            (forall a :: !IsFault(a) ==> !Enabled(c, s, a)) ==>
              && (forall i :: 0 <= i < |s.callers| ==> !IsLive(s.callers[i].pc))
              && ((forall a :: a in actions ==> !a.Fail? && !a.Crash?) ==>
                    forall i :: 0 <= i < |s.callers| ==> s.callers[i].pc == Returned(true))
  {
    var s0 := Init(c, disk);
    var s := RunSchedule(c, s0, actions);
    InitInv(c, disk);
    RunInv(c, TargetFile(disk), s0, actions);
    RunRank(c, s0, actions);
    StartRank(c, s0.callers);
    if (forall a :: !IsFault(a) ==> !Enabled(c, s, a)) {
      forall i | 0 <= i < |s.callers|
        ensures !IsLive(s.callers[i].pc)
      {
        if IsLive(s.callers[i].pc) { var a := SomeStepEnabled(c, TargetFile(disk), s, i); }
      }
      if (forall a :: a in actions ==> !a.Fail? && !a.Crash?) { StaysUnfailed(c, s0, actions); }
    }
  }

  // ----- without separation -----

  lemma {:induction false} Then(c: Setup, s: State, actions: seq<Action>, a: Action)
    requires IsSchedule(c, s, actions) && Enabled(c, RunSchedule(c, s, actions), a)
    ensures IsSchedule(c, s, actions + [a])
    ensures RunSchedule(c, s, actions + [a]) == Step(c, RunSchedule(c, s, actions), a)
    decreases |actions|
  {
    if actions == [] {
      assert [] + [a] == [a] && [a][1..] == [];
    } else {
      assert (actions + [a])[1..] == actions[1..] + [a];
      Then(c, Step(c, s, actions[0]), actions[1..], a);
    }
  }

  /** A caller that has just come to `Confirmed`, locked or not, with nothing else changed. */
  lemma Confirms(c: Setup, s0: State, actions: seq<Action>, i: nat, locks: bool) returns (more: seq<Action>)
    requires IsSchedule(c, s0, actions) && c.Valid()
    requires var s := RunSchedule(c, s0, actions);
             |s.callers| == |c.pids| && i < |s.callers| && s.callers[i] == Caller(Start, false, 0, false)
             && !IsIntact(s.disk, |c.payload|) && (if locks then s.holder == None else c.lockMayFail[i])
    ensures IsSchedule(c, s0, more)
    ensures var s := RunSchedule(c, s0, actions);
            RunSchedule(c, s0, more) == s.(callers := s.callers[i := Caller(Confirmed, locks, 0, false)],
                                           holder := if locks then Some(i) else s.holder)
  {
    Then(c, s0, actions, Look(i));
    more := actions + [Look(i)];
    var lock := if locks then Lock(i) else LockFails(i);
    Then(c, s0, more, lock);
    more := more + [lock];
    Then(c, s0, more, Recheck(i));
    more := more + [Recheck(i)];
  }

  /** Only the caller `i`, unlocked, has moved, and the target is still as it was. */
  ghost predicate OnlyMoved(c: Setup, s: State, s': State, i: nat) {
    && |s.callers| == |s'.callers| == |c.pids| && i < |c.pids| && !s'.callers[i].locked
    && (forall j :: 0 <= j < |c.pids| && j != i ==> s'.callers[j] == s.callers[j])
    && s'.holder == s.holder && ValidDisk(s'.disk) && TargetFile(s'.disk) == TargetFile(s.disk)
  }

  ghost predicate HasTemp(c: Setup, s: State, i: nat) {
    i < |s.callers| && i < |c.pids| && c.pids[i] in s.disk.temps && s.disk.temps[c.pids[i]] == s.callers[i].handle
  }

  lemma Fills(c: Setup, s0: State, actions: seq<Action>, i: nat) returns (more: seq<Action>)
    requires IsSchedule(c, s0, actions) && c.Valid() && c.payload != []
    requires var s := RunSchedule(c, s0, actions);
             && |s.callers| == |c.pids| && i < |s.callers| && ValidDisk(s.disk)
             && s.callers[i] == Caller(Confirmed, false, 0, false)
    ensures IsSchedule(c, s0, more)
    ensures OnlyMoved(c, RunSchedule(c, s0, actions), RunSchedule(c, s0, more), i)
    ensures HasTemp(c, RunSchedule(c, s0, more), i)
    ensures RunSchedule(c, s0, more).callers[i].pc == Writing(|c.payload|)
  {
    Then(c, s0, actions, Create(i));
    more := actions + [Create(i)];
    var s1 := RunSchedule(c, s0, more);
    assert ValidDisk(s1.disk) && TargetFile(s1.disk) == TargetFile(RunSchedule(c, s0, actions).disk);
    Then(c, s0, more, Write(i, |c.payload|));
    more := more + [Write(i, |c.payload|)];
    OwnInode(s1.disk, RunSchedule(c, s0, more).disk, c.pids[i], s1.callers[i].handle);
  }

  /** An unlocked caller gets its temp file complete and executable. */
  lemma Stages(c: Setup, s0: State, actions: seq<Action>, i: nat) returns (more: seq<Action>)
    requires IsSchedule(c, s0, actions) && c.Valid() && c.payload != []
    requires var s := RunSchedule(c, s0, actions);
             && |s.callers| == |c.pids| && i < |s.callers| && ValidDisk(s.disk)
             && s.callers[i] == Caller(Confirmed, false, 0, false)
    ensures IsSchedule(c, s0, more)
    ensures OnlyMoved(c, RunSchedule(c, s0, actions), RunSchedule(c, s0, more), i)
    ensures HasTemp(c, RunSchedule(c, s0, more), i)
    ensures RunSchedule(c, s0, more).callers[i].pc == Executable
  {
    more := Fills(c, s0, actions, i);
    Then(c, s0, more, Sync(i));
    more := more + [Sync(i)];
    var s2 := RunSchedule(c, s0, more);
    Then(c, s0, more, MakeExecutable(i));
    more := more + [MakeExecutable(i)];
    OwnInode(s2.disk, RunSchedule(c, s0, more).disk, c.pids[i], s2.callers[i].handle);
  }

  /** Where two callers share a pid and the lock of one may fail, it can return Ok and leave an
      empty target: the other one truncates the temp file just before it is renamed. */
  lemma TornRun(c: Setup, disk: Disk, i: nat, j: nat) returns (actions: seq<Action>)
    requires c.Valid() && ValidDisk(disk) && Shared(c, i, j) && c.lockMayFail[i]
    requires c.payload != [] && !IsIntact(disk, |c.payload|)
    ensures IsSchedule(c, Init(c, disk), actions)
    ensures var s := RunSchedule(c, Init(c, disk), actions);
            && i < |s.callers| && s.callers[i].pc == Returned(true)
            && TargetFile(s.disk).Some? && TargetFile(s.disk).value.bytes == []
  {
    var s0 := Init(c, disk);
    actions := Confirms(c, s0, [], i, false);
    actions := Stages(c, s0, actions, i);
    actions := Confirms(c, s0, actions, j, true);
    var s1 := RunSchedule(c, s0, actions);
    Then(c, s0, actions, Create(j));
    actions := actions + [Create(j)];
    var s2 := RunSchedule(c, s0, actions);
    var ino := s1.disk.temps[c.pids[i]];
    assert s2.disk == SetInode(s1.disk, ino, Inode(s1.disk, ino).(bytes := []));
    Then(c, s0, actions, Rename(i));
    actions := actions + [Rename(i)];
  }

  /** Exactly when is every run sound, for a payload that has to be extracted: when callers that
      share a pid cannot miss the lock. */
  lemma SoundExactlyWhenSeparate(c: Setup, disk: Disk)
    requires c.Valid() && ValidDisk(disk) && c.payload != [] && !IsIntact(disk, |c.payload|)
    ensures Separate(c) <==>
              forall actions :: IsSchedule(c, Init(c, disk), actions) ==>
                Sound(c, TargetFile(disk), RunSchedule(c, Init(c, disk), actions))
  {
    if Separate(c) {
      forall actions | IsSchedule(c, Init(c, disk), actions)
        ensures Sound(c, TargetFile(disk), RunSchedule(c, Init(c, disk), actions))
      {
        AlwaysSound(c, disk, actions);
      }
    } else {
      var i: nat, j: nat :| Shared(c, i, j) && i < |c.lockMayFail| && c.lockMayFail[i];
      var actions := TornRun(c, disk, i, j);
      var s := RunSchedule(c, Init(c, disk), actions);
      assert IsSchedule(c, Init(c, disk), actions) && !Sound(c, TargetFile(disk), s);
    }
  }

  // ----- one caller's code -----

  /** What goes wrong for a caller, if anything: a write takes some bytes, or fails. */
  datatype Faults = Faults(
    lock: bool,
    create: bool,
    write: nat -> Option<nat>,
    sync: bool,
    chmod: bool,
    rename: bool,
    remove: bool)

  /** One caller on its own. */
  function Alone(payload: seq<byte>, pid: nat, faults: Faults): Setup {
    Setup(payload, [pid], [faults.lock])
  }

  /** The steps taken so far by a lone caller bring it to `pc` and the directory to `disk`. */
  ghost predicate IsAt(c: Setup, s0: State, actions: seq<Action>, disk: Disk, pc: Pc) {
    && |c.pids| == |c.lockMayFail| == 1 && IsSchedule(c, s0, actions)
    && var s := RunSchedule(c, s0, actions);
       s.disk == disk && |s.callers| == 1 && s.callers[0].pc == pc && (s.holder == None || s.callers[0].locked)
       && (pc.Writing? && c.pids[0] in disk.temps ==> disk.temps[c.pids[0]] == s.callers[0].handle)
  }

  /** The directory after the next step of a lone caller. */
  lemma Takes(c: Setup, s0: State, actions: seq<Action>, disk: Disk, pc: Pc, a: Action, disk': Disk, pc': Pc)
    requires IsAt(c, s0, actions, disk, pc) && Enabled(c, RunSchedule(c, s0, actions), a)
    requires var s' := Step(c, RunSchedule(c, s0, actions), a);
             s'.disk == disk' && s'.callers[0].pc == pc' && (s'.holder == None || s'.callers[0].locked)
             && (pc'.Writing? && c.pids[0] in disk'.temps ==> disk'.temps[c.pids[0]] == s'.callers[0].handle)
    ensures IsAt(c, s0, actions + [a], disk', pc')
  {
    Then(c, s0, actions, a);
  }

  function Chunk(d: Disk, ino: nat, off: nat, chunk: seq<byte>): Disk {
    SetInode(d, ino, Inode(d, ino).(bytes := Put(Inode(d, ino).bytes, off, chunk)))
  }

  lemma WriteTaken(c: Setup, s0: State, actions: seq<Action>, disk: Disk, off: nat, n: nat)
    requires IsAt(c, s0, actions, disk, Writing(off)) && 0 < n && off + n <= |c.payload| && c.pids[0] in disk.temps
    ensures var disk' := Chunk(disk, disk.temps[c.pids[0]], off, c.payload[off..off + n]);
            && IsAt(c, s0, actions + [Write(0, n)], disk', Writing(off + n))
            && disk'.target == disk.target && disk'.temps == disk.temps
  {
    var disk' := Chunk(disk, disk.temps[c.pids[0]], off, c.payload[off..off + n]);
    Takes(c, s0, actions, disk, Writing(off), Write(0, n), disk', Writing(off + n));
  }

  /** Whatever goes wrong, a lone caller keeps the target whole, and Ok means the payload. */
  lemma LoneIsSound(c: Setup, was: Disk, actions: seq<Action>, disk: Disk, pc: Pc)
    requires IsAt(c, Init(c, was), actions, disk, pc) && ValidDisk(was) && IsFair(c, TargetFile(was))
    ensures TargetFile(disk) == TargetFile(was) || TargetFile(disk) == Full(c)
    ensures pc == Returned(true) ==> TargetFile(disk).Some? && TargetFile(disk).value.bytes == c.payload
  {
    AlwaysSound(c, was, actions);
  }

  class Directory {
    var disk: Disk

    constructor (disk: Disk)
      ensures this.disk == disk
    {
      this.disk := disk;
    }

    /** Check, lock, check again: whether the payload has to be extracted. */
    method Admit(payload: seq<byte>, pid: nat, faults: Faults, ghost c: Setup, ghost s0: State)
      returns (needed: bool, ghost actions: seq<Action>)
      requires c == Alone(payload, pid, faults) && s0 == Init(c, disk)
      ensures IsAt(c, s0, actions, disk, if needed then Confirmed else Returned(true))
    {
      var intact := IsIntact(disk, |payload|);
      Takes(c, s0, [], disk, Start, Look(0), disk, if intact then Returned(true) else Absent);
      actions := [] + [Look(0)];
      if intact { return false, actions; }
      var lock := if faults.lock then LockFails(0) else Lock(0);
      Takes(c, s0, actions, disk, Absent, lock, disk, Admitted);
      actions := actions + [lock];
      intact := IsIntact(disk, |payload|);
      Takes(c, s0, actions, disk, Admitted, Recheck(0), disk, if intact then Returned(true) else Confirmed);
      actions := actions + [Recheck(0)];
      needed := !intact;
    }

    /** `write_all`: go on until everything is written; a write of no bytes is an error. */
    method WriteAll(
        payload: seq<byte>, pid: nat, write: nat -> Option<nat>, ghost c: Setup, ghost s0: State,
        ghost before: seq<Action>)
      returns (ok: bool, ghost actions: seq<Action>, ghost reached: nat)
      requires c.payload == payload && c.pids == [pid] && IsAt(c, s0, before, disk, Writing(0)) && pid in disk.temps
      modifies this
      ensures IsAt(c, s0, actions, disk, Writing(reached)) && (ok ==> reached == |payload|)
      ensures disk.target == old(disk.target) && disk.temps == old(disk.temps)
    {
      actions := before;
      var off, ino := 0, disk.temps[pid];
      while off < |payload|
        invariant off <= |payload| && IsAt(c, s0, actions, disk, Writing(off))
        invariant disk.target == old(disk.target) && disk.temps == old(disk.temps)
      {
        var taken := write(off);
        if taken.None? || taken.value == 0 { return false, actions, off; }
        var n := Min(taken.value, |payload| - off);
        WriteTaken(c, s0, actions, disk, off, n);
        disk := Chunk(disk, ino, off, payload[off..off + n]);
        actions := actions + [Write(0, n)];
        off := off + n;
      }
      ok, reached := true, off;
    }

    /** Write and sync the temp file, and make it executable. */
    method Stage(
        payload: seq<byte>, pid: nat, faults: Faults, ghost c: Setup, ghost s0: State, ghost before: seq<Action>)
      returns (ok: bool, ghost actions: seq<Action>)
      requires c == Alone(payload, pid, faults) && IsAt(c, s0, before, disk, Writing(0)) && pid in disk.temps
      modifies this
      ensures IsAt(c, s0, actions, disk, if ok then Executable else Returned(false))
    {
      ghost var reached;
      ok, actions, reached := WriteAll(payload, pid, faults.write, c, s0, before);
      if !ok || faults.sync {
        actions := CleanUp(pid, faults, c, s0, actions, Writing(reached));
        return false, actions;
      }
      Takes(c, s0, actions, disk, Writing(|payload|), Sync(0), disk, Synced);
      actions := actions + [Sync(0)];
      if faults.chmod {
        actions := CleanUp(pid, faults, c, s0, actions, Synced);
        return false, actions;
      }
      ghost var was := disk;
      disk := SetInode(disk, disk.temps[pid], Inode(disk, disk.temps[pid]).(executable := true));
      Takes(c, s0, actions, was, Synced, MakeExecutable(0), disk, Executable);
      actions := actions + [MakeExecutable(0)];
    }

    /** `let _ = remove_file(tmp)`, and the error return. */
    method CleanUp(pid: nat, faults: Faults, ghost c: Setup, ghost s0: State, ghost before: seq<Action>, ghost pc: Pc)
      returns (ghost actions: seq<Action>)
      requires c.pids == [pid] && IsAt(c, s0, before, disk, pc) && IsWriter(pc)
      modifies this
      ensures IsAt(c, s0, actions, disk, Returned(false))
    {
      ghost var was := disk;
      ghost var removed := !faults.remove && pid in disk.temps;
      if !faults.remove { disk := RemoveTemp(disk, pid); }
      assert disk.temps == if removed then was.temps - {pid} else was.temps;
      Takes(c, s0, before, was, pc, Action.Fail(0, removed), disk, Returned(false));
      actions := before + [Action.Fail(0, removed)];
    }

    /** `extract_atomic`, run by itself. */
    method ExtractAtomic(payload: seq<byte>, pid: nat, faults: Faults) returns (ok: bool)
      modifies this
      ensures var c := Alone(payload, pid, faults);
              ValidDisk(old(disk)) && IsFair(c, TargetFile(old(disk))) ==>
                && (TargetFile(disk) == TargetFile(old(disk)) || TargetFile(disk) == Full(c))
                && (ok ==> TargetFile(disk).Some? && TargetFile(disk).value.bytes == payload)
    {
      ghost var was, actions := disk, [];
      ok, actions := ExtractInSteps(payload, pid, faults);
      if ValidDisk(was) && IsFair(Alone(payload, pid, faults), TargetFile(was)) {
        LoneIsSound(Alone(payload, pid, faults), was, actions, disk, Returned(ok));
      }
    }

    /** It takes the steps that the protocol gives one caller. */
    method ExtractInSteps(payload: seq<byte>, pid: nat, faults: Faults) returns (ok: bool, ghost actions: seq<Action>)
      modifies this
      ensures IsAt(Alone(payload, pid, faults), Init(Alone(payload, pid, faults), old(disk)), actions, disk,
                   Returned(ok))
    {
      ghost var c := Alone(payload, pid, faults);
      ghost var s0 := Init(c, disk);
      var needed;
      needed, actions := Admit(payload, pid, faults, c, s0);
      if !needed { return true, actions; }
      if faults.create {
        Takes(c, s0, actions, disk, Confirmed, Action.Fail(0, false), disk, Returned(false));
        return false, actions + [Action.Fail(0, false)];
      }
      ghost var was := disk;
      disk := CreateTemp(disk, pid).0;
      Takes(c, s0, actions, was, Confirmed, Create(0), disk, Writing(0));
      ok, actions := Stage(payload, pid, faults, c, s0, actions + [Create(0)]);
      if !ok { return false, actions; }
      if faults.rename || pid !in disk.temps {
        actions := CleanUp(pid, faults, c, s0, actions, Executable);
        return false, actions;
      }
      was := disk;
      disk := RemoveTemp(disk, pid).(target := Some(disk.temps[pid]));
      Takes(c, s0, actions, was, Executable, Rename(0), disk, Returned(true));
      actions := actions + [Rename(0)];
    }
  }
}
