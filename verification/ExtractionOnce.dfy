/** What the two looks are for (server/src/common/embedded.rs:56-108): where the lock works, however
    many callers there are, the payload is put in place at most once. */
module ExtractionOnce {
  import opened Wrappers
  import opened Extraction

  /** No caller misses the lock. */
  ghost predicate AllLock(c: Setup) { forall i :: 0 <= i < |c.lockMayFail| ==> !c.lockMayFail[i] }

  /** Bound to put the payload in place, unless a fault stops it. */
  predicate IsBound(p: Pc) { p == Confirmed || IsWriter(p) }

  /** Where the target is intact, no caller is bound to replace it. */
  ghost predicate Rests(c: Setup, s: State) {
    IsIntact(s.disk, |c.payload|) ==> forall i :: 0 <= i < |s.callers| ==> !IsBound(s.callers[i].pc)
  }

  function Renames(actions: seq<Action>): nat {
    if actions == [] then 0 else (if actions[0].Rename? then 1 else 0) + Renames(actions[1..])
  }

  lemma SameTarget(c: Setup, first: Option<File>, s: State, a: Action)
    requires Inv(c, first, s) && Separate(c) && Enabled(c, s, a) && !a.Rename?
    ensures TargetFile(Step(c, s, a).disk) == TargetFile(s.disk)
  {
    if a.Write? || a.Sync? || a.MakeExecutable? { WriterStepInv(c, first, s, a); }
  }

  /** Only the holder of the lock is past it. */
  lemma OneInside(c: Setup, first: Option<File>, s: State, i: nat, j: nat)
    requires Inv(c, first, s) && AllLock(c) && i < |s.callers| && j < |s.callers|
    requires IsInside(s.callers[i].pc) && IsInside(s.callers[j].pc)
    ensures i == j
  {
  }

  lemma RenameRests(c: Setup, first: Option<File>, s: State, i: nat)
    requires Inv(c, first, s) && AllLock(c) && Separate(c) && Enabled(c, s, Rename(i))
    ensures Rests(c, Step(c, s, Rename(i))) && IsIntact(Step(c, s, Rename(i)).disk, |c.payload|)
  {
    var s' := Step(c, s, Rename(i));
    RenameInv(c, first, s, i);
    forall j | 0 <= j < |s'.callers|
      ensures !IsBound(s'.callers[j].pc)
    {
      if j != i && IsBound(s.callers[j].pc) { OneInside(c, first, s, i, j); }
    }
  }

  lemma StepRests(c: Setup, first: Option<File>, s: State, a: Action)
    requires Inv(c, first, s) && AllLock(c) && Separate(c) && Enabled(c, s, a) && Rests(c, s)
    ensures var s' := Step(c, s, a);
            && Rests(c, s')
            && (IsIntact(s'.disk, |c.payload|) <==> IsIntact(s.disk, |c.payload|) || a.Rename?)
            && (a.Rename? ==> !IsIntact(s.disk, |c.payload|))
  {
    if a.Rename? {
      RenameRests(c, first, s, a.i);
    } else {
      SameTarget(c, first, s, a);
    }
  }

  lemma {:induction false} RunRests(c: Setup, first: Option<File>, s: State, actions: seq<Action>)
    requires Inv(c, first, s) && IsFair(c, first) && AllLock(c) && Separate(c) && Rests(c, s)
    requires IsSchedule(c, s, actions)
    ensures var s' := RunSchedule(c, s, actions);
            Renames(actions) + (if IsIntact(s.disk, |c.payload|) then 1 else 0)
            == if IsIntact(s'.disk, |c.payload|) then 1 else 0
    decreases |actions|
  {
    if actions != [] {
      StepInv(c, first, s, actions[0]);
      StepRests(c, first, s, actions[0]);
      RunRests(c, first, Step(c, s, actions[0]), actions[1..]);
    }
  }

  /** Where no lock fails, the target is replaced at most once, never if it was intact to begin
      with, and exactly once if it is intact in the end but was not. */
  lemma RenamedOnce(c: Setup, disk: Disk, actions: seq<Action>)
    requires c.Valid() && ValidDisk(disk) && IsFair(c, TargetFile(disk)) && AllLock(c)
    requires IsSchedule(c, Init(c, disk), actions)
    ensures var s := RunSchedule(c, Init(c, disk), actions);
            Renames(actions) == (if IsIntact(s.disk, |c.payload|) && !IsIntact(disk, |c.payload|) then 1 else 0)
    ensures IsIntact(disk, |c.payload|) ==> IsIntact(RunSchedule(c, Init(c, disk), actions).disk, |c.payload|)
  {
    InitInv(c, disk);
    assert Separate(c);
    RunRests(c, TargetFile(disk), Init(c, disk), actions);
  }
}
