/**
 * Stale-safe replacement of one directory entry by rename-exchange, against an adversary that may rebind the
 * target name before any system call and make any call fail. File contents behind an inode do not change, and
 * the private temporary name belongs to the replacement.
 */
module FileReplacement {
  import opened Prelude

  const CHUNK: nat := 8 * 1024

  type InodeId = nat

  datatype File = File(bytes: seq<Byte>, regular: bool)

  datatype IoError = InvalidData | InvalidInput | NotFound | AlreadyExists | OtherError

  datatype Call =
    | Create | Write | Lock | Open | Read | Install | CopyMetadata | Rollback | Restore | Stat | Sync | Unlink

  /** What the outside world does just before one call: rebinds the target name, and makes calls fail. */
  datatype Move = Move(rebind: Option<Option<InodeId>>, failing: set<Call>)

  /** A rename that changed the target entry, with its binding before and after. */
  datatype Swap = Swap(before: Option<InodeId>, after: Option<InodeId>)

  function Rebound(target: Option<InodeId>, move: Move): Option<InodeId> {
    if move.rebind.Some? then move.rebind.value else target
  }

  class Directory {
    const files: InodeId -> File
    const world: nat -> Move
    const prepared: InodeId
    var step: nat
    var target: Option<InodeId>
    var temporary: Option<InodeId>
    var removeTemporary: bool
    ghost var swaps: seq<Swap>
    ghost var seen: seq<Option<InodeId>>
    ghost var unlinked: seq<InodeId>
    ghost var succeeded: set<Call>

    /** Nobody rebinds the target. */
    ghost predicate Undisturbed() {
      forall n :: world(n).rebind.None?
    }

    ghost predicate Reliable(call: Call) {
      forall n :: call !in world(n).failing
    }

    ghost predicate AllReliable() {
      forall call: Call :: Reliable(call)
    }

    /** The binding is a regular file holding exactly these bytes. */
    predicate HoldsExactly(binding: Option<InodeId>, expected: seq<Byte>) {
      binding.Some? && files(binding.value) == File(expected, true)
    }

    /** Why an undisturbed replacement is refused. */
    function RefusalOf(binding: Option<InodeId>, expected: Option<seq<Byte>>): IoError {
      if expected.None? then AlreadyExists
      else if binding.Some? && !files(binding.value).regular then InvalidInput
      else InvalidData
    }

    /**
     * The exchanges from index `n` on have undone the one that displaced `displaced`. When they brought back
     * another file than the prepared one, that file is at the target again, or, if the target has vanished, kept
     * under the temporary name.
     */
    ghost predicate RolledBack(n: nat, displaced: Option<InodeId>)
      reads this
    {
      && n <= |swaps| <= n + 2
      && (removeTemporary ==> |swaps| == n + 1 && temporary == Some(prepared) == swaps[n].before)
      && (|swaps| == n ==> temporary == displaced && (Reliable(Rollback) ==> target.None?))
      && (|swaps| > n ==> swaps[n].after == displaced)
      && (|swaps| == n + 2 ==> target == swaps[n + 1].after == swaps[n].before != Some(prepared))
      && (Reliable(Stat) && |swaps| == n + 1 && swaps[n].before == Some(prepared) ==> removeTemporary)
      && (Reliable(Stat) && Reliable(Restore) && |swaps| == n + 1 && swaps[n].before != Some(prepared) ==>
            temporary == swaps[n].before && target.None?)
    }

    constructor (files: InodeId -> File, world: nat -> Move, prepared: InodeId, target: Option<InodeId>)
      ensures this.files == files && this.world == world && this.prepared == prepared
      ensures this.target == target && temporary == None && swaps == [] && seen == [] && unlinked == [] && succeeded == {}
    {
      this.files, this.world, this.prepared, this.target := files, world, prepared, target;
      step, temporary, removeTemporary, swaps, seen, unlinked, succeeded := 0, None, false, [], [], [], {};
    }

    /** The world moves, then the call runs or fails. */
    method Enter(call: Call) returns (fails: bool)
      modifies `step, `succeeded, `target
      ensures target == Rebound(old(target), world(old(step)))
      ensures fails == (call in world(old(step)).failing)
      ensures Undisturbed() ==> target == old(target)
      ensures Reliable(call) ==> !fails
      ensures succeeded == old(succeeded) + if fails then {} else {call}
    {
      target := Rebound(target, world(step));
      fails := call in world(step).failing;
      step := step + 1;
      succeeded := succeeded + if fails then {} else {call};
    }

    /** Compares an open file with the expected bytes, a chunk at a time, then checks for the end. */
    method TargetMatches(file: File, expected: seq<Byte>) returns (r: Result<bool, IoError>)
      modifies `step, `succeeded, `target
      ensures old(succeeded) <= succeeded && (r.Ok? ==> Read in succeeded)
      ensures r.Ok? ==> r.value == (file.bytes == expected)
      ensures Reliable(Read) ==> r.Ok?
      ensures Undisturbed() ==> target == old(target)
    {
      var offset := 0;
      while offset < |expected|
        invariant offset <= |expected| && offset <= |file.bytes|
        invariant file.bytes[..offset] == expected[..offset]
        invariant old(succeeded) <= succeeded && (offset > 0 ==> Read in succeeded)
        invariant Undisturbed() ==> target == old(target)
      {
        var end := offset + Min(CHUNK, |expected| - offset);
        var fails := Enter(Read);
        if fails {
          return Err(OtherError);
        }
        if end > |file.bytes| {
          return Ok(false);
        }
        if file.bytes[offset..end] != expected[offset..end] {
          return Ok(false);
        }
        assert file.bytes[..end] == file.bytes[..offset] + file.bytes[offset..end];
        assert expected[..end] == expected[..offset] + expected[offset..end];
        offset := end;
      }
      var fails := Enter(Read);
      if fails {
        return Err(OtherError);
      }
      assert file.bytes[..offset] == expected;
      assert |file.bytes| == offset ==> file.bytes[..offset] == file.bytes;
      r := Ok(|file.bytes| == offset);
    }

    /** Opens what a name is bound to, and requires a regular file holding exactly the expected bytes. */
    method VerifyTarget(ofTemporary: bool, expected: seq<Byte>) returns (r: Result<InodeId, IoError>)
      modifies `step, `succeeded, `target
      ensures old(succeeded) <= succeeded && (r.Ok? ==> {Open, Read} <= succeeded)
      ensures r.Ok? ==> files(r.value) == File(expected, true)
      ensures r.Ok? && ofTemporary ==> temporary == Some(r.value)
      ensures Undisturbed() ==> target == old(target)
      ensures Undisturbed() && r.Ok? && !ofTemporary ==> target == Some(r.value)
      ensures Undisturbed() && Reliable(Open) && Reliable(Read) ==>
                (r.Ok? <==> HoldsExactly(if ofTemporary then temporary else target, expected))
      ensures ofTemporary && Reliable(Open) && Reliable(Read) ==> (r.Ok? <==> HoldsExactly(temporary, expected))
      ensures Undisturbed() && Reliable(Open) && Reliable(Read) && r.Err? && !ofTemporary ==>
                r.error == if target.None? then NotFound else RefusalOf(target, Some(expected))
    {
      var fails := Enter(Open);
      if fails {
        return Err(OtherError);
      }
      var binding := if ofTemporary then temporary else target;
      if binding.None? {
        return Err(NotFound);
      }
      var file := files(binding.value);
      if !file.regular {
        return Err(InvalidInput);
      }
      var matches := TargetMatches(file, expected);
      if matches.Err? {
        return Err(matches.error);
      }
      r := if matches.value then Ok(binding.value) else Err(InvalidData);
    }

    /** Whether a name is bound to the prepared file. */
    method PathMatches(ofTemporary: bool) returns (r: Result<bool, IoError>)
      modifies `step, `succeeded, `target, `seen
      ensures old(succeeded) <= succeeded && (r.Ok? ==> Stat in succeeded)
      ensures seen == old(seen) + if r.Ok? && !ofTemporary then [target] else []
      ensures r.Ok? ==> r.value == ((if ofTemporary then temporary else target) == Some(prepared))
      ensures Reliable(Stat) ==> r.Ok?
      ensures Undisturbed() ==> target == old(target)
    {
      var fails := Enter(Stat);
      r := if fails then Err(OtherError)
           else Ok((if ofTemporary then temporary else target) == Some(prepared));
      seen := seen + if r.Ok? && !ofTemporary then [target] else [];
    }

    /** Atomically swaps the two names; both must be bound. */
    method Exchange(call: Call) returns (r: Result<(), IoError>)
      modifies `step, `succeeded, `target, `temporary, `swaps
      ensures old(succeeded) <= succeeded && (r.Ok? ==> call in succeeded)
      ensures r.Err? ==> temporary == old(temporary) && swaps == old(swaps)
      ensures Reliable(call) && r.Err? ==> r.error == NotFound && (target.None? || temporary.None?)
      ensures r.Ok? ==> && target == old(temporary) && target.Some? && temporary.Some?
                        && swaps == old(swaps) + [Swap(temporary, target)]
      ensures Undisturbed() ==> (if r.Ok? then temporary == old(target) else target == old(target))
      ensures Undisturbed() && Reliable(call) && old(target).Some? && old(temporary).Some? ==> r.Ok?
    {
      var fails := Enter(call);
      if fails {
        return Err(OtherError);
      }
      if target.None? || temporary.None? {
        return Err(NotFound);
      }
      swaps := swaps + [Swap(target, temporary)];
      target, temporary := temporary, target;
      r := Ok(());
    }

    /** Undoes an exchange; if somebody's newer file came back instead of the prepared one, puts it back. */
    method RollBack() returns (r: Result<(), IoError>)
      requires temporary.Some? && !removeTemporary
      modifies `step, `succeeded, `target, `temporary, `swaps, `seen, `removeTemporary
      ensures old(succeeded) <= succeeded
      ensures old(swaps) <= swaps && seen == old(seen)
      ensures RolledBack(|old(swaps)|, old(temporary))
      ensures r.Ok? ==> removeTemporary
      ensures temporary.Some? && (removeTemporary ==> temporary == Some(prepared))
      ensures Undisturbed() && Reliable(Rollback) && Reliable(Stat) && old(target) == Some(prepared) ==>
                target == old(temporary) && removeTemporary
    {
      var exchanged := Exchange(Rollback);
      if exchanged.Err? {
        return Err(if exchanged.error == NotFound then InvalidData else exchanged.error);
      }
      var matches := PathMatches(true);
      if matches.Err? {
        return Err(matches.error);
      }
      if !matches.value {
        exchanged := Exchange(Restore);
        if exchanged.Err? {
          return exchanged;
        }
        return Err(InvalidData);
      }
      removeTemporary := true;
      var fails := Enter(Sync);
      r := if fails then Err(OtherError) else Ok(());
    }

    /** Checks what the exchange displaced, and removes it only when it was exactly what was expected. */
    method ValidateExchange(expected: seq<Byte>) returns (r: Result<(), IoError>)
      requires temporary.Some? && !removeTemporary
      modifies `step, `succeeded, `target, `temporary, `swaps, `seen, `unlinked, `removeTemporary
      ensures old(succeeded) <= succeeded && (r.Ok? ==> {Open, Read, Stat} <= succeeded)
      ensures old(swaps) <= swaps
      ensures r.Ok? ==> HoldsExactly(old(temporary), expected) && swaps == old(swaps) && !removeTemporary
      ensures r.Ok? ==> seen == old(seen) + [Some(prepared)]
      ensures r.Ok? ==> unlinked == old(unlinked) || unlinked == old(unlinked) + [old(temporary).value]
      ensures r.Ok? && Reliable(Sync) && Reliable(Unlink) ==> temporary == None
      ensures r.Err? ==> unlinked == old(unlinked)
      ensures removeTemporary ==> temporary == Some(prepared)
      ensures !HoldsExactly(old(temporary), expected) ==> RolledBack(|old(swaps)|, old(temporary))
      ensures HoldsExactly(old(temporary), expected) && Reliable(Open) && Reliable(Read) && Reliable(Stat) ==>
                && swaps == old(swaps) && |seen| == |old(seen)| + 1
                && (r.Ok? <==> seen[|old(seen)|] == Some(prepared)) && (r.Err? ==> r.error == InvalidData)
      ensures Undisturbed() && Reliable(Rollback) && Reliable(Stat) && old(target) == Some(prepared) ==>
                && target == (if r.Ok? then Some(prepared) else old(temporary))
                && (r.Err? ==> removeTemporary)
      ensures Undisturbed() && AllReliable() && old(target) == Some(prepared) ==>
                (r.Ok? <==> HoldsExactly(old(temporary), expected))
    {
      var verified := VerifyTarget(true, expected);
      if verified.Err? {
        r := RollBack();
        if r.Ok? {
          r := Err(verified.error);
        }
        return;
      }
      var matches := PathMatches(false);
      if matches.Err? {
        return Err(matches.error);
      }
      if !matches.value {
        return Err(InvalidData);
      }
      var unsynced := Enter(Sync);
      if !unsynced {
        var fails := Enter(Unlink);
        if !fails {
          unlinked := unlinked + [temporary.value];
          temporary := None;
          var _ := Enter(Sync);
        }
      }
      r := Ok(());
    }

    /** After the exchange: copies metadata and validates, or undoes the exchange. */
    method SettleExchange(expected: seq<Byte>) returns (r: Result<(), IoError>)
      requires temporary.Some? && !removeTemporary && |swaps| == 1 && seen == [] && unlinked == []
      modifies `step, `succeeded, `target, `temporary, `swaps, `seen, `unlinked, `removeTemporary
      ensures old(succeeded) <= succeeded && (r.Ok? ==> CopyMetadata in succeeded)
      ensures old(swaps) <= swaps
      ensures r.Ok? ==> HoldsExactly(old(temporary), expected) && |swaps| == 1 && !removeTemporary
      ensures r.Ok? ==> seen == [Some(prepared)]
      ensures r.Ok? ==> unlinked == [] || unlinked == [old(temporary).value]
      ensures r.Ok? && Reliable(Sync) && Reliable(Unlink) ==> temporary == None
      ensures r.Err? ==> unlinked == []
      ensures removeTemporary ==> temporary == Some(prepared)
      ensures !HoldsExactly(old(temporary), expected) ==> RolledBack(1, old(temporary))
      ensures Reliable(CopyMetadata) && Reliable(Open) && Reliable(Read) && Reliable(Stat)
              && HoldsExactly(old(temporary), expected) ==>
                && |swaps| == 1 && |seen| == 1
                && (r.Ok? <==> seen[0] == Some(prepared)) && (r.Err? ==> r.error == InvalidData)
      ensures Undisturbed() && Reliable(Rollback) && Reliable(Stat) && old(target) == Some(prepared) ==>
                && target == (if r.Ok? then Some(prepared) else old(temporary))
                && (r.Err? ==> removeTemporary)
      ensures Undisturbed() && AllReliable() && old(target) == Some(prepared) ==>
                (r.Ok? <==> HoldsExactly(old(temporary), expected))
    {
      var uncopied := Enter(CopyMetadata);
      if uncopied {
        r := RollBack();
        if r.Ok? {
          r := Err(OtherError);
        }
        return;
      }
      r := ValidateExchange(expected);
    }

    /** Exchanges the prepared file with the target, and keeps the result only if it displaced what was expected. */
    method InstallUpdate(expected: seq<Byte>) returns (r: Result<(), IoError>)
      requires temporary == Some(prepared) && removeTemporary && swaps == [] && seen == [] && unlinked == []
      modifies `step, `succeeded, `target, `temporary, `swaps, `seen, `unlinked, `removeTemporary
      ensures old(succeeded) <= succeeded && (r.Ok? ==> {Lock, Open, Read, Install, CopyMetadata} <= succeeded)
      ensures Undisturbed() && Reliable(Open) && Reliable(Read) && !HoldsExactly(old(target), expected) ==> swaps == []
      ensures swaps == [] ==> r.Err? && removeTemporary
      ensures swaps != [] ==> swaps[0].after == Some(prepared) && swaps[0].before.Some?
      ensures r.Ok? ==> |swaps| == 1 && HoldsExactly(swaps[0].before, expected) && !removeTemporary
      ensures r.Ok? ==> seen == [Some(prepared)]
      ensures r.Ok? ==> unlinked == [] || unlinked == [swaps[0].before.value]
      ensures r.Ok? && Reliable(Sync) && Reliable(Unlink) ==> temporary == None
      ensures r.Err? ==> unlinked == []
      ensures removeTemporary ==> temporary == Some(prepared)
      ensures swaps != [] && !HoldsExactly(swaps[0].before, expected) ==> RolledBack(1, swaps[0].before)
      ensures Reliable(CopyMetadata) && Reliable(Open) && Reliable(Read) && Reliable(Stat)
              && swaps != [] && HoldsExactly(swaps[0].before, expected) ==>
                && |swaps| == 1 && |seen| == 1
                && (r.Ok? <==> seen[0] == Some(prepared)) && (r.Err? ==> r.error == InvalidData)
      ensures Undisturbed() && Reliable(Rollback) && Reliable(Stat) ==>
                && target == (if r.Ok? then Some(prepared) else old(target))
                && (r.Err? ==> removeTemporary)
      ensures Undisturbed() && AllReliable() ==>
                && (r.Ok? <==> HoldsExactly(old(target), expected))
                && (r.Err? ==> r.error == RefusalOf(old(target), Some(expected)))
    {
      var unlocked := Enter(Lock);
      if unlocked {
        return Err(OtherError);
      }
      var original := VerifyTarget(false, expected);
      if original.Err? {
        return Err(if original.error == NotFound then InvalidData else original.error);
      }
      r := Exchange(Install);
      if r.Err? {
        return;
      }
      removeTemporary := false;
      r := SettleExchange(expected);
    }

    /** Installs the prepared file where no entry may exist. */
    method InstallNew() returns (r: Result<(), IoError>)
      requires temporary == Some(prepared) && removeTemporary && swaps == [] && unlinked == []
      modifies `step, `succeeded, `target, `temporary, `swaps, `removeTemporary
      ensures old(succeeded) <= succeeded && (r.Ok? ==> Install in succeeded)
      ensures r.Ok? ==> swaps == [Swap(None, Some(prepared))] && !removeTemporary && temporary == None
      ensures r.Err? ==> swaps == [] && temporary == Some(prepared) && removeTemporary
      ensures Undisturbed() ==> target == if r.Ok? then Some(prepared) else old(target)
      ensures Undisturbed() && Reliable(Install) ==>
                (r.Ok? <==> old(target).None?) && (r.Err? ==> r.error == AlreadyExists)
    {
      var fails := Enter(Install);
      if fails {
        return Err(OtherError);
      }
      if target.Some? {
        return Err(AlreadyExists);
      }
      swaps := [Swap(target, temporary)];
      target, temporary, removeTemporary := temporary, None, false;
      var _ := Enter(Sync);
      r := Ok(());
    }

    /**
     * Compare-and-swap of the target entry. Success means that at one instant the entry held exactly what was
     * expected and became the prepared file; nothing else is ever unlinked than the prepared file and, on
     * success, that displaced one.
     */
    method Replace(expected: Option<seq<Byte>>) returns (r: Result<(), IoError>)
      requires temporary == None && !removeTemporary && swaps == [] && seen == [] && unlinked == []
      modifies this
      // what success means, under any interference
      ensures r.Ok? ==> |swaps| == 1 && swaps[0].after == Some(prepared)
      ensures r.Ok? ==> (if expected.None? then swaps[0].before == None
                         else HoldsExactly(swaps[0].before, expected.value) && seen == [Some(prepared)])
      ensures forall i :: i in unlinked ==> i == prepared || (r.Ok? && expected.Some? && Some(i) == swaps[0].before)
      ensures r.Ok? ==> {Create, Write, Install} <= succeeded && (expected.Some? ==> {Lock, CopyMetadata} <= succeeded)
      // what is undone when something else was displaced, under any interference
      ensures expected.Some? && swaps != [] && !HoldsExactly(swaps[0].before, expected.value) ==>
                && r.Err?
                && (if removeTemporary then |swaps| == 2 && swaps[1] == Swap(Some(prepared), swaps[0].before)
                    else RolledBack(1, swaps[0].before))
      // what is cleaned up, under any interference
      ensures Reliable(Unlink) && (swaps == [] || removeTemporary) ==> temporary == None
      ensures r.Ok? && Reliable(Sync) && Reliable(Unlink) ==> temporary == None
      // what happens when nobody interferes
      ensures Undisturbed() && Reliable(Rollback) && Reliable(Stat) ==>
                && target == (if r.Ok? then Some(prepared) else old(target))
                && (r.Err? && Reliable(Unlink) ==> temporary == None)
      ensures expected.Some? && Undisturbed() && Reliable(Open) && Reliable(Read) ==>
                HoldsExactly(old(target), expected.value) || swaps == []
      ensures Undisturbed() && AllReliable() ==>
                && (r.Ok? <==> if expected.None? then old(target) == None else HoldsExactly(old(target), expected.value))
                && (r.Err? ==> r.error == RefusalOf(old(target), expected))
                && temporary == None
    {
      var fails := Enter(Create);
      if fails {
        return Err(OtherError);
      }
      temporary, removeTemporary := Some(prepared), true;
      fails := Enter(Write);
      if fails {
        r := Err(OtherError);
      } else if expected.Some? {
        r := InstallUpdate(expected.value);
      } else {
        r := InstallNew();
      }
      if removeTemporary {
        fails := Enter(Unlink);
        if !fails {
          unlinked := unlinked + [temporary.value];
          temporary := None;
        }
      }
    }
  }
}
