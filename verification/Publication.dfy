/** No-clobber publication: a staged file gets its final name by hard link,
    never by replacement. Every system call may fail, without effect, and what
    fails of its own accord is counted; nobody else writes these names. */
module Publication {
  import opened Bytes

  type Path = string

  type Inode = nat

  datatype FileKind = Regular | Irregular

  datatype File = File(kind: FileKind, bytes: seq<byte>)

  datatype Errno = Missing | Exists | Unsupported | Other

  datatype Call<T> = Got(value: T) | Err(errno: Errno)

  datatype Why = BadStage | Collision | NotSupported | CannotPublish | CleanupFailed | FilesystemFailed | Drift

  datatype Outcome = Published | Reused | Failed(why: Why)

  /** A name stands for the same inode, or for none, in both. */
  predicate Same(before: map<Path, Inode>, after: map<Path, Inode>, p: Path) {
    (p in before <==> p in after) && (p in before ==> before[p] == after[p])
  }

  /** A directory tree as names of inodes, and what the inodes hold. */
  class FileSystem {
    var names: map<Path, Inode>
    var files: map<Inode, File>
    // How many calls have failed although nothing was in their way.
    ghost var faults: nat
    // What the last refused link said.
    ghost var linkError: Errno

    ghost predicate Valid()
      reads this
    {
      forall p | p in names :: names[p] in files
    }

    constructor ()
      ensures Valid() && names == map[] && files == map[] && faults == 0
    {
      names, files := map[], map[];
      faults, linkError := 0, Other;
    }

    /** Whether something outside the model goes wrong here. */
    method Fault() returns (fails: bool)
      modifies this`faults
      ensures faults == old(faults) + (if fails then 1 else 0)
    {
      fails := *;
      if fails {
        faults := faults + 1;
      }
    }

    // ----- system calls -----

    /** `os.lstat`: the inode, an absent name, or any other error. */
    method Lstat(p: Path) returns (r: Call<Inode>)
      requires Valid()
      modifies this`faults
      ensures faults >= old(faults)
      ensures r == (if faults != old(faults) then Err(Other) else if p in names then Got(names[p]) else Err(Missing))
      ensures r.Got? ==> p in names && r.value == names[p]
      ensures r == Err(Missing) ==> p !in names
      ensures r != Err(Exists)
    {
      var fails := Fault();
      if fails {
        return Err(Other);
      }
      return if p in names then Got(names[p]) else Err(Missing);
    }

    /** `os.link`: fails when the name is taken, and whenever it likes. */
    method Link(source: Path, target: Path) returns (r: Call<()>)
      requires Valid() && source in names
      modifies this`names, this`faults, this`linkError
      ensures Valid() && faults >= old(faults)
      ensures r.Got? ==> target !in old(names) && names == old(names)[target := old(names)[source]]
      ensures r.Err? ==> names == old(names) && linkError == r.errno
      ensures r.Got? ==> faults == old(faults)
      ensures faults == old(faults) ==> r == if target in old(names) then Err(Exists) else Got(())
    {
      var why: Errno := *;
      var fails := Fault();
      if fails {
        linkError := why;
        return Err(why);
      }
      if target in names {
        linkError := Exists;
        return Err(Exists);
      }
      names := names[target := names[source]];
      return Got(());
    }

    method Unlink(p: Path) returns (r: Call<()>)
      requires Valid()
      modifies this`names, this`faults
      ensures Valid() && faults >= old(faults)
      ensures r.Got? ==> names == old(names) - {p}
      ensures r.Err? ==> names == old(names)
      ensures r == Err(Missing) ==> p !in names
      ensures r == (if faults != old(faults) then Err(Other) else if p in old(names) then Got(()) else Err(Missing))
    {
      var fails := Fault();
      if fails {
        return Err(Other);
      }
      if p !in names {
        return Err(Missing);
      }
      names := names - {p};
      return Got(());
    }

    /** `fsync` of a file or a directory. */
    method Sync() returns (ok: bool)
      modifies this`faults
      ensures faults == old(faults) + (if ok then 0 else 1)
    {
      var fails := Fault();
      return !fails;
    }

    /** `_same_bytes`: sizes, then digests; an error when reading fails. */
    method SameBytes(a: Path, b: Path) returns (r: Call<bool>)
      requires Valid() && a in names && b in names
      modifies this`faults
      ensures faults == old(faults) + (if r.Got? then 0 else 1)
      ensures r.Got? ==> r.value == (files[names[a]].bytes == files[names[b]].bytes)
    {
      var fails := Fault();
      if fails {
        return Err(Other);
      }
      return Got(files[names[a]].bytes == files[names[b]].bytes);
    }

    /** `_unlink_owned`: remove a name only while it is still our inode. */
    method UnlinkOwned(p: Path, owned: Inode) returns (ok: bool)
      requires Valid()
      modifies this`names, this`faults
      ensures Valid() && faults >= old(faults)
      ensures ok ==> names == old(names) - {p} && (p in old(names) ==> old(names)[p] == owned)
      ensures !ok ==> names == old(names)
      ensures ok <==> faults == old(faults) && (p !in old(names) || old(names)[p] == owned)
    {
      var found := Lstat(p);
      if found == Err(Missing) {
        assert names == names - {p};
        return true;
      }
      if found.Err? || found.value != owned {
        return false;
      }
      var gone := Unlink(p);
      return gone.Got?;
    }

    // ----- publication -----

    /** Undo our own link: only a destination that is still our inode goes.
        False when the rollback itself failed. */
    method Rollback(destination: Path, owned: Inode) returns (ok: bool)
      requires Valid()
      modifies this`names, this`faults
      ensures Valid() && faults >= old(faults)
      ensures ok ==> names == if destination in old(names) && old(names)[destination] == owned
                              then old(names) - {destination} else old(names)
      ensures !ok ==> names == old(names)
      ensures faults == old(faults) ==> ok
    {
      var found := Lstat(destination);
      if found == Err(Missing) {
        return true;
      }
      if found.Err? {
        return false;
      }
      if found.value != owned {
        return true;
      }
      var gone := Unlink(destination);
      if gone.Err? {
        return false;
      }
      var _ := Sync();
      return true;
    }

    /** `publish_staged_absent`. `undone` says that a rollback, if one was
        needed, succeeded. Unless it did not, the destination is afterwards
        exactly as before or, when and only when the call reports so, the
        staged inode with the stage name gone. A destination that existed is
        never altered. */
    method PublishStagedAbsent(stage: Path, destination: Path, allowIdentical: bool)
      returns (r: Outcome, ghost undone: bool)
      requires Valid() && stage != destination
      modifies this`names, this`faults, this`linkError
      ensures Valid() && faults >= old(faults)
      ensures r.Published? ==>
                && destination !in old(names) && stage in old(names)
                && names == old(names)[destination := old(names)[stage]] - {stage}
      ensures r.Reused? ==>
                && allowIdentical && destination in old(names) && stage in old(names)
                && files[old(names)[destination]].bytes == files[old(names)[stage]].bytes
                && names == old(names) - {stage}
      ensures r.Failed? && undone ==> names == old(names)
      ensures r.Failed? && !undone ==>
                && destination !in old(names) && stage in old(names)
                && names == old(names)[destination := old(names)[stage]]
      ensures destination in old(names) ==> destination in names && names[destination] == old(names)[destination]
      ensures faults == old(faults) ==> undone
      ensures !r.Failed? ==> faults == old(faults)
      ensures faults == old(faults) && destination !in old(names) ==>
                (r.Published? <==> stage in old(names) && files[old(names)[stage]].kind.Regular?)
      ensures faults == old(faults) && destination in old(names) ==>
                (r.Reused? <==>
                   && allowIdentical && stage in old(names) && files[old(names)[stage]].kind.Regular?
                   && files[old(names)[destination]].kind.Regular?
                   && files[old(names)[destination]].bytes == files[old(names)[stage]].bytes)
      ensures r == Failed(NotSupported) ==> linkError.Unsupported?
      ensures r == Failed(Collision) && destination !in old(names) ==> linkError.Exists?
      ensures r == Failed(CannotPublish) ==> destination !in old(names)
      ensures faults == old(faults) && r.Failed? ==>
                r.why == if stage in old(names) && files[old(names)[stage]].kind.Regular? then Collision else BadStage
    {
      undone := true;
      var staged := Lstat(stage);
      if staged.Err? || !files[staged.value].kind.Regular? {
        return Failed(BadStage), undone;
      }
      var owned := staged.value;
      var synced := Sync();
      if !synced {
        return Failed(FilesystemFailed), undone;
      }
      var existing := Lstat(destination);
      if existing.Got? {
        if files[existing.value].kind.Regular? && allowIdentical {
          var same := SameBytes(stage, destination);
          if same.Err? {
            return Failed(FilesystemFailed), undone;
          }
          if same.value {
            var gone := UnlinkOwned(stage, owned);
            return if gone then Reused else Failed(CleanupFailed), undone;
          }
        }
        return Failed(Collision), undone;
      }
      if existing != Err(Missing) {
        return Failed(FilesystemFailed), undone;
      }
      var linked := Link(stage, destination);
      if linked.Err? {
        return Failed(if linked.errno.Exists? then Collision
                      else if linked.errno.Unsupported? then NotSupported else CannotPublish), undone;
      }
      r := FinishPublication(stage, destination, owned);
      if r.Failed? {
        undone := Rollback(destination, owned);
        if undone {
          assert names == old(names);
        }
      }
    }

    /** After the link: confirm it, sync, and drop the stage name. */
    method FinishPublication(stage: Path, destination: Path, owned: Inode) returns (r: Outcome)
      requires Valid() && stage != destination
      requires stage in names && destination in names && names[stage] == names[destination] == owned
      modifies this`names, this`faults
      ensures Valid() && faults >= old(faults)
      ensures r.Published? || r in {Failed(CannotPublish), Failed(FilesystemFailed), Failed(CleanupFailed)}
      ensures names == if r.Published? then old(names) - {stage} else old(names)
      ensures r.Published? <==> faults == old(faults)
    {
      var final := Lstat(destination);
      if final.Err? || final.value != owned {
        return Failed(CannotPublish);
      }
      var synced := Sync();
      if !synced {
        return Failed(FilesystemFailed);
      }
      var gone := UnlinkOwned(stage, owned);
      return if gone then Published else Failed(CleanupFailed);
    }

    /** `_write_stage`: a private file with the data under a new name and a new
        inode. */
    method WriteStage(data: seq<byte>, path: Path, inode: Inode) returns (r: Call<Inode>)
      requires Valid() && path !in names && inode !in files
      modifies this
      ensures Valid() && faults >= old(faults)
      ensures forall i | i in old(files) :: i in files && files[i] == old(files)[i]
      ensures r.Got? ==>
                && r.value == inode && names == old(names)[path := inode]
                && inode in files && files[inode] == File(Regular, data)
      ensures r.Err? ==> names == old(names) || names == old(names)[path := inode]
      ensures r.Got? <==> faults == old(faults)
    {
      var fails := Fault();
      if fails {
        return Err(Other);
      }
      files := files[inode := File(Regular, [])];
      names := names[path := inode];
      fails := Fault();
      if fails {
        // The write failed part-way; the stage is removed if that works.
        var removed := UnlinkOwned(path, inode);
        return Err(Other);
      }
      files := files[inode := File(Regular, data)];
      return Got(inode);
    }

    /** `publish_generated_bytes` for a caller-owned destination. Success means
        the destination holds exactly the checked bytes; a destination that
        existed keeps its inode and its bytes. */
    method PublishGenerated(destination: Path, stage: Path, inode: Inode, data: seq<byte>, matchesManifest: bool)
      returns (r: Outcome, ghost undone: bool)
      requires Valid() && stage !in names && stage != destination && inode !in files
      modifies this
      ensures Valid() && faults >= old(faults)
      ensures r.Published? || r.Reused? ==>
                && destination in names && names[destination] in files && files[names[destination]].bytes == data
                && stage !in names
      ensures r.Published? <==> !r.Failed? && destination !in old(names)
      ensures destination in old(names) ==>
                && destination in names && names[destination] == old(names)[destination]
                && files[names[destination]] == old(files)[old(names)[destination]]
      ensures r.Failed? && undone ==> (destination in names <==> destination in old(names))
      ensures !matchesManifest ==> r == Failed(Drift) && names == old(names) && files == old(files)
      ensures !r.Failed? ==> faults == old(faults)
      ensures faults == old(faults) ==>
                names == if r.Published? then old(names)[destination := inode] else old(names)
      ensures matchesManifest && faults == old(faults) && destination !in old(names) ==> r.Published?
      ensures matchesManifest && faults == old(faults) && destination in old(names) ==>
                r == if old(files)[old(names)[destination]] == File(Regular, data) then Reused else Failed(Collision)
    {
      undone := true;
      if !matchesManifest {
        return Failed(Drift), undone;
      }
      var staged := WriteStage(data, stage, inode);
      if staged.Err? {
        return Failed(FilesystemFailed), undone;
      }
      r, undone := PublishStagedAbsent(stage, destination, true);
      if r.Failed? {
        var _ := UnlinkOwned(stage, staged.value);
      }
    }

    // ----- the certification result -----

    /** `publish_result`, given the document's text: link first, then confirm,
        and take the name back if anything fails. `undone` says that taking it
        back, if it was needed, succeeded; if not, the text stays in place
        although the call raises. */
    method PublishResult(destination: Path, stage: Path, inode: Inode, text: seq<byte>)
      returns (committed: bool, ghost undone: bool)
      requires Valid() && stage !in names && stage != destination && inode !in files
      modifies this
      ensures Valid() && faults >= old(faults)
      ensures committed || !undone ==>
                && destination !in old(names) && destination in names && names[destination] == inode
                && inode in files && files[inode] == File(Regular, text)
      ensures committed ==> undone && stage !in names
      ensures !committed && undone ==> Same(old(names), names, destination)
      ensures forall p | p in old(names) :: p in names && names[p] == old(names)[p]
      ensures forall i | i in old(files) :: i in files && files[i] == old(files)[i]
      ensures committed <==> faults == old(faults) && destination !in old(names)
      ensures faults == old(faults) ==>
                names == if committed then old(names)[destination := inode] else old(names)
    {
      committed, undone := false, true;
      var shut := Fault();
      var existing := Lstat(destination);
      if shut || existing != Err(Missing) {
        return;
      }
      var staged := WriteStage(text, stage, inode);
      if staged.Err? {
        return;
      }
      committed, undone := LinkResult(destination, stage, inode);
    }

    /** The staged document gets its name and keeps it, or gives it back. */
    method LinkResult(destination: Path, stage: Path, inode: Inode) returns (committed: bool, ghost undone: bool)
      requires Valid() && stage != destination && stage in names && names[stage] == inode
      modifies this`names, this`faults, this`linkError
      ensures Valid() && faults >= old(faults)
      ensures committed <==> faults == old(faults) && destination !in old(names)
      ensures committed ==> undone && names == old(names)[destination := inode] - {stage}
      ensures !committed && undone ==> names == old(names) || names == old(names) - {stage}
      ensures !undone ==>
                && destination !in old(names)
                && (names == old(names)[destination := inode] || names == old(names)[destination := inode] - {stage})
      ensures faults == old(faults) && !committed ==> undone && names == old(names) - {stage}
    {
      committed, undone := false, true;
      var moved := Fault();
      if !moved {
        var linked := Link(stage, destination);
        if linked.Got? {
          var confirmed := Confirm(stage, destination, inode);
          if confirmed {
            return true, true;
          }
          undone := UnlinkOwned(destination, inode);
          Unlinked(old(names), destination, stage, inode);
        }
      }
      var _ := UnlinkOwned(stage, inode);
    }

    lemma Unlinked(before: map<Path, Inode>, destination: Path, stage: Path, inode: Inode)
      requires destination !in before
      ensures before[destination := inode] - {destination} == before
      ensures before[destination := inode] - {stage} - {destination} == before - {stage}
      ensures (before - {stage}) - {stage} == before - {stage}
    {
    }

    /** After the link: both names are looked at, the stage name is dropped, and
        directory and parent are confirmed. */
    method Confirm(stage: Path, destination: Path, inode: Inode) returns (ok: bool)
      requires Valid() && stage != destination
      requires stage in names && destination in names && names[stage] == names[destination] == inode
      modifies this`names, this`faults
      ensures Valid() && faults >= old(faults)
      ensures names == old(names) || names == old(names) - {stage}
      ensures ok ==> stage !in names
      ensures ok <==> faults == old(faults)
    {
      var found := Lstat(destination);
      var stuck := Fault();
      if found != Got(inode) || stuck {
        return false;
      }
      var gone := UnlinkOwned(stage, inode);
      if !gone {
        return false;
      }
      found := Lstat(destination);
      var synced := Sync();
      var moved := Fault();
      return found == Got(inode) && synced && !moved;
    }
  }
}
