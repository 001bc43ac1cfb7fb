/** A file system whose operations may fail, and which remembers every state it has been in. */
module FileSystems {
  import opened Wrappers
  import opened Oci

  class Fs {
    var files: Files
    var clock: nat

    /** Which operations fail, and how many bytes each read or write moves. */
    const fails: nat -> bool
    const sizes: nat -> nat

    /** A crash leaves one of these states behind. */
    ghost var history: seq<Files>

    constructor (files: Files, fails: nat -> bool, sizes: nat -> nat)
      ensures this.files == files && clock == 0 && this.fails == fails && this.sizes == sizes && history == []
    {
      this.files, this.clock, this.fails, this.sizes, this.history := files, 0, fails, sizes, [];
    }

    ghost predicate Reliable() { forall n :: !fails(n) }

    method Tick() returns (ok: bool)
      modifies this`clock
      ensures ok == !fails(old(clock)) && clock == old(clock) + 1
    {
      ok := !fails(clock);
      clock := clock + 1;
    }

    /** `File::create`: the file exists and is empty. */
    method Create(p: Path) returns (ok: bool)
      modifies this
      ensures Reliable() ==> ok
      ensures files == if ok then old(files)[p := []] else old(files)
      ensures history == if ok then old(history) + [files] else old(history)
    {
      ok := Tick();
      if ok { files := files[p := []]; history := history + [files]; }
    }

    /** One `write` of a chunk at the end of a file. */
    method Append(p: Path, chunk: Bytes) returns (ok: bool)
      modifies this
      ensures Reliable() ==> ok
      ensures files == if ok && p in old(files) then old(files)[p := old(files)[p] + chunk] else old(files)
      ensures history == if ok then old(history) + [files] else old(history)
    {
      ok := Tick();
      if ok {
        if p in files { files := files[p := files[p] + chunk]; }
        history := history + [files];
      }
    }

    /** `rename(2)`: in one step the new name holds what the old one held. */
    method Rename(a: Path, b: Path) returns (ok: bool)
      modifies this
      ensures Reliable() && a in old(files) ==> ok
      ensures ok ==> a in old(files)
      ensures files == if ok then (old(files) - {a})[b := old(files)[a]] else old(files)
      ensures history == if ok then old(history) + [files] else old(history)
    {
      ok := Tick();
      if ok && a in files {
        files := (files - {a})[b := files[a]];
        history := history + [files];
      } else {
        ok := false;
      }
    }

    method Remove(p: Path) returns (ok: bool)
      modifies this
      ensures Reliable() ==> ok
      ensures files == if ok then old(files) - {p} else old(files)
      ensures history == if ok then old(history) + [files] else old(history)
    {
      ok := Tick();
      if ok { files := files - {p}; history := history + [files]; }
    }
  }
}
