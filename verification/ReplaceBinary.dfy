/**
 Replacing the installed binary: a temporary file, a backup, two renames and a
 rollback, where every file operation may fail.
 */
module ReplaceBinary {
  import opened Common

  type Files = map<string, seq<byte>>

  function TempOf(name: string): string { "." + name + ".update" }

  function PrevOf(name: string): string { "." + name + ".prev" }

  lemma PathsAreDistinct(name: string)
    ensures name != TempOf(name) && name != PrevOf(name) && TempOf(name) != PrevOf(name)
  {
    assert |name| < |TempOf(name)| && |name| < |PrevOf(name)|;
    assert TempOf(name)[|name| + 2] == 'u' && PrevOf(name)[|name| + 2] == 'p';
  }

  /** A failed write may leave anything, or nothing new, in the temporary file. */
  datatype WriteOutcome = Written | Broken(left: Option<seq<byte>>)

  /** Which operations the environment lets succeed. */
  datatype Faults = Faults(write: WriteOutcome, permissions: bool, remove: bool, backup: bool, install: bool,
                           rollback: bool)

  function Rename(files: Files, source: string, target: string): Files
    requires source in files
  {
    files[target := files[source]] - {source}
  }

  /** The directory after every file operation of the replacement, in order, and whether it succeeded. */
  function Steps(files: Files, name: string, bytes: seq<byte>, f: Faults): (r: (seq<Files>, bool))
    ensures r.0 != []
  {
    var (temp, prev) := (TempOf(name), PrevOf(name));
    if f.write.Broken? then
      ([if f.write.left.Some? then files[temp := f.write.left.value] else files], false)
    else
      var f1 := files[temp := bytes];
      if name !in f1 || !f.permissions then ([f1], false)
      else if prev in f1 && !f.remove then ([f1], false)
      else
        var f2 := f1 - {prev};
        if !f.backup then ([f1, f2], false)
        else
          var f3 := Rename(f2, name, prev);
          if temp in f3 && f.install then ([f1, f2, f3, Rename(f3, temp, name)], true)
          else if prev in f3 && f.rollback then ([f1, f2, f3, Rename(f3, prev, name)], false)
          else ([f1, f2, f3], false)
  }

  class Directory {
    var files: Files

    constructor (files: Files)
      ensures this.files == files
    {
      this.files := files;
    }

    /** `states` lists the states the directory goes through. */
    method ReplaceBinary(name: string, bytes: seq<byte>, f: Faults) returns (ok: bool, ghost states: seq<Files>)
      modifies this
      ensures states == Steps(old(files), name, bytes, f).0
      ensures ok == Steps(old(files), name, bytes, f).1
      ensures files == states[|states| - 1]
    {
      var temp, prev := TempOf(name), PrevOf(name);
      PathsAreDistinct(name);
      states, ok := [], false;
      if f.write.Broken? {
        if f.write.left.Some? {
          files := files[temp := f.write.left.value];
        }
        states := states + [files];
        return;
      }
      files := files[temp := bytes];
      states := states + [files];
      if name !in files || !f.permissions {
        return;
      }
      if prev in files {
        if !f.remove {
          return;
        }
      }
      files := files - {prev};
      states := states + [files];
      if !f.backup {
        return;
      }
      files := Rename(files, name, prev);
      states := states + [files];
      if temp in files && f.install {
        files := Rename(files, temp, name);
        states := states + [files];
        ok := true;
        return;
      }
      if prev in files && f.rollback {
        files := Rename(files, prev, name);
        states := states + [files];
      }
    }
  }

  /** The old binary is where it was or in the backup. */
  predicate Safe(files: Files, name: string, original: seq<byte>) {
    || (name in files && files[name] == original)
    || (PrevOf(name) in files && files[PrevOf(name)] == original)
  }

  /**
   Whatever fails, the old binary's bytes are at the target or in the backup at
   every intermediate point; success leaves the new bytes at the target and the old
   ones in the backup; a failure leaves the target as it was, except exactly when
   the install rename and the rollback rename both fail, which leaves no target.
   */
  lemma OldBinarySurvives(files: Files, name: string, bytes: seq<byte>, f: Faults)
    requires name in files
    ensures var (states, ok) := Steps(files, name, bytes, f);
            var end := states[|states| - 1];
            && |states| >= 1
            && (forall i :: 0 <= i < |states| ==> Safe(states[i], name, files[name]))
            && (ok <==> && f.write.Written? && f.permissions && (PrevOf(name) in files ==> f.remove)
                        && f.backup && f.install)
            && (ok ==> name in end && end[name] == bytes && PrevOf(name) in end && end[PrevOf(name)] == files[name])
            && (!ok && !(|states| == 3) ==> name in end && end[name] == files[name])
            && (|states| == 3 <==>
                  f.write.Written? && f.permissions && (PrevOf(name) in files ==> f.remove) && f.backup
                  && !f.install && !f.rollback)
            && (|states| == 3 ==> name !in end && PrevOf(name) in end && end[PrevOf(name)] == files[name])
  {
    PathsAreDistinct(name);
  }

  /** No other file of the directory is touched, at any point. */
  lemma OthersUntouched(files: Files, name: string, bytes: seq<byte>, f: Faults, other: string)
    requires other != name && other != TempOf(name) && other != PrevOf(name)
    ensures forall i :: 0 <= i < |Steps(files, name, bytes, f).0| ==>
              var st := Steps(files, name, bytes, f).0[i];
              (other in st <==> other in files) && (other in files ==> st[other] == files[other])
  {}
}
