/**
 Replacing a profile's certificate and key: the new pair is staged, the old directory is renamed to a backup, the stage is
 renamed to its place, and a failure on the way is rolled back. Every file operation may fail.
 */
module IdentityFiles {
  import opened Wrappers

  type Contents = seq<int>

  datatype Name = Certificate | Key | Another(name: string)

  /** What stands at a path: a directory of files, or something that is not a directory. */
  datatype Entry = Directory(files: map<Name, Contents>) | Foreign(id: int)

  /** The three paths of one transaction; the names of stage and backup are its own. */
  datatype Disk = Disk(ssl: Option<Entry>, stage: Option<Entry>, backup: Option<Entry>)

  /** How the writing of a file goes: not created, cut short after some bytes, or complete; `seen` are sizes in between. */
  datatype Writing = Writing(creates: bool, seen: seq<nat>, completes: bool)

  /** How the removal of a directory goes: what is left of it step by step, and whether it goes away in the end. */
  datatype Removal = Removal(left: seq<set<Name>>, completes: bool)

  /** Which operations fail. */
  datatype Failures = Failures(
    profile: bool, stage: bool, cert: Writing, key: Writing, metadata: bool, preserve: bool, install: bool, commit: bool,
    rollback: bool, stageRemoval: Removal, backupRemoval: Removal)

  datatype SaveError = CreateIdentityDir | CreateStageDir | Create(name: Name) | Write(name: Name) | Metadata | PreserveOld | Commit | Rollback

  function Pair(cert: Contents, key: Contents): Entry {
    Directory(map[Certificate := cert, Key := key])
  }

  function Prefix(contents: Contents, n: nat): Contents {
    if n <= |contents| then contents[..n] else contents
  }

  /** Renaming moves all of an entry at once, onto nothing, or a directory onto an empty one. */
  predicate Renames(source: Option<Entry>, target: Option<Entry>) {
    source.Some? && (target.None? || (source.value.Directory? && target == Some(Directory(map[]))))
  }

  function Without(entry: Option<Entry>, left: set<Name>): Option<Entry> {
    match entry
    case Some(Directory(files)) => Some(Directory(map n | n in files && n in left :: files[n]))
    case _ => entry
  }

  function FilesOf(entry: Option<Entry>): map<Name, Contents> {
    match entry
    case Some(Directory(files)) => files
    case _ => map[]
  }
}

module IdentitySave {
  import opened Wrappers
  import opened IdentityFiles

  type Verdict = Result<(), SaveError>

  /** Where a transaction ends, and every state of the disk on the way, the last one included. */
  datatype Course = Course(verdict: Verdict, trace: seq<Disk>)

  /** States while a file is written to the stage, each holding a prefix of its contents. */
  function Writings(d: Disk, name: Name, contents: Contents, seen: seq<nat>): seq<Disk>
  {
    if seen == [] then []
    else
      [d.(stage := Some(Directory(FilesOf(d.stage)[name := Prefix(contents, seen[0])])))] + Writings(d, name, contents, seen[1..])
  }

  function Wrote(d: Disk, name: Name, contents: Contents): Disk {
    d.(stage := Some(Directory(FilesOf(d.stage)[name := contents])))
  }

  /** The states of writing one file, and the error if there is one. */
  function FileWritten(d: Disk, name: Name, contents: Contents, w: Writing): Course {
    if !w.creates || name in FilesOf(d.stage) then Course(Err(Create(name)), [d])
    else
      var partial := [d, Wrote(d, name, [])] + Writings(d, name, contents, w.seen);
      if w.completes then Course(Ok(()), partial + [Wrote(d, name, contents)]) else Course(Err(Write(name)), partial)
  }

  function StageLeft(d: Disk, left: seq<set<Name>>): seq<Disk> {
    if left == [] then [] else [d.(stage := Without(d.stage, left[0]))] + StageLeft(d, left[1..])
  }

  function BackupLeft(d: Disk, left: seq<set<Name>>): seq<Disk> {
    if left == [] then [] else [d.(backup := Without(d.backup, left[0]))] + BackupLeft(d, left[1..])
  }

  /** Best-effort removal of the stage. */
  function StageRemoved(d: Disk, r: Removal): seq<Disk> {
    [d] + StageLeft(d, r.left) + if r.completes then [d.(stage := None)] else []
  }

  function BackupRemoved(d: Disk, r: Removal): seq<Disk> {
    [d] + BackupLeft(d, r.left) + if r.completes then [d.(backup := None)] else []
  }

  function Final(trace: seq<Disk>): Disk
    requires trace != []
  {
    trace[|trace| - 1]
  }

  /** The old set is moved back to its place. */
  function BroughtBack(d: Disk): Disk {
    d.(ssl := d.backup, backup := None)
  }

  /** The transaction after both files are staged. */
  function Installed(d: Disk, f: Failures): Course {
    if f.metadata then Course(Err(Metadata), StageRemoved(d, f.stageRemoval))
    else if d.ssl.Some? && (f.preserve || !Renames(d.ssl, d.backup)) then Course(Err(PreserveOld), StageRemoved(d, f.stageRemoval))
    else
      var had := d.ssl.Some?;
      var moved := if had then d.(ssl := None, backup := d.ssl) else d;
      if f.install || f.commit then
        if !had then Course(Err(Commit), [d] + StageRemoved(moved, f.stageRemoval))
        else if f.rollback then Course(Err(Rollback), [d] + StageRemoved(moved, f.stageRemoval))
        else Course(Err(Commit), [d, moved] + StageRemoved(BroughtBack(moved), f.stageRemoval))
      else
        var done := moved.(ssl := moved.stage, stage := None);
        Course(Ok(()), [d, moved] + if had then BackupRemoved(done, f.backupRemoval) else [done])
  }

  function KeyStaged(d: Disk, cert: Contents, key: Contents, f: Failures): Course {
    var written := FileWritten(d, Key, key, f.key);
    if written.trace == [] then written
    else if written.verdict.Err? then written.(trace := written.trace + StageRemoved(Final(written.trace), f.stageRemoval))
    else
      var rest := Installed(Final(written.trace), f);
      Course(rest.verdict, written.trace + rest.trace)
  }

  function Saved(d: Disk, cert: Contents, key: Contents, f: Failures): Course {
    if f.profile then Course(Err(CreateIdentityDir), [d])
    else if f.stage || d.stage.Some? then Course(Err(CreateStageDir), [d])
    else
      var staged := d.(stage := Some(Directory(map[])));
      var written := FileWritten(staged, Certificate, cert, f.cert);
      if written.trace == [] then written
      else if written.verdict.Err? then Course(written.verdict, [d] + written.trace + StageRemoved(Final(written.trace), f.stageRemoval))
      else
        var rest := KeyStaged(Final(written.trace), cert, key, f);
        Course(rest.verdict, [d] + written.trace + rest.trace)
  }

  // ----- what holds at every point

  /** An existing set is whole at its place, in the backup, or replaced by the whole new pair; nothing partial is at its place. */
  ghost predicate Safe(p: Disk, was: Option<Entry>, pair: Entry) {
    && (p.ssl == was || p.ssl == Some(pair) || (p.ssl.None? && p.backup == was))
  }

  ghost predicate AllSafe(trace: seq<Disk>, was: Option<Entry>, pair: Entry) {
    forall i | 0 <= i < |trace| :: Safe(trace[i], was, pair)
  }

  /** Only the stage differs. */
  ghost predicate Staging(trace: seq<Disk>, d: Disk) {
    forall i | 0 <= i < |trace| :: trace[i].ssl == d.ssl && trace[i].backup == d.backup
  }

  lemma {:induction false} WritingsStage(d: Disk, name: Name, contents: Contents, seen: seq<nat>)
    ensures Staging(Writings(d, name, contents, seen), d)
  {
    if seen != [] {
      WritingsStage(d, name, contents, seen[1..]);
    }
  }

  lemma FileStages(d: Disk, name: Name, contents: Contents, w: Writing)
    ensures var c := FileWritten(d, name, contents, w);
            && c.trace != [] && Staging(c.trace, d)
            && (c.verdict.Ok? <==> w.creates && w.completes && name !in FilesOf(d.stage))
            && (c.verdict.Ok? ==> Final(c.trace) == Wrote(d, name, contents))
            && (c.verdict.Err? ==> c.verdict.error == Create(name) || c.verdict.error == Write(name))
  {
    WritingsStage(d, name, contents, w.seen);
  }

  lemma {:induction false} StageLeftStages(d: Disk, left: seq<set<Name>>)
    ensures Staging(StageLeft(d, left), d)
  {
    if left != [] {
      StageLeftStages(d, left[1..]);
    }
  }

  lemma RemovalStages(d: Disk, r: Removal)
    ensures Staging(StageRemoved(d, r), d) && StageRemoved(d, r) != []
  {
    StageLeftStages(d, r.left);
  }

  lemma {:induction false} BackupLeftKeeps(d: Disk, left: seq<set<Name>>)
    ensures forall i | 0 <= i < |BackupLeft(d, left)| :: BackupLeft(d, left)[i].ssl == d.ssl
  {
    if left != [] {
      BackupLeftKeeps(d, left[1..]);
    }
  }

  lemma BackupRemovalKeeps(d: Disk, r: Removal)
    ensures BackupRemoved(d, r) != [] && forall i | 0 <= i < |BackupRemoved(d, r)| :: BackupRemoved(d, r)[i].ssl == d.ssl
  {
    BackupLeftKeeps(d, r.left);
  }

  /** How a transaction may end. */
  ghost predicate EndsWell(c: Course, was: Option<Entry>, backup: Option<Entry>, pair: Entry) {
    && c.trace != []
    && var last := Final(c.trace);
       match c.verdict
       case Ok(_) => last.ssl == Some(pair)
       case Err(Rollback) => was.Some? && last.ssl.None? && last.backup == was
       case Err(_) => last.ssl == was && (last.backup == backup || (backup == Some(Directory(map[])) && last.backup.None?))
  }

  lemma InstalledSafe(d: Disk, f: Failures)
    requires d.stage.Some?
    ensures AllSafe(Installed(d, f).trace, d.ssl, d.stage.value)
    ensures EndsWell(Installed(d, f), d.ssl, d.backup, d.stage.value)
    ensures Installed(d, f).verdict.Ok? <==>
            !f.metadata && !f.install && !f.commit && (d.ssl.Some? ==> !f.preserve && Renames(d.ssl, d.backup))
    ensures Installed(d, f).verdict == Err(Rollback) <==>
            !f.metadata && (f.install || f.commit) && d.ssl.Some? && !f.preserve && Renames(d.ssl, d.backup) && f.rollback
  {
    hide StageRemoved, BackupRemoved;
    var moved := if d.ssl.Some? then d.(ssl := None, backup := d.ssl) else d;
    var back := BroughtBack(moved);
    var done := moved.(ssl := moved.stage, stage := None);
    RemovalStages(d, f.stageRemoval);
    RemovalStages(moved, f.stageRemoval);
    RemovalStages(back, f.stageRemoval);
    BackupRemovalKeeps(done, f.backupRemoval);
  }

  /** What is at its place on the way is the old set, nothing, or the pair of exactly these two files. */
  lemma WrotePair(d: Disk, cert: Contents, key: Contents)
    requires d.stage == Some(Directory(map[Certificate := cert]))
    ensures Wrote(d, Key, key).stage == Some(Pair(cert, key))
  {
  }

  lemma KeyStagedSafe(d: Disk, cert: Contents, key: Contents, f: Failures)
    requires d.stage == Some(Directory(map[Certificate := cert]))
    ensures var c := KeyStaged(d, cert, key, f);
            && AllSafe(c.trace, d.ssl, Pair(cert, key)) && EndsWell(c, d.ssl, d.backup, Pair(cert, key))
            && (c.verdict.Ok? <==> f.key.creates && f.key.completes && Passes(d, f))
            && (c.verdict == Err(Rollback) <==> f.key.creates && f.key.completes && Strands(d, f))
  {
    hide Installed, StageRemoved, FileWritten;
    var written := FileWritten(d, Key, key, f.key);
    FileStages(d, Key, key, f.key);
    WrotePair(d, cert, key);
    if written.verdict.Ok? {
      InstalledSafe(Wrote(d, Key, key), f);
      JoinedSafe(written.trace, Installed(Wrote(d, Key, key), f).trace, d.ssl, Pair(cert, key));
    } else {
      RemovalStages(Final(written.trace), f.stageRemoval);
    }
  }

  predicate Passes(d: Disk, f: Failures) {
    !f.metadata && !f.install && !f.commit && (d.ssl.Some? ==> !f.preserve && Renames(d.ssl, d.backup))
  }

  /** The old set is in the backup, and cannot be brought back. */
  predicate Strands(d: Disk, f: Failures) {
    !f.metadata && (f.install || f.commit) && d.ssl.Some? && !f.preserve && Renames(d.ssl, d.backup) && f.rollback
  }

  lemma JoinedSafe(first: seq<Disk>, second: seq<Disk>, was: Option<Entry>, pair: Entry)
    requires AllSafe(first, was, pair) && AllSafe(second, was, pair)
    ensures AllSafe(first + second, was, pair)
  {
  }

  /** Whatever fails, each state on the way is safe and the end is as its verdict says. */
  lemma SavedSafe(d: Disk, cert: Contents, key: Contents, f: Failures)
    ensures AllSafe(Saved(d, cert, key, f).trace, d.ssl, Pair(cert, key))
    ensures EndsWell(Saved(d, cert, key, f), d.ssl, d.backup, Pair(cert, key))
    ensures Saved(d, cert, key, f).verdict.Ok? <==>
            !f.profile && !f.stage && d.stage.None? && f.cert.creates && f.cert.completes && f.key.creates && f.key.completes
            && Passes(d, f)
    ensures Saved(d, cert, key, f).verdict == Err(Rollback) <==>
            !f.profile && !f.stage && d.stage.None? && f.cert.creates && f.cert.completes && f.key.creates && f.key.completes
            && Strands(d, f)
  {
    hide KeyStaged, StageRemoved, FileWritten;
    var pair := Pair(cert, key);
    var staged := d.(stage := Some(Directory(map[])));
    var written := FileWritten(staged, Certificate, cert, f.cert);
    FileStages(staged, Certificate, cert, f.cert);
    assert AllSafe([d], d.ssl, pair);
    JoinedSafe([d], written.trace, d.ssl, pair);
    if written.verdict.Ok? {
      var next := Wrote(staged, Certificate, cert);
      assert next.stage == Some(Directory(map[Certificate := cert]));
      KeyStagedSafe(next, cert, key, f);
      JoinedSafe([d] + written.trace, KeyStaged(next, cert, key, f).trace, d.ssl, pair);
    } else {
      RemovalStages(Final(written.trace), f.stageRemoval);
      JoinedSafe([d] + written.trace, StageRemoved(Final(written.trace), f.stageRemoval), d.ssl, pair);
    }
  }

  // ----- as a sequence of file operations

  /** One file was written over whatever the stage held. */
  ghost predicate Staged(d: Disk, now: Disk, name: Name) {
    exists contents :: now == Wrote(d, name, contents)
  }

  lemma PutAgain(d: Disk, now: Disk, name: Name, contents: Contents)
    requires Staged(d, now, name)
    ensures Wrote(now, name, contents) == Wrote(d, name, contents) && Staged(d, Wrote(d, name, contents), name)
  {
    var before :| now == Wrote(d, name, before);
    assert FilesOf(d.stage)[name := before][name := contents] == FilesOf(d.stage)[name := contents];
  }

  lemma WritingsFrom(d: Disk, name: Name, contents: Contents, seen: seq<nat>, i: nat)
    requires i <= |seen|
    ensures Writings(d, name, contents, seen[i..]) ==
            if i == |seen| then []
            else [Wrote(d, name, Prefix(contents, seen[i]))] + Writings(d, name, contents, seen[i + 1..])
  {
    if i < |seen| {
      assert seen[i..][1..] == seen[i + 1..];
    }
  }

  lemma StageLeftFrom(d: Disk, left: seq<set<Name>>, i: nat)
    requires i <= |left|
    ensures StageLeft(d, left[i..]) ==
            if i == |left| then [] else [d.(stage := Without(d.stage, left[i]))] + StageLeft(d, left[i + 1..])
  {
    if i < |left| {
      assert left[i..][1..] == left[i + 1..];
    }
  }

  lemma BackupLeftFrom(d: Disk, left: seq<set<Name>>, i: nat)
    requires i <= |left|
    ensures BackupLeft(d, left[i..]) ==
            if i == |left| then [] else [d.(backup := Without(d.backup, left[i]))] + BackupLeft(d, left[i + 1..])
  {
    if i < |left| {
      assert left[i..][1..] == left[i + 1..];
    }
  }

  class IdentityProfile {
    var ssl: Option<Entry>
    var stage: Option<Entry>
    var backup: Option<Entry>
    ghost var trace: seq<Disk>

    constructor (d: Disk)
      ensures Here() == d && trace == []
    {
      ssl, stage, backup, trace := d.ssl, d.stage, d.backup, [];
    }

    function Here(): Disk
      reads this
    {
      Disk(ssl, stage, backup)
    }

    ghost method Observe()
      modifies this`trace
      ensures trace == old(trace) + [Here()]
    {
      trace := trace + [Here()];
    }

    method PutFile(name: Name, contents: Contents)
      modifies this`stage
      ensures Here() == Wrote(old(Here()), name, contents)
    {
      stage := Some(Directory(FilesOf(stage)[name := contents]));
    }

    /** The parts of the contents that are there from one write to the next. */
    method WriteParts(ghost d: Disk, name: Name, contents: Contents, seen: seq<nat>)
      requires Staged(d, Here(), name) && trace != [] && trace[|trace| - 1] == Here()
      modifies this`stage, this`trace
      ensures Staged(d, Here(), name) && trace != [] && trace[|trace| - 1] == Here()
      ensures trace == old(trace) + Writings(d, name, contents, seen)
    {
      hide Staged, Wrote, Writings;
      var i := 0;
      assert seen[0..] == seen;
      while i < |seen|
        invariant i <= |seen|
        invariant Staged(d, Here(), name)
        invariant trace + Writings(d, name, contents, seen[i..]) == old(trace) + Writings(d, name, contents, seen)
        invariant trace != [] && trace[|trace| - 1] == Here()
      {
        WritingsFrom(d, name, contents, seen, i);
        PutAgain(d, Here(), name, Prefix(contents, seen[i]));
        PutFile(name, Prefix(contents, seen[i]));
        Observe();
        i := i + 1;
      }
      WritingsFrom(d, name, contents, seen, i);
    }

    /** Create the file anew, write it, and make it durable. */
    method WriteMaterialFile(name: Name, contents: Contents, w: Writing) returns (r: Verdict)
      modifies this`stage, this`trace
      ensures r == FileWritten(old(Here()), name, contents, w).verdict
      ensures trace == old(trace) + FileWritten(old(Here()), name, contents, w).trace
      ensures trace[|trace| - 1] == Here() || r.Err?
      ensures r.Ok? ==> Here() == Wrote(old(Here()), name, contents)
      ensures r.Err? ==> Here() == Final(FileWritten(old(Here()), name, contents, w).trace)
    {
      hide Wrote, Writings;
      ghost var d := Here();
      FileStages(d, name, contents, w);
      Observe();
      if !w.creates || name in FilesOf(stage) {
        return Err(Create(name));
      }
      PutFile(name, []);
      assert Staged(d, Here(), name);
      Observe();
      WriteParts(d, name, contents, w.seen);
      assert trace == old(trace) + ([d, Wrote(d, name, [])] + Writings(d, name, contents, w.seen));
      if !w.completes {
        return Err(Write(name));
      }
      PutAgain(d, Here(), name, contents);
      PutFile(name, contents);
      Observe();
      assert trace == old(trace) + ([d, Wrote(d, name, [])] + Writings(d, name, contents, w.seen) + [Wrote(d, name, contents)]);
      return Ok(());
    }

    /** Files of the stage go one by one. */
    method EmptyStage(left: seq<set<Name>>)
      requires trace != [] && trace[|trace| - 1] == Here()
      modifies this`stage, this`trace
      ensures trace == old(trace) + StageLeft(old(Here()), left) && trace[|trace| - 1] == Here()
    {
      hide StageLeft;
      ghost var d := Here();
      var was, i := stage, 0;
      assert left[0..] == left;
      while i < |left|
        invariant i <= |left| && trace != [] && trace[|trace| - 1] == Here()
        invariant trace + StageLeft(d, left[i..]) == old(trace) + StageLeft(d, left)
      {
        StageLeftFrom(d, left, i);
        stage := Without(was, left[i]);
        Observe();
        i := i + 1;
      }
      StageLeftFrom(d, left, i);
    }

    /** The new pair could not be put in place: bring the old set back, if that is possible, and drop the stage. */
    method FailCommit(f: Failures, had: bool) returns (r: Verdict)
      modifies this
      ensures var back := BroughtBack(old(Here()));
              if had && !f.rollback then
                && r == Err(Commit) && trace == old(trace) + ([old(Here())] + StageRemoved(back, f.stageRemoval))
                && Here() == Final(StageRemoved(back, f.stageRemoval))
              else
                && r == Err(if had then Rollback else Commit) && trace == old(trace) + StageRemoved(old(Here()), f.stageRemoval)
                && Here() == Final(StageRemoved(old(Here()), f.stageRemoval))
    {
      hide StageRemoved;
      if had && f.rollback {
        RemoveStage(f.stageRemoval);
        return Err(Rollback);
      }
      if had {
        Observe();
        ssl, backup := backup, None;
      }
      RemoveStage(f.stageRemoval);
      return Err(Commit);
    }

    method RemoveStage(removal: Removal)
      modifies this`stage, this`trace
      ensures trace == old(trace) + StageRemoved(old(Here()), removal)
      ensures Here() == Final(StageRemoved(old(Here()), removal))
    {
      hide StageLeft;
      ghost var d := Here();
      Observe();
      EmptyStage(removal.left);
      if removal.completes {
        stage := None;
        Observe();
      }
      assert trace == old(trace) + StageRemoved(d, removal);
    }

    /** Files of the backup go one by one. */
    method EmptyBackup(left: seq<set<Name>>)
      requires trace != [] && trace[|trace| - 1] == Here()
      modifies this`backup, this`trace
      ensures trace == old(trace) + BackupLeft(old(Here()), left) && trace[|trace| - 1] == Here()
    {
      hide BackupLeft;
      ghost var d := Here();
      var was, i := backup, 0;
      assert left[0..] == left;
      while i < |left|
        invariant i <= |left| && trace != [] && trace[|trace| - 1] == Here()
        invariant trace + BackupLeft(d, left[i..]) == old(trace) + BackupLeft(d, left)
      {
        BackupLeftFrom(d, left, i);
        backup := Without(was, left[i]);
        Observe();
        i := i + 1;
      }
      BackupLeftFrom(d, left, i);
    }

    method RemoveBackup(removal: Removal)
      modifies this`backup, this`trace
      ensures trace == old(trace) + BackupRemoved(old(Here()), removal)
      ensures Here() == Final(BackupRemoved(old(Here()), removal))
    {
      hide BackupLeft;
      ghost var d := Here();
      Observe();
      EmptyBackup(removal.left);
      if removal.completes {
        backup := None;
        Observe();
      }
      assert trace == old(trace) + BackupRemoved(d, removal);
    }

    /** Put the staged pair in its place, with the old material in the backup until then. */
    method Install(f: Failures) returns (r: Verdict)
      modifies this
      ensures r == Installed(old(Here()), f).verdict
      ensures trace == old(trace) + Installed(old(Here()), f).trace
      ensures Installed(old(Here()), f).trace != [] && Here() == Final(Installed(old(Here()), f).trace)
    {
      hide StageRemoved, BackupRemoved;
      ghost var d := Here();
      ghost var was := trace;
      RemovalStages(d, f.stageRemoval);
      if f.metadata {
        RemoveStage(f.stageRemoval);
        return Err(Metadata);
      }
      var had := ssl.Some?;
      if had && (f.preserve || !Renames(ssl, backup)) {
        RemoveStage(f.stageRemoval);
        return Err(PreserveOld);
      }
      Observe();
      if had {
        ssl, backup := None, ssl;
      }
      ghost var moved := Here();
      RemovalStages(moved, f.stageRemoval);
      RemovalStages(BroughtBack(moved), f.stageRemoval);
      if f.install || f.commit {
        r := FailCommit(f, had);
        assert [d] + ([moved] + StageRemoved(BroughtBack(moved), f.stageRemoval)) == [d, moved] + StageRemoved(BroughtBack(moved), f.stageRemoval);
        return;
      }
      Observe();
      ssl, stage := stage, None;
      ghost var done := Here();
      BackupRemovalKeeps(done, f.backupRemoval);
      if had {
        RemoveBackup(f.backupRemoval);
        assert trace == was + ([d, moved] + BackupRemoved(done, f.backupRemoval));
      } else {
        Observe();
        assert trace == was + ([d, moved] + [done]);
      }
      return Ok(());
    }

    method SaveIdentityTransaction(cert: Contents, key: Contents, f: Failures) returns (r: Verdict)
      modifies this
      ensures r == Saved(old(Here()), cert, key, f).verdict
      ensures trace == old(trace) + Saved(old(Here()), cert, key, f).trace
      ensures Saved(old(Here()), cert, key, f).trace != [] && Here() == Final(Saved(old(Here()), cert, key, f).trace)
      ensures r.Ok? ==> ssl == Some(Pair(cert, key))
      ensures r.Err? && r != Err(Rollback) ==> ssl == old(ssl)
      ensures r == Err(Rollback) ==> ssl.None? && backup == old(ssl) && old(ssl).Some?
    {
      hide FileWritten, StageRemoved, Installed, Pair;
      SavedSafe(Here(), cert, key, f);
      ghost var d, was := Here(), trace;
      Observe();
      if f.profile {
        return Err(CreateIdentityDir);
      }
      if f.stage || stage.Some? {
        return Err(CreateStageDir);
      }
      stage := Some(Directory(map[]));
      ghost var staged := Here();
      FileStages(staged, Certificate, cert, f.cert);
      r := WriteMaterialFile(Certificate, cert, f.cert);
      ghost var first := FileWritten(staged, Certificate, cert, f.cert).trace;
      assert trace == was + ([d] + first);
      if r.Err? {
        RemoveStage(f.stageRemoval);
        assert trace == was + ([d] + first + StageRemoved(Final(first), f.stageRemoval));
        RemovalStages(Final(first), f.stageRemoval);
        return;
      }
      ghost var next := Here();
      r := StageKey(cert, key, f);
      assert trace == was + ([d] + first + KeyStaged(next, cert, key, f).trace);
    }

    method StageKey(cert: Contents, key: Contents, f: Failures) returns (r: Verdict)
      modifies this
      ensures r == KeyStaged(old(Here()), cert, key, f).verdict
      ensures trace == old(trace) + KeyStaged(old(Here()), cert, key, f).trace
      ensures KeyStaged(old(Here()), cert, key, f).trace != [] && Here() == Final(KeyStaged(old(Here()), cert, key, f).trace)
    {
      hide FileWritten, StageRemoved, Installed;
      ghost var d, was := Here(), trace;
      FileStages(d, Key, key, f.key);
      r := WriteMaterialFile(Key, key, f.key);
      ghost var first := FileWritten(d, Key, key, f.key).trace;
      if r.Err? {
        RemovalStages(Final(first), f.stageRemoval);
        RemoveStage(f.stageRemoval);
        assert trace == was + (first + StageRemoved(Final(first), f.stageRemoval));
        return;
      }
      ghost var next := Here();
      r := Install(f);
      assert trace == was + (first + Installed(next, f).trace);
    }
  }
}

/** Any number of saves of one profile at once: each has its own stage and backup, and they meet at the directory they replace. */
module ConcurrentSaves {
  import opened Wrappers
  import opened IdentityFiles

  /** Where a save is, with its pair staged; `had` if it saw old material. */
  datatype Phase = Ready | Looked(had: bool) | Armed(had: bool) | Failing(had: bool) | Committed(had: bool) | Stranded | Over

  datatype Save = Save(pair: Entry, phase: Phase, backup: Option<Entry>)

  /** `keeper` is the save that last took the directory away. */
  datatype World = World(ssl: Option<Entry>, saves: map<nat, Save>, keeper: Option<nat>)

  datatype Step =
    | Stage(save: nat, cert: Contents, key: Contents)
    | Look(save: nat)
    | LookFails(save: nat)
    | Preserve(save: nat)
    | PreserveFails(save: nat)
    | CommitSave(save: nat)
    | CommitFails(save: nat)
    | RollBack(save: nat)
    | RollBackFails(save: nat)
    | RemoveBackup(save: nat, left: Option<Entry>)

  predicate At(w: World, t: nat, phase: Phase) {
    t in w.saves && w.saves[t].phase == phase
  }

  function Moved(w: World, t: nat, phase: Phase): World {
    if t in w.saves then w.(saves := w.saves[t := w.saves[t].(phase := phase)]) else w
  }

  function Preserved(w: World, t: nat): World
    requires t in w.saves
  {
    w.(ssl := None, saves := w.saves[t := w.saves[t].(phase := Armed(true), backup := w.ssl)], keeper := Some(t))
  }

  /** Renames take effect at once or fail; one that finds nothing to move, or its target occupied, fails. */
  function StepOf(w: World, step: Step): World {
    match step
    case Stage(t, cert, key) => if t in w.saves then w else w.(saves := w.saves[t := Save(Pair(cert, key), Ready, None)])
    case Look(t) => if At(w, t, Ready) then Moved(w, t, if w.ssl.Some? then Looked(true) else Armed(false)) else w
    case LookFails(t) => if At(w, t, Ready) then Moved(w, t, Over) else w
    case Preserve(t) => if At(w, t, Looked(true)) && w.ssl.Some? then Preserved(w, t) else w
    case PreserveFails(t) => if At(w, t, Looked(true)) then Moved(w, t, Over) else w
    case CommitSave(t) =>
      if (At(w, t, Armed(true)) || At(w, t, Armed(false))) && Renames(Some(w.saves[t].pair), w.ssl) then
        Moved(w.(ssl := Some(w.saves[t].pair)), t, Committed(w.saves[t].phase.had))
      else w
    case CommitFails(t) =>
      if At(w, t, Armed(true)) then Moved(w, t, Failing(true)) else if At(w, t, Armed(false)) then Moved(w, t, Over) else w
    case RollBack(t) =>
      if At(w, t, Failing(true)) && Renames(w.saves[t].backup, w.ssl) then
        w.(ssl := w.saves[t].backup, saves := w.saves[t := w.saves[t].(phase := Over, backup := None)])
      else w
    case RollBackFails(t) => if At(w, t, Failing(true)) then Moved(w, t, Stranded) else w
    case RemoveBackup(t, left) =>
      if At(w, t, Committed(true)) then w.(saves := w.saves[t := w.saves[t].(backup := left)]) else w
  }

  function RunOf(w: World, steps: seq<Step>): World
    decreases |steps|
  {
    if steps == [] then w else RunOf(StepOf(w, steps[0]), steps[1..])
  }

  predicate IsPair(e: Entry) {
    e.Directory? && e.files.Keys == {Certificate, Key}
  }

  /** The material there was at first, or one complete pair. */
  predicate Whole(e: Entry, initial: Option<Entry>) {
    initial == Some(e) || IsPair(e)
  }

  predicate Keeps(phase: Phase) {
    phase == Armed(true) || phase == Failing(true) || phase == Stranded
  }

  ghost predicate Inv(w: World, initial: Option<Entry>) {
    && (w.ssl.Some? ==> Whole(w.ssl.value, initial))
    && (forall t | t in w.saves :: IsPair(w.saves[t].pair))
    && (forall t | t in w.saves && Keeps(w.saves[t].phase) :: w.saves[t].backup.Some? && Whole(w.saves[t].backup.value, initial))
    && (initial.Some? && w.ssl.None? ==> w.keeper.Some? && w.keeper.value in w.saves && Keeps(w.saves[w.keeper.value].phase))
  }

  lemma MovedInv(w: World, t: nat, phase: Phase, initial: Option<Entry>)
    requires Inv(w, initial) && t in w.saves && (Keeps(phase) <==> Keeps(w.saves[t].phase))
    ensures Inv(Moved(w, t, phase), initial)
  {
  }

  lemma LookInv(w: World, t: nat, initial: Option<Entry>)
    requires Inv(w, initial)
    ensures Inv(StepOf(w, Look(t)), initial) && Inv(StepOf(w, LookFails(t)), initial) && Inv(StepOf(w, PreserveFails(t)), initial)
    ensures Inv(StepOf(w, CommitFails(t)), initial) && Inv(StepOf(w, RollBackFails(t)), initial)
  {
    hide Inv, Moved;
    if t in w.saves {
      forall phase: Phase | Keeps(phase) <==> Keeps(w.saves[t].phase) ensures Inv(Moved(w, t, phase), initial) {
        MovedInv(w, t, phase, initial);
      }
    }
  }

  lemma PreserveInv(w: World, t: nat, initial: Option<Entry>)
    requires Inv(w, initial)
    ensures Inv(StepOf(w, Preserve(t)), initial)
  {
    hide Whole, IsPair;
  }

  lemma CommitInv(w: World, t: nat, initial: Option<Entry>)
    requires Inv(w, initial)
    ensures Inv(StepOf(w, CommitSave(t)), initial)
  {
    hide Renames, IsPair;
  }

  lemma RollBackInv(w: World, t: nat, initial: Option<Entry>)
    requires Inv(w, initial)
    ensures Inv(StepOf(w, RollBack(t)), initial)
  {
    hide Renames, IsPair, Whole;
  }

  lemma StageInv(w: World, t: nat, cert: Contents, key: Contents, initial: Option<Entry>)
    requires Inv(w, initial)
    ensures Inv(StepOf(w, Stage(t, cert, key)), initial)
  {
    assert IsPair(Pair(cert, key));
    hide Whole, IsPair, Pair;
  }

  lemma RemoveInv(w: World, t: nat, left: Option<Entry>, initial: Option<Entry>)
    requires Inv(w, initial)
    ensures Inv(StepOf(w, RemoveBackup(t, left)), initial)
  {
    hide Whole, IsPair;
  }

  lemma StepInv(w: World, step: Step, initial: Option<Entry>)
    requires Inv(w, initial)
    ensures Inv(StepOf(w, step), initial)
  {
    hide Inv, StepOf;
    match step
    case Stage(t, cert, key) => StageInv(w, t, cert, key, initial);
    case Preserve(t) => PreserveInv(w, t, initial);
    case CommitSave(t) => CommitInv(w, t, initial);
    case RollBack(t) => RollBackInv(w, t, initial);
    case RemoveBackup(t, left) => RemoveInv(w, t, left, initial);
    case Look(t) => LookInv(w, t, initial);
    case LookFails(t) => LookInv(w, t, initial);
    case PreserveFails(t) => LookInv(w, t, initial);
    case CommitFails(t) => LookInv(w, t, initial);
    case RollBackFails(t) => LookInv(w, t, initial);
  }

  lemma {:induction false} RunInv(w: World, steps: seq<Step>, initial: Option<Entry>)
    requires Inv(w, initial)
    ensures Inv(RunOf(w, steps), initial)
    decreases |steps|
  {
    hide Inv, StepOf;
    if steps != [] {
      StepInv(w, steps[0], initial);
      RunInv(StepOf(w, steps[0]), steps[1..], initial);
    }
  }

  /**
   In every interleaving of any number of saves, with any failures, what stands at the directory is what stood there at
   first or one complete pair; and where something stood at first, nothing stands there only while a whole set is kept in
   the backup of a save that will not remove it.
   */
  lemma NeverPartial(initial: Option<Entry>, steps: seq<Step>)
    ensures var n := RunOf(World(initial, map[], None), steps);
            && (n.ssl.Some? ==> Whole(n.ssl.value, initial))
            && (initial.Some? && n.ssl.None? ==>
                  exists t | t in n.saves :: Keeps(n.saves[t].phase) && n.saves[t].backup.Some? && Whole(n.saves[t].backup.value, initial))
  {
    hide RunOf, Whole, IsPair;
    StartsSafe(initial);
    RunInv(World(initial, map[], None), steps, initial);
  }

  lemma StartsSafe(initial: Option<Entry>)
    ensures Inv(World(initial, map[], None), initial)
  {
  }
}
