/** `SentinelManager.WriteConfig` as the file system sees it: writers open and truncate the one
    temporary file, write it piece by piece and rename it over the configuration. */
module ConfigFile {
  import opened HubTypes

  /** An open temporary file: what is to be written, into which inode, and how much already is. */
  datatype Handle = Handle(content: string, inode: nat, pos: nat)

  /** Inodes by number, the two names that lead to one, and the writers at work. */
  datatype Disk = Disk(inodes: seq<string>, config: Option<nat>, temp: Option<nat>, writers: map<nat, Handle>)

  /** What a crash can separate. `Ended` is an error return, which after a failed rename removes the
      temporary file. */
  datatype Step =
    | Opened(writer: nat, content: string)
    | Wrote(writer: nat, count: nat)
    | Renamed(writer: nat)
    | Ended(writer: nat, removed: bool)
    | Crashed

  predicate Enabled(d: Disk, s: Step) {
    match s
    case Opened(w, _) => w !in d.writers
    case Wrote(w, n) => w in d.writers && d.writers[w].pos + n <= |d.writers[w].content|
    case Renamed(w) => w in d.writers && d.writers[w].pos == |d.writers[w].content|
    case Ended(w, _) => w in d.writers
    case Crashed => true
  }

  /** A file after writing `piece` at an offset; a gap is filled with zeros. */
  function Overwrite(file: string, pos: nat, piece: string): string {
    if |piece| == 0 then file
    else if pos > |file| then file + seq(pos - |file|, i => '\0') + piece
    else if pos + |piece| < |file| then file[..pos] + piece + file[pos + |piece|..]
    else file[..pos] + piece
  }

  /** Writing at an offset puts the piece there, keeps what lies outside and fills what is between. */
  lemma OverwriteAt(file: string, pos: nat, piece: string)
    requires piece != ""
    ensures var r, end := Overwrite(file, pos, piece), pos + |piece|;
            && |r| == (if end < |file| then |file| else end)
            && r[pos..end] == piece
            && (forall i :: 0 <= i < |r| && !(pos <= i < end) ==> r[i] == if i < |file| then file[i] else '\0')
  {
  }

  /** Names and handles lead to inodes. */
  predicate WellFormed(d: Disk) {
    && (d.config.Some? ==> d.config.value < |d.inodes|)
    && (d.temp.Some? ==> d.temp.value < |d.inodes|)
    && (forall w :: w in d.writers ==> d.writers[w].inode < |d.inodes| && d.writers[w].pos <= |d.writers[w].content|)
  }

  function Do(d: Disk, s: Step): (r: Disk)
    requires WellFormed(d) && Enabled(d, s)
    ensures WellFormed(r)
  {
    match s
    case Opened(w, content) =>
      if d.temp.Some? then
        d.(inodes := d.inodes[d.temp.value := ""], writers := d.writers[w := Handle(content, d.temp.value, 0)])
      else
        Disk(d.inodes + [""], d.config, Some(|d.inodes|), d.writers[w := Handle(content, |d.inodes|, 0)])
    case Wrote(w, n) =>
      var h := d.writers[w];
      d.(inodes := d.inodes[h.inode := Overwrite(d.inodes[h.inode], h.pos, h.content[h.pos..h.pos + n])],
         writers := d.writers[w := h.(pos := h.pos + n)])
    case Renamed(w) =>
      if d.temp.Some? then d.(config := d.temp, temp := None, writers := d.writers - {w})
      else d.(writers := d.writers - {w})
    case Ended(w, removed) =>
      d.(temp := if removed then None else d.temp, writers := d.writers - {w})
    case Crashed => d.(writers := map[])
  }

  /** What a reader of the configuration sees. */
  function Contents(d: Disk): Option<string>
    requires WellFormed(d)
  {
    if d.config.None? then None else Some(d.inodes[d.config.value])
  }

  ghost predicate AllWellFormed(disks: seq<Disk>) {
    forall i :: 0 <= i < |disks| ==> WellFormed(disks[i])
  }

  /** Steps that follow one another, each possible when it happens. */
  ghost predicate IsPath(disks: seq<Disk>, steps: seq<Step>) {
    && |disks| == |steps| + 1 && AllWellFormed(disks)
    && forall i {:trigger steps[i]} :: 0 <= i < |steps| ==>
         Enabled(disks[i], steps[i]) && disks[i + 1] == Do(disks[i], steps[i])
  }

  /** A run from a disk without writers or temporary file. */
  ghost predicate IsRun(disks: seq<Disk>, steps: seq<Step>) {
    IsPath(disks, steps) && disks[0].temp == None && disks[0].writers == map[]
  }

  /** No writer opens the temporary file while another is at work. */
  ghost predicate Serialised(disks: seq<Disk>, steps: seq<Step>) {
    |disks| >= |steps| && forall i {:trigger steps[i]} :: 0 <= i < |steps| && steps[i].Opened? ==> disks[i].writers == map[]
  }

  /** Content of the last write that was renamed into place within the first `n` steps. */
  ghost function LastRenamed(disks: seq<Disk>, steps: seq<Step>, n: nat): Option<string>
    requires n <= |steps| && |disks| == |steps| + 1 && AllWellFormed(disks)
  {
    if n == 0 then Contents(disks[0])
    else if steps[n - 1].Renamed? && steps[n - 1].writer in disks[n - 1].writers
    then Some(disks[n - 1].writers[steps[n - 1].writer].content)
    else LastRenamed(disks, steps, n - 1)
  }

  /** A writer at work has the temporary file to itself, holding what it has written so far. */
  ghost predicate Private(d: Disk)
    requires WellFormed(d)
  {
    && (d.temp.Some? ==> d.config != d.temp)
    && (forall w, v :: w in d.writers && v in d.writers ==> w == v)
    && (forall w :: w in d.writers ==> var h := d.writers[w];
          d.temp == Some(h.inode) && d.inodes[h.inode] == h.content[..h.pos])
  }

  /** Writing on at the end of a file extends it. */
  lemma OverwriteAppends(content: string, pos: nat, n: nat)
    requires pos + n <= |content|
    ensures Overwrite(content[..pos], pos, content[pos..pos + n]) == content[..pos + n]
  {
    assert content[..pos][..pos] == content[..pos];
    assert content[..pos] + content[pos..pos + n] == content[..pos + n];
  }

  lemma PrivateWrite(d: Disk, w: nat, n: nat)
    requires WellFormed(d) && Enabled(d, Wrote(w, n)) && Private(d)
    ensures Private(Do(d, Wrote(w, n))) && Contents(Do(d, Wrote(w, n))) == Contents(d)
  {
    hide Overwrite;
    var h := d.writers[w];
    OverwriteAppends(h.content, h.pos, n);
    var r := Do(d, Wrote(w, n));
    assert r.writers == map[w := h.(pos := h.pos + n)];
    assert r.inodes[h.inode] == h.content[..h.pos + n];
  }

  lemma PrivateRename(d: Disk, w: nat)
    requires WellFormed(d) && Enabled(d, Renamed(w)) && Private(d)
    ensures Private(Do(d, Renamed(w))) && Contents(Do(d, Renamed(w))) == Some(d.writers[w].content)
  {
    assert d.writers[w].content[..d.writers[w].pos] == d.writers[w].content;
  }

  lemma PrivateIsKept(d: Disk, s: Step)
    requires WellFormed(d) && Enabled(d, s) && Private(d) && (s.Opened? ==> d.writers == map[])
    ensures Private(Do(d, s))
    ensures Contents(Do(d, s)) == if s.Renamed? then Some(d.writers[s.writer].content) else Contents(d)
  {
    match s
    case Wrote(w, n) => PrivateWrite(d, w, n);
    case Renamed(w) => PrivateRename(d, w);
    case _ =>
  }

  /** Wherever a run is cut off by a crash, and however many come after, if writers take turns the
      configuration is wholly the last content that was renamed into place, or the old one. */
  lemma {:induction false} SerialWritesAreWhole(disks: seq<Disk>, steps: seq<Step>, n: nat)
    requires IsRun(disks, steps) && Serialised(disks, steps) && n <= |steps|
    ensures Private(disks[n])
    ensures Contents(disks[n]) == LastRenamed(disks, steps, n)
  {
    if n > 0 {
      SerialWritesAreWhole(disks, steps, n - 1);
      assert Enabled(disks[n - 1], steps[n - 1]);
      PrivateIsKept(disks[n - 1], steps[n - 1]);
    }
  }

  /** The first writer writes the rest of its content, the second gives up and tries again, and the
      first renames. */
  function RetrySteps(d: Disk, a: nat, b: nat, content: string): seq<Step>
    requires WellFormed(d) && a in d.writers
  {
    [Wrote(a, |d.writers[a].content| - d.writers[a].pos), Ended(b, false), Opened(b, content), Renamed(a)]
  }

  lemma LosingPath(d: Disk, a: nat, b: nat, content: string) returns (disks: seq<Disk>)
    requires WellFormed(d) && Private(d) && a in d.writers && b !in d.writers
    ensures IsPath(disks, RetrySteps(d, a, b, content)) && disks[0] == Do(d, Opened(b, content))
    ensures Contents(disks[4]) == Some("")
  {
    hide Overwrite;
    var steps := RetrySteps(d, a, b, content);
    var overlap := Do(d, Opened(b, content));
    var written := Do(overlap, steps[0]);
    var ended := Do(written, steps[1]);
    var again := Do(ended, steps[2]);
    disks := [overlap, written, ended, again, Do(again, steps[3])];
    assert again.temp == d.temp && again.inodes[d.temp.value] == "";
  }

  /** Without turns the configuration can always be lost. Whenever one writer is at work and another
      opens the temporary file, the run can go on so that an emptied file is renamed into place. What was
      there, and what either was to write, is then gone unless it was empty. */
  lemma OverlapTears(d: Disk, a: nat, b: nat, content: string)
    requires WellFormed(d) && Private(d) && a in d.writers && b !in d.writers
    ensures exists disks, steps {:trigger IsPath(disks, steps)} ::
              IsPath(disks, steps) && disks[0] == Do(d, Opened(b, content)) &&
              var lost := Contents(disks[|steps|]);
              && lost == Some("")
              && (lost == Contents(d) <==> Contents(d) == Some(""))
              && (lost == Some(d.writers[a].content) <==> d.writers[a].content == "")
              && (lost == Some(content) <==> content == "")
  {
    var disks := LosingPath(d, a, b, content);
    assert IsPath(disks, RetrySteps(d, a, b, content));
  }

  /** When the first writer has already written everything, it takes no retry. */
  lemma OverlapTearsAtOnce(d: Disk, a: nat, b: nat, content: string)
    requires WellFormed(d) && Private(d) && a in d.writers && b !in d.writers
    requires Enabled(d, Renamed(a))
    ensures Contents(Do(Do(d, Opened(b, content)), Renamed(a))) == Some("")
  {
  }

  /** Nothing empty is in place or about to be written. */
  ghost predicate Filled(d: Disk)
    requires WellFormed(d)
  {
    Contents(d) != Some("") && forall w :: w in d.writers ==> d.writers[w].content != ""
  }

  /** Steps from `d` on in which writing is only begun again by writers that were at work. */
  ghost predicate IsRetry(d: Disk, disks: seq<Disk>, steps: seq<Step>) {
    && IsPath(disks, steps) && disks[0] == d
    && forall i {:trigger steps[i]} :: 0 <= i < |steps| && steps[i].Opened? ==>
         steps[i].writer in d.writers && steps[i].content != ""
  }

  /** Some such way to go on ends with an empty configuration. */
  ghost predicate CanBeLost(d: Disk) {
    exists disks, steps {:trigger IsRetry(d, disks, steps)} ::
      IsRetry(d, disks, steps) && Contents(disks[|steps|]) == Some("")
  }

  lemma {:induction false} FilledWhileSerial(disks: seq<Disk>, steps: seq<Step>, n: nat)
    requires IsRun(disks, steps) && Serialised(disks, steps) && n <= |steps| && Filled(disks[0])
    requires forall i {:trigger steps[i]} :: 0 <= i < |steps| && steps[i].Opened? ==> steps[i].content != ""
    ensures Private(disks[n]) && Filled(disks[n])
  {
    SerialWritesAreWhole(disks, steps, n);
    if n > 0 {
      FilledWhileSerial(disks, steps, n - 1);
      assert Enabled(disks[n - 1], steps[n - 1]);
      PrivateIsKept(disks[n - 1], steps[n - 1]);
    }
  }

  /** A writer that is alone may try again as often as it likes. */
  lemma {:induction false} RetriesAloneAreSafe(d: Disk, disks: seq<Disk>, steps: seq<Step>, n: nat)
    requires WellFormed(d) && Private(d) && Filled(d) && IsRetry(d, disks, steps) && n <= |steps|
    ensures Private(disks[n]) && Filled(disks[n]) && disks[n].writers.Keys <= d.writers.Keys
  {
    if n > 0 {
      RetriesAloneAreSafe(d, disks, steps, n - 1);
      assert Enabled(disks[n - 1], steps[n - 1]);
      PrivateIsKept(disks[n - 1], steps[n - 1]);
    }
  }

  /** Turns are exactly what it takes. When writers have taken turns up to the last step, and nothing
      was empty, the configuration is safe from them if and only if they still did at that step. */
  lemma SafeIffTurns(disks: seq<Disk>, steps: seq<Step>)
    requires IsRun(disks, steps) && steps != [] && Filled(disks[0])
    requires forall i {:trigger steps[i]} :: 0 <= i < |steps| && steps[i].Opened? ==> steps[i].content != ""
    requires Serialised(disks[..|steps|], steps[..|steps| - 1])
    ensures Serialised(disks, steps) <==> !CanBeLost(disks[|steps|])
  {
    var n := |steps| - 1;
    var before, last := disks[n], steps[n];
    assert Enabled(before, last);
    SerialPrefix(disks, steps);
    FilledWhileSerial(disks[..n + 1], steps[..n], n);
    if Serialised(disks, steps) {
      FilledWhileSerial(disks, steps, n + 1);
      forall ds, ss | IsRetry(disks[n + 1], ds, ss) ensures Contents(ds[|ss|]) != Some("") {
        RetriesAloneAreSafe(disks[n + 1], ds, ss, |ss|);
      }
    } else {
      var a :| a in before.writers;
      LostByRetry(before, a, last.writer, last.content);
    }
  }

  lemma SerialPrefix(disks: seq<Disk>, steps: seq<Step>)
    requires IsRun(disks, steps) && steps != [] && Serialised(disks[..|steps|], steps[..|steps| - 1])
    ensures IsRun(disks[..|steps|], steps[..|steps| - 1])
    ensures Serialised(disks, steps) <==> (steps[|steps| - 1].Opened? ==> disks[|steps| - 1].writers == map[])
  {
    var n := |steps| - 1;
    forall i {:trigger steps[..n][i]} | 0 <= i < n
      ensures Enabled(disks[i], steps[..n][i]) && disks[i + 1] == Do(disks[i], steps[..n][i])
      ensures steps[i].Opened? ==> disks[i].writers == map[]
    {
      assert steps[..n][i] == steps[i] && disks[..n + 1][i] == disks[i];
    }
  }

  lemma LostByRetry(d: Disk, a: nat, b: nat, content: string)
    requires WellFormed(d) && Private(d) && a in d.writers && b !in d.writers && content != ""
    ensures CanBeLost(Do(d, Opened(b, content)))
  {
    hide Overwrite;
    var overlap := Do(d, Opened(b, content));
    var steps := RetrySteps(d, a, b, content);
    var disks := LosingPath(d, a, b, content);
    assert IsRetry(overlap, disks, steps);
  }

  /** Where a write gives up. A write fault may come at any piece, or when the file is closed. */
  datatype Fault = NoFault | OpenFault | WriteFault | RenameFault

  class SentinelManager {
    var disk: Disk
    /** Every step so far. */
    ghost var disks: seq<Disk>
    ghost var steps: seq<Step>

    ghost predicate Valid()
      reads this
    {
      WellFormed(disk) && IsRun(disks, steps) && disks[|steps|] == disk
    }

    constructor (config: Option<string>)
      ensures Valid() && steps == [] && disk.writers == map[] && Contents(disk) == config
    {
      var start := match config
        case None => Disk([], None, None, map[])
        case Some(content) => Disk([content], Some(0), None, map[]);
      disk, disks, steps := start, [start], [];
    }

    method Take(s: Step)
      requires Valid() && Enabled(disk, s)
      modifies this
      ensures Valid() && disk == Do(old(disk), s)
      ensures steps == old(steps) + [s] && disks == old(disks) + [disk]
    {
      disk := Do(disk, s);
      disks, steps := disks + [disk], steps + [s];
    }

    /** The writer has the temporary file to itself and has written this much. */
    ghost predicate Alone(writer: nat, content: string, pos: nat)
      reads this
    {
      && Valid() && Private(disk) && disk.writers.Keys == {writer}
      && disk.writers[writer].content == content && disk.writers[writer].pos == pos
    }

    /** `WriteConfig` while no other writer is at work: without a fault the configuration is the new
        content, and with one it is what it was. */
    method WriteConfig(writer: nat, content: string, fault: Fault) returns (ok: bool)
      requires Valid() && disk.writers == map[] && Private(disk)
      modifies this
      ensures Valid() && disk.writers == map[] && Private(disk)
      ensures ok <==> fault.NoFault?
      ensures Contents(disk) == if ok then Some(content) else old(Contents(disk))
    {
      hide IsRun, IsPath;
      if fault.OpenFault? {
        return false;
      }
      PrivateIsKept(disk, Opened(writer, content));
      Take(Opened(writer, content));
      var pos := WriteOut(writer, content, fault);
      ok := fault.NoFault?;
      var last := if ok then Renamed(writer) else Ended(writer, fault.RenameFault?);
      PrivateIsKept(disk, last);
      Take(last);
    }

    /** The content goes out in pieces of any size, up to a write fault. */
    method WriteOut(writer: nat, content: string, fault: Fault) returns (pos: nat)
      requires Alone(writer, content, 0)
      modifies this
      ensures Alone(writer, content, pos) && Contents(disk) == old(Contents(disk))
      ensures !fault.WriteFault? ==> pos == |content|
    {
      pos := 0;
      var full := false;
      while pos < |content| && !full
        invariant Alone(writer, content, pos) && pos <= |content| && (full ==> fault.WriteFault?)
        invariant Contents(disk) == old(Contents(disk))
        decreases |content| - pos, !full
      {
        full := *;
        full := full && fault.WriteFault?;
        if !full {
          var count: nat :| 0 < count <= |content| - pos;
          WritePiece(writer, content, pos, count);
          pos := pos + count;
        }
      }
    }

    method WritePiece(writer: nat, content: string, pos: nat, count: nat)
      requires Alone(writer, content, pos) && pos + count <= |content|
      modifies this
      ensures Alone(writer, content, pos + count) && Contents(disk) == old(Contents(disk))
    {
      hide IsRun, IsPath;
      PrivateIsKept(disk, Wrote(writer, count));
      Take(Wrote(writer, count));
    }
  }
}
