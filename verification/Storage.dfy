/**
 The atomic import of a media file: copy into a private staging name, validate,
 publish by hard link without ever replacing anything, and roll back on failure.
 Every state the directory passes through is kept, since a crash may expose any of them.
 */
module Storage {
  import opened Results

  type Byte = b: int | 0 <= b < 256

  type View = map<string, seq<Byte>>

  datatype Kind =
    | NotRegular | BadLimit | TooLarge | NotAdmitted | Cancelled | SourceChanged | ReadFailed | ShortWrite | WriteFailed
    | DiskFailed | Rejected | Exists | SyncFailed

  /** What went wrong, and whether undoing the publication failed as well. */
  datatype CopyError = CopyError(kind: Kind, rollbackFailed: bool)

  datatype LinkResult = Linked | AlreadyThere | LinkFailed

  datatype RemoveResult = Removed | NotThere | RemoveFailed

  function Look(names: map<string, nat>, contents: map<nat, seq<Byte>>): View
    requires names.Values <= contents.Keys
  {
    map name | name in names :: contents[names[name]]
  }

  /** Directory entries, the files they name, and everything anyone could have seen so far. */
  class Disk {
    var names: map<string, nat>
    var contents: map<nat, seq<Byte>>
    ghost var history: seq<View>

    constructor ()
      ensures Valid() && names == map[] && Now() == map[]
    {
      names, contents := map[], map[];
      history := [map[]];
    }

    ghost predicate Valid()
      reads this
    {
      names.Values <= contents.Keys && history != [] && history[|history| - 1] == Now()
    }

    function Now(): View
      reads this
      requires names.Values <= contents.Keys
    {
      Look(names, contents)
    }

    /** Creates a file under a name that was free. */
    method CreateTemp(name: string) returns (file: Option<nat>)
      requires Valid()
      modifies this
      ensures Valid()
      ensures file.None? ==> names == old(names) && contents == old(contents) && history == old(history)
      ensures file.Some? ==>
        && name !in old(names) && file.value !in old(contents)
        && names == old(names)[name := file.value] && contents == old(contents)[file.value := []]
        && Now() == old(Now())[name := []] && history == old(history) + [Now()]
    {
      if name in names { return None; }
      if * { return None; }
      var number := FreeNumber();
      contents := contents[number := []];
      names := names[name := number];
      history := history + [Now()];
      assert Now() == old(Now())[name := []];
      file := Some(number);
    }

    method FreeNumber() returns (number: nat)
      ensures number !in contents
    {
      number := 0;
      var taken := contents.Keys;
      while number in taken
        invariant forall k | k in contents.Keys && k !in taken :: k < number
        decreases |taken|
      {
        taken := taken - {number};
        number := number + 1;
      }
    }

    /** Appends some prefix of the chunk, possibly all of it, possibly none. */
    method Write(file: nat, chunk: seq<Byte>) returns (count: nat, failed: bool)
      requires Valid() && file in contents
      modifies this
      ensures Valid() && names == old(names) && count <= |chunk|
      ensures contents == old(contents)[file := old(contents[file]) + chunk[..count]]
      ensures history == old(history) + [Now()]
    {
      count :| 0 <= count <= |chunk|;
      failed := *;
      contents := contents[file := contents[file] + chunk[..count]];
      history := history + [Now()];
    }

    method Link(from: string, to: string) returns (result: LinkResult)
      requires Valid()
      modifies this
      ensures Valid() && contents == old(contents)
      ensures to in old(names) ==> !result.Linked?
      ensures result.Linked? ==>
        && from in old(names) && names == old(names)[to := old(names)[from]]
        && Now() == old(Now())[to := old(Now())[from]] && history == old(history) + [Now()]
      ensures !result.Linked? ==> names == old(names) && history == old(history)
      ensures result.AlreadyThere? <==> to in old(names)
    {
      if to in names { return AlreadyThere; }
      if from !in names { return LinkFailed; }
      if * { return LinkFailed; }
      names := names[to := names[from]];
      history := history + [Now()];
      assert Now() == old(Now())[to := old(Now())[from]];
      result := Linked;
    }

    method Remove(name: string) returns (result: RemoveResult)
      requires Valid()
      modifies this
      ensures Valid() && contents == old(contents)
      ensures result.Removed? ==>
        names == old(names) - {name} && Now() == old(Now()) - {name} && history == old(history) + [Now()]
      ensures !result.Removed? ==> names == old(names) && history == old(history)
      ensures result.NotThere? <==> name !in old(names)
    {
      if name !in names { return NotThere; }
      if * { return RemoveFailed; }
      names := names - {name};
      history := history + [Now()];
      assert Now() == old(Now()) - {name};
      result := Removed;
    }
  }

  datatype ReadStatus = More | Eof | Failed

  /** A source that yields its bytes in pieces of any size, and may change or fail on the way. */
  class Reader {
    const stream: seq<Byte>
    var position: nat

    constructor (stream: seq<Byte>)
      ensures Valid() && this.stream == stream && position == 0
    {
      this.stream, position := stream, 0;
    }

    predicate Valid()
      reads this
    {
      position <= |stream|
    }

    /** Always yields something, or says why not. */
    method Read(limit: nat) returns (chunk: seq<Byte>, status: ReadStatus)
      requires Valid() && 0 < limit
      modifies this
      ensures Valid() && old(position) <= position <= old(position) + limit
      ensures chunk == stream[old(position)..position]
      ensures status.More? ==> chunk != []
      ensures status.Eof? ==> position == |stream|
    {
      if position == |stream| { return [], Eof; }
      if * { return [], Failed; }
      var most := if limit < |stream| - position then limit else |stream| - position;
      var count: nat :| 1 <= count && count <= most;
      chunk := stream[position..position + count];
      position := position + count;
      status := if position == |stream| then Eof else More;
      if * { status := Failed; }
      else if * { status := More; }
    }
  }

  /**
   The outside checks an import goes through. Each success is noted with the bytes it was about and the
   number of states the directory had passed through by then.
   */
  class Checks {
    ghost var flushed: set<(seq<Byte>, nat)>
    ghost var approved: set<(seq<Byte>, nat)>

    constructor ()
      ensures flushed == approved == {}
    {
      flushed, approved := {}, {};
    }

    /** Makes the contents of a file durable. */
    method Flush(disk: Disk, file: nat) returns (ok: bool)
      requires file in disk.contents
      modifies this`flushed
      ensures flushed == old(flushed) + (if ok then {(disk.contents[file], |disk.history|)} else {})
    {
      ok := *;
      if ok { flushed := flushed + {(disk.contents[file], |disk.history|)}; }
    }

    /** Has a staged file validated. */
    method Approve(disk: Disk, file: nat) returns (ok: bool)
      requires file in disk.contents
      modifies this`approved
      ensures approved == old(approved) + (if ok then {(disk.contents[file], |disk.history|)} else {})
    {
      ok := *;
      if ok { approved := approved + {(disk.contents[file], |disk.history|)}; }
    }

    /** These bytes were flushed and approved before state `k`. */
    ghost predicate Vetted(bytes: seq<Byte>, k: nat)
      reads this
    {
      (exists n :: n <= k && (bytes, n) in flushed) && (exists n :: n <= k && (bytes, n) in approved)
    }
  }

  const COPY_BUFFER_SIZE: nat := 256 * 1024

  /** Apart from the exempt names, the directory looks as it did. */
  ghost predicate SameElsewhere(view: View, before: View, exempt: set<string>) {
    forall name :: name !in exempt ==> (name in view <==> name in before) && (name in view ==> view[name] == before[name])
  }

  /** An existing destination keeps its bytes; a new one is absent or complete. */
  ghost predicate Atomic(view: View, before: View, dst: string, whole: seq<Byte>) {
    if dst in before then dst in view && view[dst] == before[dst] else dst in view ==> view[dst] == whole
  }

  ghost predicate SafeSince(history: seq<View>, from: nat, before: View, dst: string, staging: string, whole: seq<Byte>) {
    forall k | from <= k < |history| ::
      SameElsewhere(history[k], before, {dst, staging}) && Atomic(history[k], before, dst, whole)
  }

  /** Before publication only the staging name differs. */
  ghost predicate HiddenSince(history: seq<View>, from: nat, before: View, staging: string) {
    forall k | from <= k < |history| :: SameElsewhere(history[k], before, {staging})
  }

  lemma HiddenIsSafe(history: seq<View>, from: nat, before: View, dst: string, staging: string, whole: seq<Byte>)
    requires HiddenSince(history, from, before, staging) && dst != staging
    ensures SafeSince(history, from, before, dst, staging, whole)
  {
  }

  lemma WriteStaysHidden(names: map<string, nat>, contents: map<nat, seq<Byte>>, after: map<nat, seq<Byte>>,
                         file: nat, before: View, staging: string)
    requires names.Values <= contents.Keys && after.Keys == contents.Keys && file in contents
    requires forall other | other in contents && other != file :: after[other] == contents[other]
    requires forall name | name in names && name != staging :: names[name] != file
    requires SameElsewhere(Look(names, contents), before, {staging})
    ensures SameElsewhere(Look(names, after), before, {staging})
  {
    assert forall name | name in names :: names[name] in names.Values;
  }

  lemma HiddenGrows(history: seq<View>, view: View, from: nat, before: View, staging: string)
    requires HiddenSince(history, from, before, staging) && SameElsewhere(view, before, {staging})
    ensures HiddenSince(history + [view], from, before, staging)
  {
  }

  /** Writes a whole chunk in as many writes as it takes. */
  method WriteChunk(disk: Disk, file: nat, chunk: seq<Byte>, ghost before: View, ghost staging: string, ghost from: nat)
      returns (offset: nat, err: Option<Kind>)
    requires disk.Valid() && file in disk.contents && from <= |disk.history|
    requires forall name | name in disk.names && name != staging :: disk.names[name] != file
    requires SameElsewhere(disk.Now(), before, {staging}) && HiddenSince(disk.history, from, before, staging)
    modifies disk
    ensures disk.Valid() && disk.names == old(disk.names) && from <= |disk.history| && offset <= |chunk|
    ensures disk.contents == old(disk.contents)[file := old(disk.contents[file]) + chunk[..offset]]
    ensures SameElsewhere(disk.Now(), before, {staging}) && HiddenSince(disk.history, from, before, staging)
    ensures err.None? ==> offset == |chunk|
  {
    hide SameElsewhere, HiddenSince, Look;
    offset := 0;
    assert old(disk.contents[file]) + chunk[..0] == old(disk.contents[file]);
    while offset < |chunk|
      invariant offset <= |chunk| && disk.Valid() && disk.names == old(disk.names) && from <= |disk.history|
      invariant disk.contents == old(disk.contents)[file := old(disk.contents[file]) + chunk[..offset]]
      invariant SameElsewhere(disk.Now(), before, {staging}) && HiddenSince(disk.history, from, before, staging)
    {
      if * { return offset, Some(Cancelled); }
      ghost var start, contents, history := offset, disk.contents, disk.history;
      var count, failed := disk.Write(file, chunk[offset..]);
      WriteStaysHidden(disk.names, contents, disk.contents, file, before, staging);
      HiddenGrows(history, disk.Now(), from, before, staging);
      offset := offset + count;
      TakeMore(old(disk.contents[file]), chunk, start, count);
      if failed { return offset, Some(WriteFailed); }
      if count == 0 { return offset, Some(ShortWrite); }
    }
    err := None;
  }

  lemma TakeMore(prefix: seq<Byte>, chunk: seq<Byte>, start: nat, count: nat)
    requires start + count <= |chunk|
    ensures prefix + chunk[..start] + chunk[start..][..count] == prefix + chunk[..start + count]
  {
  }

  /** Copies until the source ends; whatever happens, what was written is a prefix of what the source yielded. */
  method CopyData(disk: Disk, file: nat, src: Reader, ghost before: View, ghost staging: string, ghost from: nat)
      returns (written: nat, err: Option<Kind>)
    requires disk.Valid() && file in disk.contents && disk.contents[file] == [] && from <= |disk.history|
    requires forall name | name in disk.names && name != staging :: disk.names[name] != file
    requires SameElsewhere(disk.Now(), before, {staging}) && HiddenSince(disk.history, from, before, staging)
    requires src.Valid() && src.position == 0
    modifies disk, src
    ensures disk.Valid() && disk.names == old(disk.names) && from <= |disk.history|
    ensures written <= |src.stream| && disk.contents == old(disk.contents)[file := src.stream[..written]]
    ensures SameElsewhere(disk.Now(), before, {staging}) && HiddenSince(disk.history, from, before, staging)
    ensures err.None? ==> written == |src.stream|
  {
    written := 0;
    var status := More;
    while status.More?
      invariant disk.Valid() && disk.names == old(disk.names) && from <= |disk.history|
      invariant src.Valid() && written == src.position
      invariant disk.contents == old(disk.contents)[file := src.stream[..written]]
      invariant SameElsewhere(disk.Now(), before, {staging}) && HiddenSince(disk.history, from, before, staging)
      invariant !status.Failed? && (status.Eof? ==> written == |src.stream|)
      decreases |src.stream| - src.position, status.More?
    {
      hide SameElsewhere, HiddenSince;
      if * { return written, Some(Cancelled); }
      var chunk;
      ghost var start := written;
      chunk, status := src.Read(COPY_BUFFER_SIZE);
      var offset, chunkErr := WriteChunk(disk, file, chunk, before, staging, from);
      assert src.stream[..start] + chunk[..offset] == src.stream[..start + offset];
      written := written + offset;
      if chunkErr.Some? { return written, chunkErr; }
      if status.Failed? { return written, Some(ReadFailed); }
    }
    err := None;
  }
  /**
   Publication: link, then unlink the staging name, and take the link back if that fails.
   An existing destination is never replaced.
   */
  method PublishFileNoReplace(disk: Disk, staging: string, dst: string, ghost before: View, ghost from: nat,
                              ghost whole: seq<Byte>)
      returns (err: Option<CopyError>)
    requires disk.Valid() && staging != dst && from <= |disk.history|
    requires staging in disk.names && disk.Now()[staging] == whole
    requires SameElsewhere(disk.Now(), before, {staging}) && SafeSince(disk.history, from, before, dst, staging, whole)
    modifies disk
    ensures disk.Valid() && old(disk.history) <= disk.history && disk.contents == old(disk.contents)
    ensures SafeSince(disk.history, from, before, dst, staging, whole)
    ensures err.None? ==> dst !in before && disk.Now() == old(disk.Now())[dst := whole] - {staging}
    ensures err.Some? && !err.value.rollbackFailed ==> disk.Now() == old(disk.Now())
    ensures err.Some? && err.value.rollbackFailed ==> dst !in before && disk.Now() == old(disk.Now())[dst := whole]
  {
    hide SafeSince, SameElsewhere, Atomic;
    ghost var staged := disk.Now();
    PublicationIsSafe(staged, before, staging, dst, whole);
    var linked := disk.Link(staging, dst);
    if linked.AlreadyThere? { return Some(CopyError(Exists, false)); }
    if linked.LinkFailed? { return Some(CopyError(DiskFailed, false)); }
    SafeGrows(old(disk.history), disk.history, from, before, dst, staging, whole);
    label linked_:
    var removed := disk.Remove(staging);
    if removed.Removed? {
      SafeGrows(old@linked_(disk.history), disk.history, from, before, dst, staging, whole);
      return None;
    }
    var undone := disk.Remove(dst);
    if undone.Removed? { SafeGrows(old@linked_(disk.history), disk.history, from, before, dst, staging, whole); }
    err := Some(CopyError(DiskFailed, undone.RemoveFailed?));
  }

  lemma SafeGrows(history: seq<View>, more: seq<View>, from: nat, before: View, dst: string, staging: string,
                  whole: seq<Byte>)
    requires |more| == |history| + 1 && more[..|history|] == history
    requires SafeSince(history, from, before, dst, staging, whole)
    requires SameElsewhere(more[|history|], before, {dst, staging}) && Atomic(more[|history|], before, dst, whole)
    ensures SafeSince(more, from, before, dst, staging, whole)
  {
    hide SameElsewhere, Atomic;
    forall k | from <= k < |more|
      ensures SameElsewhere(more[k], before, {dst, staging}) && Atomic(more[k], before, dst, whole)
    {
      if k < |history| { assert more[k] == history[k]; }
    }
  }

  /** Every state a publication can pass through, should the destination be free. */
  lemma PublicationIsSafe(staged: View, before: View, staging: string, dst: string, whole: seq<Byte>)
    requires SameElsewhere(staged, before, {staging}) && staging != dst
    ensures dst in before <==> dst in staged
    ensures SameElsewhere(staged, before, {dst, staging}) && Atomic(staged, before, dst, whole)
    ensures dst !in staged ==>
      && SameElsewhere(staged[dst := whole], before, {dst, staging}) && Atomic(staged[dst := whole], before, dst, whole)
      && SameElsewhere(staged[dst := whole] - {staging}, before, {dst, staging})
      && Atomic(staged[dst := whole] - {staging}, before, dst, whole)
      && staged[dst := whole] - {dst} == staged
    ensures SameElsewhere(staged - {staging}, before, {dst, staging}) && Atomic(staged - {staging}, before, dst, whole)
    ensures staging !in before ==> staged - {staging} == before
    ensures dst !in staged && staging !in before ==> staged[dst := whole] - {staging} == before[dst := whole]
    ensures dst !in before ==> before[dst := whole] - {dst} == before
    ensures dst !in before ==> SameElsewhere(before, before, {dst, staging}) && Atomic(before, before, dst, whole)
  {
  }

  datatype FileInfo = FileInfo(regular: bool, size: int)

  /** Copies the source into the staging name, flushes it and has it validated. */
  method Stage(disk: Disk, checks: Checks, file: nat, src: Reader, size: nat, maxBytes: int, ghost before: View,
               ghost staging: string, ghost from: nat)
      returns (written: nat, err: Option<Kind>)
    requires disk.Valid() && file in disk.contents && disk.contents[file] == [] && from <= |disk.history|
    requires forall name | name in disk.names && name != staging :: disk.names[name] != file
    requires SameElsewhere(disk.Now(), before, {staging}) && HiddenSince(disk.history, from, before, staging)
    modifies disk, checks
    ensures disk.Valid() && disk.names == old(disk.names) && from <= |disk.history|
    ensures SameElsewhere(disk.Now(), before, {staging}) && HiddenSince(disk.history, from, before, staging)
    ensures err.None? ==>
      && written == size == |src.stream| && disk.contents == old(disk.contents)[file := src.stream]
      && checks.Vetted(src.stream, |disk.history|)
  {
    hide SameElsewhere, HiddenSince;
    // One byte more than expected is let through, so that growth of the source shows.
    var limited := new Reader(if size + 1 < |src.stream| then src.stream[..size + 1] else src.stream);
    written, err := CopyData(disk, file, limited, before, staging, from);
    if err.Some? { return; }
    if written != size {
      return written, Some(if maxBytes < written then TooLarge else SourceChanged);
    }
    assert limited.stream[..written] == src.stream;
    if * { return written, Some(Cancelled); }
    if * { return written, Some(DiskFailed); }
    var flushed := checks.Flush(disk, file);
    if !flushed { return written, Some(DiskFailed); }
    var approved := checks.Approve(disk, file);
    if !approved { return written, Some(Rejected); }
    if * { return written, Some(Cancelled); }
  }

  /**
   The whole import. In every state on the way an existing destination keeps its bytes and a
   new one is absent or holds exactly what the source yields. Success leaves exactly the new
   file; failure leaves the destination as it was unless the error says that undoing the
   publication failed, and even then it holds exactly those bytes. No state shows the new file
   before these very bytes were flushed and approved.
   */
  method CopyOpenedFileAtomic(disk: Disk, checks: Checks, dst: string, staging: string, src: Reader, info: FileInfo,
                              maxBytes: int)
      returns (written: nat, err: Option<CopyError>)
    requires disk.Valid() && staging != dst
    modifies disk, checks
    ensures disk.Valid() && |old(disk.history)| <= |disk.history|
    ensures forall k | |old(disk.history)| <= k < |disk.history| && dst in disk.history[k] && dst !in old(disk.Now()) ::
      checks.Vetted(src.stream, k)
    ensures SafeSince(disk.history, |old(disk.history)|, old(disk.Now()), dst, staging, src.stream)
    ensures err.None? ==>
      && dst !in old(disk.Now()) && disk.Now() == old(disk.Now())[dst := src.stream]
      && info.regular && 0 < written == |src.stream| == info.size <= maxBytes
    ensures err.Some? ==> written == 0
    ensures err.Some? && !err.value.rollbackFailed ==> Undone(disk.Now(), old(disk.Now()), staging)
    ensures err.Some? && err.value.rollbackFailed ==>
      && dst !in old(disk.Now()) && dst in disk.Now() && disk.Now()[dst] == src.stream
      && |src.stream| == info.size <= maxBytes
  {
    ghost var before, from := disk.Now(), |disk.history|;
    var refused := CheckSource(info, maxBytes);
    if refused.Some? { return 0, Some(CopyError(refused.value, false)); }
    var file := disk.CreateTemp(staging);
    if file.None? { return 0, Some(CopyError(DiskFailed, false)); }
    assert staging !in before;
    var staged;
    written, staged := Stage(disk, checks, file.value, src, info.size, maxBytes, before, staging, from);
    hide SafeSince, HiddenSince, SameElsewhere;
    HiddenIsSafe(disk.history, from, before, dst, staging, src.stream);
    HiddenIsAbsent(disk.history, from, before, dst, staging);
    if staged.Some? {
      CleanUp(disk, staging, dst, before, from, src.stream);
      return 0, Some(CopyError(staged.value, false));
    }
    ghost var hidden := disk.history;
    err := Finish(disk, staging, dst, before, from, src.stream);
    if err.Some? { written := 0; }
    VettedSince(checks, src.stream, hidden, disk.history, from, before, dst);
  }

  lemma HiddenIsAbsent(history: seq<View>, from: nat, before: View, dst: string, staging: string)
    requires HiddenSince(history, from, before, staging) && dst != staging
    ensures dst !in before ==> forall k | from <= k < |history| :: dst !in history[k]
  {
  }

  /** Vetted when the file was still hidden means vetted whenever it can be seen. */
  lemma VettedSince(checks: Checks, bytes: seq<Byte>, hidden: seq<View>, history: seq<View>, from: nat, before: View,
                    dst: string)
    requires hidden <= history && checks.Vetted(bytes, |hidden|)
    requires dst !in before ==> forall k | from <= k < |hidden| :: dst !in hidden[k]
    ensures forall k | from <= k < |history| && dst in history[k] && dst !in before :: checks.Vetted(bytes, k)
  {
    var n: nat, m: nat :| n <= |hidden| && (bytes, n) in checks.flushed && m <= |hidden| && (bytes, m) in checks.approved;
    assert forall k | 0 <= k < |hidden| :: history[k] == hidden[k];
    forall k | from <= k < |history| && dst in history[k] && dst !in before ensures checks.Vetted(bytes, k) {
      assert n <= k && m <= k;
    }
  }

  method CheckSource(info: FileInfo, maxBytes: int) returns (err: Option<Kind>)
    ensures err.None? ==> info.regular && 0 < info.size <= maxBytes
  {
    if * { return Some(Cancelled); }
    if !info.regular || info.size <= 0 { return Some(NotRegular); }
    if maxBytes <= 0 { return Some(BadLimit); }
    if maxBytes < info.size { return Some(TooLarge); }
    if * { return Some(NotAdmitted); }
    err := None;
  }

  /** What a failed import leaves behind. */
  ghost predicate Undone(view: View, before: View, staging: string) {
    view == before || (staging in view && view - {staging} == before)
  }

  /** Removes the staging name, whether that works or not. */
  method CleanUp(disk: Disk, staging: string, dst: string, ghost before: View, ghost from: nat, ghost whole: seq<Byte>)
    requires disk.Valid() && from <= |disk.history| && staging != dst && staging !in before && staging in disk.names
    requires SameElsewhere(disk.Now(), before, {staging}) && SafeSince(disk.history, from, before, dst, staging, whole)
    requires dst !in before ==> forall k | from <= k < |disk.history| :: dst !in disk.history[k]
    modifies disk
    ensures disk.Valid() && from <= |disk.history| && Undone(disk.Now(), before, staging)
    ensures dst !in before ==> forall k | from <= k < |disk.history| :: dst !in disk.history[k]
    ensures SafeSince(disk.history, from, before, dst, staging, whole)
  {
    hide SafeSince, SameElsewhere, Atomic;
    PublicationIsSafe(disk.Now(), before, staging, dst, whole);
    var removed := disk.Remove(staging);
    if removed.Removed? { SafeGrows(old(disk.history), disk.history, from, before, dst, staging, whole); }
  }

  /** Publishes the staged file and makes the directories durable, or takes everything back. */
  method Finish(disk: Disk, staging: string, dst: string, ghost before: View, ghost from: nat, ghost whole: seq<Byte>)
      returns (err: Option<CopyError>)
    requires disk.Valid() && from <= |disk.history| && staging != dst && staging !in before
    requires staging in disk.names && disk.Now()[staging] == whole
    requires SameElsewhere(disk.Now(), before, {staging}) && SafeSince(disk.history, from, before, dst, staging, whole)
    modifies disk
    ensures disk.Valid() && old(disk.history) <= disk.history
    ensures SafeSince(disk.history, from, before, dst, staging, whole)
    ensures err.None? ==> dst !in before && disk.Now() == before[dst := whole]
    ensures err.Some? && !err.value.rollbackFailed ==> Undone(disk.Now(), before, staging)
    ensures err.Some? && err.value.rollbackFailed ==> dst !in before && dst in disk.Now() && disk.Now()[dst] == whole
  {
    hide SafeSince, SameElsewhere, Atomic;
    ghost var staged := disk.Now();
    PublicationIsSafe(staged, before, staging, dst, whole);
    err := PublishFileNoReplace(disk, staging, dst, before, from, whole);
    label published:
    if err.Some? {
      var removed := disk.Remove(staging);
      if removed.Removed? { SafeGrows(old@published(disk.history), disk.history, from, before, dst, staging, whole); }
      return;
    }
    if * {
      var undone := disk.Remove(dst);
      if undone.Removed? { SafeGrows(old@published(disk.history), disk.history, from, before, dst, staging, whole); }
      return Some(CopyError(SyncFailed, undone.RemoveFailed?));
    }
  }
}
