/** The resumable sidecar (internal/sidecar/sidecar.go) over an abstract disk. Hashes, timestamps and the JSON text
    are not modelled; a file on disk either holds a whole state or the torn beginning of one. */
module Sidecar {
  import opened Bitmap
  import opened Basics

  const VERSION := 1

  datatype Item = Item(
    outputOffset: int,
    length: nat,
    splitSize: nat,
    bitmap: seq<bv8>,
    complete: bool)

  datatype SideState = SideState(version: int, items: seq<Item>)

  datatype Text = Torn | Whole(state: SideState)

  datatype Files = Files(sidecar: Option<Text>, tmp: Option<Text>)

  function ChunksOf(item: Item): nat
    requires item.splitSize >= 1
  {
    (item.length + item.splitSize - 1) / item.splitSize
  }

  predicate ValidState(st: SideState) {
    forall i :: 0 <= i < |st.items| ==> st.items[i].splitSize >= 1
  }

  /** The in-memory half of MarkComplete: None when an index is out of range. */
  function Mark(st: SideState, itemIndex: int, chunkIndex: nat): Option<SideState>
    requires ValidState(st)
  {
    if itemIndex < 0 || itemIndex >= |st.items| then None
    else
      var item := st.items[itemIndex];
      var flags := Decoded(item.bitmap, ChunksOf(item));
      if chunkIndex >= |flags| then None
      else
        var marked := flags[chunkIndex := true];
        Some(st.(items := st.items[itemIndex :=
          item.(bitmap := Encoded(marked), complete := forall i :: 0 <= i < |marked| ==> marked[i])]))
  }

  /** `os.WriteFile` of the temporary file, which may stop half way. */
  function WriteTmp(d: Files, st: SideState, ok: bool): Files {
    d.(tmp := Some(if ok then Whole(st) else Torn))
  }

  /** `os.Rename` over the sidecar; when it fails the temporary file is removed. */
  function RenameTmp(d: Files, ok: bool): Files {
    if ok then Files(d.tmp, None) else d.(tmp := None)
  }

  /** The outcomes of `os.Remove` on the sidecar. */
  datatype Removal = Removed | Absent | Stuck

  class Directory {
    var files: Files

    constructor ()
      ensures files == Files(None, None)
    {
      files := Files(None, None);
    }
  }

  class Manager {
    const disk: Directory
    var state: Option<SideState>

    constructor (disk: Directory)
      ensures this.disk == disk && state == None
    {
      this.disk := disk;
      state := None;
    }

    method Exists() returns (r: bool)
      ensures r <==> disk.files.sidecar.Some?
    {
      r := disk.files.sidecar.Some?;
    }

    method WriteLocked(st: SideState, writeOK: bool, renameOK: bool) returns (ok: bool)
      modifies disk
      ensures ok == (writeOK && renameOK)
      ensures ok ==> disk.files == Files(Some(Whole(st)), None)
      ensures !ok ==> disk.files == Files(old(disk.files.sidecar), if writeOK then None else Some(Torn))
    {
      disk.files := WriteTmp(disk.files, st, writeOK);
      if !writeOK { return false; }
      disk.files := RenameTmp(disk.files, renameOK);
      return renameOK;
    }

    method Create(items: seq<Item>, writeOK: bool, renameOK: bool) returns (ok: bool)
      modifies this, disk
      ensures ok == (writeOK && renameOK)
      ensures ok ==> state == Some(SideState(VERSION, items)) && disk.files.sidecar == Some(Whole(SideState(VERSION, items)))
      ensures !ok ==> state == old(state) && disk.files.sidecar == old(disk.files.sidecar)
    {
      var st := SideState(VERSION, items);
      ok := WriteLocked(st, writeOK, renameOK);
      if ok { state := Some(st); }
    }

    method Load() returns (r: Option<SideState>)
      modifies this
      ensures r == Loaded(disk.files)
      ensures r.Some? ==> disk.files.sidecar == Some(Whole(r.value)) && r.value.version == 1
      ensures r.None? ==> forall st :: disk.files.sidecar == Some(Whole(st)) ==> st.version != 1
      ensures state == if r.Some? then r else old(state)
    {
      match disk.files.sidecar
      case None => return None;
      case Some(text) =>
        match text
        case Torn => return None;
        case Whole(st) =>
          if st.version != VERSION { return None; }
          state := Some(st);
          return Some(st);
    }

    method MarkComplete(itemIndex: int, chunkIndex: nat, writeOK: bool, renameOK: bool) returns (ok: bool)
      requires state.Some? ==> ValidState(state.value)
      modifies this, disk
      ensures old(state).None? ==> ok && state == None && disk.files == old(disk.files)
      ensures old(state).Some? ==>
                var marked := Mark(old(state).value, itemIndex, chunkIndex);
                && (marked.None? ==> !ok && state == old(state) && disk.files == old(disk.files))
                && (marked.Some? ==>
                      && state == marked     // kept even when the checkpoint fails
                      && ok == (writeOK && renameOK)
                      && disk.files.sidecar == if ok then Some(Whole(marked.value)) else old(disk.files.sidecar))
    {
      match state
      case None => return true;
      case Some(st) =>
        if itemIndex < 0 || itemIndex >= |st.items| { return false; }
        var item := st.items[itemIndex];
        var chunkCount := (item.length + item.splitSize - 1) / item.splitSize;
        var flags := DecodeBitmap(item.bitmap, chunkCount);
        if chunkIndex >= |flags| { return false; }
        flags := flags[chunkIndex := true];
        var bitmap := EncodeBitmap(flags);
        var allDone := true;
        var i := 0;
        while i < |flags| && allDone
          invariant 0 <= i <= |flags|
          invariant allDone <==> forall j :: 0 <= j < i ==> flags[j]
        {
          allDone := flags[i];
          i := i + 1;
        }
        assert allDone <==> forall j :: 0 <= j < |flags| ==> flags[j];
        var st' := st.(items := st.items[itemIndex := item.(bitmap := bitmap, complete := allDone)]);
        state := Some(st');
        ok := WriteLocked(st', writeOK, renameOK);
    }

    method Remove(removeOK: bool) returns (r: Removal)
      modifies disk
      ensures r == if old(disk.files.sidecar).None? then Absent else if removeOK then Removed else Stuck
      ensures disk.files == if r == Removed then old(disk.files).(sidecar := None) else old(disk.files)
    {
      if disk.files.sidecar.None? { return Absent; }
      if !removeOK { return Stuck; }
      disk.files := disk.files.(sidecar := None);
      return Removed;
    }
  }

  /** What Load accepts: a whole state of the current version. */
  function Loaded(d: Files): Option<SideState> {
    match d.sidecar
    case Some(Whole(st)) => if st.version == VERSION then Some(st) else None
    case _ => None
  }

  // ----- the bitmap as a set

  /** A chunk can be marked if it has a flag: a stored bitmap may have more flags than there are chunks. */
  lemma MarkAccepted(st: SideState, k: int, idx: nat)
    requires ValidState(st)
    ensures Mark(st, k, idx).Some? <==>
            0 <= k < |st.items| && (idx < ChunksOf(st.items[k]) || idx < 8 * |st.items[k].bitmap|)
  {
    if 0 <= k < |st.items| {
      assert |Decoded(st.items[k].bitmap, ChunksOf(st.items[k]))| == Max(8 * |st.items[k].bitmap|, ChunksOf(st.items[k]));
    }
  }

  /** Marking is insertion into the set of marked chunks, whatever the packing; nothing else in the state changes. */
  lemma MarkIsInsertion(st: SideState, k: nat, idx: nat)
    requires ValidState(st) && k < |st.items| && Mark(st, k, idx).Some?
    ensures var t := Mark(st, k, idx).value;
            && ValidState(t) && t.version == st.version && |t.items| == |st.items|
            && (forall j :: 0 <= j < |st.items| && j != k ==> t.items[j] == st.items[j])
            && t.items[k] == st.items[k].(bitmap := t.items[k].bitmap, complete := t.items[k].complete)
            && Marked(t.items[k].bitmap) == Marked(st.items[k].bitmap) + {idx}
            && |t.items[k].bitmap| == (Max(8 * |st.items[k].bitmap|, ChunksOf(st.items[k])) + 7) / 8
  {
    var flags := Decoded(st.items[k].bitmap, ChunksOf(st.items[k]));
    EncodedPacks(flags[idx := true]);
    MarkInserts(st.items[k].bitmap, ChunksOf(st.items[k]), idx, Encoded(flags[idx := true]));
  }

  /** A run of calls, through as many decodings and encodings. */
  function MarkAll(st: SideState, k: nat, idxs: seq<nat>): Option<SideState>
    requires ValidState(st) && k < |st.items|
    decreases |idxs|
  {
    if idxs == [] then Some(st)
    else
      match Mark(st, k, idxs[0])
      case None => None
      case Some(t) => MarkIsInsertion(st, k, idxs[0]); MarkAll(t, k, idxs[1..])
  }

  function Elements(idxs: seq<nat>): set<nat> {
    set x | x in idxs
  }

  lemma {:induction false} MarkAllIsUnion(st: SideState, k: nat, idxs: seq<nat>)
    requires ValidState(st) && k < |st.items|
    requires forall x :: x in idxs ==> x < ChunksOf(st.items[k])
    ensures MarkAll(st, k, idxs).Some?
    ensures var t := MarkAll(st, k, idxs).value;
            k < |t.items| && Marked(t.items[k].bitmap) == Marked(st.items[k].bitmap) + Elements(idxs)
    decreases |idxs|
  {
    if idxs != [] {
      assert idxs[0] in idxs && forall x :: x in idxs[1..] ==> x in idxs;
      MarkIsInsertion(st, k, idxs[0]);
      MarkAllIsUnion(Mark(st, k, idxs[0]).value, k, idxs[1..]);
      assert Elements(idxs) == {idxs[0]} + Elements(idxs[1..]);
    }
  }

  lemma MarkResult(st: SideState, k: nat, idx: nat)
    requires ValidState(st) && k < |st.items| && Mark(st, k, idx).Some?
    ensures var flags, t := Decoded(st.items[k].bitmap, ChunksOf(st.items[k])), Mark(st, k, idx).value;
            && idx < |flags| && k < |t.items| && t.items[k].bitmap == Encoded(flags[idx := true])
            && (t.items[k].complete <==> forall i :: 0 <= i < |flags| ==> i == idx || flags[i])
  {
    var flags := Decoded(st.items[k].bitmap, ChunksOf(st.items[k]));
    assert forall i :: 0 <= i < |flags| ==> flags[idx := true][i] == (i == idx || flags[i]);
    hide Decoded, Encoded, ChunksOf;
  }

  lemma AllFlags(bitmap: seq<bv8>, flags: seq<bool>)
    requires Packs(bitmap, flags)
    ensures forall i: nat :: i < |flags| ==> (i in Marked(bitmap) <==> flags[i])
  {
  }

  /** `Complete` is set exactly when every flag of the padded bitmap is. With only chunk indices ever marked this
      means: every chunk is marked and the bitmap has no padding. So Complete implies that all chunks are marked,
      while padding bits keep it false for a stored bitmap whose chunk count is not a multiple of eight. */
  lemma CompleteExactly(st: SideState, k: nat, idx: nat)
    requires ValidState(st) && k < |st.items| && Mark(st, k, idx).Some?
    requires idx < ChunksOf(st.items[k])
    requires forall i :: i in Marked(st.items[k].bitmap) ==> i < ChunksOf(st.items[k])
    ensures var item, item' := st.items[k], Mark(st, k, idx).value.items[k];
            item'.complete <==>
              (forall i: nat :: i < ChunksOf(item) ==> i in Marked(item'.bitmap)) && 8 * |item.bitmap| <= ChunksOf(item)
  {
    MarkIsInsertion(st, k, idx);
    MarkResult(st, k, idx);
    var item, item' := st.items[k], Mark(st, k, idx).value.items[k];
    hide Mark, ValidState, ChunksOf;
    var flags := Decoded(item.bitmap, ChunksOf(item))[idx := true];
    EncodedPacks(flags);
    hide Encoded;
    AllFlags(item'.bitmap, flags);
    if 8 * |item.bitmap| > ChunksOf(item) {
      var last := 8 * |item.bitmap| - 1;
      assert last !in Marked(item'.bitmap);
    }
  }
}
