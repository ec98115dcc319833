/**
 * The directory scans of the `prevView` and `nextView` handlers: given the
 * entry names of a directory in enumeration order and the name of the file
 * being viewed, find the name just before it or just after it.
 */
module Cursor {
  import opened Wrappers

  /** `name` occurs at index `i` and nowhere before it. */
  predicate FirstAt(entries: seq<string>, name: string, i: int)
  {
    0 <= i < |entries| && entries[i] == name && name !in entries[..i]
  }

  /** The index of the first occurrence of `name`, the one both scans stop at. */
  function IndexOf(entries: seq<string>, name: string): (r: Option<nat>)
    ensures r.None? <==> name !in entries
    ensures r.Some? ==> FirstAt(entries, name, r.value)
  {
    if |entries| == 0 then None
    else if entries[0] == name then Some(0)
    else
      match IndexOf(entries[1..], name)
      case None => None
      case Some(k) =>
        assert entries[..k + 1] == [entries[0]] + entries[1..][..k];
        Some(k + 1)
  }

  /** A first occurrence is unique, so it is the one IndexOf finds. */
  lemma FirstAtIndexOf(entries: seq<string>, name: string, i: int)
    requires FirstAt(entries, name, i)
    ensures IndexOf(entries, name) == Some(i)
  {
    assert entries[i] == name;
  }

  /** The name `prevView` joins to the directory: the entry before the first
      match, or the empty name when the match is the first entry; None when
      the scan ends without a match. */
  function PrevName(entries: seq<string>, name: string): Option<string>
  {
    match IndexOf(entries, name)
    case None => None
    case Some(i) => Some(if i == 0 then "" else entries[i - 1])
  }

  /** The name `nextView` joins to the directory: the entry after the first
      match; None when there is no match or the match is the last entry. */
  function NextName(entries: seq<string>, name: string): Option<string>
  {
    match IndexOf(entries, name)
    case None => None
    case Some(i) => if i + 1 < |entries| then Some(entries[i + 1]) else None
  }

  /** What `prevView` opens, stated on the first occurrence. */
  lemma PrevNameAt(entries: seq<string>, name: string, i: int)
    requires FirstAt(entries, name, i)
    ensures PrevName(entries, name) == Some(if i == 0 then "" else entries[i - 1])
  {
    FirstAtIndexOf(entries, name, i);
  }

  /** What `nextView` opens, stated on the first occurrence. */
  lemma NextNameAt(entries: seq<string>, name: string, i: int)
    requires FirstAt(entries, name, i)
    ensures NextName(entries, name) == if i + 1 < |entries| then Some(entries[i + 1]) else None
  {
    FirstAtIndexOf(entries, name, i);
  }

  /** An absent name makes both scans run to the end without a target. */
  lemma AbsentName(entries: seq<string>, name: string)
    requires name !in entries
    ensures PrevName(entries, name) == None && NextName(entries, name) == None
  {
  }

  /** The `prevView` loop: `previewFile` starts as the empty name and
      trails the scan by one entry; the loop stops at the first match. */
  method ScanPrevious(entries: seq<string>, viewFile: string) returns (found: Option<string>)
    ensures found == PrevName(entries, viewFile)
  {
    var previewFile := "";
    var i := 0;
    while i < |entries|
      invariant 0 <= i <= |entries|
      invariant viewFile !in entries[..i]
      invariant previewFile == if i == 0 then "" else entries[i - 1]
    {
      if viewFile == entries[i] {
        PrevNameAt(entries, viewFile, i);
        return Some(previewFile);
      }
      previewFile := entries[i];
      i := i + 1;
    }
    assert entries[..i] == entries;
    return None;
  }

  /** The `nextView` loop: the flag `nextFile` is raised at the first match
      and the entry read right after it is the target. */
  method ScanNext(entries: seq<string>, viewFile: string) returns (found: Option<string>)
    ensures found == NextName(entries, viewFile)
  {
    var nextFile := false;
    var i := 0;
    while i < |entries|
      invariant 0 <= i <= |entries|
      invariant !nextFile ==> viewFile !in entries[..i]
      invariant nextFile ==> FirstAt(entries, viewFile, i - 1)
    {
      if nextFile {
        NextNameAt(entries, viewFile, i - 1);
        return Some(entries[i]);
      }
      if viewFile == entries[i] {
        nextFile := true;
      }
      i := i + 1;
    }
    if nextFile {
      NextNameAt(entries, viewFile, i - 1);
    } else {
      assert entries[..i] == entries;
    }
    return None;
  }

  /** The entry names of a real directory are pairwise distinct. */
  predicate Distinct(entries: seq<string>)
  {
    forall i, j :: 0 <= i < j < |entries| ==> entries[i] != entries[j]
  }

  /** In a listing without repeated names every entry is its own first occurrence. */
  lemma DistinctFirstAt(entries: seq<string>, i: int)
    requires Distinct(entries) && 0 <= i < |entries|
    ensures FirstAt(entries, entries[i], i)
  {
    assert forall j :: 0 <= j < i ==> entries[..i][j] != entries[i];
  }

  /** Going next and then previous comes back to the starting entry. */
  lemma NextThenPrev(entries: seq<string>, a: string, b: string)
    requires Distinct(entries)
    requires NextName(entries, a) == Some(b)
    ensures PrevName(entries, b) == Some(a)
  {
    var i := IndexOf(entries, a).value;
    DistinctFirstAt(entries, i + 1);
    PrevNameAt(entries, b, i + 1);
  }

  /** Going previous lands on the empty name exactly from the first entry;
      from any other entry, going next afterwards comes back. */
  lemma PrevThenNext(entries: seq<string>, a: string, b: string)
    requires Distinct(entries) && "" !in entries
    requires PrevName(entries, b) == Some(a)
    ensures a == "" <==> entries[0] == b
    ensures a != "" ==> NextName(entries, a) == Some(b)
  {
    var i := IndexOf(entries, b).value;
    if i > 0 {
      assert entries[i - 1] in entries;
      DistinctFirstAt(entries, i - 1);
      NextNameAt(entries, a, i - 1);
    }
  }
}
