/**
 * The window created by `createWindow`: the state its handlers share (the
 * persistent store and the messages sent to the renderer) and the handlers
 * that change it — opening a file, the startup choice, a dropped file,
 * previous/next navigation, and saving the window bounds on close.
 */
module Viewer {
  import opened Wrappers
  import opened JsValues
  import opened Paths
  import opened Cursor

  /** What the filesystem answers, fixed for one command: `fs.stat`
      succeeds on the paths in `sizes` and reports that size in bytes, and
      `fs.opendir` succeeds on the directories in `listings` and yields
      those entry names in that order. */
  datatype FileSystem = FileSystem(sizes: map<string, nat>, listings: map<string, seq<string>>)

  /** The `viewImage` message sent to the renderer. The size is the byte
      count the label is formatted from. */
  datatype ViewImage = ViewImage(path: string, size: nat)

  /** The window rectangle returned by `getBounds()`. */
  datatype Bounds = Bounds(x: int, y: int, width: int, height: int)

  /** The geometry handed to the window constructor, as read from the store. */
  datatype Placement = Placement(x: Value, y: Value, width: Value, height: Value)

  /** Why a navigation handler rejects: `path.dirname` of a value that is
      not a string throws, and so does `fs.opendir` of a directory that
      cannot be read. */
  datatype Failure = NotAPath | OpendirFailed

  /** How a handler ends: it returns, or its promise rejects. */
  datatype Outcome = Done | Rejected(failure: Failure)

  /** What a navigation handler decides to do. */
  datatype Step = Fail(failure: Failure) | Stay | Open(path: string)

  /** The messages `changeViewFile(path)` sends: one when the stat succeeds,
      none when it throws (a value that is not a string cannot be stat'ed). */
  function Shown(fs: FileSystem, path: Value): (r: seq<ViewImage>)
    ensures |r| <= 1
    ensures r != [] <==> path.Str? && path.s in fs.sizes
    ensures r != [] ==> r[0].path == path.s && r[0].size == fs.sizes[path.s]
  {
    if path.Str? && path.s in fs.sizes then [ViewImage(path.s, fs.sizes[path.s])] else []
  }

  /** The record the close handler writes. */
  function BoundsRecord(b: Bounds): Store
  {
    map[XKey := Num(b.x), YKey := Num(b.y), WidthKey := Num(b.width), HeightKey := Num(b.height)]
  }

  /** The geometry the window is created with. */
  function ReadPlacement(store: Store): Placement
  {
    Placement(Get(store, XKey), Get(store, YKey), Get(store, WidthKey), Get(store, HeightKey))
  }

  /** Bounds saved on close are the bounds the next window is created with,
      and saving them leaves the last viewed file as it was. */
  lemma BoundsRoundTrip(store: Store, b: Bounds)
    ensures ReadPlacement(Merge(store, BoundsRecord(b))) == Placement(Num(b.x), Num(b.y), Num(b.width), Num(b.height))
    ensures Get(Merge(store, BoundsRecord(b)), ViewingFileKey) == Get(store, ViewingFileKey)
  {
  }

  /** The file opened once the page has loaded: the default image unless
      it is null or undefined, else the stored `viewingFile`; nothing when
      the chosen value is falsy. */
  function StartupFile(defaultImage: Value, store: Store): (r: Option<Value>)
    ensures r.Some? ==> Truthy(r.value)
    ensures !Nullish(defaultImage) ==> r == (if Truthy(defaultImage) then Some(defaultImage) else None)
    ensures Nullish(defaultImage) ==>
      r == (if Truthy(Get(store, ViewingFileKey)) then Some(Get(store, ViewingFileKey)) else None)
  {
    var viewingFile := if Nullish(defaultImage) then Get(store, ViewingFileKey) else defaultImage;
    if Truthy(viewingFile) then Some(viewingFile) else None
  }

  /** The decision of `prevView` for a given store and filesystem. */
  function PrevStep(store: Store, fs: FileSystem): (r: Step)
    ensures r == Fail(NotAPath) <==> !Get(store, ViewingFileKey).Str?
    ensures r == Fail(OpendirFailed) <==>
      Get(store, ViewingFileKey).Str? && Dirname(Get(store, ViewingFileKey).s) !in fs.listings
    ensures r.Open? ==>
      Basename(Get(store, ViewingFileKey).s) in fs.listings[Dirname(Get(store, ViewingFileKey).s)]
  {
    var viewingFile := Get(store, ViewingFileKey);
    if !viewingFile.Str? then Fail(NotAPath)
    else
      var dirname := Dirname(viewingFile.s);
      if dirname !in fs.listings then Fail(OpendirFailed)
      else
        match PrevName(fs.listings[dirname], Basename(viewingFile.s))
        case None => Stay
        case Some(previewFile) => Open(Join(dirname, previewFile))
  }

  /** The decision of `nextView` for a given store and filesystem. */
  function NextStep(store: Store, fs: FileSystem): (r: Step)
    ensures r == Fail(NotAPath) <==> !Get(store, ViewingFileKey).Str?
    ensures r == Fail(OpendirFailed) <==>
      Get(store, ViewingFileKey).Str? && Dirname(Get(store, ViewingFileKey).s) !in fs.listings
    ensures r.Open? ==>
      Basename(Get(store, ViewingFileKey).s) in fs.listings[Dirname(Get(store, ViewingFileKey).s)]
  {
    var viewingFile := Get(store, ViewingFileKey);
    if !viewingFile.Str? then Fail(NotAPath)
    else
      var dirname := Dirname(viewingFile.s);
      if dirname !in fs.listings then Fail(OpendirFailed)
      else
        match NextName(fs.listings[dirname], Basename(viewingFile.s))
        case None => Stay
        case Some(name) => Open(Join(dirname, name))
  }

  /** `prevView` when the viewed file's name first occurs at index `i` of
      its directory: it opens the entry before it, and from the first entry
      it opens the directory itself. */
  lemma PrevStepAt(store: Store, fs: FileSystem, i: int)
    requires Get(store, ViewingFileKey).Str?
    requires Dirname(Get(store, ViewingFileKey).s) in fs.listings
    requires FirstAt(fs.listings[Dirname(Get(store, ViewingFileKey).s)], Basename(Get(store, ViewingFileKey).s), i)
    ensures var dirname := Dirname(Get(store, ViewingFileKey).s);
      PrevStep(store, fs) == Open(if i == 0 then dirname else Join(dirname, fs.listings[dirname][i - 1]))
  {
    var p := Get(store, ViewingFileKey).s;
    PrevNameAt(fs.listings[Dirname(p)], Basename(p), i);
  }

  /** `nextView` when the viewed file's name first occurs at index `i` of
      its directory: it opens the entry after it, and from the last entry
      it stays. */
  lemma NextStepAt(store: Store, fs: FileSystem, i: int)
    requires Get(store, ViewingFileKey).Str?
    requires Dirname(Get(store, ViewingFileKey).s) in fs.listings
    requires FirstAt(fs.listings[Dirname(Get(store, ViewingFileKey).s)], Basename(Get(store, ViewingFileKey).s), i)
    ensures var dirname := Dirname(Get(store, ViewingFileKey).s);
      var entries := fs.listings[dirname];
      NextStep(store, fs) == if i + 1 < |entries| then Open(Join(dirname, entries[i + 1])) else Stay
  {
    var p := Get(store, ViewingFileKey).s;
    NextNameAt(fs.listings[Dirname(p)], Basename(p), i);
  }

  /** When the viewed file's name is not in its directory listing (it was
      renamed or deleted), neither navigation handler opens anything. */
  lemma StayWhenAbsent(store: Store, fs: FileSystem)
    requires Get(store, ViewingFileKey).Str?
    requires Dirname(Get(store, ViewingFileKey).s) in fs.listings
    requires Basename(Get(store, ViewingFileKey).s) !in fs.listings[Dirname(Get(store, ViewingFileKey).s)]
    ensures PrevStep(store, fs) == Stay && NextStep(store, fs) == Stay
  {
    var p := Get(store, ViewingFileKey).s;
    AbsentName(fs.listings[Dirname(p)], Basename(p));
  }

  /** The window's shared state: the persistent store and the `viewImage`
      messages sent to the renderer so far. */
  class Window {
    var store: Store
    var sent: seq<ViewImage>
    const placement: Placement

    /** `createWindow`: the window takes its geometry from the store. */
    constructor (persisted: Store)
      ensures store == persisted && sent == []
      ensures placement == ReadPlacement(persisted)
    {
      store := persisted;
      sent := [];
      placement := ReadPlacement(persisted);
    }

    /** `changeViewFile(path)`: records the path as the viewed file first,
        then stats it; the record stays even when the stat fails, and only
        a successful stat sends the path to the renderer. */
    method ChangeViewFile(path: Value, fs: FileSystem)
      modifies this
      ensures store == old(store)[ViewingFileKey := path]
      ensures sent == old(sent) + Shown(fs, path)
    {
      store := Merge(store, map[ViewingFileKey := path]);
      if path.Str? && path.s in fs.sizes {
        sent := sent + [ViewImage(path.s, fs.sizes[path.s])];
      }
    }

    /** The `did-finish-load` handler. */
    method DidFinishLoad(defaultImage: Value, fs: FileSystem)
      modifies this
      ensures match StartupFile(defaultImage, old(store))
        case None => store == old(store) && sent == old(sent)
        case Some(path) =>
          store == old(store)[ViewingFileKey := path] && sent == old(sent) + Shown(fs, path)
    {
      var viewingFile := if Nullish(defaultImage) then Get(store, ViewingFileKey) else defaultImage;
      if Truthy(viewingFile) {
        ChangeViewFile(viewingFile, fs);
      }
    }

    /** The `dropFile` handler: a falsy path is ignored. */
    method DropFile(dropFilePath: Value, fs: FileSystem)
      modifies this
      ensures !Truthy(dropFilePath) ==> store == old(store) && sent == old(sent)
      ensures Truthy(dropFilePath) ==>
        store == old(store)[ViewingFileKey := dropFilePath] && sent == old(sent) + Shown(fs, dropFilePath)
    {
      if Truthy(dropFilePath) {
        ChangeViewFile(dropFilePath, fs);
      }
    }

    /** The `prevView` handler. */
    method PrevView(fs: FileSystem) returns (outcome: Outcome)
      modifies this
      ensures match PrevStep(old(store), fs)
        case Fail(f) => outcome == Rejected(f) && store == old(store) && sent == old(sent)
        case Stay => outcome == Done && store == old(store) && sent == old(sent)
        case Open(p) =>
          outcome == Done && store == old(store)[ViewingFileKey := Str(p)]
          && sent == old(sent) + Shown(fs, Str(p))
    {
      var viewingFile := Get(store, ViewingFileKey);
      if !viewingFile.Str? {
        return Rejected(NotAPath);
      }
      var dirname := Dirname(viewingFile.s);
      var viewFile := Basename(viewingFile.s);
      if dirname !in fs.listings {
        return Rejected(OpendirFailed);
      }
      var previewFile := ScanPrevious(fs.listings[dirname], viewFile);
      if previewFile.Some? {
        ChangeViewFile(Str(Join(dirname, previewFile.value)), fs);
      }
      return Done;
    }

    /** The `nextView` handler. */
    method NextView(fs: FileSystem) returns (outcome: Outcome)
      modifies this
      ensures match NextStep(old(store), fs)
        case Fail(f) => outcome == Rejected(f) && store == old(store) && sent == old(sent)
        case Stay => outcome == Done && store == old(store) && sent == old(sent)
        case Open(p) =>
          outcome == Done && store == old(store)[ViewingFileKey := Str(p)]
          && sent == old(sent) + Shown(fs, Str(p))
    {
      var viewingFile := Get(store, ViewingFileKey);
      if !viewingFile.Str? {
        return Rejected(NotAPath);
      }
      var dirname := Dirname(viewingFile.s);
      var viewFile := Basename(viewingFile.s);
      if dirname !in fs.listings {
        return Rejected(OpendirFailed);
      }
      var nextFile := ScanNext(fs.listings[dirname], viewFile);
      if nextFile.Some? {
        ChangeViewFile(Str(Join(dirname, nextFile.value)), fs);
      }
      return Done;
    }

    /** The `close` handler: saves the window bounds. */
    method Close(b: Bounds)
      modifies this
      ensures store == Merge(old(store), BoundsRecord(b))
      ensures ReadPlacement(store) == Placement(Num(b.x), Num(b.y), Num(b.width), Num(b.height))
      ensures Get(store, ViewingFileKey) == Get(old(store), ViewingFileKey)
      ensures sent == old(sent)
    {
      store := Merge(store, BoundsRecord(b));
    }
  }

  /** The directory `/d` holding `a.png`, `b.png` and `c.png`, under the root. */
  function DemoFs(): FileSystem
  {
    FileSystem(
      map["/d/a.png" := 1, "/d/b.png" := 2, "/d/c.png" := 3, "/d" := 0, "/" := 0],
      map["/d" := ["a.png", "b.png", "c.png"], "/" := ["d"]])
  }

  /** Navigation from the file at index `i` of `/d`. */
  lemma DemoStepIn(store: Store, i: nat)
    requires i < 3
    requires Get(store, ViewingFileKey) == Str(Join("/d", DemoFs().listings["/d"][i]))
    ensures NextStep(store, DemoFs()) == if i < 2 then Open(Join("/d", DemoFs().listings["/d"][i + 1])) else Stay
    ensures PrevStep(store, DemoFs()) == if i == 0 then Open("/d") else Open(Join("/d", DemoFs().listings["/d"][i - 1]))
  {
    var entries := DemoFs().listings["/d"];
    JoinSplit("/d", entries[i]);
    assert FirstAt(entries, entries[i], i);
    NextStepAt(store, DemoFs(), i);
    PrevStepAt(store, DemoFs(), i);
  }

  /** Walking `/d`: next from `b.png` opens `c.png`, next from `c.png`
      stays; previous from `c.png` opens `b.png`, from `b.png` opens
      `a.png`, from `a.png` opens the directory `/d` itself, from `/d` the
      root, and from the root it stays. */
  lemma DemoWalk(store: Store)
    ensures Get(store, ViewingFileKey) == Str("/d/b.png") ==>
      NextStep(store, DemoFs()) == Open("/d/c.png") && PrevStep(store, DemoFs()) == Open("/d/a.png")
    ensures Get(store, ViewingFileKey) == Str("/d/c.png") ==>
      NextStep(store, DemoFs()) == Stay && PrevStep(store, DemoFs()) == Open("/d/b.png")
    ensures Get(store, ViewingFileKey) == Str("/d/a.png") ==> PrevStep(store, DemoFs()) == Open("/d")
    ensures Get(store, ViewingFileKey) == Str("/d") ==> PrevStep(store, DemoFs()) == Open("/")
    ensures Get(store, ViewingFileKey) == Str("/") ==> PrevStep(store, DemoFs()) == Stay
  {
    assert Join("/d", "a.png") == "/d/a.png" && Join("/d", "b.png") == "/d/b.png" && Join("/d", "c.png") == "/d/c.png";
    var v := Get(store, ViewingFileKey);
    if v == Str("/d/a.png") {
      DemoStepIn(store, 0);
    } else if v == Str("/d/b.png") {
      DemoStepIn(store, 1);
    } else if v == Str("/d/c.png") {
      DemoStepIn(store, 2);
    } else if v == Str("/d") {
      assert "/d" == Join("/", "d");
      JoinSplit("/", "d");
      assert FirstAt(["d"], "d", 0);
      PrevStepAt(store, DemoFs(), 0);
    } else if v == Str("/") {
      assert LastSep("/") == Some(0);
      StayWhenAbsent(store, DemoFs());
    }
  }

  /** `nextView` from the file `join(dir, entries[i])` of a normalised
      directory opens `join(dir, entries[i + 1])`. */
  lemma NextFrom(store: Store, fs: FileSystem, dir: string, i: nat)
    requires IsDir(dir) && dir in fs.listings
    requires i + 1 < |fs.listings[dir]|
    requires IsName(fs.listings[dir][i]) && FirstAt(fs.listings[dir], fs.listings[dir][i], i)
    requires Get(store, ViewingFileKey) == Str(Join(dir, fs.listings[dir][i]))
    ensures NextStep(store, fs) == Open(Join(dir, fs.listings[dir][i + 1]))
  {
    JoinSplit(dir, fs.listings[dir][i]);
    NextStepAt(store, fs, i);
  }

  /** `prevView` from the file `join(dir, entries[i])`, for `i > 0`, opens
      `join(dir, entries[i - 1])`. */
  lemma PrevFrom(store: Store, fs: FileSystem, dir: string, i: nat)
    requires IsDir(dir) && dir in fs.listings
    requires 0 < i < |fs.listings[dir]|
    requires IsName(fs.listings[dir][i]) && FirstAt(fs.listings[dir], fs.listings[dir][i], i)
    requires Get(store, ViewingFileKey) == Str(Join(dir, fs.listings[dir][i]))
    ensures PrevStep(store, fs) == Open(Join(dir, fs.listings[dir][i - 1]))
  {
    JoinSplit(dir, fs.listings[dir][i]);
    PrevStepAt(store, fs, i);
  }

  /** The two steps of `ForwardAndBack`, on the store alone. */
  lemma ForwardThenBack(store: Store, fs: FileSystem, dir: string, i: nat)
    requires IsDir(dir) && dir in fs.listings
    requires i + 1 < |fs.listings[dir]|
    requires IsName(fs.listings[dir][i]) && IsName(fs.listings[dir][i + 1])
    requires FirstAt(fs.listings[dir], fs.listings[dir][i], i)
    requires FirstAt(fs.listings[dir], fs.listings[dir][i + 1], i + 1)
    requires Get(store, ViewingFileKey) == Str(Join(dir, fs.listings[dir][i]))
    ensures NextStep(store, fs) == Open(Join(dir, fs.listings[dir][i + 1]))
    ensures PrevStep(store[ViewingFileKey := Str(Join(dir, fs.listings[dir][i + 1]))], fs)
      == Open(Join(dir, fs.listings[dir][i]))
  {
    NextFrom(store, fs, dir, i);
    PrevFrom(store[ViewingFileKey := Str(Join(dir, fs.listings[dir][i + 1]))], fs, dir, i + 1);
  }

  /** Next and then previous, from an entry that has a successor, comes
      back to the file it started from: the store ends as it began and the
      renderer is sent the successor and then the starting file. Both names
      must be single components occurring first at their positions, as in
      any real directory, whose entry names are distinct. */
  method ForwardAndBack(w: Window, fs: FileSystem, dir: string, i: nat)
    requires IsDir(dir) && dir in fs.listings
    requires i + 1 < |fs.listings[dir]|
    requires IsName(fs.listings[dir][i]) && IsName(fs.listings[dir][i + 1])
    requires FirstAt(fs.listings[dir], fs.listings[dir][i], i)
    requires FirstAt(fs.listings[dir], fs.listings[dir][i + 1], i + 1)
    requires Get(w.store, ViewingFileKey) == Str(Join(dir, fs.listings[dir][i]))
    modifies w
    ensures forall k :: Get(w.store, k) == old(Get(w.store, k))
    ensures w.sent == old(w.sent) + Shown(fs, Str(Join(dir, fs.listings[dir][i + 1])))
                                  + Shown(fs, Str(Join(dir, fs.listings[dir][i])))
  {
    ForwardThenBack(w.store, fs, dir, i);
    var outcome := w.NextView(fs);
    outcome := w.PrevView(fs);
  }

  /** The two steps of `BackAndForward`, on the store alone. */
  lemma BackThenForward(store: Store, fs: FileSystem, dir: string, i: nat)
    requires IsDir(dir) && dir in fs.listings
    requires 0 < i < |fs.listings[dir]|
    requires IsName(fs.listings[dir][i]) && IsName(fs.listings[dir][i - 1])
    requires FirstAt(fs.listings[dir], fs.listings[dir][i], i)
    requires FirstAt(fs.listings[dir], fs.listings[dir][i - 1], i - 1)
    requires Get(store, ViewingFileKey) == Str(Join(dir, fs.listings[dir][i]))
    ensures PrevStep(store, fs) == Open(Join(dir, fs.listings[dir][i - 1]))
    ensures NextStep(store[ViewingFileKey := Str(Join(dir, fs.listings[dir][i - 1]))], fs)
      == Open(Join(dir, fs.listings[dir][i]))
  {
    PrevFrom(store, fs, dir, i);
    NextFrom(store[ViewingFileKey := Str(Join(dir, fs.listings[dir][i - 1]))], fs, dir, i - 1);
  }

  /** Previous and then next, from an entry that has a predecessor, comes
      back to the file it started from. */
  method BackAndForward(w: Window, fs: FileSystem, dir: string, i: nat)
    requires IsDir(dir) && dir in fs.listings
    requires 0 < i < |fs.listings[dir]|
    requires IsName(fs.listings[dir][i]) && IsName(fs.listings[dir][i - 1])
    requires FirstAt(fs.listings[dir], fs.listings[dir][i], i)
    requires FirstAt(fs.listings[dir], fs.listings[dir][i - 1], i - 1)
    requires Get(w.store, ViewingFileKey) == Str(Join(dir, fs.listings[dir][i]))
    modifies w
    ensures forall k :: Get(w.store, k) == old(Get(w.store, k))
    ensures w.sent == old(w.sent) + Shown(fs, Str(Join(dir, fs.listings[dir][i - 1])))
                                  + Shown(fs, Str(Join(dir, fs.listings[dir][i])))
  {
    BackThenForward(w.store, fs, dir, i);
    var outcome := w.PrevView(fs);
    outcome := w.NextView(fs);
  }

  /** Two launches sharing one store: the first opens the default image
      and its window is closed with bounds `b`; the second is created with
      those bounds and, given no default image, shows the same file again. */
  method Relaunch(persisted: Store, defaultImage: Value, fs: FileSystem, b: Bounds)
    returns (restored: Placement, reopened: Value, shown: seq<ViewImage>)
    requires Truthy(defaultImage)
    ensures restored == Placement(Num(b.x), Num(b.y), Num(b.width), Num(b.height))
    ensures reopened == defaultImage
    ensures shown == Shown(fs, defaultImage)
  {
    var first := new Window(persisted);
    first.DidFinishLoad(defaultImage, fs);
    first.Close(b);
    var second := new Window(first.store);
    second.DidFinishLoad(Undefined, fs);
    restored, reopened, shown := second.placement, Get(second.store, ViewingFileKey), second.sent;
  }
}
