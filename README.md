# Siv-ev: navigation and session model

Siv-ev is a single-window desktop image viewer built on Electron. Its main process
(`src/background.js`, function `createWindow`) keeps the last viewed file and the window
geometry in a persistent key/value store. It opens a file when the page has loaded or when one
is dropped, and it steps to the previous or next entry of the viewed file's directory. This
project models that main-process logic in Dafny:

- `wrappers.dfy`, module `Wrappers`: the `Option` datatype.
- `js_values.dfy`, module `JsValues`: the JavaScript values the core handles (`undefined`,
  `null`, booleans, numbers, strings), their truthiness, `??`, and the store as a
  `map<string, Value>`. `store.get` of a missing key reads `undefined`. `store.set` merges a
  record into the store.
- `paths.dfy`, module `Paths`: `path.dirname`, `path.basename` and `path.join` for
  `/`-separated paths, with `Join(dir, "") == dir`.
- `cursor.dfy`, module `Cursor`: the two directory scans. `ScanPrevious` and `ScanNext` are the
  loops of the `prevView` and `nextView` handlers over a listing given as a `seq<string>` in
  enumeration order. `PrevName` and `NextName` are their specifications: the first occurrence
  of the viewed name decides the target.
- `viewer.dfy`, module `Viewer`: class `Window` holds the store and the `viewImage` messages sent
  to the renderer. It has one method per handler (`ChangeViewFile`, `DidFinishLoad`, `DropFile`,
  `PrevView`, `NextView`, `Close`). The filesystem is a `FileSystem` value: the paths `fs.stat`
  succeeds on, with their sizes, and the directories `fs.opendir` can read, with their listings.

Two behaviours of the code are kept as written:

- `changeViewFile` writes `viewingFile` to the store before the stat. A failed stat does not
  roll back `viewingFile`: the store keeps the path and no message is sent.
  `Window.ChangeViewFile` states this.
- "Previous" from the first entry of a directory does not stay put. The handler joins the
  directory with the empty name, which is the directory itself, opens it and records it as
  `viewingFile` (`PrevStepAt`). `DemoWalk` shows the climb from `/d/a.png` to `/d` and then to
  `/`.

## Model

| member | source | states |
|---|---|---|
| `JsValues.Get` | src/background.js:27-30 | `store.get` reads the stored value of a key, and `undefined` for a key the store does not hold |
| `JsValues.Merge` | src/background.js:17 | `store.set` merges: the record's keys take the record's values, every other key keeps its value, and the key set is the union |
| `Paths.LastSep` | src/background.js:79-80 | the separator found is the last one in the path; none is found exactly when the path has no separator |
| `Paths.LastSepAfter` | src/background.js:79-80 | a separator followed only by separator-free characters is the last separator |
| `Paths.Dirname` | src/background.js:79 | `path.dirname` is never empty, and is `.` for a path without a separator |
| `Paths.Basename` | src/background.js:80 | `path.basename` is a separator-free suffix of the path, and the whole path when it has no separator |
| `Paths.Join` | src/background.js:87 | `path.join(dir, "")` is `dir`; otherwise the result ends with the name, preceded, for a non-empty `dir`, by `dir` and one separator, which is not doubled when `dir` already ends with one |
| `Paths.SplitPath` | src/background.js:79-80 | a path with a separator is its `dirname`, a separator and its `basename`, or, for a file in the root, a separator and its `basename` |
| `Paths.JoinSplit` | src/background.js:79-87 | `dirname` and `basename` of `join(dir, name)` give back `dir` and `name`, so the handlers find again the directory and entry of a file they opened |
| `Cursor.IndexOf` | src/background.js:85-90 | the index both scans stop at is the first occurrence of the viewed name; there is none exactly when the name is absent from the listing |
| `Cursor.FirstAtIndexOf` | src/background.js:85-90 | a first occurrence is unique, so it is the index the scans stop at |
| `Cursor.ScanPrevious` | src/background.js:81-93 | the `prevView` loop, with `previewFile` trailing the scan by one entry, yields exactly `PrevName` of the listing |
| `Cursor.ScanNext` | src/background.js:101-115 | the `nextView` loop, with the flag `nextFile` raised at the match, yields exactly `NextName` of the listing |
| `Cursor.PrevNameAt` | src/background.js:81-92 | with the first match at index i, the previous target is the entry at i-1, or the empty name when i is 0 |
| `Cursor.NextNameAt` | src/background.js:101-113 | with the first match at index i, the next target is the entry at i+1, and there is none when the match is the last entry |
| `Cursor.AbsentName` | src/background.js:85-115 | a name absent from the listing gives neither a previous nor a next target |
| `Cursor.DistinctFirstAt` | src/background.js:85-112 | in a listing without repeated names, every entry is its own first occurrence |
| `Cursor.NextThenPrev` | src/background.js:77-116 | in a listing without repeated names, the previous of the next of an entry is that entry |
| `Cursor.PrevThenNext` | src/background.js:77-116 | in such a listing with no empty name, "previous" yields the empty name exactly from the first entry; from any other entry, the next of the previous is that entry |
| `Viewer.Shown` | src/background.js:19-24 | `changeViewFile` sends at most one message: exactly when the stat succeeds, carrying exactly the path and the size the stat reports |
| `Viewer.BoundsRoundTrip` | src/background.js:119-128 | the bounds saved on close under `x`, `y`, `w`, `h` are the values the next window's geometry is read from (lines 28-31); saving them leaves `viewingFile` unchanged |
| `Viewer.StartupFile` | src/background.js:50-52 | the default image wins unless it is null or undefined, otherwise the stored `viewingFile` is used; a file is chosen only when the chosen value is truthy, so a falsy non-null default image opens nothing |
| `Viewer.PrevStep` | src/background.js:78-92 | `prevView` fails with `NotAPath` exactly when `viewingFile` is not a string, and with `OpendirFailed` exactly when it is one whose directory cannot be opened; it opens a file only when the viewed name is in the listing |
| `Viewer.NextStep` | src/background.js:98-113 | the same failure conditions for `nextView`, and it opens a file only when the viewed name is in the listing |
| `Viewer.PrevStepAt` | src/background.js:78-92 | with the viewed name first at index i of its directory, `prevView` opens `join(dir, entries[i-1])`, or the directory itself when i is 0 |
| `Viewer.NextStepAt` | src/background.js:98-113 | with the viewed name first at index i, `nextView` opens `join(dir, entries[i+1])`, and stays when i is the last index |
| `Viewer.NextFrom` | src/background.js:97-113 | from `join(dir, entries[i])` of a normalised directory, with a successor, `nextView` opens `join(dir, entries[i+1])` |
| `Viewer.PrevFrom` | src/background.js:77-92 | from `join(dir, entries[i])` with i > 0, `prevView` opens `join(dir, entries[i-1])` |
| `Viewer.StayWhenAbsent` | src/background.js:77-116 | when the viewed name is missing from its directory's listing, neither handler opens anything |
| `Viewer.Window.constructor` | src/background.js:27-31 | the window is created with the geometry read from keys `x`, `y`, `w`, `h`; the store is the persisted one |
| `Viewer.Window.ChangeViewFile` | src/background.js:16-25 | `viewingFile` becomes the path whether or not the stat succeeds; nothing else in the store changes; the sent messages grow by `Shown` |
| `Viewer.Window.DidFinishLoad` | src/background.js:48-53 | opens `StartupFile`'s choice through `ChangeViewFile`, or leaves store and messages unchanged when there is none |
| `Viewer.Window.DropFile` | src/background.js:72-74 | a truthy dropped path is opened through `ChangeViewFile`; a falsy one changes nothing |
| `Viewer.Window.PrevView` | src/background.js:77-94 | rejects without change when `viewingFile` is not a string or its directory cannot be opened; otherwise opens at most one file, the one `PrevStep` names, and changes nothing else |
| `Viewer.Window.NextView` | src/background.js:97-116 | the same for `nextView` and `NextStep`: at most one open, and none past the last entry or for an absent name |
| `Viewer.Window.Close` | src/background.js:119-128 | the store gains `x`, `y`, `w`, `h` from the bounds, the geometry read back from it equals the bounds, and `viewingFile` and the messages are unchanged |
| `Viewer.DemoStepIn` | src/background.js:77-116 | in the directory `/d` holding `a.png`, `b.png`, `c.png`, the targets of both handlers from each of its files |
| `Viewer.DemoWalk` | src/background.js:77-116 | in `/d`: next from `b.png` opens `c.png` and from `c.png` stays; previous goes `c.png`, `b.png`, `a.png`, then `/d`, then `/`, where it stays |
| `Viewer.ForwardThenBack` | src/background.js:77-116 | on the store: next opens the successor and, once it is the viewed file, previous opens the starting file |
| `Viewer.BackThenForward` | src/background.js:77-116 | on the store: previous opens the predecessor and, once it is the viewed file, next opens the starting file |
| `Viewer.ForwardAndBack` | src/background.js:77-116 | next followed by previous, from an entry with a successor, leaves every store key as it was and sends the successor and then the starting file |
| `Viewer.BackAndForward` | src/background.js:77-116 | previous followed by next, from an entry with a predecessor, leaves every store key as it was and sends the predecessor and then the starting file |
| `Viewer.Relaunch` | src/background.js:12-129 | after a session that opened the default image and closed with bounds b, the next window is created with b and, with no default image, shows the same file again |

## Left out

- Electron plumbing is not modelled: window construction options other than the bounds,
  `loadFile`, DevTools, `removeMenu`, IPC handler registration and the app lifecycle (lines
  1-8, 32-45, 131-148).
- Dark-mode toggling (lines 55-69) is not modelled. Its result depends on the operating
  system's theme state.
- `utils.fileSizeString` is not part of this model. The `viewImage` message carries the byte
  count that its label is formatted from.
- The `./store` backend and its durability are not part of this model. The store is a map, and
  a new `Window` is given the map the previous one left.
- The `./defaultImage` module is not part of this model. Its result is a parameter of
  `DidFinishLoad`. The bounds from `getBounds()` are a parameter of `Close`.
- Real `fs.stat` and `fs.opendir` are not modelled. They are the `FileSystem` oracle, fixed for
  one command. An enumeration that fails part-way through is not modelled.
- Asynchrony is not modelled. `changeViewFile` is not awaited by its callers, so a failed stat
  is an unhandled rejection, and overlapping commands can race. Each command is modelled as
  atomic and sequential. A failed stat only means that no message is sent.
- Node's path normalisation is not modelled: trailing separators, `.` and `..` segments,
  repeated separators, and Windows separators and drive letters. `Join` of `"."` and a name
  gives `./name`, where Node gives `name`.
- JavaScript numbers are modelled as integers. NaN, fractions and `-0` do not occur in window
  bounds.
- `Viewer.ForwardAndBack` and `Viewer.BackAndForward`: they require the two names involved to
  be single path components occurring first at their positions. In a real directory this holds
  for every entry.
