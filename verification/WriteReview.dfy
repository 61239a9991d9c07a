/**
 Snapshot, change detection and rollback of the files a tool may write, over a disk that
 holds files only.
 */
module WriteReview {
  import opened Basics
  import opened Text

  type Path = string
  type Bytes = string
  type Files = map<Path, Bytes>

  function Lookup(files: Files, path: Path): Option<Bytes> {
    if path in files then Some(files[path]) else None
  }

  datatype FileSnapshot = FileSnapshot(path: Path, existed: bool, content: Option<Bytes>) {
    // What a rollback leaves at the path.
    function Before(): Option<Bytes> {
      if !existed then None else match content case Some(b) => Some(b) case None => Some("")
    }
  }

  datatype Status = Added | Deleted | Modified

  datatype ChangedFile = ChangedFile(path: Path, before: Option<Bytes>, after: Option<Bytes>, status: Status)

  class Disk {
    var files: Files

    constructor (files: Files)
      ensures this.files == files
    {
      this.files := files;
    }

    predicate IsFile(path: Path)
      reads this
    {
      path in files
    }

    function ReadBytes(path: Path): Bytes
      requires IsFile(path)
      reads this
    {
      files[path]
    }

    method WriteBytes(path: Path, content: Bytes)
      modifies this
      ensures files == old(files)[path := content]
    {
      files := files[path := content];
    }

    method Unlink(path: Path)
      requires IsFile(path)
      modifies this
      ensures files == old(files) - {path}
    {
      files := files - {path};
    }
  }

  function Snap(files: Files, path: Path): FileSnapshot {
    FileSnapshot(path, path in files, Lookup(files, path))
  }

  // The elements of a sequence in the order of their first occurrence.
  function Distinct<T(==)>(xs: seq<T>): seq<T> {
    if xs == [] then [] else
      var front := Distinct(xs[..|xs| - 1]);
      var last := xs[|xs| - 1];
      if last in front then front else front + [last]
  }

  lemma {:induction false} DistinctElements<T(!new)>(xs: seq<T>)
    ensures NoRepeats(Distinct(xs))
    ensures forall x :: x in Distinct(xs) <==> x in xs
  {
    if xs != [] {
      DistinctElements(xs[..|xs| - 1]);
      assert xs == xs[..|xs| - 1] + [xs[|xs| - 1]];
    }
  }

  // The position of the first occurrence.
  ghost predicate FirstAt<T(!new)>(xs: seq<T>, x: T, i: nat) {
    i < |xs| && xs[i] == x && forall j :: 0 <= j < i ==> xs[j] != x
  }

  /** They are in the order of their first mention. */
  lemma {:induction false} DistinctOrder<T(!new)>(xs: seq<T>, i: nat, j: nat, a: nat, b: nat)
    requires i < |Distinct(xs)| && j < |Distinct(xs)|
    requires FirstAt(xs, Distinct(xs)[i], a) && FirstAt(xs, Distinct(xs)[j], b)
    ensures a < b <==> i < j
  {
    var front, last := xs[..|xs| - 1], xs[|xs| - 1];
    DistinctElements(front);
    DistinctElements(xs);
    assert xs == front + [last];
    if i < |Distinct(front)| && j < |Distinct(front)| {
      assert Distinct(front)[i] in front && Distinct(front)[j] in front;
      DistinctOrder(front, i, j, a, b);
    } else if i < |Distinct(front)| {
      assert Distinct(front)[i] in front && last !in front;
      assert forall k :: 0 <= k < |front| ==> front[k] in front && front[k] == xs[k];
    } else if j < |Distinct(front)| {
      assert Distinct(front)[j] in front && last !in front;
      assert forall k :: 0 <= k < |front| ==> front[k] in front && front[k] == xs[k];
    }
  }

  // ---------------------------------------------------------------------------------------------
  // What a call may write
  // ---------------------------------------------------------------------------------------------

  /** A parsed argument: a string, a list with its items rendered as text, or anything else. */
  datatype Value = Str(text: string) | List(items: seq<string>) | Other

  type Arguments = map<string, Value>

  const WRITE_PATTERNS: seq<string> :=
    ["write", "edit", "patch", "apply_patch", "create", "update", "save", "delete", "remove", "move"]
  const PATH_KEYS: seq<string> := ["path", "filepath", "file_path", "reference_path", "destination", "source"]
  const PATCH_KEYS: seq<string> := ["patch", "patch_content"]

  predicate HasText(args: Arguments, key: string) {
    key in args && args[key].Str?
  }

  predicate HasList(args: Arguments, key: string) {
    key in args && args[key].List?
  }

  predicate LooksLikeWrite(toolName: string, args: Arguments) {
    || (exists p :: p in WRITE_PATTERNS && Contains(Lowered(toolName), p))
    || HasText(args, "content") || HasText(args, "patch") || HasText(args, "patch_content") || HasList(args, "edits")
  }

  /** Which calls count as writing: a tool name, in any case, that contains one of these words, or an
      argument that carries contents, a patch or edits. A name with "patch" covers "apply_patch". */
  lemma WritesIff(toolName: string, args: Arguments)
    ensures LooksLikeWrite(toolName, args) <==>
      var name := Lowered(toolName);
      || Contains(name, "write") || Contains(name, "edit") || Contains(name, "patch") || Contains(name, "create")
      || Contains(name, "update") || Contains(name, "save") || Contains(name, "delete") || Contains(name, "remove")
      || Contains(name, "move")
      || (exists k :: k in ["content", "patch", "patch_content"] && k in args && args[k].Str?)
      || ("edits" in args && args["edits"].List?)
  {
    PatternsIff(Lowered(toolName));
  }

  lemma PatternsIff(name: string)
    ensures (exists p :: p in WRITE_PATTERNS && Contains(name, p)) <==>
      || Contains(name, "write") || Contains(name, "edit") || Contains(name, "patch") || Contains(name, "create")
      || Contains(name, "update") || Contains(name, "save") || Contains(name, "delete") || Contains(name, "remove")
      || Contains(name, "move")
  {
    ApplyPatch(name);
    assert forall p :: p in WRITE_PATTERNS <==>
      || p == "write" || p == "edit" || p == "patch" || p == "apply_patch" || p == "create" || p == "update"
      || p == "save" || p == "delete" || p == "remove" || p == "move";
  }

  lemma ApplyPatch(name: string)
    ensures Contains(name, "apply_patch") ==> Contains(name, "patch")
  {
    if i :| 0 <= i <= |name| && "apply_patch" <= name[i..] {
      assert name[i..][6..] == name[i + 6..] && "apply_patch"[6..] == "patch";
      assert "patch" <= name[i + 6..];
    }
  }

  // The trimmed texts, blank ones left out.
  function Stripped(texts: seq<string>): seq<string> {
    if texts == [] then [] else
      var front, last := Stripped(texts[..|texts| - 1]), Trim(texts[|texts| - 1]);
      if last != "" then front + [last] else front
  }

  function TextsUnder(args: Arguments, keys: seq<string>): seq<string> {
    if keys == [] then [] else
      var front, key := TextsUnder(args, keys[..|keys| - 1]), keys[|keys| - 1];
      if HasText(args, key) then front + [args[key].text] else front
  }

  // `headers` are the file names in the header lines of a patch.
  function PatchPaths(texts: seq<string>, headers: string -> seq<string>): seq<string> {
    if texts == [] then [] else
      var front, last := PatchPaths(texts[..|texts| - 1], headers), texts[|texts| - 1];
      if Trim(last) != "" then front + headers(last) else front
  }

  function TargetValues(args: Arguments, headers: string -> seq<string>): seq<string> {
    Stripped(TextsUnder(args, PATH_KEYS)) + (if HasList(args, "paths") then Stripped(args["paths"].items) else [])
      + PatchPaths(TextsUnder(args, PATCH_KEYS), headers)
  }

  lemma {:induction false} StrippedElements(texts: seq<string>, v: string)
    ensures v in Stripped(texts) <==> v != "" && exists t :: t in texts && v == Trim(t)
  {
    if texts != [] {
      var front, last := texts[..|texts| - 1], texts[|texts| - 1];
      StrippedElements(front, v);
      assert texts == front + [last] && last in texts;
      assert forall t :: t in texts <==> t in front || t == last;
    }
  }

  lemma {:induction false} TextsElements(args: Arguments, keys: seq<string>, t: string)
    ensures t in TextsUnder(args, keys) <==> exists k :: k in keys && HasText(args, k) && args[k].text == t
  {
    if keys != [] {
      TextsElements(args, keys[..|keys| - 1], t);
      assert keys == keys[..|keys| - 1] + [keys[|keys| - 1]];
    }
  }

  lemma {:induction false} PatchElements(texts: seq<string>, headers: string -> seq<string>, v: string)
    ensures v in PatchPaths(texts, headers) <==> exists t :: t in texts && Trim(t) != "" && v in headers(t)
  {
    if texts != [] {
      PatchElements(texts[..|texts| - 1], headers, v);
      assert texts == texts[..|texts| - 1] + [texts[|texts| - 1]];
    }
  }

  predicate NamesUnder(args: Arguments, k: string, v: string) {
    HasText(args, k) && v == Trim(args[k].text)
  }

  predicate PatchesUnder(args: Arguments, headers: string -> seq<string>, k: string, v: string) {
    HasText(args, k) && Trim(args[k].text) != "" && v in headers(args[k].text)
  }

  /** A call names a path under a path key, in its list of paths, or in a header of a patch. */
  ghost predicate Names(args: Arguments, headers: string -> seq<string>, v: string) {
    || (v != "" && exists k :: k in PATH_KEYS && NamesUnder(args, k, v))
    || (v != "" && HasList(args, "paths") && exists t :: t in args["paths"].items && v == Trim(t))
    || (exists k :: k in PATCH_KEYS && PatchesUnder(args, headers, k, v))
  }

  lemma StrippedUnder(args: Arguments, keys: seq<string>, v: string)
    ensures v in Stripped(TextsUnder(args, keys)) <==> v != "" && exists k :: k in keys && NamesUnder(args, k, v)
  {
    StrippedElements(TextsUnder(args, keys), v);
    if v in Stripped(TextsUnder(args, keys)) {
      var t :| t in TextsUnder(args, keys) && v == Trim(t);
      TextsElements(args, keys, t);
      var k :| k in keys && HasText(args, k) && args[k].text == t;
      assert NamesUnder(args, k, v);
    }
    if k :| k in keys && NamesUnder(args, k, v) {
      TextsElements(args, keys, args[k].text);
    }
  }

  lemma PatchesElements(args: Arguments, keys: seq<string>, headers: string -> seq<string>, v: string)
    ensures v in PatchPaths(TextsUnder(args, keys), headers) <==>
      exists k :: k in keys && PatchesUnder(args, headers, k, v)
  {
    PatchElements(TextsUnder(args, keys), headers, v);
    if v in PatchPaths(TextsUnder(args, keys), headers) {
      var t :| t in TextsUnder(args, keys) && Trim(t) != "" && v in headers(t);
      TextsElements(args, keys, t);
      var k :| k in keys && HasText(args, k) && args[k].text == t;
      assert PatchesUnder(args, headers, k, v);
    }
    if k :| k in keys && PatchesUnder(args, headers, k, v) {
      TextsElements(args, keys, args[k].text);
    }
  }

  /** The keys that name a path, and those that carry a patch. */
  lemma NamesIff(args: Arguments, headers: string -> seq<string>, v: string)
    ensures Names(args, headers, v) <==>
      || (v != "" && (NamesUnder(args, "path", v) || NamesUnder(args, "filepath", v)
            || NamesUnder(args, "file_path", v) || NamesUnder(args, "reference_path", v)
            || NamesUnder(args, "destination", v) || NamesUnder(args, "source", v)))
      || (v != "" && HasList(args, "paths") && exists t :: t in args["paths"].items && v == Trim(t))
      || PatchesUnder(args, headers, "patch", v) || PatchesUnder(args, headers, "patch_content", v)
  {}

  lemma TargetsNamed(args: Arguments, headers: string -> seq<string>, v: string)
    ensures v in TargetValues(args, headers) <==> Names(args, headers, v)
  {
    StrippedUnder(args, PATH_KEYS, v);
    PatchesElements(args, PATCH_KEYS, headers, v);
    if HasList(args, "paths") {
      StrippedElements(args["paths"].items, v);
    }
  }

  /** The values of the path keys come first, then the list of paths, then the headers of patches. */
  lemma ValuesInOrder(args: Arguments, headers: string -> seq<string>) returns (i: nat, j: nat)
    ensures var values := TargetValues(args, headers);
      && i <= j <= |values|
      && (forall v :: v in values[..i] <==> v != "" && exists k :: k in PATH_KEYS && NamesUnder(args, k, v))
      && (forall v :: v in values[i..j] <==>
            v != "" && HasList(args, "paths") && exists t :: t in args["paths"].items && v == Trim(t))
      && (forall v :: v in values[j..] <==> exists k :: k in PATCH_KEYS && PatchesUnder(args, headers, k, v))
  {
    var a := Stripped(TextsUnder(args, PATH_KEYS));
    var b := if HasList(args, "paths") then Stripped(args["paths"].items) else [];
    var c := PatchPaths(TextsUnder(args, PATCH_KEYS), headers);
    var values := TargetValues(args, headers);
    i, j := |a|, |a + b|;
    assert values[..i] == a && values[i..j] == b && values[j..] == c;
    forall v ensures v in a <==> v != "" && exists k :: k in PATH_KEYS && NamesUnder(args, k, v) {
      StrippedUnder(args, PATH_KEYS, v);
    }
    forall v ensures v in b <==>
      v != "" && HasList(args, "paths") && exists t :: t in args["paths"].items && v == Trim(t)
    {
      if HasList(args, "paths") {
        StrippedElements(args["paths"].items, v);
      }
    }
    forall v ensures v in c <==> exists k :: k in PATCH_KEYS && PatchesUnder(args, headers, k, v) {
      PatchesElements(args, PATCH_KEYS, headers, v);
    }
  }

  method StripAll(texts: seq<string>) returns (values: seq<string>)
    ensures values == Stripped(texts)
  {
    values := [];
    for i := 0 to |texts|
      invariant values == Stripped(texts[..i])
    {
      assert texts[..i + 1][..i] == texts[..i];
      var value := Trim(texts[i]);
      if value != "" {
        values := values + [value];
      }
    }
    assert texts[..|texts|] == texts;
  }

  method CollectTexts(args: Arguments, keys: seq<string>) returns (texts: seq<string>)
    ensures texts == TextsUnder(args, keys)
  {
    texts := [];
    for i := 0 to |keys|
      invariant texts == TextsUnder(args, keys[..i])
    {
      assert keys[..i + 1][..i] == keys[..i];
      if HasText(args, keys[i]) {
        texts := texts + [args[keys[i]].text];
      }
    }
    assert keys[..|keys|] == keys;
  }

  method CollectPatchPaths(args: Arguments, headers: string -> seq<string>) returns (paths: seq<string>)
    ensures paths == PatchPaths(TextsUnder(args, PATCH_KEYS), headers)
  {
    var texts := CollectTexts(args, PATCH_KEYS);
    paths := [];
    for i := 0 to |texts|
      invariant paths == PatchPaths(texts[..i], headers)
    {
      assert texts[..i + 1][..i] == texts[..i];
      if Trim(texts[i]) != "" {
        paths := paths + headers(texts[i]);
      }
    }
    assert texts[..|texts|] == texts;
  }

  // Raw path strings that resolve; resolution fails when the operating system says so.
  function Resolved(raw: seq<string>, resolve: string -> Option<Path>): seq<Path> {
    if raw == [] then [] else
      var front := Resolved(raw[..|raw| - 1], resolve);
      match resolve(raw[|raw| - 1])
      case Some(p) => front + [p]
      case None => front
  }

  lemma {:induction false} ResolvedElements(raw: seq<string>, resolve: string -> Option<Path>)
    ensures forall p :: p in Resolved(raw, resolve) <==> exists r :: r in raw && resolve(r) == Some(p)
  {
    if raw != [] {
      ResolvedElements(raw[..|raw| - 1], resolve);
      assert raw == raw[..|raw| - 1] + [raw[|raw| - 1]];
      assert raw[|raw| - 1] in raw;
    }
  }

  function Snapshots(files: Files, paths: seq<Path>): seq<FileSnapshot> {
    seq(|paths|, i requires 0 <= i < |paths| => Snap(files, paths[i]))
  }

  /** The paths a call names, each once, in the order of their first mention. */
  method CollectTargetPaths(args: Arguments, headers: string -> seq<string>) returns (ordered: seq<string>)
    ensures ordered == Distinct(TargetValues(args, headers))
    ensures NoRepeats(ordered) && forall v :: v in ordered <==> Names(args, headers, v)
  {
    var values := CollectTargetValues(args, headers);
    ordered := KeepFirst(values);
    DistinctElements(values);
    forall v ensures v in values <==> Names(args, headers, v) {
      TargetsNamed(args, headers, v);
    }
  }

  method CollectTargetValues(args: Arguments, headers: string -> seq<string>) returns (values: seq<string>)
    ensures values == TargetValues(args, headers)
  {
    var texts := CollectTexts(args, PATH_KEYS);
    values := StripAll(texts);
    if HasList(args, "paths") {
      var listed := StripAll(args["paths"].items);
      values := values + listed;
    }
    var patched := CollectPatchPaths(args, headers);
    values := values + patched;
  }

  method KeepFirst(values: seq<string>) returns (ordered: seq<string>)
    ensures ordered == Distinct(values)
  {
    var seen: set<string> := {};
    ordered := [];
    for i := 0 to |values|
      invariant ordered == Distinct(values[..i])
      invariant forall v :: v in seen <==> v in ordered
    {
      assert values[..i + 1][..i] == values[..i];
      if values[i] !in seen {
        seen := seen + {values[i]};
        ordered := ordered + [values[i]];
      }
    }
    assert values[..|values|] == values;
  }

  // The files a list of raw path strings denotes, each once.
  function Paths(raw: seq<string>, resolve: string -> Option<Path>): seq<Path> {
    Distinct(Resolved(raw, resolve))
  }

  lemma PathsElements(raw: seq<string>, resolve: string -> Option<Path>)
    ensures forall p :: p in Paths(raw, resolve) <==> exists r :: r in raw && resolve(r) == Some(p)
  {
    ResolvedElements(raw, resolve);
    DistinctElements(Resolved(raw, resolve));
  }

  lemma PathsStep(raw: seq<string>, i: nat, resolve: string -> Option<Path>)
    requires i < |raw|
    ensures var front := Paths(raw[..i], resolve);
      Paths(raw[..i + 1], resolve) ==
        match resolve(raw[i])
        case Some(p) => if p in front then front else front + [p]
        case None => front
  {
    assert raw[..i + 1][..i] == raw[..i];
    match resolve(raw[i])
    case Some(p) =>
      var front := Resolved(raw[..i], resolve);
      assert (front + [p])[..|front|] == front;
    case None =>
  }

  lemma SnapshotsStep(files: Files, paths: seq<Path>, p: Path)
    ensures Snapshots(files, paths + [p]) == Snapshots(files, paths) + [Snap(files, p)]
  {}

  method SnapshotFiles(disk: Disk, raw: seq<string>, resolve: string -> Option<Path>)
      returns (files: seq<FileSnapshot>)
    ensures files == Snapshots(disk.files, Paths(raw, resolve))
  {
    files := [];
    ghost var done: seq<Path> := [];
    var seen: set<Path> := {};
    for i := 0 to |raw|
      invariant done == Paths(raw[..i], resolve)
      invariant files == Snapshots(disk.files, done)
      invariant forall p :: p in seen <==> p in done
    {
      PathsStep(raw, i, resolve);
      match resolve(raw[i])
      case None =>
      case Some(path) =>
        if path !in seen {
          SnapshotsStep(disk.files, done, path);
          seen := seen + {path};
          done := done + [path];
          if disk.IsFile(path) {
            files := files + [FileSnapshot(path, true, Some(disk.ReadBytes(path)))];
          } else {
            files := files + [FileSnapshot(path, false, None)];
          }
        }
    }
    assert raw[..|raw|] == raw;
  }

  /** One snapshot for each file the call may write, taken before the call; nothing when the tool
      does not write or names no path that resolves. */
  method PrepareWriteContext(disk: Disk, toolName: string, args: Arguments, headers: string -> seq<string>,
                             resolve: string -> Option<Path>)
      returns (context: Option<seq<FileSnapshot>>)
    ensures context.Some? <==> LooksLikeWrite(toolName, args) && exists v :: Names(args, headers, v) && resolve(v).Some?
    ensures context.Some? ==>
      && context.value == Snapshots(disk.files, Paths(Distinct(TargetValues(args, headers)), resolve))
      && forall p :: (exists s :: s in context.value && s.path == p) <==>
           exists v :: Names(args, headers, v) && resolve(v) == Some(p)
  {
    if !LooksLikeWrite(toolName, args) {
      return None;
    }
    var raw := CollectTargetPaths(args, headers);
    var files := SnapshotFiles(disk, raw, resolve);
    PathsElements(raw, resolve);
    SnapshotPaths(disk.files, Paths(raw, resolve));
    if Paths(raw, resolve) != [] {
      assert Paths(raw, resolve)[0] in Paths(raw, resolve);
    }
    forall v | Names(args, headers, v) && resolve(v).Some?
      ensures Paths(raw, resolve) != []
    {
      assert resolve(v).value in Paths(raw, resolve);
    }
    if files == [] {
      return None;
    }
    return Some(files);
  }

  lemma SnapshotPaths(files: Files, paths: seq<Path>)
    ensures forall p :: (exists s :: s in Snapshots(files, paths) && s.path == p) <==> p in paths
  {
    forall p | p in paths
      ensures exists s :: s in Snapshots(files, paths) && s.path == p
    {
      assert Snap(files, p) in Snapshots(files, paths) by {
        var i :| 0 <= i < |paths| && paths[i] == p;
        assert Snapshots(files, paths)[i] == Snap(files, p);
      }
    }
  }

  /** What `PrepareWriteContext` produces. */
  ghost predicate WellFormed(context: seq<FileSnapshot>) {
    && (forall i, j :: 0 <= i < j < |context| ==> context[i].path != context[j].path)
    && (forall s :: s in context ==> (s.existed <==> s.content.Some?))
  }

  lemma PreparedWellFormed(files: Files, raw: seq<Path>)
    ensures WellFormed(Snapshots(files, Distinct(raw)))
    ensures forall s :: s in Snapshots(files, Distinct(raw)) ==> s.Before() == Lookup(files, s.path)
  {
    DistinctElements(raw);
    var context := Snapshots(files, Distinct(raw));
    forall s | s in context ensures s == Snap(files, s.path) {}
  }

  // The difference between a snapshot and the disk, if there is one.
  function Change(s: FileSnapshot, files: Files): seq<ChangedFile> {
    if s.existed && s.path !in files then [ChangedFile(s.path, s.content, None, Deleted)]
    else if !s.existed && s.path in files then [ChangedFile(s.path, None, Some(files[s.path]), Added)]
    else if s.existed && s.content != Some(files[s.path]) then
      [ChangedFile(s.path, s.content, Some(files[s.path]), Modified)]
    else []
  }

  function Changes(context: seq<FileSnapshot>, files: Files): seq<ChangedFile> {
    if context == [] then [] else
      Changes(context[..|context| - 1], files) + Change(context[|context| - 1], files)
  }

  method DetectChanges(disk: Disk, context: seq<FileSnapshot>) returns (changes: seq<ChangedFile>)
    ensures changes == Changes(context, disk.files)
  {
    changes := [];
    for i := 0 to |context|
      invariant changes == Changes(context[..i], disk.files)
    {
      assert context[..i + 1][..i] == context[..i];
      var snapshot := context[i];
      var path := snapshot.path;
      var existsNow := disk.IsFile(path);
      if snapshot.existed && !existsNow {
        changes := changes + [ChangedFile(path, snapshot.content, None, Deleted)];
      } else if !snapshot.existed && existsNow {
        changes := changes + [ChangedFile(path, None, Some(disk.ReadBytes(path)), Added)];
      } else if snapshot.existed {
        var current := disk.ReadBytes(path);
        if snapshot.content != Some(current) {
          changes := changes + [ChangedFile(path, snapshot.content, Some(current), Modified)];
        }
      }
    }
    assert context[..|context|] == context;
  }

  ghost predicate Agrees(context: seq<FileSnapshot>, files: Files) {
    forall s :: s in context ==> Lookup(files, s.path) == s.Before()
  }

  // The status a reader would expect from the contents before and after.
  function StatusOf(before: Option<Bytes>, after: Option<Bytes>): Status {
    if before.None? then Added else if after.None? then Deleted else Modified
  }

  predicate Differs(s: FileSnapshot, files: Files) {
    Lookup(files, s.path) != s.Before()
  }

  // What a change to a tracked path is reported as.
  function Report(s: FileSnapshot, files: Files): ChangedFile {
    ChangedFile(s.path, s.Before(), Lookup(files, s.path), StatusOf(s.Before(), Lookup(files, s.path)))
  }

  lemma ChangeMeaning(s: FileSnapshot, files: Files)
    requires s.existed <==> s.content.Some?
    ensures Change(s, files) == if Differs(s, files) then [Report(s, files)] else []
  {}

  lemma WellFormedFront(context: seq<FileSnapshot>)
    requires WellFormed(context) && context != []
    ensures WellFormed(context[..|context| - 1])
    ensures context[|context| - 1] in context
    ensures forall s :: s in context[..|context| - 1] ==> s in context && s.path != context[|context| - 1].path
    ensures forall s :: s in context ==> s in context[..|context| - 1] || s == context[|context| - 1]
  {
    assert context == context[..|context| - 1] + [context[|context| - 1]];
  }

  lemma {:induction false} ChangesListed(context: seq<FileSnapshot>, files: Files, c: ChangedFile)
    requires WellFormed(context)
    ensures c in Changes(context, files) <==> exists s :: s in context && Differs(s, files) && c == Report(s, files)
  {
    if context != [] {
      WellFormedFront(context);
      ChangesListed(context[..|context| - 1], files, c);
      ChangeMeaning(context[|context| - 1], files);
    }
  }

  lemma {:induction false} ChangesOnce(context: seq<FileSnapshot>, files: Files)
    requires WellFormed(context)
    ensures forall i, j :: 0 <= i < j < |Changes(context, files)| ==>
      Changes(context, files)[i].path != Changes(context, files)[j].path
  {
    if context != [] {
      WellFormedFront(context);
      var front, last := context[..|context| - 1], context[|context| - 1];
      ChangesOnce(front, files);
      ChangeMeaning(last, files);
      forall c | c in Changes(front, files)
        ensures c.path != last.path
      {
        ChangesListed(front, files, c);
      }
    }
  }

  /** A listed change is a tracked path whose contents differ, with both contents and the right
      status; every tracked path that differs is listed, and listed once. */
  lemma ChangesExact(context: seq<FileSnapshot>, files: Files)
    requires WellFormed(context)
    ensures forall c :: c in Changes(context, files) ==>
      && (c.status == Added <==> c.before.None?) && (c.status == Deleted <==> c.after.None?)
      && c.after == (if c.path in files then Some(files[c.path]) else None)
      && exists s :: s in context && s.path == c.path && c.before == (if s.existed then s.content else None)
    ensures forall c :: c in Changes(context, files) <==>
      exists s :: s in context && Differs(s, files) && c == Report(s, files)
    ensures forall i, j :: 0 <= i < j < |Changes(context, files)| ==>
      Changes(context, files)[i].path != Changes(context, files)[j].path
  {
    forall c
      ensures c in Changes(context, files) <==> exists s :: s in context && Differs(s, files) && c == Report(s, files)
    {
      ChangesListed(context, files, c);
    }
    ChangesOnce(context, files);
  }

  /** Nothing is reported exactly when every tracked path is as it was. */
  lemma NoChangesIff(context: seq<FileSnapshot>, files: Files)
    requires WellFormed(context)
    ensures Changes(context, files) == [] <==> Agrees(context, files)
  {
    if Changes(context, files) != [] {
      ChangesListed(context, files, Changes(context, files)[0]);
    }
    forall s | s in context && Differs(s, files)
      ensures Changes(context, files) != []
    {
      ChangesListed(context, files, Report(s, files));
    }
  }

  function Put(files: Files, path: Path, content: Option<Bytes>): Files {
    match content
    case Some(b) => files[path := b]
    case None => files - {path}
  }

  function Rewound(context: seq<FileSnapshot>, files: Files): Files {
    if context == [] then files else
      var last := context[|context| - 1];
      Put(Rewound(context[..|context| - 1], files), last.path, last.Before())
  }

  method RestoreWriteContext(disk: Disk, context: seq<FileSnapshot>)
    modifies disk
    ensures disk.files == Rewound(context, old(disk.files))
  {
    for i := 0 to |context|
      invariant disk.files == Rewound(context[..i], old(disk.files))
    {
      assert context[..i + 1][..i] == context[..i];
      var snapshot := context[i];
      if snapshot.existed {
        disk.WriteBytes(snapshot.path, match snapshot.content case Some(b) => b case None => "");
      } else if disk.IsFile(snapshot.path) {
        disk.Unlink(snapshot.path);
      } else {
        assert disk.files - {snapshot.path} == disk.files;
      }
    }
    assert context[..|context|] == context;
  }

  lemma {:induction false} RewoundElsewhere(context: seq<FileSnapshot>, files: Files, p: Path)
    requires forall s :: s in context ==> s.path != p
    ensures Lookup(Rewound(context, files), p) == Lookup(files, p)
  {
    if context != [] {
      assert context[|context| - 1] in context;
      assert forall s :: s in context[..|context| - 1] ==> s in context;
      RewoundElsewhere(context[..|context| - 1], files, p);
    }
  }

  lemma {:induction false} RewoundTracked(context: seq<FileSnapshot>, files: Files, s: FileSnapshot)
    requires WellFormed(context) && s in context
    ensures Lookup(Rewound(context, files), s.path) == s.Before()
  {
    WellFormedFront(context);
    if s != context[|context| - 1] {
      RewoundTracked(context[..|context| - 1], files, s);
    }
  }

  /** A rollback returns every tracked path to its snapshot and touches no other path. */
  lemma RewoundExact(context: seq<FileSnapshot>, files: Files)
    requires WellFormed(context)
    ensures Agrees(context, Rewound(context, files))
    ensures forall p :: (forall s :: s in context ==> s.path != p) ==>
      Lookup(Rewound(context, files), p) == Lookup(files, p)
  {
    forall s | s in context
      ensures Lookup(Rewound(context, files), s.path) == s.Before()
    {
      RewoundTracked(context, files, s);
    }
    forall p | forall s :: s in context ==> s.path != p
      ensures Lookup(Rewound(context, files), p) == Lookup(files, p)
    {
      RewoundElsewhere(context, files, p);
    }
  }

  /** Whatever the tool and others did to the disk, detecting after a rollback finds nothing. */
  lemma DetectAfterRestore(before: Files, raw: seq<Path>, after: Files)
    ensures var context := Snapshots(before, Distinct(raw));
      && Changes(context, Rewound(context, after)) == []
      && forall p :: Lookup(Rewound(context, after), p) == if p in raw then Lookup(before, p) else Lookup(after, p)
  {
    var context := Snapshots(before, Distinct(raw));
    DistinctElements(raw);
    PreparedWellFormed(before, raw);
    RewoundExact(context, after);
    NoChangesIff(context, Rewound(context, after));
    forall p
      ensures Lookup(Rewound(context, after), p) == if p in raw then Lookup(before, p) else Lookup(after, p)
    {
      if p in raw {
        var i :| 0 <= i < |Distinct(raw)| && Distinct(raw)[i] == p;
        assert context[i] in context;
      }
    }
  }
}
