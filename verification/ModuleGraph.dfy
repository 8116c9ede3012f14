/** The closure of runtime imports used to keep the three services apart (core/scripts/trust-domain-graph.ts). */
module ModuleGraph {
  import opened Wrappers

  type Path = string

  /** The literal and the opaque imports of one source file. */
  datatype Scan = Scan(specifiers: seq<string>, dynamic: seq<string>)

  /** The file system, the path library and the TypeScript scanner. */
  datatype Host = Host(
    files: set<Path>,
    isAbsolute: string -> bool,
    extname: Path -> string,
    rebase: (Path, string) -> Path,
    index: (Path, string) -> Path,
    scan: Path -> Scan
  )

  const SOURCE_EXTENSIONS := [".ts", ".tsx", ".mts", ".cts", ".js", ".jsx", ".mjs", ".cjs", ".json"]
  const PARSED_EXTENSIONS := {".ts", ".tsx", ".mts", ".cts", ".js", ".jsx", ".mjs", ".cjs"}

  function Mapped(suffix: string): seq<string> {
    if suffix == ".js" then [".ts", ".tsx"]
    else if suffix == ".jsx" then [".tsx", ".ts"]
    else if suffix == ".mjs" then [".mts", ".ts"]
    else if suffix == ".cjs" then [".cts", ".ts"]
    else []
  }

  predicate Local(h: Host, specifier: string) {
    (specifier != "" && specifier[0] == '.') || h.isAbsolute(specifier)
  }

  function Append(base: Path, extensions: seq<string>): seq<Path> {
    seq(|extensions|, i requires 0 <= i < |extensions| => base + extensions[i])
  }

  /** The paths an import may mean, the most preferred first. */
  function Candidates(h: Host, importer: Path, specifier: string): seq<Path> {
    var base := h.rebase(importer, specifier);
    var suffix := h.extname(base);
    if suffix != "" then
      Append(if |suffix| <= |base| then base[..|base| - |suffix|] else "", Mapped(suffix)) + [base]
    else
      [base] + Append(base, SOURCE_EXTENSIONS)
      + seq(|SOURCE_EXTENSIONS|, i requires 0 <= i < |SOURCE_EXTENSIONS| => h.index(base, SOURCE_EXTENSIONS[i]))
  }

  function FirstFile(files: set<Path>, candidates: seq<Path>): (r: Option<Path>)
    ensures r.Some? ==> r.value in files
  {
    if candidates == [] then None
    else if candidates[0] in files then Some(candidates[0])
    else FirstFile(files, candidates[1..])
  }

  function Resolve(h: Host, importer: Path, specifier: string): Option<Path> {
    if Local(h, specifier) then FirstFile(h.files, Candidates(h, importer, specifier)) else None
  }

  // ---- What an import resolves to ----

  /** The first of the candidates that is a file, if any is. */
  lemma {:induction false} FirstFileIff(files: set<Path>, candidates: seq<Path>, file: Path)
    ensures FirstFile(files, candidates) == Some(file)
            <==> exists i :: 0 <= i < |candidates| && candidates[i] == file && file in files
                             && forall j :: 0 <= j < i ==> candidates[j] !in files
    ensures FirstFile(files, candidates).None? <==> forall c :: c in candidates ==> c !in files
  {
    if candidates != [] {
      var rest := candidates[1..];
      FirstFileIff(files, rest, file);
      if candidates[0] !in files {
        if i :| 0 <= i < |rest| && rest[i] == file && file in files && forall j :: 0 <= j < i ==> rest[j] !in files {
          assert candidates[i + 1] == file;
          assert forall j :: 0 <= j < i + 1 ==> j == 0 || candidates[j] == rest[j - 1];
        }
        if i :| 0 <= i < |candidates| && candidates[i] == file && file in files
                && forall j :: 0 <= j < i ==> candidates[j] !in files
        {
          assert rest[i - 1] == file;
          assert forall j :: 0 <= j < i - 1 ==> rest[j] == candidates[j + 1];
        }
      }
      assert forall c :: c in candidates <==> c == candidates[0] || c in rest;
    }
  }

  /** Imports of packages are never followed. An import of a JavaScript file means the TypeScript file it was compiled
      from, if there is one, in the order given; an import with any other extension means that file alone. */
  lemma WithExtension(h: Host, importer: Path, specifier: string, stem: Path, suffix: string)
    requires suffix != "" && h.rebase(importer, specifier) == stem + suffix && h.extname(stem + suffix) == suffix
    ensures !Local(h, specifier) ==> Resolve(h, importer, specifier).None?
    ensures Local(h, specifier) ==>
              Resolve(h, importer, specifier)
              == match suffix
                 case ".js" => FirstFile(h.files, [stem + ".ts", stem + ".tsx", stem + ".js"])
                 case ".jsx" => FirstFile(h.files, [stem + ".tsx", stem + ".ts", stem + ".jsx"])
                 case ".mjs" => FirstFile(h.files, [stem + ".mts", stem + ".ts", stem + ".mjs"])
                 case ".cjs" => FirstFile(h.files, [stem + ".cts", stem + ".ts", stem + ".cjs"])
                 case _ => FirstFile(h.files, [stem + suffix])
  {
    var base := stem + suffix;
    assert base[..|base| - |suffix|] == stem;
    assert Append(stem, Mapped(suffix)) + [base] == Candidates(h, importer, specifier);
    hide FirstFile;
    Appended(stem, Mapped(suffix), base);
  }

  lemma Appended(stem: Path, extensions: seq<string>, base: Path)
    ensures |extensions| == 2 ==>
              Append(stem, extensions) + [base] == [stem + extensions[0], stem + extensions[1], base]
    ensures extensions == [] ==> Append(stem, extensions) + [base] == [base]
  {
  }

  /** The nine names with a source extension, TypeScript first. */
  function WithEach(base: Path): seq<Path> {
    [base + ".ts", base + ".tsx", base + ".mts", base + ".cts", base + ".js",
     base + ".jsx", base + ".mjs", base + ".cjs", base + ".json"]
  }

  function IndexFiles(h: Host, base: Path): seq<Path> {
    [h.index(base, ".ts"), h.index(base, ".tsx"), h.index(base, ".mts"), h.index(base, ".cts"), h.index(base, ".js"),
     h.index(base, ".jsx"), h.index(base, ".mjs"), h.index(base, ".cjs"), h.index(base, ".json")]
  }

  /** An import without an extension means the file of that very name, else the first that has it with a source
      extension appended, else the first index file below it. */
  lemma WithoutExtension(h: Host, importer: Path, specifier: string, file: Path)
    requires Local(h, specifier) && h.extname(h.rebase(importer, specifier)) == ""
    ensures var base := h.rebase(importer, specifier);
            Resolve(h, importer, specifier) == Some(file) <==>
            && file in h.files
            && (|| file == base
                || (base !in h.files && FirstFile(h.files, WithEach(base)) == Some(file))
                || (base !in h.files && FirstFile(h.files, WithEach(base)).None?
                    && FirstFile(h.files, IndexFiles(h, base)) == Some(file)))
  {
    var base := h.rebase(importer, specifier);
    assert Candidates(h, importer, specifier) == [base] + WithEach(base) + IndexFiles(h, base);
    hide FirstFile;
    FirstOfThree(h.files, base, WithEach(base), IndexFiles(h, base), file);
  }

  /** The first file of three lists in a row, the first of length one. */
  lemma FirstOfThree(files: set<Path>, base: Path, xs: seq<Path>, ys: seq<Path>, file: Path)
    ensures FirstFile(files, [base] + xs + ys) == Some(file)
            <==> && file in files
                 && (|| file == base
                     || (base !in files && FirstFile(files, xs) == Some(file))
                     || (base !in files && FirstFile(files, xs).None? && FirstFile(files, ys) == Some(file)))
  {
    FirstOfTwo(files, xs, ys);
    assert ([base] + xs + ys)[1..] == xs + ys;
  }

  lemma {:induction false} FirstOfTwo(files: set<Path>, xs: seq<Path>, ys: seq<Path>)
    ensures FirstFile(files, xs + ys)
         == if FirstFile(files, xs).Some? then FirstFile(files, xs) else FirstFile(files, ys)
  {
    if xs == [] {
      assert xs + ys == ys;
    } else {
      FirstOfTwo(files, xs[1..], ys);
      assert (xs + ys)[1..] == xs[1..] + ys;
    }
  }

  // ---- What the graph should be ----

  predicate Parsed(h: Host, file: Path) {
    h.extname(file) in PARSED_EXTENSIONS
  }

  predicate Imports(h: Host, file: Path, target: Path) {
    Parsed(h, file) && exists s :: s in h.scan(file).specifiers && Resolve(h, file, s) == Some(target)
  }

  ghost predicate Chain(h: Host, path: seq<Path>) {
    path != [] && forall i :: 0 <= i < |path| - 1 ==> Imports(h, path[i], path[i + 1])
  }

  /** Some chain of imports leads from an entry to the file. */
  ghost predicate Reachable(h: Host, entries: seq<Path>, file: Path) {
    exists path :: Chain(h, path) && path[0] in entries && path[|path| - 1] == file
  }

  predicate Dangling(h: Host, file: Path, specifier: string) {
    Local(h, specifier) && Resolve(h, file, specifier).None?
  }

  /** An import of a file, as recorded. */
  datatype Import = Import(importer: Path, text: string)

  function Targets(h: Host, file: Path, specifiers: seq<string>): seq<Path> {
    if specifiers == [] then []
    else
      var last := |specifiers| - 1;
      var target := Resolve(h, file, specifiers[last]);
      Targets(h, file, specifiers[..last]) + if target.Some? then [target.value] else []
  }

  function Unresolved(h: Host, file: Path, specifiers: seq<string>): seq<Import> {
    if specifiers == [] then []
    else
      var last := |specifiers| - 1;
      Unresolved(h, file, specifiers[..last])
      + if Dangling(h, file, specifiers[last]) then [Import(file, specifiers[last])] else []
  }

  function Recorded(file: Path, texts: seq<string>): seq<Import> {
    if texts == [] then [] else Recorded(file, texts[..|texts| - 1]) + [Import(file, texts[|texts| - 1])]
  }

  /** How often an import is due: as often as a parsed file of the graph lists it, if it dangles. */
  ghost function DueUnresolved(h: Host, modules: set<Path>, i: Import): nat {
    if i.importer in modules && Parsed(h, i.importer) && Dangling(h, i.importer, i.text)
    then multiset(h.scan(i.importer).specifiers)[i.text] else 0
  }

  ghost function DueOpaque(h: Host, modules: set<Path>, i: Import): nat {
    if i.importer in modules && Parsed(h, i.importer) then multiset(h.scan(i.importer).dynamic)[i.text] else 0
  }

  datatype Result =
    | Graph(modules: set<Path>, unresolved: seq<Import>, dynamic: seq<Import>)
    | MissingEntry(file: Path)

  // ---- Lists of imports ----

  lemma {:induction false} TargetsAreImports(h: Host, file: Path, specifiers: seq<string>, target: Path)
    ensures target in Targets(h, file, specifiers)
            <==> exists s :: s in specifiers && Resolve(h, file, s) == Some(target)
    ensures target in Targets(h, file, specifiers) ==> target in h.files
  {
    hide Candidates, Local;
    if specifiers != [] {
      var last := |specifiers| - 1;
      assert specifiers == specifiers[..last] + [specifiers[last]];
      TargetsAreImports(h, file, specifiers[..last], target);
    }
  }

  lemma {:induction false} UnresolvedCount(h: Host, file: Path, specifiers: seq<string>, i: Import)
    ensures multiset(Unresolved(h, file, specifiers))[i]
            == if i.importer == file && Dangling(h, file, i.text) then multiset(specifiers)[i.text] else 0
  {
    hide Dangling;
    if specifiers != [] {
      var last := |specifiers| - 1;
      assert specifiers == specifiers[..last] + [specifiers[last]];
      UnresolvedCount(h, file, specifiers[..last], i);
    }
  }

  lemma {:induction false} RecordedCount(file: Path, texts: seq<string>, i: Import)
    ensures multiset(Recorded(file, texts))[i] == if i.importer == file then multiset(texts)[i.text] else 0
  {
    if texts != [] {
      var last := |texts| - 1;
      assert texts == texts[..last] + [texts[last]];
      RecordedCount(file, texts[..last], i);
    }
  }

  lemma {:induction false} RecordedPrefix(file: Path, texts: seq<string>, i: nat)
    requires i < |texts|
    ensures Recorded(file, texts[..i + 1]) == Recorded(file, texts[..i]) + [Import(file, texts[i])]
  {
    assert texts[..i + 1][..i] == texts[..i];
  }

  // ---- Reachability ----

  lemma EntryReachable(h: Host, entries: seq<Path>, file: Path)
    requires file in entries
    ensures Reachable(h, entries, file)
  {
    assert Chain(h, [file]) && [file][0] in entries;
  }

  lemma ImportReachable(h: Host, entries: seq<Path>, file: Path, target: Path)
    requires Reachable(h, entries, file) && Imports(h, file, target)
    ensures Reachable(h, entries, target)
  {
    hide Imports;
    var path :| Chain(h, path) && path[0] in entries && path[|path| - 1] == file;
    var longer := path + [target];
    assert forall i :: 0 <= i < |longer| - 1 ==> longer[i] == path[i];
    assert Chain(h, longer);
  }

  ghost predicate Closed(h: Host, modules: set<Path>) {
    forall f, g :: f in modules && Imports(h, f, g) ==> g in modules
  }

  lemma {:induction false} ChainStaysIn(h: Host, modules: set<Path>, path: seq<Path>)
    requires Closed(h, modules) && Chain(h, path) && path[0] in modules
    ensures path[|path| - 1] in modules
    decreases |path|
  {
    hide Imports;
    if |path| > 1 {
      var shorter := path[..|path| - 1];
      ChainStaysIn(h, modules, shorter);
      assert Imports(h, path[|path| - 2], path[|path| - 1]);
    }
  }

  lemma ReachableInClosed(h: Host, entries: seq<Path>, modules: set<Path>)
    requires Closed(h, modules) && forall e :: e in entries ==> e in modules
    ensures forall file :: Reachable(h, entries, file) ==> file in modules
  {
    forall file | Reachable(h, entries, file)
      ensures file in modules
    {
      var path :| Chain(h, path) && path[0] in entries && path[|path| - 1] == file;
      ChainStaysIn(h, modules, path);
    }
  }

  // ---- The worklist ----

  /** What every step of the worklist keeps: everything seen is reachable, and every entry and every import of a
      visited file is visited or waiting. */
  ghost predicate Seen(h: Host, entries: seq<Path>, modules: set<Path>, stack: seq<Path>) {
    && modules <= h.files
    && (forall f :: f in modules || f in stack ==> Reachable(h, entries, f))
    && (forall e :: e in entries ==> e in modules || e in stack)
    && (forall f, g :: f in modules && Imports(h, f, g) ==> g in modules || g in stack)
  }

  /** The entries still waiting are a prefix of the stack, and nothing else in sight can be missing. */
  ghost predicate Waiting(h: Host, entries: seq<Path>, stack: seq<Path>, m: nat) {
    && m <= |entries| && m <= |stack| && stack[..m] == entries[..m]
    && (forall k :: m <= k < |stack| ==> stack[k] in h.files)
    && (forall k :: m <= k < |entries| ==> entries[k] in h.files)
  }

  ghost predicate Accounted(h: Host, modules: set<Path>, unresolved: seq<Import>, dynamic: seq<Import>) {
    && (forall i :: multiset(unresolved)[i] == DueUnresolved(h, modules, i))
    && (forall i :: multiset(dynamic)[i] == DueOpaque(h, modules, i))
  }

  lemma PopKeepsWaiting(h: Host, entries: seq<Path>, stack: seq<Path>, m: nat) returns (n: nat)
    requires Waiting(h, entries, stack, m) && stack != [] && stack[|stack| - 1] in h.files
    ensures Waiting(h, entries, stack[..|stack| - 1], n)
  {
    n := if m == |stack| then m - 1 else m;
    assert stack[..|stack| - 1][..n] == stack[..m][..n] == entries[..m][..n] == entries[..n];
  }

  lemma PushKeepsWaiting(h: Host, entries: seq<Path>, stack: seq<Path>, more: seq<Path>, m: nat)
    requires Waiting(h, entries, stack, m) && forall g :: g in more ==> g in h.files
    ensures Waiting(h, entries, stack + more, m)
  {
    assert (stack + more)[..m] == stack[..m];
  }

  lemma SkipKeepsSeen(h: Host, entries: seq<Path>, modules: set<Path>, stack: seq<Path>)
    requires Seen(h, entries, modules, stack) && stack != [] && stack[|stack| - 1] in modules
    ensures Seen(h, entries, modules, stack[..|stack| - 1])
  {
    hide Imports, Reachable;
    var rest := stack[..|stack| - 1];
    assert stack == rest + [stack[|stack| - 1]];
  }

  lemma VisitKeepsSeen(h: Host, entries: seq<Path>, modules: set<Path>, stack: seq<Path>, more: seq<Path>)
    requires Seen(h, entries, modules, stack) && stack != [] && stack[|stack| - 1] in h.files
    requires forall g :: g in more <==> Imports(h, stack[|stack| - 1], g)
    ensures Seen(h, entries, modules + {stack[|stack| - 1]}, stack[..|stack| - 1] + more)
  {
    hide Imports, Reachable;
    var file, rest := stack[|stack| - 1], stack[..|stack| - 1];
    assert stack == rest + [file];
    forall g | g in more
      ensures Reachable(h, entries, g)
    {
      ImportReachable(h, entries, file, g);
    }
  }

  lemma VisitKeepsUnresolved(h: Host, modules: set<Path>, unresolved: seq<Import>, file: Path, more: seq<Import>)
    requires file !in modules && forall i :: multiset(unresolved)[i] == DueUnresolved(h, modules, i)
    requires more == if Parsed(h, file) then Unresolved(h, file, h.scan(file).specifiers) else []
    ensures forall i :: multiset(unresolved + more)[i] == DueUnresolved(h, modules + {file}, i)
  {
    hide Dangling, Parsed, Unresolved;
    forall i: Import
      ensures multiset(unresolved + more)[i] == DueUnresolved(h, modules + {file}, i)
    {
      UnresolvedCount(h, file, h.scan(file).specifiers, i);
    }
  }

  lemma VisitKeepsOpaque(h: Host, modules: set<Path>, dynamic: seq<Import>, file: Path, more: seq<Import>)
    requires file !in modules && forall i :: multiset(dynamic)[i] == DueOpaque(h, modules, i)
    requires more == if Parsed(h, file) then Recorded(file, h.scan(file).dynamic) else []
    ensures forall i :: multiset(dynamic + more)[i] == DueOpaque(h, modules + {file}, i)
  {
    hide Parsed, Recorded;
    forall i: Import
      ensures multiset(dynamic + more)[i] == DueOpaque(h, modules + {file}, i)
    {
      RecordedCount(file, h.scan(file).dynamic, i);
    }
  }

  /** The files reachable from the entries, with every unresolved local import and every opaque import of the parsed
      ones recorded as often as it occurs; or the last entry that is not a file. It ends on cyclic graphs too. */
  method RuntimeModuleGraph(h: Host, entries: seq<Path>) returns (r: Result)
    ensures r.Graph? <==> forall e :: e in entries ==> e in h.files
    ensures r.MissingEntry? ==>
              exists k :: 0 <= k < |entries| && entries[k] == r.file && r.file !in h.files
                          && forall j :: k < j < |entries| ==> entries[j] in h.files
    ensures r.Graph? ==> forall file :: file in r.modules <==> Reachable(h, entries, file)
    ensures r.Graph? ==> Accounted(h, r.modules, r.unresolved, r.dynamic)
  {
    hide Imports, Reachable, Parsed, Resolve, Dangling;
    var modules: set<Path>, unresolved: seq<Import>, dynamic: seq<Import> := {}, [], [];
    var stack := entries;
    ghost var m: nat := |entries|;
    forall e | e in entries
      ensures Reachable(h, entries, e)
    {
      EntryReachable(h, entries, e);
    }
    while stack != []
      invariant Seen(h, entries, modules, stack)
      invariant Waiting(h, entries, stack, m)
      invariant Accounted(h, modules, unresolved, dynamic)
      decreases h.files - modules, |stack|
    {
      var file := stack[|stack| - 1];
      if file in modules {
        SkipKeepsSeen(h, entries, modules, stack);
        m := PopKeepsWaiting(h, entries, stack, m);
        stack := stack[..|stack| - 1];
        continue;
      }
      if file !in h.files {
        assert file == stack[..m][m - 1];
        return MissingEntry(file);
      }
      ghost var seen := stack;
      m := PopKeepsWaiting(h, entries, stack, m);
      stack := stack[..|stack| - 1];
      if h.extname(file) !in PARSED_EXTENSIONS {
        NotParsed(h, file);
        VisitKeepsSeen(h, entries, modules, seen, []);
        VisitKeepsUnresolved(h, modules, unresolved, file, []);
        VisitKeepsOpaque(h, modules, dynamic, file, []);
        modules := modules + {file};
        assert stack + [] == stack && unresolved + [] == unresolved && dynamic + [] == dynamic;
        continue;
      }
      var targets, dangling, expressions := ScanImports(h, file);
      ParsedImports(h, file);
      VisitKeepsSeen(h, entries, modules, seen, targets);
      PushKeepsWaiting(h, entries, stack, targets, m);
      VisitKeepsUnresolved(h, modules, unresolved, file, dangling);
      VisitKeepsOpaque(h, modules, dynamic, file, expressions);
      modules := modules + {file};
      dynamic := dynamic + expressions;
      stack := stack + targets;
      unresolved := unresolved + dangling;
    }
    ReachableInClosed(h, entries, modules);
    r := Graph(modules, unresolved, dynamic);
  }

  lemma NotParsed(h: Host, file: Path)
    requires h.extname(file) !in PARSED_EXTENSIONS
    ensures !Parsed(h, file) && forall g :: !Imports(h, file, g)
  {
  }

  lemma ParsedImports(h: Host, file: Path)
    requires h.extname(file) in PARSED_EXTENSIONS
    ensures Parsed(h, file)
    ensures forall g :: g in Targets(h, file, h.scan(file).specifiers) <==> Imports(h, file, g)
    ensures forall g :: g in Targets(h, file, h.scan(file).specifiers) ==> g in h.files
  {
    hide Resolve;
    forall g
      ensures g in Targets(h, file, h.scan(file).specifiers) <==> Imports(h, file, g)
      ensures g in Targets(h, file, h.scan(file).specifiers) ==> g in h.files
    {
      TargetsAreImports(h, file, h.scan(file).specifiers, g);
    }
  }

  /** The imports of one file: the files it leads to, and what cannot be followed. */
  method ScanImports(h: Host, file: Path) returns (targets: seq<Path>, dangling: seq<Import>, expressions: seq<Import>)
    ensures targets == Targets(h, file, h.scan(file).specifiers)
    ensures dangling == Unresolved(h, file, h.scan(file).specifiers)
    ensures expressions == Recorded(file, h.scan(file).dynamic)
  {
    var scan := h.scan(file);
    targets, dangling, expressions := [], [], [];
    for i := 0 to |scan.dynamic|
      invariant expressions == Recorded(file, scan.dynamic[..i])
    {
      RecordedPrefix(file, scan.dynamic, i);
      expressions := expressions + [Import(file, scan.dynamic[i])];
    }
    assert scan.dynamic[..|scan.dynamic|] == scan.dynamic;
    for i := 0 to |scan.specifiers|
      invariant targets == Targets(h, file, scan.specifiers[..i])
      invariant dangling == Unresolved(h, file, scan.specifiers[..i])
    {
      var specifier := scan.specifiers[i];
      assert scan.specifiers[..i + 1][..i] == scan.specifiers[..i];
      if Local(h, specifier) {
        var target := FirstFile(h.files, Candidates(h, file, specifier));
        if target.Some? {
          targets := targets + [target.value];
        } else {
          dangling := dangling + [Import(file, specifier)];
        }
      }
    }
    assert scan.specifiers[..|scan.specifiers|] == scan.specifiers;
  }
}
