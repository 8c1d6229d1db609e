/**
 * The decision rules of one asset, as values: what a declaration argument
 * sets, which references count as remote, how a variant is resolved and
 * dated, when a cache slot is stale, and what regenerating the cache writes.
 * The Asset class in module AbstractAsset applies these rules to its fields.
 */
module AssetRules {
  import opened Common
  import opened Strings
  import opened FileSystem

  /** A path or URL field: null (not resolved), false (variant undeclared) or a string. */
  datatype Ref = NullRef | FalseRef | At(value: string)

  /** A memoized modification time: null (not computed), false (no variant) or a time. */
  datatype Stamp = NotComputed | Unavailable | Time(t: int)

  /** The two source variants of an asset. */
  datatype Variant = Dev | Prod

  /** What the asset learns about one cache slot: missing (or unreadable), or present with its mtime. */
  datatype Slot = Missing | Present(mtime: int)

  /** One report to the error callback; Details gives the text the callback receives. */
  datatype Failure =
    | BothUndeclared
    | InvalidFile(file: string)
    | MissingFile
    | UnreadableFile
    | MissingSlot(minified: bool)
    | UnreadableSlot(minified: bool)
    | NoContents

  /**
   * The `details` text of each report. The single-quoted PHP literals do not
   * interpolate, so placeholders such as `{$filepath}` appear as written.
   */
  function Details(f: Failure): string
  {
    match f
    case BothUndeclared =>
      "You have tried to Add an asset to Asset Manager with undefined \"$dev_file\" and \"$prod_file\" values!"
    case InvalidFile(file) => "You have specified an invalid file. FileName: \"" + file + "\""
    case MissingFile => "Could not find file at '{$filepath}'"
    case UnreadableFile => "Could not read asset file at '{$filepath}'"
    case MissingSlot(minified) => "Could not find file at '" + (if minified then "{$Parsed_minified}" else "{$Parsed}") + "'"
    case UnreadableSlot(minified) => "Could not read asset file at '" + (if minified then "{$Parsed_minified}" else "{$Parsed}") + "'"
    case NoContents => "Could not get file contents for '{$ref}'"
  }

  /** Session settings the asset reads. `prepend` is the prefix every cache file name carries. */
  datatype Config = Config(
    dev: bool, forceCurl: bool, cachePath: string, cacheUrl: string, prepend: string,
    formatDate: int -> string)

  /**
   * What each concrete asset kind (style or script) supplies: where its files
   * live, how a file reference becomes a path and a URL, and how content is
   * parsed and minified.
   */
  datatype Capabilities = Capabilities(
    assetPath: string, filePath: string -> string, fileUrl: string -> string,
    parse: string -> string, minify: string -> string)

  // ---------------------------------------------------------------- declaration

  /** A `group` or `groups` argument: one name, or an array of values. */
  datatype GroupSpec = OneGroup(groupName: string) | GroupList(items: seq<Value>)

  /**
   * One declaration argument. Every other key is `Other` and leaves the
   * modelled fields as they are, although parse_args assigns whatever
   * property it names (the resolved paths, remote flags, memoized names and
   * dates included); `cacheable` and `minify_able` are taken to be booleans.
   */
  datatype Arg =
    | DevFile(dev: string)
    | ProdFile(prod: string)
    | Groups(groupsSpec: GroupSpec)
    | Group(groupSpec: GroupSpec)
    | Requires(required: Value)
    | Cacheable(isCacheable: bool)
    | MinifyAble(isMinifyAble: bool)
    | Name(assetName: string)
    | Extension(ext: string)
    | Other(key: string, value: Value)

  /** The declared fields of an asset, as parse_args leaves them. */
  datatype Declaration = Declaration(
    devFile: string, prodFile: string, groups: seq<Value>, group: seq<Value>,
    required: Value, cacheable: bool, minifyAble: bool, name: string, extension: string)

  /** The field defaults before any argument is applied (an undeclared file is ""). */
  const Defaults := Declaration("", "", [], [], Arr([]), true, true, "", "")

  /** A string given for `group`/`groups` is wrapped into a one-element array. */
  function GroupValues(g: GroupSpec): seq<Value>
  {
    match g
    case OneGroup(s) => [Str(s)]
    case GroupList(items) => items
  }

  /** One iteration of parse_args: the argument's field takes its value. */
  function Assign(d: Declaration, a: Arg): Declaration
  {
    match a
    case DevFile(f) => d.(devFile := f)
    case ProdFile(f) => d.(prodFile := f)
    case Groups(g) => d.(groups := GroupValues(g))
    case Group(g) => d.(group := GroupValues(g))
    case Requires(v) => d.(required := v)
    case Cacheable(b) => d.(cacheable := b)
    case MinifyAble(b) => d.(minifyAble := b)
    case Name(n) => d.(name := n)
    case Extension(e) => d.(extension := e)
    case Other(_, _) => d
  }

  /** parse_args over an argument list, first to last. */
  function Declare(d: Declaration, args: seq<Arg>): Declaration
    decreases |args|
  {
    if args == [] then d else Declare(Assign(d, args[0]), args[1..])
  }

  /** Arguments apply in order: the last one decides its field. */
  lemma {:induction false} DeclareSnoc(d: Declaration, args: seq<Arg>, a: Arg)
    ensures Declare(d, args + [a]) == Assign(Declare(d, args), a)
    decreases |args|
  {
    if args != [] {
      assert (args + [a])[1..] == args[1..] + [a];
      DeclareSnoc(Assign(d, args[0]), args[1..], a);
    }
  }

  /**
   * A `groups` argument given as a string, after any earlier arguments, leaves
   * exactly the one-element array holding it.
   */
  lemma GroupsStringWrapped(d: Declaration, args: seq<Arg>, g: string)
    ensures Declare(d, args + [Groups(OneGroup(g))]).groups == [Str(g)]
  {
    DeclareSnoc(d, args, Groups(OneGroup(g)));
  }

  /** get_requires: a string becomes a one-element list, an array is returned as is, anything else is empty. */
  function RequiresList(v: Value): (r: seq<Value>)
    ensures v.Str? ==> r == [v]
    ensures v.Arr? ==> r == v.items
    ensures !v.Str? && !v.Arr? ==> r == []
  {
    match v
    case Str(_) => [v]
    case Arr(items) => items
    case _ => []
  }

  // ---------------------------------------------------------------- groups

  /** `g` occurs as a string anywhere inside `v`, at any depth of nesting. */
  predicate Nested(g: string, v: Value)
  {
    match v
    case Str(s) => s == g
    case Arr(items) => exists i :: 0 <= i < |items| && Nested(g, items[i])
    case _ => false
  }

  /** A list of groups in which no string occurs twice. */
  predicate NoDuplicateStrings(gs: seq<Value>)
  {
    forall i, j :: 0 <= i < j < |gs| && gs[i].Str? ==> gs[i] != gs[j]
  }

  /**
   * The groups after add_groups(v): non-empty strings are appended in the order
   * met, depth first, each only if not already present; nothing else is added.
   */
  function AddedGroups(gs: seq<Value>, v: Value): (r: seq<Value>)
    ensures |gs| <= |r| && r[..|gs|] == gs
    ensures forall i :: |gs| <= i < |r| ==> r[i].Str? && r[i].s != "" && r[i] !in r[..i]
    ensures forall g :: g != "" && Nested(g, v) ==> Str(g) in r
    decreases v
  {
    match v
    case Str(s) => if s != "" && Str(s) !in gs then gs + [Str(s)] else gs
    case Arr(items) => AddedAll(gs, items)
    case _ => gs
  }

  /** add_groups applied to each element of an array, in order. */
  function AddedAll(gs: seq<Value>, items: seq<Value>): (r: seq<Value>)
    ensures |gs| <= |r| && r[..|gs|] == gs
    ensures forall i :: |gs| <= i < |r| ==> r[i].Str? && r[i].s != "" && r[i] !in r[..i]
    ensures forall g, k :: 0 <= k < |items| && g != "" && Nested(g, items[k]) ==> Str(g) in r
    decreases items
  {
    if items == [] then gs
    else
      var init := items[..|items| - 1];
      var before := AddedAll(gs, init);
      var r := AddedGroups(before, items[|items| - 1]);
      assert forall i | |gs| <= i < |before| :: r[..i] == before[..i] by {
        forall i | |gs| <= i < |before| ensures r[..i] == before[..i] {
          assert r[..i] == r[..|before|][..i];
        }
      }
      assert forall g, k | 0 <= k < |items| - 1 && g != "" && Nested(g, items[k]) :: Str(g) in r by {
        forall g, k | 0 <= k < |items| - 1 && g != "" && Nested(g, items[k]) ensures Str(g) in r {
          assert items[k] == init[k];
          var j :| 0 <= j < |before| && before[j] == Str(g);
          assert r[j] == r[..|before|][j];
        }
      }
      r
  }

  /** Nothing else is added: every group add_groups appends occurs as a string in its argument. */
  lemma {:induction false} AddedGroupsFromArgument(gs: seq<Value>, v: Value)
    ensures forall i :: |gs| <= i < |AddedGroups(gs, v)| ==> Nested(AddedGroups(gs, v)[i].s, v)
    decreases v, 1
  {
    if v.Arr? {
      AddedAllFromItems(gs, v.items);
      var r := AddedGroups(gs, v);
      assert r == AddedAll(gs, v.items);
      forall i | |gs| <= i < |r| ensures Nested(r[i].s, v) {
        var k :| 0 <= k < |v.items| && Nested(r[i].s, v.items[k]);
      }
    }
  }

  /** The same for an array argument: every appended group occurs in one of its elements. */
  lemma {:induction false} AddedAllFromItems(gs: seq<Value>, items: seq<Value>)
    ensures forall i :: |gs| <= i < |AddedAll(gs, items)| ==>
      exists k :: 0 <= k < |items| && Nested(AddedAll(gs, items)[i].s, items[k])
    decreases items, 0
  {
    if items != [] {
      var init := items[..|items| - 1];
      var before := AddedAll(gs, init);
      var r := AddedGroups(before, items[|items| - 1]);
      assert AddedAll(gs, items) == r;
      AddedAllFromItems(gs, init);
      AddedGroupsFromArgument(before, items[|items| - 1]);
      forall i | |gs| <= i < |r| ensures exists k :: 0 <= k < |items| && Nested(r[i].s, items[k]) {
        if i < |before| {
          assert r[i] == r[..|before|][i];
          var k :| 0 <= k < |init| && Nested(before[i].s, init[k]);
          assert items[k] == init[k];
        } else {
          assert Nested(r[i].s, items[|items| - 1]);
        }
      }
    } else {
      assert AddedAll(gs, items) == gs;
    }
  }

  /** add_groups keeps a duplicate-free group list duplicate-free. */
  lemma AddedGroupsNoDuplicates(gs: seq<Value>, v: Value)
    requires NoDuplicateStrings(gs)
    ensures NoDuplicateStrings(AddedGroups(gs, v))
  {
    var r := AddedGroups(gs, v);
    forall i, j | 0 <= i < j < |r| && r[i].Str? ensures r[i] != r[j] {
      if j < |gs| {
        assert r[i] == gs[i] && r[j] == gs[j];
      } else {
        assert r[i] in r[..j];
      }
    }
  }

  // ---------------------------------------------------------------- validation

  /** file_exists: a remote reference is accepted untouched; a local one must exist and be readable under the asset path. */
  predicate FileAccepted(file: string, assetPath: string, files: Files)
  {
    IsRemoteRef(file) || (assetPath + file in files && files[assetPath + file].readable)
  }

  /**
   * validate's verdict: at least one variant declared, and every declared
   * variant accepted.
   */
  predicate ValidDeclaration(dev: string, prod: string, assetPath: string, files: Files)
  {
    !(dev == "" && prod == "")
    && (dev != "" ==> FileAccepted(dev, assetPath, files))
    && (prod != "" ==> FileAccepted(prod, assetPath, files))
  }

  /**
   * The verdict depends on the filesystem only through declared local
   * variants: remote references are never looked up.
   */
  lemma ValidationIgnoresDiskForRemote(dev: string, prod: string, assetPath: string, f1: Files, f2: Files)
    requires dev != "" ==> IsRemoteRef(dev)
    requires prod != "" ==> IsRemoteRef(prod)
    ensures ValidDeclaration(dev, prod, assetPath, f1) == ValidDeclaration(dev, prod, assetPath, f2)
  {
  }

  /** What validate leaves for one variant: its resolved path and url, and its remote flag. */
  datatype Resolved = Resolved(path: Ref, url: Ref, remote: bool)

  /**
   * validate's treatment of one variant: an undeclared one gets path and url
   * false; an accepted one its path and url from the asset type; a remote
   * reference sets the remote flag; a refused one keeps what it had.
   */
  function Resolve(file: string, caps: Capabilities, files: Files, before: Resolved): Resolved
  {
    if file == "" then before.(path := FalseRef, url := FalseRef)
    else
      var r := before.(remote := before.remote || IsRemoteRef(file));
      if FileAccepted(file, caps.assetPath, files) then r.(path := At(caps.filePath(file)), url := At(caps.fileUrl(file)))
      else r
  }

  /** The outcome of validate: the verdict, both variants' state and the reports made. */
  datatype Validation = Validation(ok: bool, dev: Resolved, prod: Resolved, log: seq<Failure>)

  /**
   * validate: both files undeclared is refused at once; otherwise the dev
   * variant is examined, and the prod variant only if the dev one passed.
   */
  function Validated(dev: string, prod: string, caps: Capabilities, files: Files,
                     devBefore: Resolved, prodBefore: Resolved): Validation
  {
    if dev == "" && prod == "" then Validation(false, devBefore, prodBefore, [BothUndeclared])
    else
      var d := Resolve(dev, caps, files, devBefore);
      var devLog := VariantLog(dev, caps.assetPath, files);
      if dev != "" && !FileAccepted(dev, caps.assetPath, files) then Validation(false, d, prodBefore, devLog)
      else
        Validation(prod == "" || FileAccepted(prod, caps.assetPath, files), d,
                   Resolve(prod, caps, files, prodBefore), devLog + VariantLog(prod, caps.assetPath, files))
  }

  /**
   * validate's verdict is ValidDeclaration; an undeclared variant gets path
   * and url false; a report is made exactly when the verdict is false.
   */
  lemma ValidatedVerdict(dev: string, prod: string, caps: Capabilities, files: Files,
                         devBefore: Resolved, prodBefore: Resolved)
    ensures var r := Validated(dev, prod, caps, files, devBefore, prodBefore);
      && r.ok == ValidDeclaration(dev, prod, caps.assetPath, files)
      && (dev == "" && prod != "" ==> r.dev.path == r.dev.url == FalseRef)
      && (prod == "" && dev != "" && r.ok ==> r.prod.path == r.prod.url == FalseRef)
      && (r.ok <==> r.log == [])
  {
  }

  /**
   * An asset declared with a dev file only is served from its dev variant:
   * once validated, the prod path is false, so create_cache reads the dev path.
   */
  lemma UndeclaredProdServesDev(dev: string, caps: Capabilities, files: Files, devBefore: Resolved, prodBefore: Resolved)
    requires dev != ""
    ensures var v := Validated(dev, "", caps, files, devBefore, prodBefore);
      v.ok ==> v.prod.path == FalseRef && v.dev.path == At(caps.filePath(dev))
               && SourceRef(v.prod.path, v.prod.remote, v.dev.path, v.dev.remote) == (v.dev.path, v.dev.remote)
  {
  }

  /** The failures file_exists reports for `file` (none for a remote reference). */
  function FileCheckLog(file: string, assetPath: string, files: Files): seq<Failure>
  {
    if IsRemoteRef(file) then []
    else if assetPath + file !in files then [MissingFile]
    else if !files[assetPath + file].readable then [UnreadableFile]
    else []
  }

  /**
   * The reports validate makes for one variant: none when undeclared, else
   * file_exists's reports, then the invalid-file report if it was refused.
   */
  function VariantLog(file: string, assetPath: string, files: Files): seq<Failure>
  {
    if file == "" then []
    else FileCheckLog(file, assetPath, files)
         + (if FileAccepted(file, assetPath, files) then [] else [InvalidFile(file)])
  }

  // ---------------------------------------------------------------- names and dates

  /** get_name's derivation: the prod file's base name, or the dev file's when that is empty. */
  function DerivedName(prodFile: string, devFile: string): string
  {
    if LastSegment(prodFile) != "" then LastSegment(prodFile) else LastSegment(devFile)
  }

  /** The name get_name leaves: a non-empty name stays; an empty one is derived. */
  function NameAfter(current: string, prodFile: string, devFile: string): string
  {
    if current != "" then current else DerivedName(prodFile, devFile)
  }

  /**
   * A derived name is a plain file name (no '/'), the tail of the prod file
   * when that has a non-empty base name, else the tail of the dev file.
   */
  lemma DerivedNameIsBaseName(prodFile: string, devFile: string)
    ensures var r := DerivedName(prodFile, devFile);
      && '/' !in r
      && (LastSegment(prodFile) != "" ==> r == LastSegment(prodFile))
      && (LastSegment(prodFile) == "" ==> r == LastSegment(devFile))
  {
    LastSegmentIsBaseName(prodFile);
    LastSegmentIsBaseName(devFile);
  }

  /** get_name is stable: asking again leaves the name it produced. */
  lemma NameAfterIdempotent(current: string, prodFile: string, devFile: string)
    ensures NameAfter(NameAfter(current, prodFile, devFile), prodFile, devFile) == NameAfter(current, prodFile, devFile)
  {
  }

  /** filemtime of an existing file (0 where PHP would fail on a vanished file). */
  function MTime(files: Files, p: string): int
  {
    if p in files then files[p].mtime else 0
  }

  /**
   * get_*_date_modified when not yet memoized: unavailable for an unresolved or
   * undeclared variant, the epoch for a remote one, the file's mtime otherwise.
   */
  function DateOf(path: Ref, remote: bool, files: Files): (r: Stamp)
    ensures r != NotComputed
    ensures r == Unavailable <==> !path.At?
  {
    match path
    case At(p) => if !remote then Time(MTime(files, p)) else Time(0)
    case _ => Unavailable
  }

  /** A memoized value: once computed it is returned unchanged. */
  function Memo(stored: Stamp, computed: Stamp): Stamp
  {
    if stored == NotComputed then computed else stored
  }

  // ---------------------------------------------------------------- cache slots

  /** The suffix of a cache file: `.parsed.` or `.parsed.min.`. */
  function SlotSuffix(minified: bool): string
  {
    if minified then ".parsed.min." else ".parsed."
  }

  /**
   * Where an asset's cache files live: the directory (cache path or URL
   * followed by the file prefix), the asset's name and its extension.
   */
  datatype Slots = Slots(dir: string, name: string, extension: string)

  /** `<dir><name>.parsed.<ext>` or `<dir><name>.parsed.min.<ext>`. */
  function SlotPath(s: Slots, minified: bool): string
  {
    s.dir + s.name + SlotSuffix(minified) + s.extension
  }

  /** The parsed and the minified cache file of one asset never coincide. */
  lemma SlotPathsDiffer(s: Slots)
    ensures SlotPath(s, true) != SlotPath(s, false)
  {
    assert |SlotPath(s, true)| == |SlotPath(s, false)| + 4;
  }

  /** get_cached_file_path's test: the slot counts only if it exists and is readable. */
  function Probe(files: Files, p: string): (s: Slot)
    ensures s.Present? <==> p in files && files[p].readable
    ensures s.Present? ==> s.mtime == files[p].mtime
  {
    if p in files && files[p].readable then Present(files[p].mtime) else Missing
  }

  /** The reports cache_file_exists makes for a missing or an unreadable slot. */
  function ProbeLog(files: Files, p: string, minified: bool): seq<Failure>
  {
    if p !in files then [MissingSlot(minified)]
    else if !files[p].readable then [UnreadableSlot(minified)]
    else []
  }

  /**
   * create_cache's staleness test: a slot is regenerated iff it is missing or
   * the source is strictly newer. An unavailable source time compares as not
   * newer (PHP compares `false > DateTime` as false).
   */
  predicate Stale(modified: Stamp, slot: Slot)
  {
    slot.Missing? || (modified.Time? && modified.t > slot.mtime)
  }

  /**
   * A remote source is dated at the epoch, so once a slot exists (with a
   * non-negative mtime) it is never regenerated for a remote asset.
   */
  lemma RemoteSlotNeverStale(files: Files, slotPath: string, path: string)
    requires Probe(files, slotPath).Present? && files[slotPath].mtime >= 0
    ensures !Stale(DateOf(At(path), true, files), Probe(files, slotPath))
  {
  }

  /** Which file create_cache reads: the prod variant when resolved, else the dev variant. */
  function SourceRef(prodPath: Ref, prodRemote: bool, devPath: Ref, devRemote: bool): (r: (Ref, bool))
    ensures prodPath.At? ==> r == (prodPath, prodRemote)
    ensures !prodPath.At? ==> r == (devPath, devRemote)
  {
    if prodPath.At? then (prodPath, prodRemote) else (devPath, devRemote)
  }

  /**
   * The raw content fetch: over the network (an oracle that may fail) when
   * remote or forced, otherwise file_get_contents; nothing for a reference
   * that is not a string.
   */
  function FetchRaw(ref: Ref, viaNetwork: bool, files: Files, net: string -> Option<string>): Option<string>
  {
    match ref
    case At(p) => if viaNetwork then net(p) else ReadFile(files, p)
    case _ => None
  }

  /** _get_asset_contents's reference: `//x` is requested as `http://x` when fetched over the network. */
  function DirectRef(ref: Ref, viaNetwork: bool): (r: Ref)
    ensures viaNetwork && ref.At? && IsRemoteRef(ref.value) ==>
      r.At? && (StartsWithIgnoringCase(r.value, "http://") || StartsWithIgnoringCase(r.value, "https://"))
  {
    match ref
    case At(p) =>
      if viaNetwork then
        if IsRemoteRef(p) then RemoteRefGetsScheme(p); At(WithScheme(p))
        else At(WithScheme(p))
      else ref
    case _ => ref
  }

  const Rule := "|--------------------------------------------------------------------------"

  /** The comment block prepended to the parsed cache file. */
  function Header(name: string, devDate: Stamp, formatDate: int -> string): string
  {
    var date := if devDate.Time? then formatDate(devDate.t) else "";
    "/*\n" + Rule + "\n| " + name + "\n" + Rule + "\n| Last Modified : " + date + "\n*/"
  }

  /** The texts create_cache writes, from the raw content fetched once. */
  function MinText(caps: Capabilities, raw: string): string
  {
    caps.minify(caps.parse(raw)) + "\n"
  }

  function ParsedText(caps: Capabilities, header: string, raw: string): string
  {
    header + caps.parse(raw) + "\n"
  }

  /** Where create_cache writes, and what. */
  datatype CacheJob = CacheJob(minPath: string, parsedPath: string, minText: string, parsedText: string)

  /** The job for an asset's slots, from the header and the raw content. */
  function Job(s: Slots, caps: Capabilities, header: string, raw: string): CacheJob
  {
    CacheJob(SlotPath(s, true), SlotPath(s, false), MinText(caps, raw), ParsedText(caps, header, raw))
  }

  /**
   * The writing phase of create_cache, once content is in hand: the minified
   * slot first, then the parsed slot, each only when stale, stopping with false
   * at the first open that fails.
   */
  function WriteSlots(files: Files, unwritable: set<string>, now: int,
                      createMin: bool, createParsed: bool, job: CacheJob): (r: (bool, Files))
    ensures r.0 <==> !(createMin && job.minPath in unwritable) && !(createParsed && job.parsedPath in unwritable)
  {
    if createMin && job.minPath in unwritable then (false, files)
    else
      var afterMin := if createMin then Written(files, job.minPath, job.minText, now) else files;
      if createParsed && job.parsedPath in unwritable then (false, afterMin)
      else (true, if createParsed then Written(afterMin, job.parsedPath, job.parsedText, now) else afterMin)
  }

  /**
   * Only stale slots are written, and each with its own text: every file the
   * writing phase changes is a stale slot holding that slot's text.
   */
  lemma WriteSlotsTouchesOnlyStale(files: Files, unwritable: set<string>, now: int,
                                   createMin: bool, createParsed: bool, job: CacheJob, p: string)
    requires job.minPath != job.parsedPath
    requires var f' := WriteSlots(files, unwritable, now, createMin, createParsed, job).1;
      p in f' && (p !in files || f'[p] != files[p])
    ensures var f' := WriteSlots(files, unwritable, now, createMin, createParsed, job).1;
      (p == job.minPath && createMin && f'[p] == FileInfo(job.minText, now, true))
      || (p == job.parsedPath && createParsed && f'[p] == FileInfo(job.parsedText, now, true))
  {
  }

  /** One slot of the asset needs regenerating: missing, or older than the source. */
  predicate StaleSlot(files: Files, s: Slots, modified: Stamp, minified: bool)
  {
    Stale(modified, Probe(files, SlotPath(s, minified)))
  }

  predicate StaleAny(files: Files, s: Slots, modified: Stamp)
  {
    StaleSlot(files, s, modified, false) || StaleSlot(files, s, modified, true)
  }

  /** The reports of create_cache's two slot lookups, parsed slot first. */
  function ProbeLogs(files: Files, s: Slots): seq<Failure>
  {
    ProbeLog(files, SlotPath(s, false), false) + ProbeLog(files, SlotPath(s, true), true)
  }

  /**
   * The files create_cache leaves, from the files, the source date and the raw
   * content it starts with: unchanged unless some slot is stale and the
   * content was fetched; then the writing phase's result.
   */
  function CachedFiles(files: Files, unwritable: set<string>, now: int, s: Slots, modified: Stamp,
                       raw: Option<string>, caps: Capabilities, header: string): Files
  {
    if !StaleAny(files, s, modified) || raw.None? then files
    else WriteSlots(files, unwritable, now, StaleSlot(files, s, modified, true), StaleSlot(files, s, modified, false),
                    Job(s, caps, header, raw.value)).1
  }

  /**
   * The dev date after the writing phase. The parsed slot's header asks for
   * it, after the minified slot has been written, and the getter computes it
   * then if it was not yet memoized. A phase that stops before the parsed slot
   * leaves it as it was.
   */
  function DevDateAfterWrite(stored: Stamp, devPath: Ref, devRemote: bool, files: Files, unwritable: set<string>,
                             now: int, createMin: bool, createParsed: bool, s: Slots, caps: Capabilities,
                             raw: string): Stamp
  {
    if createParsed && !(createMin && SlotPath(s, true) in unwritable) then
      Memo(stored, DateOf(devPath, devRemote,
                          if createMin then Written(files, SlotPath(s, true), MinText(caps, raw), now) else files))
    else stored
  }

  /** The dev date create_cache leaves, from the state it starts with. */
  function CachedDevDate(stored: Stamp, devPath: Ref, devRemote: bool, files: Files, unwritable: set<string>,
                         now: int, s: Slots, modified: Stamp, raw: Option<string>, caps: Capabilities): Stamp
  {
    if !StaleAny(files, s, modified) || raw.None? then stored
    else DevDateAfterWrite(stored, devPath, devRemote, files, unwritable, now,
                           StaleSlot(files, s, modified, true), StaleSlot(files, s, modified, false), s, caps, raw.value)
  }

  /**
   * The dev date is memoized across create_cache: once computed it is kept,
   * and whenever the parsed slot is written its header carries a computed
   * date (never "not computed").
   */
  lemma CachedDevDateMemoized(stored: Stamp, devPath: Ref, devRemote: bool, files: Files, unwritable: set<string>,
                              now: int, s: Slots, modified: Stamp, raw: Option<string>, caps: Capabilities, header: string)
    ensures stored != NotComputed ==>
      CachedDevDate(stored, devPath, devRemote, files, unwritable, now, s, modified, raw, caps) == stored
    ensures var f' := CachedFiles(files, unwritable, now, s, modified, raw, caps, header);
      SlotPath(s, false) in f' && (SlotPath(s, false) !in files || f'[SlotPath(s, false)] != files[SlotPath(s, false)]) ==>
      CachedDevDate(stored, devPath, devRemote, files, unwritable, now, s, modified, raw, caps) != NotComputed
  {
    SlotPathsDiffer(s);
  }

  /** The reports create_cache makes: the two lookups', then a failed fetch's. */
  function CacheLog(files: Files, s: Slots, modified: Stamp, raw: Option<string>): seq<Failure>
  {
    ProbeLogs(files, s) + (if StaleAny(files, s, modified) && raw.None? then [NoContents] else [])
  }

  /**
   * When create_cache answers true: no slot stale, or the content fetched and
   * every stale slot's file opened for writing.
   */
  predicate CacheServes(files: Files, unwritable: set<string>, s: Slots, modified: Stamp, raw: Option<string>)
  {
    !StaleAny(files, s, modified)
    || (&& raw.Some?
        && !(StaleSlot(files, s, modified, true) && SlotPath(s, true) in unwritable)
        && !(StaleSlot(files, s, modified, false) && SlotPath(s, false) in unwritable))
  }

  /** The three views of create_cache when some slot is stale, in terms of the writing phase. */
  lemma StaleCache(files: Files, unwritable: set<string>, now: int, s: Slots, modified: Stamp,
                   raw: Option<string>, caps: Capabilities, header: string)
    requires StaleAny(files, s, modified)
    ensures raw.None? ==>
      && CachedFiles(files, unwritable, now, s, modified, raw, caps, header) == files
      && CacheLog(files, s, modified, raw) == ProbeLogs(files, s) + [NoContents]
      && !CacheServes(files, unwritable, s, modified, raw)
    ensures raw.Some? ==>
      var w := WriteSlots(files, unwritable, now, StaleSlot(files, s, modified, true),
                          StaleSlot(files, s, modified, false), Job(s, caps, header, raw.value));
      && CachedFiles(files, unwritable, now, s, modified, raw, caps, header) == w.1
      && CacheLog(files, s, modified, raw) == ProbeLogs(files, s)
      && (CacheServes(files, unwritable, s, modified, raw) <==> w.0)
  {
  }

  /** When create_cache answers true, both slots exist and are readable afterwards. */
  lemma CacheServedSlotsPresent(files: Files, unwritable: set<string>, now: int, s: Slots, modified: Stamp,
                                raw: Option<string>, caps: Capabilities, header: string)
    requires CacheServes(files, unwritable, s, modified, raw)
    ensures var f' := CachedFiles(files, unwritable, now, s, modified, raw, caps, header);
      Probe(f', SlotPath(s, true)).Present? && Probe(f', SlotPath(s, false)).Present?
  {
    SlotPathsDiffer(s);
    var f' := CachedFiles(files, unwritable, now, s, modified, raw, caps, header);
    if StaleAny(files, s, modified) {
      var job := Job(s, caps, header, raw.value);
      var createMin, createParsed := StaleSlot(files, s, modified, true), StaleSlot(files, s, modified, false);
      var afterMin := if createMin then Written(files, job.minPath, job.minText, now) else files;
      assert Probe(afterMin, SlotPath(s, true)).Present?;
      assert f' == if createParsed then Written(afterMin, job.parsedPath, job.parsedText, now) else afterMin;
    }
  }

  /**
   * Regeneration settles: after create_cache answered true at a time no
   * earlier than the source's, neither slot is stale, so a second run fetches
   * and writes nothing.
   */
  lemma CacheSettles(files: Files, unwritable: set<string>, now: int, s: Slots, modified: Stamp,
                     raw: Option<string>, caps: Capabilities, header: string)
    requires CacheServes(files, unwritable, s, modified, raw)
    requires modified.Time? ==> modified.t <= now
    ensures !StaleAny(CachedFiles(files, unwritable, now, s, modified, raw, caps, header), s, modified)
  {
    SlotPathsDiffer(s);
    var f' := CachedFiles(files, unwritable, now, s, modified, raw, caps, header);
    CacheServedSlotsPresent(files, unwritable, now, s, modified, raw, caps, header);
    if StaleAny(files, s, modified) {
      var job := Job(s, caps, header, raw.value);
      var createMin, createParsed := StaleSlot(files, s, modified, true), StaleSlot(files, s, modified, false);
      var afterMin := if createMin then Written(files, job.minPath, job.minText, now) else files;
      assert createMin ==> afterMin[SlotPath(s, true)].mtime == now;
      assert f' == if createParsed then Written(afterMin, job.parsedPath, job.parsedText, now) else afterMin;
    }
  }

  /** create_cache changes no file other than the asset's two slots. */
  lemma CachedFilesOnlySlots(files: Files, unwritable: set<string>, now: int, s: Slots, modified: Stamp,
                             raw: Option<string>, caps: Capabilities, header: string, p: string)
    requires p != SlotPath(s, true) && p != SlotPath(s, false)
    ensures var f' := CachedFiles(files, unwritable, now, s, modified, raw, caps, header);
      (p in f' <==> p in files) && (p in files ==> f'[p] == files[p])
  {
  }
}
