/**
 * One declared asset (style or script) with its dev and prod variants: the
 * fields the shared asset code updates in place, and its operations —
 * argument parsing, validation, memoized names and dates, group membership,
 * and the two-slot cache (parsed, parsed-and-minified) it keeps per asset.
 */
module AbstractAsset {
  import opened Common
  import opened Strings
  import opened FileSystem
  import opened AssetRules

  /** What get_asset_contents returns: a string, false, or null. */
  datatype Contents = Text(text: string) | NoText | NullText

  class Asset {
    const config: Config
    const caps: Capabilities

    var valid: bool
    var extension: string
    var groups: seq<Value>
    /** Set by a `group` argument; nothing in this core reads it. */
    var group: seq<Value>
    var cacheable: bool
    var devFile: string
    var prodFile: string
    var minifyAble: bool
    var name: string
    var required: Value
    var devFilePath: Ref
    var devFileUrl: Ref
    var devFileName: Option<string>
    var prodFilePath: Ref
    var prodFileUrl: Ref
    var prodFileName: Option<string>
    var devLastModified: Stamp
    var prodLastModified: Stamp
    var devIsRemote: bool
    var prodIsRemote: bool
    /** The reports made to the error callback, oldest first. */
    var failures: seq<Failure>

    /** The declared fields, as parse_args sets them. */
    function Declared(): Declaration
      reads this`devFile, this`prodFile, this`groups, this`group, this`required,
            this`cacheable, this`minifyAble, this`name, this`extension
    {
      Declaration(devFile, prodFile, groups, group, required, cacheable, minifyAble, name, extension)
    }

    /** The memoized file names, once set, are the base names of the declared files. */
    predicate NamesMemoized()
      reads this`devFileName, this`devFile, this`prodFileName, this`prodFile
    {
      (devFileName == None || devFileName == Some(LastSegment(devFile)))
      && (prodFileName == None || prodFileName == Some(LastSegment(prodFile)))
    }

    /** The asset's cache slots under the cache directory. */
    function CacheSlots(): Slots
      reads this`name, this`extension
    {
      Slots(config.cachePath + config.prepend, name, extension)
    }

    /** The cache file of one slot, under the cache directory or the cache URL. */
    function CacheFilePath(minified: bool): string
      reads this`name, this`extension
    {
      SlotPath(CacheSlots(), minified)
    }

    function CacheFileUrl(minified: bool): string
      reads this`name, this`extension
    {
      SlotPath(Slots(config.cacheUrl + config.prepend, name, extension), minified)
    }

    /** The comment create_cache puts before the parsed slot's text. */
    function CacheHeader(): string
      reads this`name, this`devLastModified
    {
      Header(name, devLastModified, config.formatDate)
    }

    /** Whether content is served minified: only outside dev mode, and only if the asset allows it. */
    function UseMinified(): bool
      reads this`minifyAble
    {
      !config.dev && minifyAble
    }

    /** The date create_cache compares with: the dev date in dev mode, the prod date otherwise. */
    function SourceStamp(): Stamp
      reads this`devLastModified, this`prodLastModified
    {
      if config.dev then devLastModified else prodLastModified
    }

    /**
     * Builds the asset from its declaration: fields take their defaults, then
     * the arguments in order, then validity is decided once.
     */
    constructor (config: Config, caps: Capabilities, args: seq<Arg>, disk: Disk)
      ensures this.config == config && this.caps == caps
      ensures Declared() == Declare(Defaults, args)
      ensures valid == ValidDeclaration(devFile, prodFile, caps.assetPath, disk.files)
      ensures var v := Validated(devFile, prodFile, caps, disk.files,
                                 Resolved(NullRef, NullRef, false), Resolved(NullRef, NullRef, false));
        DevResolved() == v.dev && ProdResolved() == v.prod && failures == v.log
      ensures devFileName == None && prodFileName == None
      ensures devLastModified == NotComputed && prodLastModified == NotComputed
    {
      this.config := config;
      this.caps := caps;
      valid := true;
      extension := "";
      groups := [];
      group := [];
      cacheable := true;
      devFile := "";
      prodFile := "";
      minifyAble := true;
      name := "";
      required := Arr([]);
      devFilePath, devFileUrl, devFileName := NullRef, NullRef, None;
      prodFilePath, prodFileUrl, prodFileName := NullRef, NullRef, None;
      devLastModified, prodLastModified := NotComputed, NotComputed;
      devIsRemote, prodIsRemote := false, false;
      failures := [];
      new;
      assert Declared() == Defaults;
      assert DevResolved() == Resolved(NullRef, NullRef, false) && ProdResolved() == Resolved(NullRef, NullRef, false);
      Initialize(args, disk);
      ValidatedVerdict(devFile, prodFile, caps, disk.files, Resolved(NullRef, NullRef, false), Resolved(NullRef, NullRef, false));
    }

    /** The constructor's work after the defaults: parse_args, then validate, whose verdict is kept. */
    method Initialize(args: seq<Arg>, disk: Disk)
      modifies this`devFile, this`prodFile, this`groups, this`group, this`required,
               this`cacheable, this`minifyAble, this`name, this`extension,
               this`devFilePath, this`devFileUrl, this`prodFilePath, this`prodFileUrl,
               this`devIsRemote, this`prodIsRemote, this`failures, this`valid
      ensures Declared() == Declare(old(Declared()), args)
      ensures var v := Validated(devFile, prodFile, caps, disk.files, old(DevResolved()), old(ProdResolved()));
        valid == v.ok && DevResolved() == v.dev && ProdResolved() == v.prod && failures == old(failures) + v.log
    {
      ParseArgs(args);
      valid := Validate(disk);
    }

    /** parse_args: each argument assigns its field, in order. */
    method ParseArgs(args: seq<Arg>)
      modifies this`devFile, this`prodFile, this`groups, this`group, this`required,
               this`cacheable, this`minifyAble, this`name, this`extension
      ensures Declared() == Declare(old(Declared()), args)
    {
      var i := 0;
      while i < |args|
        invariant 0 <= i <= |args|
        invariant Declared() == Declare(old(Declared()), args[..i])
      {
        match args[i] {
          case DevFile(f) => devFile := f;
          case ProdFile(f) => prodFile := f;
          case Groups(g) => groups := GroupValues(g);
          case Group(g) => group := GroupValues(g);
          case Requires(v) => required := v;
          case Cacheable(b) => cacheable := b;
          case MinifyAble(b) => minifyAble := b;
          case Name(n) => name := n;
          case Extension(e) => extension := e;
          case Other(_, _) =>
        }
        DeclareSnoc(old(Declared()), args[..i], args[i]);
        assert args[..i + 1] == args[..i] + [args[i]];
        i := i + 1;
      }
      assert args[..|args|] == args;
    }

    /** _failure: the report is recorded (the callback's answer is not used). */
    method Fail(f: Failure)
      modifies this`failures
      ensures failures == old(failures) + [f]
    {
      failures := failures + [f];
    }

    /**
     * file_exists: a remote reference is accepted without looking at the disk
     * and sets exactly that variant's remote flag; a local one must exist and
     * be readable under the asset path.
     */
    method FileExists(file: string, variant: Variant, disk: Disk) returns (ok: bool)
      modifies this`devIsRemote, this`prodIsRemote, this`failures
      ensures ok == FileAccepted(file, caps.assetPath, disk.files)
      ensures devIsRemote == (old(devIsRemote) || (variant == Dev && IsRemoteRef(file)))
      ensures prodIsRemote == (old(prodIsRemote) || (variant == Prod && IsRemoteRef(file)))
      ensures failures == old(failures) + FileCheckLog(file, caps.assetPath, disk.files)
    {
      if IsRemoteRef(file) {
        match variant {
          case Dev => devIsRemote := true;
          case Prod => prodIsRemote := true;
        }
        return true;
      }
      var path := caps.assetPath + file;
      if path !in disk.files {
        Fail(MissingFile);
        return false;
      }
      if !disk.files[path].readable {
        Fail(UnreadableFile);
        return false;
      }
      return true;
    }

    /** The dev variant's state as validate leaves it. */
    function DevResolved(): Resolved
      reads this`devFilePath, this`devFileUrl, this`devIsRemote
    {
      Resolved(devFilePath, devFileUrl, devIsRemote)
    }

    function ProdResolved(): Resolved
      reads this`prodFilePath, this`prodFileUrl, this`prodIsRemote
    {
      Resolved(prodFilePath, prodFileUrl, prodIsRemote)
    }

    /**
     * validate's dev half: an undeclared dev file gets path and url false; an
     * accepted one its resolved path and url; a refused one is reported.
     */
    method ResolveDev(disk: Disk) returns (ok: bool)
      modifies this`devFilePath, this`devFileUrl, this`devIsRemote, this`prodIsRemote, this`failures
      ensures ok == (devFile == "" || FileAccepted(devFile, caps.assetPath, disk.files))
      ensures DevResolved() == Resolve(devFile, caps, disk.files, old(DevResolved()))
      ensures prodIsRemote == old(prodIsRemote)
      ensures failures == old(failures) + VariantLog(devFile, caps.assetPath, disk.files)
    {
      if devFile == "" {
        devFilePath, devFileUrl := FalseRef, FalseRef;
        return true;
      }
      ok := FileExists(devFile, Dev, disk);
      if ok {
        devFilePath, devFileUrl := At(caps.filePath(devFile)), At(caps.fileUrl(devFile));
      } else {
        Fail(InvalidFile(devFile));
      }
    }

    /** validate's prod half, the same steps for the prod file. */
    method ResolveProd(disk: Disk) returns (ok: bool)
      modifies this`prodFilePath, this`prodFileUrl, this`devIsRemote, this`prodIsRemote, this`failures
      ensures ok == (prodFile == "" || FileAccepted(prodFile, caps.assetPath, disk.files))
      ensures ProdResolved() == Resolve(prodFile, caps, disk.files, old(ProdResolved()))
      ensures devIsRemote == old(devIsRemote)
      ensures failures == old(failures) + VariantLog(prodFile, caps.assetPath, disk.files)
    {
      if prodFile == "" {
        prodFilePath, prodFileUrl := FalseRef, FalseRef;
        return true;
      }
      ok := FileExists(prodFile, Prod, disk);
      if ok {
        prodFilePath, prodFileUrl := At(caps.filePath(prodFile)), At(caps.fileUrl(prodFile));
      } else {
        Fail(InvalidFile(prodFile));
      }
    }

    /**
     * validate: false when both files are undeclared or a declared file is not
     * accepted; an undeclared variant gets path and url false, an accepted one
     * its resolved path and url. The prod variant is examined only if the dev
     * variant passed.
     */
    method Validate(disk: Disk) returns (ok: bool)
      modifies this`devFilePath, this`devFileUrl, this`prodFilePath, this`prodFileUrl,
               this`devIsRemote, this`prodIsRemote, this`failures
      ensures var v := Validated(devFile, prodFile, caps, disk.files, old(DevResolved()), old(ProdResolved()));
        ok == v.ok && DevResolved() == v.dev && ProdResolved() == v.prod && failures == old(failures) + v.log
    {
      if devFile == "" && prodFile == "" {
        Fail(BothUndeclared);
        return false;
      }
      ok := ResolveDev(disk);
      if !ok {
        return false;
      }
      ok := ResolveProd(disk);
    }

    /** get_dev_file_name: the base name of the dev file, computed once. */
    method GetDevFileName() returns (r: string)
      requires NamesMemoized()
      modifies this`devFileName
      ensures NamesMemoized()
      ensures r == LastSegment(devFile) && devFileName == Some(r)
    {
      if devFileName == None {
        devFileName := Some("");
        if devFile != "" {
          devFileName := Some(LastSegment(devFile));
        }
      }
      r := devFileName.value;
    }

    /** get_prod_file_name: the base name of the prod file, computed once. */
    method GetProdFileName() returns (r: string)
      requires NamesMemoized()
      modifies this`prodFileName
      ensures NamesMemoized()
      ensures r == LastSegment(prodFile) && prodFileName == Some(r)
    {
      if prodFileName == None {
        prodFileName := Some("");
        if prodFile != "" {
          prodFileName := Some(LastSegment(prodFile));
        }
      }
      r := prodFileName.value;
    }

    /**
     * get_name: a non-empty name is kept; an empty one is replaced by the prod
     * file's base name, or the dev file's when that is empty.
     */
    method GetName() returns (r: string)
      requires NamesMemoized()
      modifies this`name, this`devFileName, this`prodFileName
      ensures NamesMemoized()
      ensures r == NameAfter(old(name), prodFile, devFile) && name == r
      ensures old(name) != "" ==> devFileName == old(devFileName) && prodFileName == old(prodFileName)
    {
      if name == "" {
        name := GetProdFileName();
        if name == "" {
          name := GetDevFileName();
        }
      }
      r := name;
    }

    /** get_dev_date_modified: computed on the first call, then returned unchanged. */
    method GetDevDateModified(disk: Disk) returns (r: Stamp)
      modifies this`devLastModified
      ensures r == Memo(old(devLastModified), DateOf(devFilePath, devIsRemote, disk.files))
      ensures devLastModified == r && r != NotComputed
    {
      if devLastModified == NotComputed {
        if devFilePath == NullRef || devFilePath == FalseRef {
          devLastModified := Unavailable;
        } else if !devIsRemote {
          devLastModified := Time(MTime(disk.files, devFilePath.value));
        } else {
          devLastModified := Time(0);
        }
      }
      r := devLastModified;
    }

    /** get_prod_date_modified: computed on the first call, then returned unchanged. */
    method GetProdDateModified(disk: Disk) returns (r: Stamp)
      modifies this`prodLastModified
      ensures r == Memo(old(prodLastModified), DateOf(prodFilePath, prodIsRemote, disk.files))
      ensures prodLastModified == r && r != NotComputed
    {
      if prodLastModified == NotComputed {
        if prodFilePath == NullRef || prodFilePath == FalseRef {
          prodLastModified := Unavailable;
        } else if !prodIsRemote {
          prodLastModified := Time(MTime(disk.files, prodFilePath.value));
        } else {
          prodLastModified := Time(0);
        }
      }
      r := prodLastModified;
    }

    /** in_group: strict membership of the string among the groups. */
    function InGroup(g: string): (r: bool)
      reads this`groups
      ensures r <==> exists i :: 0 <= i < |groups| && groups[i] == Str(g)
    {
      Str(g) in groups
    }

    /**
     * add_groups: a non-empty string not yet present is appended; an array is
     * added element by element, recursively; anything else is ignored.
     */
    method AddGroups(v: Value)
      modifies this`groups
      ensures groups == AddedGroups(old(groups), v)
      decreases v
    {
      match v {
        case Str(s) =>
          if s != "" && !InGroup(s) {
            groups := groups + [Str(s)];
          }
        case Arr(items) =>
          var i := 0;
          while i < |items|
            invariant 0 <= i <= |items|
            invariant groups == AddedAll(old(groups), items[..i])
          {
            AddGroups(items[i]);
            assert items[..i + 1][..i] == items[..i];
            i := i + 1;
          }
          assert items[..|items|] == items;
        case _ =>
      }
    }

    /** get_requires. */
    function GetRequires(): (r: seq<Value>)
      reads this`required
      ensures r == RequiresList(required)
    {
      RequiresList(required)
    }

    /** cache_file_exists: the slot's file exists and is readable; a failure is reported otherwise. */
    method CacheFileExists(disk: Disk, minified: bool) returns (ok: bool)
      requires NamesMemoized()
      modifies this`name, this`devFileName, this`prodFileName, this`failures
      ensures NamesMemoized()
      ensures name == NameAfter(old(name), prodFile, devFile)
      ensures ok == Probe(disk.files, CacheFilePath(minified)).Present?
      ensures failures == old(failures) + ProbeLog(disk.files, CacheFilePath(minified), minified)
    {
      var n := GetName();
      var slot := CacheFilePath(minified);
      if slot !in disk.files {
        Fail(MissingSlot(minified));
        return false;
      }
      if !disk.files[slot].readable {
        Fail(UnreadableSlot(minified));
        return false;
      }
      return true;
    }

    /** get_cached_file_path: the slot's path when the slot exists, else false. */
    method GetCachedFilePath(disk: Disk, minified: bool) returns (r: Option<string>)
      requires NamesMemoized()
      modifies this`name, this`devFileName, this`prodFileName, this`failures
      ensures NamesMemoized()
      ensures name == NameAfter(old(name), prodFile, devFile)
      ensures r == if Probe(disk.files, CacheFilePath(minified)).Present? then Some(CacheFilePath(minified)) else None
      ensures failures == old(failures) + ProbeLog(disk.files, CacheFilePath(minified), minified)
    {
      var found := CacheFileExists(disk, minified);
      if found {
        var _ := GetName();
        return Some(CacheFilePath(minified));
      }
      return None;
    }

    /** get_cached_file_url: the slot's URL when the slot exists, else false. */
    method GetCachedFileUrl(disk: Disk, minified: bool) returns (r: Option<string>)
      requires NamesMemoized()
      modifies this`name, this`devFileName, this`prodFileName, this`failures
      ensures NamesMemoized()
      ensures name == NameAfter(old(name), prodFile, devFile)
      ensures r == if Probe(disk.files, CacheFilePath(minified)).Present? then Some(CacheFileUrl(minified)) else None
      ensures failures == old(failures) + ProbeLog(disk.files, CacheFilePath(minified), minified)
    {
      var found := CacheFileExists(disk, minified);
      if found {
        var _ := GetName();
        return Some(CacheFileUrl(minified));
      }
      return None;
    }

    /**
     * The probing phase of create_cache: both slots are looked up (parsed
     * first, reporting each one missing or unreadable), and each is stale iff
     * it is missing or the source date is strictly newer than its mtime.
     */
    method ProbeSlots(disk: Disk, modified: Stamp) returns (createParsed: bool, createMin: bool)
      requires NamesMemoized()
      modifies this`name, this`devFileName, this`prodFileName, this`failures
      ensures NamesMemoized()
      ensures name == NameAfter(old(name), prodFile, devFile)
      ensures createParsed == StaleSlot(disk.files, CacheSlots(), modified, false)
      ensures createMin == StaleSlot(disk.files, CacheSlots(), modified, true)
      ensures failures == old(failures) + ProbeLogs(disk.files, CacheSlots())
    {
      var parsed := GetCachedFilePath(disk, false);
      NameAfterIdempotent(old(name), prodFile, devFile);
      var parsedMin := GetCachedFilePath(disk, true);
      createParsed := parsed == None || Stale(modified, Present(MTime(disk.files, parsed.value)));
      createMin := parsedMin == None || Stale(modified, Present(MTime(disk.files, parsedMin.value)));
    }

    /**
     * The date create_cache compares with, as the memoized getter of the
     * variant in use (dev in dev mode, prod otherwise) returns it.
     */
    function Modified(files: Files): Stamp
      reads this`devLastModified, this`prodLastModified, this`devFilePath, this`devIsRemote,
            this`prodFilePath, this`prodIsRemote
    {
      if config.dev then Memo(devLastModified, DateOf(devFilePath, devIsRemote, files))
      else Memo(prodLastModified, DateOf(prodFilePath, prodIsRemote, files))
    }

    /** create_cache's first step: the dev date in dev mode, the prod date otherwise. */
    method GetSourceDate(disk: Disk) returns (r: Stamp)
      modifies this`devLastModified, this`prodLastModified
      ensures r == old(Modified(disk.files)) && SourceStamp() == r && r != NotComputed
      ensures config.dev ==> prodLastModified == old(prodLastModified)
      ensures !config.dev ==> devLastModified == old(devLastModified)
    {
      if config.dev {
        r := GetDevDateModified(disk);
      } else {
        r := GetProdDateModified(disk);
      }
    }

    /**
     * The raw content create_cache fetches: from the prod variant when its path
     * is resolved, else the dev variant; over the network when that variant is
     * remote or fetching is forced.
     */
    function SourceContents(files: Files, net: string -> Option<string>): Option<string>
      reads this`prodFilePath, this`prodIsRemote, this`devFilePath, this`devIsRemote
    {
      var source := SourceRef(prodFilePath, prodIsRemote, devFilePath, devIsRemote);
      FetchRaw(source.0, source.1 || config.forceCurl, files, net)
    }

    /**
     * The writing phase of create_cache: the minified slot gets
     * minify(text) + "\n", then the parsed slot gets the header and the text,
     * each only when stale; the first open that fails ends it with false. The
     * header asks for the dev date, which may compute it for the first time.
     */
    method WriteCache(disk: Disk, createMin: bool, createParsed: bool, raw: string, text: string) returns (ok: bool)
      requires NamesMemoized()
      requires text == caps.parse(raw)
      modifies this`name, this`devFileName, this`prodFileName, this`devLastModified, disk`files
      ensures NamesMemoized()
      ensures name == NameAfter(old(name), prodFile, devFile)
      ensures devLastModified == DevDateAfterWrite(old(devLastModified), devFilePath, devIsRemote, old(disk.files),
                                                   disk.unwritable, disk.now, createMin, createParsed, CacheSlots(), caps, raw)
      ensures (ok, disk.files) == WriteSlots(old(disk.files), disk.unwritable, disk.now, createMin, createParsed,
                                       Job(CacheSlots(), caps, CacheHeader(), raw))
    {
      var n := GetName();
      if createMin {
        var minified := caps.minify(text);
        var written := disk.Write(CacheFilePath(true), minified + "\n");
        if !written {
          return false;
        }
      }
      if createParsed {
        var devDate := GetDevDateModified(disk);
        var comment := Header(n, devDate, config.formatDate);
        var written := disk.Write(CacheFilePath(false), comment + text + "\n");
        if !written {
          return false;
        }
      }
      return true;
    }

    /**
     * The part of create_cache after the lookups, when some slot is stale:
     * the content is fetched once (false, with a report and nothing written,
     * if that fails), parsed once, and the stale slots written.
     */
    method Regenerate(disk: Disk, net: string -> Option<string>, createMin: bool, createParsed: bool) returns (ok: bool)
      requires NamesMemoized()
      modifies this`name, this`devFileName, this`prodFileName, this`devLastModified, this`failures, disk`files
      ensures NamesMemoized()
      ensures old(SourceContents(disk.files, net)).None? ==>
        && !ok && disk.files == old(disk.files) && failures == old(failures) + [NoContents]
        && name == old(name) && devLastModified == old(devLastModified)
      ensures old(SourceContents(disk.files, net)).Some? ==>
        && name == NameAfter(old(name), prodFile, devFile)
        && (ok, disk.files) == WriteSlots(old(disk.files), disk.unwritable, disk.now, createMin, createParsed,
                                       Job(CacheSlots(), caps, CacheHeader(), old(SourceContents(disk.files, net)).value))
        && devLastModified == DevDateAfterWrite(old(devLastModified), devFilePath, devIsRemote, old(disk.files),
                                                disk.unwritable, disk.now, createMin, createParsed, CacheSlots(), caps,
                                                old(SourceContents(disk.files, net)).value)
        && failures == old(failures)
    {
      var ref, remote := devFilePath, devIsRemote;
      if prodFilePath != FalseRef && prodFilePath != NullRef {
        ref, remote := prodFilePath, prodIsRemote;
      }
      var contents := FetchRaw(ref, remote || config.forceCurl, disk.files, net);
      assert contents == SourceContents(disk.files, net);
      if contents == None {
        Fail(NoContents);
        return false;
      }
      var text := caps.parse(contents.value);
      ok := WriteCache(disk, createMin, createParsed, contents.value, text);
    }

    /**
     * create_cache once the source date is known: the slot lookups, then,
     * when some slot is stale, the fetch and the writing phase.
     */
    method Refresh(disk: Disk, net: string -> Option<string>, modified: Stamp) returns (ok: bool)
      requires NamesMemoized()
      modifies this`name, this`devFileName, this`prodFileName, this`devLastModified, this`failures, disk`files
      ensures NamesMemoized()
      ensures name == NameAfter(old(name), prodFile, devFile)
      ensures var raw := old(SourceContents(disk.files, net));
        && devLastModified == CachedDevDate(old(devLastModified), devFilePath, devIsRemote, old(disk.files),
                                            disk.unwritable, disk.now, CacheSlots(), modified, raw, caps)
        && disk.files == CachedFiles(old(disk.files), disk.unwritable, disk.now, CacheSlots(), modified, raw, caps, CacheHeader())
        && failures == old(failures) + CacheLog(old(disk.files), CacheSlots(), modified, raw)
        && (ok <==> CacheServes(old(disk.files), disk.unwritable, CacheSlots(), modified, raw))
    {
      ghost var raw := SourceContents(disk.files, net);
      ghost var files0, date0 := disk.files, devLastModified;
      var createParsed, createMin := ProbeSlots(disk, modified);
      assert SourceContents(disk.files, net) == raw;
      if !createParsed && !createMin {
        return true;
      }
      ghost var slots := CacheSlots();
      ok := Regenerate(disk, net, createMin, createParsed);
      NameAfterIdempotent(old(name), prodFile, devFile);
      assert CacheSlots() == slots;
      assert raw.Some? ==> devLastModified == DevDateAfterWrite(date0, devFilePath, devIsRemote, files0, disk.unwritable,
                                                                disk.now, createMin, createParsed, slots, caps, raw.value);
      StaleCache(files0, disk.unwritable, disk.now, slots, modified, raw, caps, CacheHeader());
    }

    /**
     * create_cache. Not cacheable: false, nothing fetched or written. Otherwise
     * a slot is stale iff it is missing or the source is strictly newer; with
     * no stale slot the answer is true with no fetch and no write. The content
     * is fetched once (false, nothing written, if that fails), parsed once, and
     * the stale slots are written: minify(parse(raw)) + "\n" to the minified
     * slot, header + parse(raw) + "\n" to the parsed slot. On true both slots
     * are in place.
     */
    method CreateCache(disk: Disk, net: string -> Option<string>) returns (ok: bool)
      requires NamesMemoized()
      modifies this`name, this`devFileName, this`prodFileName, this`devLastModified,
               this`prodLastModified, this`failures, disk`files
      ensures NamesMemoized()
      ensures !cacheable ==>
        && !ok && disk.files == old(disk.files) && failures == old(failures) && name == old(name)
        && devLastModified == old(devLastModified) && prodLastModified == old(prodLastModified)
      ensures cacheable ==> name == NameAfter(old(name), prodFile, devFile)
      ensures cacheable ==> SourceStamp() == old(Modified(disk.files))
      ensures cacheable && config.dev ==> prodLastModified == old(prodLastModified)
      ensures cacheable && !config.dev ==>
        devLastModified == CachedDevDate(old(devLastModified), devFilePath, devIsRemote, old(disk.files),
                                         disk.unwritable, disk.now, CacheSlots(), old(Modified(disk.files)),
                                         old(SourceContents(disk.files, net)), caps)
      ensures var modified, raw := old(Modified(disk.files)), old(SourceContents(disk.files, net));
        && (cacheable ==>
            && disk.files == CachedFiles(old(disk.files), disk.unwritable, disk.now, CacheSlots(), modified, raw, caps, CacheHeader())
            && failures == old(failures) + CacheLog(old(disk.files), CacheSlots(), modified, raw))
        && (ok <==> cacheable && CacheServes(old(disk.files), disk.unwritable, CacheSlots(), modified, raw))
    {
      if !cacheable {
        return false;
      }
      var modified := GetSourceDate(disk);
      ok := Refresh(disk, net, modified);
      assert cacheable;
    }

    /**
     * The raw content _get_asset_contents fetches: like create_cache's, except
     * that a `//x` reference fetched over the network is requested as `http://x`.
     */
    function DirectRaw(files: Files, net: string -> Option<string>): Option<string>
      reads this`prodFilePath, this`prodIsRemote, this`devFilePath, this`devIsRemote
    {
      var source := SourceRef(prodFilePath, prodIsRemote, devFilePath, devIsRemote);
      var viaNetwork := source.1 || config.forceCurl;
      FetchRaw(DirectRef(source.0, viaNetwork), viaNetwork, files, net)
    }

    /**
     * _get_asset_contents: the parsed raw content, or false with a report if
     * the fetch fails.
     */
    method DirectContents(disk: Disk, net: string -> Option<string>) returns (r: Option<string>)
      modifies this`failures
      ensures DirectRaw(disk.files, net).None? ==> r.None? && failures == old(failures) + [NoContents]
      ensures DirectRaw(disk.files, net).Some? ==>
        r == Some(caps.parse(DirectRaw(disk.files, net).value)) && failures == old(failures)
    {
      var ref, remote := devFilePath, devIsRemote;
      if prodFilePath != FalseRef && prodFilePath != NullRef {
        ref, remote := prodFilePath, prodIsRemote;
      }
      var contents: Option<string>;
      if remote || config.forceCurl {
        if ref.At? {
          ref := At(WithScheme(ref.value));
        }
        contents := FetchRaw(ref, true, disk.files, net);
      } else {
        contents := FetchRaw(ref, false, disk.files, net);
      }
      if contents == None {
        Fail(NoContents);
        return None;
      }
      return Some(caps.parse(contents.value));
    }

    /**
     * get_cached_asset_contents: null when create_cache fails; otherwise the
     * content of the slot in use (minified outside dev mode when the asset
     * allows it). create_cache's success leaves both slots in place, so the
     * source's fallbacks to _get_asset_contents (slot missing, slot unreadable)
     * are unreachable and the answer is never false.
     */
    method CachedContents(disk: Disk, net: string -> Option<string>) returns (r: Contents)
      requires NamesMemoized()
      modifies this`name, this`devFileName, this`prodFileName, this`devLastModified,
               this`prodLastModified, this`failures, disk`files
      ensures NamesMemoized()
      ensures !cacheable ==>
        && r == NullText && disk.files == old(disk.files) && failures == old(failures) && name == old(name)
        && devLastModified == old(devLastModified) && prodLastModified == old(prodLastModified)
      ensures cacheable ==> name == NameAfter(old(name), prodFile, devFile)
      ensures cacheable ==> SourceStamp() == old(Modified(disk.files))
      ensures cacheable && config.dev ==> prodLastModified == old(prodLastModified)
      ensures cacheable && !config.dev ==>
        devLastModified == CachedDevDate(old(devLastModified), devFilePath, devIsRemote, old(disk.files),
                                         disk.unwritable, disk.now, CacheSlots(), old(Modified(disk.files)),
                                         old(SourceContents(disk.files, net)), caps)
      ensures var modified, raw := old(Modified(disk.files)), old(SourceContents(disk.files, net));
        && (cacheable ==>
            && disk.files == CachedFiles(old(disk.files), disk.unwritable, disk.now, CacheSlots(), modified, raw, caps, CacheHeader())
            && failures == old(failures) + CacheLog(old(disk.files), CacheSlots(), modified, raw))
        && (r.Text? <==> cacheable && CacheServes(old(disk.files), disk.unwritable, CacheSlots(), modified, raw))
      ensures r != NoText
      ensures r.Text? ==> ReadFile(disk.files, CacheFilePath(UseMinified())) == Some(r.text)
    {
      ghost var files0 := disk.files;
      ghost var raw := SourceContents(disk.files, net);
      var cached := CreateCache(disk, net);
      if !cached {
        return NullText;
      }
      CacheServedSlotsPresent(files0, disk.unwritable, disk.now, CacheSlots(), SourceStamp(), raw, caps, CacheHeader());
      NameAfterIdempotent(old(name), prodFile, devFile);
      ghost var name1, failures1 := name, failures;
      var minify := UseMinified();
      var path := GetCachedFilePath(disk, minify);
      assert name == name1 && failures == failures1;
      if path == None {
        assert false;
      }
      var contents := ReadFile(disk.files, path.value);
      if contents == None {
        assert false;
      }
      return Text(contents.value);
    }

    /**
     * get_asset_contents: the cached content when the asset is cacheable,
     * otherwise the content read directly.
     */
    method GetAssetContents(disk: Disk, net: string -> Option<string>) returns (r: Contents)
      requires NamesMemoized()
      modifies this`name, this`devFileName, this`prodFileName, this`devLastModified,
               this`prodLastModified, this`failures, disk`files
      ensures NamesMemoized()
      ensures !cacheable ==>
        && r == (if DirectRaw(old(disk.files), net).None? then NoText
                 else Text(caps.parse(DirectRaw(old(disk.files), net).value)))
        && failures == old(failures) + (if DirectRaw(old(disk.files), net).None? then [NoContents] else [])
        && disk.files == old(disk.files) && name == old(name)
        && devLastModified == old(devLastModified) && prodLastModified == old(prodLastModified)
      ensures cacheable ==> name == NameAfter(old(name), prodFile, devFile)
      ensures cacheable ==> SourceStamp() == old(Modified(disk.files))
      ensures cacheable && config.dev ==> prodLastModified == old(prodLastModified)
      ensures cacheable && !config.dev ==>
        devLastModified == CachedDevDate(old(devLastModified), devFilePath, devIsRemote, old(disk.files),
                                         disk.unwritable, disk.now, CacheSlots(), old(Modified(disk.files)),
                                         old(SourceContents(disk.files, net)), caps)
      ensures var modified, raw := old(Modified(disk.files)), old(SourceContents(disk.files, net));
        cacheable ==>
        && disk.files == CachedFiles(old(disk.files), disk.unwritable, disk.now, CacheSlots(), modified, raw, caps, CacheHeader())
        && failures == old(failures) + CacheLog(old(disk.files), CacheSlots(), modified, raw)
        && r != NoText
        && (r.Text? <==> CacheServes(old(disk.files), disk.unwritable, CacheSlots(), modified, raw))
        && (r.Text? ==> ReadFile(disk.files, CacheFilePath(UseMinified())) == Some(r.text))
    {
      if cacheable {
        r := CachedContents(disk, net);
      } else {
        var direct := DirectContents(disk, net);
        r := if direct.Some? then Text(direct.value) else NoText;
      }
    }

    /**
     * The cached branch of get_prod_src and get_dev_src: create_cache (its
     * answer ignored), then the URL of the slot in use if that slot exists.
     * A successful create_cache guarantees the URL.
     */
    method CachedUrl(disk: Disk, net: string -> Option<string>) returns (url: Option<string>)
      requires NamesMemoized() && cacheable
      modifies this`name, this`devFileName, this`prodFileName, this`devLastModified,
               this`prodLastModified, this`failures, disk`files
      ensures NamesMemoized()
      ensures name == NameAfter(old(name), prodFile, devFile)
      ensures SourceStamp() == old(Modified(disk.files))
      ensures config.dev ==> prodLastModified == old(prodLastModified)
      ensures !config.dev ==>
        devLastModified == CachedDevDate(old(devLastModified), devFilePath, devIsRemote, old(disk.files),
                                         disk.unwritable, disk.now, CacheSlots(), old(Modified(disk.files)),
                                         old(SourceContents(disk.files, net)), caps)
      ensures var modified, raw := old(Modified(disk.files)), old(SourceContents(disk.files, net));
        && disk.files == CachedFiles(old(disk.files), disk.unwritable, disk.now, CacheSlots(), modified, raw, caps, CacheHeader())
        && failures == old(failures) + CacheLog(old(disk.files), CacheSlots(), modified, raw)
                       + ProbeLog(disk.files, CacheFilePath(UseMinified()), UseMinified())
        && (CacheServes(old(disk.files), disk.unwritable, CacheSlots(), modified, raw) ==> url.Some?)
      ensures url == if Probe(disk.files, CacheFilePath(UseMinified())).Present?
                     then Some(CacheFileUrl(UseMinified())) else None
    {
      ghost var files0 := disk.files;
      ghost var raw := SourceContents(disk.files, net);
      var minify := UseMinified();
      var cached := CreateCache(disk, net);
      if cached {
        CacheServedSlotsPresent(files0, disk.unwritable, disk.now, CacheSlots(), SourceStamp(), raw, caps, CacheHeader());
      }
      NameAfterIdempotent(old(name), prodFile, devFile);
      url := GetCachedFileUrl(disk, minify);
    }

    /** get_prod_src: the cached slot's URL when available, else the prod file's URL. */
    method GetProdSrc(disk: Disk, net: string -> Option<string>) returns (r: Ref)
      requires NamesMemoized()
      modifies this`name, this`devFileName, this`prodFileName, this`devLastModified,
               this`prodLastModified, this`failures, disk`files
      ensures NamesMemoized()
      ensures !cacheable ==>
        && r == prodFileUrl && disk.files == old(disk.files) && failures == old(failures) && name == old(name)
        && devLastModified == old(devLastModified) && prodLastModified == old(prodLastModified)
      ensures var modified, raw := old(Modified(disk.files)), old(SourceContents(disk.files, net));
        cacheable ==>
        && name == NameAfter(old(name), prodFile, devFile)
        && disk.files == CachedFiles(old(disk.files), disk.unwritable, disk.now, CacheSlots(), modified, raw, caps, CacheHeader())
        && failures == old(failures) + CacheLog(old(disk.files), CacheSlots(), modified, raw)
                       + ProbeLog(disk.files, CacheFilePath(UseMinified()), UseMinified())
        && SourceStamp() == modified
        && (config.dev ==> prodLastModified == old(prodLastModified))
        && (!config.dev ==>
            devLastModified == CachedDevDate(old(devLastModified), devFilePath, devIsRemote, old(disk.files),
                                             disk.unwritable, disk.now, CacheSlots(), modified, raw, caps))
        && r == (if Probe(disk.files, CacheFilePath(UseMinified())).Present?
                 then At(CacheFileUrl(UseMinified())) else prodFileUrl)
        && (CacheServes(old(disk.files), disk.unwritable, CacheSlots(), modified, raw) ==>
            r == At(CacheFileUrl(UseMinified())))
    {
      if cacheable {
        var url := CachedUrl(disk, net);
        if url.Some? {
          return At(url.value);
        }
      }
      return prodFileUrl;
    }

    /** get_dev_src: the cached slot's URL when available, else the dev file's URL. */
    method GetDevSrc(disk: Disk, net: string -> Option<string>) returns (r: Ref)
      requires NamesMemoized()
      modifies this`name, this`devFileName, this`prodFileName, this`devLastModified,
               this`prodLastModified, this`failures, disk`files
      ensures NamesMemoized()
      ensures !cacheable ==>
        && r == devFileUrl && disk.files == old(disk.files) && failures == old(failures) && name == old(name)
        && devLastModified == old(devLastModified) && prodLastModified == old(prodLastModified)
      ensures var modified, raw := old(Modified(disk.files)), old(SourceContents(disk.files, net));
        cacheable ==>
        && name == NameAfter(old(name), prodFile, devFile)
        && disk.files == CachedFiles(old(disk.files), disk.unwritable, disk.now, CacheSlots(), modified, raw, caps, CacheHeader())
        && failures == old(failures) + CacheLog(old(disk.files), CacheSlots(), modified, raw)
                       + ProbeLog(disk.files, CacheFilePath(UseMinified()), UseMinified())
        && SourceStamp() == modified
        && (config.dev ==> prodLastModified == old(prodLastModified))
        && (!config.dev ==>
            devLastModified == CachedDevDate(old(devLastModified), devFilePath, devIsRemote, old(disk.files),
                                             disk.unwritable, disk.now, CacheSlots(), modified, raw, caps))
        && r == (if Probe(disk.files, CacheFilePath(UseMinified())).Present?
                 then At(CacheFileUrl(UseMinified())) else devFileUrl)
        && (CacheServes(old(disk.files), disk.unwritable, CacheSlots(), modified, raw) ==>
            r == At(CacheFileUrl(UseMinified())))
    {
      if cacheable {
        var url := CachedUrl(disk, net);
        if url.Some? {
          return At(url.value);
        }
      }
      return devFileUrl;
    }
  }
}
