/**
 * The bundle builder: on construction it indexes the cache directory, then
 * combines the styles, one bundle per media group, and the scripts, one
 * bundle for all, rewriting a bundle only when it is missing or older than
 * its newest member.
 */
module AssetPackager {
  import opened Common
  import opened Strings
  import opened OrderedMaps
  import opened FileSystem
  import opened BundleRules

  class Complex {
    const config: PackagerConfig
    /** `_cache_files`. */
    var cacheFiles: CacheIndex
    /** `_styles`: false, or the style bundles by name. */
    var styles: Outcome<StyleBundle>
    /** `_scripts`: false, or the script bundle by name. */
    var scripts: Outcome<ScriptBundle>

    /** The union view of the index holds the styles first, then the scripts. */
    predicate Valid()
      reads this`cacheFiles
    {
      cacheFiles.all == Union(cacheFiles.styles, cacheFiles.scripts)
    }

    /**
     * Indexes the cache directory as it is on entry, then builds the bundles
     * of the given styles and scripts, starting from empty arrays.
     */
    constructor (styleAssets: seq<Member>, scriptAssets: OrdMap<Member>, config: PackagerConfig, disk: Disk)
      modifies disk`files
      ensures this.config == config
      ensures IndexOf(cacheFiles, old(disk.files), config.cachePath)
      ensures (styles, scripts, disk.files)
              == Output(config, cacheFiles, disk.unwritable, disk.now, styleAssets, scriptAssets, Bundles([]), Bundles([]), old(disk.files))
    {
      this.config := config;
      cacheFiles := CacheIndex([], [], []);
      styles := Bundles([]);
      scripts := Bundles([]);
      new;
      cacheFiles := GetCacheFileArray(disk);
      GenerateOutput(disk, styleAssets, scriptAssets);
    }

    /** The `$build_name_array` closure: each path under its base name, with its mtime. */
    method BuildNameArray(disk: Disk, paths: seq<string>) returns (r: OrdMap<CacheEntry>)
      requires forall p :: p in paths ==> p in disk.files
      ensures r == NameIndex(paths, disk.files)
    {
      r := [];
      for i := 0 to |paths|
        invariant r == NameIndex(paths[..i], disk.files)
      {
        assert paths[..i + 1][..i] == paths[..i];
        r := Put(r, LastSegment(paths[i]), CacheEntry(paths[i], disk.files[paths[i]].mtime));
      }
      assert paths[..|paths|] == paths;
    }

    /** `_getCacheFileArray`: the `.css` and `.js` files of the cache directory, by base name. */
    method GetCacheFileArray(disk: Disk) returns (idx: CacheIndex)
      ensures IndexOf(idx, disk.files, config.cachePath)
    {
      var cssPaths := disk.Glob(config.cachePath, ".css");
      GlobIndexed(cssPaths, disk.files, config.cachePath, ".css");
      var styleFiles := BuildNameArray(disk, cssPaths);
      var jsPaths := disk.Glob(config.cachePath, ".js");
      GlobIndexed(jsPaths, disk.files, config.cachePath, ".js");
      var scriptFiles := BuildNameArray(disk, jsPaths);
      idx := CacheIndex(styleFiles, scriptFiles, Union(styleFiles, scriptFiles));
    }

    /**
     * `_cacheFileExists`: the index entry of the requested kind, or false; any
     * other kind searches the union, where a style wins over a script of the
     * same name.
     */
    function CacheFileExists(file: string, kind: string): (r: Option<CacheEntry>)
      reads this`cacheFiles
      requires Valid()
      ensures kind == "style" ==> r == Lookup(cacheFiles.styles, file)
      ensures kind == "script" ==> r == Lookup(cacheFiles.scripts, file)
      ensures kind != "style" && kind != "script" ==>
                r == if file in Keys(cacheFiles.styles) then Lookup(cacheFiles.styles, file) else Lookup(cacheFiles.scripts, file)
    {
      if kind == "style" then Lookup(cacheFiles.styles, file)
      else if kind == "script" then Lookup(cacheFiles.scripts, file)
      else
        UnionLookup(cacheFiles.styles, cacheFiles.scripts, file);
        Lookup(cacheFiles.all, file)
    }

    /** `_getNewestModifiedDate`. */
    method NewestModifiedDate(members: seq<Member>) returns (date: int)
      ensures date == Newest(members)
    {
      date := 0;
      for i := 0 to |members|
        invariant date == Newest(members[..i])
      {
        assert members[..i + 1][..i] == members[..i];
        var d := members[i].dateModified;
        if d.Some? && d.value > date {
          date := d.value;
        }
      }
      assert members[..|members|] == members;
    }

    /**
     * `_combineAssets`: collects the contents that are not false, then opens
     * the bundle for writing and writes them one after the other; false, with
     * nothing written, when the open fails.
     */
    method CombineAssets(disk: Disk, assets: seq<Member>, name: string) returns (ok: bool)
      modifies disk`files
      ensures ok <==> config.cachePath + name !in disk.unwritable
      ensures disk.files == if ok then Written(old(disk.files), config.cachePath + name, BundleText(assets), disk.now) else old(disk.files)
    {
      var path := config.cachePath + name;
      var tmp: seq<string> := [];
      for i := 0 to |assets|
        invariant tmp == Pieces(assets[..i])
      {
        assert assets[..i + 1][..i] == assets[..i];
        if assets[i].contents.Some? {
          tmp := tmp + [assets[i].contents.value];
        }
      }
      assert assets[..|assets|] == assets;
      ok := disk.Write(path, "");
      if !ok {
        return;
      }
      for j := 0 to |tmp|
        invariant disk.files == Written(old(disk.files), path, Implode(tmp[..j]), disk.now)
      {
        assert tmp[..j + 1] == tmp[..j] + [tmp[j]];
        ImplodeSnoc(tmp[..j], tmp[j]);
        disk.Append(path, tmp[j]);
      }
      assert tmp[..|tmp|] == tmp;
    }

    /** `_generateOutput`: the styles, then the scripts, each only when some are given. */
    method GenerateOutput(disk: Disk, styleAssets: seq<Member>, scriptAssets: OrdMap<Member>)
      requires Valid()
      modifies this`styles, this`scripts, disk`files
      ensures (styles, scripts, disk.files)
              == Output(config, cacheFiles, disk.unwritable, disk.now, styleAssets, scriptAssets, old(styles), old(scripts), old(disk.files))
    {
      if |styleAssets| > 0 {
        GenerateCombinedStyles(disk, styleAssets);
      }
      if |scriptAssets| > 0 {
        GenerateCombinedScripts(disk, scriptAssets);
      }
    }

    /**
     * `_generateCombinedStyles`: partitions the styles into media groups, then
     * gives each group its bundle in turn.
     */
    method GenerateCombinedStyles(disk: Disk, styleAssets: seq<Member>)
      requires Valid()
      modifies this`styles, disk`files
      ensures (styles, disk.files)
              == StylesRun(config, cacheFiles, disk.unwritable, disk.now, Partition(styleAssets), (old(styles), old(disk.files)))
    {
      var medias := PartitionByMedia(styleAssets);
      CombineGroups(disk, medias);
    }

    /** The loop of `_generateCombinedStyles`: each media group gets its bundle in turn. */
    method CombineGroups(disk: Disk, medias: OrdMap<OrdMap<Member>>)
      requires Valid()
      modifies this`styles, disk`files
      ensures (styles, disk.files)
              == StylesRun(config, cacheFiles, disk.unwritable, disk.now, medias, (old(styles), old(disk.files)))
    {
      for k := 0 to |medias|
        invariant (styles, disk.files)
                  == StylesRun(config, cacheFiles, disk.unwritable, disk.now, medias[..k], (old(styles), old(disk.files)))
      {
        assert medias[..k + 1][..k] == medias[..k];
        CombineStyleGroup(disk, medias[k]);
      }
      assert medias[..|medias|] == medias;
    }

    /** `array_map($get_media, $styles)`: the `$medias` array the closure fills, style by style. */
    method PartitionByMedia(styleAssets: seq<Member>) returns (medias: OrdMap<OrdMap<Member>>)
      ensures medias == Partition(styleAssets)
    {
      medias := [];
      for i := 0 to |styleAssets|
        invariant medias == Partition(styleAssets[..i])
      {
        assert styleAssets[..i + 1][..i] == styleAssets[..i];
        medias := AddStyle(medias, styleAssets[i]);
      }
      assert styleAssets[..|styleAssets|] == styleAssets;
    }

    /** One iteration of `_generateCombinedStyles`'s loop over the media groups. */
    method CombineStyleGroup(disk: Disk, group: (string, OrdMap<Member>))
      requires Valid()
      modifies this`styles, disk`files
      ensures (styles, disk.files) == StyleStep(config, cacheFiles, disk.unwritable, disk.now, (old(styles), old(disk.files)), group)
    {
      var members := Values(group.1);
      var newest := NewestModifiedDate(members);
      var name := BundleName(config.md5, Keys(group.1), ".css");
      var cached := CacheFileExists(name, "style");
      var combined := true;
      if cached.Some? {
        if newest > cached.value.datetime {
          combined := CombineAssets(disk, members, name);
        }
      } else {
        combined := CombineAssets(disk, members, name);
      }
      if !combined {
        styles := Failed;
      } else if styles.Bundles? {
        styles := Bundles(Put(styles.entries, name, StyleBundle(group.0, newest)));
      }
    }

    /** `_generateCombinedScripts`: one bundle of all the scripts. */
    method GenerateCombinedScripts(disk: Disk, scriptAssets: OrdMap<Member>)
      requires Valid()
      modifies this`scripts, disk`files
      ensures (scripts, disk.files) == ScriptsRun(config, cacheFiles, disk.unwritable, disk.now, scriptAssets, old(disk.files))
    {
      var name := BundleName(config.md5, Keys(scriptAssets), ".js");
      var members := Values(scriptAssets);
      var newest := NewestModifiedDate(members);
      var cached := CacheFileExists(name, "script");
      var combined := true;
      if cached.Some? {
        if newest > cached.value.datetime {
          combined := CombineAssets(disk, members, name);
        }
      } else {
        combined := CombineAssets(disk, members, name);
      }
      if !combined {
        scripts := Failed;
      } else {
        scripts := Bundles([(name, ScriptBundle(newest))]);
      }
    }

    /** `outputStyles`'s result: true iff the styles are an array. */
    function OutputStyles(): (r: bool)
      reads this`styles
      ensures r <==> styles.Bundles?
    {
      styles.Bundles?
    }

    /** `outputScripts`'s result, which is false whatever the scripts are. */
    function OutputScripts(): (r: bool)
      ensures !r
    {
      false
    }
  }
}
