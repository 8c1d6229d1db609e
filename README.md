# AssetPackager: asset lifecycle and bundle builder, modelled in Dafny

AssetPackager serves the style sheets and scripts of a PHP site. It has two
parts, and this project models both.

**The asset (`AbstractAsset`).** Each declared asset has a dev variant and a prod
variant of its source file.
- Validation decides whether the declaration is usable. A reference starting with
  `http://`, `https://` or `//` is remote, and no local file is checked for it.
- The asset derives its name from the file names and remembers it.
- It keeps a duplicate-free list of groups.
- It remembers each variant's modification time.
- It keeps two cache files: a parsed one and a parsed-and-minified one. The cache
  is rebuilt when a file is missing or older than the source. The content is
  fetched once, parsed once and minified once.
- Failures are reported to an error callback.

**The bundle builder (`Complex`).** It indexes the `.css` and `.js` files of the
cache directory by base name. It sorts the styles into media groups. It names
each bundle by hashing the concatenated keys of its members. A bundle is rebuilt
only when it is missing or older than its newest member. One failed write turns
the style output off for the rest of the session.

The filesystem is a map from path to (content, modification time, readable).
Writes go through a `Disk` object. `Disk` holds that map, the set of paths that
cannot be opened for writing, and the session clock.

Modules:
- `Common`: `Option` stands for PHP's `false` results. `Value` is the part of a
  PHP value the code inspects.
- `Strings`: base name, the remote-reference prefix test, the `//` rewrite and
  `implode`.
- `OrderedMaps`: PHP arrays with string keys, in insertion order.
- `FileSystem`: the file map and the `Disk` class.
- `AssetRules`: the asset's decision rules, written as functions.
- `AbstractAsset`: the `Asset` class. Its fields are the PHP object's
  properties, and its methods update them in place.
- `BundleRules`: the bundle builder's decision rules, written as functions.
- `AssetPackager`: the `Complex` class.

Each method is proved against the functions in the rules modules. The lemmas
beside those functions state the promised properties.

Where the code and its documentation disagree, the model follows the code:
- **Undeclared file.** An undeclared file is `""`. `validate` tests only for `''`,
  although the fields default to `null`.
- **Reordering members.** The bundle name hashes the concatenation of the keys.
  So reordering the members does not always change the name: `["a","aa"]` and
  `["aa","a"]` give the same name (`ReorderKeepsName`).
- **Later styles with the same name.** A later style with the same name does not
  replace the style that opened its media group. That style is stored under key
  `0`, not under its name (`AddStyleLands`).
- **Groups opened by a single style.** Two media groups that were each opened by
  one style with an explicit media both have the key list `["0"]`. They therefore
  get the same bundle name (`OpenersShareBundleName`).

## Model

| member | source | states |
|---|---|---|
| Strings.LastSegmentIsBaseName | libraries/DCarbone/AssetManager/Asset/AbstractAsset.php:276-307 | the derived file name has no '/', is a suffix of the path, and is the whole path or follows a '/' |
| Strings.WithScheme | libraries/DCarbone/AssetManager/Asset/AbstractAsset.php:788-791 | a reference starting with `//` gets the prefix `http:`; any other reference is unchanged |
| Strings.RemoteRefGetsScheme | libraries/DCarbone/AssetManager/Asset/AbstractAsset.php:788-791 | after the rewrite, every remote reference starts with `http://` or `https://` |
| Strings.ImplodeSnoc | libraries/AssetPackager/Complex.php:360-363 | writing one more piece appends exactly that piece's text |
| OrderedMaps.Lookup | libraries/AssetPackager/Complex.php:83-87 | `array_key_exists` is false exactly when the key is absent; a found value is stored under that key |
| OrderedMaps.PutKeys | libraries/AssetPackager/Complex.php:57 | `m[k] = v` keeps the key order and appends k only if it is new |
| OrderedMaps.PutLookup | libraries/AssetPackager/Complex.php:232 | after `m[k] = v`, key k finds v and every other key finds what it found before |
| OrderedMaps.PutUnique | libraries/AssetPackager/Complex.php:57 | assignment never creates a second entry for a key |
| OrderedMaps.LookupAt | libraries/AssetPackager/Complex.php:83-86 | with unique keys, looking up the key at a position finds that position's value |
| FileSystem.ReadFile | libraries/DCarbone/AssetManager/Asset/AbstractAsset.php:671 | `file_get_contents` gives the content iff the file exists and is readable, otherwise false |
| FileSystem.Disk.Write | libraries/AssetPackager/Complex.php:354-365 | the open fails iff the path is unwritable, and then nothing changes; otherwise the file holds exactly the content, stamped now, mode 0644 |
| FileSystem.Disk.Append | libraries/AssetPackager/Complex.php:360-363 | `fwrite` on the open file appends the text |
| FileSystem.Disk.Glob | libraries/AssetPackager/Complex.php:64-65 | returns each path matched by `dir*ext` exactly once, and nothing else |
| AssetRules.DeclareSnoc | libraries/DCarbone/AssetManager/Asset/AbstractAsset.php:96-110 | arguments apply in order: each one assigns its field, and the last argument for a field decides it |
| AssetRules.GroupsStringWrapped | libraries/DCarbone/AssetManager/Asset/AbstractAsset.php:102-107 | a `groups` argument given as a string becomes the one-element array holding it |
| AssetRules.RequiresList | libraries/DCarbone/AssetManager/Asset/AbstractAsset.php:405-413 | a string becomes a one-element list, an array is returned as is, anything else gives the empty list |
| AssetRules.AddedGroups | libraries/DCarbone/AssetManager/Asset/AbstractAsset.php:385-398 | add_groups only appends, so the old groups are a prefix. Every added entry is a non-empty string not already present. Every non-empty string nested anywhere in the argument ends up among the groups |
| AssetRules.AddedAll | libraries/DCarbone/AssetManager/Asset/AbstractAsset.php:391-395 | the same three facts for an array argument, element by element |
| AssetRules.AddedGroupsFromArgument | libraries/DCarbone/AssetManager/Asset/AbstractAsset.php:385-398 | nothing else is added: every group add_groups appends occurs as a string somewhere in its argument |
| AssetRules.AddedAllFromItems | libraries/DCarbone/AssetManager/Asset/AbstractAsset.php:391-395 | for an array argument, every appended group occurs in one of its elements |
| AssetRules.AddedGroupsNoDuplicates | libraries/DCarbone/AssetManager/Asset/AbstractAsset.php:385-398 | a duplicate-free group list stays duplicate-free |
| AssetRules.ValidationIgnoresDiskForRemote | libraries/DCarbone/AssetManager/Asset/AbstractAsset.php:476-502 | when every declared file is remote, the verdict is the same whatever the filesystem holds |
| AssetRules.ValidatedVerdict | libraries/DCarbone/AssetManager/Asset/AbstractAsset.php:117-160 | the verdict is true iff at least one file is declared and every declared file is accepted; an undeclared dev file gets path and url false, and so does an undeclared prod file once the verdict is true; a failure is reported exactly when the verdict is false |
| AssetRules.UndeclaredProdServesDev | libraries/DCarbone/AssetManager/Asset/AbstractAsset.php:117-160 | an asset declared with a dev file only, once valid, has prod path false and its dev path resolved, so create_cache reads the dev variant |
| AssetRules.DerivedNameIsBaseName | libraries/DCarbone/AssetManager/Asset/AbstractAsset.php:262-307 | the derived name has no '/'; it is the prod file's base name when that is non-empty, and the dev file's otherwise |
| AssetRules.NameAfterIdempotent | libraries/DCarbone/AssetManager/Asset/AbstractAsset.php:262-271 | asking for the name a second time leaves the name unchanged |
| AssetRules.DateOf | libraries/DCarbone/AssetManager/Asset/AbstractAsset.php:312-343 | a computed date is never "not computed", and it is false exactly when the variant's path is null or false |
| AssetRules.Probe | libraries/DCarbone/AssetManager/Asset/AbstractAsset.php:550-585 | a cache file counts as present iff it exists and is readable, and then carries its mtime |
| AssetRules.RemoteSlotNeverStale | libraries/DCarbone/AssetManager/Asset/AbstractAsset.php:605-641 | a remote source is dated at the epoch, so an existing cache file is never stale for it |
| AssetRules.SourceRef | libraries/DCarbone/AssetManager/Asset/AbstractAsset.php:648-657 | the content comes from the prod variant when its path is resolved, and from the dev variant otherwise |
| AssetRules.DirectRef | libraries/DCarbone/AssetManager/Asset/AbstractAsset.php:786-791 | a remote reference fetched over the network is requested with an explicit scheme |
| AssetRules.SlotPathsDiffer | libraries/DCarbone/AssetManager/Asset/AbstractAsset.php:688-709 | the parsed cache file and the minified cache file are different paths |
| AssetRules.WriteSlots | libraries/DCarbone/AssetManager/Asset/AbstractAsset.php:683-717 | the writing phase succeeds iff no stale slot is unwritable |
| AssetRules.WriteSlotsTouchesOnlyStale | libraries/DCarbone/AssetManager/Asset/AbstractAsset.php:683-717 | every file that changes is a stale slot, holding minify(parse(raw))+"\n" or header+parse(raw)+"\n" respectively |
| AssetRules.StaleCache | libraries/DCarbone/AssetManager/Asset/AbstractAsset.php:644-681 | when some slot is stale: a failed fetch writes nothing, reports once and answers false; a successful fetch writes the stale slots and answers as the writing phase does |
| AssetRules.CacheServedSlotsPresent | libraries/DCarbone/AssetManager/Asset/AbstractAsset.php:592-719 | when create_cache answers true, both cache files exist and are readable afterwards |
| AssetRules.CacheSettles | libraries/DCarbone/AssetManager/Asset/AbstractAsset.php:605-644 | after a successful create_cache at a time no earlier than the source's date, neither slot is stale, so running it again fetches and writes nothing |
| AssetRules.CachedFilesOnlySlots | libraries/DCarbone/AssetManager/Asset/AbstractAsset.php:683-717 | create_cache changes no file other than the asset's two cache files |
| AssetRules.CachedDevDateMemoized | libraries/DCarbone/AssetManager/Asset/AbstractAsset.php:700-707 | the dev date is memoized across create_cache: a computed date is kept, and whenever the parsed cache file is written its header's date has been computed |
| AbstractAsset.Asset.constructor | libraries/DCarbone/AssetManager/Asset/AbstractAsset.php:80-88 | the declaration is the defaults with the arguments applied in order; validity is decided once, from the declared files; both variants' paths, URLs and remote flags, and the reports made, are those of the validation rule applied from the defaults (null paths, not remote), so an undeclared variant gets path and URL false; names and dates start out not computed |
| AbstractAsset.Asset.Initialize | libraries/DCarbone/AssetManager/Asset/AbstractAsset.php:85-87 | parse_args, then validate: the verdict is stored, and the variants' state and the reports are those of the validation rule |
| AbstractAsset.Asset.ParseArgs | libraries/DCarbone/AssetManager/Asset/AbstractAsset.php:96-110 | the declared fields become the arguments applied in order |
| AbstractAsset.Asset.Fail | libraries/DCarbone/AssetManager/Asset/AbstractAsset.php:825-835 | each report is appended to the failure log |
| AbstractAsset.Asset.FileExists | libraries/DCarbone/AssetManager/Asset/AbstractAsset.php:476-502 | a remote reference is accepted without a disk lookup and sets exactly that variant's remote flag; a local reference is accepted iff it exists and is readable, otherwise one report is made |
| AbstractAsset.Asset.ResolveDev | libraries/DCarbone/AssetManager/Asset/AbstractAsset.php:125-139 | the dev variant's path, url and remote flag follow the resolution rule; the prod flag is untouched; the reports are the dev variant's |
| AbstractAsset.Asset.ResolveProd | libraries/DCarbone/AssetManager/Asset/AbstractAsset.php:141-158 | the same for the prod variant |
| AbstractAsset.Asset.Validate | libraries/DCarbone/AssetManager/Asset/AbstractAsset.php:117-160 | the verdict, both variants' state and the reports are those of the validation rule |
| AbstractAsset.Asset.GetDevFileName | libraries/DCarbone/AssetManager/Asset/AbstractAsset.php:276-288 | returns the dev file's base name ("" for an empty file) and memoizes it |
| AbstractAsset.Asset.GetProdFileName | libraries/DCarbone/AssetManager/Asset/AbstractAsset.php:295-307 | the same for the prod file |
| AbstractAsset.Asset.GetName | libraries/DCarbone/AssetManager/Asset/AbstractAsset.php:262-271 | a non-empty name is kept, and the file names are not recomputed; an empty name becomes the prod base name, or the dev base name when that is empty |
| AbstractAsset.Asset.GetDevDateModified | libraries/DCarbone/AssetManager/Asset/AbstractAsset.php:330-343 | the first call computes the date (false, epoch for remote, or mtime) and stores it; later calls return the stored value |
| AbstractAsset.Asset.GetProdDateModified | libraries/DCarbone/AssetManager/Asset/AbstractAsset.php:312-325 | the same for the prod variant |
| AbstractAsset.Asset.InGroup | libraries/DCarbone/AssetManager/Asset/AbstractAsset.php:374-377 | true iff the string is one of the groups (strict comparison) |
| AbstractAsset.Asset.AddGroups | libraries/DCarbone/AssetManager/Asset/AbstractAsset.php:385-398 | the groups become the add_groups rule applied to the old groups |
| AbstractAsset.Asset.GetRequires | libraries/DCarbone/AssetManager/Asset/AbstractAsset.php:405-413 | the requirement, normalized to a list |
| AbstractAsset.Asset.CacheFileExists | libraries/DCarbone/AssetManager/Asset/AbstractAsset.php:550-585 | true iff the cache file exists and is readable; a missing or unreadable file is reported |
| AbstractAsset.Asset.GetCachedFilePath | libraries/DCarbone/AssetManager/Asset/AbstractAsset.php:530-542 | the cache file's path when it is present, false otherwise |
| AbstractAsset.Asset.GetCachedFileUrl | libraries/DCarbone/AssetManager/Asset/AbstractAsset.php:510-522 | the cache file's URL when it is present, false otherwise |
| AbstractAsset.Asset.ProbeSlots | libraries/DCarbone/AssetManager/Asset/AbstractAsset.php:605-641 | each slot is marked for regeneration iff it is missing or the source date is strictly later than its mtime |
| AbstractAsset.Asset.GetSourceDate | libraries/DCarbone/AssetManager/Asset/AbstractAsset.php:600-603 | the dev date in dev mode and the prod date otherwise; only that variant's stored date may change |
| AbstractAsset.Asset.WriteCache | libraries/DCarbone/AssetManager/Asset/AbstractAsset.php:683-717 | writes the minified slot, then the parsed slot, each only when stale, and stops with false at the first open that fails; the dev date is computed (after the minified slot is written) exactly when the parsed slot is reached, and otherwise stays as it was |
| AbstractAsset.Asset.Regenerate | libraries/DCarbone/AssetManager/Asset/AbstractAsset.php:648-681 | a failed fetch writes nothing and reports once; otherwise the content is parsed once and the stale slots are written, and the dev date is the one the writing phase leaves |
| AbstractAsset.Asset.Refresh | libraries/DCarbone/AssetManager/Asset/AbstractAsset.php:605-718 | the files, the reports and the answer are those of the cache rule for this source date and this fetched content, and so is the dev date the header uses |
| AbstractAsset.Asset.CreateCache | libraries/DCarbone/AssetManager/Asset/AbstractAsset.php:592-719 | not cacheable: false, with no fetch, no write and no report. Otherwise the files, the reports and the answer follow the cache rule; the date compared is the variant's memoized date, and in prod mode the dev date is the one the cache rule leaves |
| AbstractAsset.Asset.DirectContents | libraries/DCarbone/AssetManager/Asset/AbstractAsset.php:773-817 | the parsed content of the fetched reference, with `//` rewritten to `http://` for network fetches; false with one report when the fetch fails |
| AbstractAsset.Asset.CachedContents | libraries/DCarbone/AssetManager/Asset/AbstractAsset.php:743-764 | null when create_cache fails; otherwise the content of the cache file in use, and never false; the files, reports and dates are create_cache's |
| AbstractAsset.Asset.GetAssetContents | libraries/DCarbone/AssetManager/Asset/AbstractAsset.php:727-733 | the cached content for a cacheable asset, the directly fetched content otherwise |
| AbstractAsset.Asset.CachedUrl | libraries/DCarbone/AssetManager/Asset/AbstractAsset.php:422-429 | create_cache, then the URL of the cache file in use if that file exists; a URL is guaranteed when create_cache succeeds; the files, reports and dates are create_cache's, followed by the slot lookup's report |
| AbstractAsset.Asset.GetProdSrc | libraries/DCarbone/AssetManager/Asset/AbstractAsset.php:420-433 | the cache file's URL when it is available, and the prod file's URL otherwise; when cacheable, the files, reports and dates are those of create_cache and the slot lookup; when not, nothing changes |
| AbstractAsset.Asset.GetDevSrc | libraries/DCarbone/AssetManager/Asset/AbstractAsset.php:438-451 | the cache file's URL when it is available, and the dev file's URL otherwise; when cacheable, the files, reports and dates are those of create_cache and the slot lookup; when not, nothing changes |
| BundleRules.NameIndexFinds | libraries/AssetPackager/Complex.php:52-63 | when the paths have distinct base names, each path is found under its base name with its mtime, no key repeats, and no other key exists |
| BundleRules.LastSegmentAppend | libraries/AssetPackager/Complex.php:57 | the base name of a file directly inside a directory is the directory's tail followed by the file's own name |
| BundleRules.GlobBaseNamesDiffer | libraries/AssetPackager/Complex.php:64-65 | two different files matched by one glob have different base names |
| BundleRules.GlobIndexed | libraries/AssetPackager/Complex.php:52-65 | the array built from a glob's result indexes exactly the matching files, by base name |
| BundleRules.LookupAppend | libraries/AssetPackager/Complex.php:66 | looking up a key in a concatenation searches the first part first |
| BundleRules.LookupMissing | libraries/AssetPackager/Complex.php:66 | the entries of b that the union keeps are exactly those whose keys a lacks |
| BundleRules.UnionLookup | libraries/AssetPackager/Complex.php:66 | in `$styles + $scripts`, a style's key finds the style entry, and any other key finds the script entry |
| BundleRules.NewestBounds | libraries/AssetPackager/Complex.php:124-141 | the newest date is at least the epoch, at least every member's DateTime date, and equal to the epoch or to one member's date |
| BundleRules.AddStyleLands | libraries/AssetPackager/Complex.php:224-245 | a style lands in its own media group (or `screen`), under key `0` if it opened the group with an explicit media and under its name otherwise. No other group changes. Joining a group changes only the entry under the style's name |
| BundleRules.AddStyleKeys | libraries/AssetPackager/Complex.php:224-245 | a new media is appended after the existing groups, and no media appears twice |
| BundleRules.PartitionGroups | libraries/AssetPackager/Complex.php:223-247 | the media groups are exactly the media of the styles, each once |
| BundleRules.OpenersShareBundleName | libraries/AssetPackager/Complex.php:228-255 | two groups, each opened by one style with an explicit media, both have the key list `["0"]` and share one bundle name |
| BundleRules.ReorderKeepsName | libraries/AssetPackager/Complex.php:253-255 | the name depends only on the concatenated keys: `["a","aa"]` and `["aa","a"]` share a name |
| BundleRules.SwapChangesText | libraries/AssetPackager/Complex.php:255 | swapping two different keys of equal length changes the hashed text |
| BundleRules.ImplodeAppend | libraries/AssetPackager/Complex.php:360-363 | the text of two runs of pieces is the first run's text followed by the second's |
| BundleRules.PiecesAppend | libraries/AssetPackager/Complex.php:345-353 | the pieces collected from two runs of members are the first run's pieces followed by the second's |
| BundleRules.BundleTextAppend | libraries/AssetPackager/Complex.php:345-363 | a bundle holds its members' contents in order, and a member whose content is false adds nothing |
| BundleRules.StylesStayFailed | libraries/AssetPackager/Complex.php:270-277 | once the styles are false, they stay false for every later group |
| BundleRules.StylesSucceedIff | libraries/AssetPackager/Complex.php:249-287 | starting from an array, the styles end as an array iff no group is both due for a rebuild and unwritable |
| BundleRules.StylesRecorded | libraries/AssetPackager/Complex.php:278-281 | on success, a group whose bundle name no later group shares is recorded with its media and newest date |
| BundleRules.FreshGroupWritesNothing | libraries/AssetPackager/Complex.php:256-268 | a cached bundle that is no older than its newest member is not rewritten, and it counts as combined |
| BundleRules.StylesWriteOnlyBundles | libraries/AssetPackager/Complex.php:249-287 | the styles loop changes no file except the groups' bundle files |
| BundleRules.ScriptsRun | libraries/AssetPackager/Complex.php:300-328 | the scripts end false, with no file changed, or as a single-entry array |
| BundleRules.ScriptsSucceedIff | libraries/AssetPackager/Complex.php:305-327 | the scripts end as an array iff their bundle is not both due for a rebuild and unwritable; the array is exactly the bundle's name with the newest date, which is at least every script's date and equal to the epoch or to one of them |
| BundleRules.FreshScriptsWriteNothing | libraries/AssetPackager/Complex.php:307-313 | a cached script bundle no older than its newest script is not rewritten, and the scripts end as an array |
| BundleRules.ScriptsWriteOnlyBundle | libraries/AssetPackager/Complex.php:305-317 | only the scripts' bundle file can change, and a rebuilt bundle that could be opened holds the scripts' contents concatenated in order |
| BundleRules.OutputStylesIff | libraries/AssetPackager/Complex.php:199-209 | after construction, the styles are an array iff no media group of the given styles fails to combine |
| AssetPackager.Complex.constructor | libraries/AssetPackager/Complex.php:34-41 | the index is built from the cache directory as found on entry, and the styles, scripts and files are those of the output rule, starting from empty arrays |
| AssetPackager.Complex.BuildNameArray | libraries/AssetPackager/Complex.php:52-63 | the array maps each path's base name to its path and mtime, in order, and a later path replaces an earlier one |
| AssetPackager.Complex.GetCacheFileArray | libraries/AssetPackager/Complex.php:50-67 | the styles index the `.css` files and the scripts the `.js` files; the union view is styles first, then scripts |
| AssetPackager.Complex.CacheFileExists | libraries/AssetPackager/Complex.php:78-104 | returns the entry of the requested kind or false; an unknown kind finds a style before a script of the same name |
| AssetPackager.Complex.NewestModifiedDate | libraries/AssetPackager/Complex.php:124-141 | the loop computes the newest date, whose bounds are stated by NewestBounds |
| AssetPackager.Complex.CombineAssets | libraries/AssetPackager/Complex.php:341-368 | false with nothing written iff the open fails; otherwise the bundle holds the non-false contents concatenated in order |
| AssetPackager.Complex.GenerateOutput | libraries/AssetPackager/Complex.php:199-209 | each kind is generated only when some assets of that kind are given |
| AssetPackager.Complex.GenerateCombinedStyles | libraries/AssetPackager/Complex.php:221-288 | the styles and files become those of the styles loop over the media partition |
| AssetPackager.Complex.CombineGroups | libraries/AssetPackager/Complex.php:249-287 | the loop over the media groups leaves the styles and files of the styles loop rule |
| AssetPackager.Complex.PartitionByMedia | libraries/AssetPackager/Complex.php:223-247 | the media groups, built style by style |
| AssetPackager.Complex.CombineStyleGroup | libraries/AssetPackager/Complex.php:251-286 | one group: rebuild iff the bundle is uncached or older than the newest member; a failure sets the styles to false; a success records the media and date unless the styles are already false |
| AssetPackager.Complex.GenerateCombinedScripts | libraries/AssetPackager/Complex.php:300-328 | the scripts and files become those of the scripts rule |
| AssetPackager.Complex.OutputStyles | libraries/AssetPackager/Complex.php:152-164 | true iff the styles are an array |
| AssetPackager.Complex.OutputScripts | libraries/AssetPackager/Complex.php:175-186 | always false |

## Left out

- **Output markup.**
  - HTTP fetching with curl is a parameter `net: string -> Option<string>`. It is an oracle that may fail, and it is the same for every call in a session.
  - The HTML that `outputStyles`, `outputScripts` and `get_output` echo is not modelled. Only the boolean results are kept.
- **Time and formatting.**
  - DateTime values are integer seconds.
  - Date formatting is an opaque `formatDate` function.
  - The header's date is left empty when the dev date is false. The source dereferences `false` there, which is a fatal error in PHP.
  - The clock is the constant `now` of the `Disk`, so every write in a session is stamped with the same time.
- **File permissions.** `chmod(…, 0644)` is only the `readable` flag of a written file. Write failures are modelled only as a set of paths that cannot be opened.
- **Glob.** Glob results are returned in some order. PHP sorts them alphabetically; the index does not depend on the order, because the base names are distinct. Glob's rule for hidden files is not modelled.
- **Functions treated as unknown.**
  - md5 is an unknown function of the concatenated string.
  - `is_url`'s regex is not part of this model; the core never calls it.
  - The per-type abstract methods are function-typed fields of `Capabilities`: `get_file_path`, `get_file_url`, `parse_asset_file` and `minify`.
  - `get_output`, `get_asset_path` and `get_asset_url` are not modelled; `get_asset_path` is the constant `assetPath`.
- **Failure reporting.** `log_message` is left out. The error callback and its return value are left out; each report is appended to `failures`.
- **Trivial accessors and stubs.** `_getCacheFileInfo` is an empty stub. The trivial config getters (`can_be_cached`, `is_dev`, `get_base_*`, `get_cache_*`, `get_error_callback`, `get_groups`) and `get_file_version` (date formatting) are not modelled as separate members.
- **Cache file dates.** `get_cached_date_modified` is the file's mtime. `MTime` gives 0 for a file that has vanished, where PHP's `filemtime` would fail.
- **Argument types.**
  - `group`/`groups` arguments other than a string or an array are not modelled.
  - The `null` defaults of `dev_file`/`prod_file` are `""`.
  - parse_args assigns any key to the property of that name. Only the declared fields are modelled; any other key, including `dev_is_remote`, `prod_is_remote`, `dev_file_name`, `prod_file_name`, `dev_file_path`, `prod_file_path`, `dev_last_modified` and `prod_last_modified`, leaves the model's fields unchanged. An argument that presets one of these is not modelled.
  - `cacheable` and `minify_able` are booleans. A non-boolean value, which `create_cache`'s `=== false` test and `get_asset_contents`'s truthiness test would treat differently, is not modelled.
  - A null `contents` from an asset is the same as false, because `fwrite(null)` writes nothing.
- **Assets used by the bundle builder.** Each is a `Member` value: its name, its media, its date and its contents. `getContents()` is taken as already evaluated, so the cache writes that an asset may itself make while producing its contents are not part of this model.
- AbstractAsset.Asset.CachedContents: the fallbacks to `_get_asset_contents` when the cache file is missing or unreadable after a successful `create_cache` are unreachable in this sequential model. They are therefore not represented.
- AssetPackager.Complex.CombineStyleGroup: the branch that creates `_styles` when it is neither false nor an array is left out. The field is always one of the two.
- AbstractAsset.Asset.Initialize: this member does not exist in the source. It is the second half of the constructor, split off so that each half can be proved on its own.
