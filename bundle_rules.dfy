/**
 * The decisions of the bundle builder, as functions of values: the index of
 * the cache directory, the newest date of a group, the partition of styles
 * into media groups, bundle names, when a bundle is rebuilt, what a bundle
 * holds, and the state the builder ends in.
 */
module BundleRules {
  import opened Common
  import opened Strings
  import opened OrderedMaps
  import opened FileSystem

  /** The builder's configuration: the cache directory, the URL it is served under, and md5. */
  datatype PackagerConfig = PackagerConfig(cachePath: string, cacheUrl: string, md5: string -> string)

  /**
   * What the builder asks of an asset: getName(), the media property (None
   * when unset), getDateModified() (None when it is not a DateTime) and
   * getContents() (None for false).
   */
  datatype Member = Member(name: string, media: Option<string>, dateModified: Option<int>, contents: Option<string>)

  // ---------------------------------------------------------------- the cache index

  /** One cached file: its path and its modification time. */
  datatype CacheEntry = CacheEntry(path: string, datetime: int)

  /** `_cache_files`: the cached styles, the cached scripts, and both together. */
  datatype CacheIndex = CacheIndex(styles: OrdMap<CacheEntry>, scripts: OrdMap<CacheEntry>, all: OrdMap<CacheEntry>)

  /** The array `$build_name_array` builds: each path under its base name, in order. */
  function NameIndex(paths: seq<string>, files: Files): OrdMap<CacheEntry>
    requires forall p :: p in paths ==> p in files
  {
    if paths == [] then []
    else
      var p := paths[|paths| - 1];
      Put(NameIndex(paths[..|paths| - 1], files), LastSegment(p), CacheEntry(p, files[p].mtime))
  }

  /**
   * `m` keys every file that `glob(dir . "*" . ext)` matches by its base
   * name, with its path and mtime, once, and holds nothing else.
   */
  predicate Indexes(m: OrdMap<CacheEntry>, files: Files, dir: string, ext: string)
  {
    && UniqueKeys(m)
    && (forall p :: p in files && GlobMatch(p, dir, ext) ==> Lookup(m, LastSegment(p)) == Some(CacheEntry(p, files[p].mtime)))
    && (forall k :: k in Keys(m) ==> exists p :: p in files && GlobMatch(p, dir, ext) && LastSegment(p) == k)
  }

  /** `_getCacheFileArray`'s result for the cache directory `dir`. */
  predicate IndexOf(idx: CacheIndex, files: Files, dir: string)
  {
    && Indexes(idx.styles, files, dir, ".css")
    && Indexes(idx.scripts, files, dir, ".js")
    && idx.all == Union(idx.styles, idx.scripts)
  }

  /** Each path under its base name: a path seen later replaces an earlier one with the same base name. */
  lemma {:induction false} NameIndexFinds(paths: seq<string>, files: Files)
    requires forall p :: p in paths ==> p in files
    requires forall i, j :: 0 <= i < j < |paths| ==> LastSegment(paths[i]) != LastSegment(paths[j])
    ensures UniqueKeys(NameIndex(paths, files))
    ensures forall p :: p in paths ==> Lookup(NameIndex(paths, files), LastSegment(p)) == Some(CacheEntry(p, files[p].mtime))
    ensures forall k :: k in Keys(NameIndex(paths, files)) ==> exists p :: p in paths && LastSegment(p) == k
  {
    if paths != [] {
      var init, p := paths[..|paths| - 1], paths[|paths| - 1];
      var m := NameIndex(init, files);
      var e := CacheEntry(p, files[p].mtime);
      NameIndexFinds(init, files);
      PutUnique(m, LastSegment(p), e);
      PutKeys(m, LastSegment(p), e);
      forall q | q in paths ensures Lookup(Put(m, LastSegment(p), e), LastSegment(q)) == Some(CacheEntry(q, files[q].mtime)) {
        PutLookup(m, LastSegment(p), e, LastSegment(q));
        if q != p {
          var i :| 0 <= i < |paths| && paths[i] == q;
          assert i < |paths| - 1 && q == init[i];
        }
      }
      forall k | k in Keys(Put(m, LastSegment(p), e)) ensures exists q :: q in paths && LastSegment(q) == k {
        if k != LastSegment(p) {
          var q :| q in init && LastSegment(q) == k;
          assert q in paths;
        }
      }
    }
  }

  /** A file name under a directory keeps the directory's last segment as its prefix. */
  lemma {:induction false} LastSegmentAppend(dir: string, rest: string)
    requires '/' !in rest
    ensures LastSegment(dir + rest) == LastSegment(dir) + rest
  {
    if rest != [] {
      var init := rest[..|rest| - 1];
      assert (dir + rest)[..|dir + rest| - 1] == dir + init;
      LastSegmentAppend(dir, init);
      assert rest == init + [rest[|rest| - 1]];
    } else {
      assert dir + rest == dir;
    }
  }

  /** Two different files one glob matches have different base names. */
  lemma GlobBaseNamesDiffer(p: string, q: string, dir: string, ext: string)
    requires GlobMatch(p, dir, ext) && GlobMatch(q, dir, ext) && p != q
    ensures LastSegment(p) != LastSegment(q)
  {
    var rp, rq := p[|dir|..], q[|dir|..];
    assert p == dir + rp && q == dir + rq;
    LastSegmentAppend(dir, rp);
    LastSegmentAppend(dir, rq);
    assert rp != rq;
    var base := LastSegment(dir);
    assert (base + rp)[|base|..] == rp;
    assert (base + rq)[|base|..] == rq;
  }

  /** The array `$build_name_array` builds from a glob's result indexes that glob. */
  lemma GlobIndexed(paths: seq<string>, files: Files, dir: string, ext: string)
    requires forall p :: p in paths <==> p in files && GlobMatch(p, dir, ext)
    requires forall i, j :: 0 <= i < j < |paths| ==> paths[i] != paths[j]
    ensures forall p :: p in paths ==> p in files
    ensures Indexes(NameIndex(paths, files), files, dir, ext)
  {
    forall i, j | 0 <= i < j < |paths| ensures LastSegment(paths[i]) != LastSegment(paths[j]) {
      GlobBaseNamesDiffer(paths[i], paths[j], dir, ext);
    }
    NameIndexFinds(paths, files);
  }

  // ---------------------------------------------------------------- array union

  /** The entries of `b` whose key is not among `ks`, in order. */
  function Missing<V>(ks: seq<string>, b: OrdMap<V>): OrdMap<V>
  {
    if b == [] then []
    else (if b[0].0 in ks then [] else [b[0]]) + Missing(ks, b[1..])
  }

  /** `$a + $b`: all of a, then the entries of b under keys a lacks. */
  function Union<V>(a: OrdMap<V>, b: OrdMap<V>): OrdMap<V>
  {
    a + Missing(Keys(a), b)
  }

  lemma {:induction false} LookupAppend<V>(a: OrdMap<V>, b: OrdMap<V>, k: string)
    ensures Lookup(a + b, k) == if Lookup(a, k).Some? then Lookup(a, k) else Lookup(b, k)
  {
    if a != [] {
      assert (a + b)[0] == a[0];
      assert (a + b)[1..] == a[1..] + b;
      LookupAppend(a[1..], b, k);
    } else {
      assert a + b == b;
    }
  }

  lemma {:induction false} LookupMissing<V>(ks: seq<string>, b: OrdMap<V>, k: string)
    ensures Lookup(Missing(ks, b), k) == if k in ks then None else Lookup(b, k)
  {
    if b != [] {
      LookupMissing(ks, b[1..], k);
      var head: OrdMap<V> := if b[0].0 in ks then [] else [b[0]];
      LookupAppend(head, Missing(ks, b[1..]), k);
    }
  }

  /** In `$a + $b` a key of a finds a's entry (styles win), any other key b's. */
  lemma UnionLookup<V>(a: OrdMap<V>, b: OrdMap<V>, k: string)
    ensures Lookup(Union(a, b), k) == if k in Keys(a) then Lookup(a, k) else Lookup(b, k)
  {
    LookupAppend(a, Missing(Keys(a), b), k);
    LookupMissing(Keys(a), b, k);
  }

  // ---------------------------------------------------------------- newest date

  /** One step of `_getNewestModifiedDate`: a later DateTime replaces the date; anything else is skipped. */
  function Later(date: int, d: Option<int>): int
  {
    if d.Some? && d.value > date then d.value else date
  }

  /** `_getNewestModifiedDate`: starting from the epoch, the latest DateTime among the members. */
  function Newest(ms: seq<Member>): int
  {
    if ms == [] then 0 else Later(Newest(ms[..|ms| - 1]), ms[|ms| - 1].dateModified)
  }

  /**
   * The newest date is never before the epoch, never before any member's
   * date, and is the epoch or one member's date.
   */
  lemma {:induction false} NewestBounds(ms: seq<Member>)
    ensures Newest(ms) >= 0
    ensures forall i :: 0 <= i < |ms| && ms[i].dateModified.Some? ==> Newest(ms) >= ms[i].dateModified.value
    ensures Newest(ms) == 0 || exists i :: 0 <= i < |ms| && ms[i].dateModified == Some(Newest(ms))
  {
    if ms != [] {
      var init := ms[..|ms| - 1];
      NewestBounds(init);
      forall i | 0 <= i < |ms| - 1 ensures ms[i] == init[i] { }
      if Newest(ms) != 0 && Newest(ms) == Newest(init) {
        var i :| 0 <= i < |init| && init[i].dateModified == Some(Newest(init));
        assert ms[i] == init[i];
      }
    }
  }

  // ---------------------------------------------------------------- media groups

  /** The group a style joins: its media, or `screen` when unset. */
  function MediaOf(st: Member): string
  {
    if st.media.Some? then st.media.value else "screen"
  }

  /**
   * The `$get_media` closure: a style with a media not yet seen opens its
   * group under positional key 0; a style with no media opens `screen` under
   * its name; a style joining an existing group is stored under its name.
   */
  function AddStyle(medias: OrdMap<OrdMap<Member>>, st: Member): OrdMap<OrdMap<Member>>
  {
    Put(medias, MediaOf(st), JoinedGroup(medias, st))
  }

  /** `array_map($get_media, $styles)`: the styles, in order, partitioned into media groups. */
  function Partition(sts: seq<Member>): OrdMap<OrdMap<Member>>
  {
    if sts == [] then [] else AddStyle(Partition(sts[..|sts| - 1]), sts[|sts| - 1])
  }

  /** The key a style is stored under when it joins `medias`. */
  function JoinKey(medias: OrdMap<OrdMap<Member>>, st: Member): string
  {
    if Lookup(medias, MediaOf(st)).None? && st.media.Some? then "0" else st.name
  }

  /**
   * The group a style's media holds once the style has joined it: a new group
   * holds only the style, under its key; an existing one gets it under its name.
   */
  function JoinedGroup(medias: OrdMap<OrdMap<Member>>, st: Member): OrdMap<Member>
  {
    match Lookup(medias, MediaOf(st))
    case None => [(JoinKey(medias, st), st)]
    case Some(g) => Put(g, st.name, st)
  }

  /**
   * A style lands in its own group and in no other: afterwards its group holds
   * it under its key, every other group is as it was, and joining an existing
   * group changes no entry but the one under the style's name (so it never
   * replaces the entry under `0` of a style that was not named `0`).
   */
  lemma AddStyleLands(medias: OrdMap<OrdMap<Member>>, st: Member)
    ensures var r := AddStyle(medias, st);
      && Lookup(r, MediaOf(st)).Some?
      && Lookup(Lookup(r, MediaOf(st)).value, JoinKey(medias, st)) == Some(st)
      && (forall k :: k != MediaOf(st) ==> Lookup(r, k) == Lookup(medias, k))
      && (Lookup(medias, MediaOf(st)).Some? ==>
            forall k :: k != st.name ==> Lookup(Lookup(r, MediaOf(st)).value, k) == Lookup(Lookup(medias, MediaOf(st)).value, k))
  {
    var m := MediaOf(st);
    var g := JoinedGroup(medias, st);
    forall k ensures Lookup(Put(medias, m, g), k) == if k == m then Some(g) else Lookup(medias, k) {
      PutLookup(medias, m, g, k);
    }
    if Lookup(medias, m).Some? {
      forall k ensures Lookup(g, k) == if k == st.name then Some(st) else Lookup(Lookup(medias, m).value, k) {
        PutLookup(Lookup(medias, m).value, st.name, st, k);
      }
    }
  }

  /** A style's media is appended to the groups if it is new, and no group appears twice. */
  lemma AddStyleKeys(medias: OrdMap<OrdMap<Member>>, st: Member)
    requires UniqueKeys(medias)
    ensures UniqueKeys(AddStyle(medias, st))
    ensures Keys(AddStyle(medias, st)) == if MediaOf(st) in Keys(medias) then Keys(medias) else Keys(medias) + [MediaOf(st)]
  {
    PutKeys(medias, MediaOf(st), JoinedGroup(medias, st));
    PutUnique(medias, MediaOf(st), JoinedGroup(medias, st));
  }

  /** The groups are exactly the media of the styles, each once, in order of first appearance. */
  lemma {:induction false} PartitionGroups(sts: seq<Member>)
    ensures UniqueKeys(Partition(sts))
    ensures forall k :: k in Keys(Partition(sts)) <==> exists i :: 0 <= i < |sts| && MediaOf(sts[i]) == k
  {
    if sts != [] {
      var init, st := sts[..|sts| - 1], sts[|sts| - 1];
      PartitionGroups(init);
      var medias := Partition(init);
      assert Partition(sts) == AddStyle(medias, st);
      AddStyleKeys(medias, st);
      forall k ensures k in Keys(Partition(sts)) <==> exists i :: 0 <= i < |sts| && MediaOf(sts[i]) == k {
        if k == MediaOf(st) {
          assert MediaOf(sts[|sts| - 1]) == k;
        } else if k in Keys(medias) {
          var i :| 0 <= i < |init| && MediaOf(init[i]) == k;
          assert sts[i] == init[i];
        } else {
          forall i | 0 <= i < |sts| ensures MediaOf(sts[i]) != k {
            if i < |init| {
              assert sts[i] == init[i];
            }
          }
        }
      }
    }
  }

  // ---------------------------------------------------------------- bundle names and contents

  /** `md5(implode("", $names)) . $ext`. */
  function BundleName(md5: string -> string, keys: seq<string>, ext: string): string
  {
    md5(Implode(keys)) + ext
  }

  /**
   * Two groups each opened by a single style with an explicit media are both
   * keyed `0` alone, so they are given the same bundle name.
   */
  lemma OpenersShareBundleName(md5: string -> string, a: Member, b: Member)
    requires a.media.Some? && b.media.Some? && a.media != b.media
    ensures var groups := Partition([a, b]);
      && groups == [(a.media.value, [("0", a)]), (b.media.value, [("0", b)])]
      && BundleName(md5, Keys(groups[0].1), ".css") == BundleName(md5, Keys(groups[1].1), ".css")
  {
    assert [a, b][..1] == [a];
    assert [a][..0] == [];
    var first := [(a.media.value, [("0", a)])];
    assert Partition([a]) == first;
    assert first[1..] == [];
    assert Lookup(first, MediaOf(b)) == None;
    assert Put(first, MediaOf(b), [("0", b)]) == first + [(b.media.value, [("0", b)])];
    assert Keys([("0", a)]) == ["0"] == Keys([("0", b)]);
  }

  /** The name depends on the concatenated keys only: reordering keys can keep it. */
  lemma ReorderKeepsName(md5: string -> string)
    ensures Implode(["a", "aa"]) == Implode(["aa", "a"])
    ensures BundleName(md5, ["a", "aa"], ".css") == BundleName(md5, ["aa", "a"], ".css")
  {
    assert ["a", "aa"][1..] == ["aa"];
    assert ["aa", "a"][1..] == ["a"];
    assert Implode(["a"]) == "a" && Implode(["aa"]) == "aa";
  }

  /** Swapping two different keys of the same length changes the hashed text. */
  lemma SwapChangesText(x: string, y: string)
    requires |x| == |y| && x != y
    ensures Implode([x, y]) != Implode([y, x])
  {
    assert [x, y][1..] == [y] && [y, x][1..] == [x];
    assert Implode([x]) == x && Implode([y]) == y;
    assert (x + y)[..|x|] == x;
    assert (y + x)[..|y|] == y;
  }

  /** The contents `_combineAssets` collects: each member's, in order, skipping false. */
  function Pieces(ms: seq<Member>): seq<string>
  {
    if ms == [] then []
    else
      var last := ms[|ms| - 1];
      Pieces(ms[..|ms| - 1]) + (if last.contents.Some? then [last.contents.value] else [])
  }

  /** What a bundle of `ms` holds: the collected contents written one after the other. */
  function BundleText(ms: seq<Member>): string
  {
    Implode(Pieces(ms))
  }

  lemma {:induction false} ImplodeAppend(a: seq<string>, b: seq<string>)
    ensures Implode(a + b) == Implode(a) + Implode(b)
  {
    if a != [] {
      assert (a + b)[1..] == a[1..] + b;
      ImplodeAppend(a[1..], b);
    } else {
      assert a + b == b;
    }
  }

  lemma {:induction false} PiecesAppend(a: seq<Member>, b: seq<Member>)
    ensures Pieces(a + b) == Pieces(a) + Pieces(b)
    decreases |b|
  {
    if b != [] {
      var init, last := b[..|b| - 1], b[|b| - 1];
      var piece := if last.contents.Some? then [last.contents.value] else [];
      assert (a + b)[..|a + b| - 1] == a + init;
      assert (a + b)[|a + b| - 1] == last;
      PiecesAppend(a, init);
      assert Pieces(a + b) == Pieces(a + init) + piece;
      assert Pieces(b) == Pieces(init) + piece;
    } else {
      assert a + b == a;
    }
  }

  /**
   * A bundle of two runs of members is the bundle of the first followed by
   * the bundle of the second: members keep their order, and a member whose
   * content is false adds nothing.
   */
  lemma BundleTextAppend(a: seq<Member>, b: seq<Member>)
    ensures BundleText(a + b) == BundleText(a) + BundleText(b)
    ensures forall m: Member :: m.contents.None? ==> BundleText(a + [m]) == BundleText(a)
  {
    PiecesAppend(a, b);
    ImplodeAppend(Pieces(a), Pieces(b));
    forall m: Member | m.contents.None? ensures BundleText(a + [m]) == BundleText(a) {
      PiecesAppend(a, [m]);
      assert [m][..0] == [];
      assert Pieces(a) + [] == Pieces(a);
    }
  }

  // ---------------------------------------------------------------- the builder's outcome

  /** A bundle is rebuilt iff it is not cached or some member is strictly newer. */
  predicate Rebuild(entry: Option<CacheEntry>, newest: int)
  {
    entry.None? || newest > entry.value.datetime
  }

  /** `_styles`/`_scripts`: false, or the bundles made so far by name. */
  datatype Outcome<V> = Failed | Bundles(entries: OrdMap<V>)

  datatype StyleBundle = StyleBundle(media: string, datetime: int)
  datatype ScriptBundle = ScriptBundle(datetime: int)

  function StyleName(cfg: PackagerConfig, group: OrdMap<Member>): string
  {
    BundleName(cfg.md5, Keys(group), ".css")
  }

  /** A media group fails to combine: its bundle is rebuilt and cannot be opened for writing. */
  predicate StyleGroupFails(cfg: PackagerConfig, idx: CacheIndex, unwritable: set<string>, group: OrdMap<Member>)
  {
    Rebuild(Lookup(idx.styles, StyleName(cfg, group)), Newest(Values(group)))
    && cfg.cachePath + StyleName(cfg, group) in unwritable
  }

  /**
   * One iteration of `_generateCombinedStyles` over a media group: its bundle
   * is combined when it must be rebuilt; a failure sets the styles to false;
   * a success records the media and newest date under the bundle name, unless
   * the styles are already false.
   */
  function StyleStep(cfg: PackagerConfig, idx: CacheIndex, unwritable: set<string>, now: int,
                     state: (Outcome<StyleBundle>, Files), group: (string, OrdMap<Member>)): (Outcome<StyleBundle>, Files)
  {
    var members := Values(group.1);
    var newest := Newest(members);
    var name := StyleName(cfg, group.1);
    var path := cfg.cachePath + name;
    var combine := Rebuild(Lookup(idx.styles, name), newest);
    if combine && path in unwritable then (Failed, state.1)
    else
      var files := if combine then Written(state.1, path, BundleText(members), now) else state.1;
      (if state.0.Failed? then Failed else Bundles(Put(state.0.entries, name, StyleBundle(group.0, newest))), files)
  }

  /** The loop over the media groups, from the styles and files it starts with. */
  function StylesRun(cfg: PackagerConfig, idx: CacheIndex, unwritable: set<string>, now: int,
                     groups: OrdMap<OrdMap<Member>>, init: (Outcome<StyleBundle>, Files)): (Outcome<StyleBundle>, Files)
  {
    if groups == [] then init
    else StyleStep(cfg, idx, unwritable, now, StylesRun(cfg, idx, unwritable, now, groups[..|groups| - 1], init), groups[|groups| - 1])
  }

  /** Once false, the styles stay false for every later group. */
  lemma {:induction false} StylesStayFailed(cfg: PackagerConfig, idx: CacheIndex, unwritable: set<string>, now: int,
                                            groups: OrdMap<OrdMap<Member>>, init: (Outcome<StyleBundle>, Files), i: nat)
    requires i <= |groups|
    requires StylesRun(cfg, idx, unwritable, now, groups[..i], init).0.Failed?
    ensures StylesRun(cfg, idx, unwritable, now, groups, init).0.Failed?
    decreases |groups| - i
  {
    if i < |groups| {
      var next := groups[..i + 1];
      assert next[..|next| - 1] == groups[..i];
      StylesStayFailed(cfg, idx, unwritable, now, groups, init, i + 1);
    } else {
      assert groups[..i] == groups;
    }
  }

  /**
   * Starting from an array, the styles end as an array iff no media group
   * failed to combine; any failure discards every recorded bundle.
   */
  lemma {:induction false} StylesSucceedIff(cfg: PackagerConfig, idx: CacheIndex, unwritable: set<string>, now: int,
                                            groups: OrdMap<OrdMap<Member>>, init: (Outcome<StyleBundle>, Files))
    requires init.0.Bundles?
    ensures StylesRun(cfg, idx, unwritable, now, groups, init).0.Bundles?
            <==> forall i :: 0 <= i < |groups| ==> !StyleGroupFails(cfg, idx, unwritable, groups[i].1)
  {
    if groups != [] {
      var init' := groups[..|groups| - 1];
      StylesSucceedIff(cfg, idx, unwritable, now, init', init);
      forall i | 0 <= i < |init'| ensures init'[i] == groups[i] { }
    }
  }

  /**
   * When the styles end as an array, a group whose bundle name no later group
   * shares is recorded under that name with its media and newest date.
   */
  lemma {:induction false} StylesRecorded(cfg: PackagerConfig, idx: CacheIndex, unwritable: set<string>, now: int,
                                          groups: OrdMap<OrdMap<Member>>, init: (Outcome<StyleBundle>, Files), i: nat)
    requires i < |groups|
    requires StylesRun(cfg, idx, unwritable, now, groups, init).0.Bundles?
    requires forall j :: i < j < |groups| ==> StyleName(cfg, groups[j].1) != StyleName(cfg, groups[i].1)
    ensures Lookup(StylesRun(cfg, idx, unwritable, now, groups, init).0.entries, StyleName(cfg, groups[i].1))
            == Some(StyleBundle(groups[i].0, Newest(Values(groups[i].1))))
  {
    var init' := groups[..|groups| - 1];
    var last := groups[|groups| - 1];
    var before := StylesRun(cfg, idx, unwritable, now, init', init);
    var name := StyleName(cfg, last.1);
    assert before.0.Bundles?;
    PutLookup(before.0.entries, name, StyleBundle(last.0, Newest(Values(last.1))), StyleName(cfg, groups[i].1));
    if i < |groups| - 1 {
      assert init'[i] == groups[i];
      StylesRecorded(cfg, idx, unwritable, now, init', init, i);
    }
  }

  /** A group whose bundle is cached and not older than its members writes nothing and counts as combined. */
  lemma FreshGroupWritesNothing(cfg: PackagerConfig, idx: CacheIndex, unwritable: set<string>, now: int,
                                state: (Outcome<StyleBundle>, Files), group: (string, OrdMap<Member>))
    requires !Rebuild(Lookup(idx.styles, StyleName(cfg, group.1)), Newest(Values(group.1)))
    ensures StyleStep(cfg, idx, unwritable, now, state, group).1 == state.1
    ensures state.0.Bundles? ==> StyleStep(cfg, idx, unwritable, now, state, group).0.Bundles?
  {
  }

  /** Only bundle files change: every file the loop changes is some group's bundle. */
  lemma {:induction false} StylesWriteOnlyBundles(cfg: PackagerConfig, idx: CacheIndex, unwritable: set<string>, now: int,
                                                  groups: OrdMap<OrdMap<Member>>, init: (Outcome<StyleBundle>, Files), p: string)
    requires forall i :: 0 <= i < |groups| ==> cfg.cachePath + StyleName(cfg, groups[i].1) != p
    ensures var files := StylesRun(cfg, idx, unwritable, now, groups, init).1;
      (p in files <==> p in init.1) && (p in files ==> files[p] == init.1[p])
  {
    if groups != [] {
      var init' := groups[..|groups| - 1];
      forall i | 0 <= i < |init'| ensures init'[i] == groups[i] { }
      StylesWriteOnlyBundles(cfg, idx, unwritable, now, init', init, p);
    }
  }

  /**
   * `_generateCombinedScripts`: one bundle of all scripts, named from their
   * keys; the scripts end false if combining it fails, and otherwise as a
   * single entry with the newest date.
   */
  function ScriptsRun(cfg: PackagerConfig, idx: CacheIndex, unwritable: set<string>, now: int,
                      scripts: OrdMap<Member>, files: Files): (r: (Outcome<ScriptBundle>, Files))
    ensures r.0.Failed? || |r.0.entries| == 1
    ensures r.0.Failed? ==> r.1 == files
  {
    var members := Values(scripts);
    var name := ScriptName(cfg, scripts);
    var newest := Newest(members);
    var path := cfg.cachePath + name;
    var combine := Rebuild(Lookup(idx.scripts, name), newest);
    if combine && path in unwritable then (Failed, files)
    else ((Bundles([(name, ScriptBundle(newest))])), if combine then Written(files, path, BundleText(members), now) else files)
  }

  function ScriptName(cfg: PackagerConfig, scripts: OrdMap<Member>): string
  {
    BundleName(cfg.md5, Keys(scripts), ".js")
  }

  /** The scripts' bundle fails to combine: it is rebuilt and cannot be opened for writing. */
  predicate ScriptsFail(cfg: PackagerConfig, idx: CacheIndex, unwritable: set<string>, scripts: OrdMap<Member>)
  {
    Rebuild(Lookup(idx.scripts, ScriptName(cfg, scripts)), Newest(Values(scripts)))
    && cfg.cachePath + ScriptName(cfg, scripts) in unwritable
  }

  /**
   * The scripts end as an array iff their bundle does not fail to combine;
   * then the array holds exactly the bundle's name with a date no earlier
   * than any script's and equal to one of them.
   */
  lemma ScriptsSucceedIff(cfg: PackagerConfig, idx: CacheIndex, unwritable: set<string>, now: int,
                          scripts: OrdMap<Member>, files: Files)
    ensures var r := ScriptsRun(cfg, idx, unwritable, now, scripts, files);
      && (r.0.Bundles? <==> !ScriptsFail(cfg, idx, unwritable, scripts))
      && (r.0.Bundles? ==> r.0.entries == [(ScriptName(cfg, scripts), ScriptBundle(Newest(Values(scripts))))])
      && (r.0.Bundles? ==>
            var d := r.0.entries[0].1.datetime;
            && (forall i :: 0 <= i < |scripts| && scripts[i].1.dateModified.Some? ==> scripts[i].1.dateModified.value <= d)
            && (d == 0 || exists i :: 0 <= i < |scripts| && scripts[i].1.dateModified == Some(d)))
  {
    NewestBounds(Values(scripts));
  }

  /** A script bundle that is cached and not older than every script writes nothing and succeeds. */
  lemma FreshScriptsWriteNothing(cfg: PackagerConfig, idx: CacheIndex, unwritable: set<string>, now: int,
                                 scripts: OrdMap<Member>, files: Files)
    requires !Rebuild(Lookup(idx.scripts, ScriptName(cfg, scripts)), Newest(Values(scripts)))
    ensures ScriptsRun(cfg, idx, unwritable, now, scripts, files).1 == files
    ensures ScriptsRun(cfg, idx, unwritable, now, scripts, files).0.Bundles?
  {
  }

  /**
   * Only the scripts' bundle changes, and a rebuilt bundle that could be
   * opened holds the scripts' combined text.
   */
  lemma ScriptsWriteOnlyBundle(cfg: PackagerConfig, idx: CacheIndex, unwritable: set<string>, now: int,
                               scripts: OrdMap<Member>, files: Files, p: string)
    ensures var f' := ScriptsRun(cfg, idx, unwritable, now, scripts, files).1;
      p != cfg.cachePath + ScriptName(cfg, scripts) ==> (p in f' <==> p in files) && (p in f' ==> f'[p] == files[p])
    ensures var f' := ScriptsRun(cfg, idx, unwritable, now, scripts, files).1;
      var path := cfg.cachePath + ScriptName(cfg, scripts);
      Rebuild(Lookup(idx.scripts, ScriptName(cfg, scripts)), Newest(Values(scripts))) && path !in unwritable ==>
        path in f' && f'[path] == FileInfo(BundleText(Values(scripts)), now, true)
  {
  }

  /** `_generateOutput`: the styles, then the scripts, each only when some were given. */
  function Output(cfg: PackagerConfig, idx: CacheIndex, unwritable: set<string>, now: int,
                  styles: seq<Member>, scripts: OrdMap<Member>,
                  styles0: Outcome<StyleBundle>, scripts0: Outcome<ScriptBundle>, files: Files)
    : (Outcome<StyleBundle>, Outcome<ScriptBundle>, Files)
  {
    var s := if |styles| > 0 then StylesRun(cfg, idx, unwritable, now, Partition(styles), (styles0, files)) else (styles0, files);
    var t := if |scripts| > 0 then ScriptsRun(cfg, idx, unwritable, now, scripts, s.1) else (scripts0, s.1);
    (s.0, t.0, t.1)
  }

  /**
   * The builder's styles end as an array iff no media group of the given
   * styles fails to combine (none fails when no styles are given).
   */
  lemma OutputStylesIff(cfg: PackagerConfig, idx: CacheIndex, unwritable: set<string>, now: int,
                        styles: seq<Member>, scripts: OrdMap<Member>, files: Files)
    ensures Output(cfg, idx, unwritable, now, styles, scripts, Bundles([]), Bundles([]), files).0.Bundles?
            <==> forall i :: 0 <= i < |Partition(styles)| ==> !StyleGroupFails(cfg, idx, unwritable, Partition(styles)[i].1)
  {
    var out := Output(cfg, idx, unwritable, now, styles, scripts, Bundles([]), Bundles([]), files);
    if |styles| > 0 {
      var run := StylesRun(cfg, idx, unwritable, now, Partition(styles), (Bundles([]), files));
      assert out.0 == run.0;
      StylesSucceedIff(cfg, idx, unwritable, now, Partition(styles), (Bundles([]), files));
    } else {
      assert styles == [];
    }
  }
}
