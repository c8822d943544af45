/**
 * The rolling keep-history and stale-file reconciler of
 * lib/webpack/plugins/webpack-cleaning-assets-keeping-builds-plugin.ts.
 *
 * After each build the plugin writes a history file (default `.keep.json`)
 * holding the flattened asset lists of the last `keepBuilds + 1` builds, newest
 * first, and then deletes every file of the output directory that is neither
 * on its keep-list nor named in that history.
 *
 * The file system is an in-memory map from relative path to "is a directory";
 * the directory listing and the parsed history file are given as inputs.
 */
module CleaningPlugin {
  import opened Wrappers
  import opened Utils

  // ---------------------------------------------------------------------------
  // Keep entries: literal names and regular expressions
  // ---------------------------------------------------------------------------

  /** A RegExp keep entry. The built-in one is given concretely; others are opaque tests. */
  datatype RegExp = AssetsManifest | Custom(test: string -> bool)

  datatype KeepEntry = Name(name: string) | Pattern(re: RegExp)

  predicate IsLower(c: char) {
    'a' <= c <= 'z'
  }

  predicate AllLower(s: string) {
    forall i :: 0 <= i < |s| ==> IsLower(s[i])
  }

  predicate EndsWith(s: string, suffix: string) {
    |suffix| <= |s| && s[|s| - |suffix|..] == suffix
  }

  /** The length of the longest suffix of `s` made of `a`-`z` only. */
  function LowerSuffixLength(s: string): (k: nat)
    ensures k <= |s|
  {
    if s == [] || !IsLower(s[|s| - 1]) then 0 else 1 + LowerSuffixLength(s[..|s| - 1])
  }

  /** `/assets\.[a-z]+$/.test(s)`: the name ends in "assets." followed by one or more lower-case letters. */
  predicate MatchesAssetsManifest(s: string) {
    var k := LowerSuffixLength(s);
    k >= 1 && EndsWith(s[..|s| - k], "assets.")
  }

  /** The regular expression read literally: some position holds "assets." and only lower-case letters follow it. */
  ghost predicate AssetsRegExpMatchesAt(s: string, p: int) {
    0 <= p && p + 7 < |s| && s[p..p + 7] == "assets." && AllLower(s[p + 7..])
  }

  function Test(re: RegExp, s: string): bool {
    match re
    case AssetsManifest => MatchesAssetsManifest(s)
    case Custom(t) => t(s)
  }

  lemma {:induction false} LowerSuffixIsMaximal(s: string, q: nat)
    requires q <= |s| && AllLower(s[q..])
    requires q == 0 || !IsLower(s[q - 1])
    ensures LowerSuffixLength(s) == |s| - q
  {
    if q < |s| {
      var t := s[..|s| - 1];
      assert IsLower(s[|s| - 1]) by { assert s[|s| - 1] == s[q..][|s| - 1 - q]; }
      assert AllLower(t[q..]) by {
        forall i | 0 <= i < |t[q..]| ensures IsLower(t[q..][i]) {
          assert t[q..][i] == s[q..][i];
        }
      }
      assert q == 0 || !IsLower(t[q - 1]);
      LowerSuffixIsMaximal(t, q);
    }
  }

  lemma {:induction false} LowerSuffixIsLower(s: string)
    ensures AllLower(s[|s| - LowerSuffixLength(s)..])
    ensures LowerSuffixLength(s) < |s| ==> !IsLower(s[|s| - LowerSuffixLength(s) - 1])
  {
    if s != [] && IsLower(s[|s| - 1]) {
      var t := s[..|s| - 1];
      LowerSuffixIsLower(t);
      var k := LowerSuffixLength(t);
      assert s[|s| - (k + 1)..] == t[|t| - k..] + [s[|s| - 1]];
    }
  }

  /** The concrete matcher agrees with the regular expression `/assets\.[a-z]+$/`. */
  lemma AssetsManifestPatternMeaning(s: string)
    ensures MatchesAssetsManifest(s) <==> exists p :: AssetsRegExpMatchesAt(s, p)
  {
    var k := LowerSuffixLength(s);
    LowerSuffixIsLower(s);
    if MatchesAssetsManifest(s) {
      var p := |s| - k - 7;
      assert s[p..p + 7] == s[..|s| - k][|s| - k - 7..];
      assert AssetsRegExpMatchesAt(s, p);
    }
    if p :| AssetsRegExpMatchesAt(s, p) {
      assert s[p + 6] == s[p..p + 7][6] == '.';
      LowerSuffixIsMaximal(s, p + 7);
      assert s[..|s| - k][|s| - k - 7..] == s[p..p + 7];
    }
  }

  /** A file named "assets." and a lower-case extension, in any directory, matches the built-in pattern. */
  lemma {:induction false} ManifestNameMatches(dir: string, format: string)
    requires |format| > 0 && AllLower(format)
    ensures MatchesAssetsManifest(dir + "assets." + format)
  {
    var s := dir + "assets." + format;
    var q := |dir| + 7;
    assert s[q..] == format;
    assert s[q - 1] == '.';
    LowerSuffixIsMaximal(s, q);
    assert s[..|s| - |format|] == dir + "assets.";
    assert (dir + "assets.")[|dir|..] == "assets.";
  }

  /** A name with a digit after the dot, a bare "assets." and the default history file do not match. */
  lemma AssetsManifestRejects()
    ensures !MatchesAssetsManifest(".keep.json")
    ensures !MatchesAssetsManifest("assets.json5")
    ensures !MatchesAssetsManifest("assets.")
  {
    assert LowerSuffixLength(".keep.json") == 4 by { LowerSuffixIsMaximal(".keep.json", 6); }
    assert !IsLower("assets.json5"[11]);
    assert !IsLower("assets."[6]);
  }

  // ---------------------------------------------------------------------------
  // Settings
  // ---------------------------------------------------------------------------

  /** The settings a caller passes; `None` is a property left out. */
  datatype UserSettings = UserSettings(fileName: Option<string>, keepBuilds: Option<int>, keepFiles: Option<seq<KeepEntry>>)

  const DefaultFileName: string := ".keep.json"
  const DefaultKeepBuilds: int := 0
  const DefaultKeepFiles: seq<KeepEntry> := [Pattern(AssetsManifest)]

  /** The history file as read back: parsed generations, or text that is not JSON. */
  datatype HistoryFile = Parsed(generations: seq<seq<Scalar>>) | Unparsable

  datatype PluginError =
    | FlattenFailed(cause: FlattenError)
    | HistoryNotJson
    | MissingEntry(path: string)

  // ---------------------------------------------------------------------------
  // processOutput: the history update
  // ---------------------------------------------------------------------------

  /** Keys that are exactly one decimal digit (`/^[0-9]$/`). */
  predicate IsSingleDigit(key: string) {
    |key| == 1 && '0' <= key[0] <= '9'
  }

  /** The asset record with every single-digit top-level key removed, the others kept in order. */
  function WithoutDigitKeys(props: seq<Prop>): seq<Prop>
  {
    if props == [] then []
    else
      var rest := WithoutDigitKeys(props[..|props| - 1]);
      var last := props[|props| - 1];
      if IsSingleDigit(last.key) then rest else rest + [last]
  }

  /**
   * The filter keeps the surviving properties in their order: it distributes
   * over concatenation, and a single property survives exactly when its key is
   * not a single digit.
   */
  lemma {:induction false} WithoutDigitKeysKeepsOrder(a: seq<Prop>, b: seq<Prop>)
    ensures WithoutDigitKeys(a + b) == WithoutDigitKeys(a) + WithoutDigitKeys(b)
    ensures |a| == 1 ==> WithoutDigitKeys(a) == if IsSingleDigit(a[0].key) then [] else a
    decreases |b|
  {
    if |a| == 1 {
      assert a[..0] == [];
    }
    if b == [] {
      assert a + b == a;
    } else {
      var b' := b[..|b| - 1];
      assert (a + b)[..|a + b| - 1] == a + b';
      assert (a + b)[|a + b| - 1] == b[|b| - 1];
      WithoutDigitKeysKeepsOrder(a, b');
    }
  }

  lemma {:induction false} WithoutDigitKeysSpec(props: seq<Prop>)
    ensures forall p :: p in WithoutDigitKeys(props) <==> p in props && !IsSingleDigit(p.key)
    ensures |WithoutDigitKeys(props)| <= |props|
  {
    if props != [] {
      WithoutDigitKeysSpec(props[..|props| - 1]);
      assert props == props[..|props| - 1] + [props[|props| - 1]];
    }
  }

  /** The first index of `x` in `s`, or -1 (`Array.prototype.indexOf`). */
  function IndexOf<T(==)>(s: seq<T>, x: T): (i: int)
    ensures -1 <= i < |s|
    ensures i == -1 <==> x !in s
    ensures i >= 0 ==> s[i] == x && forall j :: 0 <= j < i ==> s[j] != x
  {
    if s == [] then -1
    else if s[0] == x then 0
    else
      var i := IndexOf(s[1..], x);
      if i == -1 then -1 else i + 1
  }

  /** `s.filter((v, i, self) => self.indexOf(v) === i)` restricted to the first `n` elements. */
  function FirstOccurrencesIn<T(==)>(s: seq<T>, n: nat): seq<T>
    requires n <= |s|
  {
    if n == 0 then []
    else FirstOccurrencesIn(s, n - 1) + (if IndexOf(s, s[n - 1]) == n - 1 then [s[n - 1]] else [])
  }

  /** The de-duplicated list: each value at the position of its first occurrence. */
  function Unique<T(==)>(s: seq<T>): seq<T> {
    FirstOccurrencesIn(s, |s|)
  }

  lemma {:induction false} FirstOccurrencesInSpec<T>(s: seq<T>, n: nat)
    requires n <= |s|
    ensures forall x :: x in FirstOccurrencesIn(s, n) <==> x in s[..n]
    ensures forall i :: 0 <= i < |FirstOccurrencesIn(s, n)| ==> 0 <= IndexOf(s, FirstOccurrencesIn(s, n)[i]) < n
    ensures forall i, j :: 0 <= i < j < |FirstOccurrencesIn(s, n)| ==>
      IndexOf(s, FirstOccurrencesIn(s, n)[i]) < IndexOf(s, FirstOccurrencesIn(s, n)[j])
  {
    if n > 0 {
      FirstOccurrencesInSpec(s, n - 1);
      var u, x := FirstOccurrencesIn(s, n - 1), s[n - 1];
      assert s[..n] == s[..n - 1] + [x];
      if IndexOf(s, x) != n - 1 {
        assert x in s[..n - 1] by {
          var k := IndexOf(s, x);
          assert 0 <= k < n - 1;
          assert s[..n - 1][k] == x;
        }
      }
    }
  }

  /**
   * De-duplication by first occurrence: no value twice, the same values as the
   * input, and in the order of their first occurrences.
   */
  lemma UniqueSpec<T>(s: seq<T>)
    ensures forall i, j :: 0 <= i < j < |Unique(s)| ==> Unique(s)[i] != Unique(s)[j]
    ensures forall x :: x in Unique(s) <==> x in s
    ensures forall i, j :: 0 <= i < j < |Unique(s)| ==> IndexOf(s, Unique(s)[i]) < IndexOf(s, Unique(s)[j])
  {
    FirstOccurrencesInSpec(s, |s|);
    assert s[..|s|] == s;
  }

  /** JavaScript's `a.slice(0, end)`: a negative end counts from the back, a large one is clamped. */
  function SliceTo<T>(a: seq<T>, end: int): (r: seq<T>)
    ensures 0 <= end ==> |r| == if end < |a| then end else |a|
    ensures end < 0 ==> |r| == if |a| + end < 0 then 0 else |a| + end
    ensures forall i :: 0 <= i < |r| ==> r[i] == a[i]
  {
    var stop := if end < 0 then (if |a| + end < 0 then 0 else |a| + end) else (if end < |a| then end else |a|);
    a[..stop]
  }

  /**
   * The history to write: the new generation first, then the stored ones in
   * their stored order, cut to `keepBuilds + 1` generations.
   */
  function NextHistory(generation: seq<Scalar>, previous: seq<seq<Scalar>>, keepBuilds: int): (h: seq<seq<Scalar>>)
    ensures keepBuilds >= 0 ==> |h| == if |previous| + 1 < keepBuilds + 1 then |previous| + 1 else keepBuilds + 1
    ensures keepBuilds >= 0 ==> h[0] == generation
    ensures |h| <= |previous| + 1
    ensures forall i :: 1 <= i < |h| ==> h[i] == previous[i - 1]
  {
    SliceTo([generation] + previous, keepBuilds + 1)
  }

  /** What `processOutput` returns, as a function of its inputs. */
  function HistoryToWrite(assets: seq<Prop>, stored: Option<HistoryFile>, keepBuilds: int): Result<seq<seq<Scalar>>, PluginError>
  {
    match Flatten(Obj(WithoutDigitKeys(assets)))
    case Failure(e) => Failure(FlattenFailed(e))
    case Success(list) =>
      match stored
      case None => Success(NextHistory(Unique(list), [], keepBuilds))
      case Some(Unparsable) => Failure(HistoryNotJson)
      case Some(Parsed(previous)) => Success(NextHistory(Unique(list), previous, keepBuilds))
  }

  /**
   * The outcome of `processOutput`: it fails exactly when the asset record
   * cannot be flattened or the stored file is not JSON. Otherwise the written
   * history is the de-duplicated generation of this build, its paths in the
   * order of their first occurrence, followed by the stored generations in
   * their order (none without a history file), cut to `keepBuilds + 1`.
   */
  lemma HistoryToWriteSpec(assets: seq<Prop>, stored: Option<HistoryFile>, keepBuilds: int)
    requires keepBuilds >= 0
    ensures HistoryToWrite(assets, stored, keepBuilds).Failure? <==>
      Flatten(Obj(WithoutDigitKeys(assets))).Failure? || stored == Some(Unparsable)
    ensures HistoryToWrite(assets, stored, keepBuilds).Success? ==>
      var h := HistoryToWrite(assets, stored, keepBuilds).value;
      var list := Flatten(Obj(WithoutDigitKeys(assets))).value;
      var previous := if stored.Some? then stored.value.generations else [];
      && |h| == (if |previous| + 1 < keepBuilds + 1 then |previous| + 1 else keepBuilds + 1)
      && (forall i :: 1 <= i < |h| ==> h[i] == previous[i - 1])
      && (forall i, j :: 0 <= i < j < |h[0]| ==> h[0][i] != h[0][j])
      && (forall x :: x in h[0] <==> x in list)
      && (forall i, j :: 0 <= i < j < |h[0]| ==> IndexOf(list, h[0][i]) < IndexOf(list, h[0][j]))
  {
    var r := Flatten(Obj(WithoutDigitKeys(assets)));
    if r.Success? {
      UniqueSpec(r.value);
    }
  }

  /** Builds run one after the other, from no history file, each writing what `processOutput` computes. */
  function HistoryAfter(generations: seq<seq<Scalar>>, keepBuilds: int): seq<seq<Scalar>>
  {
    if generations == [] then []
    else NextHistory(generations[|generations| - 1], HistoryAfter(generations[..|generations| - 1], keepBuilds), keepBuilds)
  }

  /** After n builds the history holds min(n, keepBuilds + 1) generations, most recent first. */
  lemma {:induction false} HistoryWindow(generations: seq<seq<Scalar>>, keepBuilds: int)
    requires keepBuilds >= 0
    ensures |HistoryAfter(generations, keepBuilds)| == if |generations| < keepBuilds + 1 then |generations| else keepBuilds + 1
    ensures forall i :: 0 <= i < |HistoryAfter(generations, keepBuilds)| ==>
      HistoryAfter(generations, keepBuilds)[i] == generations[|generations| - 1 - i]
  {
    if generations != [] {
      var n := |generations|;
      HistoryWindow(generations[..n - 1], keepBuilds);
      var h := HistoryAfter(generations, keepBuilds);
      forall i | 0 <= i < |h| ensures h[i] == generations[n - 1 - i] {
        if i > 0 {
          assert h[i] == HistoryAfter(generations[..n - 1], keepBuilds)[i - 1];
        }
      }
    }
  }

  // ---------------------------------------------------------------------------
  // deleteBuilds: the keep decision
  // ---------------------------------------------------------------------------

  /** The stored paths, generation after generation (`.flat()`), as literal keep entries. */
  function StoredNames(generations: seq<seq<Scalar>>): seq<KeepEntry>
  {
    if generations == [] then [] else NamesOf(generations[0]) + StoredNames(generations[1..])
  }

  /** Only string entries can equal a scanned path; numbers and booleans never do. */
  function NamesOf(generation: seq<Scalar>): seq<KeepEntry>
  {
    if generation == [] then []
    else (if generation[0].SStr? then [Name(generation[0].s)] else []) + NamesOf(generation[1..])
  }

  /** The keep-list of one pass: the configured entries, then every path of the stored history. */
  function KeepList(keepFiles: seq<KeepEntry>, stored: Option<HistoryFile>): seq<KeepEntry>
  {
    match stored
    case Some(Parsed(generations)) => keepFiles + StoredNames(generations)
    case _ => keepFiles
  }

  /** On the keep-list literally, or matched by one of its patterns. */
  predicate IsKept(file: string, keep: seq<KeepEntry>) {
    (exists i :: 0 <= i < |keep| && keep[i].Name? && keep[i].name == file)
    || (exists i :: 0 <= i < |keep| && keep[i].Pattern? && Test(keep[i].re, file))
  }

  lemma {:induction false} NamesOfKeeps(generation: seq<Scalar>, path: string)
    requires SStr(path) in generation
    ensures exists i :: 0 <= i < |NamesOf(generation)| && NamesOf(generation)[i] == Name(path)
  {
    if generation[0] == SStr(path) {
      assert NamesOf(generation)[0] == Name(path);
    } else {
      NamesOfKeeps(generation[1..], path);
      var i :| 0 <= i < |NamesOf(generation[1..])| && NamesOf(generation[1..])[i] == Name(path);
      var head := if generation[0].SStr? then [Name(generation[0].s)] else [];
      assert NamesOf(generation)[|head| + i] == Name(path);
    }
  }

  lemma {:induction false} StoredNamesKeep(generations: seq<seq<Scalar>>, g: nat, path: string)
    requires g < |generations| && SStr(path) in generations[g]
    ensures exists i :: 0 <= i < |StoredNames(generations)| && StoredNames(generations)[i] == Name(path)
  {
    if g == 0 {
      NamesOfKeeps(generations[0], path);
      var i :| 0 <= i < |NamesOf(generations[0])| && NamesOf(generations[0])[i] == Name(path);
      assert StoredNames(generations)[i] == Name(path);
    } else {
      StoredNamesKeep(generations[1..], g - 1, path);
      var i :| 0 <= i < |StoredNames(generations[1..])| && StoredNames(generations[1..])[i] == Name(path);
      assert StoredNames(generations)[|NamesOf(generations[0])| + i] == Name(path);
    }
  }

  /** Every path named in any stored generation is kept, and so is every configured entry. */
  lemma KeepListProtects(keepFiles: seq<KeepEntry>, generations: seq<seq<Scalar>>, g: nat, path: string)
    requires g < |generations| && SStr(path) in generations[g]
    ensures IsKept(path, KeepList(keepFiles, Some(Parsed(generations))))
  {
    StoredNamesKeep(generations, g, path);
    var i :| 0 <= i < |StoredNames(generations)| && StoredNames(generations)[i] == Name(path);
    assert KeepList(keepFiles, Some(Parsed(generations)))[|keepFiles| + i] == Name(path);
  }

  /**
   * The paths of the build that just wrote its history are on the keep-list of
   * the pass that follows it, for any `keepBuilds` of at least 0.
   */
  lemma NewestBuildIsKept(keepFiles: seq<KeepEntry>, assets: seq<Prop>, stored: Option<HistoryFile>, keepBuilds: int, path: string)
    requires keepBuilds >= 0
    requires HistoryToWrite(assets, stored, keepBuilds).Success?
    requires SStr(path) in Flatten(Obj(WithoutDigitKeys(assets))).value
    ensures IsKept(path, KeepList(keepFiles, Some(Parsed(HistoryToWrite(assets, stored, keepBuilds).value))))
  {
    var list := Flatten(Obj(WithoutDigitKeys(assets))).value;
    UniqueSpec(list);
    KeepListProtects(keepFiles, HistoryToWrite(assets, stored, keepBuilds).value, 0, path);
  }

  /** The result of one scan: the outcome and the directory afterwards. */
  datatype Scan = Scan(outcome: Result<(), PluginError>, entries: map<string, bool>)

  /**
   * The deletion loop over the listing, one path after the other: a kept path
   * or a directory is skipped, a path that no longer exists makes `lstat` throw
   * and ends the pass, any other path is unlinked.
   */
  function Reconcile(entries: map<string, bool>, keep: seq<KeepEntry>, scan: seq<string>): Scan
  {
    if scan == [] then Scan(Success(()), entries)
    else
      var file := scan[0];
      if IsKept(file, keep) then Reconcile(entries, keep, scan[1..])
      else if file !in entries then Scan(Failure(MissingEntry(file)), entries)
      else if entries[file] then Reconcile(entries, keep, scan[1..])
      else Reconcile(entries - {file}, keep, scan[1..])
  }

  /** Whether one pass removes `path`: it is listed, not kept and not a directory. */
  predicate Deletes(entries: map<string, bool>, keep: seq<KeepEntry>, scan: seq<string>, path: string) {
    path in scan && !IsKept(path, keep) && path in entries && !entries[path]
  }

  /**
   * When the listing names existing entries once each (as a directory listing
   * does), the pass succeeds and removes exactly the listed files that are
   * neither kept nor directories; every other entry is left as it was.
   */
  lemma {:induction false} ReconcileDeletesExactlyUnkept(entries: map<string, bool>, keep: seq<KeepEntry>, scan: seq<string>)
    requires forall i :: 0 <= i < |scan| ==> scan[i] in entries
    requires forall i, j :: 0 <= i < j < |scan| ==> scan[i] != scan[j]
    ensures Reconcile(entries, keep, scan).outcome == Success(())
    ensures forall p :: p in Reconcile(entries, keep, scan).entries <==> p in entries && !Deletes(entries, keep, scan, p)
    ensures forall p :: p in Reconcile(entries, keep, scan).entries ==> Reconcile(entries, keep, scan).entries[p] == entries[p]
  {
    if scan != [] {
      var file, rest := scan[0], scan[1..];
      var next := if IsKept(file, keep) || entries[file] then entries else entries - {file};
      assert forall i :: 0 <= i < |rest| ==> rest[i] in next by {
        forall i | 0 <= i < |rest| ensures rest[i] in next {
          assert rest[i] == scan[i + 1] != scan[0];
        }
      }
      ReconcileDeletesExactlyUnkept(next, keep, rest);
      forall p ensures p in Reconcile(entries, keep, scan).entries <==> p in entries && !Deletes(entries, keep, scan, p) {
        assert p in scan <==> p == file || p in rest;
      }
    }
  }

  /** A kept path and a directory survive any pass, whether or not it ends early. */
  lemma {:induction false} ReconcileKeepsProtected(entries: map<string, bool>, keep: seq<KeepEntry>, scan: seq<string>, path: string)
    requires path in entries
    requires IsKept(path, keep) || entries[path]
    ensures path in Reconcile(entries, keep, scan).entries
    ensures Reconcile(entries, keep, scan).entries[path] == entries[path]
  {
    if scan != [] {
      var file := scan[0];
      if IsKept(file, keep) || file !in entries || entries[file] {
        ReconcileKeepsProtected(entries, keep, scan[1..], path);
      } else {
        assert file != path;
        ReconcileKeepsProtected(entries - {file}, keep, scan[1..], path);
      }
    }
  }

  /**
   * A second pass with no build in between deletes nothing: once a full
   * listing has been reconciled, a new listing of what is left finds only kept
   * paths and directories.
   */
  lemma SecondPassDeletesNothing(entries: map<string, bool>, keep: seq<KeepEntry>, scan: seq<string>, rescan: seq<string>)
    requires forall i :: 0 <= i < |scan| ==> scan[i] in entries
    requires forall i, j :: 0 <= i < j < |scan| ==> scan[i] != scan[j]
    requires forall i :: 0 <= i < |rescan| ==> rescan[i] in scan && rescan[i] in Reconcile(entries, keep, scan).entries
    ensures Reconcile(Reconcile(entries, keep, scan).entries, keep, rescan) == Reconcile(entries, keep, scan)
  {
    ReconcileDeletesExactlyUnkept(entries, keep, scan);
    NothingLeftToDelete(Reconcile(entries, keep, scan).entries, keep, rescan);
  }

  lemma {:induction false} NothingLeftToDelete(entries: map<string, bool>, keep: seq<KeepEntry>, scan: seq<string>)
    requires forall i :: 0 <= i < |scan| ==> scan[i] in entries && (IsKept(scan[i], keep) || entries[scan[i]])
    ensures Reconcile(entries, keep, scan) == Scan(Success(()), entries)
  {
    if scan != [] {
      NothingLeftToDelete(entries, keep, scan[1..]);
    }
  }

  // ---------------------------------------------------------------------------
  // The plugin and the output directory
  // ---------------------------------------------------------------------------

  /** The output directory: relative path to "is a directory". */
  class OutputDirectory {
    var entries: map<string, bool>

    constructor (entries: map<string, bool>)
      ensures this.entries == entries
    {
      this.entries := entries;
    }
  }

  class CleaningAssetsKeepingBuildsPlugin {
    var fileName: string
    var keepBuilds: int
    var keepFiles: seq<KeepEntry>

    /**
     * Settings given by the caller override the defaults; the keep-list is the
     * default pattern, then the caller's entries, then the history file name.
     */
    /** The history file name is the last entry of the keep-list. */
    predicate Valid()
      reads this
    {
      |keepFiles| > 0 && keepFiles[|keepFiles| - 1] == Name(fileName)
    }

    constructor (settings: UserSettings)
      ensures Valid()
      ensures fileName == settings.fileName.GetOr(DefaultFileName)
      ensures keepBuilds == settings.keepBuilds.GetOr(DefaultKeepBuilds)
      ensures keepFiles == DefaultKeepFiles + settings.keepFiles.GetOr([]) + [Name(fileName)]
    {
      var merged := DefaultKeepFiles + settings.keepFiles.GetOr([]);
      fileName := settings.fileName.GetOr(DefaultFileName);
      keepBuilds := settings.keepBuilds.GetOr(DefaultKeepBuilds);
      keepFiles := merged;
      keepFiles := keepFiles + [Name(fileName)];
    }

    /** The history file itself is always on the keep-list. */
    lemma HistoryFileIsKept(stored: Option<HistoryFile>)
      requires Valid()
      ensures IsKept(fileName, KeepList(keepFiles, stored))
    {
      assert KeepList(keepFiles, stored)[|keepFiles| - 1] == Name(fileName);
    }

    /** Drops the single-digit top-level keys, which hot reloading leaves behind. */
    method DropDigitKeys(assets: seq<Prop>) returns (kept: seq<Prop>)
      ensures kept == WithoutDigitKeys(assets)
    {
      kept := [];
      var i := 0;
      while i < |assets|
        invariant 0 <= i <= |assets|
        invariant kept == WithoutDigitKeys(assets[..i])
      {
        assert assets[..i + 1][..i] == assets[..i];
        if !IsSingleDigit(assets[i].key) {
          kept := kept + [assets[i]];
        }
        i := i + 1;
      }
      assert assets[..i] == assets;
    }

    /**
     * `processOutput`: flattens this build's asset record, de-duplicates it and
     * puts it in front of the stored history, keeping `keepBuilds + 1` generations.
     */
    method ProcessOutput(assets: seq<Prop>, stored: Option<HistoryFile>) returns (r: Result<seq<seq<Scalar>>, PluginError>)
      ensures r == HistoryToWrite(assets, stored, keepBuilds)
    {
      var kept := DropDigitKeys(assets);
      var flattened := Flatten(Obj(kept));
      if flattened.Failure? {
        return Failure(FlattenFailed(flattened.error));
      }
      var list := Unique(flattened.value);
      var previous: seq<seq<Scalar>> := [];
      match stored {
        case None =>
        case Some(Unparsable) => return Failure(HistoryNotJson);
        case Some(Parsed(generations)) => previous := generations;
      }
      previous := [list] + previous;
      r := Success(SliceTo(previous, keepBuilds + 1));
      assert flattened == Flatten(Obj(WithoutDigitKeys(assets)));
    }

    /**
     * `deleteBuilds`: reads the history, then walks the directory listing and
     * unlinks every file that is not kept and not a directory.
     */
    method DeleteBuilds(dir: OutputDirectory, stored: Option<HistoryFile>, scan: seq<string>) returns (r: Result<(), PluginError>)
      modifies dir
      ensures stored == Some(Unparsable) ==> r == Failure(HistoryNotJson) && dir.entries == old(dir.entries)
      ensures stored != Some(Unparsable) ==>
        Scan(r, dir.entries) == Reconcile(old(dir.entries), KeepList(keepFiles, stored), scan)
    {
      if stored == Some(Unparsable) {
        return Failure(HistoryNotJson);
      }
      var keep := KeepList(keepFiles, stored);
      var i := 0;
      while i < |scan|
        invariant 0 <= i <= |scan|
        invariant Reconcile(old(dir.entries), keep, scan) == Reconcile(dir.entries, keep, scan[i..])
      {
        var file := scan[i];
        assert scan[i..][1..] == scan[i + 1..];
        if !IsKept(file, keep) {
          if file !in dir.entries {
            return Failure(MissingEntry(file));
          }
          if !dir.entries[file] {
            dir.entries := dir.entries - {file};
          }
        }
        i := i + 1;
      }
      r := Success(());
    }
  }
}
