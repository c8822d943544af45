/**
 * Worked examples for the keep-builds plugin: one history update with a
 * duplicated path, and one reconciliation pass over a small output directory.
 */
module CleaningPluginTest {
  import opened Wrappers
  import opened Utils
  import opened CleaningPlugin

  const XCss: string := "x.css"
  const XJs: string := "x.js"
  const YJs: string := "y.js"

  /** Two entries; "x.js" appears under both. */
  const TwoEntries: seq<Prop> := [
    Prop("a", Obj([Prop("css", Str(XCss)), Prop("js", Str(XJs))])),
    Prop("b", Obj([Prop("js", Arr([Str(YJs), Str(XJs)]))]))
  ]

  lemma FlattenOne(k: string, v: Value)
    ensures Flatten(Obj([Prop(k, v)])) == Flatten(v)
  {
    var ps := [Prop(k, v)];
    assert ps[1..] == [];
    assert FlattenProps(ps[1..]) == Success([]);
    assert FlattenProps(ps) == Join(Flatten(v), Success([]));
    JoinEmpty(Flatten(v));
  }

  lemma FlattenPair(k1: string, v1: Value, k2: string, v2: Value)
    ensures Flatten(Obj([Prop(k1, v1), Prop(k2, v2)])) == Join(Flatten(v1), Flatten(v2))
  {
    assert [Prop(k1, v1), Prop(k2, v2)][1..] == [Prop(k2, v2)];
    FlattenOne(k2, v2);
  }

  lemma UniqueDropsLaterRepeat<T>(a: T, b: T, c: T)
    requires a != b && b != c && a != c
    ensures Unique([a, b, c, b]) == [a, b, c]
  {
    var s := [a, b, c, b];
    assert s[1..] == [b, c, b];
    assert [b, c, b][1..] == [c, b];
    assert IndexOf(s, a) == 0 && IndexOf(s, b) == 1 && IndexOf(s, c) == 2;
    assert FirstOccurrencesIn(s, 1) == [a];
    assert FirstOccurrencesIn(s, 2) == [a, b];
    assert FirstOccurrencesIn(s, 3) == [a, b, c];
  }

  /**
   * With no history file and `keepBuilds` 0 the written history is one
   * generation: the leaves in entry and key order, the repeated "x.js" kept at
   * its first position only.
   */
  lemma DuplicatedPathHistory()
    ensures HistoryToWrite(TwoEntries, None, 0) == Success([[SStr(XCss), SStr(XJs), SStr(YJs)]])
  {
    var first := Obj([Prop("css", Str(XCss)), Prop("js", Str(XJs))]);
    var second := Obj([Prop("js", Arr([Str(YJs), Str(XJs)]))]);
    assert TwoEntries == [Prop("a", first), Prop("b", second)];
    assert WithoutDigitKeys(TwoEntries) == TwoEntries by {
      assert !IsSingleDigit("a") && !IsSingleDigit("b");
      assert TwoEntries[..1] == [Prop("a", first)];
      assert TwoEntries[..1][..0] == [];
      assert WithoutDigitKeys(TwoEntries[..1]) == [Prop("a", first)];
    }
    FlattenPair("css", Str(XCss), "js", Str(XJs));
    assert Flatten(Str(XCss)) == Success([SStr(XCss)]) && Flatten(Str(XJs)) == Success([SStr(XJs)]);
    assert [SStr(XCss)] + [SStr(XJs)] == [SStr(XCss), SStr(XJs)];
    assert Flatten(first) == Success([SStr(XCss), SStr(XJs)]);
    FlattenLiftedList([SStr(YJs), SStr(XJs)]);
    assert LiftAll([SStr(YJs), SStr(XJs)]) == [Str(YJs), Str(XJs)];
    assert Flatten(Arr([Str(YJs), Str(XJs)])) == Success([SStr(YJs), SStr(XJs)]);
    FlattenOne("js", Arr([Str(YJs), Str(XJs)]));
    assert Flatten(second) == Success([SStr(YJs), SStr(XJs)]);
    FlattenPair("a", first, "b", second);
    assert [SStr(XCss), SStr(XJs)] + [SStr(YJs), SStr(XJs)] == [SStr(XCss), SStr(XJs), SStr(YJs), SStr(XJs)];
    assert Flatten(Obj(TwoEntries)) == Success([SStr(XCss), SStr(XJs), SStr(YJs), SStr(XJs)]);
    UniqueDropsLaterRepeat(SStr(XCss), SStr(XJs), SStr(YJs));
  }

  const AJs: string := "a.js"
  const BJs: string := "b.js"
  const CTxt: string := "c.txt"
  const Sub: string := "sub"

  /** A caller's pattern keeping text files. */
  predicate IsTextFile(s: string) {
    EndsWith(s, ".txt")
  }

  /** The keep-list with a text-file pattern, after a build whose only output was "a.js". */
  const ScenarioKeep: seq<KeepEntry> :=
    KeepList([Pattern(AssetsManifest), Pattern(Custom(IsTextFile)), Name(DefaultFileName)], Some(Parsed([[SStr(AJs)]])))

  /** The directory before the pass: three files, a sub-directory and the history file. */
  const ScenarioEntries: map<string, bool> :=
    map[AJs := false, BJs := false, CTxt := false, Sub := true, DefaultFileName := false]

  /** The listing: the history file is a dotfile, which the glob does not list. */
  const ScenarioScan: seq<string> := [AJs, BJs, CTxt, Sub]

  lemma ScenarioKeepList()
    ensures ScenarioKeep == [Pattern(AssetsManifest), Pattern(Custom(IsTextFile)), Name(DefaultFileName), Name(AJs)]
  {
    assert NamesOf([SStr(AJs)]) == [Name(AJs)] by { assert [SStr(AJs)][1..] == []; }
    assert StoredNames([[SStr(AJs)]]) == [Name(AJs)] by { assert [[SStr(AJs)]][1..] == []; }
  }

  lemma NotAssetsManifest(s: string)
    requires |s| < 8
    ensures !MatchesAssetsManifest(s)
  {
  }

  /**
   * Only "b.js" goes: "a.js" is named by the stored generation, "c.txt"
   * matches the caller's pattern, "sub" is a directory and the history file is
   * not listed.
   */
  lemma ScenarioDeletesOnlyUnkept()
    ensures Reconcile(ScenarioEntries, ScenarioKeep, ScenarioScan) ==
      Scan(Success(()), ScenarioEntries - {BJs})
  {
    ScenarioKeepList();
    var keep := ScenarioKeep;
    var after := ScenarioEntries - {BJs};
    assert IsKept(AJs, keep) by { assert keep[3] == Name(AJs); }
    assert IsKept(CTxt, keep) by {
      assert keep[1].Pattern? && Test(keep[1].re, CTxt);
    }
    assert !IsKept(BJs, keep) by {
      NotAssetsManifest(BJs);
      assert !IsTextFile(BJs);
    }
    assert ScenarioScan[1..] == [BJs, CTxt, Sub];
    assert [BJs, CTxt, Sub][1..] == [CTxt, Sub];
    assert [CTxt, Sub][1..] == [Sub];
    assert [Sub][1..] == [];
    assert Sub in after && after[Sub];
    assert Reconcile(after, keep, [Sub]) == Scan(Success(()), after);
    assert Reconcile(after, keep, [CTxt, Sub]) == Scan(Success(()), after);
    assert BJs in ScenarioEntries && !ScenarioEntries[BJs];
    assert Reconcile(ScenarioEntries, keep, [BJs, CTxt, Sub]) == Scan(Success(()), after);
  }
}
