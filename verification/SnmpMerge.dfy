/** Merging the per-device SNMP configurations into the one file the exporter reads. */
module SnmpMerge {
  import opened Options
  import Strings

  type FileName = string

  /** Values of a configuration: what a user wrote, or what the generator makes of a list of walks. */
  datatype Entry = Auth(text: string) | Walks(walks: seq<string>) | Metrics(walks: seq<string>)

  type Section = map<string, Entry>

  /** A file's content as YAML: white space only, a configuration, or not parseable. */
  datatype Content =
    | Blank
    | Config(auths: Section, modules: Section)
    | Malformed(text: string)

  type Directory = map<FileName, Content>

  /* ---- File names ---- */

  /** filepath.Base of a path that does not end in a slash. */
  function Base(path: string): string {
    if path == "" || path[|path| - 1] == '/' then ""
    else Base(path[..|path| - 1]) + [path[|path| - 1]]
  }

  /** filepath.Ext: from the last dot of the last element. */
  function Ext(path: string): string {
    if path == "" || path[|path| - 1] == '/' then ""
    else if path[|path| - 1] == '.' then "."
    else
      var front := Ext(path[..|path| - 1]);
      if front == "" then "" else front + [path[|path| - 1]]
  }

  predicate HasPrefix(s: string, prefix: string) {
    prefix <= s
  }

  /** snmp-<uid>.yaml counts, the merged snmp.yml does not. */
  predicate IsPerDevice(path: FileName) {
    HasPrefix(Base(path), "snmp-") && Ext(path) == ".yaml"
  }

  predicate EndsWith(s: string, suffix: string) {
    |s| >= |suffix| && s[|s| - |suffix|..] == suffix
  }

  lemma LastOfSuffix(s: string, suffix: string)
    requires s != "" && suffix != ""
    ensures EndsWith(s, suffix) <==>
      s[|s| - 1] == suffix[|suffix| - 1] && EndsWith(s[..|s| - 1], suffix[..|suffix| - 1])
  {
    if |s| >= |suffix| {
      var a, b := s[|s| - |suffix|..], s[..|s| - 1][|s| - |suffix|..];
      assert a == b + [s[|s| - 1]];
      assert suffix == suffix[..|suffix| - 1] + [suffix[|suffix| - 1]];
    }
  }

  lemma {:induction false} ExtSuffix(path: string, ext: string)
    requires '/' !in ext && '.' !in ext
    ensures Ext(path) == "." + ext <==> EndsWith(path, "." + ext)
  {
    if path != "" {
      var last := path[|path| - 1];
      LastOfSuffix(path, "." + ext);
      if ext == "" {
        assert "." + ext == ".";
      } else {
        var front := ext[..|ext| - 1];
        assert ("." + ext)[..|ext|] == "." + front && "." + ext == "." + front + [ext[|ext| - 1]];
        ExtSuffix(path[..|path| - 1], front);
      }
    }
  }

  lemma {:induction false} BaseSplits(path: string) returns (dir: string)
    ensures path == dir + Base(path) && (dir == "" || dir[|dir| - 1] == '/') && '/' !in Base(path)
  {
    if path == "" || path[|path| - 1] == '/' {
      dir := path;
    } else {
      dir := BaseSplits(path[..|path| - 1]);
      assert path == path[..|path| - 1] + [path[|path| - 1]];
    }
  }

  lemma {:induction false} BaseOf(dir: string, file: string)
    requires (dir == "" || dir[|dir| - 1] == '/') && '/' !in file
    ensures Base(dir + file) == file
  {
    if file == "" {
      assert dir + file == dir;
    } else {
      var front := file[..|file| - 1];
      BaseOf(dir, front);
      assert (dir + file)[..|dir + file| - 1] == dir + front;
      assert file == front + [file[|file| - 1]];
    }
  }

  /** The path names a file called snmp-, id, .yaml in some directory. */
  ghost predicate NamesDeviceFile(path: string, dir: string, id: string) {
    && (dir == "" || dir[|dir| - 1] == '/') && '/' !in id
    && path == dir + ("snmp-" + id + ".yaml")
  }

  lemma YamlHasNoDash(path: string)
    requires EndsWith(path, ".yaml")
    ensures forall i :: |path| - 5 <= i < |path| ==> path[i] != '-'
  {
    var tail := path[|path| - 5..];
    forall i | |path| - 5 <= i < |path|
      ensures path[i] == tail[i - (|path| - 5)]
    {
    }
  }

  /** A path that ends in .yaml and whose last element starts with snmp- has room for both. */
  lemma YamlInBase(dir: string, base: string)
    requires HasPrefix(base, "snmp-") && EndsWith(dir + base, ".yaml")
    ensures |base| >= 10 && EndsWith(base, ".yaml")
  {
    var path := dir + base;
    YamlHasNoDash(path);
    assert base[4] == "snmp-"[4] && path[|dir| + 4] == base[4];
    assert path[|path| - 5..] == base[|base| - 5..];
  }

  lemma DeviceFileCounts(path: string, dir: string, id: string)
    requires NamesDeviceFile(path, dir, id)
    ensures IsPerDevice(path)
  {
    var base := "snmp-" + id + ".yaml";
    BaseOf(dir, base);
    hide Base, Ext;
    assert base[..5] == "snmp-" && path[|path| - 5..] == ".yaml" && "." + "yaml" == ".yaml";
    ExtSuffix(path, "yaml");
  }

  lemma MiddleOf(base: string) returns (id: string)
    requires HasPrefix(base, "snmp-") && |base| >= 10 && EndsWith(base, ".yaml") && '/' !in base
    ensures base == "snmp-" + id + ".yaml" && '/' !in id
  {
    id := base[5..|base| - 5];
    assert base == base[..5] + id + base[|base| - 5..];
  }

  lemma ExtIsYaml(path: string)
    ensures Ext(path) == ".yaml" <==> EndsWith(path, ".yaml")
  {
    assert "." + "yaml" == ".yaml";
    ExtSuffix(path, "yaml");
  }

  lemma CountedIsDeviceFile(path: string) returns (dir: string, id: string)
    requires IsPerDevice(path)
    ensures NamesDeviceFile(path, dir, id)
  {
    hide Base, Ext, EndsWith, HasPrefix;
    ExtIsYaml(path);
    dir := BaseSplits(path);
    YamlInBase(dir, Base(path));
    id := MiddleOf(Base(path));
  }

  /** Exactly the files called snmp-, anything, .yaml count, in whatever directory. */
  lemma PerDeviceExact(path: string)
    ensures IsPerDevice(path) <==> exists dir, id :: NamesDeviceFile(path, dir, id)
  {
    hide IsPerDevice, NamesDeviceFile;
    if IsPerDevice(path) {
      var dir, id := CountedIsDeviceFile(path);
    }
    if dir, id :| NamesDeviceFile(path, dir, id) {
      DeviceFileCounts(path, dir, id);
    }
  }

  /* ---- What the merged configuration is ---- */

  ghost predicate IsGreatest(f: FileName, names: set<FileName>) {
    f in names && forall g :: g in names ==> g == f || Strings.Less(g, f)
  }

  lemma {:induction false} GreatestExists(names: set<FileName>)
    requires names != {}
    ensures exists f :: IsGreatest(f, names)
    decreases |names|
  {
    var x :| x in names;
    if names == {x} {
      assert IsGreatest(x, names);
    } else {
      var rest := names - {x};
      GreatestExists(rest);
      var f :| IsGreatest(f, rest);
      Strings.LessTotal(x, f);
      if Strings.Less(f, x) {
        forall g | g in names && g != x
          ensures Strings.Less(g, x)
        {
          if g != f {
            Strings.LessTransitive(g, f, x);
          }
        }
        assert IsGreatest(x, names);
      } else {
        assert IsGreatest(f, names);
      }
    }
  }

  lemma GreatestUnique(f: FileName, g: FileName, names: set<FileName>)
    requires IsGreatest(f, names) && IsGreatest(g, names)
    ensures f == g
  {
    if f != g {
      Strings.LessAsymmetric(f, g);
    }
  }

  ghost function Holding(sections: map<FileName, Section>, k: string): set<FileName> {
    set f | f in sections && k in sections[f]
  }

  ghost function Keys(sections: map<FileName, Section>): set<string> {
    set f, k | f in sections && k in sections[f] :: k
  }

  ghost function Latest(sections: map<FileName, Section>, k: string): (f: FileName)
    requires k in Keys(sections)
    ensures IsGreatest(f, Holding(sections, k))
  {
    var h :| h in sections && k in sections[h];
    assert h in Holding(sections, k);
    GreatestExists(Holding(sections, k));
    var f :| IsGreatest(f, Holding(sections, k));
    f
  }

  /** Every key with its value in the lexicographically greatest file that has it. */
  ghost function LatestWins(sections: map<FileName, Section>): Section {
    map k | k in Keys(sections) :: sections[Latest(sections, k)][k]
  }

  predicate Contributes(dir: Directory, f: FileName) {
    f in dir && IsPerDevice(f) && !dir[f].Blank?
  }

  function Contributing(dir: Directory): Directory {
    map f | f in dir && Contributes(dir, f) :: dir[f]
  }

  predicate Parses(dir: Directory) {
    forall f :: f in dir ==> dir[f].Config?
  }

  function Auths(dir: Directory): map<FileName, Section>
    requires Parses(dir)
  {
    map f | f in dir :: dir[f].auths
  }

  function Modules(dir: Directory): map<FileName, Section>
    requires Parses(dir)
  {
    map f | f in dir :: dir[f].modules
  }

  /** The merged configuration of a directory; None when a contributing file does not parse. */
  ghost function Merged(dir: Directory): Option<Content> {
    var files := Contributing(dir);
    if Parses(files) then Some(Config(LatestWins(Auths(files)), LatestWins(Modules(files)))) else None
  }

  /* ---- How the operator merges ---- */

  method ReadPerDeviceSnmpConfigs(files: Directory, entries: seq<FileName>) returns (out: Directory)
    requires forall f :: f in entries <==> f in files
    ensures out == Contributing(files)
  {
    out := map[];
    for i := 0 to |entries|
      invariant forall f :: f in out <==> f in entries[..i] && Contributes(files, f)
      invariant forall f :: f in out ==> out[f] == files[f]
    {
      var name := entries[i];
      assert forall f :: f in entries[..i + 1] <==> f in entries[..i] || f == name;
      if !HasPrefix(Base(name), "snmp-") || Ext(name) != ".yaml" {
        continue;
      }
      var content := files[name];
      if content.Blank? {
        continue;
      }
      out := out[name := content];
    }
    assert entries[..|entries|] == entries;
  }

  ghost predicate Ascending(names: seq<FileName>) {
    forall i, j :: 0 <= i < j < |names| ==> Strings.Less(names[i], names[j])
  }

  /** names lists files in strictly ascending order, and configs are their contents. */
  ghost predicate InNameOrder(files: Directory, names: seq<FileName>, configs: seq<Content>) {
    && Ascending(names) && |names| == |configs|
    && (forall f :: f in names <==> f in files)
    && forall i :: 0 <= i < |names| ==> names[i] in files && configs[i] == files[names[i]]
  }

  function Identity(s: string): string { s }

  method SortedConfigs(filesByName: Directory) returns (out: seq<Content>)
    ensures exists names :: InNameOrder(filesByName, names, out)
  {
    hide Strings.SortBy, Strings.Less, IsPerDevice;
    var listed: seq<FileName> := [];
    var left := filesByName.Keys;
    while left != {}
      invariant left <= filesByName.Keys
      invariant forall f :: f in listed <==> f in filesByName && f !in left
      invariant forall i, j :: 0 <= i < j < |listed| ==> listed[i] != listed[j]
      decreases |left|
    {
      var n :| n in left;
      listed := listed + [n];
      left := left - {n};
    }
    var sorted := Strings.SortBy(listed, Identity);
    SortedIsAscending(listed, sorted);
    out := [];
    for i := 0 to |sorted|
      invariant |out| == i && forall j :: 0 <= j < i ==> out[j] == filesByName[sorted[j]]
    {
      out := out + [filesByName[sorted[i]]];
    }
    assert InNameOrder(filesByName, sorted, out);
  }

  lemma {:induction false} DistinctMultiset(s: seq<string>, x: string)
    requires forall i, j :: 0 <= i < j < |s| ==> s[i] != s[j]
    ensures multiset(s)[x] <= 1
  {
    if s != [] {
      assert s == [s[0]] + s[1..];
      DistinctMultiset(s[1..], x);
      assert x == s[0] ==> x !in s[1..];
    }
  }

  lemma RepeatedMultiset(s: seq<string>, i: nat, j: nat)
    requires i < j < |s| && s[i] == s[j]
    ensures multiset(s)[s[i]] >= 2
  {
    assert s == s[..j] + s[j..];
    assert s[..j][i] in multiset(s[..j]) && s[j..][0] in multiset(s[j..]);
  }

  lemma SortedIsAscending(listed: seq<string>, sorted: seq<string>)
    requires forall i, j :: 0 <= i < j < |listed| ==> listed[i] != listed[j]
    requires sorted == Strings.SortBy(listed, Identity)
    ensures Ascending(sorted) && forall f :: f in sorted <==> f in listed
  {
    Strings.SortSorts(listed, Identity);
    forall f
      ensures f in sorted <==> f in listed
    {
      assert f in multiset(sorted) <==> f in multiset(listed);
    }
    forall i, j | 0 <= i < j < |sorted|
      ensures Strings.Less(sorted[i], sorted[j])
    {
      Strings.LessTotal(sorted[i], sorted[j]);
      assert !Strings.Less(Identity(sorted[j]), Identity(sorted[i]));
      if sorted[i] == sorted[j] {
        RepeatedMultiset(sorted, i, j);
        DistinctMultiset(listed, sorted[i]);
      }
    }
  }

  /** Copying sections over one another: a later one overwrites. */
  function Overwritten(sections: seq<Section>): Section {
    if sections == [] then map[]
    else Overwritten(sections[..|sections| - 1]) + sections[|sections| - 1]
  }

  function AuthsOf(c: Content): Section { if c.Config? then c.auths else map[] }

  function ModulesOf(c: Content): Section { if c.Config? then c.modules else map[] }

  function MapAuths(cs: seq<Content>): (r: seq<Section>)
    ensures |r| == |cs|
  {
    seq(|cs|, i requires 0 <= i < |cs| => AuthsOf(cs[i]))
  }

  function MapModules(cs: seq<Content>): (r: seq<Section>)
    ensures |r| == |cs|
  {
    seq(|cs|, i requires 0 <= i < |cs| => ModulesOf(cs[i]))
  }

  lemma NothingOverwritten()
    ensures Overwritten([]) == map[]
  {
  }

  lemma OverwrittenNext(sections: seq<Section>, last: Section)
    ensures Overwritten(sections + [last]) == Overwritten(sections) + last
  {
    assert (sections + [last])[..|sections|] == sections;
  }

  method Merge(configs: seq<Content>) returns (merged: Option<Content>)
    ensures merged == if exists i :: 0 <= i < |configs| && configs[i].Malformed? then None
                      else Some(Config(Overwritten(MapAuths(configs)), Overwritten(MapModules(configs))))
  {
    hide Overwritten;
    NothingOverwritten();
    var auths: Section, modules: Section := map[], map[];
    for i := 0 to |configs|
      invariant forall j :: 0 <= j < i ==> !configs[j].Malformed?
      invariant auths == Overwritten(MapAuths(configs[..i]))
      invariant modules == Overwritten(MapModules(configs[..i]))
    {
      assert configs[..i + 1][..i] == configs[..i];
      assert MapAuths(configs[..i + 1]) == MapAuths(configs[..i]) + [AuthsOf(configs[i])];
      assert MapModules(configs[..i + 1]) == MapModules(configs[..i]) + [ModulesOf(configs[i])];
      OverwrittenNext(MapAuths(configs[..i]), AuthsOf(configs[i]));
      OverwrittenNext(MapModules(configs[..i]), ModulesOf(configs[i]));
      if configs[i].Blank? {
        assert auths + map[] == auths && modules + map[] == modules;
        continue;
      }
      if configs[i].Malformed? {
        return None;
      }
      auths := auths + configs[i].auths;
      modules := modules + configs[i].modules;
    }
    assert configs[..|configs|] == configs;
    return Some(Config(auths, modules));
  }

  /** Whatever order the directory is listed in, the result is the declared merge. */
  method GetMergedSortedSNMPConfig(files: Directory, entries: seq<FileName>) returns (merged: Option<Content>)
    requires forall f :: f in entries <==> f in files
    ensures merged == Merged(files)
  {
    var filesByName := ReadPerDeviceSnmpConfigs(files, entries);
    var configs := SortedConfigs(filesByName);
    ghost var names :| InNameOrder(filesByName, names, configs);
    merged := Merge(configs);
    if Parses(filesByName) {
      OverwritingIsLatest(Auths(filesByName), names, MapAuths(configs));
      OverwritingIsLatest(Modules(filesByName), names, MapModules(configs));
    } else {
      UnparsedIsListed(filesByName, names, configs);
    }
  }

  lemma UnparsedIsListed(files: Directory, names: seq<FileName>, configs: seq<Content>)
    requires InNameOrder(files, names, configs) && !Parses(files)
    requires forall f :: f in files ==> !files[f].Blank?
    ensures exists i :: 0 <= i < |configs| && configs[i].Malformed?
  {
    var f :| f in files && !files[f].Config?;
    var i :| 0 <= i < |names| && names[i] == f;
    assert configs[i].Malformed?;
  }

  /* ---- Why sorting and overwriting lets the latest file win ---- */

  ghost predicate IsLastHolder(sections: seq<Section>, k: string, i: int) {
    0 <= i < |sections| && k in sections[i] && forall j :: i < j < |sections| ==> k !in sections[j]
  }

  lemma {:induction false} OverwrittenKeys(sections: seq<Section>, k: string)
    ensures k in Overwritten(sections) <==> exists i :: 0 <= i < |sections| && k in sections[i]
  {
    if sections != [] {
      var last := |sections| - 1;
      OverwrittenKeys(sections[..last], k);
      if i :| 0 <= i < last && k in sections[i] {
        assert sections[..last][i] == sections[i];
      }
    }
  }

  lemma {:induction false} OverwrittenValue(sections: seq<Section>, k: string, i: int)
    requires IsLastHolder(sections, k, i)
    ensures k in Overwritten(sections) && Overwritten(sections)[k] == sections[i][k]
  {
    var last := |sections| - 1;
    if i < last {
      assert k !in sections[last];
      OverwrittenValue(sections[..last], k, i);
    }
  }

  lemma {:induction false} LastHolder(sections: seq<Section>, k: string) returns (i: nat)
    requires exists i :: 0 <= i < |sections| && k in sections[i]
    ensures IsLastHolder(sections, k, i)
  {
    var last := |sections| - 1;
    if k in sections[last] {
      i := last;
    } else {
      i := LastHolder(sections[..last], k);
    }
  }

  lemma OverwritingIsLatest(sections: map<FileName, Section>, names: seq<FileName>, listed: seq<Section>)
    requires Ascending(names) && |listed| == |names| && (forall f :: f in names <==> f in sections)
    requires forall i :: 0 <= i < |names| ==> names[i] in sections && listed[i] == sections[names[i]]
    ensures Overwritten(listed) == LatestWins(sections)
  {
    forall k
      ensures k in Overwritten(listed) <==> k in Keys(sections)
      ensures k in Keys(sections) ==> Overwritten(listed)[k] == LatestWins(sections)[k]
    {
      OverwrittenKeys(listed, k);
      if k in Keys(sections) {
        var f :| f in sections && k in sections[f];
        var h :| 0 <= h < |names| && names[h] == f;
        assert k in listed[h];
        var i := LastHolder(listed, k);
        OverwrittenValue(listed, k, i);
        LastIsGreatest(sections, names, listed, k, i);
        GreatestUnique(names[i], Latest(sections, k), Holding(sections, k));
      }
    }
  }

  lemma LastIsGreatest(sections: map<FileName, Section>, names: seq<FileName>, listed: seq<Section>, k: string, i: nat)
    requires Ascending(names) && |listed| == |names| && (forall f :: f in names <==> f in sections)
    requires forall i :: 0 <= i < |names| ==> names[i] in sections && listed[i] == sections[names[i]]
    requires IsLastHolder(listed, k, i)
    ensures IsGreatest(names[i], Holding(sections, k))
  {
    forall g | g in Holding(sections, k)
      ensures g == names[i] || Strings.Less(g, names[i])
    {
      var j :| 0 <= j < |names| && names[j] == g;
      assert k in listed[j];
    }
  }

  /** A file that is no per-device file, like the merged file itself, never influences the merge. */
  lemma MergeIgnoresOtherFiles(dir: Directory, f: FileName, content: Content)
    requires !IsPerDevice(f)
    ensures Merged(dir[f := content]) == Merged(dir)
  {
    assert Contributing(dir[f := content]) == Contributing(dir);
  }

  /* ---- The merge in terms of file names ---- */

  ghost predicate IsDeviceFile(path: string) {
    exists dir, id :: NamesDeviceFile(path, dir, id)
  }

  ghost predicate Before(f: FileName, g: FileName) {
    exists i: nat :: Strings.LessAt(f, g, i)
  }

  datatype Part = AuthPart | ModulePart

  function SectionOf(c: Content, part: Part): Section {
    match part
    case AuthPart => AuthsOf(c)
    case ModulePart => ModulesOf(c)
  }

  /** f is a device file with key k, and comes after every other one with that key. */
  ghost predicate LastWith(dir: Directory, f: FileName, part: Part, k: string) {
    && f in dir && IsDeviceFile(f) && k in SectionOf(dir[f], part)
    && forall g :: g in dir && IsDeviceFile(g) && k in SectionOf(dir[g], part) ==> g == f || Before(g, f)
  }

  lemma ContributesExact(dir: Directory, f: FileName)
    ensures Contributes(dir, f) <==> f in dir && IsDeviceFile(f) && !dir[f].Blank?
  {
    PerDeviceExact(f);
    hide IsPerDevice, NamesDeviceFile;
  }

  /** The merge fails exactly if some device file is not blank and does not parse. */
  lemma MergeFailsExactly(dir: Directory)
    ensures Merged(dir).None? <==> exists f :: f in dir && IsDeviceFile(f) && dir[f].Malformed?
  {
    hide LatestWins, IsDeviceFile, Contributes;
    forall f {
      ContributesExact(dir, f);
    }
    if f :| f in dir && IsDeviceFile(f) && dir[f].Malformed? {
      assert f in Contributing(dir);
    }
  }

  lemma HoldingExact(dir: Directory, part: Part, k: string)
    requires Parses(Contributing(dir))
    ensures forall f :: f in Holding(Sections(dir, part), k) <==>
      f in dir && IsDeviceFile(f) && k in SectionOf(dir[f], part)
  {
    hide IsDeviceFile, Contributes;
    forall f {
      ContributesExact(dir, f);
    }
  }

  function Sections(dir: Directory, part: Part): map<FileName, Section>
    requires Parses(Contributing(dir))
  {
    if part.AuthPart? then Auths(Contributing(dir)) else Modules(Contributing(dir))
  }

  lemma LastIsLatest(dir: Directory, f: FileName, part: Part, k: string)
    requires Parses(Contributing(dir))
    ensures LastWith(dir, f, part, k) <==> IsGreatest(f, Holding(Sections(dir, part), k))
  {
    HoldingExact(dir, part, k);
    hide IsDeviceFile, Holding, Sections;
    forall g {
      Strings.LessExact(g, f);
    }
  }

  /** Of every key, in the auths and in the modules, the merge has the value of the last device file that
      carries it, last in the order of the names' characters, and it has no other keys. */
  lemma MergeMeaning(dir: Directory, part: Part, k: string)
    requires Merged(dir).Some?
    ensures k in SectionOf(Merged(dir).value, part) <==> exists f :: LastWith(dir, f, part, k)
    ensures forall f :: LastWith(dir, f, part, k) ==>
              SectionOf(Merged(dir).value, part)[k] == SectionOf(dir[f], part)[k]
  {
    hide Holding, IsGreatest, Contributing, Contributes, IsDeviceFile, Before;
    var sections := Sections(dir, part);
    MergedPart(dir, part);
    forall f {
      LastIsLatest(dir, f, part, k);
    }
    if k in Keys(sections) {
      assert LastWith(dir, Latest(sections, k), part, k);
    }
    forall f | LastWith(dir, f, part, k)
      ensures k in Keys(sections) && LatestWins(sections)[k] == SectionOf(dir[f], part)[k]
    {
      LastValue(dir, part, f, k);
    }
  }

  lemma MergedPart(dir: Directory, part: Part)
    requires Merged(dir).Some?
    ensures Parses(Contributing(dir)) && SectionOf(Merged(dir).value, part) == LatestWins(Sections(dir, part))
  {
    hide LatestWins, Contributing;
  }

  lemma LastValue(dir: Directory, part: Part, f: FileName, k: string)
    requires Parses(Contributing(dir)) && LastWith(dir, f, part, k)
    ensures k in Keys(Sections(dir, part)) && LatestWins(Sections(dir, part))[k] == SectionOf(dir[f], part)[k]
  {
    hide LastWith, Contributes;
    LastIsLatest(dir, f, part, k);
    var sections := Sections(dir, part);
    assert f in Holding(sections, k);
    GreatestUnique(f, Latest(sections, k), Holding(sections, k));
  }
}
