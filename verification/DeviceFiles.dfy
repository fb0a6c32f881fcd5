/** The files the MeasurementDevice controller keeps on the volume, and what their merge contains. */
module DeviceFiles {
  import opened Options
  import opened SnmpMerge

  /** Kubernetes object identifiers: never containing a slash. */
  type Uid = s: string | '/' !in s

  datatype Path = GeneratorFile(uid: Uid) | SnmpFile(uid: Uid) | SnmpMergedFile

  type Files = map<Path, Content>

  function Text(p: Path): string {
    match p
    case GeneratorFile(uid) => "snmp/generators/generator-" + uid + ".yaml"
    case SnmpFile(uid) => "snmp/yml/snmp-" + uid + ".yaml"
    case SnmpMergedFile => "snmp/yml/snmp.yml"
  }

  /* ---- The names tell per-device files from the merged one ---- */

  lemma {:induction false} BaseAfterSlash(dir: string, file: string)
    requires '/' !in file
    ensures Base(dir + "/" + file) == file
  {
    if file == "" {
      assert dir + "/" + file == dir + "/";
    } else {
      var front := file[..|file| - 1];
      BaseAfterSlash(dir, front);
      assert (dir + "/" + file)[..|dir + "/" + file| - 1] == dir + "/" + front;
      assert file == front + [file[|file| - 1]];
    }
  }

  lemma {:induction false} ExtAfterDot(front: string, ext: string)
    requires '/' !in ext && '.' !in ext
    ensures Ext(front + "." + ext) == "." + ext
  {
    var path := front + "." + ext;
    if ext == "" {
      assert path == front + ".";
      assert "." + ext == ".";
    } else {
      var shorter := ext[..|ext| - 1];
      ExtAfterDot(front, shorter);
      assert path[..|path| - 1] == front + "." + shorter;
      assert "." + ext == "." + shorter + [ext[|ext| - 1]];
    }
  }

  lemma SnmpFileIsPerDevice(uid: Uid)
    ensures NamesDeviceFile(Text(SnmpFile(uid)), "snmp/yml/", uid) && IsPerDevice(Text(SnmpFile(uid)))
  {
    assert Text(SnmpFile(uid)) == "snmp/yml/" + ("snmp-" + uid + ".yaml");
    var file := "snmp-" + uid + ".yaml";
    assert Text(SnmpFile(uid)) == "snmp/yml" + "/" + file;
    BaseAfterSlash("snmp/yml", file);
    assert Text(SnmpFile(uid)) == ("snmp/yml/snmp-" + uid) + "." + "yaml";
    ExtAfterDot("snmp/yml/snmp-" + uid, "yaml");
  }

  lemma MergedFileIsNotPerDevice()
    ensures !IsPerDevice(Text(SnmpMergedFile))
  {
    assert Text(SnmpMergedFile) == "snmp/yml" + "/" + "snmp.yml";
    BaseAfterSlash("snmp/yml", "snmp.yml");
    assert "snmp.yml"[4] != "snmp-"[4];
  }

  lemma SnmpTextInjective(u: Uid, v: Uid)
    requires Text(SnmpFile(u)) == Text(SnmpFile(v))
    ensures u == v
  {
    var a, b := Text(SnmpFile(u)), Text(SnmpFile(v));
    assert u == a[14..|a| - 5] && v == b[14..|b| - 5];
  }

  lemma GeneratorTextInjective(u: Uid, v: Uid)
    requires Text(GeneratorFile(u)) == Text(GeneratorFile(v))
    ensures u == v
  {
    var a, b := Text(GeneratorFile(u)), Text(GeneratorFile(v));
    assert u == a[26..|a| - 5] && v == b[26..|b| - 5];
  }

  predicate InSnmpDir(p: Path) {
    !p.GeneratorFile?
  }

  lemma DirectoriesDiffer(p: Path)
    ensures |Text(p)| > 5 && (InSnmpDir(p) <==> Text(p)[5] == 'y')
  {
  }

  /** Different devices and different purposes never share a path. */
  lemma TextInjective(p: Path, q: Path)
    requires Text(p) == Text(q)
    ensures p == q
  {
    DirectoriesDiffer(p);
    DirectoriesDiffer(q);
    hide Text;
    match (p, q)
    case (GeneratorFile(u), GeneratorFile(v)) => GeneratorTextInjective(u, v);
    case (SnmpFile(u), SnmpFile(v)) => SnmpTextInjective(u, v);
    case (SnmpFile(u), SnmpMergedFile) => SnmpFileIsPerDevice(u); MergedFileIsNotPerDevice();
    case (SnmpMergedFile, SnmpFile(v)) => SnmpFileIsPerDevice(v); MergedFileIsNotPerDevice();
    case _ =>
  }

  /* ---- Merging the SNMP directory ---- */

  lemma TextsApart()
    ensures forall p, q :: InSnmpDir(p) && InSnmpDir(q) && Text(p) == Text(q) ==> p == q
  {
    forall p, q | InSnmpDir(p) && InSnmpDir(q) && Text(p) == Text(q)
      ensures p == q
    {
      TextInjective(p, q);
    }
  }

  /** The listing of snmp/yml with file contents. */
  function SnmpDirectory(files: Files): Directory {
    TextsApart();
    map p | p in files && InSnmpDir(p) :: Text(p) := files[p]
  }

  lemma DirectoryEntry(files: Files, p: Path)
    requires p in files && InSnmpDir(p)
    ensures Text(p) in SnmpDirectory(files) && SnmpDirectory(files)[Text(p)] == files[p]
  {
    hide Text;
    TextsApart();
    var dir := SnmpDirectory(files);
    assert Text(p) in dir;
  }

  ghost function MergeOf(files: Files): Option<Content> {
    Merged(SnmpDirectory(files))
  }

  lemma ContributingFiles(files: Files)
    ensures forall u :: SnmpFile(u) in files && !files[SnmpFile(u)].Blank? ==>
      Text(SnmpFile(u)) in Contributing(SnmpDirectory(files))
      && Contributing(SnmpDirectory(files))[Text(SnmpFile(u))] == files[SnmpFile(u)]
    ensures forall f :: f in Contributing(SnmpDirectory(files)) ==>
      exists u :: SnmpFile(u) in files && f == Text(SnmpFile(u))
  {
    hide Text, IsPerDevice;
    forall u | SnmpFile(u) in files && !files[SnmpFile(u)].Blank?
      ensures Text(SnmpFile(u)) in Contributing(SnmpDirectory(files))
      ensures Contributing(SnmpDirectory(files))[Text(SnmpFile(u))] == files[SnmpFile(u)]
    {
      SnmpFileIsPerDevice(u);
      DirectoryEntry(files, SnmpFile(u));
    }
    forall f | f in Contributing(SnmpDirectory(files))
      ensures exists u :: SnmpFile(u) in files && f == Text(SnmpFile(u))
    {
      var p :| p in files && InSnmpDir(p) && Text(p) == f;
      MergedFileIsNotPerDevice();
      assert p.SnmpFile?;
      assert p == SnmpFile(p.uid);
    }
  }

  /** Equal device files give equal merges, whatever else is on the volume. */
  lemma MergeDependsOnSnmpFiles(files: Files, other: Files)
    requires forall u :: SnmpFile(u) in files <==> SnmpFile(u) in other
    requires forall u :: SnmpFile(u) in files ==> files[SnmpFile(u)] == other[SnmpFile(u)]
    ensures MergeOf(files) == MergeOf(other)
  {
    hide Text, IsPerDevice, SnmpDirectory;
    var a, b := Contributing(SnmpDirectory(files)), Contributing(SnmpDirectory(other));
    SameContribution(files, other);
    SameContribution(other, files);
    assert a == b;
  }

  lemma SameContribution(files: Files, other: Files)
    requires forall u :: SnmpFile(u) in files <==> SnmpFile(u) in other
    requires forall u :: SnmpFile(u) in files ==> files[SnmpFile(u)] == other[SnmpFile(u)]
    ensures forall f :: f in Contributing(SnmpDirectory(files)) ==>
      f in Contributing(SnmpDirectory(other))
      && Contributing(SnmpDirectory(files))[f] == Contributing(SnmpDirectory(other))[f]
  {
    hide Text, IsPerDevice;
    var a, b := Contributing(SnmpDirectory(files)), Contributing(SnmpDirectory(other));
    forall f | f in a
      ensures f in b && a[f] == b[f]
    {
      ContributingFiles(files);
      var u :| SnmpFile(u) in files && f == Text(SnmpFile(u));
      DirectoryEntry(files, SnmpFile(u));
      DirectoryEntry(other, SnmpFile(u));
      ContributingFiles(other);
    }
  }

  /* ---- Per-device contents ---- */

  /** A configuration for exactly one device. */
  predicate IsConfigOf(name: string, c: Content) {
    c.Config? && c.auths.Keys == {name} && c.modules.Keys == {name}
  }

  /** merged contains the auth and the module of part. */
  predicate Includes(merged: Content, part: Content) {
    && merged.Config? && part.Config?
    && (forall k :: k in part.auths ==> k in merged.auths && merged.auths[k] == part.auths[k])
    && (forall k :: k in part.modules ==> k in merged.modules && merged.modules[k] == part.modules[k])
  }

  /** Every SNMP file is the configuration of its own device, and no two devices share a name. */
  ghost predicate OneConfigPerName(files: Files, nameOf: map<Uid, string>) {
    && (forall u :: SnmpFile(u) in files ==> u in nameOf && IsConfigOf(nameOf[u], files[SnmpFile(u)]))
    && (forall u, v :: u in nameOf && v in nameOf && nameOf[u] == nameOf[v] ==> u == v)
  }

  lemma OnlyHolder(sections: map<FileName, Section>, f: FileName, k: string)
    requires f in sections && k in sections[f]
    requires forall g :: g in sections && k in sections[g] ==> g == f
    ensures k in LatestWins(sections) && LatestWins(sections)[k] == sections[f][k]
  {
    assert k in Keys(sections);
    assert Latest(sections, k) in Holding(sections, k);
  }

  ghost function Named(files: Files, nameOf: map<Uid, string>): set<string> {
    set u | u in nameOf && SnmpFile(u) in files :: nameOf[u]
  }

  lemma PartIncluded(files: Files, nameOf: map<Uid, string>, u: Uid)
    requires OneConfigPerName(files, nameOf) && SnmpFile(u) in files
    requires Parses(Contributing(SnmpDirectory(files)))
    ensures MergeOf(files).Some? && Includes(MergeOf(files).value, files[SnmpFile(u)])
  {
    hide Text, IsPerDevice, SnmpDirectory, LatestWins;
    ContributingFiles(files);
    var parts := Contributing(SnmpDirectory(files));
    var f, k := Text(SnmpFile(u)), nameOf[u];
    forall g | g in parts && (k in parts[g].auths || k in parts[g].modules)
      ensures g == f
    {
      var v :| SnmpFile(v) in files && g == Text(SnmpFile(v));
    }
    OnlyHolder(Auths(parts), f, k);
    OnlyHolder(Modules(parts), f, k);
  }

  /** Every contributing part is some device's file. */
  lemma PartsAreDeviceFiles(files: Files, nameOf: map<Uid, string>)
    requires OneConfigPerName(files, nameOf)
    ensures var parts := Contributing(SnmpDirectory(files));
      forall f :: f in parts ==> exists u :: u in nameOf && SnmpFile(u) in files && IsConfigOf(nameOf[u], parts[f])
  {
    hide Text, IsPerDevice, SnmpDirectory;
    ContributingFiles(files);
    var parts := Contributing(SnmpDirectory(files));
    forall f | f in parts
      ensures exists u :: u in nameOf && SnmpFile(u) in files && IsConfigOf(nameOf[u], parts[f])
    {
      var u :| SnmpFile(u) in files && f == Text(SnmpFile(u));
      assert parts[f] == files[SnmpFile(u)];
    }
  }

  lemma KeysAreNames(sections: map<FileName, Section>, names: set<string>)
    requires forall f :: f in sections ==> sections[f].Keys <= names
    ensures LatestWins(sections).Keys <= names
  {
    forall k | k in LatestWins(sections)
      ensures k in names
    {
      var f :| f in sections && k in sections[f];
    }
  }

  lemma MergeKeys(files: Files, nameOf: map<Uid, string>)
    requires OneConfigPerName(files, nameOf)
    ensures Parses(Contributing(SnmpDirectory(files)))
    ensures MergeOf(files).Some? && MergeOf(files).value.Config?
    ensures MergeOf(files).value.auths.Keys <= Named(files, nameOf)
    ensures MergeOf(files).value.modules.Keys <= Named(files, nameOf)
  {
    PartsAreDeviceFiles(files, nameOf);
    hide SnmpDirectory, Contributing, OneConfigPerName, LatestWins;
    var parts := Contributing(SnmpDirectory(files));
    forall f | f in parts
      ensures parts[f].Config?
      ensures parts[f].auths.Keys <= Named(files, nameOf) && parts[f].modules.Keys <= Named(files, nameOf)
    {
      var u :| u in nameOf && SnmpFile(u) in files && IsConfigOf(nameOf[u], parts[f]);
    }
    KeysAreNames(Auths(parts), Named(files, nameOf));
    KeysAreNames(Modules(parts), Named(files, nameOf));
  }

  /** The merge contains every device's own entries, and no entry of any other name. */
  lemma MergeContents(files: Files, nameOf: map<Uid, string>)
    requires OneConfigPerName(files, nameOf)
    ensures MergeOf(files).Some? && MergeOf(files).value.Config?
    ensures forall u :: SnmpFile(u) in files ==> Includes(MergeOf(files).value, files[SnmpFile(u)])
    ensures MergeOf(files).value.auths.Keys == Named(files, nameOf)
    ensures MergeOf(files).value.modules.Keys == Named(files, nameOf)
  {
    MergeKeys(files, nameOf);
    hide MergeOf, SnmpDirectory, Contributing;
    var merged := MergeOf(files).value;
    forall u | SnmpFile(u) in files
      ensures Includes(merged, files[SnmpFile(u)])
    {
      PartIncluded(files, nameOf, u);
    }
    forall k | k in Named(files, nameOf)
      ensures k in merged.auths && k in merged.modules
    {
      var u :| u in nameOf && SnmpFile(u) in files && nameOf[u] == k;
      assert Includes(merged, files[SnmpFile(u)]);
    }
  }
}
