/** Which stack files a commit holds (internal/source/git.go); reading them is part of the input. */
module Source {
  import opened Basics
  import opened Ordering
  import opened Parse
  import opened Spec

  /** An entry of the stack directory; content is None when the file cannot be read. */
  datatype Entry = Entry(name: string, isFile: bool, content: Option<Content>)

  /** path.Ext of a name without slashes: from the last dot on. */
  function Ext(name: string): (r: string)
    ensures |r| <= |name|
  {
    if name == "" then ""
    else
      var r := Ext(name[1..]);
      if r == "" && name[0] == '.' then name else r
  }

  lemma {:induction false} ExtMeaning(name: string)
    ensures name == name[..|name| - |Ext(name)|] + Ext(name)
    ensures Ext(name) == "" ==> '.' !in name
    ensures Ext(name) != "" ==> Ext(name)[0] == '.' && '.' !in Ext(name)[1..]
  {
    if name != "" {
      ExtMeaning(name[1..]);
      var n := |name| - 1 - |Ext(name[1..])|;
      assert name == [name[0]] + name[1..];
      if Ext(name) != name {
        assert name == [name[0]] + (name[1..][..n] + Ext(name[1..]));
        assert name[..n + 1] == [name[0]] + name[1..][..n];
      }
    }
  }

  predicate IsStackFile(e: Entry) {
    e.isFile && (Ext(e.name) == ".yml" || Ext(e.name) == ".yaml")
  }

  function StackName(e: Entry): string {
    e.name[..|e.name| - |Ext(e.name)|]
  }

  lemma {:induction false} ExtOfJoin(stem: string, ext: string)
    requires ext != "" && ext[0] == '.' && '.' !in ext[1..]
    ensures Ext(stem + ext) == ext
  {
    if stem != "" {
      ExtOfJoin(stem[1..], ext);
      assert (stem + ext)[1..] == stem[1..] + ext;
    } else {
      ExtHasDot(ext[1..]);
      assert stem + ext == ext;
    }
  }

  lemma ExtHasDot(name: string)
    ensures Ext(name) != "" ==> '.' in name
  {
    ExtMeaning(name);
    if Ext(name) != "" { assert name[|name| - |Ext(name)|] == '.'; }
  }

  /** The stack files are the files named after a stack with one of the two YAML extensions. */
  lemma StackFileExactly(e: Entry, stem: string)
    ensures e.name == stem + ".yml" || e.name == stem + ".yaml" ==> (IsStackFile(e) <==> e.isFile) && StackName(e) == stem
    ensures IsStackFile(e) ==> e.isFile && (e.name == StackName(e) + ".yml" || e.name == StackName(e) + ".yaml")
  {
    ExtOfJoin(stem, ".yml");
    ExtOfJoin(stem, ".yaml");
    ExtMeaning(e.name);
    if e.name == stem + ".yml" || e.name == stem + ".yaml" { assert StackName(e) == stem; }
  }

  predicate NameLe(a: StackFile, b: StackFile) {
    Le(a.name, b.name)
  }

  function FileOf(e: Entry): seq<StackFile> {
    if IsStackFile(e) && e.content.Some? then [StackFile(StackName(e), e.content.value)] else []
  }

  /** The stack files among the first n entries that can be read. */
  function FilesOf(entries: seq<Entry>, n: nat): seq<StackFile>
    requires n <= |entries|
  {
    if n == 0 then [] else FilesOf(entries, n - 1) + FileOf(entries[n - 1])
  }

  ghost predicate SameStack(entries: seq<Entry>, i: nat, j: nat)
    requires i < |entries| && j < |entries|
  {
    IsStackFile(entries[i]) && IsStackFile(entries[j]) && StackName(entries[i]) == StackName(entries[j])
  }

  /** Two of the first n entries are stack files of one stack name, as alpha.yml beside alpha.yaml. */
  ghost predicate Ambiguous(entries: seq<Entry>, n: nat)
    requires n <= |entries|
  {
    exists i, j :: 0 <= i < j < n && SameStack(entries, i, j)
  }

  ghost predicate Readable(entries: seq<Entry>, n: nat)
    requires n <= |entries|
  {
    forall i :: 0 <= i < n && IsStackFile(entries[i]) ==> entries[i].content.Some?
  }

  ghost predicate GivenBy(e: Entry, f: StackFile) {
    IsStackFile(e) && e.content == Some(f.content) && StackName(e) == f.name
  }

  lemma InFileOf(e: Entry, f: StackFile)
    ensures f in FileOf(e) <==> GivenBy(e, f)
  {
  }

  lemma {:induction false} FilesMeaning(entries: seq<Entry>, n: nat, f: StackFile)
    requires n <= |entries|
    ensures f in FilesOf(entries, n) <==> exists i :: 0 <= i < n && GivenBy(entries[i], f)
  {
    if n > 0 {
      FilesMeaning(entries, n - 1, f);
      InFileOf(entries[n - 1], f);
      var before, last := FilesOf(entries, n - 1), FileOf(entries[n - 1]);
      assert f in before + last <==> f in before || f in last;
    }
  }

  lemma {:induction false} FilesDistinct(entries: seq<Entry>, n: nat)
    requires n <= |entries| && !Ambiguous(entries, n)
    ensures DistinctNames(FilesOf(entries, n))
  {
    if n > 0 {
      FilesDistinct(entries, n - 1);
      var before := FilesOf(entries, n - 1);
      forall k | 0 <= k < |before| && IsStackFile(entries[n - 1]) ensures before[k].name != StackName(entries[n - 1]) {
        FilesMeaning(entries, n - 1, before[k]);
        var i :| 0 <= i < n - 1 && GivenBy(entries[i], before[k]);
        assert !SameStack(entries, i, n - 1);
      }
    }
  }

  lemma NameOrder()
    ensures Preorder(NameLe)
  {
    LePreorder();
  }

  /** The stack files in the order they are handed on: strictly by name. */
  ghost predicate InNameOrder(files: seq<StackFile>) {
    forall i, j :: 0 <= i < j < |files| ==> Lt(files[i].name, files[j].name)
  }

  lemma SortedByName(files: seq<StackFile>)
    requires DistinctNames(files)
    ensures InNameOrder(Sort(files, NameLe)) && DistinctNames(Sort(files, NameLe))
    ensures multiset(Sort(files, NameLe)) == multiset(files)
  {
    NameOrder();
    SortOrders(files, NameLe);
    var r := Sort(files, NameLe);
    forall i, j | 0 <= i < j < |r| ensures r[i].name != r[j].name {
      if r[i].name == r[j].name {
        SameNameSameFile(files, r[i]);
        TwiceInMultiset(r, i, j);
        assert false;
      }
    }
  }

  lemma TwiceInMultiset(r: seq<StackFile>, i: nat, j: nat)
    requires i < j < |r|
    ensures forall x :: (x == r[i] && x == r[j]) ==> multiset(r)[x] >= 2
  {
    assert r == r[..i] + [r[i]] + r[i + 1..j] + [r[j]] + r[j + 1..];
  }

  lemma {:induction false} SameNameSameFile(files: seq<StackFile>, f: StackFile)
    requires DistinctNames(files)
    ensures multiset(files)[f] <= 1
    ensures forall g, h :: g in multiset(files) && h in multiset(files) && g.name == h.name ==> g == h
  {
    if files != [] {
      SameNameSameFile(files[1..], f);
      assert files == [files[0]] + files[1..];
    }
  }

  // ---- The source's loop ----

  ghost function NamesOf(e: Entry): set<string> {
    if IsStackFile(e) then {StackName(e)} else {}
  }

  /** The stack names of the first n entries. */
  ghost function Names(entries: seq<Entry>, n: nat): set<string>
    requires n <= |entries|
  {
    if n == 0 then {} else Names(entries, n - 1) + NamesOf(entries[n - 1])
  }

  lemma {:induction false} NamesMeaning(entries: seq<Entry>, n: nat, name: string)
    requires n <= |entries|
    ensures name in Names(entries, n) <==> exists i :: 0 <= i < n && name in NamesOf(entries[i])
  {
    if n > 0 {
      NamesMeaning(entries, n - 1, name);
      var before, last := Names(entries, n - 1), NamesOf(entries[n - 1]);
      assert name in before + last <==> name in before || name in last;
    }
  }

  lemma OneMoreEntry(entries: seq<Entry>, n: nat)
    requires n < |entries|
    ensures !IsStackFile(entries[n]) ==>
              Names(entries, n + 1) == Names(entries, n) && FilesOf(entries, n + 1) == FilesOf(entries, n)
    ensures IsStackFile(entries[n]) ==> Names(entries, n + 1) == Names(entries, n) + {StackName(entries[n])}
    ensures IsStackFile(entries[n]) && entries[n].content.Some? ==>
              FilesOf(entries, n + 1) == FilesOf(entries, n) + [StackFile(StackName(entries[n]), entries[n].content.value)]
    ensures Readable(entries, n + 1) <==> Readable(entries, n) && (IsStackFile(entries[n]) ==> entries[n].content.Some?)
  {
  }

  lemma AmbiguousOneMore(entries: seq<Entry>, n: nat)
    requires n < |entries|
    ensures Ambiguous(entries, n + 1)
       <==> Ambiguous(entries, n) || (IsStackFile(entries[n]) && StackName(entries[n]) in Names(entries, n))
  {
    if IsStackFile(entries[n]) {
      NamesMeaning(entries, n, StackName(entries[n]));
      if StackName(entries[n]) in Names(entries, n) {
        var i :| 0 <= i < n && StackName(entries[n]) in NamesOf(entries[i]);
        assert SameStack(entries, i, n);
      }
      forall i | 0 <= i < n && SameStack(entries, i, n) ensures StackName(entries[n]) in Names(entries, n) {
        assert StackName(entries[n]) in NamesOf(entries[i]);
      }
    }
  }

  lemma KeysWith(m: map<string, string>, name: string, value: string)
    ensures m[name := value].Keys == m.Keys + {name}
    ensures name in m ==> m.Keys + {name} == m.Keys
  {
  }

  /** Fails exactly when two files share a stack name or one cannot be read. */
  method StackFiles(entries: seq<Entry>) returns (r: Option<seq<StackFile>>)
    ensures r.Some? <==> !Ambiguous(entries, |entries|) && Readable(entries, |entries|)
    ensures r.Some? ==> r.value == Sort(FilesOf(entries, |entries|), NameLe)
    ensures r.Some? ==> DistinctNames(r.value) && InNameOrder(r.value)
  {
    var files: seq<StackFile> := [];
    var seenBy: map<string, string> := map[];
    var errs := 0;
    for n := 0 to |entries|
      invariant seenBy.Keys == Names(entries, n)
      invariant errs == 0 <==> !Ambiguous(entries, n)
      invariant errs == 0 ==> files == FilesOf(entries, n) && Readable(entries, n)
    {
      var entry := entries[n];
      AmbiguousOneMore(entries, n);
      OneMoreEntry(entries, n);
      if !IsStackFile(entry) {
        continue;
      }
      var name := StackName(entry);
      KeysWith(seenBy, name, entry.name);
      if name in seenBy {
        errs := errs + 1;
        continue;
      }
      seenBy := seenBy[name := entry.name];
      if entry.content.None? {
        return None;
      }
      files := files + [StackFile(name, entry.content.value)];
    }
    if errs > 0 {
      return None;
    }
    FilesDistinct(entries, |entries|);
    SortedByName(files);
    return Some(Sort(files, NameLe));
  }

  /** Parsing what a commit holds loses no service. */
  lemma CommitLosesNoService(entries: seq<Entry>)
    requires !Ambiguous(entries, |entries|)
    ensures var files := Sort(FilesOf(entries, |entries|), NameLe);
      Parses(files) ==> |Merged(files)| == Declared(files) && KeyedByName(Merged(files))
  {
    var files := Sort(FilesOf(entries, |entries|), NameLe);
    FilesDistinct(entries, |entries|);
    SortedByName(FilesOf(entries, |entries|));
    if Parses(files) {
      NoServiceLost(files);
      MergedKeyed(files);
    }
  }
}
