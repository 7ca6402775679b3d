/** src/components/HomePage.js: the home page lists the sections grouped into
    one folder per program. */
module Home {
  import opened Js
  import opened Api
  import opened Entities
  import opened Sorting

  const Uncategorized := "Uncategorized"
  const HomeLoadError := "Failed to load sections. Please ensure the backend is running and you are logged in."

  /** `section.program || 'Uncategorized'`; a missing program is the empty
      string here. */
  function ProgramKey(s: Section): (k: string)
    ensures k != ""
    ensures s.program != "" ==> k == s.program
    ensures s.program == "" ==> k == Uncategorized
  {
    if s.program != "" then s.program else Uncategorized
  }

  /** The sections with program key `k`, in list order: the reference for what
      the reduce collects under `k`. */
  function Members(xs: seq<Section>, k: string): (m: seq<Section>)
    ensures |m| <= |xs|
    ensures forall i :: 0 <= i < |m| ==> ProgramKey(m[i]) == k
  {
    if xs == [] then []
    else Members(xs[..|xs| - 1], k) + (if ProgramKey(xs[|xs| - 1]) == k then [xs[|xs| - 1]] else [])
  }

  /** A section is in the group of `k` exactly when it is in the list and its
      program key is `k`. */
  lemma {:induction false} MembersExactly(xs: seq<Section>, k: string)
    ensures forall s :: s in Members(xs, k) <==> s in xs && ProgramKey(s) == k
  {
    if xs != [] {
      var init, last := xs[..|xs| - 1], xs[|xs| - 1];
      assert xs == init + [last];
      MembersExactly(init, k);
    }
  }

  /** The groups listed in the order of `keys`, one after the other. */
  function Gather(xs: seq<Section>, keys: seq<string>): seq<Section> {
    if keys == [] then [] else Members(xs, keys[0]) + Gather(xs, keys[1..])
  }

  lemma {:induction false} GatherOfEmpty(keys: seq<string>)
    ensures Gather([], keys) == []
  {
    if keys != [] {
      GatherOfEmpty(keys[1..]);
    }
  }

  /** One more section joins the end of the group of its key only. */
  lemma MembersSnoc(xs: seq<Section>, x: Section, k: string)
    ensures Members(xs + [x], k) == Members(xs, k) + (if ProgramKey(x) == k then [x] else [])
  {
    assert (xs + [x])[..|xs + [x]| - 1] == xs;
  }

  /** The tail of distinct keys is distinct and misses the head. */
  lemma DistinctTail(keys: seq<string>)
    requires Distinct(keys) && keys != []
    ensures Distinct(keys[1..])
    ensures keys[0] !in keys[1..]
  {
    forall i, j | 0 <= i < j < |keys[1..]| ensures keys[1..][i] != keys[1..][j] {
      assert keys[1..][i] == keys[i + 1] && keys[1..][j] == keys[j + 1];
    }
    forall k | 0 <= k < |keys[1..]| ensures keys[1..][k] != keys[0] {
      assert keys[1..][k] == keys[k + 1];
    }
  }

  /** Both unfold into the first group followed by the rest. */
  lemma GatherCons(xs: seq<Section>, x: Section, keys: seq<string>)
    requires keys != []
    ensures multiset(Gather(xs + [x], keys))
         == multiset(Members(xs, keys[0])) + (if ProgramKey(x) == keys[0] then multiset{x} else multiset{})
          + multiset(Gather(xs + [x], keys[1..]))
    ensures multiset(Gather(xs, keys)) == multiset(Members(xs, keys[0])) + multiset(Gather(xs, keys[1..]))
  {
    MembersSnoc(xs, x, keys[0]);
  }

  /** One more section adds it to exactly the group of its key. */
  lemma {:induction false} GatherSnoc(xs: seq<Section>, x: Section, keys: seq<string>)
    requires Distinct(keys)
    ensures multiset(Gather(xs + [x], keys))
         == multiset(Gather(xs, keys)) + (if ProgramKey(x) in keys then multiset{x} else multiset{})
  {
    if keys != [] {
      DistinctTail(keys);
      GatherSnoc(xs, x, keys[1..]);
      GatherCons(xs, x, keys);
      assert ProgramKey(x) in keys <==> ProgramKey(x) == keys[0] || ProgramKey(x) in keys[1..] by {
        InHeadOrTail(keys, ProgramKey(x));
      }
    }
  }

  /** A key is in a list exactly when it is its head or in its tail. */
  lemma InHeadOrTail(keys: seq<string>, k: string)
    requires keys != []
    ensures k in keys <==> k == keys[0] || k in keys[1..]
  {
    assert keys == [keys[0]] + keys[1..];
  }

  /** Listing the groups of any distinct keys that cover every section's key
      lists each section exactly as often as it occurs: every section lands in
      exactly one group. */
  lemma {:induction false} GroupsPartition(xs: seq<Section>, keys: seq<string>)
    requires Distinct(keys)
    requires forall s :: s in xs ==> ProgramKey(s) in keys
    ensures multiset(Gather(xs, keys)) == multiset(xs)
  {
    if xs == [] {
      GatherOfEmpty(keys);
    } else {
      var init, last := xs[..|xs| - 1], xs[|xs| - 1];
      assert xs == init + [last];
      assert forall s :: s in init ==> s in xs;
      GroupsPartition(init, keys);
      GatherSnoc(init, last, keys);
    }
  }

  /** `groups` and `keys` hold what the reduce has built from `xs`. */
  ghost predicate Grouped(xs: seq<Section>, groups: map<string, seq<Section>>, keys: seq<string>) {
    && Distinct(keys)
    && groups.Keys == (set k | k in keys)
    && (forall j :: 0 <= j < |xs| ==> ProgramKey(xs[j]) in groups)
    && (forall k :: k in groups ==> groups[k] == Members(xs, k) && groups[k] != [])
  }

  /** One step of the reduce: the section is pushed onto its program's group,
      which is created first when it is missing. */
  lemma GroupStep(xs: seq<Section>, x: Section, groups: map<string, seq<Section>>, keys: seq<string>,
                  groups': map<string, seq<Section>>, keys': seq<string>)
    requires Grouped(xs, groups, keys)
    requires keys' == if ProgramKey(x) in groups then keys else keys + [ProgramKey(x)]
    requires groups' == groups[ProgramKey(x) := (if ProgramKey(x) in groups then groups[ProgramKey(x)] else []) + [x]]
    ensures Grouped(xs + [x], groups', keys')
  {
    var p := ProgramKey(x);
    if p !in groups {
      MembersAbsent(xs, p);
    }
    assert groups'.Keys == groups.Keys + {p};
    forall j | 0 <= j < |xs + [x]|
      ensures ProgramKey((xs + [x])[j]) in groups'
    {
      if j < |xs| {
        assert (xs + [x])[j] == xs[j];
      }
    }
    forall k | k in groups'
      ensures groups'[k] == Members(xs + [x], k)
    {
      MembersSnoc(xs, x, k);
    }
  }

  /** The `reduce` that builds `programs`: `keys` is `Object.keys(programs)`,
      each key appearing once, in the order the groups were created. */
  method GroupByProgram(sections: seq<Section>) returns (groups: map<string, seq<Section>>, keys: seq<string>)
    ensures Distinct(keys)
    ensures groups.Keys == set k | k in keys
    ensures forall s :: s in sections ==> ProgramKey(s) in groups
    ensures forall k :: k in groups ==> groups[k] == Members(sections, k) && groups[k] != []
  {
    groups, keys := map[], [];
    for i := 0 to |sections|
      invariant Grouped(sections[..i], groups, keys)
    {
      var section := sections[i];
      var program := ProgramKey(section);
      ghost var groups0, keys0 := groups, keys;
      if program !in groups {
        groups := groups[program := []];
        keys := keys + [program];
      }
      groups := groups[program := groups[program] + [section]];
      GroupStep(sections[..i], section, groups0, keys0, groups, keys);
      assert sections[..i + 1] == sections[..i] + [section];
    }
    assert sections[..|sections|] == sections;
  }

  /** No section of `xs` has key `k`: its group is empty. */
  lemma {:induction false} MembersAbsent(xs: seq<Section>, k: string)
    requires forall j :: 0 <= j < |xs| ==> ProgramKey(xs[j]) != k
    ensures Members(xs, k) == []
  {
    if xs != [] {
      MembersAbsent(xs[..|xs| - 1], k);
    }
  }

  /** The folder comparator: year level first, then section name. */
  function CompareFolderEntries(a: Section, b: Section): (r: int)
    ensures r < 0 <==> (a.yearLevel < b.yearLevel
      || (a.yearLevel == b.yearLevel && CompareStrings(a.sectionName, b.sectionName) < 0))
    ensures r == 0 <==> a.yearLevel == b.yearLevel && a.sectionName == b.sectionName
  {
    if a.yearLevel != b.yearLevel then a.yearLevel - b.yearLevel
    else CompareStrings(a.sectionName, b.sectionName)
  }

  lemma CompareFolderEntriesConsistent()
    ensures ConsistentComparator(CompareFolderEntries)
  {
    forall a: Section, b: Section
      ensures CompareFolderEntries(a, b) <= 0 || CompareFolderEntries(b, a) <= 0
    {
      CompareStringsAntisymmetric(a.sectionName, b.sectionName);
    }
    forall a: Section, b: Section, c: Section |
      CompareFolderEntries(a, b) <= 0 && CompareFolderEntries(b, c) <= 0
      ensures CompareFolderEntries(a, c) <= 0
    {
      if a.yearLevel == b.yearLevel == c.yearLevel {
        CompareStringsTransitive(a.sectionName, b.sectionName, c.sectionName);
      }
    }
  }

  function FolderOrder(group: seq<Section>): seq<Section> {
    Sort(group, CompareFolderEntries)
  }

  /** A folder lists its sections once each, by year level and then by
      section name within a year level. */
  lemma FolderOrderSorted(group: seq<Section>)
    ensures multiset(FolderOrder(group)) == multiset(group)
    ensures forall i, j :: 0 <= i < j < |FolderOrder(group)| ==>
      var a, b := FolderOrder(group)[i], FolderOrder(group)[j];
      a.yearLevel < b.yearLevel || (a.yearLevel == b.yearLevel && CompareStrings(a.sectionName, b.sectionName) <= 0)
  {
    CompareFolderEntriesConsistent();
    SortSorted(group, CompareFolderEntries);
  }

  /** `Object.keys(programs).sort()`. The default sort orders strings by
      UTF-16 code units; this compares code points, which agrees except
      between characters above U+FFFF and those in U+E000..U+FFFF. */
  function CompareNames(a: string, b: string): (r: int)
    ensures r == 0 <==> a == b
    ensures r > 0 <==> CompareStrings(b, a) < 0
  {
    CompareStringsAntisymmetric(a, b);
    CompareStrings(a, b)
  }

  lemma CompareNamesConsistent()
    ensures ConsistentComparator(CompareNames)
    ensures forall a, b :: CompareNames(a, b) == 0 ==> a == b
  {
    forall a, b
      ensures CompareNames(a, b) <= 0 || CompareNames(b, a) <= 0
    {
      CompareStringsAntisymmetric(a, b);
    }
    forall a, b, c | CompareNames(a, b) <= 0 && CompareNames(b, c) <= 0
      ensures CompareNames(a, c) <= 0
    {
      CompareStringsTransitive(a, b, c);
    }
  }

  /** Sorting the distinct program names orders them strictly and loses none. */
  lemma ProgramNamesSorted(keys: seq<string>)
    requires Distinct(keys)
    ensures multiset(Sort(keys, CompareNames)) == multiset(keys)
    ensures Distinct(Sort(keys, CompareNames))
    ensures forall i, j :: 0 <= i < j < |Sort(keys, CompareNames)| ==>
      CompareStrings(Sort(keys, CompareNames)[i], Sort(keys, CompareNames)[j]) < 0
  {
    CompareNamesConsistent();
    SortSorted(keys, CompareNames);
    DistinctPermutation(keys, Sort(keys, CompareNames));
    SortedDistinctStrict(Sort(keys, CompareNames), CompareNames);
  }

  datatype Folder = Folder(programName: string, sections: seq<Section>)

  /** What the page shows; `Blank` is the empty folder list shown while a
      signed-out visitor's page is still marked as loading. */
  datatype HomeView =
    | LoadingPrograms
    | ErrorMessage(message: string)
    | Programs(folders: seq<Folder>)
    | NoPrograms
    | Blank

  function FolderSections(folders: seq<Folder>): seq<Section> {
    if folders == [] then [] else folders[0].sections + FolderSections(folders[1..])
  }

  /** One folder per name, in the order of `names`. */
  function FoldersOf(groups: map<string, seq<Section>>, names: seq<string>): (r: seq<Folder>)
    requires forall k :: k in names ==> k in groups
    ensures |r| == |names|
    ensures forall i :: 0 <= i < |names| ==> r[i] == Folder(names[i], FolderOrder(groups[names[i]]))
  {
    if names == [] then [] else [Folder(names[0], FolderOrder(groups[names[0]]))] + FoldersOf(groups, names[1..])
  }

  /** The folders list every section exactly as often as the fetched list
      holds it. */
  lemma {:induction false} FoldersPartition(sections: seq<Section>, groups: map<string, seq<Section>>,
                                            names: seq<string>)
    requires forall k :: k in names ==> k in groups && groups[k] == Members(sections, k)
    ensures multiset(FolderSections(FoldersOf(groups, names))) == multiset(Gather(sections, names))
  {
    if names != [] {
      FoldersPartition(sections, groups, names[1..]);
      FolderOrderSorted(groups[names[0]]);
      assert FoldersOf(groups, names)[1..] == FoldersOf(groups, names[1..]);
    }
  }

  /** The folders of the page for a non-empty list. */
  method ProgramFolders(sections: seq<Section>) returns (folders: seq<Folder>)
    ensures forall i, j :: 0 <= i < j < |folders| ==>
      CompareStrings(folders[i].programName, folders[j].programName) < 0
    ensures forall f :: f in folders ==>
      f.sections == FolderOrder(Members(sections, f.programName)) && f.sections != []
    ensures forall s :: s in sections ==> exists f :: f in folders && f.programName == ProgramKey(s)
    ensures multiset(FolderSections(folders)) == multiset(sections)
  {
    var groups, keys := GroupByProgram(sections);
    ProgramNamesSorted(keys);
    var names := Sort(keys, CompareNames);
    assert forall k :: k in names <==> k in groups by {
      forall k ensures k in names <==> k in groups {
        assert k in names <==> k in multiset(names);
      }
    }
    folders := FoldersOf(groups, names);
    FoldersCover(sections, groups, names, folders);
    FoldersPartition(sections, groups, names);
    GroupsPartition(sections, names);
  }

  lemma FoldersCover(sections: seq<Section>, groups: map<string, seq<Section>>, names: seq<string>,
                     folders: seq<Folder>)
    requires forall k :: k in names <==> k in groups
    requires forall s :: s in sections ==> ProgramKey(s) in groups
    requires forall k :: k in groups ==> groups[k] == Members(sections, k) && groups[k] != []
    requires folders == FoldersOf(groups, names)
    ensures forall f :: f in folders ==>
      f.sections == FolderOrder(Members(sections, f.programName)) && f.sections != []
    ensures forall s :: s in sections ==> exists f :: f in folders && f.programName == ProgramKey(s)
  {
    forall f | f in folders
      ensures f.sections == FolderOrder(Members(sections, f.programName)) && f.sections != []
    {
      var i :| 0 <= i < |folders| && folders[i] == f;
      FolderOrderSorted(groups[names[i]]);
      assert |f.sections| > 0 by {
        assert |multiset(f.sections)| == |multiset(groups[names[i]])|;
      }
    }
    forall s | s in sections
      ensures exists f :: f in folders && f.programName == ProgramKey(s)
    {
      var i :| 0 <= i < |names| && names[i] == ProgramKey(s);
      assert folders[i] in folders;
    }
  }

  class HomePage {
    var sections: seq<Section>
    var loading: bool
    var error: string

    constructor ()
      ensures sections == [] && loading && error == ""
    {
      sections, loading, error := [], true, "";
    }

    /** The effect that runs when `isAuthenticated` changes: the sections are
        fetched only for a signed-in user. Returns whether a request was
        sent. */
    method Load(isAuthenticated: bool, reply: Reply<seq<Section>>) returns (fetched: bool)
      modifies this
      ensures fetched == isAuthenticated
      ensures !loading
      ensures !isAuthenticated ==> sections == old(sections) && error == old(error)
      ensures isAuthenticated && reply.Ok? ==> sections == reply.value && error == ""
      ensures isAuthenticated && reply.Failed? ==> sections == old(sections) && error == HomeLoadError
    {
      fetched := isAuthenticated;
      if isAuthenticated {
        loading := true;
        error := "";
        match reply {
          case Ok(list) => sections := list;
          case Failed(_) => error := HomeLoadError;
        }
        loading := false;
      } else {
        loading := false;
      }
    }

    /** The render: a placeholder while a signed-in user's sections load, the
        error if there is one, and otherwise one folder per program, sorted by
        name, each holding that program's sections in folder order. */
    method View(isAuthenticated: bool) returns (v: HomeView)
      ensures loading && isAuthenticated ==> v == LoadingPrograms
      ensures !(loading && isAuthenticated) && error != "" ==> v == ErrorMessage(error)
      ensures !(loading && isAuthenticated) && error == "" && sections == [] ==>
        v == (if loading then Blank else NoPrograms)
      ensures !(loading && isAuthenticated) && error == "" && sections != [] ==>
        && v.Programs?
        && (forall i, j :: 0 <= i < j < |v.folders| ==>
              CompareStrings(v.folders[i].programName, v.folders[j].programName) < 0)
        && (forall f :: f in v.folders ==>
              f.sections == FolderOrder(Members(sections, f.programName)) && f.sections != [])
        && (forall s :: s in sections ==> exists f :: f in v.folders && f.programName == ProgramKey(s))
        && multiset(FolderSections(v.folders)) == multiset(sections)
    {
      if loading && isAuthenticated {
        return LoadingPrograms;
      }
      if error != "" {
        return ErrorMessage(error);
      }
      if sections == [] {
        return if loading then Blank else NoPrograms;
      }
      var folders := ProgramFolders(sections);
      v := Programs(folders);
    }
  }
}
