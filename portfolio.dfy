/** The portfolio page: a fixed catalogue of projects shown through a status
    filter that the visitor picks with one of four buttons. */
module Portfolio {

  /** The status a catalogue record carries. */
  datatype Status = Completed | InProgress | NotStarted

  /** `FilterType`: every project, or only the projects of one status. */
  datatype Filter = All | Only(status: Status)

  /** One record of the page's `projects` literal. */
  datatype Project = Project(id: nat, image: string, alt: string, status: Status, span: string)

  /** The string the page uses for a status. */
  function StatusLabel(s: Status): string {
    match s
    case Completed => "completed"
    case InProgress => "in-progress"
    case NotStarted => "not-started"
  }

  /** The string the page uses for a filter; `===` compares these. */
  function FilterLabel(f: Filter): string {
    match f
    case All => "all"
    case Only(s) => StatusLabel(s)
  }

  /** Two filters compare equal as strings exactly when they are the same filter. */
  lemma LabelsDistinct(f: Filter, g: Filter)
    ensures FilterLabel(f) == FilterLabel(g) <==> f == g
  {
  }

  /** The filter callback `(p) => p.status === activeFilter`. */
  predicate Keeps(f: Filter, p: Project) {
    StatusLabel(p.status) == FilterLabel(f)
  }

  /** `projects.filter(...)`: the records the callback keeps, in their original order. */
  function FilterBy(ps: seq<Project>, f: Filter): (r: seq<Project>)
    ensures |r| <= |ps|
  {
    if ps == [] then []
    else
      var rest := FilterBy(ps[1..], f);
      if Keeps(f, ps[0]) then [ps[0]] + rest else rest
  }

  /** `filteredProjects`: the whole list under `all`, otherwise the status filter. */
  function FilteredProjects(f: Filter, ps: seq<Project>): (r: seq<Project>)
    ensures |r| <= |ps|
  {
    if f == All then ps else FilterBy(ps, f)
  }

  /** `r` arises from `s` by deleting elements while keeping the order of the
      rest (greedy matching, which decides the relation exactly). */
  predicate IsSubsequence<T(==)>(r: seq<T>, s: seq<T>)
    decreases |s|
  {
    if r == [] then true
    else if s == [] then false
    else if r[0] == s[0] then IsSubsequence(r[1..], s[1..])
    else IsSubsequence(r, s[1..])
  }

  /** Every sequence is a subsequence of itself. */
  lemma {:induction false} SubsequenceReflexive<T>(s: seq<T>)
    ensures IsSubsequence(s, s)
  {
    if s != [] {
      SubsequenceReflexive(s[1..]);
    }
  }

  /** A subsequence is no longer than the sequence and draws its elements from it. */
  lemma {:induction false} SubsequenceBounds<T>(r: seq<T>, s: seq<T>)
    requires IsSubsequence(r, s)
    ensures |r| <= |s|
    ensures forall x :: x in r ==> x in s
  {
    if r != [] && s != [] {
      if r[0] == s[0] {
        SubsequenceBounds(r[1..], s[1..]);
        assert r == [r[0]] + r[1..];
      } else {
        SubsequenceBounds(r, s[1..]);
      }
    }
  }

  /** Everything the filter returns passes the callback. */
  lemma {:induction false} FilterByKeeps(ps: seq<Project>, f: Filter)
    ensures forall p :: p in FilterBy(ps, f) ==> Keeps(f, p)
  {
    if ps != [] {
      FilterByKeeps(ps[1..], f);
    }
  }

  /** The filter returns an order-preserving subsequence of its input. */
  lemma {:induction false} FilterByIsSubsequence(ps: seq<Project>, f: Filter)
    ensures IsSubsequence(FilterBy(ps, f), ps)
  {
    if ps != [] {
      var rest := FilterBy(ps[1..], f);
      FilterByIsSubsequence(ps[1..], f);
      if Keeps(f, ps[0]) {
        assert ([ps[0]] + rest)[1..] == rest;
      } else if rest != [] {
        FilterByKeeps(ps[1..], f);
        assert rest[0] in rest;
        assert rest[0] != ps[0];
      }
    }
  }

  /** How often a record occurs in the filter's result: as often as in the
      input when the callback keeps it, never otherwise. */
  lemma {:induction false} FilterByMultiplicity(ps: seq<Project>, f: Filter, p: Project)
    ensures multiset(FilterBy(ps, f))[p] == if Keeps(f, p) then multiset(ps)[p] else 0
  {
    if ps != [] {
      FilterByMultiplicity(ps[1..], f, p);
      assert ps == [ps[0]] + ps[1..];
    }
  }

  /** The `all` filter returns the list itself: same records, same order, same length. */
  lemma FilterAllUnchanged(ps: seq<Project>)
    ensures FilteredProjects(All, ps) == ps
  {
  }

  /** Under a status filter every shown record has exactly that status. */
  lemma FilterSound(ps: seq<Project>, s: Status)
    ensures forall i :: 0 <= i < |FilteredProjects(Only(s), ps)| ==>
      FilteredProjects(Only(s), ps)[i].status == s
  {
    FilterByKeeps(ps, Only(s));
    var r := FilteredProjects(Only(s), ps);
    forall i | 0 <= i < |r| ensures r[i].status == s {
      assert r[i] in r;
      LabelsDistinct(Only(r[i].status), Only(s));
    }
  }

  /** Under a status filter every record of that status is shown, as many
      times as it occurs, and no record of another status is. */
  lemma FilterComplete(ps: seq<Project>, s: Status)
    ensures forall i :: 0 <= i < |ps| && ps[i].status == s ==> ps[i] in FilteredProjects(Only(s), ps)
    ensures forall p :: multiset(FilteredProjects(Only(s), ps))[p] ==
                        (if p.status == s then multiset(ps)[p] else 0)
  {
    forall p ensures multiset(FilteredProjects(Only(s), ps))[p] ==
                     (if p.status == s then multiset(ps)[p] else 0)
    {
      FilterByMultiplicity(ps, Only(s), p);
      LabelsDistinct(Only(p.status), Only(s));
    }
    forall i | 0 <= i < |ps| && ps[i].status == s ensures ps[i] in FilteredProjects(Only(s), ps) {
      FilterByMultiplicity(ps, Only(s), ps[i]);
      assert ps[i] in multiset(ps);
    }
  }

  /** Whatever the filter, the shown list is an order-preserving subsequence
      of the catalogue and draws only on its records. */
  lemma FilterIsSubsequence(f: Filter, ps: seq<Project>)
    ensures IsSubsequence(FilteredProjects(f, ps), ps)
    ensures forall p :: p in FilteredProjects(f, ps) ==> p in ps
  {
    if f == All {
      SubsequenceReflexive(ps);
    } else {
      FilterByIsSubsequence(ps, f);
    }
    SubsequenceBounds(FilteredProjects(f, ps), ps);
  }

  /** The three status filters split any list: their lengths add up to its length. */
  lemma {:induction false} StatusesPartition(ps: seq<Project>)
    ensures |FilteredProjects(Only(Completed), ps)| + |FilteredProjects(Only(InProgress), ps)|
          + |FilteredProjects(Only(NotStarted), ps)| == |ps|
  {
    if ps != [] {
      StatusesPartition(ps[1..]);
    }
  }

  /** The page's `projects` literal. */
  const Projects: seq<Project> := [
    Project(1, "https://api.builder.io/api/v1/image/assets/TEMP/f68da1779e2ee8a2191342aba2878dec7a76731a?width=1480",
            "Apartment Elevation Design", Completed, "row-span-2"),
    Project(2, "https://api.builder.io/api/v1/image/assets/TEMP/342ed0a39f08f4e036fa5ef8eea303a5f0d9b5e9?width=1552",
            "Modern Home Design", Completed, "row-span-1"),
    Project(3, "https://api.builder.io/api/v1/image/assets/TEMP/e7e75347d3f24012e3d2f64ea2104626f403da30?width=728",
            "Modern Architecture", InProgress, "row-span-1"),
    Project(4, "https://api.builder.io/api/v1/image/assets/TEMP/7db84ff01aaaaa5d6cc0b7fdd10d8dc061a7e6c5?width=714",
            "Contemporary Design", Completed, "row-span-1"),
    Project(5, "https://api.builder.io/api/v1/image/assets/TEMP/82ff5507faf51e8c72057a66b0623e6e7a61c2b6?width=1516",
            "House Design", InProgress, "row-span-1"),
    Project(6, "https://api.builder.io/api/v1/image/assets/TEMP/8126ca32e746516bd41ef6fd6dd363d9480c098a?width=1516",
            "Luxury Villa", Completed, "row-span-2"),
    Project(7, "https://api.builder.io/api/v1/image/assets/TEMP/81dbefc38f230db4e424e7cd2b8c9cd39330426c?width=1508",
            "Modern Architecture Project", NotStarted, "row-span-1"),
    Project(8, "https://api.builder.io/api/v1/image/assets/TEMP/d518f420912b96bdf68aaefa119c10e65e63c896?width=2988",
            "American Modern Home", Completed, "col-span-2 row-span-1")
  ]

  /** The ids of a list of records, in order (the grid's `key`s). */
  function Ids(ps: seq<Project>): (ids: seq<nat>)
    ensures |ids| == |ps|
    ensures forall i :: 0 <= i < |ps| ==> ids[i] == ps[i].id
  {
    if ps == [] then [] else [ps[0].id] + Ids(ps[1..])
  }

  /** Under a status filter the callback keeps exactly the records of that status. */
  lemma KeepsStatus(s: Status, p: Project)
    ensures Keeps(Only(s), p) <==> p.status == s
  {
    LabelsDistinct(Only(p.status), Only(s));
  }

  /** One step of the status filter, stated on statuses rather than labels. */
  lemma FilterByStep(ps: seq<Project>, s: Status)
    requires ps != []
    ensures FilterBy(ps, Only(s)) ==
      if ps[0].status == s then [ps[0]] + FilterBy(ps[1..], Only(s)) else FilterBy(ps[1..], Only(s))
  {
    KeepsStatus(s, ps[0]);
  }

  /** The ids of the records of one status, oldest first. */
  function IdsWithStatus(ps: seq<Project>, s: Status): seq<nat> {
    if ps == [] then []
    else if ps[0].status == s then [ps[0].id] + IdsWithStatus(ps[1..], s)
    else IdsWithStatus(ps[1..], s)
  }

  /** The ids a status filter shows are the ids of the records of that status. */
  lemma {:induction false} FilterByIds(ps: seq<Project>, s: Status)
    ensures Ids(FilterBy(ps, Only(s))) == IdsWithStatus(ps, s)
  {
    if ps != [] {
      FilterByStep(ps, s);
      FilterByIds(ps[1..], s);
      if ps[0].status == s {
        assert ([ps[0]] + FilterBy(ps[1..], Only(s)))[1..] == FilterBy(ps[1..], Only(s));
      }
    }
  }

  /** The statuses of the catalogue, in order. */
  lemma CatalogueStatuses()
    ensures |Projects| == 8
    ensures forall i :: 0 <= i < 8 ==> Projects[i].id == i + 1
    ensures Projects[0].status == Projects[1].status == Projects[3].status
         == Projects[5].status == Projects[7].status == Completed
    ensures Projects[2].status == Projects[4].status == InProgress
    ensures Projects[6].status == NotStarted
  {
  }

  /** The catalogue's ids are 1 to 8, in order (distinct, as the grid's keys must be). */
  lemma CatalogueIds()
    ensures Ids(Projects) == [1, 2, 3, 4, 5, 6, 7, 8]
  {
    CatalogueStatuses();
  }

  /** The ids of the catalogue's records of each status. */
  lemma CatalogueIdsByStatus()
    ensures IdsWithStatus(Projects, Completed) == [1, 2, 4, 6, 8]
    ensures IdsWithStatus(Projects, InProgress) == [3, 5]
    ensures IdsWithStatus(Projects, NotStarted) == [7]
  {
    CatalogueStatuses();
    var p0 := Projects;
    var p1 := p0[1..]; var p2 := p1[1..]; var p3 := p2[1..]; var p4 := p3[1..];
    var p5 := p4[1..]; var p6 := p5[1..]; var p7 := p6[1..]; var p8 := p7[1..];
    assert p8 == [];
    assert p7[0] == Projects[7] && p6[0] == Projects[6] && p5[0] == Projects[5] && p4[0] == Projects[4];
    assert p3[0] == Projects[3] && p2[0] == Projects[2] && p1[0] == Projects[1];
  }

  /** On the fixed catalogue each filter shows exactly these records, and the
      three status counts add up to the eight records. */
  lemma CatalogueFilters()
    ensures Ids(FilteredProjects(All, Projects)) == [1, 2, 3, 4, 5, 6, 7, 8]
    ensures Ids(FilteredProjects(Only(Completed), Projects)) == [1, 2, 4, 6, 8]
    ensures Ids(FilteredProjects(Only(InProgress), Projects)) == [3, 5]
    ensures Ids(FilteredProjects(Only(NotStarted), Projects)) == [7]
    ensures |FilteredProjects(Only(Completed), Projects)| + |FilteredProjects(Only(InProgress), Projects)|
          + |FilteredProjects(Only(NotStarted), Projects)| == |Projects| == 8
  {
    CatalogueIds();
    CatalogueIdsByStatus();
    FilterByIds(Projects, Completed);
    FilterByIds(Projects, InProgress);
    FilterByIds(Projects, NotStarted);
    StatusesPartition(Projects);
  }

  /** The four filter buttons in page order, each with the filter its click handler sets. */
  const Buttons: seq<Filter> := [All, Only(Completed), Only(InProgress), Only(NotStarted)]

  /** The style test of button `i`: `activeFilter === "<its literal>"` picks the active style. */
  predicate ButtonActive(active: Filter, i: nat)
    requires i < |Buttons|
  {
    FilterLabel(active) == FilterLabel(Buttons[i])
  }

  /** The button owning a filter: it sets that filter and is the only one
      styled active while that filter is selected. */
  function ButtonFor(f: Filter): (i: nat)
    ensures i < |Buttons| && Buttons[i] == f
    ensures forall j :: 0 <= j < |Buttons| ==> (ButtonActive(f, j) <==> j == i)
  {
    match f
    case All => 0
    case Only(Completed) => 1
    case Only(InProgress) => 2
    case Only(NotStarted) => 3
  }

  /** The page's view state: the `activeFilter` cell. */
  class PortfolioView {
    var activeFilter: Filter

    /** `useState<FilterType>("all")`. */
    constructor ()
      ensures activeFilter == All
    {
      activeFilter := All;
    }

    /** The click handler of button `i`: sets the filter to the button's own
        literal, after which that button alone is styled active. */
    method Click(i: nat)
      requires i < |Buttons|
      modifies this
      ensures activeFilter == Buttons[i]
      ensures forall j :: 0 <= j < |Buttons| ==> (ButtonActive(activeFilter, j) <==> j == i)
    {
      activeFilter := Buttons[i];
      assert ButtonFor(activeFilter) == i;
    }

    /** The grid's contents for the current filter. */
    function Shown(): (r: seq<Project>)
      reads this
      ensures IsSubsequence(r, Projects) && |r| <= 8
    {
      FilterIsSubsequence(activeFilter, Projects);
      FilteredProjects(activeFilter, Projects)
    }
  }
}
