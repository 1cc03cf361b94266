/** The static catalogue of server software shown by the version selector:
    the software types with their versions, the download URLs that exist for
    some of those versions, the search-and-category filter with its ordering
    by popularity, and the per-category counts. Display-only fields (icons,
    colours, features, last update) are not part of the model. */
module Catalog {
  import opened Js

  datatype Category = Minecraft | Proxy | Modded | Other

  /** The category selection: every category, or exactly one. */
  datatype CategoryFilter = All | Only(category: Category)

  datatype ServerType = ServerType(
    id: string,
    name: string,
    description: string,
    versions: seq<string>,
    category: Category,
    popularity: int)

  const PaperDescription := "High performance Minecraft server with advanced optimizations and plugin support"
  const NeoForgeDescription := "Modern Minecraft modding platform forked from Forge with enhanced features"
  const ArchlightDescription := "High-performance Minecraft server software with advanced optimization features"
  const ForgeDescription := "Powerful Minecraft modding platform with extensive mod compatibility"
  const FabricDescription := "Lightweight and fast modding toolchain for modern Minecraft versions"
  const VelocityDescription := "Next-generation Minecraft proxy with superior performance and security"
  const PurpurDescription := "Feature-rich Paper fork with extensive customization and performance improvements"
  const MohistDescription := "Hybrid Minecraft server combining Forge mods with Bukkit plugins"

  const Paper := ServerType("paper", "Paper",
    PaperDescription,
    ["1.20.4", "1.20.3", "1.20.2", "1.20.1", "1.19.4", "1.19.3"], Minecraft, 95)
  const NeoForge := ServerType("neoforge", "Neo Forge",
    NeoForgeDescription,
    ["1.20.4", "1.20.3", "1.20.2", "1.20.1", "1.19.4", "1.19.3"], Modded, 88)
  const Archlight := ServerType("archlight", "Archlight",
    ArchlightDescription,
    ["1.20.4", "1.20.3", "1.20.2", "1.20.1", "1.19.4"], Minecraft, 75)
  const Forge := ServerType("forge", "Forge",
    ForgeDescription,
    ["1.20.4", "1.20.2", "1.19.4", "1.19.2", "1.18.2"], Modded, 92)
  const Fabric := ServerType("fabric", "Fabric",
    FabricDescription,
    ["1.20.4", "1.20.3", "1.20.2", "1.20.1", "1.19.4"], Modded, 85)
  const Velocity := ServerType("velocity", "Velocity",
    VelocityDescription,
    ["3.2.0", "3.1.2", "3.1.1", "3.0.1"], Proxy, 78)
  const Purpur := ServerType("purpur", "Purpur",
    PurpurDescription,
    ["1.20.4", "1.20.3", "1.20.2", "1.20.1", "1.19.4"], Minecraft, 82)
  const Mohist := ServerType("mohist", "Mohist",
    MohistDescription,
    ["1.20.2", "1.20.1", "1.19.4", "1.19.2", "1.18.2", "1.16.5", "1.12.2", "1.7.10"], Modded, 65)

  /** The catalogue, in the order it is declared. */
  const ServerTypes: seq<ServerType> := [Paper, NeoForge, Archlight, Forge, Fabric, Velocity, Purpur, Mohist]

  /** Download URLs by software id and version; only Mohist has any. */
  const DownloadUrls: map<string, map<string, string>> := map[
    "mohist" := map[
      "1.20.2" := "https://s3.mcjars.app/mohist/1.20.2/1.20.2-1b280342/server.jar",
      "1.20.1" := "https://s3.mcjars.app/mohist/1.20.1/1.20.1-b562929a/server.jar",
      "1.19.4" := "https://s3.mcjars.app/mohist/1.19.4/1.19.4-c1f9ddbf/server.jar",
      "1.19.2" := "https://s3.mcjars.app/mohist/1.19.2/1.19.2-acf34325/server.jar",
      "1.18.2" := "https://s3.mcjars.app/mohist/1.18.2/1.18.2-ffc4df93/server.jar",
      "1.16.5" := "https://s3.mcjars.app/mohist/1.16.5/1.16.5-044418da/server.jar",
      "1.12.2" := "https://s3.mcjars.app/mohist/1.12.2/1.12.2-2bfa4f6d/server.jar",
      "1.7.10" := "https://s3.mcjars.app/mohist/1.7.10/1.7.10-de68ad73/server.jar"
    ]
  ]

  const MohistVersions: set<string> :=
    {"1.20.2", "1.20.1", "1.19.4", "1.19.2", "1.18.2", "1.16.5", "1.12.2", "1.7.10"}

  /** `downloadUrls[serverType]?.[version]`: undefined when either key is missing. */
  function DownloadUrl(serverType: string, version: string): Option<string> {
    if serverType in DownloadUrls && version in DownloadUrls[serverType]
    then Some(DownloadUrls[serverType][version])
    else None
  }

  /** A URL exists exactly for the eight Mohist versions, and every URL is a
      non-empty string, so the truthiness test the code applies coincides with
      presence. */
  lemma DownloadUrlAvailability(serverType: string, version: string)
    ensures DownloadUrl(serverType, version).Some? <==> serverType == "mohist" && version in MohistVersions
    ensures Truthy(DownloadUrl(serverType, version)) <==> DownloadUrl(serverType, version).Some?
  {
    assert DownloadUrls.Keys == {"mohist"};
    assert DownloadUrls["mohist"].Keys == MohistVersions;
    if DownloadUrl(serverType, version).Some? {
      var urls := DownloadUrls["mohist"];
      assert |urls["1.20.2"]| > 0 && |urls["1.20.1"]| > 0 && |urls["1.19.4"]| > 0 && |urls["1.19.2"]| > 0;
      assert |urls["1.18.2"]| > 0 && |urls["1.16.5"]| > 0 && |urls["1.12.2"]| > 0 && |urls["1.7.10"]| > 0;
    }
  }

  /** Of all the versions the catalogue lists, exactly the Mohist ones can be
      downloaded: every Mohist version has a URL, no other software has one. */
  lemma InstallableVersions()
    ensures forall s, v :: s in ServerTypes && v in s.versions ==>
              (Truthy(DownloadUrl(s.id, v)) <==> s.id == "mohist")
  {
    forall s, v | s in ServerTypes && v in s.versions
      ensures Truthy(DownloadUrl(s.id, v)) <==> s.id == "mohist"
    {
      DownloadUrlAvailability(s.id, v);
      if s.id == "mohist" {
        assert s == ServerTypes[7];
      }
    }
  }

  // ---------------------------------------------------------------------
  // filter and order

  /** The search test: the lowercased name or description contains the
      lowercased term. */
  predicate MatchesSearch(s: ServerType, term: string) {
    Includes(Lower(s.name), Lower(term)) || Includes(Lower(s.description), Lower(term))
  }

  predicate MatchesCategory(s: ServerType, selected: CategoryFilter) {
    selected.All? || s.category == selected.category
  }

  predicate Descending(s: seq<ServerType>) {
    forall i, j :: 0 <= i < j < |s| ==> s[i].popularity >= s[j].popularity
  }

  /** Inserts `x` in front of the first entry that is not more popular than it. */
  function InsertByPopularity(x: ServerType, s: seq<ServerType>): (r: seq<ServerType>)
    requires Descending(s)
    ensures Descending(r)
    ensures multiset(r) == multiset(s) + multiset{x}
    ensures r[0] == x || (s != [] && r[0] == s[0])
    decreases |s|
  {
    if s == [] || x.popularity >= s[0].popularity then [x] + s
    else
      var rest := InsertByPopularity(x, s[1..]);
      assert rest[0].popularity <= s[0].popularity;
      assert Descending([s[0]] + rest) by {
        forall i, j | 0 <= i < j < |rest| + 1 ensures ([s[0]] + rest)[i].popularity >= ([s[0]] + rest)[j].popularity {
          if i == 0 && j > 1 {
            assert rest[0].popularity >= rest[j - 1].popularity;
          }
        }
      }
      assert s == [s[0]] + s[1..];
      [s[0]] + rest
  }

  /** `.sort((a, b) => b.popularity - a.popularity)`: a stable insertion sort,
      most popular first. */
  function SortByPopularity(s: seq<ServerType>): (r: seq<ServerType>)
    ensures Descending(r)
    ensures multiset(r) == multiset(s)
    decreases |s|
  {
    if s == [] then []
    else
      assert s == [s[0]] + s[1..];
      InsertByPopularity(s[0], SortByPopularity(s[1..]))
  }

  /** The filter-and-sort expression over a list of entries: exactly the
      entries that match the search and the category, each as often as in the
      list, most popular first. */
  function FilterAndSort(types: seq<ServerType>, term: string, selected: CategoryFilter): (r: seq<ServerType>)
    ensures Descending(r)
    ensures forall s :: s in r <==> s in types && MatchesSearch(s, term) && MatchesCategory(s, selected)
    ensures multiset(r) == multiset(Filter(types, s => MatchesSearch(s, term) && MatchesCategory(s, selected)))
  {
    var kept := Filter(types, s => MatchesSearch(s, term) && MatchesCategory(s, selected));
    var r := SortByPopularity(kept);
    assert forall s :: s in r <==> s in multiset(kept);
    r
  }

  /** The list the selector shows for a search term and a category selection. */
  function FilteredServers(term: string, selected: CategoryFilter): (r: seq<ServerType>)
    ensures Descending(r)
    ensures forall s :: s in r <==> s in ServerTypes && MatchesSearch(s, term) && MatchesCategory(s, selected)
    ensures multiset(r) == multiset(Filter(ServerTypes, s => MatchesSearch(s, term) && MatchesCategory(s, selected)))
  {
    FilterAndSort(ServerTypes, term, selected)
  }

  // ---------------------------------------------------------------------
  // category counts

  /** The count of a category over a list of entries: all entries for `all`,
      the entries of that category otherwise. */
  function CountIn(types: seq<ServerType>, selected: CategoryFilter): nat {
    match selected
    case All => |types|
    case Only(c) => |Filter(types, (s: ServerType) => s.category == c)|
  }

  /** The count shown on each category button. */
  function CategoryCount(selected: CategoryFilter): nat {
    CountIn(ServerTypes, selected)
  }

  /** An empty search term matches every entry. */
  lemma EmptySearchMatches(s: ServerType)
    ensures MatchesSearch(s, "")
  {
    assert Lower("") == "";
    IncludesEmpty(Lower(s.name));
  }

  /** With an empty search, a category's count is the length of the list
      shown for it. */
  lemma CountIsListLengthIn(types: seq<ServerType>, selected: CategoryFilter)
    ensures CountIn(types, selected) == |FilterAndSort(types, "", selected)|
  {
    var p := s => MatchesSearch(s, "") && MatchesCategory(s, selected);
    forall i | 0 <= i < |types| ensures MatchesSearch(types[i], "") {
      EmptySearchMatches(types[i]);
    }
    var kept := Filter(types, p);
    assert |FilterAndSort(types, "", selected)| == |multiset(kept)| == |kept|;
    match selected {
      case All =>
        FilterKeepsAll(types, p);
      case Only(c) =>
        FilterSamePredicate(types, p, (s: ServerType) => s.category == c);
    }
  }

  /** The number on each category button is the number of entries the list
      shows for that category while the search box is empty. */
  lemma CountIsListLength(selected: CategoryFilter)
    ensures CategoryCount(selected) == |FilteredServers("", selected)|
  {
    CountIsListLengthIn(ServerTypes, selected);
  }

  /** The counts on the category buttons. */
  lemma CategoryCounts()
    ensures CategoryCount(All) == 8
    ensures CategoryCount(Only(Minecraft)) == 3
    ensures CategoryCount(Only(Modded)) == 4
    ensures CategoryCount(Only(Proxy)) == 1
    ensures CategoryCount(Only(Other)) == 0
  {
    CountOf(Minecraft);
    CountOf(Modded);
    CountOf(Proxy);
    CountOf(Other);
  }

  lemma CatalogueCategories()
    ensures |ServerTypes| == 8
    ensures ServerTypes[0].category == Minecraft && ServerTypes[1].category == Modded
    ensures ServerTypes[2].category == Minecraft && ServerTypes[3].category == Modded
    ensures ServerTypes[4].category == Modded && ServerTypes[5].category == Proxy
    ensures ServerTypes[6].category == Minecraft && ServerTypes[7].category == Modded
  {
  }

  /** The count of one category, entry by entry. */
  lemma CountOf(c: Category)
    ensures CategoryCount(Only(c)) == (match c case Minecraft => 3 case Modded => 4 case Proxy => 1 case Other => 0)
  {
    CatalogueCategories();
    FilterLength8(ServerTypes, (s: ServerType) => s.category == c);
  }


  predicate StrictlyDescending(s: seq<ServerType>) {
    forall i, j :: 0 <= i < j < |s| ==> s[i].popularity > s[j].popularity
  }

  lemma TailDescending(s: seq<ServerType>)
    requires s != [] && Descending(s)
    ensures Descending(s[1..])
  {
    forall i, j | 0 <= i < j < |s| - 1 ensures s[1..][i].popularity >= s[1..][j].popularity {
      assert s[1..][i] == s[i + 1] && s[1..][j] == s[j + 1];
    }
  }

  lemma TailStrictlyDescending(s: seq<ServerType>)
    requires s != [] && StrictlyDescending(s)
    ensures StrictlyDescending(s[1..])
  {
    forall i, j | 0 <= i < j < |s| - 1 ensures s[1..][i].popularity > s[1..][j].popularity {
      assert s[1..][i] == s[i + 1] && s[1..][j] == s[j + 1];
    }
  }

  lemma TailMultiset<T>(a: seq<T>, b: seq<T>)
    requires a != [] && b != [] && a[0] == b[0] && multiset(a) == multiset(b)
    ensures multiset(a[1..]) == multiset(b[1..])
  {
    assert a == [a[0]] + a[1..];
    assert b == [b[0]] + b[1..];
    assert multiset(a[1..]) == multiset(a) - multiset{a[0]};
    assert multiset(b[1..]) == multiset(b) - multiset{a[0]};
  }

  /** A list ordered by descending popularity with no two entries equally
      popular is the only such ordering of its entries. */
  lemma {:induction false} DescendingUnique(a: seq<ServerType>, b: seq<ServerType>)
    requires StrictlyDescending(a) && Descending(b) && multiset(a) == multiset(b)
    ensures a == b
    decreases |a|
  {
    if a != [] {
      SameFirst(a, b);
      TailMultiset(a, b);
      TailStrictlyDescending(a);
      TailDescending(b);
      DescendingUnique(a[1..], b[1..]);
      assert a == [a[0]] + a[1..];
      assert b == [b[0]] + b[1..];
    }
  }

  /** Both lists start with the most popular entry. */
  lemma SameFirst(a: seq<ServerType>, b: seq<ServerType>)
    requires a != [] && StrictlyDescending(a) && Descending(b) && multiset(a) == multiset(b)
    ensures b != [] && a[0] == b[0]
  {
    assert |b| == |multiset(b)| == |a|;
    assert a[0] in multiset(b);
    var k :| 0 <= k < |b| && b[k] == a[0];
    assert b[0] in multiset(a);
    var m :| 0 <= m < |a| && a[m] == b[0];
    assert a[m].popularity == b[0].popularity >= b[k].popularity == a[0].popularity;
  }

  /** The shown list is determined by its contents: any list of the same
      entries ordered strictly by popularity is the list the selector shows. */
  lemma ShownOrderDetermined(term: string, selected: CategoryFilter, a: seq<ServerType>)
    requires StrictlyDescending(a)
    requires multiset(a) == multiset(Filter(ServerTypes, s => MatchesSearch(s, term) && MatchesCategory(s, selected)))
    ensures FilteredServers(term, selected) == a
  {
    DescendingUnique(a, FilteredServers(term, selected));
  }
}
