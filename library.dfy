/**
 * The video library: a fixed catalog of six entries, a case-insensitive
 * search ANDed with a level filter, one of five orderings (or none), the
 * download file name and the concept chips shown on each card.
 *
 * Ratings are in tenths (4.8 is 48) and dates are `YYYYMMDD` integers, which
 * order exactly as the calendar dates do.
 */
module Library {
  import opened Text

  datatype VideoItem = VideoItem(
    id: string,
    title: string,
    topic: string,
    level: string,
    duration: int,
    thumbnail: string,
    downloadUrl: string,
    rating: int,
    views: int,
    createdAt: int,
    concepts: seq<string>)

  const SampleVideos: seq<VideoItem> := [
    VideoItem("1", "Mathematical Spirals in Nature", "Mathematics", "high-school", 5,
      "https://images.pexels.com/photos/1181677/pexels-photo-1181677.jpeg?auto=compress&cs=tinysrgb&w=400",
      "/videos/spirals.mp4", 48, 1250, 20240115, ["Fibonacci", "Golden Ratio", "Spirals"]),
    VideoItem("2", "Calculus: Understanding Derivatives", "Calculus", "college", 7,
      "https://images.pexels.com/photos/6238297/pexels-photo-6238297.jpeg?auto=compress&cs=tinysrgb&w=400",
      "/videos/derivatives.mp4", 46, 890, 20240112, ["Derivatives", "Limits", "Functions"]),
    VideoItem("3", "Linear Algebra: Matrix Transformations", "Linear Algebra", "college", 6,
      "https://images.pexels.com/photos/8386440/pexels-photo-8386440.jpeg?auto=compress&cs=tinysrgb&w=400",
      "/videos/matrices.mp4", 49, 2100, 20240110, ["Matrices", "Transformations", "Vectors"]),
    VideoItem("4", "Physics: Wave Mechanics", "Physics", "high-school", 4,
      "https://images.pexels.com/photos/1181677/pexels-photo-1181677.jpeg?auto=compress&cs=tinysrgb&w=400",
      "/videos/waves.mp4", 47, 1560, 20240108, ["Waves", "Frequency", "Amplitude"]),
    VideoItem("5", "Statistics: Probability Distributions", "Statistics", "college", 8,
      "https://images.pexels.com/photos/590022/pexels-photo-590022.jpeg?auto=compress&cs=tinysrgb&w=400",
      "/videos/probability.mp4", 45, 750, 20240105, ["Probability", "Distributions", "Statistics"]),
    VideoItem("6", "Geometry: Pythagorean Theorem", "Geometry", "middle-school", 3,
      "https://images.pexels.com/photos/6238297/pexels-photo-6238297.jpeg?auto=compress&cs=tinysrgb&w=400",
      "/videos/pythagoras.mp4", 48, 3200, 20240103, ["Triangles", "Theorem", "Geometry"])
  ]

  // ---------------------------------------------------------------------------
  // Filter

  /** `concepts.some(concept => concept.toLowerCase().includes(t))`, with `t` already lower-cased. */
  function AnyConceptMatches(cs: seq<string>, t: string): (r: bool)
    ensures r <==> exists i :: 0 <= i < |cs| && Contains(ToLower(cs[i]), t)
  {
    if cs == [] then false
    else Contains(ToLower(cs[0]), t) || AnyConceptMatches(cs[1..], t)
  }

  /** The search term occurs, ignoring case, in the title, the topic or a concept. */
  predicate MatchesSearch(v: VideoItem, term: string) {
    var t := ToLower(term);
    Contains(ToLower(v.title), t) || Contains(ToLower(v.topic), t) || AnyConceptMatches(v.concepts, t)
  }

  /** The level filter is "all" or names the entry's level. */
  predicate MatchesLevel(v: VideoItem, filterLevel: string) {
    filterLevel == "all" || v.level == filterLevel
  }

  predicate Keep(v: VideoItem, term: string, filterLevel: string) {
    MatchesSearch(v, term) && MatchesLevel(v, filterLevel)
  }

  /** `r` is `s` with some elements left out and the rest in their order. */
  predicate Subsequence<T(==)>(r: seq<T>, s: seq<T>)
    decreases |s|
  {
    r == [] || (s != [] && ((r[0] == s[0] && Subsequence(r[1..], s[1..])) || Subsequence(r, s[1..])))
  }

  /** The `filter` stage: the entries kept are exactly those matching both conditions, in catalog order. */
  function FilterVideos(vs: seq<VideoItem>, term: string, filterLevel: string): (r: seq<VideoItem>)
    ensures |r| <= |vs|
    ensures forall x :: x in r <==> x in vs && Keep(x, term, filterLevel)
    ensures Subsequence(r, vs)
  {
    if vs == [] then []
    else if Keep(vs[0], term, filterLevel) then [vs[0]] + FilterVideos(vs[1..], term, filterLevel)
    else FilterVideos(vs[1..], term, filterLevel)
  }

  /** Filtering what was already filtered changes nothing. */
  lemma {:induction false} FilterIdempotent(vs: seq<VideoItem>, term: string, filterLevel: string)
    ensures FilterVideos(FilterVideos(vs, term, filterLevel), term, filterLevel) == FilterVideos(vs, term, filterLevel)
  {
    if vs != [] {
      FilterIdempotent(vs[1..], term, filterLevel);
      if Keep(vs[0], term, filterLevel) {
        var r := FilterVideos(vs, term, filterLevel);
        assert r[0] == vs[0] && r[1..] == FilterVideos(vs[1..], term, filterLevel);
      }
    }
  }

  /** An empty search with level "all" keeps every entry. */
  lemma {:induction false} FilterNothing(vs: seq<VideoItem>)
    ensures FilterVideos(vs, "", "all") == vs
  {
    if vs != [] {
      ContainsEmpty(ToLower(vs[0].title));
      FilterNothing(vs[1..]);
    }
  }

  // ---------------------------------------------------------------------------
  // Sort

  /** The five orderings of the sort menu, and any other value of `sortBy`. */
  datatype SortChoice = Newest | Oldest | ByRating | ByViews | ByDuration | Unsorted

  /** Which `case` of the comparator's `switch` a `sortBy` value selects. */
  function ChoiceOf(sortBy: string): (c: SortChoice)
    ensures c == Unsorted <==> sortBy !in {"newest", "oldest", "rating", "views", "duration"}
  {
    if sortBy == "newest" then Newest
    else if sortBy == "oldest" then Oldest
    else if sortBy == "rating" then ByRating
    else if sortBy == "views" then ByViews
    else if sortBy == "duration" then ByDuration
    else Unsorted
  }

  /**
   * The `sort` comparator.  The source subtracts the two dates' millisecond
   * timestamps; subtracting `YYYYMMDD` values has the same sign, which is all
   * that sorting looks at.
   */
  function Compare(c: SortChoice, a: VideoItem, b: VideoItem): int {
    match c
    case Newest => b.createdAt - a.createdAt
    case Oldest => a.createdAt - b.createdAt
    case ByRating => b.rating - a.rating
    case ByViews => b.views - a.views
    case ByDuration => a.duration - b.duration
    case Unsorted => 0
  }

  /** The ascending key the comparator compares by. */
  function SortKey(c: SortChoice, v: VideoItem): int {
    match c
    case Newest => -v.createdAt
    case Oldest => v.createdAt
    case ByRating => -v.rating
    case ByViews => -v.views
    case ByDuration => v.duration
    case Unsorted => 0
  }

  /** Every comparator is the difference of the keys, so it orders by the key. */
  lemma CompareIsKeyDifference(c: SortChoice, a: VideoItem, b: VideoItem)
    ensures Compare(c, a, b) == SortKey(c, a) - SortKey(c, b)
  {
  }

  predicate SortedByKey(c: SortChoice, s: seq<VideoItem>) {
    forall i, j :: 0 <= i < j < |s| ==> SortKey(c, s[i]) <= SortKey(c, s[j])
  }

  /** Places `x` before the first element it does not compare after. */
  function Insert(c: SortChoice, x: VideoItem, s: seq<VideoItem>): (r: seq<VideoItem>)
    ensures |r| == |s| + 1
  {
    if s == [] || Compare(c, x, s[0]) <= 0 then [x] + s
    else [s[0]] + Insert(c, x, s[1..])
  }

  /** Inserting adds `x` and nothing else. */
  lemma {:induction false} InsertAddsOne(c: SortChoice, x: VideoItem, s: seq<VideoItem>)
    ensures multiset(Insert(c, x, s)) == multiset(s) + multiset{x}
    ensures forall y :: y in Insert(c, x, s) <==> y == x || y in s
  {
    if s != [] && Compare(c, x, s[0]) > 0 {
      InsertAddsOne(c, x, s[1..]);
      assert s == [s[0]] + s[1..];
    }
  }

  /** Inserting into a sorted list keeps it sorted. */
  lemma {:induction false} InsertSorted(c: SortChoice, x: VideoItem, s: seq<VideoItem>)
    requires SortedByKey(c, s)
    ensures SortedByKey(c, Insert(c, x, s))
  {
    if s != [] && Compare(c, x, s[0]) > 0 {
      InsertSorted(c, x, s[1..]);
      InsertAddsOne(c, x, s[1..]);
      var r := Insert(c, x, s);
      var t := Insert(c, x, s[1..]);
      assert r == [s[0]] + t;
      forall j | 0 < j < |r|
        ensures SortKey(c, r[0]) <= SortKey(c, r[j])
      {
        assert r[j] == t[j - 1] && t[j - 1] in t;
        if r[j] != x {
          var m :| 0 <= m < |s[1..]| && s[1..][m] == r[j];
          assert s[m + 1] == r[j];
        }
      }
    }
  }

  /**
   * Array.prototype.sort with the comparator: a stable sort, here an
   * insertion sort that keeps equal entries in their given order.
   */
  function SortVideos(c: SortChoice, s: seq<VideoItem>): (r: seq<VideoItem>)
    ensures |r| == |s|
  {
    if s == [] then [] else Insert(c, s[0], SortVideos(c, s[1..]))
  }

  /** The sorted list is a permutation of its input, ordered by the key. */
  lemma {:induction false} SortIsSortedPermutation(c: SortChoice, s: seq<VideoItem>)
    ensures multiset(SortVideos(c, s)) == multiset(s)
    ensures SortedByKey(c, SortVideos(c, s))
  {
    if s != [] {
      SortIsSortedPermutation(c, s[1..]);
      InsertAddsOne(c, s[0], SortVideos(c, s[1..]));
      InsertSorted(c, s[0], SortVideos(c, s[1..]));
      assert s == [s[0]] + s[1..];
    }
  }

  /** The entries of `s` whose key is `k`, in order. */
  function WithKey(c: SortChoice, s: seq<VideoItem>, k: int): seq<VideoItem> {
    if s == [] then []
    else if SortKey(c, s[0]) == k then [s[0]] + WithKey(c, s[1..], k)
    else WithKey(c, s[1..], k)
  }

  lemma {:induction false} InsertWithKey(c: SortChoice, x: VideoItem, s: seq<VideoItem>, k: int)
    ensures WithKey(c, Insert(c, x, s), k)
      == if SortKey(c, x) == k then [x] + WithKey(c, s, k) else WithKey(c, s, k)
  {
    var r := Insert(c, x, s);
    if s == [] || Compare(c, x, s[0]) <= 0 {
      assert r[0] == x && r[1..] == s;
    } else {
      InsertWithKey(c, x, s[1..], k);
      assert r[0] == s[0] && r[1..] == Insert(c, x, s[1..]);
    }
  }

  /** The sort is stable: entries with equal keys keep their relative order. */
  lemma {:induction false} SortStable(c: SortChoice, s: seq<VideoItem>, k: int)
    ensures WithKey(c, SortVideos(c, s), k) == WithKey(c, s, k)
  {
    if s != [] {
      SortStable(c, s[1..], k);
      InsertWithKey(c, s[0], SortVideos(c, s[1..]), k);
    }
  }

  /** An unknown key compares everything equal, and the order is kept as it is. */
  lemma {:induction false} SortUnknownKeepsOrder(c: SortChoice, s: seq<VideoItem>)
    requires c == Unsorted
    ensures SortVideos(c, s) == s
  {
    if s != [] {
      SortUnknownKeepsOrder(c, s[1..]);
      assert s == [s[0]] + s[1..];
    }
  }

  /** What order each of the five keys produces, stated on the entries' own fields. */
  lemma SortOrders(c: SortChoice, s: seq<VideoItem>, i: nat, j: nat)
    requires i < j < |s|
    ensures var r := SortVideos(c, s);
      && (c == Newest ==> r[i].createdAt >= r[j].createdAt)
      && (c == Oldest ==> r[i].createdAt <= r[j].createdAt)
      && (c == ByRating ==> r[i].rating >= r[j].rating)
      && (c == ByViews ==> r[i].views >= r[j].views)
      && (c == ByDuration ==> r[i].duration <= r[j].duration)
  {
    SortIsSortedPermutation(c, s);
    var r := SortVideos(c, s);
    assert SortKey(c, r[i]) <= SortKey(c, r[j]);
  }

  /** `filteredVideos`: the filter, then the sort. */
  function FilteredVideos(term: string, filterLevel: string, sortBy: string): (r: seq<VideoItem>)
    ensures |r| <= |SampleVideos|
    ensures forall x :: x in r <==> x in SampleVideos && Keep(x, term, filterLevel)
  {
    var kept := FilterVideos(SampleVideos, term, filterLevel);
    var r := SortVideos(ChoiceOf(sortBy), kept);
    SortIsSortedPermutation(ChoiceOf(sortBy), kept);
    assert forall x :: x in r <==> x in multiset(r);
    assert forall x :: x in kept <==> x in multiset(kept);
    r
  }

  // ---------------------------------------------------------------------------
  // Download name and concept chips

  /** The name an entry is downloaded under: `<slug of title>.mp4`. */
  function DownloadName(v: VideoItem): string {
    SlugFileName(v.title, ".mp4")
  }

  /** The link of `handleDownload`: the entry's URL and its file name. */
  function DownloadLink(v: VideoItem): (r: (string, string))
    ensures r.0 == v.downloadUrl
    ensures |r.1| == |Slug(v.title)| + 4
    ensures NoSpace(r.1) && NoUpper(r.1) && r.1[|r.1| - 4..] == ".mp4"
    ensures r.1[..|Slug(v.title)|] == Slug(v.title)
  {
    (v.downloadUrl, DownloadName(v))
  }

  /** The chips on a card: the first three concepts, or all of them when there are fewer. */
  function ShownConcepts(cs: seq<string>): (r: seq<string>)
    ensures |r| <= 3 && r <= cs
    ensures |r| == 3 || r == cs
  {
    if |cs| <= 3 then cs else cs[..3]
  }

  /** The "+n" chip, present exactly when some concepts are not shown. */
  function MoreChip(cs: seq<string>): (r: Option<string>)
    ensures r.Some? <==> |cs| > 3
    ensures r.Some? ==> |r.value| > 1 && r.value[0] == '+' && ParseDigits(r.value[1..]) + |ShownConcepts(cs)| == |cs|
  {
    if |cs| > 3 then Some("+" + IntToString(|cs| - 3)) else None
  }

}
