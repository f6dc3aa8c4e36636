/**
 * The library pipeline evaluated on the six-entry catalog: sorting by rating,
 * searching "matrix", and the unfiltered view.  Each computation is proved
 * once over arbitrary entries with the relevant fields, then instantiated
 * with the catalog.
 */
module CatalogExamples {
  import opened Text
  import opened Library

  // ---------------------------------------------------------------------------
  // Steps of the insertion sort and of the filter

  lemma SortCons(c: SortChoice, x: VideoItem, s: seq<VideoItem>)
    ensures SortVideos(c, [x] + s) == Insert(c, x, SortVideos(c, s))
  {
    assert ([x] + s)[1..] == s;
  }

  lemma InsertFront(c: SortChoice, x: VideoItem, s: seq<VideoItem>)
    requires s == [] || Compare(c, x, s[0]) <= 0
    ensures Insert(c, x, s) == [x] + s
  {
  }

  lemma InsertPast(c: SortChoice, x: VideoItem, y: VideoItem, s: seq<VideoItem>)
    requires Compare(c, x, y) > 0
    ensures Insert(c, x, [y] + s) == [y] + Insert(c, x, s)
  {
    assert ([y] + s)[1..] == s;
  }

  lemma FilterCons(x: VideoItem, vs: seq<VideoItem>, term: string, filterLevel: string)
    ensures FilterVideos([x] + vs, term, filterLevel)
      == if Keep(x, term, filterLevel) then [x] + FilterVideos(vs, term, filterLevel)
         else FilterVideos(vs, term, filterLevel)
  {
    assert ([x] + vs)[1..] == vs;
  }

  // ---------------------------------------------------------------------------
  // Sorting by rating: 4.9, 4.8, 4.8, 4.7, 4.6, 4.5, the two 4.8s in catalog order

  lemma Rating2(v5: VideoItem, v6: VideoItem)
    requires v5.rating == 45 && v6.rating == 48
    ensures SortVideos(ByRating, [v5, v6]) == [v6, v5]
  {
    SortCons(ByRating, v6, []);
    assert [v6] + [] == [v6];
    InsertFront(ByRating, v6, []);
    SortCons(ByRating, v5, [v6]);
    assert [v5] + [v6] == [v5, v6];
    InsertPast(ByRating, v5, v6, []);
    InsertFront(ByRating, v5, []);
  }

  lemma Rating3(v4: VideoItem, v5: VideoItem, v6: VideoItem)
    requires v4.rating == 47 && v5.rating == 45 && v6.rating == 48
    ensures SortVideos(ByRating, [v4, v5, v6]) == [v6, v4, v5]
  {
    Rating2(v5, v6);
    SortCons(ByRating, v4, [v5, v6]);
    assert [v4] + [v5, v6] == [v4, v5, v6];
    InsertPast(ByRating, v4, v6, [v5]);
    assert [v6] + [v5] == [v6, v5];
    InsertFront(ByRating, v4, [v5]);
  }

  lemma Rating4(v3: VideoItem, v4: VideoItem, v5: VideoItem, v6: VideoItem)
    requires v3.rating == 49 && v4.rating == 47 && v5.rating == 45 && v6.rating == 48
    ensures SortVideos(ByRating, [v3, v4, v5, v6]) == [v3, v6, v4, v5]
  {
    Rating3(v4, v5, v6);
    SortCons(ByRating, v3, [v4, v5, v6]);
    assert [v3] + [v4, v5, v6] == [v3, v4, v5, v6];
    InsertFront(ByRating, v3, [v6, v4, v5]);
  }

  lemma Rating5(v2: VideoItem, v3: VideoItem, v4: VideoItem, v5: VideoItem, v6: VideoItem)
    requires v2.rating == 46 && v3.rating == 49 && v4.rating == 47 && v5.rating == 45 && v6.rating == 48
    ensures SortVideos(ByRating, [v2, v3, v4, v5, v6]) == [v3, v6, v4, v2, v5]
  {
    Rating4(v3, v4, v5, v6);
    SortCons(ByRating, v2, [v3, v4, v5, v6]);
    assert [v2] + [v3, v4, v5, v6] == [v2, v3, v4, v5, v6];
    InsertPast(ByRating, v2, v3, [v6, v4, v5]);
    InsertPast(ByRating, v2, v6, [v4, v5]);
    InsertPast(ByRating, v2, v4, [v5]);
    InsertFront(ByRating, v2, [v5]);
    assert [v3] + ([v6] + ([v4] + ([v2] + [v5]))) == [v3, v6, v4, v2, v5];
    assert [v3] + [v6, v4, v5] == [v3, v6, v4, v5] && [v6] + [v4, v5] == [v6, v4, v5] && [v4] + [v5] == [v4, v5];
  }

  lemma Rating6(v1: VideoItem, v2: VideoItem, v3: VideoItem, v4: VideoItem, v5: VideoItem, v6: VideoItem)
    requires v1.rating == 48 && v2.rating == 46 && v3.rating == 49
    requires v4.rating == 47 && v5.rating == 45 && v6.rating == 48
    ensures SortVideos(ByRating, [v1, v2, v3, v4, v5, v6]) == [v3, v1, v6, v4, v2, v5]
  {
    Rating5(v2, v3, v4, v5, v6);
    SortCons(ByRating, v1, [v2, v3, v4, v5, v6]);
    assert [v1] + [v2, v3, v4, v5, v6] == [v1, v2, v3, v4, v5, v6];
    InsertPast(ByRating, v1, v3, [v6, v4, v2, v5]);
    InsertFront(ByRating, v1, [v6, v4, v2, v5]);
    assert [v3] + [v6, v4, v2, v5] == [v3, v6, v4, v2, v5];
    assert [v3] + ([v1] + [v6, v4, v2, v5]) == [v3, v1, v6, v4, v2, v5];
  }

  /** The catalog sorted by rating: ids 3, 1, 6, 4, 2, 5; id 1 precedes id 6 on their tie. */
  lemma CatalogByRating()
    ensures var r := SortVideos(ByRating, SampleVideos);
      && r == [SampleVideos[2], SampleVideos[0], SampleVideos[5], SampleVideos[3], SampleVideos[1], SampleVideos[4]]
      && [r[0].rating, r[1].rating, r[2].rating, r[3].rating, r[4].rating, r[5].rating] == [49, 48, 48, 47, 46, 45]
      && r[1].id == "1" && r[2].id == "6"
  {
    var s := SampleVideos;
    assert s == [s[0], s[1], s[2], s[3], s[4], s[5]];
    Rating6(s[0], s[1], s[2], s[3], s[4], s[5]);
  }

  // ---------------------------------------------------------------------------
  // Searching "matrix"

  /** No 'x' in either case. */
  predicate NoX(s: string) {
    forall i :: 0 <= i < |s| ==> s[i] != 'x' && s[i] != 'X'
  }

  lemma LowerNoX(s: string)
    requires NoX(s)
    ensures 'x' !in ToLower(s)
  {
  }

  /** A "matrix" search misses an entry none of whose texts has an 'x'. */
  lemma NotMatrixFields(v: VideoItem)
    requires NoX(v.title) && NoX(v.topic)
    requires forall i :: 0 <= i < |v.concepts| ==> NoX(v.concepts[i])
    ensures !MatchesSearch(v, "matrix")
  {
    assert ToLower("matrix") == "matrix";
    LowerNoX(v.title);
    MissingCharNotContained(ToLower(v.title), "matrix", 'x');
    LowerNoX(v.topic);
    MissingCharNotContained(ToLower(v.topic), "matrix", 'x');
    forall i | 0 <= i < |v.concepts|
      ensures !Contains(ToLower(v.concepts[i]), "matrix")
    {
      LowerNoX(v.concepts[i]);
      MissingCharNotContained(ToLower(v.concepts[i]), "matrix", 'x');
    }
  }

  /** The same, for an entry with three concepts given as strings. */
  lemma NotMatrix(v: VideoItem, title: string, topic: string, c1: string, c2: string, c3: string)
    requires v.title == title && v.topic == topic && v.concepts == [c1, c2, c3]
    requires NoX(title) && NoX(topic) && NoX(c1) && NoX(c2) && NoX(c3)
    ensures !MatchesSearch(v, "matrix")
  {
    NotMatrixFields(v);
  }

  /** A "matrix" search finds an entry whose title has "Matrix" in it. */
  lemma TitleHasMatrix(v: VideoItem, pre: string, post: string)
    requires v.title == pre + "Matrix" + post
    ensures MatchesSearch(v, "matrix")
  {
    assert ToLower("matrix") == "matrix" && ToLower("Matrix") == "matrix";
    ToLowerAppend(pre + "Matrix", post);
    ToLowerAppend(pre, "Matrix");
    var a, b := ToLower(pre), ToLower(post);
    OccursMiddle(a, "matrix", b);
    ContainsIff(ToLower(v.title), "matrix");
  }

  lemma Entry1Misses()
    ensures !Keep(SampleVideos[0], "matrix", "all")
  {
    assert SampleVideos[0].title == "Mathematical Spirals in Nature" && SampleVideos[0].topic == "Mathematics";
    assert SampleVideos[0].concepts == ["Fibonacci", "Golden Ratio", "Spirals"];
    Entry1Texts();
    NotMatrix(SampleVideos[0], "Mathematical Spirals in Nature", "Mathematics", "Fibonacci", "Golden Ratio", "Spirals");
  }

  lemma Entry1Texts()
    ensures NoX("Mathematical Spirals in Nature") && NoX("Mathematics")
    ensures NoX("Fibonacci") && NoX("Golden Ratio") && NoX("Spirals")
  {
  }

  lemma Entry2Misses()
    ensures !Keep(SampleVideos[1], "matrix", "all")
  {
    assert SampleVideos[1].title == "Calculus: Understanding Derivatives" && SampleVideos[1].topic == "Calculus";
    assert SampleVideos[1].concepts == ["Derivatives", "Limits", "Functions"];
    Entry2Texts();
    NotMatrix(SampleVideos[1], "Calculus: Understanding Derivatives", "Calculus", "Derivatives", "Limits", "Functions");
  }

  lemma Entry2Texts()
    ensures NoX("Calculus: Understanding Derivatives") && NoX("Calculus")
    ensures NoX("Derivatives") && NoX("Limits") && NoX("Functions")
  {
  }

  lemma Entry3Matches()
    ensures Keep(SampleVideos[2], "matrix", "all")
  {
    assert SampleVideos[2].title == "Linear Algebra: " + "Matrix" + " Transformations";
    TitleHasMatrix(SampleVideos[2], "Linear Algebra: ", " Transformations");
  }

  lemma Entry4Misses()
    ensures !Keep(SampleVideos[3], "matrix", "all")
  {
    assert SampleVideos[3].title == "Physics: Wave Mechanics" && SampleVideos[3].topic == "Physics";
    assert SampleVideos[3].concepts == ["Waves", "Frequency", "Amplitude"];
    Entry4Texts();
    NotMatrix(SampleVideos[3], "Physics: Wave Mechanics", "Physics", "Waves", "Frequency", "Amplitude");
  }

  lemma Entry4Texts()
    ensures NoX("Physics: Wave Mechanics") && NoX("Physics")
    ensures NoX("Waves") && NoX("Frequency") && NoX("Amplitude")
  {
  }

  lemma Entry5Misses()
    ensures !Keep(SampleVideos[4], "matrix", "all")
  {
    assert SampleVideos[4].title == "Statistics: Probability Distributions" && SampleVideos[4].topic == "Statistics";
    assert SampleVideos[4].concepts == ["Probability", "Distributions", "Statistics"];
    Entry5Texts();
    NotMatrix(SampleVideos[4], "Statistics: Probability Distributions", "Statistics", "Probability", "Distributions", "Statistics");
  }

  lemma Entry5Texts()
    ensures NoX("Statistics: Probability Distributions") && NoX("Statistics")
    ensures NoX("Probability") && NoX("Distributions")
  {
  }

  lemma Entry6Misses()
    ensures !Keep(SampleVideos[5], "matrix", "all")
  {
    assert SampleVideos[5].title == "Geometry: Pythagorean Theorem" && SampleVideos[5].topic == "Geometry";
    assert SampleVideos[5].concepts == ["Triangles", "Theorem", "Geometry"];
    Entry6Texts();
    NotMatrix(SampleVideos[5], "Geometry: Pythagorean Theorem", "Geometry", "Triangles", "Theorem", "Geometry");
  }

  lemma Entry6Texts()
    ensures NoX("Geometry: Pythagorean Theorem") && NoX("Geometry")
    ensures NoX("Triangles") && NoX("Theorem")
  {
  }

  /** Filtering six entries of which only the third is kept. */
  lemma FilterKeepsThird(vs: seq<VideoItem>, term: string, filterLevel: string)
    requires |vs| == 6
    requires !Keep(vs[0], term, filterLevel) && !Keep(vs[1], term, filterLevel) && Keep(vs[2], term, filterLevel)
    requires !Keep(vs[3], term, filterLevel) && !Keep(vs[4], term, filterLevel) && !Keep(vs[5], term, filterLevel)
    ensures FilterVideos(vs, term, filterLevel) == [vs[2]]
  {
    assert vs[5..][1..] == [];
    assert FilterVideos(vs[5..], term, filterLevel) == [];
    assert vs[4..][1..] == vs[5..];
    assert FilterVideos(vs[4..], term, filterLevel) == [];
    assert vs[3..][1..] == vs[4..];
    assert FilterVideos(vs[3..], term, filterLevel) == [];
    assert vs[2..][1..] == vs[3..];
    assert FilterVideos(vs[2..], term, filterLevel) == [vs[2]];
    assert vs[1..][1..] == vs[2..];
    assert FilterVideos(vs[1..], term, filterLevel) == [vs[2]];
  }

  /** On the catalog, a "matrix" search over all levels keeps entry 3 alone. */
  lemma CatalogMatrix()
    ensures FilterVideos(SampleVideos, "matrix", "all") == [SampleVideos[2]]
    ensures SampleVideos[2].id == "3"
  {
    Entry1Misses();
    Entry2Misses();
    Entry3Matches();
    Entry4Misses();
    Entry5Misses();
    Entry6Misses();
    FilterKeepsThird(SampleVideos, "matrix", "all");
  }

  /** When the filter keeps one entry, every ordering shows just that entry. */
  lemma SingleResult(term: string, filterLevel: string, sortBy: string, x: VideoItem)
    requires FilterVideos(SampleVideos, term, filterLevel) == [x]
    ensures FilteredVideos(term, filterLevel, sortBy) == [x]
  {
    SortCons(ChoiceOf(sortBy), x, []);
    assert [x] + [] == [x];
  }

  /** Searching "matrix" over all levels shows exactly entry 3, whatever the ordering. */
  lemma SearchMatrix(sortBy: string)
    ensures FilteredVideos("matrix", "all", sortBy) == [SampleVideos[2]]
    ensures SampleVideos[2].id == "3"
  {
    CatalogMatrix();
    SingleResult("matrix", "all", sortBy, SampleVideos[2]);
  }

  /** An empty search over all levels shows all six entries. */
  lemma EmptySearchShowsAll()
    ensures FilterVideos(SampleVideos, "", "all") == SampleVideos
    ensures |SampleVideos| == 6
  {
    FilterNothing(SampleVideos);
  }
}
