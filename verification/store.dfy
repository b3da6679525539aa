/** The annotation store: an insertion-ordered list of records with the two
    mutations the page offers its annotator (append, replace by id) and the
    per-page view the overlay draws. */
module Store {
  import opened Annotations

  /** The ids present in a store. */
  function Ids(s: seq<Annotation>): set<string>
  {
    set a | a in s :: a.id
  }

  /** No id occurs twice. Nothing in the app enforces this: ids come
      from a random generator, so it is stated as an invariant the callers
      keep by passing fresh ids. */
  predicate UniqueIds(s: seq<Annotation>)
  {
    forall i, j :: 0 <= i < j < |s| ==> s[i].id != s[j].id
  }

  /** Appends a record; every earlier record keeps its place. */
  function Add(s: seq<Annotation>, a: Annotation): (r: seq<Annotation>)
    ensures |r| == |s| + 1
    ensures r[..|s|] == s
    ensures r[|s|] == a
    ensures Ids(r) == Ids(s) + {a.id}
  {
    s + [a]
  }

  /** Appending a record with a fresh id keeps the ids unique. */
  lemma AddFreshKeepsUnique(s: seq<Annotation>, a: Annotation)
    requires UniqueIds(s) && a.id !in Ids(s)
    ensures UniqueIds(Add(s, a))
  {
    var r := Add(s, a);
    forall i, j | 0 <= i < j < |r| ensures r[i].id != r[j].id {
      if j == |s| {
        assert r[i] == s[i] && s[i] in s;
      } else {
        assert r[i] == s[i] && r[j] == s[j];
      }
    }
  }

  /** Replaces every record whose id is `u.id` by `u`; all other records,
      the length and the order stay as they were. */
  function Update(s: seq<Annotation>, u: Annotation): (r: seq<Annotation>)
    ensures |r| == |s|
    ensures forall i :: 0 <= i < |s| && s[i].id == u.id ==> r[i] == u
    ensures forall i :: 0 <= i < |s| && s[i].id != u.id ==> r[i] == s[i]
  {
    if s == [] then []
    else [if s[0].id == u.id then u else s[0]] + Update(s[1..], u)
  }

  /** An update whose id is absent leaves the store as it was. */
  lemma {:induction false} UpdateAbsentIsIdentity(s: seq<Annotation>, u: Annotation)
    requires u.id !in Ids(s)
    ensures Update(s, u) == s
  {
    if s != [] {
      assert s[0] in s;
      assert Ids(s[1..]) <= Ids(s) by {
        forall a | a in s[1..] ensures a in s { }
      }
      UpdateAbsentIsIdentity(s[1..], u);
    }
  }

  /** Applying the same update twice is the same as applying it once. */
  lemma {:induction false} UpdateIdempotent(s: seq<Annotation>, u: Annotation)
    ensures Update(Update(s, u), u) == Update(s, u)
  {
    if s != [] {
      UpdateIdempotent(s[1..], u);
      assert Update(s, u)[1..] == Update(s[1..], u);
    }
  }

  /** Two stores whose records carry the same ids index by index have the
      same ids. */
  lemma SameIdsPointwise(s: seq<Annotation>, r: seq<Annotation>)
    requires |r| == |s|
    requires forall i :: 0 <= i < |s| ==> r[i].id == s[i].id
    ensures Ids(r) == Ids(s)
  {
    assert Ids(r) <= Ids(s) by {
      forall x | x in Ids(r) ensures x in Ids(s) {
        var i :| 0 <= i < |r| && r[i].id == x;
        assert s[i] in s;
      }
    }
    assert Ids(s) <= Ids(r) by {
      forall x | x in Ids(s) ensures x in Ids(r) {
        var i :| 0 <= i < |s| && s[i].id == x;
        assert r[i] in r;
      }
    }
  }

  /** An update neither adds nor removes ids. */
  lemma UpdateKeepsIds(s: seq<Annotation>, u: Annotation)
    ensures Ids(Update(s, u)) == Ids(s)
  {
    SameIdsPointwise(s, Update(s, u));
  }

  /** An update distributes over concatenation. */
  lemma {:induction false} UpdateAppend(s: seq<Annotation>, t: seq<Annotation>, u: Annotation)
    ensures Update(s + t, u) == Update(s, u) + Update(t, u)
  {
    if s == [] {
      assert s + t == t;
    } else {
      assert (s + t)[1..] == s[1..] + t;
      UpdateAppend(s[1..], t, u);
    }
  }

  /** Updating after an append is the same as appending after the update. */
  lemma UpdateAfterAdd(s: seq<Annotation>, a: Annotation, u: Annotation)
    ensures Update(Add(s, a), u) == Add(Update(s, u), if a.id == u.id then u else a)
  {
    UpdateAppend(s, [a], u);
    assert Update([a], u) == [if a.id == u.id then u else a] by {
      assert [a][1..] == [];
    }
  }

  /** The records on page `page`, in store order. */
  function OnPage(s: seq<Annotation>, page: int): (r: seq<Annotation>)
    ensures |r| <= |s|
    ensures forall a :: a in r <==> a in s && a.page == page
  {
    if s == [] then []
    else (if s[0].page == page then [s[0]] else []) + OnPage(s[1..], page)
  }

  /** Filtering distributes over concatenation, so the per-page view keeps
      the store's relative order. */
  lemma {:induction false} OnPageAppend(s: seq<Annotation>, t: seq<Annotation>, page: int)
    ensures OnPage(s + t, page) == OnPage(s, page) + OnPage(t, page)
  {
    if s == [] {
      assert s + t == t;
    } else {
      assert (s + t)[1..] == s[1..] + t;
      OnPageAppend(s[1..], t, page);
    }
  }

  /** A record added to the store joins the end of its own page's view and
      leaves every other page's view as it was. */
  lemma OnPageAfterAdd(s: seq<Annotation>, a: Annotation, page: int)
    ensures OnPage(Add(s, a), page) == OnPage(s, page) + (if a.page == page then [a] else [])
  {
    OnPageAppend(s, [a], page);
    assert [a][1..] == [];
  }

  /** Every record of the page is kept with its multiplicity; nothing from
      another page appears. */
  lemma {:induction false} OnPageKeepsMultiplicity(s: seq<Annotation>, page: int, a: Annotation)
    ensures multiset(OnPage(s, page))[a] == if a.page == page then multiset(s)[a] else 0
  {
    if s != [] {
      OnPageKeepsMultiplicity(s[1..], page, a);
      var head := if s[0].page == page then [s[0]] else [];
      assert multiset(s) == multiset([s[0]]) + multiset(s[1..]) by {
        assert s == [s[0]] + s[1..];
      }
      assert multiset(OnPage(s, page)) == multiset(head) + multiset(OnPage(s[1..], page));
    }
  }

  /** Filtering an already filtered view changes nothing. */
  lemma {:induction false} OnPageIdempotent(s: seq<Annotation>, page: int)
    ensures OnPage(OnPage(s, page), page) == OnPage(s, page)
  {
    if s != [] {
      OnPageIdempotent(s[1..], page);
      OnPageAppend(if s[0].page == page then [s[0]] else [], OnPage(s[1..], page), page);
    }
  }
}
