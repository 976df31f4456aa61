/** The search-result dicts of the pipeline and their deduplication by `link`. */
module Records {
  import opened PyValues

  /** A search-result dict: `{"title": ..., "link": ..., "description": ...}`, later
      with a `"content"` key added. */
  type Record = Dict

  /** A dict returned by the search provider: `{"title", "href", "body"}`, any of them
      possibly missing. */
  type Hit = Dict

  const TitleKey: string := "title"
  const LinkKey: string := "link"
  const DescriptionKey: string := "description"
  const ContentKey: string := "content"

  /** The keys every record built from a provider hit carries. */
  const SearchKeys: set<string> := {TitleKey, LinkKey, DescriptionKey}

  /** The record `perform_search` builds from one provider hit: exactly the three keys,
      each holding the hit's `title`, `href` or `body`, or `None` when the hit lacks it. */
  function HitToRecord(h: Hit): (r: Record)
    ensures r.Keys == SearchKeys
    ensures r[LinkKey] == if "href" in h then h["href"] else PyNone
  {
    map[TitleKey := Get(h, "title"), LinkKey := Get(h, "href"), DescriptionKey := Get(h, "body")]
  }

  /** Every record has a `"link"` key, so `r['link']` does not raise. */
  predicate Linked(rs: seq<Record>) {
    forall i :: 0 <= i < |rs| ==> LinkKey in rs[i]
  }

  /** `r['link']`. */
  function Link(r: Record): PyVal
    requires LinkKey in r
  {
    r[LinkKey]
  }

  /** The set of links that occur in `rs`. */
  function Links(rs: seq<Record>): set<PyVal>
    requires Linked(rs)
  {
    if rs == [] then {} else Links(rs[..|rs| - 1]) + {Link(rs[|rs| - 1])}
  }

  /** First occurrence wins: a record is kept exactly when no earlier record has its link. */
  function Dedup(rs: seq<Record>): (r: seq<Record>)
    requires Linked(rs)
    ensures Linked(r) && |r| <= |rs|
  {
    if rs == [] then []
    else
      var init, last := rs[..|rs| - 1], rs[|rs| - 1];
      if Link(last) in Links(init) then Dedup(init) else Dedup(init) + [last]
  }

  /** No two records share a link. */
  predicate DistinctLinks(rs: seq<Record>)
    requires Linked(rs)
  {
    forall i, j :: 0 <= i < j < |rs| ==> Link(rs[i]) != Link(rs[j])
  }

  /** `a` is `b` with some elements left out and the rest in their order. */
  predicate IsSubsequence(a: seq<Record>, b: seq<Record>)
    decreases |b|
  {
    if a == [] then true
    else if b == [] then false
    else
      (a[|a| - 1] == b[|b| - 1] && IsSubsequence(a[..|a| - 1], b[..|b| - 1]))
      || IsSubsequence(a, b[..|b| - 1])
  }

  // ---------------------------------------------------------------------------
  // Facts about Links

  /** A link is in `Links(rs)` exactly when some record of `rs` carries it. */
  lemma {:induction false} LinksMember(rs: seq<Record>, v: PyVal)
    requires Linked(rs)
    ensures v in Links(rs) <==> exists i :: 0 <= i < |rs| && Link(rs[i]) == v
  {
    if rs != [] {
      var init := rs[..|rs| - 1];
      LinksMember(init, v);
      if v in Links(init) {
        var i :| 0 <= i < |init| && Link(init[i]) == v;
        assert Link(rs[i]) == v;
      }
      if exists i :: 0 <= i < |rs| && Link(rs[i]) == v {
        var i :| 0 <= i < |rs| && Link(rs[i]) == v;
        if i < |init| { assert Link(init[i]) == v; }
      }
    }
  }

  lemma LinksAppend(rs: seq<Record>, r: Record)
    requires Linked(rs) && LinkKey in r
    ensures Linked(rs + [r]) && Links(rs + [r]) == Links(rs) + {Link(r)}
  {
    assert (rs + [r])[..|rs|] == rs;
  }

  // ---------------------------------------------------------------------------
  // Facts about Dedup

  /** Every link of the input appears in the output, and no other. */
  lemma {:induction false} DedupLinks(rs: seq<Record>)
    requires Linked(rs)
    ensures Linked(Dedup(rs)) && Links(Dedup(rs)) == Links(rs)
  {
    if rs != [] {
      var init, last := rs[..|rs| - 1], rs[|rs| - 1];
      DedupLinks(init);
      if Link(last) !in Links(init) {
        LinksAppend(Dedup(init), last);
      }
    }
  }

  /** One more pass of the deduplicating loop: the link is added to the seen set, and the
      record is kept exactly when its link had not been seen. */
  lemma DedupStep(rs: seq<Record>, i: nat)
    requires Linked(rs) && i < |rs|
    ensures Linked(rs[..i]) && Linked(rs[..i + 1])
    ensures Links(rs[..i + 1]) == Links(rs[..i]) + {Link(rs[i])}
    ensures Dedup(rs[..i + 1]) == if Link(rs[i]) in Links(rs[..i]) then Dedup(rs[..i])
                                  else Dedup(rs[..i]) + [rs[i]]
  {
    assert rs[..i + 1][..i] == rs[..i];
  }

  /** No two deduplicated records share a link. */
  lemma {:induction false} DedupDistinct(rs: seq<Record>)
    requires Linked(rs)
    ensures Linked(Dedup(rs)) && DistinctLinks(Dedup(rs))
  {
    if rs != [] {
      var init, last := rs[..|rs| - 1], rs[|rs| - 1];
      DedupDistinct(init);
      if Link(last) !in Links(init) {
        var d := Dedup(init);
        DedupLinks(init);
        LinksMember(d, Link(last));
        assert forall i :: 0 <= i < |d| ==> Link(d[i]) != Link(last);
        var e := d + [last];
        assert forall i :: 0 <= i < |d| ==> e[i] == d[i];
        assert e[|d|] == last;
      }
    }
  }

  /** Every deduplicated record is a record of the input. */
  lemma {:induction false} DedupMember(rs: seq<Record>)
    requires Linked(rs)
    ensures forall j :: 0 <= j < |Dedup(rs)| ==> Dedup(rs)[j] in rs
  {
    if rs != [] {
      var init := rs[..|rs| - 1];
      DedupMember(init);
      assert forall r :: r in init ==> r in rs;
    }
  }

  /** Deduplication leaves a list whose links are already distinct as it is. */
  lemma {:induction false} DedupOfDistinct(rs: seq<Record>)
    requires Linked(rs) && DistinctLinks(rs)
    ensures Dedup(rs) == rs
  {
    if rs != [] {
      var init, last := rs[..|rs| - 1], rs[|rs| - 1];
      DedupOfDistinct(init);
      LinksMember(init, Link(last));
      assert Link(last) !in Links(init);
      assert init + [last] == rs;
    }
  }

  /** Deduplicating twice is deduplicating once. */
  lemma DedupIdempotent(rs: seq<Record>)
    requires Linked(rs)
    ensures Linked(Dedup(rs)) && Dedup(Dedup(rs)) == Dedup(rs)
  {
    DedupDistinct(rs);
    DedupOfDistinct(Dedup(rs));
  }

  lemma {:induction false} SubsequenceExtend(a: seq<Record>, b: seq<Record>, r: Record)
    requires IsSubsequence(a, b)
    ensures IsSubsequence(a, b + [r])
  {
    assert (b + [r])[..|b|] == b;
  }

  /** The output is the input with records left out and the rest in input order. */
  lemma {:induction false} DedupSubsequence(rs: seq<Record>)
    requires Linked(rs)
    ensures IsSubsequence(Dedup(rs), rs)
  {
    if rs != [] {
      var init, last := rs[..|rs| - 1], rs[|rs| - 1];
      DedupSubsequence(init);
      var d := Dedup(init);
      if Link(last) in Links(init) {
        SubsequenceExtend(d, init, last);
        assert init + [last] == rs;
      } else {
        assert (d + [last])[..|d|] == d;
      }
    }
  }

  /** `rs[i]` is the first record of `rs` with its link. */
  predicate IsFirstOccurrence(rs: seq<Record>, i: int)
    requires Linked(rs)
  {
    0 <= i < |rs| && Link(rs[i]) !in Links(rs[..i])
  }

  /** A record is kept exactly when it is the first occurrence of its link: each kept
      record is one, and each first occurrence is kept. */
  lemma {:induction false} DedupKeepsFirst(rs: seq<Record>)
    requires Linked(rs)
    ensures forall j :: 0 <= j < |Dedup(rs)| ==>
              exists i :: IsFirstOccurrence(rs, i) && Dedup(rs)[j] == rs[i]
    ensures forall i :: IsFirstOccurrence(rs, i) ==> rs[i] in Dedup(rs)
  {
    if rs != [] {
      var init, last := rs[..|rs| - 1], rs[|rs| - 1];
      DedupKeepsFirst(init);
      var d, d0 := Dedup(rs), Dedup(init);
      var kept := Link(last) !in Links(init);
      assert d == if kept then d0 + [last] else d0;
      assert forall i :: 0 <= i <= |init| ==> rs[..i] == init[..i];
      assert rs[..|rs| - 1] == init;
      forall j | 0 <= j < |d|
        ensures exists i :: IsFirstOccurrence(rs, i) && d[j] == rs[i]
      {
        if j < |d0| {
          assert d[j] == d0[j];
          var i :| IsFirstOccurrence(init, i) && d0[j] == init[i];
          assert IsFirstOccurrence(rs, i) && d[j] == rs[i];
        } else {
          assert kept && d[j] == last;
          assert IsFirstOccurrence(rs, |rs| - 1);
        }
      }
      forall i | IsFirstOccurrence(rs, i)
        ensures rs[i] in d
      {
        if i < |init| {
          assert IsFirstOccurrence(init, i);
          assert rs[i] in d0;
        } else {
          assert rs[..i] == init;
        }
      }
    } else {
      assert Dedup(rs) == [];
    }
  }

  /** The positions of `rs` that hold the first occurrence of their link, in increasing
      order. */
  function FirstOccurrences(rs: seq<Record>): (idx: seq<nat>)
    requires Linked(rs)
    ensures forall j :: 0 <= j < |idx| ==> idx[j] < |rs|
  {
    if rs == [] then []
    else FirstOccurrences(rs[..|rs| - 1]) + (if IsFirstOccurrence(rs, |rs| - 1) then [|rs| - 1] else [])
  }

  /** Before the last position, being a first occurrence does not depend on the last record. */
  lemma FirstOccurrenceOfInit(rs: seq<Record>, i: int)
    requires Linked(rs) && rs != [] && 0 <= i < |rs| - 1
    ensures Linked(rs[..|rs| - 1])
    ensures IsFirstOccurrence(rs, i) <==> IsFirstOccurrence(rs[..|rs| - 1], i)
  {
    assert rs[..i] == rs[..|rs| - 1][..i];
  }

  /** `FirstOccurrences` lists every first occurrence and nothing else, in increasing order. */
  lemma {:induction false} FirstOccurrencesSpec(rs: seq<Record>)
    requires Linked(rs)
    ensures var idx := FirstOccurrences(rs);
            && (forall j, k :: 0 <= j < k < |idx| ==> idx[j] < idx[k])
            && (forall i :: 0 <= i < |rs| ==> (IsFirstOccurrence(rs, i) <==> i in idx))
  {
    if rs != [] {
      var n := |rs|;
      var init := rs[..n - 1];
      FirstOccurrencesSpec(init);
      var idx0 := FirstOccurrences(init);
      var idx := FirstOccurrences(rs);
      assert idx == idx0 + (if IsFirstOccurrence(rs, n - 1) then [n - 1] else []);
      forall i | 0 <= i < n - 1
        ensures IsFirstOccurrence(rs, i) <==> i in idx
      {
        FirstOccurrenceOfInit(rs, i);
        assert i in idx <==> i in idx0;
      }
      assert n - 1 in idx <==> IsFirstOccurrence(rs, n - 1);
    }
  }

  /** Deduplication keeps exactly the records at the first-occurrence positions, in the
      order of those positions: with `FirstOccurrencesSpec` this fixes both which records
      are kept and their order, even when two records are equal. */
  lemma {:induction false} DedupInOrder(rs: seq<Record>)
    requires Linked(rs)
    ensures var idx := FirstOccurrences(rs);
            && |Dedup(rs)| == |idx|
            && forall j :: 0 <= j < |idx| ==> Dedup(rs)[j] == rs[idx[j]]
  {
    if rs != [] {
      var n := |rs|;
      var init, last := rs[..n - 1], rs[n - 1];
      DedupInOrder(init);
      var idx0, d0 := FirstOccurrences(init), Dedup(init);
      assert rs[..n - 1] == init;
      var kept := Link(last) !in Links(init);
      assert kept == IsFirstOccurrence(rs, n - 1);
      var idx, d := FirstOccurrences(rs), Dedup(rs);
      assert idx == idx0 + (if kept then [n - 1] else []);
      assert d == d0 + (if kept then [last] else []);
      forall j | 0 <= j < |idx|
        ensures d[j] == rs[idx[j]]
      {
        if j < |idx0| {
          assert d[j] == d0[j] == init[idx0[j]];
        }
      }
    }
  }

  /** Links a, b, a, c deduplicate to the records of a, b and c, in that order, the first
      two of which are those of a and b: the second record with link a is dropped whatever
      its other fields. */
  lemma DedupExample(a: Record, b: Record, a2: Record, c: Record)
    requires LinkKey in a && LinkKey in b && LinkKey in a2 && LinkKey in c
    requires Link(a2) == Link(a)
    requires Link(a) != Link(b) && Link(a) != Link(c) && Link(b) != Link(c)
    ensures Dedup([a, b, a2, c]) == [a, b, c]
    ensures Dedup([a, b, a2, c])[..2] == [a, b]
  {
    var s1, s2, s3, s4 := [a], [a, b], [a, b, a2], [a, b, a2, c];
    assert Links(s1) == {Link(a)} && Dedup(s1) == [a] by {
      assert s1[..0] == [];
    }
    assert Links(s2) == {Link(a), Link(b)} && Dedup(s2) == [a, b] by {
      assert s2[..1] == s1;
    }
    assert Links(s3) == {Link(a), Link(b)} && Dedup(s3) == [a, b] by {
      assert s3[..2] == s2;
    }
    assert Dedup(s4) == [a, b, c] by {
      assert s4[..3] == s3;
    }
    assert [a, b, c][..2] == [a, b];
  }

  /** Records built from hits without `href` all carry the link `None`, and only the first
      of them survives deduplication. */
  lemma NoneLinksCollapse(h1: Hit, h2: Hit)
    requires "href" !in h1 && "href" !in h2
    ensures var a, b := HitToRecord(h1), HitToRecord(h2);
            Link(a) == PyNone && Link(b) == PyNone && Dedup([a, b]) == [a]
  {
    var a, b := HitToRecord(h1), HitToRecord(h2);
    assert [a, b][..1] == [a] && [a][..0] == [];
    assert Links([a]) == {PyNone};
  }
}
