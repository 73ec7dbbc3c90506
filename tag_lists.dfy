/**
 * Tag-name lists as the registry cleans them: normalised, with blanks dropped or refused, and
 * duplicates removed keeping the first occurrence (the `seen` map loops of
 * pkg/registry/search.go, pkg/registry/models/opts.go and the `GetTagsByNames` functions).
 */
module TagLists {
  import opened Wrappers

  /** No element occurs twice. */
  predicate NoDup<T(==)>(xs: seq<T>)
  {
    forall i, j :: 0 <= i < j < |xs| ==> xs[i] != xs[j]
  }

  /**
   * The elements of xs in order of first occurrence, each once: a later copy of an element
   * already kept is skipped.
   */
  function Dedup<T(==)>(xs: seq<T>): seq<T>
  {
    if xs == [] then []
    else
      var d := Dedup(xs[..|xs| - 1]);
      if xs[|xs| - 1] in d then d else d + [xs[|xs| - 1]]
  }

  /** Dedup keeps exactly the elements of its input, each once. */
  lemma {:induction false} DedupElements<T>(xs: seq<T>)
    ensures NoDup(Dedup(xs))
    ensures forall x :: x in Dedup(xs) <==> x in xs
    ensures |Dedup(xs)| <= |xs|
  {
    if xs != [] {
      var init := xs[..|xs| - 1];
      DedupElements(init);
      assert xs == init + [xs[|xs| - 1]];
    }
  }

  /** A duplicate-free list is its own Dedup: cleaning is idempotent. */
  lemma {:induction false} DedupOfNoDup<T>(xs: seq<T>)
    requires NoDup(xs)
    ensures Dedup(xs) == xs
  {
    if xs != [] {
      var init := xs[..|xs| - 1];
      DedupOfNoDup(init);
      assert xs[|xs| - 1] !in init;
      assert xs == init + [xs[|xs| - 1]];
    }
  }

  lemma DedupIdempotent<T>(xs: seq<T>)
    ensures Dedup(Dedup(xs)) == Dedup(xs)
  {
    DedupElements(xs);
    DedupOfNoDup(Dedup(xs));
  }

  /** Dedup of a list extended by one element. */
  lemma DedupSnoc<T>(xs: seq<T>, x: T)
    ensures Dedup(xs + [x]) == if x in Dedup(xs) then Dedup(xs) else Dedup(xs) + [x]
  {
    assert (xs + [x])[..|xs|] == xs;
  }

  /** A duplicate-free list has as many distinct elements as positions. */
  lemma {:induction false} NoDupCardinality<T>(xs: seq<T>)
    requires NoDup(xs)
    ensures |set x | x in xs| == |xs|
  {
    if xs != [] {
      var init := xs[..|xs| - 1];
      assert NoDup(init);
      NoDupCardinality(init);
      assert xs == init + [xs[|xs| - 1]];
      assert (set x | x in xs) == (set x | x in init) + {xs[|xs| - 1]};
    }
  }

  /**
   * "COUNT(*) = len(names)" over the distinct names an asset carries is the same as "the asset
   * carries every name" exactly when names holds no duplicate.
   */
  lemma CountMeansAll<T>(names: seq<T>, carried: set<T>)
    requires NoDup(names)
    ensures |carried * (set x | x in names)| == |names| <==> (forall x :: x in names ==> x in carried)
  {
    var want := set x | x in names;
    NoDupCardinality(names);
    if want <= carried {
      assert carried * want == want;
    } else {
      var y :| y in want && y !in carried;
      assert carried * want <= want - {y};
      SubsetCardinality(carried * want, want - {y});
    }
  }

  lemma SubsetCardinality<T>(a: set<T>, b: set<T>)
    requires a <= b
    ensures |a| <= |b|
  {
    assert b == a + (b - a);
  }

  /** With a duplicate, the count can never reach the list's length. */
  lemma CountWithDuplicate<T>(names: seq<T>, carried: set<T>)
    requires !NoDup(names)
    ensures |carried * (set x | x in names)| < |names|
  {
    var i, j :| 0 <= i < j < |names| && names[i] == names[j];
    DistinctBelowLength(names, i, j);
    SubsetCardinality(carried * (set x | x in names), set x | x in names);
  }

  lemma DistinctBelowLength<T>(names: seq<T>, i: nat, j: nat)
    requires i < j < |names| && names[i] == names[j]
    ensures |set x | x in names| < |names|
  {
    var without := names[..j] + names[j + 1..];
    assert names == names[..j] + [names[j]] + names[j + 1..];
    assert (set x | x in names) == (set x | x in without) by {
      assert names[j] == without[i];
    }
    SetBelowLength(without);
  }

  lemma {:induction false} SetBelowLength<T>(xs: seq<T>)
    ensures |set x | x in xs| <= |xs|
  {
    if xs != [] {
      SetBelowLength(xs[1..]);
      assert (set x | x in xs) == (set x | x in xs[1..]) + {xs[0]};
    }
  }

  /**
   * Each tag passed through a normaliser, the ones that come out "" dropped, in order. The
   * normaliser is a parameter so that the list facts below do not depend on how names are
   * normalised.
   */
  function NonBlankMapped(tags: seq<string>, norm: string -> string): seq<string>
  {
    if tags == [] then []
    else
      var n := norm(tags[|tags| - 1]);
      NonBlankMapped(tags[..|tags| - 1], norm) + (if n == [] then [] else [n])
  }

  /** The non-blank normalised tags, each kept once, first copy first. */
  function CleanList(tags: seq<string>, norm: string -> string): seq<string>
  {
    Dedup(NonBlankMapped(tags, norm))
  }

  lemma {:induction false} NonBlankMappedElements(tags: seq<string>, norm: string -> string)
    ensures forall x :: x in NonBlankMapped(tags, norm) <==>
      (x != [] && exists t :: t in tags && norm(t) == x)
    ensures |NonBlankMapped(tags, norm)| <= |tags|
  {
    if tags != [] {
      var init := tags[..|tags| - 1];
      NonBlankMappedElements(init, norm);
      assert tags == init + [tags[|tags| - 1]];
    }
  }

  /** The cleaned list holds no duplicate and no blank; a name is in it iff some tag maps to it. */
  lemma CleanListProperties(tags: seq<string>, norm: string -> string)
    ensures NoDup(CleanList(tags, norm))
    ensures |CleanList(tags, norm)| <= |tags|
    ensures forall x :: x in CleanList(tags, norm) <==>
      (x != [] && exists t :: t in tags && norm(t) == x)
  {
    NonBlankMappedElements(tags, norm);
    DedupElements(NonBlankMapped(tags, norm));
  }

  /** One more tag: it is appended when it is non-blank and not yet present. */
  lemma CleanListSnoc(tags: seq<string>, t: string, norm: string -> string)
    ensures CleanList(tags + [t], norm) ==
      var n := norm(t);
      if n != [] && n !in CleanList(tags, norm) then CleanList(tags, norm) + [n] else CleanList(tags, norm)
  {
    var n := norm(t);
    assert (tags + [t])[..|tags|] == tags;
    assert NonBlankMapped(tags + [t], norm) == NonBlankMapped(tags, norm) + (if n == [] then [] else [n]);
    if n != [] {
      DedupSnoc(NonBlankMapped(tags, norm), n);
    } else {
      assert NonBlankMapped(tags + [t], norm) == NonBlankMapped(tags, norm);
    }
  }

  lemma {:induction false} NonBlankMappedFixed(c: seq<string>, norm: string -> string)
    requires forall i :: 0 <= i < |c| ==> c[i] != [] && norm(c[i]) == c[i]
    ensures NonBlankMapped(c, norm) == c
  {
    if c != [] {
      var init, last := c[..|c| - 1], c[|c| - 1];
      assert forall i :: 0 <= i < |init| ==> init[i] == c[i];
      NonBlankMappedFixed(init, norm);
      assert NonBlankMapped(c, norm) == NonBlankMapped(init, norm) + [last];
      assert c == init + [last];
    }
  }

  /** With an idempotent normaliser, cleaning a cleaned list changes nothing. */
  lemma CleanListIdempotent(tags: seq<string>, norm: string -> string)
    requires forall x :: norm(norm(x)) == norm(x)
    ensures CleanList(CleanList(tags, norm), norm) == CleanList(tags, norm)
  {
    var c := CleanList(tags, norm);
    CleanListProperties(tags, norm);
    forall i | 0 <= i < |c|
      ensures c[i] != [] && norm(c[i]) == c[i]
    {
      assert c[i] in c;
      var t :| t in tags && norm(t) == c[i];
    }
    NonBlankMappedFixed(c, norm);
    DedupOfNoDup(c);
  }

  /** When no tag maps to "", cleaning is exactly Dedup of the mapped list. */
  lemma {:induction false} NoBlankMapped(tags: seq<string>, norm: string -> string)
    requires forall i :: 0 <= i < |tags| ==> norm(tags[i]) != []
    ensures NonBlankMapped(tags, norm) == seq(|tags|, i requires 0 <= i < |tags| => norm(tags[i]))
  {
    if tags != [] {
      var init := tags[..|tags| - 1];
      assert forall i :: 0 <= i < |init| ==> init[i] == tags[i];
      NoBlankMapped(init, norm);
      assert NonBlankMapped(tags, norm) == NonBlankMapped(init, norm) + [norm(tags[|tags| - 1])];
    }
  }

  /** A list as cleaning leaves it: no duplicate, no blank, every entry fixed by the normaliser. */
  predicate IsClean(tags: seq<string>, norm: string -> string)
  {
    NoDup(tags) && forall i :: 0 <= i < |tags| ==> tags[i] != [] && norm(tags[i]) == tags[i]
  }

  /** Index of the first tag the normaliser maps to "", or |tags| when there is none. */
  function FirstBlank(tags: seq<string>, norm: string -> string): (k: nat)
    ensures k <= |tags|
  {
    if tags == [] then 0
    else if norm(tags[0]) == [] then 0
    else 1 + FirstBlank(tags[1..], norm)
  }

  /** Every tag before the first blank is non-blank, and the one at it is blank. */
  lemma {:induction false} FirstBlankSpec(tags: seq<string>, norm: string -> string)
    ensures forall j :: 0 <= j < FirstBlank(tags, norm) ==> norm(tags[j]) != []
    ensures FirstBlank(tags, norm) < |tags| ==> norm(tags[FirstBlank(tags, norm)]) == []
  {
    if tags != [] && norm(tags[0]) != [] {
      FirstBlankSpec(tags[1..], norm);
    }
  }

  /** Scanning past a non-blank tag keeps the first blank ahead of the scan. */
  lemma FirstBlankStep(tags: seq<string>, norm: string -> string, i: nat)
    requires i < |tags| && FirstBlank(tags, norm) >= i && norm(tags[i]) != []
    ensures FirstBlank(tags, norm) >= i + 1
  {
    FirstBlankSpec(tags, norm);
  }

  /** The first blank ahead of the scan, found at the scan position. */
  lemma FirstBlankFound(tags: seq<string>, norm: string -> string, i: nat)
    requires i < |tags| && FirstBlank(tags, norm) >= i && norm(tags[i]) == []
    ensures FirstBlank(tags, norm) == i
  {
    FirstBlankSpec(tags, norm);
  }

  /** With an idempotent normaliser and no blank input, the cleaned list is clean. */
  lemma CleanListIsClean(tags: seq<string>, norm: string -> string)
    requires forall x :: norm(norm(x)) == norm(x)
    ensures IsClean(CleanList(tags, norm), norm)
  {
    var c := CleanList(tags, norm);
    CleanListProperties(tags, norm);
    forall i | 0 <= i < |c|
      ensures c[i] != [] && norm(c[i]) == c[i]
    {
      assert c[i] in c;
      var t :| t in tags && norm(t) == c[i];
    }
  }

  /** A `seen` set kept equal to the elements of a list answers membership and grows with it. */
  lemma SeenSnoc(list: seq<string>, seen: set<string>, n: string)
    requires seen == set x | x in list
    ensures n in seen <==> n in list
    ensures seen + {n} == set x | x in list + [n]
  {
  }

  /**
   * The strict cleaning loop: one pass with a `seen` set that gives up (None) at the first tag
   * the normaliser maps to "", and otherwise returns the cleaned list.
   */
  method CleanOrBlank(tags: seq<string>, norm: string -> string) returns (r: Option<seq<string>>)
    ensures r.None? <==> FirstBlank(tags, norm) < |tags|
    ensures r.Some? ==> r.value == CleanList(tags, norm)
  {
    var cleaned: seq<string> := [];
    var seen: set<string> := {};
    var i := 0;
    while i < |tags|
      invariant 0 <= i <= |tags|
      invariant FirstBlank(tags, norm) >= i
      invariant cleaned == CleanList(tags[..i], norm)
      invariant seen == set x | x in cleaned
    {
      var normalized := norm(tags[i]);
      if normalized == [] {
        FirstBlankFound(tags, norm, i);
        return None;
      }
      FirstBlankStep(tags, norm, i);
      assert tags[..i + 1] == tags[..i] + [tags[i]];
      CleanListSnoc(tags[..i], tags[i], norm);
      SeenSnoc(cleaned, seen, normalized);
      if normalized !in seen {
        seen := seen + {normalized};
        cleaned := cleaned + [normalized];
      }
      i := i + 1;
    }
    assert tags[..i] == tags;
    return Some(cleaned);
  }

  /** Nothing survives exactly when every name maps to "". */
  lemma NonBlankMappedEmpty(tags: seq<string>, norm: string -> string)
    ensures NonBlankMapped(tags, norm) == [] <==> forall t :: t in tags ==> norm(t) == []
  {
    NonBlankMappedElements(tags, norm);
    if NonBlankMapped(tags, norm) != [] {
      assert NonBlankMapped(tags, norm)[0] in NonBlankMapped(tags, norm);
    }
    forall t | t in tags
      ensures norm(t) == [] || norm(t) in NonBlankMapped(tags, norm)
    {
    }
  }

  /** The `normalized` loop of `GetTagsByNames`: each name mapped, blanks dropped, order kept. */
  method MapNonBlank(names: seq<string>, norm: string -> string) returns (normalized: seq<string>)
    ensures normalized == NonBlankMapped(names, norm)
  {
    normalized := [];
    var i := 0;
    while i < |names|
      invariant 0 <= i <= |names|
      invariant normalized == NonBlankMapped(names[..i], norm)
    {
      assert names[..i + 1][..i] == names[..i];
      var n := norm(names[i]);
      if n != [] {
        normalized := normalized + [n];
      }
      i := i + 1;
    }
    assert names[..i] == names;
  }
}
