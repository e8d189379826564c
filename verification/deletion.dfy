/** Deleting every version of one object. The store lists versions and delete markers by prefix, in
    pages of its own choosing; only entries with exactly the given key may go. */
module Deletion {
  import opened Basics

  /** A version or delete marker. `rank` is its place in the listing order: by key, newest first. */
  datatype Entry = Entry(key: string, rank: nat, marker: bool)

  predicate Ordered(s: seq<Entry>) { forall i, j :: 0 <= i < j < |s| ==> s[i].rank < s[j].rank }

  function Filter(s: seq<Entry>, p: Entry -> bool): (out: seq<Entry>)
    ensures forall e :: e in out <==> e in s && p(e)
  {
    if s == [] then []
    else (if p(s[0]) then [s[0]] else []) + Filter(s[1..], p)
  }

  lemma {:induction false} FilterOrdered(s: seq<Entry>, p: Entry -> bool)
    requires Ordered(s)
    ensures Ordered(Filter(s, p))
  {
    if s != [] {
      FilterOrdered(s[1..], p);
      var rest := Filter(s[1..], p);
      forall i | 0 <= i < |rest| ensures s[0].rank < rest[i].rank {
        assert rest[i] in s[1..];
      }
    }
  }

  lemma {:induction false} FilterAgain(s: seq<Entry>, p: Entry -> bool, q: Entry -> bool, r: Entry -> bool)
    requires forall e :: e in s ==> (r(e) <==> p(e) && q(e))
    ensures Filter(Filter(s, p), q) == Filter(s, r)
  {
    if s != [] {
      FilterAgain(s[1..], p, q, r);
      var rest := Filter(s[1..], p);
      assert s[0] in s;
      if p(s[0]) {
        assert Filter(s, p) == [s[0]] + rest && ([s[0]] + rest)[1..] == rest;
      } else {
        assert Filter(s, p) == rest && Filter(s, r) == Filter(s[1..], r);
      }
    }
  }

  // ---------------------------------------------------------------- the store

  function Any(): Entry -> bool { (e: Entry) => true }

  function Listed(prefix: string, after: int): Entry -> bool { (e: Entry) => prefix <= e.key && e.rank > after }

  /** What goes when everything up to rank `upto` has been looked at. */
  predicate Gone(e: Entry, key: string, refused: set<Entry>, upto: int) {
    e.key == key && e.rank <= upto && e !in refused
  }

  function Stays(key: string, refused: set<Entry>, upto: int): Entry -> bool {
    (e: Entry) => !Gone(e, key, refused, upto)
  }

  function Other(key: string, refused: set<Entry>): Entry -> bool { (e: Entry) => e.key != key || e in refused }

  function Spared(objects: set<Entry>, refused: set<Entry>): Entry -> bool {
    (e: Entry) => e !in objects || e in refused
  }

  /** Entries whose key begins with `prefix`, after the marker. */
  function Candidates(entries: seq<Entry>, prefix: string, after: int): seq<Entry> {
    Filter(entries, Listed(prefix, after))
  }

  datatype Page = Page(entries: seq<Entry>, truncated: bool, nextMarker: int)

  /** At most `size` of them; if that is not all, the marker is the last one given. */
  function List(entries: seq<Entry>, prefix: string, after: int, size: nat): Page
    requires size > 0
  {
    var all := Candidates(entries, prefix, after);
    if |all| <= size then Page(all, false, after) else Page(all[..size], true, all[size - 1].rank)
  }

  function Left(entries: seq<Entry>, key: string, refused: set<Entry>, upto: int): seq<Entry> {
    Filter(entries, Stays(key, refused, upto))
  }

  /** Every entry with another key, and the entries the store refused to delete. */
  function OthersOf(entries: seq<Entry>, key: string, refused: set<Entry>): seq<Entry> {
    Filter(entries, Other(key, refused))
  }

  /** Candidates are what they were before anything up to the marker was deleted. */
  lemma SameCandidates(s: seq<Entry>, key: string, refused: set<Entry>, upto: int)
    ensures Candidates(Left(s, key, refused, upto), key, upto) == Candidates(s, key, upto)
  {
    FilterAgain(s, Stays(key, refused, upto), Listed(key, upto), Listed(key, upto));
  }

  /** Deleting what a page shows of the key completes the work up to the page's end. */
  lemma PageDone(s: seq<Entry>, key: string, refused: set<Entry>, upto: int, objects: set<Entry>, upto': int)
    requires upto <= upto'
    requires forall e :: e in objects ==> e.key == key && upto < e.rank <= upto'
    requires forall e :: e in s && e.key == key && upto < e.rank <= upto' ==> e in objects
    ensures Filter(Left(s, key, refused, upto), Spared(objects, refused)) == Left(s, key, refused, upto')
  {
    FilterAgain(s, Stays(key, refused, upto), Spared(objects, refused), Stays(key, refused, upto'));
  }

  /** In an ordered list the entries up to a rank are its first ones. */
  lemma PageExact(all: seq<Entry>, size: nat, e: Entry)
    requires Ordered(all) && 0 < size < |all| && e in all
    ensures e in all[..size] <==> e.rank <= all[size - 1].rank
  {
    var i :| 0 <= i < |all| && all[i] == e;
    if i < size { assert all[..size][i] == e; }
  }

  lemma PageObjects(s: seq<Entry>, key: string, refused: set<Entry>, upto: int, size: nat, e: Entry)
    requires Ordered(s) && size > 0
    ensures var page := List(Left(s, key, refused, upto), key, upto, size);
            && (page.truncated ==> page.nextMarker > upto)
            && ((e in page.entries && e.key == key) <==>
              (e in s && e.key == key && e.rank > upto && (page.truncated ==> e.rank <= page.nextMarker)))
  {
    SameCandidates(s, key, refused, upto);
    var all := Candidates(s, key, upto);
    FilterOrdered(s, Listed(key, upto));
    if |all| > size {
      assert all[size - 1] in all;
      if e in all { PageExact(all, size, e); }
    }
  }

  function MaxRank(s: seq<Entry>): (m: int)
    ensures forall e :: e in s ==> e.rank <= m
  {
    if s == [] then -1 else Max(s[0].rank, MaxRank(s[1..]))
  }

  lemma AllGone(s: seq<Entry>, key: string, refused: set<Entry>, upto: int)
    requires forall e :: e in s ==> e.rank <= upto
    ensures Left(s, key, refused, upto) == OthersOf(s, key, refused)
  {
    FilterAgain(s, Any(), Stays(key, refused, upto), Other(key, refused));
    FilterAll(s);
  }

  lemma {:induction false} FilterAll(s: seq<Entry>)
    ensures Filter(s, Any()) == s
  {
    if s != [] { FilterAll(s[1..]); }
  }

  lemma NothingGone(s: seq<Entry>, key: string, refused: set<Entry>)
    ensures Left(s, key, refused, -1) == s
  {
    FilterAgain(s, Any(), Stays(key, refused, -1), Any());
    FilterAll(s);
  }

  // ---------------------------------------------------------------- the loop

  datatype ListError = NotSupported | OtherError

  datatype Result = Deleted | Raised

  class Bucket {
    var entries: seq<Entry>

    /** Errors for single keys are not reported: what is refused stays. */
    method DeleteObjects(objects: set<Entry>, refused: set<Entry>)
      modifies this
      ensures entries == Filter(old(entries), Spared(objects, refused))
    {
      entries := Filter(entries, Spared(objects, refused));
    }

    /** Removal by key alone, all that a store without versions offers. */
    method DeleteObject(key: string)
      modifies this
      ensures entries == OthersOf(old(entries), key, {})
    {
      entries := Filter(entries, Other(key, {}));
    }

    /** `sizes` gives the page size of each listing, `errors` the error of a listing that fails, and
        `standing`, for a deletion that raises, what it left standing of what it was asked to delete.
        For every bucket, every page size and every key, exactly the versions and delete markers of
        the key go, except those the store refuses; a request that raises ends the work early, with
        every other key untouched and everything of the key gone up to some rank and in part up to another. */
    method DeleteAllObjectVersions(key: string, sizes: nat -> nat, errors: nat -> Option<ListError>,
        standing: nat -> Option<set<Entry>>, refused: set<Entry>)
      returns (result: Result)
      requires Ordered(entries) && forall n :: sizes(n) > 0
      modifies this
      ensures result == Deleted ==>
        entries == OthersOf(old(entries), key, refused) || entries == OthersOf(old(entries), key, {})
      ensures result == Deleted && (forall n :: errors(n) != Some(NotSupported)) ==>
        entries == OthersOf(old(entries), key, refused)
      ensures OthersOf(entries, key, {}) == OthersOf(old(entries), key, {})
      ensures result == Raised ==>
        exists upto, upto', kept :: upto <= upto'
          && entries == Left(Left(old(entries), key, refused, upto), key, kept, upto')
      ensures (forall n :: errors(n) != Some(OtherError) && standing(n) == None) ==> result == Deleted
    {
      hide List, Candidates, MaxRank, Left, OthersOf, Stays, Other, Spared, Filter;
      ghost var before := entries;
      var marker, call := -1, 0;
      NothingGone(before, key, refused);
      while true
        invariant marker >= -1 && entries == Left(before, key, refused, marker)
        decreases MaxRank(before) - marker
      {
        if errors(call).Some? {
          LeftTwice(before, key, refused, marker, {}, refused, marker);
          LeftThenOthers(before, key, refused, marker);
          if errors(call).value == OtherError { return Raised; }
          if standing(call).Some? {
            var all := set e | e in entries && e.key == key;
            DeleteObjects(all, standing(call).value + refused);
            AheadIsLeft(before, key, refused, marker);
            LeftTwice(before, key, refused, marker, all, standing(call).value + refused, Max(marker, MaxRank(before)));
            LeftThenOthers(Left(before, key, refused, marker), key, standing(call).value + refused,
              Max(marker, MaxRank(before)));
            return Raised;
          }
          DeleteObject(key);
          LeftThenOthers(Left(before, key, refused, marker), key, {}, Max(marker, MaxRank(before)));
          OthersTwice(before, key);
          return Deleted;
        }
        var page := List(entries, key, marker, sizes(call));
        var objects := set e | e in page.entries && e.key == key;
        ghost var upto := if page.truncated then page.nextMarker else Max(marker, MaxRank(before));
        forall e ensures (e in objects) <==>
          (e in before && e.key == key && e.rank > marker && (page.truncated ==> e.rank <= page.nextMarker)) {
          PageObjects(before, key, refused, marker, sizes(call), e);
        }
        PageMarker(before, key, refused, marker, sizes(call));
        if objects != {} {
          if standing(call).Some? {
            DeleteObjects(objects, standing(call).value + refused);
            LeftTwice(before, key, refused, marker, objects, standing(call).value + refused, upto);
            LeftThenOthers(before, key, refused, marker);
            LeftThenOthers(Left(before, key, refused, marker), key, standing(call).value + refused, upto);
            return Raised;
          }
          DeleteObjects(objects, refused);
        }
        FilterNone(Left(before, key, refused, marker), objects, refused);
        PageDone(before, key, refused, marker, objects, upto);
        if !page.truncated {
          AllGone(before, key, refused, upto);
          LeftThenOthers(before, key, refused, upto);
          return Deleted;
        }
        marker, call := page.nextMarker, call + 1;
      }
    }
  }

  lemma PageMarker(s: seq<Entry>, key: string, refused: set<Entry>, upto: int, size: nat)
    requires Ordered(s) && size > 0
    ensures var page := List(Left(s, key, refused, upto), key, upto, size);
            page.truncated ==> upto < page.nextMarker <= MaxRank(s)
  {
    SameCandidates(s, key, refused, upto);
    var all := Candidates(s, key, upto);
    if |all| > size { assert all[size - 1] in all; }
  }

  lemma FilterNone(s: seq<Entry>, objects: set<Entry>, refused: set<Entry>)
    ensures objects == {} ==> Filter(s, Spared(objects, refused)) == s
  {
    if objects == {} {
      FilterAgain(s, Any(), Spared(objects, refused), Any());
      FilterAll(s);
    }
  }

  /** A deletion that raised took some of the entries between two ranks. */
  lemma LeftTwice(s: seq<Entry>, key: string, refused: set<Entry>, upto: int, objects: set<Entry>, kept: set<Entry>,
      upto': int)
    requires upto <= upto' && refused <= kept
    requires forall e :: e in objects ==> e.key == key && (e.rank <= upto' || e !in s)
    requires forall e :: e in s && e.key == key && upto < e.rank <= upto' ==> e in objects
    ensures Filter(Left(s, key, refused, upto), Spared(objects, kept)) ==
            Left(Left(s, key, refused, upto), key, kept, upto')
    ensures objects == {} ==> Left(Left(s, key, refused, upto), key, kept, upto') == Left(s, key, refused, upto)
  {
    var left := Left(s, key, refused, upto);
    FilterAgain(left, Any(), Spared(objects, kept), Stays(key, kept, upto'));
    FilterAll(left);
    FilterNone(left, objects, kept);
  }

  lemma AheadIsLeft(s: seq<Entry>, key: string, refused: set<Entry>, upto: int)
    ensures forall e :: e in s && e.rank > upto ==> e in Left(s, key, refused, upto)
  {
  }

  lemma OthersTwice(s: seq<Entry>, key: string)
    ensures OthersOf(OthersOf(s, key, {}), key, {}) == OthersOf(s, key, {})
  {
    FilterAgain(s, Other(key, {}), Other(key, {}), Other(key, {}));
  }

  lemma LeftThenOthers(s: seq<Entry>, key: string, refused: set<Entry>, upto: int)
    ensures OthersOf(Left(s, key, refused, upto), key, {}) == OthersOf(s, key, {})
  {
    FilterAgain(s, Stays(key, refused, upto), Other(key, {}), Other(key, {}));
  }
}
