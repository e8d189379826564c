/** The hash-chained audit log. SHA-256 is a parameter of which only this is known: its results are
    not empty and have no colon. Where a statement needs more, it offers two different texts hashed
    for the rows at hand whose hashes agree. */
module AuditChain {
  import opened Basics

  /** One chain per organization and site. */
  datatype Chain = Chain(org: nat, site: nat)

  /** `event` is the canonical JSON text of the event; a NULL previous hash reads as "". */
  datatype Row = Row(chain: Chain, stamp: nat, event: string, previous: Digest, hash: Digest)

  type Sha = string -> Digest

  function EventHash(sha: Sha, previous: Digest, event: string): Digest { sha(previous + ":" + event) }

  predicate NoColon(s: string) { forall i :: 0 <= i < |s| ==> s[i] != ':' }

  /** Hexadecimal digests are never empty and have no colon; an injective hash may well be like that. */
  ghost predicate HashForm(sha: Sha) { forall x :: sha(x) != "" && NoColon(sha(x)) }

  /** The text that is hashed for a row. */
  function Text(row: Row): string { row.previous + ":" + row.event }

  /** A row of `a` and a row of `b` have one hash for two different texts. */
  ghost predicate Collision(sha: Sha, a: seq<Row>, b: seq<Row>) {
    exists i, j :: 0 <= i < |a| && 0 <= j < |b| && Text(a[i]) != Text(b[j]) && sha(Text(a[i])) == sha(Text(b[j]))
  }

  // ---------------------------------------------------------------- many chains in one table

  /** The hash of the last row of a chain, or "". */
  function Last(rows: seq<Row>, chain: Chain): Digest {
    if rows == [] then ""
    else if rows[|rows| - 1].chain == chain then rows[|rows| - 1].hash
    else Last(rows[..|rows| - 1], chain)
  }

  predicate Fits(sha: Sha, before: seq<Row>, row: Row) {
    row.previous == Last(before, row.chain) && row.hash == EventHash(sha, row.previous, row.event)
  }

  predicate Valid(sha: Sha, rows: seq<Row>) {
    rows != [] ==> Valid(sha, rows[..|rows| - 1]) && Fits(sha, rows[..|rows| - 1], rows[|rows| - 1])
  }

  function Chains(rows: seq<Row>): set<Chain> { set row | row in rows :: row.chain }

  datatype Verdict = Verified(events: nat, chains: nat) | Broken(events: nat, chain: Chain)

  lemma {:induction false} ValidPrefix(sha: Sha, rows: seq<Row>, n: nat)
    requires Valid(sha, rows) && n <= |rows|
    ensures Valid(sha, rows[..n])
  {
    if n < |rows| {
      assert rows[..|rows| - 1][..n] == rows[..n];
      ValidPrefix(sha, rows[..|rows| - 1], n);
    } else {
      assert rows[..n] == rows;
    }
  }

  lemma LastStep(rows: seq<Row>, i: nat, chain: Chain)
    requires i < |rows|
    ensures Last(rows[..i + 1], chain) == if rows[i].chain == chain then rows[i].hash else Last(rows[..i], chain)
  {
    assert rows[..i + 1][..i] == rows[..i];
  }

  lemma ValidStep(sha: Sha, rows: seq<Row>, i: nat)
    requires i < |rows|
    ensures Valid(sha, rows[..i + 1]) <==> Valid(sha, rows[..i]) && Fits(sha, rows[..i], rows[i])
    ensures Chains(rows[..i + 1]) == Chains(rows[..i]) + {rows[i].chain}
  {
    assert rows[..i + 1][..i] == rows[..i];
    assert rows[..i + 1] == rows[..i] + [rows[i]];
  }

  /** The dictionary knows the last hash of every chain seen. */
  ghost predicate Knows(previousByChain: map<Chain, Digest>, rows: seq<Row>) {
    && previousByChain.Keys == Chains(rows)
    && forall chain :: (if chain in previousByChain then previousByChain[chain] else "") == Last(rows, chain)
  }

  lemma KnowsStep(previousByChain: map<Chain, Digest>, rows: seq<Row>, i: nat)
    requires i < |rows| && Knows(previousByChain, rows[..i])
    ensures Knows(previousByChain[rows[i].chain := rows[i].hash], rows[..i + 1])
  {
    var known := previousByChain[rows[i].chain := rows[i].hash];
    ValidStep(x => x, rows, i);
    forall chain ensures (if chain in known then known[chain] else "") == Last(rows[..i + 1], chain) {
      LastStep(rows, i, chain);
    }
    hide Last, Chains;
  }

  /** One pass with the last hash of each chain in a dictionary. It stops at the first row that does
      not fit, and otherwise counts all rows and all chains. */
  method VerifyAuditChains(sha: Sha, rows: seq<Row>) returns (verdict: Verdict)
    ensures verdict.Verified? <==> Valid(sha, rows)
    ensures verdict.Verified? ==> verdict.events == |rows| && verdict.chains == |Chains(rows)|
    ensures verdict.Broken? ==>
              && verdict.events < |rows| && verdict.chain == rows[verdict.events].chain
              && Valid(sha, rows[..verdict.events]) && !Valid(sha, rows[..verdict.events + 1])
  {
    hide Chains;
    var previousByChain: map<Chain, Digest> := map[];
    var checked := 0;
    assert Knows(previousByChain, rows[..0]) by { NothingKnown(); }
    hide Knows, Last;
    for i := 0 to |rows|
      invariant checked == i && Valid(sha, rows[..i]) && Knows(previousByChain, rows[..i])
    {
      var row := rows[i];
      var expectedPrevious := if row.chain in previousByChain then previousByChain[row.chain] else "";
      var expectedHash := EventHash(sha, expectedPrevious, row.event);
      ValidStep(sha, rows, i);
      KnownLast(previousByChain, rows[..i], row.chain);
      if row.previous != expectedPrevious || row.hash != expectedHash {
        verdict := Broken(checked, row.chain);
        if Valid(sha, rows) { ValidPrefix(sha, rows, i + 1); }
        return;
      }
      KnowsStep(previousByChain, rows, i);
      previousByChain := previousByChain[row.chain := expectedHash];
      checked := checked + 1;
    }
    assert rows[..|rows|] == rows;
    KnownChains(previousByChain, rows);
    verdict := Verified(checked, |previousByChain|);
  }

  lemma NothingKnown()
    ensures Knows(map[], [])
  {
  }

  lemma KnownLast(previousByChain: map<Chain, Digest>, rows: seq<Row>, chain: Chain)
    requires Knows(previousByChain, rows)
    ensures (if chain in previousByChain then previousByChain[chain] else "") == Last(rows, chain)
  {
  }

  lemma KnownChains(previousByChain: map<Chain, Digest>, rows: seq<Row>)
    requires Knows(previousByChain, rows)
    ensures |previousByChain| == |Chains(rows)|
  {
    assert |previousByChain| == |previousByChain.Keys|;
  }

  // ---------------------------------------------------------------- one chain at a time

  function Filter(rows: seq<Row>, chain: Chain): (out: seq<Row>)
    ensures forall row :: row in out ==> row.chain == chain
  {
    if rows == [] then []
    else
      var last := rows[|rows| - 1];
      Filter(rows[..|rows| - 1], chain) + if last.chain == chain then [last] else []
  }

  function Head(rows: seq<Row>): Digest { if rows == [] then "" else rows[|rows| - 1].hash }

  /** A single chain verifies: each row continues the one before. */
  predicate Linked(sha: Sha, rows: seq<Row>) {
    rows != [] ==>
      && Linked(sha, rows[..|rows| - 1])
      && rows[|rows| - 1].previous == Head(rows[..|rows| - 1])
      && rows[|rows| - 1].hash == EventHash(sha, rows[|rows| - 1].previous, rows[|rows| - 1].event)
  }

  lemma {:induction false} LastIsHead(rows: seq<Row>, chain: Chain)
    ensures Last(rows, chain) == Head(Filter(rows, chain))
  {
    if rows != [] { LastIsHead(rows[..|rows| - 1], chain); }
  }

  lemma LinkedStep(sha: Sha, rows: seq<Row>, row: Row)
    ensures Linked(sha, rows + [row]) <==>
      Linked(sha, rows) && row.previous == Head(rows) && row.hash == EventHash(sha, row.previous, row.event)
  {
    assert (rows + [row])[..|rows|] == rows;
  }

  lemma FilterStep(rows: seq<Row>, chain: Chain)
    requires rows != []
    ensures var before, row := rows[..|rows| - 1], rows[|rows| - 1];
            Filter(rows, chain) == if chain == row.chain then Filter(before, chain) + [row] else Filter(before, chain)
  {
  }

  ghost predicate AllLinked(sha: Sha, rows: seq<Row>) { forall chain :: Linked(sha, Filter(rows, chain)) }

  /** Verifying the interleaved rows is verifying each chain alone. */
  lemma {:induction false} ChainByChain(sha: Sha, rows: seq<Row>)
    ensures Valid(sha, rows) <==> AllLinked(sha, rows)
  {
    if rows == [] {
      assert forall chain :: Filter(rows, chain) == [];
    } else {
      var before, row := rows[..|rows| - 1], rows[|rows| - 1];
      ChainByChain(sha, before);
      LastIsHead(before, row.chain);
      LinkedStep(sha, Filter(before, row.chain), row);
      FilterStep(rows, row.chain);
      hide Filter, Linked, Last;
      if AllLinked(sha, before) && Fits(sha, before, row) {
        forall chain ensures Linked(sha, Filter(rows, chain)) { FilterStep(rows, chain); }
      }
      if AllLinked(sha, rows) {
        forall chain ensures Linked(sha, Filter(before, chain)) {
          FilterStep(rows, chain);
          assert Linked(sha, Filter(rows, chain));
        }
      }
    }
  }

  lemma {:induction false} FilterCounts(rows: seq<Row>, row: Row)
    ensures multiset(Filter(rows, row.chain))[row] == multiset(rows)[row]
  {
    if rows != [] {
      FilterCounts(rows[..|rows| - 1], row);
      assert rows == rows[..|rows| - 1] + [rows[|rows| - 1]];
    }
  }

  lemma SameRows(a: seq<Row>, b: seq<Row>)
    requires forall chain :: Filter(a, chain) == Filter(b, chain)
    ensures multiset(a) == multiset(b)
  {
    hide Filter;
    forall row ensures multiset(a)[row] == multiset(b)[row] {
      FilterCounts(a, row);
      FilterCounts(b, row);
    }
  }

  lemma SameCounts(a: seq<Row>, b: seq<Row>)
    requires multiset(a) == multiset(b)
    ensures |a| == |b| && Chains(a) == Chains(b)
  {
    assert |a| == |multiset(a)| && |b| == |multiset(b)|;
    forall row ensures row in a <==> row in b {
      assert row in a <==> row in multiset(a);
    }
  }

  /** The verifier reads by organization, site and time; any order that keeps each chain in its own
      order gives the same verdict and the same counts. */
  lemma OrderOfChains(sha: Sha, a: seq<Row>, b: seq<Row>)
    requires forall chain :: Filter(a, chain) == Filter(b, chain)
    ensures (Valid(sha, a) <==> Valid(sha, b)) && |a| == |b| && Chains(a) == Chains(b)
  {
    hide Filter, Valid, Linked, Chains;
    ChainByChain(sha, a);
    ChainByChain(sha, b);
    SameRows(a, b);
    SameCounts(a, b);
  }

  // ---------------------------------------------------------------- appending

  datatype Append = Append(chain: Chain, stamp: nat, event: string)

  /** Appends one after another, each under the lock of its chain, when the newest row by time is
      the last one appended. */
  function AppendAll(sha: Sha, appends: seq<Append>): (rows: seq<Row>)
    ensures |rows| == |appends|
  {
    if appends == [] then []
    else
      var before := AppendAll(sha, appends[..|appends| - 1]);
      var a := appends[|appends| - 1];
      var previous := Last(before, a.chain);
      before + [Row(a.chain, a.stamp, a.event, previous, EventHash(sha, previous, a.event))]
  }

  lemma ChainsStep(rows: seq<Row>, row: Row)
    ensures Chains(rows + [row]) == Chains(rows) + {row.chain}
  {
    assert (rows + [row])[|rows|] == row;
    forall r | r in rows ensures r in rows + [row] {}
  }

  /** Any interleaving of appends to any number of chains verifies, with every event counted. */
  lemma {:induction false} AppendsVerify(sha: Sha, appends: seq<Append>)
    ensures Valid(sha, AppendAll(sha, appends))
    ensures Chains(AppendAll(sha, appends)) == ChainsOf(appends)
  {
    if appends != [] {
      var init, a := appends[..|appends| - 1], appends[|appends| - 1];
      AppendsVerify(sha, init);
      var before, rows := AppendAll(sha, init), AppendAll(sha, appends);
      assert rows[..|rows| - 1] == before;
      ChainsStep(before, rows[|rows| - 1]);
      hide Chains;
    }
  }

  function ChainsOf(appends: seq<Append>): set<Chain> {
    if appends == [] then {} else ChainsOf(appends[..|appends| - 1]) + {appends[|appends| - 1].chain}
  }

  // ---------------------------------------------------------------- what a head hash determines

  /** "previous:event" splits at its first colon only. */
  lemma {:induction false} SplitsOnce(p: string, e: string, q: string, f: string)
    requires NoColon(p) && NoColon(q) && p + ":" + e == q + ":" + f
    ensures p == q && e == f
  {
    var x, y := p + ":" + e, q + ":" + f;
    assert x[|p|] == ':' && y[|q|] == ':';
    assert x[..|p|] == p && y[..|q|] == q && x[|p| + 1..] == e && y[|q| + 1..] == f;
  }

  lemma HeadForm(sha: Sha, rows: seq<Row>)
    requires HashForm(sha) && Linked(sha, rows)
    ensures NoColon(Head(rows)) && (Head(rows) == "" <==> rows == [])
  {
    if rows != [] { assert Head(rows) == sha(Text(rows[|rows| - 1])); }
  }

  lemma {:induction false} LinkedPrefix(sha: Sha, rows: seq<Row>, n: nat)
    requires Linked(sha, rows) && n <= |rows|
    ensures Linked(sha, rows[..n])
  {
    if n < |rows| {
      assert rows[..|rows| - 1][..n] == rows[..n];
      LinkedPrefix(sha, rows[..|rows| - 1], n);
    } else {
      assert rows[..n] == rows;
    }
  }

  lemma {:induction false} LinkedAt(sha: Sha, rows: seq<Row>, n: nat)
    requires Linked(sha, rows) && n < |rows|
    ensures rows[n].previous == Head(rows[..n])
  {
    if n < |rows| - 1 {
      LinkedAt(sha, rows[..|rows| - 1], n);
      assert rows[..|rows| - 1][..n] == rows[..n];
    }
  }

  lemma {:induction false} HashAt(sha: Sha, rows: seq<Row>, n: nat)
    requires Linked(sha, rows) && n < |rows|
    ensures Head(rows[..n + 1]) == rows[n].hash == EventHash(sha, rows[n].previous, rows[n].event)
  {
    if n < |rows| - 1 {
      HashAt(sha, rows[..|rows| - 1], n);
      assert rows[..|rows| - 1][..n + 1] == rows[..n + 1];
    } else {
      assert rows[..n + 1] == rows;
    }
  }

  lemma LinkFacts(sha: Sha, rows: seq<Row>, n: nat)
    requires HashForm(sha) && Linked(sha, rows) && n < |rows|
    ensures rows[n].previous == Head(rows[..n]) && NoColon(rows[n].previous)
    ensures Head(rows[..n + 1]) == EventHash(sha, rows[n].previous, rows[n].event) && Head(rows[..n + 1]) != ""
  {
    hide Linked, Head, HashForm, NoColon;
    LinkedAt(sha, rows, n);
    HashAt(sha, rows, n);
    LinkedPrefix(sha, rows, n);
    LinkedPrefix(sha, rows, n + 1);
    HeadForm(sha, rows[..n]);
    HeadForm(sha, rows[..n + 1]);
  }

  /** Two rows with one hash have the same predecessor and event, or they collide. */
  lemma SameHash(sha: Sha, a: seq<Row>, b: seq<Row>, i: nat, j: nat)
    requires i < |a| && j < |b| && NoColon(a[i].previous) && NoColon(b[j].previous)
             && sha(Text(a[i])) == sha(Text(b[j]))
    ensures (a[i].previous == b[j].previous && a[i].event == b[j].event) || Collision(sha, a, b)
  {
    if Text(a[i]) == Text(b[j]) { SplitsOnce(a[i].previous, a[i].event, b[j].previous, b[j].event); }
  }

  /** No hash occurs twice in a verified chain, unless two of its own rows collide. */
  lemma {:induction false} HashesDistinct(sha: Sha, rows: seq<Row>, i: nat, j: nat)
    requires HashForm(sha) && Linked(sha, rows) && i < j <= |rows| && Head(rows[..i]) == Head(rows[..j])
    ensures Collision(sha, rows, rows)
    decreases i
  {
    hide Linked, HashForm, NoColon, Collision;
    LinkFacts(sha, rows, j - 1);
    if i > 0 {
      hide Head;
      LinkFacts(sha, rows, i - 1);
      SameHash(sha, rows, rows, i - 1, j - 1);
      if rows[i - 1].previous == rows[j - 1].previous { HashesDistinct(sha, rows, i - 1, j - 1); }
    }
  }

  lemma CollisionGrows(sha: Sha, a: seq<Row>, b: seq<Row>)
    requires a != [] && b != [] && Collision(sha, a[..|a| - 1], b[..|b| - 1])
    ensures Collision(sha, a, b)
  {
    var i, j :|
      0 <= i < |a| - 1 && 0 <= j < |b| - 1 && Text(a[..|a| - 1][i]) != Text(b[..|b| - 1][j])
      && sha(Text(a[..|a| - 1][i])) == sha(Text(b[..|b| - 1][j]));
    assert Text(a[i]) != Text(b[j]) && sha(Text(a[i])) == sha(Text(b[j]));
  }

  ghost predicate SameHistory(a: seq<Row>, b: seq<Row>) {
    |a| == |b| && forall i :: 0 <= i < |a| ==>
      a[i].event == b[i].event && a[i].previous == b[i].previous && a[i].hash == b[i].hash
  }

  /** Two verified chains with one head are the same, event for event and hash for hash, unless a row
      of one and a row of the other collide. */
  lemma {:induction false} HeadDetermines(sha: Sha, a: seq<Row>, b: seq<Row>)
    requires HashForm(sha) && Linked(sha, a) && Linked(sha, b)
    ensures SameHistory(a, b) ==> Head(a) == Head(b)
    ensures Head(a) == Head(b) ==> SameHistory(a, b) || Collision(sha, a, b)
    decreases |a|
  {
    HeadForm(sha, a);
    HeadForm(sha, b);
    if a != [] && b != [] && Head(a) == Head(b) {
      HeadForm(sha, a[..|a| - 1]);
      HeadForm(sha, b[..|b| - 1]);
      SameHash(sha, a, b, |a| - 1, |b| - 1);
      if !Collision(sha, a, b) {
        HeadDetermines(sha, a[..|a| - 1], b[..|b| - 1]);
        if Collision(sha, a[..|a| - 1], b[..|b| - 1]) { CollisionGrows(sha, a, b); }
        hide Linked, HashForm, NoColon, Collision;
        forall i | 0 <= i < |a| == |b|
          ensures a[i].event == b[i].event && a[i].previous == b[i].previous && a[i].hash == b[i].hash {
          if i < |a| - 1 { assert a[i] == a[..|a| - 1][i] && b[i] == b[..|b| - 1][i]; }
        }
      }
    }
  }

  // ---------------------------------------------------------------- order of time and order of appending

  /** ORDER BY created_at DESC, id DESC LIMIT 1; the pair is the stamp. */
  function Newest(rows: seq<Row>): (k: nat)
    requires rows != []
    ensures k < |rows| && forall i :: 0 <= i < |rows| ==> rows[i].stamp <= rows[k].stamp
  {
    if |rows| == 1 then 0
    else
      var k := Newest(rows[..|rows| - 1]);
      assert forall i :: 0 <= i < |rows| - 1 ==> rows[i] == rows[..|rows| - 1][i];
      if rows[|rows| - 1].stamp > rows[k].stamp then |rows| - 1 else k
  }

  function NewestHash(rows: seq<Row>): Digest { if rows == [] then "" else rows[Newest(rows)].hash }

  /** The rows of one chain in the order they were appended, each continuing the newest row of its time. */
  predicate Appended(sha: Sha, rows: seq<Row>) {
    rows != [] ==>
      var init, last := rows[..|rows| - 1], rows[|rows| - 1];
      Appended(sha, init) && last.previous == NewestHash(init) && last.hash == EventHash(sha, last.previous, last.event)
  }

  predicate InOrder(rows: seq<Row>) { forall i, j :: 0 <= i < j < |rows| ==> rows[i].stamp < rows[j].stamp }

  predicate DistinctStamps(rows: seq<Row>) { forall i, j :: 0 <= i < j < |rows| ==> rows[i].stamp != rows[j].stamp }

  ghost predicate SameSet(a: seq<Row>, b: seq<Row>) { forall row :: row in a <==> row in b }

  lemma NewestInOrder(rows: seq<Row>)
    requires InOrder(rows)
    ensures NewestHash(rows) == Head(rows)
  {
    if rows != [] { assert rows[|rows| - 1].stamp <= rows[Newest(rows)].stamp; }
  }

  lemma {:induction false} InOrderLinks(sha: Sha, rows: seq<Row>)
    requires Appended(sha, rows) && InOrder(rows)
    ensures Linked(sha, rows)
  {
    if rows != [] {
      InOrderLinks(sha, rows[..|rows| - 1]);
      NewestInOrder(rows[..|rows| - 1]);
    }
  }

  /** What the verifier reads of rows appended in order is those rows. */
  lemma {:induction false} SortedOnce(rows: seq<Row>, sorted: seq<Row>)
    requires InOrder(rows) && InOrder(sorted) && SameSet(rows, sorted)
    ensures rows == sorted
  {
    assert sorted != [] ==> sorted[0] in sorted;
    assert rows != [] ==> rows[|rows| - 1] in sorted;
    if rows != [] {
      var m, n := |rows| - 1, |sorted| - 1;
      assert sorted[n] in rows;
      assert rows[m] == sorted[n];
      forall row ensures row in rows[..m] <==> row in sorted[..n] {
        InitMember(rows, row);
        InitMember(sorted, row);
      }
      SortedOnce(rows[..m], sorted[..n]);
      assert rows == rows[..m] + [rows[m]] && sorted == sorted[..n] + [sorted[n]];
    }
  }

  lemma InitMember(rows: seq<Row>, row: Row)
    requires rows != [] && InOrder(rows)
    ensures row in rows[..|rows| - 1] <==> row in rows && row != rows[|rows| - 1]
  {
  }

  lemma {:induction false} AppendedAt(sha: Sha, rows: seq<Row>, n: nat)
    requires Appended(sha, rows) && n < |rows|
    ensures rows[n].previous == NewestHash(rows[..n])
  {
    if n < |rows| - 1 {
      AppendedAt(sha, rows[..|rows| - 1], n);
      assert rows[..|rows| - 1][..n] == rows[..n];
    }
  }

  /** In a verified chain no row continues a later one. */
  lemma NeverBackwards(sha: Sha, sorted: seq<Row>, p: nat, q: nat)
    requires HashForm(sha) && Linked(sha, sorted) && p < q < |sorted| && sorted[p].previous == sorted[q].hash
    ensures Collision(sha, sorted, sorted)
  {
    hide Collision, HashForm, Linked, Head, NoColon, EventHash;
    LinkFacts(sha, sorted, p);
    HashAt(sha, sorted, q);
    HashesDistinct(sha, sorted, p, q + 1);
  }

  lemma OutOfOrderBreaks(sha: Sha, rows: seq<Row>, sorted: seq<Row>, n: nat)
    requires HashForm(sha) && Appended(sha, rows)
    requires InOrder(sorted) && SameSet(rows, sorted) && Linked(sha, sorted)
    requires 0 < n < |rows| && rows[n].stamp < rows[..n][Newest(rows[..n])].stamp
    ensures Collision(sha, sorted, sorted)
  {
    hide Collision, HashForm, Linked;
    AppendedAt(sha, rows, n);
    hide Appended;
    var k := Newest(rows[..n]);
    assert rows[..n][k] == rows[k];
    assert rows[n] in sorted && rows[k] in sorted;
    var p :| 0 <= p < |sorted| && sorted[p] == rows[n];
    var q :| 0 <= q < |sorted| && sorted[q] == rows[k];
    NeverBackwards(sha, sorted, p, q);
  }

  /** A chain verifies exactly when its rows were appended in the order of their stamps, unless two of them collide. */
  lemma VerifiesIffInOrder(sha: Sha, rows: seq<Row>, sorted: seq<Row>)
    requires HashForm(sha) && Appended(sha, rows) && DistinctStamps(rows)
    requires InOrder(sorted) && SameSet(rows, sorted)
    ensures InOrder(rows) ==> Linked(sha, sorted)
    ensures Linked(sha, sorted) ==> InOrder(rows) || Collision(sha, sorted, sorted)
  {
    hide Collision, HashForm;
    if InOrder(rows) {
      SortedOnce(rows, sorted);
      InOrderLinks(sha, rows);
    } else if Linked(sha, sorted) {
      var n := FirstLate(rows);
      OutOfOrderBreaks(sha, rows, sorted, n);
    }
  }

  /** The first row appended after a newer one. */
  lemma {:induction false} FirstLate(rows: seq<Row>) returns (n: nat)
    requires DistinctStamps(rows) && !InOrder(rows)
    ensures 0 < n < |rows| && rows[n].stamp < rows[..n][Newest(rows[..n])].stamp
  {
    var init := rows[..|rows| - 1];
    if !InOrder(init) {
      n := FirstLate(init);
      assert init[..n] == rows[..n];
    } else {
      n := |rows| - 1;
      var i :| 0 <= i < n && rows[i].stamp >= rows[n].stamp;
      assert rows[..n][i].stamp <= rows[..n][Newest(rows[..n])].stamp;
    }
  }

  // ---------------------------------------------------------------- the table

  class AuditLog {
    var rows: seq<Row>   // in the order they were appended

    /** One event under the lock of its chain: it continues the newest row of the chain by time. Every
        chain stays one in which each row continues the newest before it; only this chain grows. */
    method Append(sha: Sha, chain: Chain, stamp: nat, event: string)
      modifies this
      ensures var previous := NewestHash(Filter(old(rows), chain));
              rows == old(rows) + [Row(chain, stamp, event, previous, EventHash(sha, previous, event))]
      ensures forall c :: c != chain ==> Filter(rows, c) == Filter(old(rows), c)
      ensures Appended(sha, Filter(old(rows), chain)) ==> Appended(sha, Filter(rows, chain))
    {
      var previous := NewestHash(Filter(rows, chain));
      var row := Row(chain, stamp, event, previous, EventHash(sha, previous, event));
      ghost var before := rows;
      rows := rows + [row];
      AppendedMore(sha, before, row);
    }
  }

  lemma AppendedMore(sha: Sha, rows: seq<Row>, row: Row)
    requires row.previous == NewestHash(Filter(rows, row.chain)) && row.hash == EventHash(sha, row.previous, row.event)
    ensures forall c :: c != row.chain ==> Filter(rows + [row], c) == Filter(rows, c)
    ensures Appended(sha, Filter(rows, row.chain)) ==> Appended(sha, Filter(rows + [row], row.chain))
  {
    assert (rows + [row])[..|rows|] == rows;
    var mine := Filter(rows, row.chain);
    assert Filter(rows + [row], row.chain) == mine + [row];
    assert (mine + [row])[..|mine|] == mine;
  }

  // ---------------------------------------------------------------- after a purge

  /** The rows at the given positions. */
  function Pick(rows: seq<Row>, kept: seq<nat>): (out: seq<Row>)
    requires forall k :: 0 <= k < |kept| ==> kept[k] < |rows|
    ensures |out| == |kept| && forall k :: 0 <= k < |kept| ==> out[k] == rows[kept[k]]
  {
    seq(|kept|, k requires 0 <= k < |kept| => rows[kept[k]])
  }

  predicate IsPrefix(kept: seq<nat>) { forall k :: 0 <= k < |kept| ==> kept[k] == k }

  lemma {:induction false} FirstGap(kept: seq<nat>) returns (k: nat)
    requires (forall i, j :: 0 <= i < j < |kept| ==> kept[i] < kept[j]) && !IsPrefix(kept)
    ensures k < |kept| && kept[k] > k && forall i :: 0 <= i < k ==> kept[i] == i
  {
    if !IsPrefix(kept[..|kept| - 1]) {
      k := FirstGap(kept[..|kept| - 1]);
    } else {
      k := |kept| - 1;
      if k > 0 { assert kept[..k][k - 1] == k - 1 && kept[k - 1] < kept[k]; }
      forall i | 0 <= i < k ensures kept[i] == i { assert kept[..k][i] == i; }
    }
  }

  lemma GapBreaks(sha: Sha, rows: seq<Row>, left: seq<Row>, k: nat, i: nat)
    requires HashForm(sha) && Linked(sha, rows) && Linked(sha, left)
    requires k < i < |rows| && k < |left| && left[..k] == rows[..k] && left[k] == rows[i]
    ensures Collision(sha, rows, rows)
  {
    hide Collision, HashForm, Linked, Head;
    LinkedAt(sha, left, k);
    LinkedAt(sha, rows, i);
    HashesDistinct(sha, rows, k, i);
  }

  lemma PickPrefix(rows: seq<Row>, kept: seq<nat>, k: nat)
    requires (forall i :: 0 <= i < |kept| ==> kept[i] < |rows|) && k <= |kept|
             && forall i :: 0 <= i < k ==> kept[i] == i
    ensures k <= |rows| && Pick(rows, kept)[..k] == rows[..k]
  {
    if k > 0 { assert kept[k - 1] == k - 1; }
  }

  /** After rows of a verified chain are deleted, what is left verifies exactly when it is a prefix,
      unless two of its rows collide. */
  lemma PurgedVerifiesIffPrefix(sha: Sha, rows: seq<Row>, kept: seq<nat>)
    requires HashForm(sha) && Linked(sha, rows)
    requires (forall k :: 0 <= k < |kept| ==> kept[k] < |rows|)
             && forall i, j :: 0 <= i < j < |kept| ==> kept[i] < kept[j]
    ensures IsPrefix(kept) ==> Linked(sha, Pick(rows, kept))
    ensures Linked(sha, Pick(rows, kept)) ==> IsPrefix(kept) || Collision(sha, rows, rows)
  {
    hide Collision, HashForm, Linked;
    var left := Pick(rows, kept);
    if IsPrefix(kept) {
      PickPrefix(rows, kept, |kept|);
      assert left[..|kept|] == left;
      LinkedPrefix(sha, rows, |kept|);
    } else if Linked(sha, left) {
      var k := FirstGap(kept);
      PickPrefix(rows, kept, k);
      GapBreaks(sha, rows, left, k, kept[k]);
    }
  }

  // ---------------------------------------------------------------- the local operator chain

  /** The single chain of local operator events, verified with one running hash. */
  method VerifyLocalOperatorChain(sha: Sha, rows: seq<Row>) returns (valid: bool, checked: nat)
    ensures valid <==> Linked(sha, rows)
    ensures valid ==> checked == |rows|
    ensures !valid ==> checked < |rows| && Linked(sha, rows[..checked]) && !Linked(sha, rows[..checked + 1])
  {
    var previous: Digest := "";
    checked := 0;
    for i := 0 to |rows|
      invariant checked == i && Linked(sha, rows[..i]) && previous == Head(rows[..i])
    {
      var expected := EventHash(sha, previous, rows[i].event);
      assert rows[..i + 1][..i] == rows[..i];
      if rows[i].previous != previous || rows[i].hash != expected {
        if Linked(sha, rows) { LinkedPrefix(sha, rows, i + 1); }
        return false, checked;
      }
      previous := expected;
      checked := checked + 1;
    }
    assert rows[..|rows|] == rows;
    valid := true;
  }
}
