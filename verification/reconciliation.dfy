/** The reconciliation of purchase orders, imported from CSV files again and again, with what
    reviewers verified on site. Quantities are real numbers. */
module Reconciliation {
  import opened Basics

  /** Purchase order, material and unit. */
  datatype Key = Key(po: string, material: string, unit: string)

  datatype PurchaseOrder = PurchaseOrder(key: Key, quantity: real)

  /** One import: its rows have distinct keys, as the parser demands. */
  type Import = seq<PurchaseOrder>

  datatype VerifiedReceipt = VerifiedReceipt(receipt: nat, key: Key, quantity: real)

  datatype DeltaRow = DeltaRow(key: Key, poQuantity: real, siteReceived: real, isOver: bool)

  // ---------------------------------------------------------------- units

  /** The ASCII characters that strip() removes. */
  predicate Space(c: char) { c == ' ' || '\t' <= c <= '\r' || '\U{001c}' <= c <= '\U{001f}' }

  function Upper(s: string): (u: string)
    ensures |u| == |s|
    ensures forall i :: 0 <= i < |s| ==> u[i] == if 'a' <= s[i] <= 'z' then s[i] - 'a' + 'A' else s[i]
  {
    seq(|s|, i requires 0 <= i < |s| => if 'a' <= s[i] <= 'z' then s[i] - 'a' + 'A' else s[i])
  }

  function StripLeft(s: string): string { if s != "" && Space(s[0]) then StripLeft(s[1..]) else s }

  function StripRight(s: string): string { if s != "" && Space(s[|s| - 1]) then StripRight(s[..|s| - 1]) else s }

  function Strip(s: string): string { StripRight(StripLeft(s)) }

  const ALIASES: map<string, string> :=
    map["BAGS" := "BAG", "BAG" := "BAG", "TONNES" := "MT", "TONNE" := "MT", "TON" := "MT", "MTS" := "MT"]

  function NormalizeUnit(value: string): string {
    var normalized := Upper(Strip(value));
    if normalized in ALIASES then ALIASES[normalized] else normalized
  }

  predicate Stripped(s: string) { s == "" || (!Space(s[0]) && !Space(s[|s| - 1])) }

  lemma {:induction false} StripRightEnds(s: string)
    ensures var t := StripRight(s); t <= s && (t == "" || !Space(t[|t| - 1]))
  {
    if s != "" && Space(s[|s| - 1]) { StripRightEnds(s[..|s| - 1]); }
  }

  lemma {:induction false} StripLeftStarts(s: string)
    ensures var t := StripLeft(s); t == "" || !Space(t[0])
  {
    if s != "" && Space(s[0]) { StripLeftStarts(s[1..]); }
  }

  lemma StripStrips(s: string)
    ensures Stripped(Strip(s))
  {
    StripLeftStarts(s);
    StripRightEnds(StripLeft(s));
  }

  /** Normalizing a unit twice is normalizing it once, so both sides of a comparison agree on it. */
  lemma NormalizedOnce(value: string)
    ensures NormalizeUnit(NormalizeUnit(value)) == NormalizeUnit(value)
  {
    StripStrips(value);
    var unit := NormalizeUnit(value);
    if Upper(Strip(value)) in ALIASES {
      assert unit == "BAG" || unit == "MT";
      assert Strip(unit) == unit && Upper(unit) == unit;
    } else {
      assert Stripped(unit) && Strip(unit) == unit;
      assert Upper(unit) == unit;
    }
  }

  // ---------------------------------------------------------------- parsing

  datatype RawRow = RawRow(po: string, material: string, quantity: real, unit: string)

  datatype ParseResult = Rows(rows: Import) | InvalidRow | EmptyImport | DuplicateRow

  function OrderOf(raw: RawRow): PurchaseOrder {
    PurchaseOrder(Key(Upper(Strip(raw.po)), Upper(Strip(raw.material)), NormalizeUnit(raw.unit)), raw.quantity)
  }

  predicate ValidOrder(order: PurchaseOrder) {
    order.key.po != "" && order.key.material != "" && order.key.unit != "" && order.quantity >= 0.0
  }

  predicate Blank(s: string) { forall c :: c in s ==> Space(c) }

  /** `t` is `s` without the spaces around it. */
  ghost predicate Core(s: string, t: string) { exists i: nat, j: nat :: CoreAt(s, t, i, j) }

  predicate CoreAt(s: string, t: string, i: nat, j: nat) {
    && (t == "" || (!Space(t[0]) && !Space(t[|t| - 1])))
    && i <= j <= |s| && t == s[i..j] && Blank(s[..i]) && Blank(s[j..])
  }

  lemma {:induction false} StripLeftCuts(s: string) returns (i: nat)
    ensures i <= |s| && StripLeft(s) == s[i..] && Blank(s[..i])
  {
    if s != "" && Space(s[0]) {
      i := StripLeftCuts(s[1..]);
      i := i + 1;
      assert s[..i] == [s[0]] + s[1..][..i - 1];
    } else {
      i := 0;
    }
  }

  lemma {:induction false} StripRightCuts(s: string) returns (j: nat)
    ensures j <= |s| && StripRight(s) == s[..j] && Blank(s[j..])
  {
    if s != "" && Space(s[|s| - 1]) {
      j := StripRightCuts(s[..|s| - 1]);
      assert s[j..] == s[..|s| - 1][j..] + [s[|s| - 1]];
    } else {
      j := |s|;
    }
  }

  lemma BlankEnds(s: string, i: nat, j: nat)
    requires i <= j <= |s| && Blank(s[..i]) && Blank(s[j..])
    ensures forall m :: 0 <= m < i || j <= m < |s| ==> Space(s[m])
  {
    forall m | 0 <= m < i || j <= m < |s| ensures Space(s[m]) {
      if m < i { assert s[m] in s[..i]; } else { assert s[m] == s[j..][m - j]; }
    }
  }

  lemma SameEnds(s: string, i: nat, j: nat, k: nat, l: nat)
    requires i <= j <= |s| && k <= l <= |s|
    requires forall m :: 0 <= m < i || j <= m < |s| ==> Space(s[m])
    requires forall m :: 0 <= m < k || l <= m < |s| ==> Space(s[m])
    requires i < j ==> !Space(s[i]) && !Space(s[j - 1])
    requires k < l ==> !Space(s[k]) && !Space(s[l - 1])
    ensures s[i..j] == s[k..l]
  {
    hide Space;
  }

  /** Two cores of one string are the same. */
  lemma OneCore(s: string, t: string, u: string)
    requires Core(s, t) && Core(s, u)
    ensures t == u
  {
    hide CoreAt;
    var i: nat, j: nat :| CoreAt(s, t, i, j);
    var k: nat, l: nat :| CoreAt(s, u, k, l);
    OneCoreAt(s, t, u, i, j, k, l);
  }

  lemma OneCoreAt(s: string, t: string, u: string, i: nat, j: nat, k: nat, l: nat)
    requires CoreAt(s, t, i, j) && CoreAt(s, u, k, l)
    ensures t == u
  {
    hide Space, Blank;
    BlankEnds(s, i, j);
    BlankEnds(s, k, l);
    SameEnds(s, i, j, k, l);
  }

  /** Stripping yields the one core there is; the spaces are the characters 9 to 13 and 28 to 32. */
  lemma StripExactly(s: string, t: string)
    ensures Strip(s) == t <==> Core(s, t)
    ensures forall c: char :: Space(c) <==> 9 <= c as int <= 13 || 28 <= c as int <= 32
  {
    StripStrips(s);
    var i := StripLeftCuts(s);
    var j := StripRightCuts(s[i..]);
    assert Strip(s) == s[i..][..j] == s[i..i + j];
    assert s[i..][j..] == s[i + j..];
    assert CoreAt(s, Strip(s), i, i + j);
    if Core(s, t) { OneCore(s, t, Strip(s)); }
  }

  /** A row of a file means: the order number, the material and the unit without the spaces around them
      in capitals, bags and tonnes under one name each, and the quantity as it is. */
  lemma OrderExactly(raw: RawRow, po: string, material: string, unit: string)
    requires Core(raw.po, po) && Core(raw.material, material) && Core(raw.unit, unit)
    ensures OrderOf(raw) == PurchaseOrder(Key(Upper(po), Upper(material), UnitName(Upper(unit))), raw.quantity)
  {
    hide Core;
    StripExactly(raw.po, po);
    StripExactly(raw.material, material);
    StripExactly(raw.unit, unit);
    hide Strip, Upper, UnitName, NormalizeUnit;
    UnitExactly(raw.unit, unit);
  }

  function UnitName(unit: string): string {
    if unit == "BAGS" then "BAG"
    else if unit == "TONNES" || unit == "TONNE" || unit == "TON" || unit == "MTS" then "MT"
    else unit
  }

  lemma UnitExactly(value: string, unit: string)
    requires Strip(value) == unit
    ensures NormalizeUnit(value) == UnitName(Upper(unit))
  {
    hide Strip, Upper;
  }

  predicate DistinctKeys(rows: Import) { forall i, j :: 0 <= i < j < |rows| ==> rows[i].key != rows[j].key }

  /** Each row is read and checked in turn; the whole import is refused if two rows have one key. */
  method ParseTallyCsv(raws: seq<RawRow>) returns (result: ParseResult)
    ensures result.Rows? ==> |result.rows| == |raws| > 0 && DistinctKeys(result.rows)
    ensures result.Rows? ==>
      forall i :: 0 <= i < |raws| ==> result.rows[i] == OrderOf(raws[i]) && ValidOrder(result.rows[i])
    ensures result.InvalidRow? <==> exists raw :: raw in raws && !ValidOrder(OrderOf(raw))
    ensures result.EmptyImport? <==> raws == []
    ensures result.DuplicateRow? ==> exists i, j :: 0 <= i < j < |raws| && OrderOf(raws[i]).key == OrderOf(raws[j]).key
  {
    var rows: Import := [];
    for i := 0 to |raws|
      invariant |rows| == i && forall k :: 0 <= k < i ==> rows[k] == OrderOf(raws[k]) && ValidOrder(rows[k])
    {
      var row := OrderOf(raws[i]);
      if row.key.po == "" || row.key.material == "" || row.key.unit == "" || row.quantity < 0.0 {
        assert raws[i] in raws;
        return InvalidRow;
      }
      rows := rows + [row];
    }
    if rows == [] { return EmptyImport; }
    var distinct := AllDistinct(rows);
    if !distinct { return DuplicateRow; }
    result := Rows(rows);
  }

  /** As many identities as rows. */
  method AllDistinct(rows: Import) returns (distinct: bool)
    ensures distinct <==> DistinctKeys(rows)
  {
    var identities: set<Key> := {};
    for i := 0 to |rows|
      invariant forall key :: key in identities <==> exists k :: 0 <= k < i && rows[k].key == key
      invariant DistinctKeys(rows[..i])
    {
      if rows[i].key in identities { return false; }
      identities := identities + {rows[i].key};
      assert forall a, b :: 0 <= a < b < i ==> rows[..i][a].key != rows[..i][b].key;
    }
    assert rows[..|rows|] == rows;
    distinct := true;
  }

  // ---------------------------------------------------------------- storing imports

  /** A parsed file with the checksum of its text. */
  datatype Upload = Upload(checksum: Digest, rows: Import)

  /** A text that the site already has is not stored again. */
  function Imported(stored: seq<Upload>, upload: Upload): seq<Upload> {
    if Known(stored, upload.checksum) then stored else stored + [upload]
  }

  predicate Known(stored: seq<Upload>, checksum: Digest) { exists u :: u in stored && u.checksum == checksum }

  function RowsOf(stored: seq<Upload>): (imports: seq<Import>)
    ensures |imports| == |stored| && forall i :: 0 <= i < |stored| ==> imports[i] == stored[i].rows
  {
    seq(|stored|, i requires 0 <= i < |stored| => stored[i].rows)
  }

  class TallyImports {
    var imports: seq<Upload>   // in the order of their time

    method ImportTally(upload: Upload) returns (duplicate: bool)
      modifies this
      ensures imports == Imported(old(imports), upload) && duplicate == Known(old(imports), upload.checksum)
    {
      duplicate := exists u :: u in imports && u.checksum == upload.checksum;
      if !duplicate { imports := imports + [upload]; }
    }
  }

  // ---------------------------------------------------------------- the newest row of each key

  predicate Mentions(rows: Import, key: Key) { exists row :: row in rows && row.key == key }

  /** SELECT DISTINCT ON (key) … ORDER BY key, imported_at DESC, with the imports in order of their time. */
  function Orders(imports: seq<Import>): map<Key, real> {
    if imports == [] then map[] else AddRows(Orders(imports[..|imports| - 1]), imports[|imports| - 1])
  }

  function AddRows(orders: map<Key, real>, rows: Import): map<Key, real> {
    if rows == [] then orders
    else AddRows(orders, rows[..|rows| - 1])[rows[|rows| - 1].key := rows[|rows| - 1].quantity]
  }

  lemma {:induction false} RowsAdded(orders: map<Key, real>, rows: Import, key: Key)
    requires DistinctKeys(rows)
    ensures key in AddRows(orders, rows) <==> key in orders || Mentions(rows, key)
    ensures forall row :: row in rows && row.key == key ==> AddRows(orders, rows)[key] == row.quantity
    ensures key in orders && !Mentions(rows, key) ==> AddRows(orders, rows)[key] == orders[key]
  {
    if rows != [] {
      var init, last := rows[..|rows| - 1], rows[|rows| - 1];
      assert rows == init + [last];
      RowsAdded(orders, init, key);
      assert Mentions(rows, key) <==> Mentions(init, key) || last.key == key by {
        if last.key == key { assert last in rows; }
        if Mentions(init, key) {
          var row :| row in init && row.key == key;
          assert row in rows;
        }
      }
    }
  }

  /** Import `n` is the last one that mentions the key, with this quantity. */
  ghost predicate LatestIn(imports: seq<Import>, n: nat, key: Key, quantity: real) {
    && n < |imports| && PurchaseOrder(key, quantity) in imports[n]
    && forall m :: n < m < |imports| ==> !Mentions(imports[m], key)
  }

  /** A key is listed exactly when some import mentioned it, with the quantity of the latest that did. */
  lemma {:induction false} OrdersAreLatest(imports: seq<Import>, key: Key)
    requires forall rows :: rows in imports ==> DistinctKeys(rows)
    ensures key in Orders(imports) <==> exists n :: 0 <= n < |imports| && Mentions(imports[n], key)
    ensures key in Orders(imports) ==> exists n: nat :: LatestIn(imports, n, key, Orders(imports)[key])
  {
    if imports != [] {
      var init, last := imports[..|imports| - 1], imports[|imports| - 1];
      assert last in imports && forall rows :: rows in init ==> rows in imports;
      OrdersAreLatest(init, key);
      RowsAdded(Orders(init), last, key);
      if Mentions(last, key) {
        var row :| row in last && row.key == key;
        assert imports[|imports| - 1] == last && row == PurchaseOrder(key, row.quantity);
        assert LatestIn(imports, |imports| - 1, key, row.quantity);
      } else if key in Orders(init) {
        var n: nat :| LatestIn(init, n, key, Orders(init)[key]);
        assert imports[n] == init[n] && forall m :: n < m < |init| ==> imports[m] == init[m];
        assert LatestIn(imports, n, key, Orders(imports)[key]);
        assert exists n :: 0 <= n < |imports| && Mentions(imports[n], key) by { assert Mentions(imports[n], key); }
      } else {
        assert forall n :: 0 <= n < |init| ==> imports[n] == init[n];
      }
    }
  }

  lemma OrdersAppend(imports: seq<Import>, rows: Import)
    ensures Orders(imports + [rows]) == AddRows(Orders(imports), rows)
  {
    assert (imports + [rows])[..|imports|] == imports;
  }

  /** Every row of the file is in the orders already, with its quantity. */
  predicate UpToDate(orders: map<Key, real>, rows: Import) {
    forall row :: row in rows ==> row.key in orders && orders[row.key] == row.quantity
  }

  lemma UpToDateExactly(orders: map<Key, real>, rows: Import)
    requires DistinctKeys(rows)
    ensures AddRows(orders, rows) == orders <==> UpToDate(orders, rows)
  {
    hide AddRows;
    if AddRows(orders, rows) == orders {
      forall row | row in rows ensures row.key in orders && orders[row.key] == row.quantity {
        RowsAdded(orders, rows, row.key);
        assert Mentions(rows, row.key);
      }
    }
    if UpToDate(orders, rows) {
      forall key ensures key in AddRows(orders, rows) <==> key in orders { RowsAdded(orders, rows, key); }
      forall key | key in orders ensures AddRows(orders, rows)[key] == orders[key] { RowsAdded(orders, rows, key); }
    }
  }

  /** After an import the orders are those that its rows overwrite, exactly if its text is new to the
      site or changes nothing: importing one file, then another, then the first again keeps the second. */
  lemma ImportTakesEffectExactly(stored: seq<Upload>, upload: Upload)
    requires DistinctKeys(upload.rows)
    ensures var before := Orders(RowsOf(stored));
            Orders(RowsOf(Imported(stored, upload))) == AddRows(before, upload.rows) <==>
            !Known(stored, upload.checksum) || UpToDate(before, upload.rows)
  {
    hide Orders, AddRows, UpToDate;
    var before := Orders(RowsOf(stored));
    if Known(stored, upload.checksum) {
      UpToDateExactly(before, upload.rows);
    } else {
      assert RowsOf(stored + [upload]) == RowsOf(stored) + [upload.rows];
      OrdersAppend(RowsOf(stored), upload.rows);
    }
  }

  // ---------------------------------------------------------------- what was received

  /** SUM(verified_quantity) of the receipts with this key. */
  function Received(verified: seq<VerifiedReceipt>, key: Key): real {
    if verified == [] then 0.0
    else Received(verified[..|verified| - 1], key) +
         if verified[|verified| - 1].key == key then verified[|verified| - 1].quantity else 0.0
  }

  /** The total of the receipts whose key is among `keys`. */
  function Matched(verified: seq<VerifiedReceipt>, keys: set<Key>): real {
    if verified == [] then 0.0
    else Matched(verified[..|verified| - 1], keys) +
         if verified[|verified| - 1].key in keys then verified[|verified| - 1].quantity else 0.0
  }

  function TotalReceived(rows: seq<DeltaRow>): real {
    if rows == [] then 0.0 else TotalReceived(rows[..|rows| - 1]) + rows[|rows| - 1].siteReceived
  }

  /** GROUP BY key in one pass over the table. */
  method GroupReceived(verified: seq<VerifiedReceipt>) returns (received: map<Key, real>)
    ensures forall key :: (if key in received then received[key] else 0.0) == Received(verified, key)
  {
    received := map[];
    for i := 0 to |verified|
      invariant forall key :: (if key in received then received[key] else 0.0) == Received(verified[..i], key)
    {
      var row := verified[i];
      assert verified[..i + 1][..i] == verified[..i];
      received := received[row.key := (if row.key in received then received[row.key] else 0.0) + row.quantity];
    }
    assert verified[..|verified|] == verified;
  }

  lemma {:induction false} MatchedOne(verified: seq<VerifiedReceipt>, keys: set<Key>, key: Key)
    requires key !in keys
    ensures Matched(verified, keys + {key}) == Matched(verified, keys) + Received(verified, key)
  {
    if verified != [] { MatchedOne(verified[..|verified| - 1], keys, key); }
  }

  lemma {:induction false} MatchedNone(verified: seq<VerifiedReceipt>)
    ensures Matched(verified, {}) == 0.0
  {
    if verified != [] { MatchedNone(verified[..|verified| - 1]); }
  }

  function KeysOf(rows: seq<DeltaRow>): set<Key> { set row | row in rows :: row.key }

  ghost predicate RowsOk(rows: seq<DeltaRow>, orders: map<Key, real>, verified: seq<VerifiedReceipt>) {
    && (forall i, j :: 0 <= i < j < |rows| ==> rows[i].key != rows[j].key)
    && forall row :: row in rows ==>
         && row.key in orders && row.poQuantity == orders[row.key]
         && row.siteReceived == Received(verified, row.key)
         && (row.isOver <==> Received(verified, row.key) > orders[row.key])
  }

  /** One row per key ever imported: latest quantity, sum of the verified receipts with that key,
      over or not; and what the rows add up to is the total of the receipts that match one of them. */
  method ReconciliationForSite(imports: seq<Import>, verified: seq<VerifiedReceipt>) returns (rows: seq<DeltaRow>)
    ensures RowsOk(rows, Orders(imports), verified)
    ensures KeysOf(rows) == Orders(imports).Keys
    ensures TotalReceived(rows) == Matched(verified, Orders(imports).Keys)
  {
    var orders := Orders(imports);
    var received := GroupReceived(verified);
    rows := [];
    var left := orders.Keys;
    MatchedNone(verified);
    hide Orders, Matched, Received;
    assert KeysOf(rows) == {};
    while left != {}
      invariant left <= orders.Keys && RowsOk(rows, orders, verified) && KeysOf(rows) == orders.Keys - left
      invariant TotalReceived(rows) == Matched(verified, KeysOf(rows))
      decreases |left|
    {
      var key :| key in left;
      var site := if key in received then received[key] else 0.0;
      var row := DeltaRow(key, orders[key], site, site > orders[key]);
      assert key !in KeysOf(rows);
      MatchedOne(verified, KeysOf(rows), key);
      RowAdded(rows, row, orders, verified);
      KeysLeft(orders.Keys, left, key);
      rows := rows + [row];
      left := left - {key};
    }
  }

  lemma KeysLeft(keys: set<Key>, left: set<Key>, key: Key)
    requires left <= keys && key in left
    ensures keys - (left - {key}) == keys - left + {key} && |left - {key}| < |left|
  {
  }

  lemma RowAdded(rows: seq<DeltaRow>, row: DeltaRow, orders: map<Key, real>, verified: seq<VerifiedReceipt>)
    requires RowsOk(rows, orders, verified) && row.key in orders && row.key !in KeysOf(rows)
    requires row ==
             DeltaRow(row.key, orders[row.key], Received(verified, row.key),
             Received(verified, row.key) > orders[row.key])
    ensures RowsOk(rows + [row], orders, verified) && KeysOf(rows + [row]) == KeysOf(rows) + {row.key}
    ensures TotalReceived(rows + [row]) == TotalReceived(rows) + row.siteReceived
  {
    assert (rows + [row])[..|rows|] == rows;
    forall i | 0 <= i < |rows| ensures rows[i].key != row.key { assert rows[i] in rows; }
    assert (rows + [row])[|rows|] == row;
  }
}
