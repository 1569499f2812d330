/** The statistics panel of src/components/sections/SectionStats.tsx: the
    items of a section grouped by subcategory, the pie-chart entries with
    their cycling colours, and the total, active and expiring-soon figures. */
module SectionStats {
  import opened Wrappers
  import opened Seqs
  import opened Domain
  import ItemCard

  /** The group of items with no subcategory, or an empty one. */
  const OTHER: string := "אחר"

  const COLORS: seq<string> := [
    "hsl(330, 70%, 60%)",
    "hsl(48, 95%, 60%)",
    "hsl(168, 70%, 65%)",
    "hsl(245, 58%, 60%)",
    "hsl(142, 76%, 36%)",
    "hsl(0, 84%, 60%)"
  ]

  /** `item.subcategory || 'אחר'`: a missing or empty subcategory is "other". */
  function GroupOf(item: FinancialItem): (g: string)
    ensures g != ""
    ensures item.subcategory.Some? && item.subcategory.value != "" ==> g == item.subcategory.value
    ensures item.subcategory.None? || item.subcategory.value == "" ==> g == OTHER
  {
    if item.subcategory.Some? && item.subcategory.value != "" then item.subcategory.value else OTHER
  }

  /** The group of every item, in item order. */
  function GroupColumn(items: seq<FinancialItem>): (r: seq<string>)
    ensures |r| == |items| && forall i :: 0 <= i < |items| ==> r[i] == GroupOf(items[i])
  {
    if items == [] then [] else GroupColumn(items[..|items| - 1]) + [GroupOf(items[|items| - 1])]
  }

  function InGroup(g: string): FinancialItem -> bool { (item: FinancialItem) => GroupOf(item) == g }

  /** The items of group `g`. */
  function Members(items: seq<FinancialItem>, g: string): seq<FinancialItem>
  {
    Filter(items, InGroup(g))
  }

  /** One entry of the accumulator dictionary. */
  datatype Stat = Stat(count: nat, value: real)

  /** The sum of the counts of the groups listed in `keys`. */
  function SumCounts(keys: seq<string>, acc: map<string, Stat>): nat
    requires forall k :: k in keys ==> k in acc
  {
    if keys == [] then 0 else SumCounts(keys[..|keys| - 1], acc) + acc[keys[|keys| - 1]].count
  }

  /** The sum of the values of the groups listed in `keys`. */
  function SumValues(keys: seq<string>, acc: map<string, Stat>): real
    requires forall k :: k in keys ==> k in acc
  {
    if keys == [] then 0.0 else SumValues(keys[..|keys| - 1], acc) + acc[keys[|keys| - 1]].value
  }

  /** Changing the entry of a group not listed leaves the sums alone. */
  lemma {:induction false} SumsSkipUnlisted(keys: seq<string>, acc: map<string, Stat>, g: string, st: Stat)
    requires forall k :: k in keys ==> k in acc
    requires g !in keys
    ensures SumCounts(keys, acc[g := st]) == SumCounts(keys, acc)
    ensures SumValues(keys, acc[g := st]) == SumValues(keys, acc)
  {
    if keys != [] {
      SumsSkipUnlisted(keys[..|keys| - 1], acc, g, st);
    }
  }

  /** Bumping the entry of a group listed once moves the sums by the bump. */
  lemma {:induction false} SumsBump(keys: seq<string>, acc: map<string, Stat>, g: string, v: real)
    requires forall k :: k in keys ==> k in acc
    requires NoDups(keys) && g in keys
    ensures SumCounts(keys, acc[g := Stat(acc[g].count + 1, acc[g].value + v)]) == SumCounts(keys, acc) + 1
    ensures SumValues(keys, acc[g := Stat(acc[g].count + 1, acc[g].value + v)]) == SumValues(keys, acc) + v
  {
    var init, last := keys[..|keys| - 1], keys[|keys| - 1];
    var bumped := acc[g := Stat(acc[g].count + 1, acc[g].value + v)];
    if last == g {
      assert g !in init by {
        forall j | 0 <= j < |init| ensures init[j] != g {
          assert keys[j] != keys[|keys| - 1];
        }
      }
      SumsSkipUnlisted(init, acc, g, bumped[g]);
    } else {
      assert g in init by {
        var j :| 0 <= j < |keys| && keys[j] == g;
        assert j < |keys| - 1;
        assert init[j] == g;
      }
      SumsBump(init, acc, g, v);
    }
  }

  /** The groups in the order they first appear: the keys of the
      dictionary in insertion order. */
  function KeysOf(items: seq<FinancialItem>): seq<string>
  {
    if items == [] then []
    else
      var keys := KeysOf(items[..|items| - 1]);
      var g := GroupOf(items[|items| - 1]);
      if g in keys then keys else keys + [g]
  }

  /** The count and value sum of group `k`. */
  function Entry(items: seq<FinancialItem>, k: string): Stat
  {
    if items == [] then Stat(0, 0.0)
    else
      var e := Entry(items[..|items| - 1], k);
      var last := items[|items| - 1];
      if GroupOf(last) == k then Stat(e.count + 1, e.value + last.value) else e
  }

  /** The accumulator after the items in `items`: one entry per group, in
      the order the groups first appear, each with its count and value sum. */
  ghost predicate Grouped(items: seq<FinancialItem>, keys: seq<string>, acc: map<string, Stat>)
  {
    && keys == KeysOf(items)
    && (forall k :: k in keys <==> k in acc)
    && (forall k :: k in acc ==> acc[k] == Entry(items, k))
  }

  /** `subcategoryStats`: the `reduce` that fills the dictionary in place,
      one item at a time. `keys` is the dictionary's insertion order, which
      `Object.entries` follows for keys that are not array indices; group
      names that look like array indices ("3", "12"), which JavaScript lists
      first in ascending order, and names inherited from `Object.prototype`
      ("toString", "constructor"), whose groups JavaScript loses, are outside
      this model. Each group is listed once, in the order it
      first appears, with the number of its members and the sum of their
      values; every item lands in exactly one group, so the counts add up to
      the number of items and the values to the total. */
  method SubcategoryStats(items: seq<FinancialItem>) returns (keys: seq<string>, acc: map<string, Stat>)
    ensures keys == Dedup(GroupColumn(items))
    ensures forall k :: k in keys <==> k in acc
    ensures forall k :: k in acc ==> acc[k] == Stat(|Members(items, k)|, Total(Members(items, k)))
    ensures SumCounts(keys, acc) == |items|
    ensures SumValues(keys, acc) == Total(items)
  {
    keys, acc := [], map[];
    for i := 0 to |items|
      invariant Grouped(items[..i], keys, acc)
      invariant NoDups(keys)
      invariant SumCounts(keys, acc) == i
      invariant SumValues(keys, acc) == Total(items[..i])
    {
      ReduceStep(items, i, keys, acc);
      keys, acc := AddToGroup(keys, acc, GroupOf(items[i]), items[i].value);
    }
    assert items[..|items|] == items;
    GroupedMeaning(items, keys, acc);
  }

  /** One pass of the `reduce` keeps the loop's invariant. */
  lemma ReduceStep(items: seq<FinancialItem>, i: nat, keys: seq<string>, acc: map<string, Stat>)
    requires i < |items|
    requires Grouped(items[..i], keys, acc) && NoDups(keys)
    requires SumCounts(keys, acc) == i && SumValues(keys, acc) == Total(items[..i])
    ensures var g, v := GroupOf(items[i]), items[i].value;
      && Grouped(items[..i + 1], AddKey(keys, acc, g), Bump(acc, g, v))
      && NoDups(AddKey(keys, acc, g))
      && SumCounts(AddKey(keys, acc, g), Bump(acc, g, v)) == i + 1
      && SumValues(AddKey(keys, acc, g), Bump(acc, g, v)) == Total(items[..i + 1])
  {
    var item := items[i];
    assert items[..i + 1] == items[..i] + [item];
    var g := GroupOf(item);
    GroupedStep(items[..i], item, keys, acc);
    SumsStep(keys, acc, g, item.value);
    KeysStep(keys, acc, g, item.value);
    TotalAppend(items[..i], [item]);
  }

  /** The body of the `reduce`: start the group's entry at zero when it is
      new, then count the item and add its value. */
  method AddToGroup(keys: seq<string>, acc: map<string, Stat>, g: string, v: real)
    returns (keys': seq<string>, acc': map<string, Stat>)
    ensures keys' == AddKey(keys, acc, g) && acc' == Bump(acc, g, v)
  {
    keys', acc' := keys, acc;
    if g !in acc' {
      keys' := keys' + [g];
      acc' := acc'[g := Stat(0, 0.0)];
    }
    acc' := acc'[g := Stat(acc'[g].count + 1, acc'[g].value + v)];
  }

  /** The key list after adding group `g`: a new group goes at the end. */
  function AddKey(keys: seq<string>, acc: map<string, Stat>, g: string): seq<string>
  {
    if g in acc then keys else keys + [g]
  }

  /** The dictionary after adding a value to group `g`, starting it at zero
      when it is new. */
  function Bump(acc: map<string, Stat>, g: string, v: real): map<string, Stat>
  {
    var old' := if g in acc then acc[g] else Stat(0, 0.0);
    acc[g := Stat(old'.count + 1, old'.value + v)]
  }

  /** One step of the `reduce` moves the sums by one item. */
  lemma SumsStep(keys: seq<string>, acc: map<string, Stat>, g: string, v: real)
    requires NoDups(keys) && forall k :: k in keys <==> k in acc
    ensures SumCounts(AddKey(keys, acc, g), Bump(acc, g, v)) == SumCounts(keys, acc) + 1
    ensures SumValues(AddKey(keys, acc, g), Bump(acc, g, v)) == SumValues(keys, acc) + v
  {
    if g in acc {
      SumsBump(keys, acc, g, v);
    } else {
      var acc' := Bump(acc, g, v);
      SumsSkipUnlisted(keys, acc, g, acc'[g]);
      assert (keys + [g])[..|keys|] == keys;
    }
  }

  /** One step of the `reduce` keeps every key once and in the dictionary. */
  lemma KeysStep(keys: seq<string>, acc: map<string, Stat>, g: string, v: real)
    requires NoDups(keys) && forall k :: k in keys <==> k in acc
    ensures NoDups(AddKey(keys, acc, g))
    ensures forall k :: k in AddKey(keys, acc, g) <==> k in Bump(acc, g, v)
  {
  }

  /** One step of the `reduce`, stated on the function side. */
  lemma GroupedStep(prefix: seq<FinancialItem>, item: FinancialItem, keys: seq<string>, acc: map<string, Stat>)
    requires Grouped(prefix, keys, acc)
    ensures Grouped(prefix + [item], AddKey(keys, acc, GroupOf(item)), Bump(acc, GroupOf(item), item.value))
  {
    var g := GroupOf(item);
    assert (prefix + [item])[..|prefix|] == prefix;
    if g !in acc {
      EntryAbsent(prefix, g);
    }
  }

  /** A group that no item falls in has an empty entry. */
  lemma {:induction false} EntryAbsent(items: seq<FinancialItem>, k: string)
    requires k !in KeysOf(items)
    ensures Entry(items, k) == Stat(0, 0.0)
  {
    if items != [] {
      EntryAbsent(items[..|items| - 1], k);
    }
  }

  /** The accumulator, read back: its keys are the distinct groups in order
      of first appearance, and each entry counts and sums its members. */
  lemma GroupedMeaning(items: seq<FinancialItem>, keys: seq<string>, acc: map<string, Stat>)
    requires Grouped(items, keys, acc)
    ensures keys == Dedup(GroupColumn(items))
    ensures forall k :: k in acc ==> acc[k] == Stat(|Members(items, k)|, Total(Members(items, k)))
  {
    KeysOfIsDedup(items);
    forall k | k in acc
      ensures acc[k] == Stat(|Members(items, k)|, Total(Members(items, k)))
    {
      EntryIsMembers(items, k);
    }
  }

  lemma {:induction false} KeysOfIsDedup(items: seq<FinancialItem>)
    ensures KeysOf(items) == Dedup(GroupColumn(items))
  {
    if items != [] {
      var col := GroupColumn(items);
      KeysOfIsDedup(items[..|items| - 1]);
      assert col[..|col| - 1] == GroupColumn(items[..|items| - 1]);
    }
  }

  lemma {:induction false} EntryIsMembers(items: seq<FinancialItem>, k: string)
    ensures Entry(items, k) == Stat(|Members(items, k)|, Total(Members(items, k)))
  {
    if items != [] {
      EntryIsMembers(items[..|items| - 1], k);
      MembersLast(items, k);
    }
  }

  /** A group's members grow by the last item exactly when it is in the group. */
  lemma MembersLast(items: seq<FinancialItem>, k: string)
    requires items != []
    ensures var init, last := items[..|items| - 1], items[|items| - 1];
      && Total(Members(items, k)) == Total(Members(init, k)) + (if GroupOf(last) == k then last.value else 0.0)
      && |Members(items, k)| == |Members(init, k)| + (if GroupOf(last) == k then 1 else 0)
  {
    var init, last := items[..|items| - 1], items[|items| - 1];
    var tail := if GroupOf(last) == k then [last] else [];
    assert Members(items, k) == Members(init, k) + tail;
    TotalAppend(Members(init, k), tail);
  }

  /** One slice of the pie. */
  datatype ChartEntry = ChartEntry(name: string, value: real, count: nat, color: string)

  /** `chartData`: the groups in dictionary order, the i-th coloured with the
      i-th colour of a six-colour cycle. */
  function ChartData(keys: seq<string>, acc: map<string, Stat>): (r: seq<ChartEntry>)
    requires forall k :: k in keys ==> k in acc
    ensures |r| == |keys|
    ensures forall i :: 0 <= i < |r| ==>
      r[i].name == keys[i] && r[i].count == acc[keys[i]].count && r[i].value == acc[keys[i]].value
    ensures forall i :: 0 <= i < |r| ==> r[i].color == COLORS[i % |COLORS|]
  {
    seq(|keys|, i requires 0 <= i < |keys| => ChartEntry(keys[i], acc[keys[i]].value, acc[keys[i]].count, COLORS[i % |COLORS|]))
  }

  /** The sum of the slices' values: the whole of the pie. */
  function ChartTotal(r: seq<ChartEntry>): real
  {
    if r == [] then 0.0 else ChartTotal(r[..|r| - 1]) + r[|r| - 1].value
  }

  /** The number of items the slices account for. */
  function ChartCount(r: seq<ChartEntry>): nat
  {
    if r == [] then 0 else ChartCount(r[..|r| - 1]) + r[|r| - 1].count
  }

  /** The slices add up to the dictionary's sums; with `SubcategoryStats`
      the pie therefore covers every item and the panel's total value, so
      the tooltip's percentages add up to a hundred. */
  lemma {:induction false} ChartCoversStats(keys: seq<string>, acc: map<string, Stat>)
    requires forall k :: k in keys ==> k in acc
    ensures ChartTotal(ChartData(keys, acc)) == SumValues(keys, acc)
    ensures ChartCount(ChartData(keys, acc)) == SumCounts(keys, acc)
  {
    if keys != [] {
      var init := keys[..|keys| - 1];
      ChartCoversStats(init, acc);
      assert ChartData(keys, acc)[..|init|] == ChartData(init, acc);
    }
  }

  /** The colours repeat every six entries, and any six consecutive entries
      all have different colours. */
  lemma ColorsCycle(keys: seq<string>, acc: map<string, Stat>, i: nat, j: nat)
    requires forall k :: k in keys ==> k in acc
    requires i < j < |keys|
    ensures var r := ChartData(keys, acc);
      r[i].color == r[j].color <==> (j - i) % 6 == 0
  {
    var r := ChartData(keys, acc);
    var a, b := i % 6, j % 6;
    assert r[i].color == COLORS[a] && r[j].color == COLORS[b];
    SameRemainder(i, j);
    if a != b {
      ColorsDistinct();
      assert a < b || b < a;
    }
  }

  lemma SameRemainder(i: nat, j: nat)
    requires i < j
    ensures (j - i) % 6 == 0 <==> i % 6 == j % 6
  {
    var d := j - i;
    assert j == i + d;
    assert i == 6 * (i / 6) + i % 6 && d == 6 * (d / 6) + d % 6;
  }

  /** No colour appears twice in the palette. */
  lemma ColorsDistinct()
    ensures forall a, b :: 0 <= a < b < |COLORS| ==> COLORS[a] != COLORS[b]
  {
    assert COLORS[0][4] == '3' && COLORS[0][5] == '3';
    assert COLORS[1][4] == '4' && COLORS[1][5] == '8';
    assert COLORS[2][4] == '1' && COLORS[2][5] == '6';
    assert COLORS[3][4] == '2' && COLORS[3][5] == '4';
    assert COLORS[4][4] == '1' && COLORS[4][5] == '4';
    assert COLORS[5][4] == '0' && COLORS[5][5] == ',';
  }

  /** `activeCount`: the items whose status is active. */
  function ActiveCount(items: seq<FinancialItem>): (n: nat)
    ensures n <= |items|
  {
    |Filter(items, (item: FinancialItem) => item.status == ACTIVE)|
  }

  /** The item expires one to thirty days from today; without an expiry it
      never does. */
  predicate ExpiringSoon(item: FinancialItem, today: Day) {
    item.expiryDate.Some? && var days := item.expiryDate.value - today; days <= 30 && days > 0
  }

  /** The card and the panel agree on what expiring soon means. */
  lemma ExpiringSoonAsCard(item: FinancialItem, today: Day)
    ensures ExpiringSoon(item, today) <==> ItemCard.IsExpiringSoon(ItemCard.DaysUntilExpiry(item.expiryDate, today))
  {
  }

  function SoonTest(today: Day): FinancialItem -> bool { (item: FinancialItem) => ExpiringSoon(item, today) }

  /** `expiringSoonCount`. */
  function ExpiringSoonCount(items: seq<FinancialItem>, today: Day): (n: nat)
    ensures n <= |items|
  {
    |Filter(items, SoonTest(today))|
  }

  /** An item without an expiry date never adds to the expiring-soon count,
      and neither does one that is already expired. */
  lemma ExpiringSoonIgnores(items: seq<FinancialItem>, item: FinancialItem, today: Day)
    requires item.expiryDate.None? || item.expiryDate.value <= today
    ensures ExpiringSoonCount(items + [item], today) == ExpiringSoonCount(items, today)
  {
    assert (items + [item])[..|items|] == items;
  }

  /** The three summary cards. */
  datatype Summary = Summary(totalValue: real, activeCount: nat, expiringSoonCount: nat)

  /** The panel renders nothing for an empty list; otherwise it shows the
      total, the active count and the expiring-soon count. */
  function Panel(items: seq<FinancialItem>, today: Day): (p: Option<Summary>)
    ensures p.None? <==> items == []
    ensures p.Some? ==>
      p.value == Summary(Total(items), ActiveCount(items), ExpiringSoonCount(items, today))
    ensures p.Some? ==> p.value.activeCount <= |items| && p.value.expiringSoonCount <= |items|
  {
    if |items| == 0 then None
    else Some(Summary(Total(items), ActiveCount(items), ExpiringSoonCount(items, today)))
  }
}
